/**
 The due and type indexes of triggers, and the disarming of a tripped definition. A store
 of a trigger moves its rows from those of the trigger it is told was stored: exactly
 when that keeps the index exact, for every step.
 */
module TriggerIndex {
  import opened Options
  import opened Order
  import opened Schedule
  import opened SchedulePromotion
  import R = Runs

  // ── exactness ─────────────────────────────────────────────────────────────

  /** The index rows of a key are exactly those of the stored trigger. */
  ghost predicate ExactAt(s: Store, k: string) {
    forall r: IndexKey :: r.key == k ==> (r in s.index <==> r in RowsOf(k, Current(s.triggers, k)))
  }

  ghost predicate Exact(s: Store) {
    forall k :: ExactAt(s, k)
  }

  lemma AllRowsAt(triggers: map<string, Trigger>, r: IndexKey)
    ensures r in AllRows(triggers) <==> r in RowsOf(r.key, Current(triggers, r.key))
  {
    if r in RowsOf(r.key, Current(triggers, r.key)) {
      assert r.key in triggers && r in RowsOf(r.key, Some(triggers[r.key]));
    }
  }

  /** The index is exact when it is the rows of all triggers. */
  lemma ExactIsAll(s: Store)
    ensures Exact(s) <==> s.index == AllRows(s.triggers)
  {
    forall r: IndexKey ensures r in AllRows(s.triggers) <==> r in RowsOf(r.key, Current(s.triggers, r.key)) {
      AllRowsAt(s.triggers, r);
    }
    if Exact(s) {
      forall r ensures r in s.index <==> r in AllRows(s.triggers) {
        assert ExactAt(s, r.key);
      }
    }
  }

  /** The due range at `now` finds exactly the triggers due at `now`, and a type's range
      those that listen to it. */
  lemma DueTriggers(s: Store, k: string, now: int)
    requires ExactAt(s, k)
    ensures (exists at :: at <= now && DueRow(at, k) in s.index) <==>
            k in s.triggers && s.triggers[k].at.Some? && s.triggers[k].at.value <= now
    ensures forall ty :: TypeRow(ty, k) in s.index <==> k in s.triggers && ty in s.triggers[k].types
  {
    forall at: int ensures DueRow(at, k) in s.index <==> k in s.triggers && s.triggers[k].at == Some(at) {
      var r := DueRow(at, k);
      assert r in s.index <==> r in RowsOf(k, Current(s.triggers, k));
    }
    forall ty: string ensures TypeRow(ty, k) in s.index <==> k in s.triggers && ty in s.triggers[k].types {
      var r := TypeRow(ty, k);
      assert r in s.index <==> r in RowsOf(k, Current(s.triggers, k));
    }
    if k in s.triggers && s.triggers[k].at.Some? && s.triggers[k].at.value <= now {
      assert DueRow(s.triggers[k].at.value, k) in s.index;
    }
  }

  // ── one store ─────────────────────────────────────────────────────────────

  /** The rows stored under the key and those taken to be stored differ only where the
      new trigger's rows make up for it. */
  predicate Compatible(k: string, stored: Option<Trigger>, before: Option<Trigger>, after: Option<Trigger>) {
    && RowsOf(k, stored) <= RowsOf(k, before) + RowsOf(k, after)
    && RowsOf(k, before) * RowsOf(k, after) <= RowsOf(k, stored)
  }

  /** Storing a trigger keeps its rows exact if and only if the trigger it replaces is
      compatible with the one it is taken to replace. */
  lemma StoreIsExact(s: Store, k: string, before: Option<Trigger>, after: Option<Trigger>, t: Store)
    requires ExactAt(s, k) && (after.Some? || before.Some?) && t == PutTrigger(s, k, before, after)
    ensures ExactAt(t, k) <==> Compatible(k, Current(s.triggers, k), before, after)
  {
    var stored := Current(s.triggers, k);
    assert Current(t.triggers, k) == after;
    if ExactAt(t, k) {
      forall r | r in RowsOf(k, stored) ensures r in RowsOf(k, before) + RowsOf(k, after) {
        assert r in t.index ==> r in RowsOf(k, after);
      }
      forall r | r in RowsOf(k, before) * RowsOf(k, after) ensures r in RowsOf(k, stored) {
        assert r in t.index;
      }
    }
  }

  lemma OtherKeys(s: Store, k: string, before: Option<Trigger>, after: Option<Trigger>, t: Store, j: string)
    requires t == PutTrigger(s, k, before, after) && j != k
    ensures ExactAt(t, j) <==> ExactAt(s, j)
  {
    assert Current(t.triggers, j) == Current(s.triggers, j);
    assert forall r: IndexKey :: r.key == j ==> (r in t.index <==> r in s.index);
  }

  /** A store that reads the trigger it replaces is exact. */
  lemma FreshStore(s: Store, k: string, after: Option<Trigger>, t: Store)
    requires t == PutTrigger(s, k, Current(s.triggers, k), after) && (k in s.triggers || after.Some?)
    ensures KeepsExact(s, t)
  {
    forall j | ExactAt(s, j) ensures ExactAt(t, j) {
      if j == k {
        StoreIsExact(s, k, Current(s.triggers, k), after, t);
      } else {
        OtherKeys(s, k, Current(s.triggers, k), after, t, j);
      }
    }
  }

  lemma ArmIsExact(s: Store, owned: set<string>, wanted: map<string, Trigger>, t: Store)
    requires t == Arm(s, owned, wanted)
    ensures KeepsExact(s, t)
  {
    forall k | ExactAt(s, k) ensures ExactAt(t, k) {
      forall r: IndexKey | r.key == k ensures r in t.index <==> r in RowsOf(k, Current(t.triggers, k)) {
        AllRowsAt(s.triggers, r);
        AllRowsAt(t.triggers, r);
      }
    }
  }

  // ── steps that read what they replace ─────────────────────────────────────

  ghost predicate KeepsExact(s: Store, t: Store) {
    forall k {:trigger ExactAt(t, k)} :: ExactAt(s, k) ==> ExactAt(t, k)
  }

  /** The triggers a definition owned when it tripped are gone. */
  ghost predicate Disarms(s: Store, t: Store) {
    forall n, k :: n in s.defs && s.defs[n].tripped.None? && k in s.defs[n].triggers && n in t.defs && t.defs[n].tripped.Some? ==>
                     k !in t.triggers
  }

  /** A trigger goes only with a trip of its definition. */
  ghost predicate GoesByTrip(s: Store, t: Store, k: string) {
    exists n :: n in s.defs && s.defs[n].tripped.None? && k in s.defs[n].triggers && n in t.defs && t.defs[n].tripped.Some?
  }

  ghost predicate OnlyTripsRemove(s: Store, t: Store) {
    forall k {:trigger k in t.triggers} :: k in s.triggers && k !in t.triggers ==> GoesByTrip(s, t, k)
  }

  ghost predicate TrigKeeps(s: Store, t: Store) {
    TripsStand(s, t) && t.triggers.Keys <= s.triggers.Keys && Disarms(s, t) && KeepsExact(s, t)
  }

  /** What cancellations may do to triggers. */
  ghost predicate TrigMoves(s: Store, t: Store) {
    TrigKeeps(s, t) && OnlyTripsRemove(s, t)
  }

  /** What promotions may do: triggers left and stored runs stay as they were. */
  ghost predicate TrigDrains(s: Store, t: Store) {
    TrigMoves(s, t) && SameTriggers(s, t) && RunsKept(s.runs, t.runs)
  }

  ghost predicate SameTriggers(s: Store, t: Store) {
    forall k :: k in t.triggers ==> k in s.triggers && t.triggers[k] == s.triggers[k]
  }

  lemma TrigStill(s: Store, t: Store)
    requires t.triggers == s.triggers && t.index == s.index && t.defs == s.defs && t.notices == s.notices
    ensures TrigMoves(s, t) && SameTriggers(s, t)
  {
    TripsStandStill(s, t);
    forall k | ExactAt(s, k) ensures ExactAt(t, k) {
    }
  }

  lemma DisarmsOn(s: Store, t: Store, u: Store)
    requires TripsStand(s, t) && Disarms(s, t) && Disarms(t, u) && u.triggers.Keys <= t.triggers.Keys
    ensures Disarms(s, u)
  {
    forall n, k | n in s.defs && s.defs[n].tripped.None? && k in s.defs[n].triggers && n in u.defs && u.defs[n].tripped.Some?
      ensures k !in u.triggers
    {
      assert DefMoves(n, s.defs[n], t.defs[n], t.notices);
      assert t.defs[n].tripped.None? ==> k in t.defs[n].triggers;
    }
  }

  lemma RemovesOn(s: Store, t: Store, u: Store)
    requires TripsStand(s, t) && TripsStand(t, u) && OnlyTripsRemove(s, t) && OnlyTripsRemove(t, u)
    ensures OnlyTripsRemove(s, u)
  {
    forall k | k in s.triggers && k !in u.triggers ensures GoesByTrip(s, u, k) {
      if k in t.triggers {
        assert GoesByTrip(t, u, k);
        var n :| n in t.defs && t.defs[n].tripped.None? && k in t.defs[n].triggers && n in u.defs && u.defs[n].tripped.Some?;
        assert DefMoves(n, s.defs[n], t.defs[n], t.notices);
      } else {
        assert GoesByTrip(s, t, k);
        var n :| n in s.defs && s.defs[n].tripped.None? && k in s.defs[n].triggers && n in t.defs && t.defs[n].tripped.Some?;
        assert DefMoves(n, t.defs[n], u.defs[n], u.notices);
      }
    }
  }

  lemma KeepsOn(s: Store, t: Store, u: Store)
    requires TrigKeeps(s, t) && TrigKeeps(t, u)
    ensures TrigKeeps(s, u)
  {
    TripsStandOn(s, t, u);
    DisarmsOn(s, t, u);
    forall k | ExactAt(s, k) ensures ExactAt(u, k) {
      assert ExactAt(t, k);
    }
  }

  lemma TrigOn(s: Store, t: Store, u: Store)
    requires TrigMoves(s, t) && TrigMoves(t, u)
    ensures TrigMoves(s, u)
  {
    KeepsOn(s, t, u);
    RemovesOn(s, t, u);
  }

  lemma TrigDrainsOn(s: Store, t: Store, u: Store)
    requires TrigDrains(s, t) && TrigDrains(t, u)
    ensures TrigDrains(s, u)
  {
    TrigOn(s, t, u);
  }

  lemma CountTrig(s: Store, name: string, faults: Count, t: Store)
    requires name in s.defs && s.defs[name].tripped.None? && t == s.(defs := s.defs[name := s.defs[name].(faults := faults)])
    ensures TrigDrains(s, t)
  {
    forall k | ExactAt(s, k) ensures ExactAt(t, k) {
    }
  }

  lemma ArmedNone(s: Store, owned: set<string>, m: Store)
    requires m == Arm(s, owned, map[])
    ensures m.triggers == s.triggers - owned
  {
  }

  lemma TripTrig(s: Store, run: Admission, c: Definition, threshold: Count, now: int, t: Store)
    requires run.name in s.defs && s.defs[run.name].tripped.None? && c == s.defs[run.name].(faults := c.faults)
    requires threshold <= c.faults && t == Tripped(s, run, c, threshold, now)
    ensures TrigDrains(s, t)
  {
    TripStands(s, run, c, threshold, now, t);
    var m := Arm(s, c.triggers, map[]);
    ArmIsExact(s, c.triggers, map[], m);
    SameExact(s, m, t);
    ArmedNone(s, c.triggers, m);
    TripRows(s, run.name, t);
  }

  lemma SameExact(s: Store, m: Store, t: Store)
    requires KeepsExact(s, m) && t.triggers == m.triggers && t.index == m.index
    ensures KeepsExact(s, t)
  {
    forall k | ExactAt(s, k) ensures ExactAt(t, k) {
      assert ExactAt(m, k);
    }
  }

  lemma TripRows(s: Store, name: string, t: Store)
    requires name in s.defs && s.defs[name].tripped.None? && name in t.defs && t.defs[name].tripped.Some?
    requires t.triggers == s.triggers - s.defs[name].triggers && t.defs == s.defs[name := t.defs[name]]
    ensures Disarms(s, t) && OnlyTripsRemove(s, t) && SameTriggers(s, t)
  {
    forall k | k in s.triggers && k !in t.triggers ensures GoesByTrip(s, t, k) {
      assert k in s.defs[name].triggers;
    }
  }

  lemma ObserveTrig(s: Store, run: Admission, epoch: Option<nat>, seen: Seen, default_: Count, now: int, t: Store)
    requires t == Observe(s, run, epoch, seen, default_, now)
    ensures TrigDrains(s, t)
  {
    if !Observes(s, run, epoch) || seen.Neither? {
      TrigStill(s, t);
    } else if seen.ASuccess? {
      if s.defs[run.name].faults > 0 {
        CountTrig(s, run.name, 0, t);
      } else {
        TrigStill(s, t);
      }
    } else {
      var c := Counted(s.defs[run.name]);
      var threshold := Effective(PolicyOf(s.defs[run.name], run.version), default_);
      if threshold.Some? && c.faults >= threshold.value {
        TripTrig(s, run, c, threshold.value, now, t);
      } else {
        CountTrig(s, run.name, c.faults, t);
      }
    }
  }

  lemma RefuseTrig(s: Store, a: Admission, f: Fault, now: int, t: Store)
    requires Refuse(s, a, f, now) == Ok(t)
    ensures TrigDrains(s, t)
  {
    if a.id in s.runs {
      TrigStill(s, t);
    } else {
      var m := Inserted(s, a, None, None, false);
      TrigStill(s, m);
      ObserveTrig(m, a, EpochOf(s.defs, a), AFault, f.threshold, now, t);
      TrigDrainsOn(s, m, t);
    }
  }

  lemma AdmitFrame(s: Store, k: string, a: Admission, rearm: Option<Rearm>, next: Option<Trigger>, t: Store)
    requires AdmitFiring(s, k, a, rearm, next) == Ok(t)
    ensures t == s.(runs := t.runs, last := t.last) && RunsKept(s.runs, t.runs)
  {
    var attached := if rearm.Some? && next.Some? then Some((rearm.value, next.value)) else None;
    InsertFrame(s, a, Root, Some(k), attached, Insert(s, a, Root, Some(k), attached).s);
  }

  lemma InsertFrame(s: Store, a: Admission, kind: Kind, trigger: Option<string>, rearm: Option<(Rearm, Trigger)>, t: Store)
    requires Insert(s, a, kind, trigger, rearm) == Ok(t)
    ensures t == s.(runs := t.runs) && RunsKept(s.runs, t.runs)
  {
  }

  lemma AdmitTrig(s: Store, k: string, a: Admission, rearm: Option<Rearm>, next: Option<Trigger>, t: Store)
    requires AdmitFiring(s, k, a, rearm, next) == Ok(t)
    ensures TrigDrains(s, t) && t == s.(runs := t.runs, last := t.last)
  {
    AdmitFrame(s, k, a, rearm, next, t);
    TrigStill(s, t);
  }

  lemma DrainOneTrig(s: Store, row: Key, now: int, t: Store)
    requires DrainOne(s, row, now) == Ok(t)
    ensures TrigDrains(s, t)
  {
    var k := row.1;
    if t == s {
      TrigStill(s, t);
    } else {
      var q, m := s.queue[k], RemoveQueue(s, k);
      TrigStill(s, m);
      if q.failure.Some? {
        RefuseTrig(m, q.admission, q.failure.value, now, t);
      } else {
        AdmitTrig(m, k, q.admission, q.rearm, Some(s.triggers[k]), t);
      }
      TrigDrainsOn(s, m, t);
    }
  }

  lemma {:induction false} DrainKeysTrig(s: Store, keys: seq<Key>, now: int, t: Store)
    requires DrainKeys(s, keys, now) == Ok(t)
    ensures TrigDrains(s, t)
    decreases |keys|
  {
    if keys == [] {
      TrigStill(s, t);
    } else {
      var m := DrainOne(s, keys[0], now).s;
      DrainOneTrig(s, keys[0], now, m);
      DrainKeysTrig(m, keys[1..], now, t);
      TrigDrainsOn(s, m, t);
    }
  }

  lemma DrainTrig(s: Store, name: string, now: int, t: Store)
    requires Drain(s, name, now) == Ok(t)
    ensures TrigDrains(s, t)
  {
    if s.stopped {
      assert t == s.(drain := t.drain);
      TrigStill(s, t);
    } else {
      DrainKeysTrig(s, Sorted(QueueRows(s, name)), now, t);
    }
  }

  lemma {:induction false} DrainNamesTrig(s: Store, names: seq<Key>, now: int, t: Store)
    requires DrainNames(s, names, now) == Ok(t)
    ensures TrigDrains(s, t)
    decreases |names|
  {
    if names == [] {
      TrigStill(s, t);
    } else {
      var m := Drain(s, names[0].0, now).s;
      DrainTrig(s, names[0].0, now, m);
      DrainNamesTrig(m, names[1..], now, t);
      TrigDrainsOn(s, m, t);
    }
  }

  lemma UnmarkTrig(s: Store, name: string, now: int, t: Store)
    requires Drain(s.(drain := s.drain - {name}), name, now) == Ok(t)
    ensures TrigDrains(s, t)
  {
    var m := s.(drain := s.drain - {name});
    TrigStill(s, m);
    DrainTrig(m, name, now, t);
    TrigDrainsOn(s, m, t);
  }

  lemma MarkedTrig(s: Store, name: string, now: int, t: Store)
    requires DrainMarked(s, name, now) == Ok(t)
    ensures TrigDrains(s, t)
  {
    if name in s.drain && !s.stopped {
      UnmarkTrig(s, name, now, t);
    } else {
      TrigStill(s, t);
    }
  }

  lemma {:induction false} MarksTrig(s: Store, names: seq<Key>, now: int, t: Store)
    requires DrainMarks(s, names, now) == Ok(t)
    ensures TrigDrains(s, t)
    decreases |names|
  {
    if names == [] {
      TrigStill(s, t);
    } else {
      var m := Drain(s.(drain := s.drain - {names[0].0}), names[0].0, now).s;
      UnmarkTrig(s, names[0].0, now, m);
      MarksTrig(m, names[1..], now, t);
      TrigDrainsOn(s, m, t);
    }
  }

  lemma RearmedTrig(s: Store, r: Run, now: int, t: Store)
    requires t == Rearmed(s, r, now)
    ensures TrigMoves(s, t)
  {
    if t == s {
      TrigStill(s, t);
    } else {
      var rearm, armed := r.rearm.value.0, r.rearm.value.1;
      FreshStore(s, rearm.trigger, Some(armed.(at := Some(R.Later(now, rearm.delay)))), t);
      TripsStandStill(s, t);
    }
  }

  lemma TerminateTrig(w: World, s: Store, id: Id, now: int, t: Store)
    requires Terminate(w, s, id, now) == Ok(t)
    ensures TrigMoves(s, t)
  {
    if id in s.runs && s.runs[id].live {
      var a := s.(runs := EndRuns(w, s.runs, id));
      TrigStill(s, a);
      var b := Rearmed(a, s.runs[id], now);
      RearmedTrig(a, s.runs[id], now, b);
      TrigOn(s, a, b);
      DrainNamesTrig(b, Sorted(AsKeys(EndedNames(w, s.runs, id))), now, t);
      TrigOn(s, b, t);
    } else {
      TrigStill(s, t);
    }
  }

  lemma {:induction false} TerminateAllTrig(w: World, s: Store, ids: seq<Key>, now: int, t: Store)
    requires TerminateAll(w, s, ids, now) == Ok(t)
    ensures TrigMoves(s, t)
    decreases |ids|
  {
    if ids == [] {
      TrigStill(s, t);
    } else {
      var m := Terminate(w, s, ids[0].0, now).s;
      TerminateTrig(w, s, ids[0].0, now, m);
      TerminateAllTrig(w, m, ids[1..], now, t);
      TrigOn(s, m, t);
    }
  }

  lemma {:induction false} AdmitAllTrig(s: Store, f: Firing, admit: seq<Admission>, t: Store)
    requires AdmitAll(s, f, admit) == Ok(t)
    ensures t == s.(runs := t.runs, last := t.last)
    decreases |admit|
  {
    if admit != [] {
      var m := AdmitFiring(s, f.key, admit[0], f.rearm, f.next).s;
      AdmitTrig(s, f.key, admit[0], f.rearm, f.next, m);
      AdmitAllTrig(m, f, admit[1..], t);
    }
  }

  // ── firings ───────────────────────────────────────────────────────────────

  lemma RefuseFiringTrig(s: Store, k: string, r: Refusal, now: int, t: Store)
    requires RefuseFiring(s, k, r, now) == Ok(t)
    ensures TrigDrains(s, t)
  {
    var m := Refuse(s, r.admission, r.fault, now).s;
    RefuseTrig(s, r.admission, r.fault, now, m);
    TrigStill(m, t);
    TrigDrainsOn(s, m, t);
  }

  /** After its store a committed firing only admits and observes. */
  lemma CommitTrig(s: Store, f: Firing, now: int, a: Store, t: Store)
    requires Commit(s, f, now).Fires? && t == Commit(s, f, now).s && a == PutTrigger(s, f.key, f.expected, f.next)
    ensures TrigMoves(a, t)
  {
    var b := AdmitAll(a, f, f.admit).s;
    AdmitAllTrig(a, f, f.admit, b);
    TrigStill(a, b);
    if f.refused.Some? {
      RefuseFiringTrig(b, f.key, f.refused.value, now, t);
      TrigOn(a, b, t);
    }
  }

  /** The firing cancels the live runs of its trigger before it stores the next one. */
  predicate Replaces(s: Store, f: Firing) {
    f.overlap.Some? && f.overlap.value.policy.Replace? && Candidate(f).Some? && Candidate(f).value.id !in s.runs && !f.ingested
  }

  /** The store when the firing stores its trigger. */
  function AtStore(w: World, s: Store, f: Firing, now: int): Store {
    if Replaces(s, f) then
      var m := TerminateAll(w, s, Sorted(AsKeys(LiveOf(s.runs, f.key))), now);
      if m.Ok? then m.s else s
    else s
  }

  /** What it stores: the next trigger, or one that records a skip. */
  function StoredNext(w: World, s: Store, f: Firing, now: int): Option<Trigger> {
    match FireChecked(w, s, f, now)
    case Fails => None
    case Fires(_, fired) =>
      if fired.Full? && f.overlap.Some? then Some(f.overlap.value.full) else if fired.Busy? then f.busy else f.next
  }

  lemma FireSlotTrig(s: Store, f: Firing, g: Guard, a: Admission, busy: bool, now: int, next: Option<Trigger>, t: Store)
    requires FireSlot(s, f, g, a, busy, now).Fires? && t == FireSlot(s, f, g, a, busy, now).s
    requires var fired := FireSlot(s, f, g, a, busy, now).fired;
             next == if fired.Full? then Some(g.full) else if fired.Busy? then f.busy else f.next
    ensures TrigMoves(PutTrigger(s, f.key, f.expected, next), t)
  {
    var put := PutTrigger(s, f.key, f.expected, next);
    if !Capacity(s.runs, a.name, g.max) || (busy && (g.policy.Skip? || g.policy.Queue?)) {
      TrigStill(put, t);
    } else {
      CommitTrig(s, f, now, put, t);
    }
  }

  /** Every firing that stores a trigger does so from the one it expects, and then only
      admits and observes. */
  lemma FireCheckedTrig(w: World, s: Store, f: Firing, now: int, t: Store)
    requires FireChecked(w, s, f, now).Fires? && t == FireChecked(w, s, f, now).s && !f.ingested
    ensures TrigMoves(s, AtStore(w, s, f, now))
    ensures TrigMoves(PutTrigger(AtStore(w, s, f, now), f.key, f.expected, StoredNext(w, s, f, now)), t)
  {
    var m, next := AtStore(w, s, f, now), StoredNext(w, s, f, now);
    var put := PutTrigger(m, f.key, f.expected, next);
    var a := Candidate(f);
    if f.overlap.Some? && a.Some? {
      var g := f.overlap.value;
      if a.value.id in s.runs {
        TrigStill(s, m);
        CommitTrig(s, f, now, put, t);
      } else {
        var live := LiveOf(s.runs, f.key);
        if g.policy.Replace? {
          TerminateAllTrig(w, s, Sorted(AsKeys(live)), now, m);
        } else {
          TrigStill(s, m);
        }
        FireSlotTrig(m, f, g, a.value, live != {}, now, next, t);
      }
    } else {
      TrigStill(s, m);
      if FireChecked(w, s, f, now) == Commit(s, f, now) {
        CommitTrig(s, f, now, put, t);
      } else {
        TrigStill(put, t);
      }
    }
  }

  // ── the trigger after the cancellations ───────────────────────────────────

  predicate Rearms(r: Run, k: string, armed: Trigger) {
    r.rearm.Some? && r.rearm.value.0.trigger == k && r.rearm.value.1 == armed
  }

  /** The instant the cancelled runs set the dormant trigger to: that of the first of
      them that carries a rearm of it and has not ended with an earlier one. */
  function RearmAt(w: World, runs: map<Id, Run>, ids: seq<Key>, k: string, armed: Trigger, now: int): Option<int>
    decreases |ids|
  {
    if ids == [] then None
    else
      var x := ids[0].0;
      if x !in runs || !runs[x].live then RearmAt(w, runs, ids[1..], k, armed, now)
      else if Rearms(runs[x], k, armed) then Some(R.Later(now, runs[x].rearm.value.0.delay))
      else RearmAt(w, EndRuns(w, runs, x), ids[1..], k, armed, now)
  }

  function Rearmed_(armed: Trigger, at: Option<int>): Trigger {
    if armed.at.None? && at.Some? then armed.(at := at) else armed
  }

  ghost predicate SameOn(a: map<Id, Run>, b: map<Id, Run>, ids: seq<Key>) {
    forall i :: 0 <= i < |ids| ==> ids[i].0 in a && ids[i].0 in b && a[ids[i].0] == b[ids[i].0]
  }

  lemma {:induction false} RearmSame(w: World, a: map<Id, Run>, b: map<Id, Run>, ids: seq<Key>, k: string, armed: Trigger, now: int)
    requires SameOn(a, b, ids)
    ensures RearmAt(w, a, ids, k, armed, now) == RearmAt(w, b, ids, k, armed, now)
    decreases |ids|
  {
    if ids != [] {
      var x, rest := ids[0].0, ids[1..];
      assert forall i :: 0 <= i < |rest| ==> rest[i] == ids[i + 1];
      RearmSame(w, a, b, rest, k, armed, now);
      RearmSame(w, EndRuns(w, a, x), EndRuns(w, b, x), rest, k, armed, now);
    }
  }

  /** One cancellation: the trigger is gone, or re-armed by this run, or as it was. */
  lemma CancelOne(w: World, s: Store, x: Id, now: int, t: Store, k: string)
    requires Terminate(w, s, x, now) == Ok(t) && k in s.triggers && x in s.runs && s.runs[x].live
    ensures RunsKept(EndRuns(w, s.runs, x), t.runs)
    ensures k in t.triggers ==>
              t.triggers[k] == if s.triggers[k].at.None? && Rearms(s.runs[x], k, s.triggers[k])
                               then s.triggers[k].(at := Some(R.Later(now, s.runs[x].rearm.value.0.delay))) else s.triggers[k]
  {
    var a := s.(runs := EndRuns(w, s.runs, x));
    var b := Rearmed(a, s.runs[x], now);
    RearmedTrigger(a, s.runs[x], now, b, k);
    DrainNamesTrig(b, Sorted(AsKeys(EndedNames(w, s.runs, x))), now, t);
  }

  lemma RearmedByTrigger(s: Store, rearm: Rearm, armed: Trigger, now: int, t: Store, k: string)
    requires t == RearmedBy(s, rearm, armed, now) && k in s.triggers
    ensures t.runs == s.runs && k in t.triggers
    ensures t.triggers[k] == if k == rearm.trigger && s.triggers[k] == armed && armed.at.None?
                             then armed.(at := Some(R.Later(now, rearm.delay))) else s.triggers[k]
  {
    if Current(s.triggers, rearm.trigger) == Some(armed) && armed.at.None? {
      PutArmed(s, rearm.trigger, armed, armed.(at := Some(R.Later(now, rearm.delay))), t);
    } else {
      assert t == s;
    }
  }

  lemma RearmedTrigger(s: Store, r: Run, now: int, t: Store, k: string)
    requires t == Rearmed(s, r, now) && k in s.triggers
    ensures t.runs == s.runs && k in t.triggers
    ensures t.triggers[k] == if s.triggers[k].at.None? && Rearms(r, k, s.triggers[k])
                             then s.triggers[k].(at := Some(R.Later(now, r.rearm.value.0.delay))) else s.triggers[k]
  {
    if r.rearm.Some? {
      RearmedByTrigger(s, r.rearm.value.0, r.rearm.value.1, now, t, k);
    }
  }

  lemma CancelNone(w: World, s: Store, x: Id, now: int, t: Store)
    requires Terminate(w, s, x, now) == Ok(t) && (x !in s.runs || !s.runs[x].live)
    ensures t == s
  {
  }

  lemma KeptSame(w: World, runs: map<Id, Run>, x: Id, after: map<Id, Run>, ids: seq<Key>)
    requires RunsKept(EndRuns(w, runs, x), after) && forall i :: 0 <= i < |ids| ==> ids[i].0 in runs
    ensures SameOn(EndRuns(w, runs, x), after, ids)
  {
  }

  /** The cancellations leave the trigger gone, or as the first rearm among them set it. */
  lemma {:induction false} CancelledTrigger(w: World, s: Store, ids: seq<Key>, now: int, m: Store, k: string)
    requires TerminateAll(w, s, ids, now) == Ok(m) && k in s.triggers
    requires forall i :: 0 <= i < |ids| ==> ids[i].0 in s.runs
    ensures k in m.triggers ==> m.triggers[k] == Rearmed_(s.triggers[k], RearmAt(w, s.runs, ids, k, s.triggers[k], now))
    decreases |ids|
  {
    if ids != [] {
      var x, rest, armed := ids[0].0, ids[1..], s.triggers[k];
      var t := Terminate(w, s, x, now).s;
      assert forall i :: 0 <= i < |rest| ==> rest[i] == ids[i + 1];
      TerminateAllTrig(w, t, rest, now, m);
      if !s.runs[x].live {
        CancelNone(w, s, x, now, t);
        CancelledTrigger(w, t, rest, now, m, k);
      } else {
        CancelOne(w, s, x, now, t, k);
        if k in t.triggers {
          KeptSame(w, s.runs, x, t.runs, rest);
          CancelledTrigger(w, t, rest, now, m, k);
          RearmSame(w, EndRuns(w, s.runs, x), t.runs, rest, k, armed, now);
        }
      }
    }
  }

  /** A trigger is gone after the cancellations exactly when they tripped the definition
      that owned it. */
  lemma GoneByTrip(s: Store, m: Store, k: string)
    requires TrigMoves(s, m) && k in s.triggers
    ensures k !in m.triggers <==> GoesByTrip(s, m, k)
  {
  }
}

/**
 No buffered slot is lost or overtaken: what every scheduling step keeps about
 triggers, slots, definitions and pauses, and why a slot still buffered has a reason
 to wait.
 */
module SchedulePromotion {
  import opened Options
  import opened Order
  import opened Schedule
  import R = Runs

  // ── rows that agree ───────────────────────────────────────────────────────

  ghost predicate QueueIndexOk(queue: map<string, Slot>, rows: set<Key>) {
    forall r: Key :: r in rows <==> r.1 in queue && queue[r.1].admission.name == r.0
  }

  /** A buffered slot belongs to a queueing trigger of its definition; to an armed one, if
      only stored triggers fire. */
  ghost predicate SlotOk(w: World, k: string, q: Slot, defs: map<string, Definition>) {
    && q.admission.name == w.owner(k) && q.ceiling == w.ceiling(k) && w.policy(k).Queue?
    && (w.armed ==> w.owner(k) in defs && k in defs[w.owner(k)].triggers)
  }

  ghost predicate SlotsOk(w: World, queue: map<string, Slot>, defs: map<string, Definition>) {
    forall k :: k in queue ==> SlotOk(w, k, queue[k], defs)
  }

  ghost predicate HaveTriggers(queue: map<string, Slot>, triggers: map<string, Trigger>) {
    forall k :: k in queue ==> k in triggers
  }

  /** A definition owns the triggers it armed; a tripped one has none. */
  ghost predicate DefOk(w: World, name: string, d: Definition) {
    (forall k :: k in d.triggers ==> w.owner(k) == name) && (d.tripped.Some? ==> d.triggers == {})
  }

  ghost predicate DefsOk(w: World, defs: map<string, Definition>) {
    forall n :: n in defs ==> DefOk(w, n, defs[n])
  }

  ghost predicate RunsOk(w: World, runs: map<Id, Run>) {
    forall x :: x in runs && runs[x].trigger.Some? ==> w.owner(runs[x].trigger.value) == runs[x].admission.name
  }

  ghost predicate ArmedOk(w: World, triggers: map<string, Trigger>, defs: map<string, Definition>) {
    forall k :: k in triggers && !w.policy(k).Replace? ==> w.owner(k) in defs && k in defs[w.owner(k)].triggers
  }

  /** What a pause keeps aside: slots with their triggers, and nothing under a trip. */
  ghost predicate AsideOk(w: World, name: string, p: Paused) {
    && (w.armed ==> p.queues.Keys <= p.triggers.Keys)
    && (forall k :: k in p.triggers ==> w.owner(k) == name)
    && forall k :: k in p.queues ==>
         w.owner(k) == name && p.queues[k].admission.name == name && p.queues[k].ceiling == w.ceiling(k) && w.policy(k).Queue?
  }

  ghost predicate PauseOk(w: World, name: string, p: Paused, defs: map<string, Definition>) {
    && AsideOk(w, name, p)
    && name in defs && defs[name].tripped.Some? && defs[name].tripped.value.manual.Some?
    && (defs[name].tripped.value.breaker ==> p.triggers == map[] && p.queues == map[])
  }

  ghost predicate PausesOk(w: World, paused: map<string, Paused>, defs: map<string, Definition>) {
    forall n :: n in paused ==> PauseOk(w, n, paused[n], defs)
  }

  ghost predicate Wf(w: World, s: Store) {
    && QueueIndexOk(s.queue, s.queueName)
    && SlotsOk(w, s.queue, s.defs)
    && (w.armed ==> HaveTriggers(s.queue, s.triggers))
    && DefsOk(w, s.defs)
    && RunsOk(w, s.runs)
    && (w.armed ==> ArmedOk(w, s.triggers, s.defs))
    && PausesOk(w, s.paused, s.defs)
  }

  // ── small steps ───────────────────────────────────────────────────────────

  lemma RemoveQueueWf(w: World, s: Store, k: string, t: Store)
    requires Wf(w, s) && t == RemoveQueue(s, k)
    ensures Wf(w, t)
  {
  }

  lemma InsertedWf(w: World, s: Store, a: Admission, trigger: Option<string>, rearm: Option<(Rearm, Trigger)>, live: bool, t: Store)
    requires Wf(w, s) && t == Inserted(s, a, trigger, rearm, live) && (trigger.Some? ==> w.owner(trigger.value) == a.name)
    ensures Wf(w, t)
  {
  }

  lemma OwnedBy(w: World, s: Store, name: string)
    requires DefsOk(w, s.defs)
    ensures forall k :: k in DefinitionOf(s, name).triggers ==> w.owner(k) == name
  {
    assert name in s.defs ==> DefOk(w, name, s.defs[name]);
  }

  /** A definition's slots are those of the triggers it owns. */
  lemma ArmQueue(w: World, s: Store, name: string, d: Definition, wanted: map<string, Trigger>, t: Store)
    requires Wf(w, s) && t == Arm(s, DefinitionOf(s, name).triggers, wanted)
    ensures forall k :: k in t.queue ==> k in s.queue && (w.armed ==> w.owner(k) != name)
    ensures forall k :: k in s.queue && w.owner(k) != name ==> k in t.queue
    ensures QueueIndexOk(t.queue, t.queueName) && (w.armed ==> HaveTriggers(t.queue, t.triggers))
    ensures SlotsOk(w, t.queue, s.defs[name := d])
  {
    OwnedBy(w, s, name);
    forall k | k in s.queue ensures SlotOk(w, k, s.queue[k], s.defs) {
    }
  }

  lemma ArmDefs(w: World, s: Store, name: string, d: Definition, wanted: map<string, Trigger>, t: Store)
    requires Wf(w, s) && t == Arm(s, DefinitionOf(s, name).triggers, wanted) && d.triggers == wanted.Keys && DefOk(w, name, d)
    ensures DefsOk(w, s.defs[name := d]) && (w.armed ==> ArmedOk(w, t.triggers, s.defs[name := d]))
  {
    OwnedBy(w, s, name);
    forall n | n in s.defs ensures DefOk(w, n, s.defs[n]) {
    }
  }

  /** Changing what a definition owns, together with its rows. */
  lemma ArmWf(w: World, s: Store, name: string, d: Definition, wanted: map<string, Trigger>, m: Store, t: Store)
    requires Wf(w, s) && d.triggers == wanted.Keys && DefOk(w, name, d)
    requires m == Arm(s, DefinitionOf(s, name).triggers, wanted)
    requires t == m.(defs := s.defs[name := d], paused := t.paused, notices := t.notices)
    requires PausesOk(w, t.paused, t.defs)
    ensures Wf(w, t)
    ensures forall k :: k in t.queue ==> k in s.queue && (w.armed ==> w.owner(k) != name)
    ensures forall k :: k in s.queue && w.owner(k) != name ==> k in t.queue
  {
    ArmQueue(w, s, name, d, wanted, m);
    ArmDefs(w, s, name, d, wanted, m);
  }

  lemma TripPauses(w: World, s: Store, name: string, d: Definition)
    requires PausesOk(w, s.paused, s.defs) && name in s.defs && s.defs[name].tripped.None?
    ensures PausesOk(w, s.paused, s.defs[name := d])
  {
    forall n | n in s.paused ensures PauseOk(w, n, s.paused[n], s.defs[name := d]) {
      assert PauseOk(w, n, s.paused[n], s.defs);
    }
  }

  lemma TripWf(w: World, s: Store, run: Admission, c: Definition, threshold: Count, now: int, t: Store)
    requires Wf(w, s) && run.name in s.defs && s.defs[run.name].tripped.None?
    requires c == s.defs[run.name].(faults := c.faults) && threshold <= c.faults
    requires t == Tripped(s, run, c, threshold, now)
    ensures Wf(w, t) && Lighter(s, t)
  {
    var d := c.(triggers := {}, tripped := Some(TripOf(c, run, threshold, now)));
    TripPauses(w, s, run.name, d);
    ArmWf(w, s, run.name, d, map[], Arm(s, c.triggers, map[]), t);
    TripStands(s, run, c, threshold, now, t);
    TripSlots(w, s, run.name, t);
  }

  lemma TripSlots(w: World, s: Store, name: string, t: Store)
    requires SlotsOk(w, s.queue, s.defs) && Broken(t.defs, name)
    requires forall k :: k in s.queue && w.owner(k) != name ==> k in t.queue
    requires forall k :: k in t.queue ==> k in s.queue && t.queue[k] == s.queue[k]
    ensures SlotsKept(s, t)
  {
    forall k | k in s.queue && k !in t.queue ensures s.queue[k].admission.name == name {
      assert SlotOk(w, k, s.queue[k], s.defs);
    }
  }

  lemma TripStands(s: Store, run: Admission, c: Definition, threshold: Count, now: int, t: Store)
    requires run.name in s.defs && s.defs[run.name].tripped.None? && c == s.defs[run.name].(faults := c.faults)
    requires threshold <= c.faults && t == Tripped(s, run, c, threshold, now)
    ensures TripsStand(s, t)
  {
    assert FreshTrip(run.name, t.defs[run.name], t.notices);
  }

  lemma CountWf(w: World, s: Store, name: string, faults: Count, t: Store)
    requires Wf(w, s) && name in s.defs && t == s.(defs := s.defs[name := s.defs[name].(faults := faults)])
    ensures Wf(w, t) && (s.defs[name].tripped.None? ==> Lighter(s, t))
  {
    assert DefOk(w, name, s.defs[name]);
    forall k | k in t.queue ensures SlotOk(w, k, t.queue[k], t.defs) {
      assert SlotOk(w, k, s.queue[k], s.defs);
    }
    forall n | n in t.paused ensures PauseOk(w, n, t.paused[n], t.defs) {
      assert PauseOk(w, n, s.paused[n], s.defs);
    }
  }

  /** Its breaker has tripped. */
  ghost predicate Broken(defs: map<string, Definition>, name: string) {
    name in defs && defs[name].tripped.Some? && defs[name].tripped.value.breaker
  }

  /** A fresh trip: the breaker's, of the current epoch, reported and disarmed. */
  ghost predicate FreshTrip(name: string, d: Definition, notices: map<Notice, Trip>) {
    && d.tripped.Some? && d.triggers == {}
    && var trip := d.tripped.value;
       && trip.breaker && trip.manual.None? && trip.epoch == d.epoch && trip.threshold <= trip.faults == d.faults
       && Notice(trip.at, name, trip.epoch) in notices && notices[Notice(trip.at, name, trip.epoch)] == trip
  }

  /** How one definition may change outside activation, pause and resume: a tripped one
      not at all, another may count faults or trip. */
  ghost predicate DefMoves(name: string, a: Definition, b: Definition, notices: map<Notice, Trip>) {
    && b.epoch == a.epoch && b.active == a.active && b.versions == a.versions
    && (a.tripped.Some? ==> b == a)
    && (a.tripped.None? && b.tripped.Some? ==> FreshTrip(name, b, notices))
    && (b.tripped.None? ==> b.triggers == a.triggers)
  }

  /** A notice appears only with its definition's fresh trip. */
  ghost predicate NoticeMoves(a: map<string, Definition>, key: Notice, b: map<string, Definition>) {
    && key.name in a && a[key.name].tripped.None? && Broken(b, key.name)
    && b[key.name].tripped.value.at == key.at && b[key.name].tripped.value.epoch == key.epoch
  }

  /** A notice of the standing trip, or of another epoch than the current one. */
  ghost predicate Fixed(defs: map<string, Definition>, key: Notice) {
    Broken(defs, key.name) || (key.name in defs && key.epoch != defs[key.name].epoch)
  }

  ghost predicate TripsStand(s: Store, t: Store) {
    && t.defs.Keys == s.defs.Keys
    && (forall n :: n in s.defs ==> DefMoves(n, s.defs[n], t.defs[n], t.notices))
    && (forall key :: key in s.notices ==> key in t.notices && (Fixed(s.defs, key) ==> t.notices[key] == s.notices[key]))
    && forall key :: key in t.notices && key !in s.notices ==> NoticeMoves(s.defs, key, t.defs)
  }

  lemma TripsStandOn(s: Store, t: Store, u: Store)
    requires TripsStand(s, t) && TripsStand(t, u)
    ensures TripsStand(s, u)
  {
    forall n | n in s.defs ensures DefMoves(n, s.defs[n], u.defs[n], u.notices) {
      assert DefMoves(n, s.defs[n], t.defs[n], t.notices) && DefMoves(n, t.defs[n], u.defs[n], u.notices);
    }
    forall key | key in u.notices && key !in s.notices ensures NoticeMoves(s.defs, key, u.defs) {
      if key in t.notices {
        assert NoticeMoves(s.defs, key, t.defs);
        assert DefMoves(key.name, t.defs[key.name], u.defs[key.name], u.notices);
      } else {
        assert NoticeMoves(t.defs, key, u.defs);
        assert DefMoves(key.name, s.defs[key.name], t.defs[key.name], t.notices);
      }
    }
    forall key | key in s.notices && Fixed(s.defs, key) ensures u.notices[key] == s.notices[key] {
      assert DefMoves(key.name, s.defs[key.name], t.defs[key.name], t.notices);
    }
  }

  lemma TripsStandStill(s: Store, t: Store)
    requires t.defs == s.defs && t.notices == s.notices
    ensures TripsStand(s, t)
  {
  }

  /** No run is admitted that a standing trip refuses. */
  ghost predicate Vetted(s: Store, t: Store) {
    forall x :: x in t.runs && x !in s.runs ==> !Barred(s.defs, t.runs[x].admission)
  }

  lemma VettedOn(s: Store, t: Store, u: Store)
    requires Vetted(s, t) && Vetted(t, u) && TripsStand(s, t) && forall x :: x in t.runs ==> x in u.runs && u.runs[x].admission == t.runs[x].admission
    ensures Vetted(s, u)
  {
    forall x | x in u.runs && x !in s.runs ensures !Barred(s.defs, u.runs[x].admission) {
      if x !in t.runs {
        var n := u.runs[x].admission.name;
        assert n in s.defs ==> DefMoves(n, s.defs[n], t.defs[n], t.notices);
      }
    }
  }

  /** The run of the admission is stored: inserted for it, or one it joins as a root. */
  ghost predicate HasRun(runs: map<Id, Run>, a: Admission) {
    a.id in runs && R.Mismatch(runs[a.id].admission, a, false).None?
  }

  /** Slots are not changed, and none goes unless its run is stored or its definition's
      breaker has tripped. */
  ghost predicate SlotsKept(s: Store, t: Store) {
    && (forall k :: k in t.queue ==> k in s.queue && t.queue[k] == s.queue[k])
    && forall k :: k in s.queue && k !in t.queue ==>
         HasRun(t.runs, s.queue[k].admission) || Broken(t.defs, s.queue[k].admission.name)
  }

  lemma SlotsKeptOn(s: Store, t: Store, u: Store)
    requires SlotsKept(s, t) && SlotsKept(t, u) && TripsStand(t, u)
    requires forall x :: x in t.runs ==> x in u.runs && u.runs[x].admission == t.runs[x].admission
    ensures SlotsKept(s, u)
  {
    forall k | k in s.queue && k !in u.queue
      ensures HasRun(u.runs, s.queue[k].admission) || Broken(u.defs, s.queue[k].admission.name)
    {
      if k !in t.queue && Broken(t.defs, s.queue[k].admission.name) {
        StaysBroken(t, u, s.queue[k].admission.name);
      }
    }
  }

  lemma StaysBroken(t: Store, u: Store, n: string)
    requires TripsStand(t, u) && Broken(t.defs, n)
    ensures Broken(u.defs, n)
  {
    assert n in t.defs ==> DefMoves(n, t.defs[n], u.defs[n], u.notices);
  }

  /** Runs, marks and pauses stay. */
  ghost predicate Lighter(s: Store, t: Store) {
    && t.runs == s.runs && t.drain == s.drain && t.stopped == s.stopped && t.paused == s.paused
    && TripsStand(s, t) && SlotsKept(s, t)
  }

  lemma ObserveWf(w: World, s: Store, run: Admission, epoch: Option<nat>, seen: Seen, default_: Count, now: int, t: Store)
    requires Wf(w, s) && t == Observe(s, run, epoch, seen, default_, now)
    ensures Wf(w, t) && Lighter(s, t)
  {
    if Observes(s, run, epoch) {
      var d := s.defs[run.name];
      if seen.AFault? {
        var c := Counted(d);
        var threshold := Effective(PolicyOf(d, run.version), default_);
        if threshold.Some? && c.faults >= threshold.value {
          TripWf(w, s, run, c, threshold.value, now, t);
        } else {
          CountWf(w, s, run.name, c.faults, t);
        }
      } else if seen.ASuccess? && d.faults > 0 {
        CountWf(w, s, run.name, 0, t);
      }
    }
  }

  /** What a promotion may do: stored runs and the slots left stay as they were, and no
      run joins a trigger whose slot is left. */
  ghost predicate Drains(s: Store, t: Store) {
    && t.drain == s.drain && t.stopped == s.stopped && t.paused == s.paused
    && RunsKept(s.runs, t.runs) && TripsStand(s, t) && Vetted(s, t) && SlotsKept(s, t)
    && forall k, x :: k in t.queue && x in t.runs && x !in s.runs ==> t.runs[x].trigger != Some(k)
  }

  ghost predicate RunsKept(a: map<Id, Run>, b: map<Id, Run>) {
    forall x :: x in a ==> x in b && b[x] == a[x]
  }

  lemma DrainsOn(s: Store, t: Store, u: Store)
    requires Drains(s, t) && Drains(t, u)
    ensures Drains(s, u)
  {
    TripsStandOn(s, t, u);
    VettedOn(s, t, u);
    SlotsKeptOn(s, t, u);
    forall k, x | k in u.queue && x in u.runs && x !in s.runs ensures u.runs[x].trigger != Some(k) {
      if x in t.runs {
        assert t.runs[x].trigger != Some(k);
      }
    }
  }

  lemma RefuseWf(w: World, s: Store, a: Admission, f: Fault, now: int, t: Store)
    requires Wf(w, s) && Refuse(s, a, f, now) == Ok(t)
    ensures Wf(w, t) && Drains(s, t) && HasRun(t.runs, a)
  {
    if a.id !in s.runs {
      var m := Inserted(s, a, None, None, false);
      InsertedWf(w, s, a, None, None, false, m);
      ObserveWf(w, m, a, EpochOf(s.defs, a), AFault, f.threshold, now, t);
    }
  }

  lemma AdmitWf(w: World, s: Store, k: string, a: Admission, rearm: Option<Rearm>, next: Option<Trigger>, t: Store)
    requires Wf(w, s) && AdmitFiring(s, k, a, rearm, next) == Ok(t) && w.owner(k) == a.name
    ensures Wf(w, t) && (k !in s.queue || a.id in s.runs ==> Drains(s, t))
    ensures HasRun(t.runs, a) && RunsKept(s.runs, t.runs) && t == s.(runs := t.runs, last := t.last)
  {
    if a.id !in s.runs {
      var attached := if rearm.Some? && next.Some? then Some((rearm.value, next.value)) else None;
      var m := Inserted(s, a, Some(k), attached, true);
      InsertedWf(w, s, a, Some(k), attached, true, m);
      assert t == m.(last := t.last);
    }
  }

  /** The reason a buffered slot waits: its trigger runs, or its definition is full. */
  ghost predicate Waits(runs: map<Id, Run>, k: string, q: Slot) {
    LiveOf(runs, k) != {} || !Capacity(runs, q.admission.name, q.ceiling)
  }

  lemma WaitsOn(a: map<Id, Run>, b: map<Id, Run>, k: string, q: Slot)
    requires RunsKept(a, b) && Waits(a, k, q)
    ensures Waits(b, k, q)
  {
    assert LiveOf(a, k) <= LiveOf(b, k);
    SubsetSize(LiveNamed(a, q.admission.name), LiveNamed(b, q.admission.name));
  }

  lemma DrainOneWf(w: World, s: Store, row: Key, now: int, t: Store)
    requires Wf(w, s) && DrainOne(s, row, now) == Ok(t)
    ensures Wf(w, t) && Drains(s, t)
    ensures row.1 in t.queue ==> Waits(t.runs, row.1, t.queue[row.1])
  {
    var k := row.1;
    if k in s.queue {
      var q := s.queue[k];
      if !Waits(s.runs, k, q) {
        assert SlotOk(w, k, q, s.defs);
        var m := RemoveQueue(s, k);
        RemoveQueueWf(w, s, k, m);
        if q.failure.Some? {
          RefuseWf(w, m, q.admission, q.failure.value, now, t);
        } else {
          AdmitWf(w, m, k, q.admission, q.rearm, Some(s.triggers[k]), t);
        }
        Promoted(s, m, k, t);
      }
    }
  }

  lemma Promoted(s: Store, m: Store, k: string, t: Store)
    requires k in s.queue && m == RemoveQueue(s, k) && Drains(m, t) && HasRun(t.runs, s.queue[k].admission)
    ensures Drains(s, t) && k !in t.queue
  {
  }

  /** Every slot of the rows has been promoted or has a reason to wait. */
  ghost predicate Settled(s: Store, rows: seq<Key>) {
    forall i :: 0 <= i < |rows| ==> SettledSlot(s, rows[i].1)
  }

  ghost predicate SettledSlot(s: Store, k: string) {
    k in s.queue ==> Waits(s.runs, k, s.queue[k])
  }

  lemma SettledOn(s: Store, t: Store, k: string)
    requires Drains(s, t) && SettledSlot(s, k)
    ensures SettledSlot(t, k)
  {
    if k in t.queue {
      WaitsOn(s.runs, t.runs, k, s.queue[k]);
    }
  }

  lemma {:induction false} DrainKeysWf(w: World, s: Store, keys: seq<Key>, now: int, t: Store)
    requires Wf(w, s) && DrainKeys(s, keys, now) == Ok(t)
    ensures Wf(w, t) && Drains(s, t) && Settled(t, keys)
    decreases |keys|
  {
    if keys != [] {
      var m := DrainOne(s, keys[0], now).s;
      DrainOneWf(w, s, keys[0], now, m);
      DrainKeysWf(w, m, keys[1..], now, t);
      DrainsOn(s, m, t);
      SettledOn(m, t, keys[0].1);
      SettledAll(t, keys);
    }
  }

  lemma SettledAll(t: Store, keys: seq<Key>)
    requires keys != [] && SettledSlot(t, keys[0].1) && Settled(t, keys[1..])
    ensures Settled(t, keys)
  {
    forall i | 0 <= i < |keys| ensures SettledSlot(t, keys[i].1) {
      assert i > 0 ==> keys[i] == keys[1..][i - 1];
    }
  }

  ghost predicate SettledName(s: Store, name: string) {
    forall k :: k in s.queue && s.queue[k].admission.name == name ==> Waits(s.runs, k, s.queue[k]) || name in s.drain
  }

  /** A drain, or a mark in its place. */
  ghost predicate Passes(s: Store, t: Store) {
    Drains(s, t.(drain := s.drain)) && s.drain <= t.drain && (!s.stopped ==> t.drain == s.drain)
  }

  lemma PassesOn(s: Store, t: Store, u: Store)
    requires Passes(s, t) && Passes(t, u)
    ensures Passes(s, u)
  {
    DrainsOn(s, t.(drain := s.drain), u.(drain := s.drain));
  }

  lemma NameSettledOn(s: Store, t: Store, name: string)
    requires Passes(s, t) && SettledName(s, name)
    ensures SettledName(t, name)
  {
    forall k | k in t.queue && t.queue[k].admission.name == name ensures Waits(t.runs, k, t.queue[k]) || name in t.drain {
      if Waits(s.runs, k, s.queue[k]) {
        WaitsOn(s.runs, t.runs, k, s.queue[k]);
      }
    }
  }

  lemma DeferWf(w: World, s: Store, name: string, now: int, t: Store)
    requires Wf(w, s) && s.stopped && Drain(s, name, now) == Ok(t)
    ensures Wf(w, t) && Passes(s, t) && SettledName(t, name)
  {
    assert t.(drain := s.drain) == s;
    forall k | k in s.queue && s.queue[k].admission.name == name ensures name in t.drain {
      assert (name, k) in QueueRows(s, name);
    }
  }

  lemma RowsSettled(s: Store, name: string, t: Store)
    requires QueueIndexOk(s.queue, s.queueName) && Drains(s, t) && Settled(t, Sorted(QueueRows(s, name)))
    ensures SettledName(t, name)
  {
    var rows := QueueRows(s, name);
    SortedLists(rows);
    forall k | k in t.queue && t.queue[k].admission.name == name ensures Waits(t.runs, k, t.queue[k]) {
      assert (name, k) in rows;
      var i :| 0 <= i < |Sorted(rows)| && Sorted(rows)[i] == (name, k);
      assert SettledSlot(t, Sorted(rows)[i].1);
    }
  }

  /** After a drain each slot of the definition is promoted, waits for a reason, or its
      definition is marked. */
  lemma DrainWf(w: World, s: Store, name: string, now: int, t: Store)
    requires Wf(w, s) && Drain(s, name, now) == Ok(t)
    ensures Wf(w, t) && Passes(s, t) && SettledName(t, name)
  {
    if s.stopped {
      DeferWf(w, s, name, now, t);
    } else {
      DrainKeysWf(w, s, Sorted(QueueRows(s, name)), now, t);
      RowsSettled(s, name, t);
      assert t.(drain := s.drain) == t;
    }
  }

  lemma {:induction false} DrainNamesWf(w: World, s: Store, names: seq<Key>, now: int, t: Store)
    requires Wf(w, s) && DrainNames(s, names, now) == Ok(t)
    ensures Wf(w, t) && Passes(s, t) && forall i :: 0 <= i < |names| ==> SettledName(t, names[i].0)
    decreases |names|
  {
    if names == [] {
      assert t.(drain := s.drain) == t;
    } else {
      var m := Drain(s, names[0].0, now).s;
      DrainWf(w, s, names[0].0, now, m);
      DrainNamesWf(w, m, names[1..], now, t);
      PassesOn(s, m, t);
      NameSettledOn(m, t, names[0].0);
      FirstAndRest(names, t);
    }
  }

  lemma FirstAndRest(names: seq<Key>, t: Store)
    requires names != [] && SettledName(t, names[0].0)
    requires forall i :: 0 <= i < |names[1..]| ==> SettledName(t, names[1..][i].0)
    ensures forall i :: 0 <= i < |names| ==> SettledName(t, names[i].0)
  {
    forall i | 0 <= i < |names| ensures SettledName(t, names[i].0) {
      assert i > 0 ==> names[i] == names[1..][i - 1];
    }
  }

  // ── no slot is lost ───────────────────────────────────────────────────────

  /** Every buffered slot waits for a reason, or its definition is marked for a drain. */
  ghost predicate NoLost(s: Store) {
    forall n :: SettledName(s, n)
  }

  /** Unmarking a definition and draining it. */
  lemma UnmarkWf(w: World, s: Store, name: string, now: int, t: Store)
    requires Wf(w, s) && NoLost(s) && Drain(s.(drain := s.drain - {name}), name, now) == Ok(t)
    ensures Wf(w, t) && NoLost(t) && Drains(s.(drain := t.drain), t) && (!s.stopped ==> name !in t.drain)
  {
    var m := s.(drain := s.drain - {name});
    DrainWf(w, m, name, now, t);
    forall n ensures SettledName(t, n) {
      if n != name {
        assert SettledName(s, n) && SettledName(m, n);
        NameSettledOn(m, t, n);
      }
    }
  }

  lemma MarkedWf(w: World, s: Store, name: string, now: int, t: Store)
    requires Wf(w, s) && NoLost(s) && DrainMarked(s, name, now) == Ok(t)
    ensures Wf(w, t) && NoLost(t) && Drains(s.(drain := t.drain), t) && (!s.stopped ==> name !in t.drain)
  {
    if name in s.drain && !s.stopped {
      UnmarkWf(w, s, name, now, t);
    }
  }

  lemma {:induction false} MarksWf(w: World, s: Store, names: seq<Key>, now: int, t: Store)
    requires Wf(w, s) && NoLost(s) && DrainMarks(s, names, now) == Ok(t)
    ensures Wf(w, t) && NoLost(t) && Drains(s.(drain := t.drain), t)
    decreases |names|
  {
    if names != [] {
      var m := Drain(s.(drain := s.drain - {names[0].0}), names[0].0, now).s;
      UnmarkWf(w, s, names[0].0, now, m);
      MarksWf(w, m, names[1..], now, t);
      DrainsOn(s.(drain := t.drain), m.(drain := t.drain), t);
    }
  }

  // ── the end of runs ───────────────────────────────────────────────────────

  /** Runs may end; nothing else about them changes. */
  ghost predicate RowsStay(a: map<Id, Run>, b: map<Id, Run>) {
    forall x :: x in a ==> x in b && (b[x] == a[x] || b[x] == a[x].(live := false))
  }

  /** No run joins a trigger whose slot is left. */
  ghost predicate Waited(s: Store, t: Store) {
    forall k, x :: k in t.queue && x in t.runs && x !in s.runs ==> t.runs[x].trigger != Some(k)
  }

  ghost predicate Moves(s: Store, t: Store) {
    && t.paused == s.paused && t.stopped == s.stopped
    && RowsStay(s.runs, t.runs) && TripsStand(s, t) && Vetted(s, t) && SlotsKept(s, t) && Waited(s, t)
  }

  lemma MovesOn(s: Store, t: Store, u: Store)
    requires Moves(s, t) && Moves(t, u)
    ensures Moves(s, u)
  {
    TripsStandOn(s, t, u);
    VettedOn(s, t, u);
    SlotsKeptOn(s, t, u);
    forall k, x | k in u.queue && x in u.runs && x !in s.runs ensures u.runs[x].trigger != Some(k) {
      if x in t.runs {
        assert t.runs[x].trigger != Some(k);
      }
    }
  }

  lemma PassesMoves(s: Store, t: Store)
    requires Passes(s, t) || Drains(s.(drain := t.drain), t)
    ensures Moves(s, t)
  {
  }

  lemma EndRunsWf(w: World, s: Store, id: Id, t: Store)
    requires Wf(w, s) && t == s.(runs := EndRuns(w, s.runs, id))
    ensures Wf(w, t) && Moves(s, t)
  {
  }

  lemma PutArmed(s: Store, k: string, before: Trigger, after: Trigger, t: Store)
    requires t == PutTrigger(s, k, Some(before), Some(after)) && k in s.triggers
    ensures t == s.(triggers := t.triggers, index := t.index)
    ensures t.triggers == s.triggers[k := after] && t.triggers.Keys == s.triggers.Keys
  {
    assert s.triggers[k := after].Keys == s.triggers.Keys;
  }

  lemma RearmedKeys(s: Store, r: Run, now: int, t: Store)
    requires t == Rearmed(s, r, now)
    ensures t == s.(triggers := t.triggers, index := t.index) && t.triggers.Keys == s.triggers.Keys
  {
    if r.rearm.Some? {
      var rearm, armed := r.rearm.value.0, r.rearm.value.1;
      if Current(s.triggers, rearm.trigger) == Some(armed) && armed.at.None? {
        PutArmed(s, rearm.trigger, armed, armed.(at := Some(R.Later(now, rearm.delay))), t);
      }
    }
  }

  lemma RearmedWf(w: World, s: Store, r: Run, now: int, t: Store)
    requires Wf(w, s) && t == Rearmed(s, r, now)
    ensures Wf(w, t) && t == s.(triggers := t.triggers, index := t.index)
  {
    RearmedKeys(s, r, now, t);
  }

  lemma EndRearmWf(w: World, s: Store, id: Id, now: int, t: Store)
    requires Wf(w, s) && id in s.runs && t == Rearmed(s.(runs := EndRuns(w, s.runs, id)), s.runs[id], now)
    ensures Wf(w, t) && Moves(s, t) && t.runs == EndRuns(w, s.runs, id) && t.queue == s.queue && t.drain == s.drain
  {
    var a := s.(runs := EndRuns(w, s.runs, id));
    EndRunsWf(w, s, id, a);
    RearmedWf(w, a, s.runs[id], now, t);
    TripsStandStill(s, t);
  }

  /** Ending runs takes no reason to wait from definitions none of them had. */
  lemma OthersSettled(w: World, s: Store, id: Id, t: Store, n: string)
    requires Wf(w, s) && SettledName(s, n) && n !in EndedNames(w, s.runs, id)
    requires t.runs == EndRuns(w, s.runs, id) && t.queue == s.queue && t.drain == s.drain
    ensures SettledName(t, n)
  {
    assert forall x :: x in s.runs && s.runs[x].admission.name == n ==> t.runs[x] == s.runs[x];
    assert LiveNamed(t.runs, n) == LiveNamed(s.runs, n);
    forall k | k in t.queue && t.queue[k].admission.name == n ensures Waits(t.runs, k, t.queue[k]) || n in t.drain {
      assert SlotOk(w, k, s.queue[k], s.defs);
      assert LiveOf(t.runs, k) == LiveOf(s.runs, k);
    }
  }

  lemma NamesListed(names: set<string>, n: string)
    requires n in names
    ensures exists i :: 0 <= i < |Sorted(AsKeys(names))| && Sorted(AsKeys(names))[i].0 == n
  {
    SortedLists(AsKeys(names));
    assert (n, "") in AsKeys(names);
    assert (n, "") in Sorted(AsKeys(names));
  }

  lemma TerminateWf(w: World, s: Store, id: Id, now: int, t: Store)
    requires Wf(w, s) && NoLost(s) && Terminate(w, s, id, now) == Ok(t)
    ensures Wf(w, t) && NoLost(t) && Moves(s, t)
  {
    if id in s.runs && s.runs[id].live {
      var b := Rearmed(s.(runs := EndRuns(w, s.runs, id)), s.runs[id], now);
      EndRearmWf(w, s, id, now, b);
      var names := EndedNames(w, s.runs, id);
      DrainNamesWf(w, b, Sorted(AsKeys(names)), now, t);
      PassesMoves(b, t);
      MovesOn(s, b, t);
      AllSettled(w, s, id, b, t);
    }
  }

  lemma AllSettled(w: World, s: Store, id: Id, b: Store, t: Store)
    requires Wf(w, s) && NoLost(s) && Passes(b, t)
    requires b.runs == EndRuns(w, s.runs, id) && b.queue == s.queue && b.drain == s.drain
    requires var names := Sorted(AsKeys(EndedNames(w, s.runs, id)));
             forall i :: 0 <= i < |names| ==> SettledName(t, names[i].0)
    ensures NoLost(t)
  {
    forall n ensures SettledName(t, n) {
      if n in EndedNames(w, s.runs, id) {
        NamesListed(EndedNames(w, s.runs, id), n);
      } else {
        assert SettledName(s, n);
        OthersSettled(w, s, id, b, n);
        NameSettledOn(b, t, n);
      }
    }
  }

  lemma {:induction false} TerminateAllWf(w: World, s: Store, ids: seq<Key>, now: int, t: Store)
    requires Wf(w, s) && NoLost(s) && TerminateAll(w, s, ids, now) == Ok(t)
    ensures Wf(w, t) && NoLost(t) && Moves(s, t)
    decreases |ids|
  {
    if ids != [] {
      var m := Terminate(w, s, ids[0].0, now).s;
      TerminateWf(w, s, ids[0].0, now, m);
      TerminateAllWf(w, m, ids[1..], now, t);
      MovesOn(s, m, t);
    }
  }
}

/**
 What each scheduling operation decides, written out over the rows before it: which case
 a firing is, what a buffered slot's turn does, and what the catalog's commands leave.
 */
module ScheduleDecisions {
  import opened Options
  import opened Order
  import opened Schedule
  import opened SchedulePromotion
  import R = Runs

  // ── rows ──────────────────────────────────────────────────────────────────

  /** A live run of the trigger is stored. */
  predicate HasLiveRun(s: Store, k: string) {
    exists x | x in s.runs :: s.runs[x].live && s.runs[x].trigger == Some(k)
  }

  /** As many runs of the definition live as the ceiling allows. */
  predicate AtCeiling(s: Store, name: string, max: nat) {
    |set x | x in s.runs && s.runs[x].live && s.runs[x].admission.name == name| >= max
  }

  /** The catalog refuses the admission: the definition is tripped, by hand, or for the
      content of this version, or for lack of it. */
  predicate TurnedAway(s: Store, a: Admission) {
    a.name in s.defs && s.defs[a.name].tripped.Some? &&
    var d := s.defs[a.name];
    (d.tripped.value.manual.Some? || a.version !in d.versions || d.versions[a.version].digest in {"", d.tripped.value.digest})
  }

  /** Only the trigger of `k` was stored. */
  ghost predicate OnlyTrigger(s: Store, t: Store, k: string, g: Trigger) {
    t == s.(triggers := s.triggers[k := g], index := t.index)
  }

  /** The row a new run gets: its admission, the content and epoch of the version, and
      what admitted it. */
  ghost predicate IsNewRun(s: Store, r: Run, a: Admission, trigger: Option<string>, rearm: Option<(Rearm, Trigger)>, live: bool) {
    && r.admission == a && r.trigger == trigger && r.rearm == rearm && r.live == live
    && r.digest == (if a.name in s.defs && a.version in s.defs[a.name].versions then s.defs[a.name].versions[a.version].digest else "")
    && r.epoch == (if a.name in s.defs && s.defs[a.name].active == Some(a.version) then Some(s.defs[a.name].epoch) else None)
  }

  /** The run `a` is stored, and no other row of a run changes. */
  ghost predicate StoresRun(s: Store, t: Store, a: Admission, trigger: Option<string>, rearm: Option<(Rearm, Trigger)>, live: bool) {
    a.id in t.runs && t.runs == s.runs[a.id := t.runs[a.id]] && IsNewRun(s, t.runs[a.id], a, trigger, rearm, live)
  }

  lemma Ceiling(s: Store, name: string, max: nat)
    ensures AtCeiling(s, name, max) <==> !Capacity(s.runs, name, max)
  {
    assert LiveNamed(s.runs, name) == set x | x in s.runs && s.runs[x].live && s.runs[x].admission.name == name;
  }

  lemma LiveRun(s: Store, k: string)
    ensures HasLiveRun(s, k) <==> LiveOf(s.runs, k) != {}
  {
    if HasLiveRun(s, k) {
      var x :| x in s.runs && s.runs[x].live && s.runs[x].trigger == Some(k);
      assert x in LiveOf(s.runs, k);
    }
  }

  lemma Turned_(s: Store, a: Admission)
    ensures TurnedAway(s, a) <==> Barred(s.defs, a)
  {
  }

  // ── a firing with one slot under an overlap policy ────────────────────────

  predicate OneFiring(f: Firing, a: Admission) {
    (f.admit == [a] && f.refused.None?) || (f.admit == [] && f.refused.Some? && f.refused.value.admission == a)
  }

  /** One slot `a`, to admit or to record as refused, under guard `g`, with the trigger
      the scheduler read still stored, and nothing that comes first. */
  ghost predicate OneSlot(s: Store, f: Firing, g: Guard, a: Admission) {
    && OneFiring(f, a) && f.overlap == Some(g) && g.max > 0 && f.next.Some? && f.busy.Some? && !f.ingested
    && !s.stopped && a.name !in s.drain && Current(s.triggers, f.key) == f.expected && a.id !in s.runs
  }

  ghost function Attached(f: Firing): Option<(Rearm, Trigger)> {
    if f.rearm.Some? && f.next.Some? then Some((f.rearm.value, f.next.value)) else None
  }

  /** The slot is admitted, or the catalog's refusal fails the firing. */
  ghost predicate SlotAdmitted(s: Store, f: Firing, a: Admission, r: FireOutcome)
    requires f.next.Some?
  {
    if TurnedAway(s, a) then r.Fails?
    else
      && r.Fires? && r.fired.Committed?
      && StoresRun(s, r.s, a, Some(f.key), Attached(f), true)
      && r.s == s.(runs := r.s.runs, last := s.last[f.key := a.id], triggers := s.triggers[f.key := f.next.value], index := r.s.index)
  }

  /** The refused slot is stored as a run that ended, and the breaker sees its fault. */
  ghost predicate SlotRefused(s: Store, f: Firing, a: Admission, fault: Fault, now: int, r: FireOutcome)
    requires f.next.Some?
  {
    if TurnedAway(s, a) then r.Fails?
    else
      && r.Fires? && r.fired.Committed?
      && exists t :: OnlyTrigger(s, t, f.key, f.next.value) && Records(t, r.s.(last := s.last), a, fault, now)
                     && r.s.last == s.last[f.key := a.id]
  }

  /** A run stored as ended, then what the breaker makes of it. */
  ghost predicate Records(s: Store, t: Store, a: Admission, fault: Fault, now: int) {
    exists m :: StoresRun(s, m, a, None, None, false) && m == s.(runs := m.runs)
                && t == Observe(m, a, m.runs[a.id].epoch, AFault, fault.threshold, now)
  }

  ghost predicate SlotTaken(s: Store, f: Firing, a: Admission, now: int, r: FireOutcome)
    requires f.next.Some?
  {
    if f.refused.None? then SlotAdmitted(s, f, a, r) else SlotRefused(s, f, a, f.refused.value.fault, now, r)
  }

  lemma RecordsRefusal(s: Store, a: Admission, fault: Fault, now: int)
    requires a.id !in s.runs && !s.stopped && !TurnedAway(s, a)
    ensures Refuse(s, a, fault, now).Ok? && Records(s, Refuse(s, a, fault, now).s, a, fault, now)
  {
    Turned_(s, a);
    var m := Inserted(s, a, None, None, false);
    assert StoresRun(s, m, a, None, None, false);
  }

  lemma CommitTakes(s: Store, f: Firing, a: Admission, now: int)
    requires OneFiring(f, a) && f.next.Some? && !s.stopped && a.id !in s.runs
    ensures SlotTaken(s, f, a, now, Commit(s, f, now))
  {
    var put := PutTrigger(s, f.key, f.expected, f.next);
    if f.refused.None? {
      CommitAdmits(s, f, a, now, put);
    } else {
      CommitRefuses(s, f, a, now, put);
    }
  }

  lemma CommitAdmits(s: Store, f: Firing, a: Admission, now: int, put: Store)
    requires f.admit == [a] && f.refused.None? && f.next.Some? && !s.stopped && a.id !in s.runs
    requires put == PutTrigger(s, f.key, f.expected, f.next)
    ensures SlotAdmitted(s, f, a, Commit(s, f, now))
  {
    Turned_(s, a);
    assert f.admit[0] == a && f.admit[1..] == [];
    assert AdmitAll(put, f, f.admit) == AdmitFiring(put, f.key, a, f.rearm, f.next);
  }

  lemma CommitRefuses(s: Store, f: Firing, a: Admission, now: int, put: Store)
    requires f.admit == [] && f.refused.Some? && f.refused.value.admission == a && f.next.Some? && !s.stopped && a.id !in s.runs
    requires put == PutTrigger(s, f.key, f.expected, f.next)
    ensures SlotRefused(s, f, a, f.refused.value.fault, now, Commit(s, f, now))
  {
    Turned_(s, a);
    assert OnlyTrigger(s, put, f.key, f.next.value);
    if !TurnedAway(s, a) {
      RecordsRefusal(put, a, f.refused.value.fault, now);
      var t := Refuse(put, a, f.refused.value.fault, now).s;
      assert t.last == s.last && Commit(s, f, now).s.(last := s.last) == t;
    }
  }

  /** Firing without a deferred drain. */
  lemma Direct(w: World, s: Store, f: Firing, g: Guard, a: Admission, now: int)
    requires OneSlot(s, f, g, a)
    ensures Candidate(f) == Some(a) && Fire(w, s, f, now) == FireChecked(w, s, f, now)
  {
  }

  /** At the ceiling: nothing is admitted or buffered, and the trigger says so. */
  ghost predicate IsFull(s: Store, f: Firing, g: Guard, r: FireOutcome) {
    r.Fires? && r.fired.Full? && OnlyTrigger(s, r.s, f.key, g.full)
  }

  ghost predicate IsBusy(s: Store, f: Firing, r: FireOutcome)
    requires f.busy.Some?
  {
    r.Fires? && r.fired.Busy? && OnlyTrigger(s, r.s, f.key, f.busy.value)
  }

  /** The slot is buffered as it is, and nothing is admitted. */
  ghost predicate IsBuffered(s: Store, f: Firing, g: Guard, a: Admission, r: FireOutcome)
    requires f.next.Some?
  {
    && r.Fires? && r.fired.Buffered?
    && r.s == s.(queue := s.queue[f.key := Slot(a, f.rearm, g.max, if f.refused.Some? then Some(f.refused.value.fault) else None)],
                 queueName := s.queueName + {(a.name, f.key)},
                 triggers := s.triggers[f.key := f.next.value], index := r.s.index)
  }

  /** Below or at the ceiling, busy or not. */
  ghost predicate Decided(s: Store, f: Firing, g: Guard, a: Admission, busy: bool, now: int, r: FireOutcome)
    requires f.next.Some? && f.busy.Some?
  {
    if AtCeiling(s, a.name, g.max) then IsFull(s, f, g, r)
    else if busy && g.policy.Queue? && f.key !in s.queue then IsBuffered(s, f, g, a, r)
    else if busy && (g.policy.Queue? || g.policy.Skip?) then IsBusy(s, f, r)
    else SlotTaken(s, f, a, now, r)
  }

  lemma SlotDecides(s: Store, f: Firing, g: Guard, a: Admission, busy: bool, now: int)
    requires OneFiring(f, a) && f.next.Some? && f.busy.Some? && !s.stopped && a.id !in s.runs
    ensures Decided(s, f, g, a, busy, now, FireSlot(s, f, g, a, busy, now))
  {
    Ceiling(s, a.name, g.max);
    if Capacity(s.runs, a.name, g.max) && !(busy && (g.policy.Skip? || g.policy.Queue?)) {
      CommitTakes(s, f, a, now);
    }
  }

  /** A firing that does not replace: whether its trigger has a live run decides with the
      ceiling, the policy and the slot already buffered. */
  lemma FireDecides(w: World, s: Store, f: Firing, g: Guard, a: Admission, now: int)
    requires OneSlot(s, f, g, a) && !g.policy.Replace?
    ensures Decided(s, f, g, a, HasLiveRun(s, f.key), now, Fire(w, s, f, now))
  {
    Direct(w, s, f, g, a, now);
    LiveRun(s, f.key);
    SlotDecides(s, f, g, a, LiveOf(s.runs, f.key) != {}, now);
  }

  /** A live run and no slot: the slot is buffered as it is, whatever it carries. */
  lemma QueueDecides(w: World, s: Store, f: Firing, g: Guard, a: Admission, now: int)
    requires OneSlot(s, f, g, a) && g.policy.Queue?
    ensures var r := Fire(w, s, f, now);
            if AtCeiling(s, a.name, g.max) then IsFull(s, f, g, r)
            else if HasLiveRun(s, f.key) && f.key !in s.queue then IsBuffered(s, f, g, a, r)
            else if HasLiveRun(s, f.key) then IsBusy(s, f, r)
            else SlotTaken(s, f, a, now, r)
  {
    FireDecides(w, s, f, g, a, now);
  }

  lemma SkipDecides(w: World, s: Store, f: Firing, g: Guard, a: Admission, now: int)
    requires OneSlot(s, f, g, a) && g.policy.Skip?
    ensures var r := Fire(w, s, f, now);
            if AtCeiling(s, a.name, g.max) then IsFull(s, f, g, r)
            else if HasLiveRun(s, f.key) then IsBusy(s, f, r)
            else SlotTaken(s, f, a, now, r)
  {
    FireDecides(w, s, f, g, a, now);
  }

  lemma AllowDecides(w: World, s: Store, f: Firing, g: Guard, a: Admission, now: int)
    requires OneSlot(s, f, g, a) && g.policy.Allow?
    ensures var r := Fire(w, s, f, now);
            if AtCeiling(s, a.name, g.max) then IsFull(s, f, g, r) else SlotTaken(s, f, a, now, r)
  {
    FireDecides(w, s, f, g, a, now);
  }

  /** Replacing: the trigger's live runs are cancelled first, then the ceiling decides. */
  lemma ReplaceDecides(w: World, s: Store, f: Firing, g: Guard, a: Admission, now: int)
    requires OneSlot(s, f, g, a) && g.policy.Replace? && Wf(w, s) && NoLost(s)
    ensures var m, r := TerminateAll(w, s, Sorted(AsKeys(LiveOf(s.runs, f.key))), now), Fire(w, s, f, now);
            if m.Err? then r.Fails?
            else
              && (forall x :: x in s.runs && s.runs[x].trigger == Some(f.key) ==> x in m.s.runs && !m.s.runs[x].live)
              && (a.id !in m.s.runs ==> if AtCeiling(m.s, a.name, g.max) then IsFull(m.s, f, g, r) else SlotTaken(m.s, f, a, now, r))
  {
    Direct(w, s, f, g, a, now);
    var ids := Sorted(AsKeys(LiveOf(s.runs, f.key)));
    var m := TerminateAll(w, s, ids, now);
    if m.Ok? {
      TerminateAllWf(w, s, ids, now, m.s);
      AllEnded(w, s, ids, now, m.s);
      SortedLists(AsKeys(LiveOf(s.runs, f.key)));
      forall x | x in s.runs && s.runs[x].trigger == Some(f.key) ensures x in m.s.runs && !m.s.runs[x].live {
        if s.runs[x].live {
          assert (x, "") in AsKeys(LiveOf(s.runs, f.key));
          assert (x, "") in ids;
        }
      }
      if a.id !in m.s.runs {
        SlotDecides(m.s, f, g, a, LiveOf(s.runs, f.key) != {}, now);
      }
    }
  }

  lemma {:induction false} AllEnded(w: World, s: Store, ids: seq<Key>, now: int, t: Store)
    requires Wf(w, s) && NoLost(s) && TerminateAll(w, s, ids, now) == Ok(t)
    ensures forall i :: 0 <= i < |ids| && ids[i].0 in s.runs ==> ids[i].0 in t.runs && !t.runs[ids[i].0].live
    decreases |ids|
  {
    if ids != [] {
      var m := Terminate(w, s, ids[0].0, now).s;
      TerminateWf(w, s, ids[0].0, now, m);
      if ids[0].0 in s.runs {
        OneEnded(w, s, ids[0].0, now, m);
      }
      AllEnded(w, m, ids[1..], now, t);
      TerminateAllWf(w, m, ids[1..], now, t);
      forall i | 0 <= i < |ids| && ids[i].0 in s.runs ensures ids[i].0 in t.runs && !t.runs[ids[i].0].live {
        assert i > 0 ==> ids[i] == ids[1..][i - 1];
      }
    }
  }

  lemma OneEnded(w: World, s: Store, id: Id, now: int, t: Store)
    requires Wf(w, s) && NoLost(s) && Terminate(w, s, id, now) == Ok(t) && id in s.runs
    ensures id in t.runs && !t.runs[id].live
  {
    if s.runs[id].live {
      EndsExactly(w, s, id, now, t);
    }
  }

  /** The end of a run: it and what is below it ends, no other stored run changes. */
  lemma EndsExactly(w: World, s: Store, id: Id, now: int, t: Store)
    requires Wf(w, s) && id in s.runs && s.runs[id].live && Terminate(w, s, id, now) == Ok(t)
    ensures forall x :: x in s.runs ==>
              x in t.runs && t.runs[x] == s.runs[x].(live := s.runs[x].live && x != id && !w.below(x, id))
  {
    var b := Rearmed(s.(runs := EndRuns(w, s.runs, id)), s.runs[id], now);
    EndRearmWf(w, s, id, now, b);
    DrainNamesWf(w, b, Sorted(AsKeys(EndedNames(w, s.runs, id))), now, t);
  }

  /** An ended run re-arms the trigger its firing stored, if that is still stored and has no
      instant: to its delay from now, within the 64-bit instants. */
  lemma RearmDecides(s: Store, r: Run, now: int)
    ensures var t := Rearmed(s, r, now);
            if r.rearm.Some? && r.rearm.value.0.trigger in s.triggers && r.rearm.value.1 == s.triggers[r.rearm.value.0.trigger]
               && r.rearm.value.1.at.None?
            then
              var at := now + r.rearm.value.0.delay;
              OnlyTrigger(s, t, r.rearm.value.0.trigger, r.rearm.value.1.(at := Some(
                if at > 0x7fff_ffff_ffff_ffff then 0x7fff_ffff_ffff_ffff else if at < -0x8000_0000_0000_0000 then -0x8000_0000_0000_0000 else at)))
            else t == s
  {
  }

  // ── what comes before the slot ────────────────────────────────────────────

  /** Nothing of the firing's definition was deferred. */
  predicate Undeferred(s: Store, f: Firing) {
    match Candidate(f)
    case Some(a) => a.name !in s.drain
    case None => true
  }

  /** A stopped store and a trigger that has moved on change nothing; a firing with runs
      and a refusal is an error; an event taken before is not taken again. */
  lemma FirePrecedes(w: World, s: Store, f: Firing, now: int)
    ensures s.stopped ==> Fire(w, s, f, now) == Fires(s, Changed)
    ensures !s.stopped && f.refused.Some? && f.admit != [] ==> Fire(w, s, f, now).Fails?
    ensures var valid := !s.stopped && (f.refused.None? || f.admit == []) && Undeferred(s, f);
            && (valid && Current(s.triggers, f.key) != f.expected ==> Fire(w, s, f, now) == Fires(s, Changed))
            && (valid && Current(s.triggers, f.key) == f.expected && f.ingested ==> Fire(w, s, f, now) == Fires(s, Ingested))
  {
  }

  /** Under a guard a firing with several runs, no ceiling, or no trigger to move to fails. */
  lemma GuardNeeds(w: World, s: Store, f: Firing, g: Guard, now: int)
    requires !s.stopped && (f.refused.None? || f.admit == []) && Undeferred(s, f) && Current(s.triggers, f.key) == f.expected && !f.ingested
    requires f.overlap == Some(g) && Candidate(f).Some?
    requires |f.admit| > 1 || g.max == 0 || f.next.None? || f.busy.None?
    ensures Fire(w, s, f, now).Fails?
  {
  }

  lemma SomeTurned(s: Store, admit: seq<Admission>, a: Admission)
    ensures (exists b | b in admit + [a] :: b.id !in s.runs && TurnedAway(s, b)) <==>
            Turns(s, a) || exists b | b in admit :: Turns(s, b)
  {
    forall b | b in admit + [a] ensures TurnedAway(s, b) <==> Barred(s.defs, b) {
      Turned_(s, b);
    }
  }

  /** A deferred drain goes first: it may change the trigger, or trip the definition and
      so refuse the slot; else the firing is that on what it leaves. */
  lemma FireDrains(w: World, s: Store, f: Firing, a: Admission, now: int)
    requires !s.stopped && (f.refused.None? || f.admit == []) && Candidate(f) == Some(a) && a.name in s.drain
    requires Wf(w, s) && NoLost(s)
    ensures var r, m := Fire(w, s, f, now), Drain(s.(drain := s.drain - {a.name}), a.name, now);
            if m.Err? then r.Fails?
            else if Current(m.s.triggers, f.key) != f.expected then r == Fires(m.s, Changed)
            else if exists b | b in f.admit + [a] :: b.id !in m.s.runs && TurnedAway(m.s, b) then r == Fires(m.s, Turned)
            else r == Fire(w, m.s, f, now)
  {
    var m := Drain(s.(drain := s.drain - {a.name}), a.name, now);
    if m.Ok? {
      UnmarkWf(w, s, a.name, now, m.s);
      SomeTurned(m.s, f.admit, a);
    }
  }

  // ── firings without a new slot ────────────────────────────────────────────

  /** What a root joins a stored run by: the definition, the version it names, the host's
      data. */
  predicate Agrees(stored: Admission, a: Admission) {
    stored.name == a.name && (a.pinned ==> stored.version == a.version) && stored.host == a.host
  }

  /** A slot that has its run already only moves the trigger on, if the admissions agree. */
  lemma FireJoins(w: World, s: Store, f: Firing, g: Guard, a: Admission, now: int)
    requires !s.stopped && OneFiring(f, a) && f.overlap == Some(g) && g.max > 0 && f.next.Some? && f.busy.Some? && !f.ingested
    requires Undeferred(s, f) && Current(s.triggers, f.key) == f.expected && a.id in s.runs
    ensures var r := Fire(w, s, f, now);
            if !Agrees(s.runs[a.id].admission, a) then r.Fails?
            else
              && r.Fires? && r.fired.Committed?
              && r.s == s.(triggers := s.triggers[f.key := f.next.value], index := r.s.index, last := s.last[f.key := a.id])
  {
    var put := PutTrigger(s, f.key, f.expected, f.next);
    assert f.admit != [] ==> f.admit[0] == a && f.admit[1..] == [];
    assert f.admit != [] ==> AdmitAll(put, f, f.admit) == AdmitFiring(put, f.key, a, f.rearm, f.next);
  }

  /** A slot that is not fired only moves the trigger on, or removes it. */
  lemma FireMissed(w: World, s: Store, f: Firing, now: int)
    requires !s.stopped && f.admit == [] && f.refused.None? && !f.ingested && Current(s.triggers, f.key) == f.expected
    ensures var r := Fire(w, s, f, now);
            && r.Fires? && r.fired.Committed?
            && r.s == s.(triggers := if f.next.Some? then s.triggers[f.key := f.next.value] else s.triggers - {f.key}, index := r.s.index)
  {
    assert f.key !in s.triggers ==> s.triggers - {f.key} == s.triggers;
  }

  /** Without a guard a trigger whose last run lives is busy if the firing allows for it. */
  lemma FireBusy(w: World, s: Store, f: Firing, now: int)
    requires !s.stopped && (f.refused.None? || f.admit == []) && !f.ingested && f.overlap.None? && Candidate(f).Some?
    requires Undeferred(s, f) && Current(s.triggers, f.key) == f.expected
    requires f.busy.Some? && f.key in s.last && s.last[f.key] in s.runs && s.runs[s.last[f.key]].live
    ensures IsBusy(s, f, Fire(w, s, f, now))
  {
  }

  /** Else its one slot is admitted. */
  lemma FirePlain(w: World, s: Store, f: Firing, a: Admission, now: int)
    requires !s.stopped && OneFiring(f, a) && !f.ingested && f.overlap.None? && f.next.Some? && a.id !in s.runs
    requires Undeferred(s, f) && Current(s.triggers, f.key) == f.expected
    requires f.busy.None? || f.key !in s.last || s.last[f.key] !in s.runs || !s.runs[s.last[f.key]].live
    ensures SlotTaken(s, f, a, now, Fire(w, s, f, now))
  {
    CommitTakes(s, f, a, now);
  }

  // ── the turn of a buffered slot ───────────────────────────────────────────

  /** The slot of `k` has left the rows. */
  ghost predicate SlotGone(s: Store, t: Store, k: string)
    requires k in s.queue
  {
    t == s.(queue := s.queue - {k}, queueName := s.queueName - {(s.queue[k].admission.name, k)})
  }

  /** A promoted slot that was to be admitted: its run is stored and live under the key,
      re-armed with the trigger as it is stored now. */
  ghost predicate Promoted_(s: Store, k: string, q: Slot, t: Store)
    requires k in s.queue && k in s.triggers
  {
    exists m :: SlotGone(s, m, k)
                && StoresRun(m, t, q.admission, Some(k), if q.rearm.Some? then Some((q.rearm.value, s.triggers[k])) else None, true)
                && t == m.(runs := t.runs, last := s.last[k := q.admission.id])
  }

  ghost predicate PromotedRefusal(s: Store, k: string, q: Slot, fault: Fault, now: int, t: Store)
    requires k in s.queue
  {
    exists m :: SlotGone(s, m, k) && Records(m, t, q.admission, fault, now)
  }

  lemma TurnWaits(s: Store, n: string, k: string, now: int)
    requires k in s.queue && (HasLiveRun(s, k) || AtCeiling(s, s.queue[k].admission.name, s.queue[k].ceiling))
    ensures DrainOne(s, (n, k), now) == Ok(s)
  {
    LiveRun(s, k);
    Ceiling(s, s.queue[k].admission.name, s.queue[k].ceiling);
  }

  lemma TurnPromotes(s: Store, n: string, k: string, now: int)
    requires k in s.queue && !HasLiveRun(s, k) && !AtCeiling(s, s.queue[k].admission.name, s.queue[k].ceiling) && !s.stopped
    requires k in s.triggers && s.queue[k].admission.id !in s.runs
    ensures var q, r := s.queue[k], DrainOne(s, (n, k), now);
            if TurnedAway(s, q.admission) then r.Err?
            else r.Ok? && if q.failure.Some? then PromotedRefusal(s, k, q, q.failure.value, now, r.s) else Promoted_(s, k, q, r.s)
  {
    var q := s.queue[k];
    LiveRun(s, k);
    Ceiling(s, q.admission.name, q.ceiling);
    Turned_(s, q.admission);
    var m := RemoveQueue(s, k);
    assert SlotGone(s, m, k);
    if q.failure.Some? && !TurnedAway(s, q.admission) {
      RecordsRefusal(m, q.admission, q.failure.value, now);
    }
  }

  /** A slot whose trigger is gone, or that should be there and is not, is an error. */
  lemma TurnFaults(s: Store, n: string, k: string, now: int)
    ensures k !in s.queue ==> DrainOne(s, (n, k), now) == if (n, k) in s.queueName then Err else Ok(s)
    ensures k in s.queue && k !in s.triggers && !HasLiveRun(s, k) && !AtCeiling(s, s.queue[k].admission.name, s.queue[k].ceiling)
            ==> DrainOne(s, (n, k), now).Err?
  {
    if k in s.queue {
      LiveRun(s, k);
      Ceiling(s, s.queue[k].admission.name, s.queue[k].ceiling);
    }
  }

  // ── the order of turns ────────────────────────────────────────────────────

  /** Another slot's turn drops this one only by a trip. */
  lemma OtherTurn(w: World, s: Store, row: Key, now: int, t: Store, k: string)
    requires Wf(w, s) && DrainOne(s, row, now) == Ok(t) && k in s.queue && row.1 != k
    ensures k in t.queue || Broken(t.defs, s.queue[k].admission.name)
  {
    if row.1 in s.queue && t != s {
      var m := RemoveQueue(s, row.1);
      RemoveQueueWf(w, s, row.1, m);
      TakenTurn(w, m, row.1, s.queue[row.1], Some(s.triggers[row.1]), now, t, k);
    }
  }

  lemma TakenTurn(w: World, m: Store, j: string, q: Slot, stored: Option<Trigger>, now: int, t: Store, k: string)
    requires Wf(w, m) && k in m.queue
    requires Ok(t) == if q.failure.Some? then Refuse(m, q.admission, q.failure.value, now) else AdmitFiring(m, j, q.admission, q.rearm, stored)
    ensures k in t.queue || Broken(t.defs, m.queue[k].admission.name)
  {
    if q.failure.Some? {
      RefuseDrops(w, m, q.admission, q.failure.value, now, t, k);
    }
  }

  lemma RefuseDrops(w: World, s: Store, a: Admission, f: Fault, now: int, t: Store, k: string)
    requires Wf(w, s) && Refuse(s, a, f, now) == Ok(t) && k in s.queue
    ensures k in t.queue || Broken(t.defs, s.queue[k].admission.name)
  {
    if a.id !in s.runs {
      var i := Inserted(s, a, None, None, false);
      InsertedWf(w, s, a, None, None, false, i);
      ObserveDrops(w, i, a, EpochOf(s.defs, a), f.threshold, now, t, k);
    }
  }

  lemma ObserveDrops(w: World, s: Store, run: Admission, epoch: Option<nat>, default_: Count, now: int, t: Store, k: string)
    requires Wf(w, s) && t == Observe(s, run, epoch, AFault, default_, now) && k in s.queue
    ensures k in t.queue || Broken(t.defs, s.queue[k].admission.name)
  {
    if k !in t.queue {
      assert Broken(t.defs, run.name) && k in s.defs[run.name].triggers;
      assert SlotOk(w, k, s.queue[k], s.defs) && DefOk(w, run.name, s.defs[run.name]);
    }
  }

  /** A definition that is full stays so through a drain, and the slot stays with it. */
  lemma {:induction false} FullStays(w: World, s: Store, keys: seq<Key>, now: int, t: Store, k: string)
    requires Wf(w, s) && DrainKeys(s, keys, now) == Ok(t) && k in s.queue
    requires !Capacity(s.runs, s.queue[k].admission.name, s.queue[k].ceiling)
    ensures k in t.queue || Broken(t.defs, s.queue[k].admission.name)
    decreases |keys|
  {
    if keys != [] {
      var m, q := DrainOne(s, keys[0], now).s, s.queue[k];
      DrainOneWf(w, s, keys[0], now, m);
      DrainKeysWf(w, m, keys[1..], now, t);
      if keys[0].1 != k {
        OtherTurn(w, s, keys[0], now, m, k);
      }
      if k in m.queue {
        SubsetSize(LiveNamed(s.runs, q.admission.name), LiveNamed(m.runs, q.admission.name));
        FullStays(w, m, keys[1..], now, t, k);
      } else {
        StaysBroken(m, t, q.admission.name);
      }
    }
  }

  lemma {:induction false} KeysInOrder(w: World, s: Store, keys: seq<Key>, now: int, t: Store, j: string, k: string, a: nat, b: nat)
    requires Wf(w, s) && DrainKeys(s, keys, now) == Ok(t) && a < b < |keys| && keys[a].1 == j && keys[b].1 == k
    requires forall i, l :: 0 <= i < l < |keys| ==> keys[i].1 != keys[l].1
    requires j in s.queue && k in s.queue && s.queue[j].admission.name == s.queue[k].admission.name && s.queue[k].ceiling <= s.queue[j].ceiling
    requires j in t.queue && LiveOf(t.runs, j) == {}
    ensures k in t.queue || Broken(t.defs, s.queue[k].admission.name)
    decreases |keys|
  {
    var m, q := DrainOne(s, keys[0], now).s, s.queue[k];
    DrainOneWf(w, s, keys[0], now, m);
    DrainKeysWf(w, m, keys[1..], now, t);
    assert keys[0].1 != k;
    OtherTurn(w, s, keys[0], now, m, k);
    if k !in m.queue {
      StaysBroken(m, t, q.admission.name);
    } else if a == 0 {
      assert LiveOf(m.runs, j) <= LiveOf(t.runs, j);
      FullStays(w, m, keys[1..], now, t, k);
    } else {
      assert keys[1..][a - 1] == keys[a] && keys[1..][b - 1] == keys[b];
      KeysInOrder(w, m, keys[1..], now, t, j, k, a - 1, b - 1);
    }
  }

  lemma AscendingIndex(keys: seq<Key>, a: nat, b: nat)
    requires forall i, j :: 0 <= i < j < |keys| ==> KeyLess(keys[i], keys[j])
    requires a < |keys| && b < |keys| && KeyLess(keys[a], keys[b])
    ensures a < b
  {
    KeyOrder();
  }

  /** Slots take their turns in key order: where one still waits though no run of its
      trigger lives, none with a later key and no higher ceiling was promoted. */
  lemma EarlierFirst(w: World, s: Store, name: string, now: int, t: Store, j: string, k: string)
    requires Wf(w, s) && !s.stopped && Drain(s, name, now) == Ok(t) && Less(j, k)
    requires j in s.queue && k in s.queue && s.queue[j].admission.name == name && s.queue[k].admission.name == name
    requires s.queue[k].ceiling <= s.queue[j].ceiling && j in t.queue && !HasLiveRun(t, j)
    ensures k in t.queue || Broken(t.defs, name)
  {
    LiveRun(t, j);
    var a, b := TurnsOf(s, name, j, k);
    KeysInOrder(w, s, Sorted(QueueRows(s, name)), now, t, j, k, a, b);
  }

  lemma TurnsOf(s: Store, name: string, j: string, k: string) returns (a: nat, b: nat)
    requires (name, j) in QueueRows(s, name) && (name, k) in QueueRows(s, name) && Less(j, k)
    ensures var keys := Sorted(QueueRows(s, name));
            && a < b < |keys| && keys[a] == (name, j) && keys[b] == (name, k)
            && forall i, l :: 0 <= i < l < |keys| ==> keys[i].1 != keys[l].1
  {
    var rows := QueueRows(s, name);
    var keys := Sorted(rows);
    SortedLists(rows);
    a :| 0 <= a < |keys| && keys[a] == (name, j);
    b :| 0 <= b < |keys| && keys[b] == (name, k);
    assert KeyLess((name, j), (name, k));
    AscendingIndex(keys, a, b);
    forall i, l | 0 <= i < l < |keys| ensures keys[i].1 != keys[l].1 {
      assert KeyLess(keys[i], keys[l]) && keys[i] in rows && keys[l] in rows;
      LessIrreflexive(keys[i].1);
      LessIrreflexive(name);
    }
  }

  /** A stopped store only marks a definition that has slots. */
  lemma StoppedDrain(s: Store, name: string, now: int)
    requires s.stopped && QueueIndexOk(s.queue, s.queueName)
    ensures Drain(s, name, now) ==
            Ok(if exists k :: k in s.queue && s.queue[k].admission.name == name then s.(drain := s.drain + {name}) else s)
  {
    if k :| k in s.queue && s.queue[k].admission.name == name {
      assert (name, k) in QueueRows(s, name);
    }
    if QueueRows(s, name) != {} {
      var r :| r in QueueRows(s, name);
      assert r.1 in s.queue && s.queue[r.1].admission.name == name;
    }
  }

  // ── a page of deferred drains ─────────────────────────────────────────────

  lemma {:induction false} MarksLeave(w: World, s: Store, names: seq<Key>, now: int, t: Store)
    requires Wf(w, s) && NoLost(s) && !s.stopped && DrainMarks(s, names, now) == Ok(t)
    ensures forall n :: n in t.drain <==> n in s.drain && forall i :: 0 <= i < |names| ==> names[i].0 != n
    decreases |names|
  {
    if names != [] {
      var m := s.(drain := s.drain - {names[0].0});
      var u := Drain(m, names[0].0, now).s;
      DrainWf(w, m, names[0].0, now, u);
      UnmarkWf(w, s, names[0].0, now, u);
      MarksLeave(w, u, names[1..], now, t);
      forall n ensures n in t.drain <==> n in s.drain && forall i :: 0 <= i < |names| ==> names[i].0 != n {
        if forall i :: 0 <= i < |names[1..]| ==> names[1..][i].0 != n {
          assert forall i :: 0 < i < |names| ==> names[i] == names[1..][i - 1];
        }
        if forall i :: 0 <= i < |names| ==> names[i].0 != n {
          assert forall i :: 0 <= i < |names[1..]| ==> names[1..][i] == names[i + 1];
        }
      }
    }
  }

  /** A page drains the marked definitions that come first by name, as many as asked for,
      and unmarks just these; no slot of them is left without a reason. */
  lemma PageDecides(w: World, s: Store, limit: nat, now: int, t: Store)
    requires Wf(w, s) && NoLost(s) && !s.stopped && DrainPending(s, limit, now) == Ok(t)
    ensures t.drain <= s.drain && |s.drain - t.drain| == (if |s.drain| < limit then |s.drain| else limit)
    ensures forall a, b :: a in s.drain - t.drain && b in t.drain ==> Less(a, b)
    ensures NoLost(t)
  {
    var all := Sorted(AsKeys(s.drain));
    var names := if |all| <= limit then all else all[..limit];
    MarksWf(w, s, names, now, t);
    MarksLeave(w, s, names, now, t);
    SortedLists(AsKeys(s.drain));
    FirstNames(s.drain, all, names, t.drain);
  }

  lemma FirstNames(marked: set<string>, all: seq<Key>, names: seq<Key>, left: set<string>)
    requires names <= all && |all| == |AsKeys(marked)| && forall k :: k in all <==> k in AsKeys(marked)
    requires forall i, j :: 0 <= i < j < |all| ==> KeyLess(all[i], all[j])
    requires forall n :: n in left <==> n in marked && forall i :: 0 <= i < |names| ==> names[i].0 != n
    ensures left <= marked && |marked - left| == |names| && |all| == |marked|
    ensures forall a, b :: a in marked - left && b in left ==> Less(a, b)
  {
    KeyOrder();
    AsManyKeys(marked);
    forall a, b | a in marked - left && b in left ensures Less(a, b) {
      var i :| 0 <= i < |names| && names[i].0 == a;
      assert (b, "") in all;
      var j :| 0 <= j < |all| && all[j] == (b, "");
      assert names[i] == all[i] && all[i] in AsKeys(marked);
      assert j >= |names|;
      assert KeyLess(all[i], all[j]);
    }
    CountNames(marked, all, names, left);
  }

  lemma AsManyKeys(names: set<string>)
    ensures |AsKeys(names)| == |names|
    decreases |names|
  {
    if names != {} {
      var n :| n in names;
      AsManyKeys(names - {n});
      assert AsKeys(names) == AsKeys(names - {n}) + {(n, "")};
    }
  }

  lemma OneMoreLeft(marked: set<string>, all: seq<Key>, names: seq<Key>, left: set<string>, rest: seq<Key>, more: set<string>)
    requires names != [] && names <= all && (forall k :: k in all <==> k in AsKeys(marked))
    requires forall i, j :: 0 <= i < j < |all| ==> all[i] != all[j]
    requires forall n :: n in left <==> n in marked && forall i :: 0 <= i < |names| ==> names[i].0 != n
    requires rest == names[..|names| - 1] && more == left + {names[|names| - 1].0}
    ensures forall n :: n in more <==> n in marked && forall i :: 0 <= i < |rest| ==> rest[i].0 != n
  {
    var last := names[|names| - 1];
    assert last == all[|names| - 1] && last in all;
    forall i | 0 <= i < |rest| ensures names[i] == rest[i] && rest[i].0 != last.0 {
      assert rest[i] == all[i] && all[i] in all && all[i] in AsKeys(marked);
    }
  }

  lemma {:induction false} CountNames(marked: set<string>, all: seq<Key>, names: seq<Key>, left: set<string>)
    requires names <= all && (forall k :: k in all <==> k in AsKeys(marked))
    requires forall i, j :: 0 <= i < j < |all| ==> all[i] != all[j]
    requires forall n :: n in left <==> n in marked && forall i :: 0 <= i < |names| ==> names[i].0 != n
    ensures |marked - left| == |names|
    decreases |names|
  {
    if names == [] {
      assert marked - left == {};
    } else {
      var last := names[|names| - 1];
      var rest := names[..|names| - 1];
      assert last in all && last == all[|names| - 1];
      var more := left + {last.0};
      OneMoreLeft(marked, all, names, left, rest, more);
      CountNames(marked, all, rest, more);
      assert marked - left == (marked - more) + {last.0};
    }
  }

  // ── starts ────────────────────────────────────────────────────────────────

  /** A start of a new run, after nothing deferred: stored live, owned by no trigger, or
      refused by the stop or the catalog. A stored run is joined if the admissions agree,
      a child's if it is of the same invocation and definition. */
  lemma StartDecides(s: Store, a: Admission, kind: Kind, now: int)
    requires a.name !in s.drain || s.stopped
    ensures var r := Start(s, a, kind, now);
            if a.id in s.runs then
              r == if (match kind case Root => Agrees(s.runs[a.id].admission, a) case Child(linked) => linked && s.runs[a.id].admission.name == a.name)
                   then Ok(s) else Err
            else if s.stopped || TurnedAway(s, a) then r.Err?
            else r.Ok? && StoresRun(s, r.s, a, None, None, true) && r.s == s.(runs := r.s.runs)
  {
    Turned_(s, a);
  }

  /** After a drain that tripped the definition the start is refused with the drain kept. */
  lemma StartDrains(w: World, s: Store, a: Admission, kind: Kind, now: int)
    requires !s.stopped && a.name in s.drain && Wf(w, s) && NoLost(s)
    ensures var r, m := Start(s, a, kind, now), Drain(s.(drain := s.drain - {a.name}), a.name, now);
            if m.Err? then r.Err?
            else if a.id !in m.s.runs && TurnedAway(m.s, a) then r == m
            else r == Start(m.s, a, kind, now)
  {
    var m := Drain(s.(drain := s.drain - {a.name}), a.name, now);
    if m.Ok? {
      UnmarkWf(w, s, a.name, now, m.s);
      Turned_(m.s, a);
    }
  }

  // ── the catalog ───────────────────────────────────────────────────────────

  /** The rows once a definition gave up its triggers for others. */
  ghost predicate Rearranged(s: Store, t: Store, owned: set<string>, wanted: map<string, Trigger>) {
    && (forall k :: k in t.triggers <==> k in wanted || (k in s.triggers && k !in owned))
    && (forall k :: k in t.triggers ==> t.triggers[k] == if k in wanted then wanted[k] else s.triggers[k])
    && (forall k :: k in t.queue <==> k in s.queue && k !in owned)
    && (forall k :: k in t.queue ==> t.queue[k] == s.queue[k])
  }

  lemma ActivateDecides(s: Store, name: string, version: nat, epoch: Option<nat>, wanted: map<string, Trigger>)
    ensures var r := Activate(s, name, version, epoch, wanted);
            if name !in s.defs || version !in s.defs[name].versions then r.Err?
            else if epoch.Some? && epoch != Some(s.defs[name].epoch) then r == Ok(s)
            else
              var d := s.defs[name];
              && r.Ok? && Rearranged(s, r.s, d.triggers, wanted)
              && r.s.defs == s.defs[name := Definition(d.versions, Some(version), 0, d.epoch + 1, None, wanted.Keys)]
              && r.s.paused == s.paused - {name} && r.s.runs == s.runs && r.s.notices == s.notices && r.s.last == s.last
              && r.s.drain == s.drain && r.s.stopped == s.stopped
  {
  }

  /** A version once saved is not changed. */
  lemma SaveDecides(s: Store, name: string, version: nat, v: Version)
    ensures var t := SaveDefinition(s, name, version, v);
            if name in s.defs && version in s.defs[name].versions then t == s
            else
              && name in t.defs && t == s.(defs := s.defs[name := t.defs[name]])
              && t.defs[name].versions == (if name in s.defs then s.defs[name].versions else map[])[version := v]
              && (if name in s.defs then t.defs[name] == s.defs[name].(versions := t.defs[name].versions)
                  else t.defs[name] == Definition(map[version := v], None, 0, 0, None, {}))
  {
  }

  /** The trip a pause sets: over a breaker's trip, which keeps all it was, or alone. */
  ghost predicate IsPauseOf(d: Definition, trip: Trip, reason: string, now: int) {
    if d.tripped.Some? then trip == d.tripped.value.(manual := Some(reason))
    else
      && trip.manual == Some(reason) && !trip.breaker && d.active == Some(trip.version) && trip.epoch == d.epoch
      && trip.faults == d.faults && trip.threshold == 0 && trip.run == "" && trip.at == now
      && trip.digest == if trip.version in d.versions then d.versions[trip.version].digest else ""
  }

  /** The triggers and slots of the definition are aside, and nothing else changes. */
  ghost predicate IsPaused(s: Store, name: string, d: Definition, trip: Trip, p: Paused, t: Store) {
    && Rearranged(s, t, d.triggers, map[]) && IsAsideOf(s, d, p)
    && t.defs == s.defs[name := d.(triggers := {}, tripped := Some(trip))] && t.paused == s.paused[name := p]
    && t.runs == s.runs && t.notices == s.notices && t.last == s.last && t.drain == s.drain && t.stopped == s.stopped
  }

  /** A second pause changes nothing; an unknown definition, and one never activated that is
      not tripped, cannot be paused. */
  lemma PauseDecides(s: Store, name: string, reason: string, now: int)
    ensures var r := Pause(s, name, reason, now);
            if name !in s.defs then r.Err?
            else
              var d := s.defs[name];
              if d.tripped.Some? && d.tripped.value.manual.Some? then r == Ok(s)
              else if d.tripped.None? && d.active.None? then r.Err?
              else r.Ok? && exists trip, p :: IsPauseOf(d, trip, reason, now) && IsPaused(s, name, d, trip, p, r.s)
  {
    if name in s.defs && Pause(s, name, reason, now).Ok? && Pause(s, name, reason, now).s != s {
      var d, t := s.defs[name], Pause(s, name, reason, now).s;
      assert IsPauseOf(d, t.defs[name].tripped.value, reason, now);
      PausedRows(s, name, d, t.defs[name].tripped.value, t);
    }
  }

  lemma PausedRows(s: Store, name: string, d: Definition, trip: Trip, t: Store)
    requires t == Arm(s, d.triggers, map[]).(paused := s.paused[name := PausedOf(s, d)], defs := s.defs[name := d.(triggers := {}, tripped := Some(trip))])
    ensures IsPaused(s, name, d, trip, PausedOf(s, d), t)
  {
  }

  /** What is aside: the stored triggers and slots of what the definition owned, and its epoch. */
  ghost predicate IsAsideOf(s: Store, d: Definition, p: Paused) {
    && p.epoch == d.epoch
    && (forall k :: k in p.triggers <==> k in d.triggers && k in s.triggers)
    && (forall k :: k in p.triggers ==> p.triggers[k] == s.triggers[k])
    && (forall k :: k in p.queues <==> k in d.triggers && k in s.queue)
    && forall k :: k in p.queues ==> p.queues[k] == s.queue[k]
  }

  /** What a resume restores before it drains: what was aside, and the breaker's trip if
      there was one under the pause. */
  ghost predicate IsRestored(s: Store, name: string, m: Store)
    requires name in s.defs && s.defs[name].tripped.Some? && name in s.paused
  {
    var d, p := s.defs[name], s.paused[name];
    && m.queue == (map k | k in s.queue && k !in d.triggers :: s.queue[k]) + p.queues
    && m.triggers == (map k | k in s.triggers && k !in d.triggers :: s.triggers[k]) + p.triggers
    && m.queueName == (set r | r in s.queueName && !(r.1 in d.triggers && r.1 in s.queue && s.queue[r.1].admission.name == r.0))
                      + (set k | k in p.queues :: (name, k))
    && m.defs == s.defs[name := d.(triggers := p.triggers.Keys,
                                   tripped := if d.tripped.value.breaker then Some(d.tripped.value.(manual := None)) else None)]
    && m == s.(queue := m.queue, queueName := m.queueName, triggers := m.triggers, index := m.index, defs := m.defs, paused := s.paused - {name})
  }

  /** Only a pause of the current epoch is lifted; a definition that is not tripped stays. */
  lemma ResumeDecides(s: Store, name: string, now: int)
    ensures var r := Resume(s, name, now);
            if name !in s.defs then r.Err?
            else if s.defs[name].tripped.None? then r == Ok(s)
            else if s.defs[name].tripped.value.manual.None? || name !in s.paused || s.paused[name].epoch != s.defs[name].epoch
                    || exists k :: k in s.paused[name].queues && s.paused[name].queues[k].admission.name != name then r.Err?
            else exists m :: IsRestored(s, name, m) && r == Drain(m, name, now)
  {
    if name in s.defs && s.defs[name].tripped.Some? && name in s.paused {
      var m := Restored(s, name, s.defs[name], s.paused[name]);
      RestoredAs(s, name, m);
    }
  }

  lemma RestoredAs(s: Store, name: string, m: Store)
    requires name in s.defs && s.defs[name].tripped.Some? && name in s.paused && m == Restored(s, name, s.defs[name], s.paused[name])
    ensures IsRestored(s, name, m)
  {
    var d, p := s.defs[name], s.paused[name];
    assert s.queue - d.triggers == map k | k in s.queue && k !in d.triggers :: s.queue[k];
    assert (s.triggers - (d.triggers - p.triggers.Keys)) + p.triggers == (map k | k in s.triggers && k !in d.triggers :: s.triggers[k]) + p.triggers;
    assert s.queueName - (set k | k in d.triggers && k in s.queue :: (s.queue[k].admission.name, k)) ==
           set r | r in s.queueName && !(r.1 in d.triggers && r.1 in s.queue && s.queue[r.1].admission.name == r.0);
  }

  /** Stopping only stops; a clear drains up to a thousand marked definitions. */
  lemma StopDecides(s: Store, enabled: bool, now: int)
    ensures s.stopped == enabled ==> Stop(s, enabled, now) == Ok(s)
    ensures !s.stopped && enabled ==> Stop(s, enabled, now) == Ok(s.(stopped := true))
    ensures s.stopped && !enabled ==> Stop(s, enabled, now) == DrainPending(s.(stopped := false), 1_000, now)
  {
  }

  /** The end of a run by its owner: the breaker sees its outcome first. A run that has
      ended or is not there has no end. */
  lemma FinishDecides(w: World, s: Store, id: Id, seen: Seen, default_: Count, now: int)
    ensures Finish(w, s, id, seen, default_, now) ==
            if id in s.runs && s.runs[id].live
            then Terminate(w, Observe(s, s.runs[id].admission, s.runs[id].epoch, seen, default_, now), id, now) else Err
  {
  }

  // ── the breaker ───────────────────────────────────────────────────────────

  /** The run is one the definition counts: of the active version, admitted in the current
      epoch, while nothing has tripped. */
  predicate Counts(s: Store, run: Admission, epoch: Option<nat>) {
    run.name in s.defs && s.defs[run.name].active == Some(run.version) && s.defs[run.name].tripped.None?
    && epoch == Some(s.defs[run.name].epoch)
  }

  /** The faults in a row that trip it; none if the breaker is off. */
  function Limit(d: Definition, version: nat, default_: Count): Option<nat> {
    var policy := if version in d.versions then d.versions[version].breaker else Inherit;
    match policy
    case Off => None
    case Threshold(n) => Some(if n == 0 then 1 else n)
    case Inherit => Some(if default_ == 0 then 1 else default_)
  }

  /** The trip with its notice, and the definition disarmed. */
  ghost predicate Trips(s: Store, run: Admission, faults: nat, limit: nat, now: int, t: Store)
    requires run.name in s.defs
  {
    var d := s.defs[run.name];
    faults <= 4_294_967_295 && limit <= 4_294_967_295 &&
    var trip := Trip(None, true, run.version, if run.version in d.versions then d.versions[run.version].digest else "",
                     d.epoch, faults, limit, run.id, now);
    && Rearranged(s, t, d.triggers, map[])
    && t.defs == s.defs[run.name := d.(faults := faults, triggers := {}, tripped := Some(trip))]
    && t.notices == s.notices[Notice(now, run.name, d.epoch) := trip]
    && t == s.(queue := t.queue, queueName := t.queueName, triggers := t.triggers, index := t.index, defs := t.defs, notices := t.notices)
  }

  /** A fault adds one to the count, up to the largest 32-bit number, and trips if that
      reaches the limit; a success clears it; anything else, and any other run, is not
      counted. */
  lemma ObserveDecides(s: Store, run: Admission, epoch: Option<nat>, seen: Seen, default_: Count, now: int)
    ensures var t := Observe(s, run, epoch, seen, default_, now);
            if !Counts(s, run, epoch) || seen.Neither? then t == s
            else
              var d := s.defs[run.name];
              if seen.ASuccess? then t == s.(defs := s.defs[run.name := d.(faults := 0)])
              else
                var n := if d.faults == 4_294_967_295 then d.faults else d.faults + 1;
                var limit := Limit(d, run.version, default_);
                if limit.Some? && n >= limit.value then Trips(s, run, n, limit.value, now, t)
                else t == s.(defs := s.defs[run.name := d.(faults := n)])
  {
    if Counts(s, run, epoch) {
      var d := s.defs[run.name];
      if seen.ASuccess? && d.faults == 0 {
        assert s.defs[run.name := d.(faults := 0)] == s.defs;
      } else if seen.AFault? {
        var limit := Limit(d, run.version, default_);
        var c := Counted(d);
        if limit.Some? && c.faults >= limit.value {
          TrippedIs(s, run, c, limit.value, now, Tripped(s, run, c, limit.value, now));
        }
      }
    }
  }

  lemma TrippedIs(s: Store, run: Admission, c: Definition, limit: Count, now: int, t: Store)
    requires run.name in s.defs && c == s.defs[run.name].(faults := c.faults) && t == Tripped(s, run, c, limit, now)
    ensures Trips(s, run, c.faults, limit, now, t)
  {
  }
}

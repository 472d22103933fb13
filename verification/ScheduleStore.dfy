/**
 The scheduling rows as the store updates them, step by step. A method that fails
 leaves a transaction that is never committed.
 */
module ScheduleStore {
  import opened Options
  import opened Order
  import opened Schedule
  import TI = TriggerIndex
  import R = Runs

  class ScheduleRows {
    var runs: map<Id, Run>
    var queue: map<string, Slot>
    var queueName: set<Key>
    var triggers: map<string, Trigger>
    var index: set<IndexKey>
    var defs: map<string, Definition>
    var paused: map<string, Paused>
    var drain: set<string>
    var stopped: bool
    var notices: map<Notice, Trip>
    var last: map<string, Id>

    ghost function State(): Store
      reads this
    {
      Store(runs, queue, queueName, triggers, index, defs, paused, drain, stopped, notices, last)
    }

    constructor ()
      ensures State() == EMPTY
    {
      runs, queue, queueName, triggers, index, defs, paused := map[], map[], {}, map[], {}, map[], map[];
      drain, stopped, notices, last := {}, false, map[], map[];
    }

    // ── queues and triggers ─────────────────────────────────────────────────

    method DropSlot(k: string)
      modifies this`queue, this`queueName
      ensures State() == RemoveQueue(old(State()), k)
    {
      if k in queue {
        queueName := queueName - {(queue[k].admission.name, k)};
        queue := queue - {k};
      }
    }

    method DropSlots(owned: set<string>)
      modifies this`queue, this`queueName
      ensures queue == old(queue) - owned
      ensures queueName == old(queueName) - (set k | k in owned && k in old(queue) :: (old(queue)[k].admission.name, k))
    {
      var rest := owned;
      while rest != {}
        invariant rest <= owned && queue == old(queue) - (owned - rest)
        invariant forall r: Key :: r in queueName <==>
                    r in old(queueName) && !(r.1 in owned - rest && r.1 in old(queue) && old(queue)[r.1].admission.name == r.0)
      {
        var k :| k in rest;
        DropSlot(k);
        rest := rest - {k};
      }
      assert owned - rest == owned;
      var gone := set k | k in owned && k in old(queue) :: (old(queue)[k].admission.name, k);
      forall r: Key ensures r in queueName <==> r in old(queueName) - gone {
        assert r in gone <==> r.1 in owned && r.1 in old(queue) && old(queue)[r.1].admission.name == r.0;
      }
    }

    /** Puts and deletes the index rows that differ between the two triggers. */
    method MoveRows(k: string, before: Option<Trigger>, after: Option<Trigger>)
      modifies this`index
      ensures index == StoredIndex(old(index), k, before, after)
    {
      var gone, new_ := RowsOf(k, before) - RowsOf(k, after), RowsOf(k, after) - RowsOf(k, before);
      var rest := new_;
      while rest != {}
        invariant rest <= new_ && index == old(index) + (new_ - rest)
      {
        var r :| r in rest;
        index := index + {r};
        rest := rest - {r};
      }
      assert new_ - rest == new_;
      rest := gone;
      while rest != {}
        invariant rest <= gone && index == (old(index) + new_) - (gone - rest)
      {
        var r :| r in rest;
        index := index - {r};
        rest := rest - {r};
      }
      assert gone - rest == gone;
    }

    /** Stores a trigger, told which one was stored. */
    method StoreTrigger(k: string, before: Option<Trigger>, after: Option<Trigger>)
      modifies this`triggers, this`index
      ensures State() == PutTrigger(old(State()), k, before, after)
    {
      MoveRows(k, before, after);
      if after.Some? {
        triggers := triggers[k := after.value];
      } else if before.Some? {
        triggers := triggers - {k};
      }
    }

    /** Reads a trigger, then replaces it. */
    method StoreFresh(k: string, after: Option<Trigger>, ghost index0: set<IndexKey>, ghost triggers0: map<string, Trigger>)
      requires index == ArmedIndex(index0, triggers0, triggers) && Current(triggers, k) == Current(triggers0, k)
      modifies this`triggers, this`index
      ensures triggers == if after.Some? then old(triggers)[k := after.value] else old(triggers) - {k}
      ensures index == ArmedIndex(index0, triggers0, triggers)
    {
      var current := Current(triggers, k);
      ArmedMore(index0, triggers0, triggers, k, after);
      StoreTrigger(k, current, after);
    }

    /** Replaces triggers, each read before it is stored. */
    method DropTriggers(gone: set<string>)
      modifies this`triggers, this`index
      ensures triggers == old(triggers) - gone && index == ArmedIndex(old(index), old(triggers), triggers)
    {
      var rest := gone;
      StillArmed(index, triggers);
      while rest != {}
        invariant rest <= gone && triggers == old(triggers) - (gone - rest)
        invariant index == ArmedIndex(old(index), old(triggers), triggers)
      {
        var k :| k in rest;
        rest := rest - {k};
        StoreFresh(k, None, old(index), old(triggers));
      }
      assert gone - rest == gone;
    }

    method PutTriggers(wanted: map<string, Trigger>, ghost index0: set<IndexKey>, ghost triggers0: map<string, Trigger>)
      requires index == ArmedIndex(index0, triggers0, triggers)
      requires forall k :: k in wanted ==> Current(triggers, k) == Current(triggers0, k)
      modifies this`triggers, this`index
      ensures triggers == old(triggers) + wanted && index == ArmedIndex(index0, triggers0, triggers)
    {
      var rest := wanted.Keys;
      while rest != {}
        invariant rest <= wanted.Keys && index == ArmedIndex(index0, triggers0, triggers)
        invariant triggers.Keys == old(triggers).Keys + (wanted.Keys - rest)
        invariant forall k :: k in triggers ==> triggers[k] == if k in wanted && k !in rest then wanted[k] else old(triggers)[k]
      {
        var k :| k in rest;
        rest := rest - {k};
        assert Current(triggers, k) == Current(old(triggers), k);
        StoreFresh(k, Some(wanted[k]), index0, triggers0);
      }
    }

    /** Replaces the triggers a definition owns. */
    method Rearrange(owned: set<string>, wanted: map<string, Trigger>)
      modifies this`queue, this`queueName, this`triggers, this`index
      ensures State() == Arm(old(State()), owned, wanted)
    {
      ghost var was := State();
      DropSlots(owned);
      DropTriggers(owned - wanted.Keys);
      PutTriggers(wanted, was.index, was.triggers);
      assert triggers == ArmedTriggers(was.triggers, owned, wanted);
    }

    // ── admission and the breaker ───────────────────────────────────────────

    method Insert(a: Admission, kind: Kind, trigger: Option<string>, rearm: Option<(Rearm, Trigger)>) returns (ok: bool)
      modifies this`runs
      ensures Schedule.Insert(old(State()), a, kind, trigger, rearm) == if ok then Ok(State()) else Err
    {
      if a.id in runs {
        ok := R.Mismatch(runs[a.id].admission, a, kind.Child?).None? && (kind.Child? ==> kind.linked);
      } else if stopped || Barred(defs, a) {
        ok := false;
      } else {
        runs := runs[a.id := Run(a, DigestOf(defs, a), EpochOf(defs, a), trigger, rearm, true)];
        ok := true;
      }
    }

    method Admit(k: string, a: Admission, rearm: Option<Rearm>, next: Option<Trigger>) returns (ok: bool)
      modifies this`runs, this`last
      ensures AdmitFiring(old(State()), k, a, rearm, next) == if ok then Ok(State()) else Err
    {
      ok := Insert(a, Root, Some(k), if rearm.Some? && next.Some? then Some((rearm.value, next.value)) else None);
      if ok {
        last := last[k := a.id];
      }
    }

    /** The breaker's observation of a terminal outcome, in the terminal commit. */
    method Observe(run: Admission, epoch: Option<nat>, seen: Seen, default_: Count, now: int)
      modifies this`queue, this`queueName, this`triggers, this`index, this`defs, this`notices
      ensures State() == Schedule.Observe(old(State()), run, epoch, seen, default_, now)
    {
      if run.name !in defs {
        return;
      }
      var d := defs[run.name];
      if d.active != Some(run.version) || epoch != Some(d.epoch) || d.tripped.Some? || seen.Neither? {
        return;
      }
      if seen.ASuccess? {
        if d.faults > 0 {
          defs := defs[run.name := d.(faults := 0)];
        }
        return;
      }
      var c := Counted(d);
      var threshold := Effective(PolicyOf(d, run.version), default_);
      if threshold.Some? && c.faults >= threshold.value {
        var trip := TripOf(c, run, threshold.value, now);
        Rearrange(c.triggers, map[]);
        notices := notices[Notice(now, run.name, trip.epoch) := trip];
        c := c.(triggers := {}, tripped := Some(trip));
      }
      defs := defs[run.name := c];
    }

    method Refuse(a: Admission, f: Fault, now: int) returns (ok: bool)
      modifies this`runs, this`queue, this`queueName, this`triggers, this`index, this`defs, this`notices
      ensures Schedule.Refuse(old(State()), a, f, now) == if ok then Ok(State()) else Err
    {
      if a.id in runs {
        ok := R.Mismatch(runs[a.id].admission, a, false).None?;
      } else if stopped || Barred(defs, a) {
        ok := false;
      } else {
        var epoch := EpochOf(defs, a);
        runs := runs[a.id := Run(a, DigestOf(defs, a), epoch, None, None, false)];
        Observe(a, epoch, AFault, f.threshold, now);
        ok := true;
      }
    }

    // ── promotion ───────────────────────────────────────────────────────────

    /** Promotes one buffered slot if nothing holds it back. */
    method Promote(row: Key, now: int) returns (ok: bool)
      modifies this`runs, this`queue, this`queueName, this`triggers, this`index, this`defs, this`notices, this`last
      ensures DrainOne(old(State()), row, now) == if ok then Ok(State()) else Err
    {
      var k := row.1;
      if k !in queue {
        return row !in queueName;
      }
      var q := queue[k];
      if LiveOf(runs, k) != {} || !Capacity(runs, q.admission.name, q.ceiling) {
        return true;
      }
      if k !in triggers {
        return false;
      }
      var t := triggers[k];
      DropSlot(k);
      if q.failure.Some? {
        ok := Refuse(q.admission, q.failure.value, now);
      } else {
        ok := Admit(k, q.admission, q.rearm, Some(t));
      }
    }

    /** Drains a definition's slots in key order; while stopped it leaves a mark. */
    method DrainQueues(name: string, now: int) returns (ok: bool)
      modifies this`runs, this`queue, this`queueName, this`triggers, this`index, this`defs, this`notices, this`last, this`drain
      ensures Drain(old(State()), name, now) == if ok then Ok(State()) else Err
    {
      if stopped {
        if exists r | r in queueName :: r.0 == name {
          drain := drain + {name};
        }
        assert QueueRows(old(State()), name) == {} <==> !exists r | r in queueName :: r.0 == name by {
          assert forall r: Key :: r in QueueRows(old(State()), name) <==> r in queueName && r.0 == name;
        }
        return true;
      }
      var rows := Sorted(set r | r in queueName && r.0 == name);
      for i := 0 to |rows|
        invariant DrainKeys(State(), rows[i..], now) == DrainKeys(old(State()), rows, now)
        invariant !stopped && drain == old(drain)
      {
        assert rows[i..][0] == rows[i] && rows[i..][1..] == rows[i + 1..];
        ok := Promote(rows[i], now);
        if !ok {
          return;
        }
      }
      ok := true;
    }

    /** Drains the definitions of what ended, in name order. */
    method DrainEach(names: seq<Key>, now: int) returns (ok: bool)
      modifies this`runs, this`queue, this`queueName, this`triggers, this`index, this`defs, this`notices, this`last, this`drain
      ensures DrainNames(old(State()), names, now) == if ok then Ok(State()) else Err
    {
      for i := 0 to |names|
        invariant DrainNames(State(), names[i..], now) == DrainNames(old(State()), names, now)
      {
        assert names[i..][0] == names[i] && names[i..][1..] == names[i + 1..];
        ok := DrainQueues(names[i].0, now);
        if !ok {
          return;
        }
      }
      ok := true;
    }

    method DrainMarkedName(name: string, now: int) returns (ok: bool)
      modifies this`runs, this`queue, this`queueName, this`triggers, this`index, this`defs, this`notices, this`last, this`drain
      ensures DrainMarked(old(State()), name, now) == if ok then Ok(State()) else Err
    {
      if name !in drain || stopped {
        return true;
      }
      drain := drain - {name};
      ok := DrainQueues(name, now);
    }

    /** Drains at most `limit` marked definitions. */
    method DrainPage(limit: nat, now: int) returns (ok: bool)
      modifies this`runs, this`queue, this`queueName, this`triggers, this`index, this`defs, this`notices, this`last, this`drain
      ensures DrainPending(old(State()), limit, now) == if ok then Ok(State()) else Err
    {
      var all := Sorted(AsKeys(drain));
      var names := if |all| <= limit then all else all[..limit];
      for i := 0 to |names|
        invariant DrainMarks(State(), names[i..], now) == DrainMarks(old(State()), names, now)
      {
        assert names[i..][0] == names[i] && names[i..][1..] == names[i + 1..];
        drain := drain - {names[i].0};
        ok := DrainQueues(names[i].0, now);
        if !ok {
          return;
        }
      }
      ok := true;
    }

    // ── the end of runs ─────────────────────────────────────────────────────

    method End(w: World, id: Id) returns (names: set<string>)
      modifies this`runs
      ensures runs == EndRuns(w, old(runs), id) && names == EndedNames(w, old(runs), id)
    {
      names := {};
      var rest := runs.Keys;
      while rest != {}
        invariant rest <= runs.Keys == old(runs).Keys
        invariant forall x :: x in runs ==>
                    runs[x] == if x !in rest && EndsWith(w, old(runs), x, id) then old(runs)[x].(live := false) else old(runs)[x]
        invariant names == set x | x in old(runs) && x !in rest && EndsWith(w, old(runs), x, id) :: old(runs)[x].admission.name
      {
        var x :| x in rest;
        rest := rest - {x};
        if runs[x].live && (x == id || w.below(x, id)) {
          names := names + {runs[x].admission.name};
          runs := runs[x := runs[x].(live := false)];
        }
      }
    }

    method Rearm(r: Run, now: int)
      modifies this`triggers, this`index
      ensures State() == Rearmed(old(State()), r, now)
    {
      if r.rearm.Some? {
        var rearm, armed := r.rearm.value.0, r.rearm.value.1;
        if Current(triggers, rearm.trigger) == Some(armed) && armed.at.None? {
          StoreTrigger(rearm.trigger, Some(armed), Some(armed.(at := Some(R.Later(now, rearm.delay)))));
        }
      }
    }

    method EndRun(w: World, id: Id, now: int) returns (ok: bool)
      modifies this`runs, this`queue, this`queueName, this`triggers, this`index, this`defs, this`notices, this`last, this`drain
      ensures Terminate(w, old(State()), id, now) == if ok then Ok(State()) else Err
    {
      if id !in runs || !runs[id].live {
        return true;
      }
      var r := runs[id];
      var names := End(w, id);
      Rearm(r, now);
      ok := DrainEach(Sorted(AsKeys(names)), now);
    }

    // ── firing ──────────────────────────────────────────────────────────────

    method AdmitSlots(f: Firing) returns (ok: bool)
      modifies this`runs, this`last
      ensures AdmitAll(old(State()), f, f.admit) == if ok then Ok(State()) else Err
    {
      for i := 0 to |f.admit|
        invariant AdmitAll(State(), f, f.admit[i..]) == AdmitAll(old(State()), f, f.admit)
      {
        assert f.admit[i..][0] == f.admit[i] && f.admit[i..][1..] == f.admit[i + 1..];
        ok := Admit(f.key, f.admit[i], f.rearm, f.next);
        if !ok {
          return;
        }
      }
      ok := true;
    }

    method CommitSlot(f: Firing, now: int) returns (fired: Option<Fired>)
      modifies this`runs, this`queue, this`queueName, this`triggers, this`index, this`defs, this`notices, this`last
      ensures Commit(old(State()), f, now) == if fired.Some? then Fires(State(), fired.value) else Fails
    {
      StoreTrigger(f.key, f.expected, f.next);
      var ok := AdmitSlots(f);
      if ok && f.refused.Some? {
        ok := Refuse(f.refused.value.admission, f.refused.value.fault, now);
        if ok {
          last := last[f.key := f.refused.value.admission.id];
        }
      }
      fired := if ok then Some(Committed) else None;
    }

    method FireOrBuffer(f: Firing, g: Guard, a: Admission, busy: bool, now: int) returns (fired: Option<Fired>)
      modifies this`runs, this`queue, this`queueName, this`triggers, this`index, this`defs, this`notices, this`last
      ensures FireSlot(old(State()), f, g, a, busy, now) == if fired.Some? then Fires(State(), fired.value) else Fails
    {
      if !Capacity(runs, a.name, g.max) {
        StoreTrigger(f.key, f.expected, Some(g.full));
        return Some(Full);
      }
      if busy && (g.policy.Skip? || g.policy.Queue?) {
        if g.policy.Queue? && f.key !in queue {
          queue := queue[f.key := SlotOf(f, g, a)];
          queueName := queueName + {(a.name, f.key)};
          StoreTrigger(f.key, f.expected, f.next);
          return Some(Buffered);
        }
        StoreTrigger(f.key, f.expected, f.busy);
        return Some(Busy);
      }
      fired := CommitSlot(f, now);
    }

    /** Cancels the live runs of a replaced trigger. */
    method CancelAll(w: World, ids: seq<Key>, now: int) returns (ok: bool)
      modifies this`runs, this`queue, this`queueName, this`triggers, this`index, this`defs, this`notices, this`last, this`drain
      ensures TerminateAll(w, old(State()), ids, now) == if ok then Ok(State()) else Err
    {
      for i := 0 to |ids|
        invariant TerminateAll(w, State(), ids[i..], now) == TerminateAll(w, old(State()), ids, now)
      {
        assert ids[i..][0] == ids[i] && ids[i..][1..] == ids[i + 1..];
        ok := EndRun(w, ids[i].0, now);
        if !ok {
          return;
        }
      }
      ok := true;
    }

    method FireMatched(w: World, f: Firing, now: int) returns (fired: Option<Fired>)
      modifies this`runs, this`queue, this`queueName, this`triggers, this`index, this`defs, this`notices, this`last, this`drain
      ensures FireChecked(w, old(State()), f, now) == if fired.Some? then Fires(State(), fired.value) else Fails
    {
      if f.ingested {
        return Some(Ingested);
      }
      var a := Candidate(f);
      if f.overlap.Some? && a.Some? {
        var g := f.overlap.value;
        if |f.admit| > 1 || g.max == 0 || f.next.None? || f.busy.None? {
          return None;
        }
        if a.value.id in runs {
          fired := CommitSlot(f, now);
          return;
        }
        var live := LiveOf(runs, f.key);
        if g.policy.Replace? {
          var ok := CancelAll(w, Sorted(AsKeys(live)), now);
          if !ok {
            return None;
          }
        }
        fired := FireOrBuffer(f, g, a.value, live != {}, now);
      } else if f.busy.Some? && a.Some? && f.key in last && last[f.key] in runs && runs[last[f.key]].live {
        StoreTrigger(f.key, f.expected, f.busy);
        fired := Some(Busy);
      } else {
        fired := CommitSlot(f, now);
      }
    }

    method Fire(w: World, f: Firing, now: int) returns (fired: Option<Fired>)
      modifies this`runs, this`queue, this`queueName, this`triggers, this`index, this`defs, this`notices, this`last, this`drain
      ensures Schedule.Fire(w, old(State()), f, now) == if fired.Some? then Fires(State(), fired.value) else Fails
    {
      if stopped {
        return Some(Changed);
      }
      if f.refused.Some? && f.admit != [] {
        return None;
      }
      var a := Candidate(f);
      var drained := a.Some? && a.value.name in drain;
      if a.Some? {
        var ok := DrainMarkedName(a.value.name, now);
        if !ok {
          return None;
        }
      }
      if Current(triggers, f.key) != f.expected {
        return Some(Changed);
      }
      if drained && (Refused(a.value) || exists b | b in f.admit :: Refused(b)) {
        assert Turns(State(), a.value) || exists b | b in f.admit :: Turns(State(), b);
        return Some(Turned);
      }
      assert drained ==> !Turns(State(), a.value) && forall b | b in f.admit :: !Turns(State(), b) by {
        assert drained ==> forall b | b in f.admit :: !Refused(b);
      }
      fired := FireMatched(w, f, now);
    }

    predicate Refused(a: Admission)
      reads this
    {
      a.id !in runs && Barred(defs, a)
    }

    // ── the catalog ─────────────────────────────────────────────────────────

    method Activate(name: string, version: nat, epoch: Option<nat>, wanted: map<string, Trigger>) returns (ok: bool)
      modifies this`queue, this`queueName, this`triggers, this`index, this`defs, this`paused
      ensures Schedule.Activate(old(State()), name, version, epoch, wanted) == if ok then Ok(State()) else Err
    {
      var d := if name in defs then defs[name] else NO_DEFINITION;
      if version !in d.versions {
        return false;
      }
      if epoch.Some? && epoch.value != d.epoch {
        return true;
      }
      paused := paused - {name};
      Rearrange(d.triggers, wanted);
      defs := defs[name := d.(active := Some(version), epoch := d.epoch + 1, faults := 0, tripped := None, triggers := wanted.Keys)];
      ok := true;
    }

    /** Puts a definition's triggers and slots aside. */
    method Suspend(name: string, d: Definition)
      modifies this`queue, this`queueName, this`triggers, this`index, this`paused
      ensures State() == Arm(old(State()), d.triggers, map[]).(paused := old(paused)[name := PausedOf(old(State()), d)])
    {
      var kept := map k | k in d.triggers && k in triggers :: triggers[k];
      var slots := map k | k in d.triggers && k in queue :: queue[k];
      assert Paused(d.epoch, kept, slots) == PausedOf(old(State()), d);
      Rearrange(d.triggers, map[]);
      paused := paused[name := Paused(d.epoch, kept, slots)];
    }

    method Pause(name: string, reason: string, now: int) returns (ok: bool)
      modifies this`queue, this`queueName, this`triggers, this`index, this`defs, this`paused
      ensures Schedule.Pause(old(State()), name, reason, now) == if ok then Ok(State()) else Err
    {
      if name !in defs {
        return false;
      }
      var d := defs[name];
      if d.tripped.Some? && d.tripped.value.manual.Some? {
        return true;
      }
      if d.tripped.None? && d.active.None? {
        return false;
      }
      Suspend(name, d);
      var trip: Trip;
      if d.tripped.Some? {
        trip := d.tripped.value.(manual := Some(reason));
      } else {
        var digest := if d.active.value in d.versions then d.versions[d.active.value].digest else "";
        trip := Trip(Some(reason), false, d.active.value, digest, d.epoch, d.faults, 0, "", now);
      }
      defs := defs[name := d.(triggers := {}, tripped := Some(trip))];
      ok := true;
    }

    method Resume(name: string, now: int) returns (ok: bool)
      modifies this`runs, this`queue, this`queueName, this`triggers, this`index, this`defs, this`notices, this`last, this`drain, this`paused
      ensures Schedule.Resume(old(State()), name, now) == if ok then Ok(State()) else Err
    {
      if name !in defs {
        return false;
      }
      var d := defs[name];
      if d.tripped.None? {
        return true;
      }
      if d.tripped.value.manual.None? || name !in paused || paused[name].epoch != d.epoch {
        return false;
      }
      var p := paused[name];
      if exists k | k in p.queues :: p.queues[k].admission.name != name {
        return false;
      }
      Restore(name, d, p);
      ok := DrainQueues(name, now);
    }

    method Restore(name: string, d: Definition, p: Paused)
      requires d.tripped.Some?
      modifies this`queue, this`queueName, this`triggers, this`index, this`defs, this`paused
      ensures State() == Restored(old(State()), name, d, p)
    {
      var left := if d.tripped.value.breaker then Some(d.tripped.value.(manual := None)) else None;
      Rearrange(d.triggers, p.triggers);
      queue := queue + p.queues;
      queueName := queueName + set k | k in p.queues :: (name, k);
      paused := paused - {name};
      defs := defs[name := d.(triggers := p.triggers.Keys, tripped := left)];
    }

    method SetStopped(enabled: bool, now: int) returns (ok: bool)
      modifies this`runs, this`queue, this`queueName, this`triggers, this`index, this`defs, this`notices, this`last, this`drain, this`stopped
      ensures Stop(old(State()), enabled, now) == if ok then Ok(State()) else Err
    {
      if stopped == enabled {
        return true;
      }
      stopped := enabled;
      if enabled {
        return true;
      }
      ok := DrainPage(MAX_PAGE, now);
    }

    // ── starts and ends ─────────────────────────────────────────────────────

    /** A start by a host or of a child; the deferred slot goes first. */
    method Start(a: Admission, kind: Kind, now: int) returns (ok: bool)
      modifies this`runs, this`queue, this`queueName, this`triggers, this`index, this`defs, this`notices, this`last, this`drain
      ensures Schedule.Start(old(State()), a, kind, now) == if ok then Ok(State()) else Err
    {
      var drained := a.name in drain && !stopped;
      ok := DrainMarkedName(a.name, now);
      if ok && !(drained && Refused(a)) {
        ok := Insert(a, kind, None, None);
      }
    }

    method Finish(w: World, id: Id, seen: Seen, threshold: Count, now: int) returns (ok: bool)
      modifies this`runs, this`queue, this`queueName, this`triggers, this`index, this`defs, this`notices, this`last, this`drain
      ensures Schedule.Finish(w, old(State()), id, seen, threshold, now) == if ok then Ok(State()) else Err
    {
      if id !in runs || !runs[id].live {
        return false;
      }
      Observe(runs[id].admission, runs[id].epoch, seen, threshold, now);
      ok := EndRun(w, id, now);
    }
  }

  lemma StillArmed(index: set<IndexKey>, triggers: map<string, Trigger>)
    ensures ArmedIndex(index, triggers, triggers) == index
  {
  }

  /** One more fresh store moves the rows of its key. */
  lemma ArmedMore(index: set<IndexKey>, before: map<string, Trigger>, triggers: map<string, Trigger>, k: string, after: Option<Trigger>)
    requires Current(triggers, k) == Current(before, k)
    ensures StoredIndex(ArmedIndex(index, before, triggers), k, Current(before, k), after) ==
            ArmedIndex(index, before, StoredTriggers(triggers, k, Current(before, k), after))
  {
    var next := StoredTriggers(triggers, k, Current(before, k), after);
    var a, b := StoredIndex(ArmedIndex(index, before, triggers), k, Current(before, k), after), ArmedIndex(index, before, next);
    forall r: IndexKey ensures r in a <==> r in b {
      TI.AllRowsAt(before, r);
      TI.AllRowsAt(triggers, r);
      TI.AllRowsAt(next, r);
      assert r.key != k ==> Current(next, r.key) == Current(triggers, r.key);
    }
  }
}

/**
 Every run a step stores is accounted for: the promotion of a buffered slot or of one a
 pause kept aside, the run of the firing itself, or the run that is started.
 */
module ScheduleAdmissions {
  import opened Options
  import opened Order
  import opened Schedule
  import opened SchedulePromotion
  import opened ScheduleOrigins
  import opened ScheduleRuns

  /** The run is the firing's own: admitted under its key, or stored as refused. */
  ghost predicate OwnRun(f: Firing, runs: map<Id, Run>, x: Id) {
    x in runs && x == runs[x].admission.id &&
    ((runs[x].admission in f.admit && runs[x].trigger == Some(f.key)) ||
     (f.refused.Some? && runs[x].admission == f.refused.value.admission && runs[x].trigger.None?))
  }

  /** What a run was admitted as stays, and a slot that comes has no stored run. */
  ghost predicate Later(s: Store, t: Store) {
    && (forall x :: x in s.runs ==> x in t.runs && t.runs[x].admission == s.runs[x].admission && t.runs[x].trigger == s.runs[x].trigger)
    && forall k :: k in t.queue ==> (k in s.queue && t.queue[k] == s.queue[k]) || t.queue[k].admission.id !in s.runs
  }

  lemma CarriedOver(s: Store, m: Store, t: Store, x: Id)
    requires Promotes(s, m) && Onward(s, m) && Later(m, t) && x in m.runs && x !in s.runs
    ensures exists k :: FromSlot(s, t, k, x)
  {
    var k :| FromSlot(s, m, k, x);
    assert FromSlot(s, t, k, x);
  }

  // ── firings ───────────────────────────────────────────────────────────────

  /** A run new after the firing is its own or a promotion. */
  ghost predicate FiringNew(s: Store, t: Store, f: Firing) {
    forall x :: x in t.runs && x !in s.runs ==> OwnRun(f, t.runs, x) || exists k :: FromSlot(s, t, k, x)
  }

  lemma FiringAfter(s: Store, m: Store, t: Store, f: Firing)
    requires Promotes(s, m) && Onward(s, m) && FiringNew(m, t, f) && Later(m, t)
    ensures FiringNew(s, t, f) && Later(s, t)
  {
    forall x | x in t.runs && x !in s.runs ensures OwnRun(f, t.runs, x) || exists k :: FromSlot(s, t, k, x) {
      if x in m.runs {
        CarriedOver(s, m, t, x);
      } else if !OwnRun(f, t.runs, x) {
        var k :| FromSlot(m, t, k, x);
        assert FromSlot(s, t, k, x);
      }
    }
  }

  lemma {:induction false} AdmitAllNew(s: Store, f: Firing, admit: seq<Admission>, t: Store)
    requires AdmitAll(s, f, admit) == Ok(t)
    ensures RunsKept(s.runs, t.runs) && t.queue == s.queue
    ensures forall x :: x in t.runs && x !in s.runs ==>
              x == t.runs[x].admission.id && t.runs[x].admission in admit && t.runs[x].trigger == Some(f.key)
    decreases |admit|
  {
    if admit != [] {
      var m := AdmitFiring(s, f.key, admit[0], f.rearm, f.next).s;
      AdmittedRun(s, f.key, admit[0], f.rearm, f.next, m);
      AdmitAllNew(m, f, admit[1..], t);
    }
  }

  lemma RefuseNew(s: Store, a: Admission, fault: Fault, now: int, t: Store)
    requires Refuse(s, a, fault, now) == Ok(t)
    ensures RunsKept(s.runs, t.runs) && forall k :: k in t.queue ==> k in s.queue && t.queue[k] == s.queue[k]
  {
  }

  lemma CommitNew(s: Store, f: Firing, now: int, t: Store)
    requires Commit(s, f, now).Fires? && t == Commit(s, f, now).s
    ensures FiringNew(s, t, f) && Later(s, t)
  {
    var a := PutTrigger(s, f.key, f.expected, f.next);
    var b := AdmitAll(a, f, f.admit).s;
    AdmitAllNew(a, f, f.admit, b);
    if f.refused.Some? {
      var r := f.refused.value;
      var m := Refuse(b, r.admission, r.fault, now).s;
      RefuseNew(b, r.admission, r.fault, now, m);
      RefusedRun(b, r.admission, r.fault, now, m);
      OwnRuns(s, b, f, t);
    } else {
      OwnRuns(s, b, f, t);
    }
  }

  lemma OwnRuns(s: Store, b: Store, f: Firing, t: Store)
    requires RunsKept(s.runs, b.runs) && RunsKept(b.runs, t.runs)
    requires forall x :: x in b.runs && x !in s.runs ==>
               x == b.runs[x].admission.id && b.runs[x].admission in f.admit && b.runs[x].trigger == Some(f.key)
    requires forall x :: x in t.runs && x !in b.runs ==>
               f.refused.Some? && x == t.runs[x].admission.id && t.runs[x].admission == f.refused.value.admission && t.runs[x].trigger.None?
    requires forall k :: k in t.queue ==> k in s.queue && t.queue[k] == s.queue[k]
    ensures FiringNew(s, t, f) && Later(s, t)
  {
    forall x | x in t.runs && x !in s.runs ensures OwnRun(f, t.runs, x) {
    }
  }

  lemma FireSlotNew(s: Store, f: Firing, g: Guard, a: Admission, busy: bool, now: int, t: Store)
    requires a.id !in s.runs && FireSlot(s, f, g, a, busy, now).Fires? && t == FireSlot(s, f, g, a, busy, now).s
    ensures FiringNew(s, t, f) && Later(s, t)
  {
    if !Capacity(s.runs, a.name, g.max) {
      QueueOnly(s, t, f);
    } else if busy && (g.policy.Skip? || g.policy.Queue?) {
      SlotOnly(s, f, g, a, t);
    } else {
      CommitNew(s, f, now, t);
    }
  }

  lemma QueueOnly(s: Store, t: Store, f: Firing)
    requires t.runs == s.runs && forall k :: k in t.queue ==> (k in s.queue && t.queue[k] == s.queue[k]) || t.queue[k].admission.id !in s.runs
    ensures FiringNew(s, t, f) && Later(s, t)
  {
  }

  lemma SlotOnly(s: Store, f: Firing, g: Guard, a: Admission, t: Store)
    requires a.id !in s.runs
    requires t == (if g.policy.Queue? && f.key !in s.queue then PutTrigger(Buffer(s, f.key, SlotOf(f, g, a)), f.key, f.expected, f.next)
                   else PutTrigger(s, f.key, f.expected, f.busy))
    ensures FiringNew(s, t, f) && Later(s, t)
  {
    QueueOnly(s, t, f);
  }

  lemma FireCheckedNew(w: World, s: Store, f: Firing, now: int, t: Store)
    requires Kept(w, s) && FireChecked(w, s, f, now).Fires? && t == FireChecked(w, s, f, now).s
    ensures FiringNew(s, t, f) && Later(s, t)
  {
    var a := Candidate(f);
    if !f.ingested && f.overlap.Some? && a.Some? && a.value.id !in s.runs {
      OverlapNew(w, s, f, f.overlap.value, a.value, now, t);
    } else if FireChecked(w, s, f, now) == Commit(s, f, now) {
      CommitNew(s, f, now, t);
    }
  }

  lemma OverlapNew(w: World, s: Store, f: Firing, g: Guard, a: Admission, now: int, t: Store)
    requires Kept(w, s) && !f.ingested && f.overlap == Some(g) && Candidate(f) == Some(a) && a.id !in s.runs
    requires FireChecked(w, s, f, now).Fires? && t == FireChecked(w, s, f, now).s
    ensures FiringNew(s, t, f) && Later(s, t)
  {
    var live := LiveOf(s.runs, f.key);
    if g.policy.Replace? {
      var m := TerminateAll(w, s, Sorted(AsKeys(live)), now).s;
      TerminateAllFrom(w, s, Sorted(AsKeys(live)), now, m);
      ReplacedNew(m, f, g, a, live != {}, now, t);
      FiringAfter(s, m, t, f);
    } else {
      FireSlotNew(s, f, g, a, live != {}, now, t);
    }
  }

  /** After the cancellations the slot is admitted or the trigger moved on. */
  lemma ReplacedNew(s: Store, f: Firing, g: Guard, a: Admission, busy: bool, now: int, t: Store)
    requires g.policy.Replace? && FireSlot(s, f, g, a, busy, now).Fires? && t == FireSlot(s, f, g, a, busy, now).s
    ensures FiringNew(s, t, f) && Later(s, t)
  {
    if !Capacity(s.runs, a.name, g.max) {
      QueueOnly(s, t, f);
    } else {
      CommitNew(s, f, now, t);
    }
  }

  lemma FireNew(w: World, s: Store, f: Firing, now: int, t: Store)
    requires Kept(w, s) && Fire(w, s, f, now).Fires? && t == Fire(w, s, f, now).s
    ensures FiringNew(s, t, f)
  {
    if !s.stopped {
      var a := Candidate(f);
      var m := if a.Some? then DrainMarked(s, a.value.name, now).s else s;
      if a.Some? {
        MarkedWf(w, s, a.value.name, now, m);
        MarkedFrom(w, s, a.value.name, now, m);
      } else {
        PromotesNone(s, m);
      }
      if t != m {
        FireCheckedNew(w, m, f, now, t);
        FiringAfter(s, m, t, f);
      }
    }
  }

  // ── every step ────────────────────────────────────────────────────────────

  /** The promotion of a slot that the resumed definition's pause kept aside. */
  ghost predicate FromAside(s: Store, c: Command, t: Store, k: string, x: Id) {
    c.Resuming? && c.name in s.paused && k in s.paused[c.name].queues &&
    var q := s.paused[c.name].queues[k];
    IsPromotion(q, k, t.runs, x) && !(k in t.queue && t.queue[k] == q)
  }

  /** Where the new run `x` comes from. */
  ghost predicate Origin(s: Store, c: Command, t: Store, x: Id) {
    || (exists k :: FromSlot(s, t, k, x))
    || (exists k :: FromAside(s, c, t, k, x))
    || (c.Firing_? && OwnRun(c.f, t.runs, x))
    || (c.Starting? && x in t.runs && t.runs[x].admission == c.a && x == c.a.id && t.runs[x].trigger.None?)
  }

  ghost predicate AllOrigins(s: Store, c: Command, t: Store) {
    forall x :: x in t.runs && x !in s.runs ==> Origin(s, c, t, x)
  }

  lemma PromotedOrigins(s: Store, c: Command, t: Store)
    requires Promotes(s, t)
    ensures AllOrigins(s, c, t)
  {
  }

  lemma StartOrigins(w: World, s: Store, c: Command, t: Store)
    requires Kept(w, s) && c.Starting? && Effect(w, s, c) == Ok(t)
    ensures AllOrigins(s, c, t)
  {
    var m := DrainMarked(s, c.a.name, c.now).s;
    MarkedFrom(w, s, c.a.name, c.now, m);
    forall x | x in t.runs && x !in s.runs ensures Origin(s, c, t, x) {
      if x in m.runs {
        CarriedOver(s, m, t, x);
      }
    }
  }

  lemma FinishOrigins(w: World, s: Store, c: Command, t: Store)
    requires Kept(w, s) && c.Finishing? && Effect(w, s, c) == Ok(t)
    ensures AllOrigins(s, c, t)
  {
    var r := s.runs[c.id];
    var m := Observe(s, r.admission, r.epoch, c.seen, c.threshold, c.now);
    ObserveWf(w, s, r.admission, r.epoch, c.seen, c.threshold, c.now, m);
    PromotesNone(s, m);
    TerminateFrom(w, m, c.id, c.now, t);
    PromotesOn(s, m, t);
    PromotedOrigins(s, c, t);
  }

  lemma PendingOrigins(w: World, s: Store, c: Command, limit: nat, now: int, t: Store)
    requires Kept(w, s) && DrainPending(s, limit, now) == Ok(t)
    ensures AllOrigins(s, c, t)
  {
    var names := Sorted(AsKeys(s.drain));
    MarksFrom(w, s, if |names| <= limit then names else names[..limit], now, t);
    PromotedOrigins(s, c, t);
  }

  lemma StopOrigins(w: World, s: Store, c: Command, t: Store)
    requires Kept(w, s) && c.Stopping? && Effect(w, s, c) == Ok(t)
    ensures AllOrigins(s, c, t)
  {
    if s.stopped && !c.enabled {
      var m := s.(stopped := false);
      GrowNoLost(s, m);
      PendingOrigins(w, m, c, MAX_PAGE, c.now, t);
      forall x | x in t.runs && x !in s.runs ensures Origin(s, c, t, x) {
        assert Origin(m, c, t, x);
        if k :| FromSlot(m, t, k, x) {
          assert FromSlot(s, t, k, x);
        }
      }
    }
  }

  lemma ResumeOrigins(w: World, s: Store, c: Command, t: Store)
    requires Kept(w, s) && c.Resuming? && Resume(s, c.name, c.now) == Ok(t) && t != s
    ensures AllOrigins(s, c, t)
  {
    ResumeInv(w, s, c.name, c.now, t);
    var m := Restored(s, c.name, s.defs[c.name], s.paused[c.name]);
    RestoredWf(w, s, c.name, m);
    RestoredRows(w, s, c.name, m);
    DrainFrom(w, m, c.name, c.now, t);
    forall x | x in t.runs && x !in s.runs ensures Origin(s, c, t, x) {
      var k :| FromSlot(m, t, k, x);
      assert k in s.paused[c.name].queues ==> FromAside(s, c, t, k, x);
      assert k !in s.paused[c.name].queues ==> FromSlot(s, t, k, x);
    }
  }

  lemma StepOrigins(w: World, s: Store, c: Command, t: Store)
    requires Kept(w, s) && Callable(w, c) && t == Step(w, s, c)
    ensures AllOrigins(s, c, t)
  {
    if t != s {
      if c.Firing_? {
        FireNew(w, s, c.f, c.now, t);
      } else if c.Starting? {
        StartOrigins(w, s, c, t);
      } else if c.Finishing? {
        FinishOrigins(w, s, c, t);
      } else if c.Cancelling? {
        TerminateFrom(w, s, c.id, c.now, t);
        PromotedOrigins(s, c, t);
      } else if c.Paging? {
        if !s.stopped {
          PendingOrigins(w, s, c, c.limit, c.now, t);
        }
      } else if c.Stopping? {
        StopOrigins(w, s, c, t);
      } else if c.Resuming? {
        ResumeOrigins(w, s, c, t);
      }
    }
  }

  /** In every history each new run is a promotion that carries the admission and the key
      of its slot, the firing's own run, or the started one. */
  lemma NewRunsAccounted(w: World, commands: seq<Command>, i: nat, x: Id)
    requires Offered(w, commands) && i < |commands|
    requires x in After(w, commands[..i + 1]).runs && x !in After(w, commands[..i]).runs
    ensures Origin(After(w, commands[..i]), commands[i], After(w, commands[..i + 1]), x)
  {
    var before := commands[..i];
    assert forall j :: 0 <= j < |before| ==> before[j] == commands[j];
    AlwaysKept(w, before);
    assert commands[..i + 1][..i] == before;
    StepOrigins(w, After(w, before), commands[i], After(w, commands[..i + 1]));
  }

  /** Nothing else the step may admit has the run id of the slot of `k`: no other slot, and
      not the firing or the start itself. */
  ghost predicate SoleId(s: Store, c: Command, k: string)
    requires k in s.queue
  {
    var id := s.queue[k].admission.id;
    && (forall j :: j in s.queue && j != k ==> s.queue[j].admission.id != id)
    && (c.Resuming? && c.name in s.paused ==> forall j :: j in s.paused[c.name].queues ==> s.paused[c.name].queues[j].admission.id != id)
    && (c.Starting? ==> c.a.id != id)
    && (c.Firing_? ==> (forall a | a in c.f.admit :: a.id != id) && (c.f.refused.Some? ==> c.f.refused.value.admission.id != id))
  }

  /** A slot whose id nothing else has: if a step stores a run of that id, it is the
      promotion of the slot. */
  lemma PromotedCarries(w: World, commands: seq<Command>, i: nat, k: string)
    requires Offered(w, commands) && i < |commands| && k in After(w, commands[..i]).queue
    requires SoleId(After(w, commands[..i]), commands[i], k)
    ensures var s, t := After(w, commands[..i]), After(w, commands[..i + 1]);
            var q := s.queue[k];
            q.admission.id in t.runs && q.admission.id !in s.runs ==>
              IsPromotion(q, k, t.runs, q.admission.id) && !(k in t.queue && t.queue[k] == q)
  {
    var s, c, t := After(w, commands[..i]), commands[i], After(w, commands[..i + 1]);
    var x := s.queue[k].admission.id;
    if x in t.runs && x !in s.runs {
      NewRunsAccounted(w, commands, i, x);
      SoleOrigin(s, c, t, k, x);
    }
  }

  lemma SoleOrigin(s: Store, c: Command, t: Store, k: string, x: Id)
    requires k in s.queue && x == s.queue[k].admission.id && SoleId(s, c, k) && Origin(s, c, t, x)
    ensures FromSlot(s, t, k, x)
  {
    assert !(exists j :: FromAside(s, c, t, j, x));
    var j :| FromSlot(s, t, j, x);
    assert j == k;
  }
}

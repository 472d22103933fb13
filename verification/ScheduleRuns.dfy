/**
 Whole scheduling steps: no step loses a buffered slot or lets a later one of the same
 trigger overtake it.
 */
module ScheduleRuns {
  import opened Options
  import opened Order
  import opened Schedule
  import opened SchedulePromotion
  import opened ScheduleOrigins

  /** What every step keeps. */
  ghost predicate Kept(w: World, s: Store) {
    Wf(w, s) && NoLost(s)
  }

  /** And where only stored triggers fire. */
  ghost predicate Inv(w: World, s: Store) {
    w.armed && Kept(w, s)
  }

  lemma GrowNoLost(s: Store, t: Store)
    requires NoLost(s) && RunsKept(s.runs, t.runs) && t.drain == s.drain
    requires forall k :: k in t.queue ==> k in s.queue && t.queue[k] == s.queue[k]
    ensures NoLost(t)
  {
    forall n ensures SettledName(t, n) {
      assert SettledName(s, n);
      forall k | k in t.queue && t.queue[k].admission.name == n ensures Waits(t.runs, k, t.queue[k]) || n in t.drain {
        if Waits(s.runs, k, s.queue[k]) {
          WaitsOn(s.runs, t.runs, k, s.queue[k]);
        }
      }
    }
  }

  // ── firing ────────────────────────────────────────────────────────────────

  /** What a firing may assume once its trigger is the expected one. */
  ghost predicate Ready(w: World, s: Store, f: Firing) {
    Callable(w, Firing_(f, 0)) && (w.armed && !w.policy(f.key).Replace? ==> f.key in s.triggers)
  }

  lemma PutTriggerInv(w: World, s: Store, k: string, before: Option<Trigger>, next: Option<Trigger>, t: Store)
    requires Kept(w, s) && t == PutTrigger(s, k, before, next)
    requires (w.policy(k).Queue? ==> next.Some?) && (w.armed && !w.policy(k).Replace? ==> k in s.triggers)
    ensures Kept(w, t) && Moves(s, t) && Drains(s, t)
  {
    forall j | j in s.queue ensures SlotOk(w, j, s.queue[j], s.defs) {
    }
    GrowNoLost(s, t);
  }

  lemma {:induction false} AdmitAllInv(w: World, s: Store, f: Firing, admit: seq<Admission>, t: Store)
    requires Kept(w, s) && AdmitAll(s, f, admit) == Ok(t)
    requires forall a :: a in admit ==> a.name == w.owner(f.key)
    requires f.key in s.queue ==> forall a :: a in admit ==> a.id in s.runs
    ensures Kept(w, t) && Drains(s, t)
    decreases |admit|
  {
    if admit != [] {
      assert admit[0] in admit;
      var m := AdmitFiring(s, f.key, admit[0], f.rearm, f.next).s;
      AdmitWf(w, s, f.key, admit[0], f.rearm, f.next, m);
      GrowNoLost(s, m);
      AdmitAllInv(w, m, f, admit[1..], t);
      DrainsOn(s, m, t);
    }
  }

  lemma RefuseInv(w: World, s: Store, k: string, r: Refusal, now: int, t: Store)
    requires Kept(w, s) && RefuseFiring(s, k, r, now) == Ok(t)
    ensures Kept(w, t) && Drains(s, t)
  {
    var m := Refuse(s, r.admission, r.fault, now).s;
    RefuseWf(w, s, r.admission, r.fault, now, m);
    assert t == m.(last := t.last);
    GrowNoLost(s, t);
  }

  lemma CommitInv(w: World, s: Store, f: Firing, now: int, t: Store)
    requires Kept(w, s) && Ready(w, s, f) && Commit(s, f, now).Fires? && t == Commit(s, f, now).s
    requires f.key in s.queue ==> forall a :: a in f.admit ==> a.id in s.runs
    ensures Kept(w, t) && Drains(s, t)
  {
    var a := PutTrigger(s, f.key, f.expected, f.next);
    PutTriggerInv(w, s, f.key, f.expected, f.next, a);
    var b := AdmitAll(a, f, f.admit).s;
    AdmitAllInv(w, a, f, f.admit, b);
    DrainsOn(s, a, b);
    if f.refused.Some? {
      RefuseInv(w, b, f.key, f.refused.value, now, t);
      DrainsOn(s, b, t);
    }
  }

  lemma BufferInv(w: World, s: Store, k: string, q: Slot, t: Store)
    requires Kept(w, s) && (w.armed ==> k in s.triggers) && k !in s.queue && LiveOf(s.runs, k) != {}
    requires q.admission.name == w.owner(k) && q.ceiling == w.ceiling(k) && w.policy(k).Queue?
    requires t == Buffer(s, k, q)
    ensures Kept(w, t)
  {
    forall n ensures SettledName(t, n) {
      assert SettledName(s, n);
    }
  }

  /** A slot buffered before this one has a reason to wait that also holds this one back. */
  lemma NotAdmitted(w: World, s: Store, f: Firing, g: Guard, a: Admission)
    requires Kept(w, s) && f.key in s.queue && w.owner(f.key) !in s.drain
    requires g.max == w.ceiling(f.key) && a.name == w.owner(f.key)
    ensures !Capacity(s.runs, a.name, g.max) || LiveOf(s.runs, f.key) != {}
  {
    assert SlotOk(w, f.key, s.queue[f.key], s.defs);
    assert SettledName(s, w.owner(f.key));
  }

  /** A slot is buffered where none was, for a run not stored. */
  ghost predicate Buffers(s: Store, t: Store, k: string) {
    && k !in s.queue && k in t.queue && t.queue == s.queue[k := t.queue[k]]
    && t.queue[k].admission.id !in s.runs
    && t.runs == s.runs && t.defs == s.defs && t.paused == s.paused && t.stopped == s.stopped && t.notices == s.notices
  }

  /** What a firing does to the slots: they stay or are promoted, and its own may then
      be buffered. */
  ghost predicate Turnover(s: Store, t: Store, k: string) {
    Moves(s, t) || exists m :: BuffersAfter(s, m, t, k)
  }

  /** The deferred drain first, then the slot. */
  ghost predicate BuffersAfter(s: Store, m: Store, t: Store, k: string) {
    Moves(s, m) && Promotes(s, m) && Onward(s, m) && Buffers(m, t, k)
  }

  lemma BufferSlot(w: World, s: Store, f: Firing, g: Guard, a: Admission, t: Store)
    requires Kept(w, s) && Ready(w, s, f) && f.overlap == Some(g) && g.policy.Queue? && Candidate(f) == Some(a)
    requires a.id !in s.runs && f.key !in s.queue && LiveOf(s.runs, f.key) != {}
    requires t == PutTrigger(Buffer(s, f.key, SlotOf(f, g, a)), f.key, f.expected, f.next)
    ensures Kept(w, t) && Buffers(s, t, f.key)
  {
    var q := SlotOf(f, g, a);
    var m := Buffer(s, f.key, q);
    BufferInv(w, s, f.key, q, m);
    PutTriggerInv(w, m, f.key, f.expected, f.next, t);
  }

  lemma FireSlotInv(w: World, s: Store, f: Firing, g: Guard, a: Admission, busy: bool, now: int, t: Store)
    requires Kept(w, s) && Ready(w, s, f) && f.overlap == Some(g) && Candidate(f) == Some(a) && |f.admit| <= 1
    requires a.id !in s.runs && f.next.Some? && f.busy.Some?
    requires w.policy(f.key).Queue? ==> w.owner(f.key) !in s.drain && busy == (LiveOf(s.runs, f.key) != {})
    requires FireSlot(s, f, g, a, busy, now).Fires? && t == FireSlot(s, f, g, a, busy, now).s
    ensures Kept(w, t) && Turnover(s, t, f.key)
  {
    if !Capacity(s.runs, a.name, g.max) {
      PutTriggerInv(w, s, f.key, f.expected, Some(g.full), t);
    } else if busy && (g.policy.Skip? || g.policy.Queue?) {
      if g.policy.Queue? && f.key !in s.queue {
        BufferSlot(w, s, f, g, a, t);
        assert BuffersAfter(s, s, t, f.key);
      } else {
        PutTriggerInv(w, s, f.key, f.expected, f.busy, t);
      }
    } else {
      assert f.key !in s.queue by {
        if f.key in s.queue {
          assert SlotOk(w, f.key, s.queue[f.key], s.defs);
          NotAdmitted(w, s, f, g, a);
        }
      }
      CommitInv(w, s, f, now, t);
      PassesMoves(s, t);
    }
  }

  lemma BusyInv(w: World, s: Store, f: Firing, now: int, t: Store)
    requires Kept(w, s) && Ready(w, s, f) && !(f.overlap.Some? && Candidate(f).Some?)
    requires t == PutTrigger(s, f.key, f.expected, f.busy) && f.busy.Some?
    ensures Kept(w, t) && Moves(s, t)
  {
    PutTriggerInv(w, s, f.key, f.expected, f.busy, t);
  }

  /** A firing without an overlap guard admits nothing for a queueing trigger. */
  lemma PlainInv(w: World, s: Store, f: Firing, now: int, t: Store)
    requires Kept(w, s) && Ready(w, s, f) && !(f.overlap.Some? && Candidate(f).Some?)
    requires Commit(s, f, now).Fires? && t == Commit(s, f, now).s
    ensures Kept(w, t) && Moves(s, t)
  {
    assert f.key in s.queue ==> SlotOk(w, f.key, s.queue[f.key], s.defs);
    CommitInv(w, s, f, now, t);
    PassesMoves(s, t);
  }

  lemma JoinInv(w: World, s: Store, f: Firing, a: Admission, now: int, t: Store)
    requires Kept(w, s) && Ready(w, s, f) && Candidate(f) == Some(a) && |f.admit| <= 1 && a.id in s.runs
    requires Commit(s, f, now).Fires? && t == Commit(s, f, now).s
    ensures Kept(w, t) && Moves(s, t)
  {
    CommitInv(w, s, f, now, t);
    PassesMoves(s, t);
  }

  lemma OverlapInv(w: World, s: Store, f: Firing, g: Guard, a: Admission, now: int, t: Store)
    requires Kept(w, s) && Ready(w, s, f) && f.overlap == Some(g) && Candidate(f) == Some(a) && w.owner(f.key) !in s.drain && !f.ingested
    requires FireChecked(w, s, f, now).Fires? && t == FireChecked(w, s, f, now).s
    ensures Kept(w, t) && Turnover(s, t, f.key)
  {
    if a.id in s.runs {
      JoinInv(w, s, f, a, now, t);
    } else {
      var live := LiveOf(s.runs, f.key);
      if g.policy.Replace? {
        var m := TerminateAll(w, s, Sorted(AsKeys(live)), now).s;
        TerminateAllWf(w, s, Sorted(AsKeys(live)), now, m);
        ReplaceInv(w, s, m, f, g, a, live != {}, now, t);
      } else {
        FireSlotInv(w, s, f, g, a, live != {}, now, t);
      }
    }
  }

  lemma ReplaceInv(w: World, s: Store, m: Store, f: Firing, g: Guard, a: Admission, busy: bool, now: int, t: Store)
    requires Kept(w, m) && Moves(s, m) && Ready(w, s, f) && f.overlap == Some(g) && g.policy.Replace? && Candidate(f) == Some(a)
    requires |f.admit| <= 1 && f.next.Some? && f.busy.Some?
    requires FireSlot(m, f, g, a, busy, now).Fires? && t == FireSlot(m, f, g, a, busy, now).s
    ensures Kept(w, t) && Turnover(s, t, f.key)
  {
    if !Capacity(m.runs, a.name, g.max) {
      PutTriggerInv(w, m, f.key, f.expected, Some(g.full), t);
    } else {
      assert f.key in m.queue ==> SlotOk(w, f.key, m.queue[f.key], m.defs);
      CommitInv(w, m, f, now, t);
      PassesMoves(m, t);
    }
    MovesOn(s, m, t);
  }

  lemma FireCheckedInv(w: World, s: Store, f: Firing, now: int, t: Store)
    requires Kept(w, s) && Ready(w, s, f) && (Candidate(f).Some? ==> w.owner(f.key) !in s.drain)
    requires FireChecked(w, s, f, now).Fires? && t == FireChecked(w, s, f, now).s
    ensures Kept(w, t) && Turnover(s, t, f.key)
  {
    if f.ingested {
      assert Moves(s, s);
    } else if f.overlap.Some? && Candidate(f).Some? {
      OverlapInv(w, s, f, f.overlap.value, Candidate(f).value, now, t);
    } else if FireChecked(w, s, f, now) == Commit(s, f, now) {
      PlainInv(w, s, f, now, t);
    } else {
      BusyInv(w, s, f, now, t);
    }
  }

  lemma TurnoverOn(s: Store, m: Store, t: Store, k: string)
    requires Moves(s, m) && Promotes(s, m) && Onward(s, m) && Turnover(m, t, k)
    ensures Turnover(s, t, k)
  {
    if Moves(m, t) {
      MovesOn(s, m, t);
    } else {
      var b :| BuffersAfter(m, b, t, k);
      MovesOn(s, m, b);
      PromotesOn(s, m, b);
      assert BuffersAfter(s, b, t, k);
    }
  }

  lemma CandidateOwned(w: World, f: Firing)
    requires Callable(w, Firing_(f, 0)) && Candidate(f).Some?
    ensures Candidate(f).value.name == w.owner(f.key)
  {
  }

  lemma FireInv(w: World, s: Store, f: Firing, now: int, t: Store)
    requires Kept(w, s) && Callable(w, Firing_(f, 0)) && Fire(w, s, f, now).Fires? && t == Fire(w, s, f, now).s
    ensures Kept(w, t) && Turnover(s, t, f.key)
  {
    if s.stopped {
      assert Moves(s, s);
    } else {
      var a := Candidate(f);
      var m := if a.Some? then DrainMarked(s, a.value.name, now).s else s;
      if a.Some? {
        CandidateOwned(w, f);
        MarkedWf(w, s, a.value.name, now, m);
        MarkedFrom(w, s, a.value.name, now, m);
        PassesMoves(s, m);
      } else {
        assert Moves(s, m);
        PromotesNone(s, m);
      }
      if t != m {
        FireCheckedInv(w, m, f, now, t);
        TurnoverOn(s, m, t, f.key);
      }
    }
  }

  // ── the other steps ───────────────────────────────────────────────────────

  lemma StartInv(w: World, s: Store, a: Admission, kind: Kind, now: int, t: Store)
    requires Kept(w, s) && Start(s, a, kind, now) == Ok(t)
    ensures Kept(w, t) && Moves(s, t)
  {
    var m := DrainMarked(s, a.name, now).s;
    MarkedWf(w, s, a.name, now, m);
    PassesMoves(s, m);
    if t != m {
      InsertInv(w, m, a, t);
      MovesOn(s, m, t);
    }
  }

  lemma InsertInv(w: World, s: Store, a: Admission, t: Store)
    requires Kept(w, s) && MayInsert(s, a) && t == Inserted(s, a, None, None, true)
    ensures Kept(w, t) && Moves(s, t)
  {
    InsertedWf(w, s, a, None, None, true, t);
    GrowNoLost(s, t);
    TripsStandStill(s, t);
  }

  lemma ObserveInv(w: World, s: Store, run: Admission, epoch: Option<nat>, seen: Seen, default_: Count, now: int, t: Store)
    requires Kept(w, s) && t == Observe(s, run, epoch, seen, default_, now)
    ensures Kept(w, t) && Moves(s, t)
  {
    ObserveWf(w, s, run, epoch, seen, default_, now, t);
    GrowNoLost(s, t);
  }

  lemma FinishInv(w: World, s: Store, id: Id, seen: Seen, threshold: Count, now: int, t: Store)
    requires Kept(w, s) && Finish(w, s, id, seen, threshold, now) == Ok(t)
    ensures Kept(w, t) && Moves(s, t)
  {
    var m := Observe(s, s.runs[id].admission, s.runs[id].epoch, seen, threshold, now);
    ObserveInv(w, s, s.runs[id].admission, s.runs[id].epoch, seen, threshold, now, m);
    TerminateWf(w, m, id, now, t);
    MovesOn(s, m, t);
  }

  lemma ActivateInv(w: World, s: Store, name: string, version: nat, epoch: Option<nat>, wanted: map<string, Trigger>, t: Store)
    requires Kept(w, s) && Activate(s, name, version, epoch, wanted) == Ok(t) && forall k :: k in wanted ==> w.owner(k) == name
    ensures Kept(w, t) && t.runs == s.runs && t.stopped == s.stopped
    ensures forall k :: k in s.queue && w.owner(k) != name ==> k in t.queue && t.queue[k] == s.queue[k]
    ensures forall k :: k in t.queue ==> k in s.queue && t.queue[k] == s.queue[k]
  {
    if t != s {
      var d := t.defs[name];
      forall n | n in t.paused ensures PauseOk(w, n, t.paused[n], t.defs) {
        assert PauseOk(w, n, s.paused[n], s.defs);
      }
      ArmWf(w, s, name, d, wanted, Arm(s, DefinitionOf(s, name).triggers, wanted), t);
      GrowNoLost(s, t);
    }
  }

  /** Definitions own what they owned, and their trips stand. */
  ghost predicate SameArming(a: map<string, Definition>, b: map<string, Definition>) {
    && (forall n :: n in a ==> n in b && b[n].triggers == a[n].triggers && b[n].tripped == a[n].tripped)
    && forall n :: n in b && n !in a ==> b[n].triggers == {}
  }

  lemma SameArmingSlots(w: World, queue: map<string, Slot>, a: map<string, Definition>, b: map<string, Definition>)
    requires SameArming(a, b) && SlotsOk(w, queue, a)
    ensures SlotsOk(w, queue, b)
  {
    forall k | k in queue ensures SlotOk(w, k, queue[k], b) {
      assert SlotOk(w, k, queue[k], a);
    }
  }

  lemma SameArmingDefs(w: World, s: Store, b: map<string, Definition>)
    requires SameArming(s.defs, b) && DefsOk(w, s.defs)
    ensures DefsOk(w, b)
  {
    forall n | n in b ensures DefOk(w, n, b[n]) {
      assert n in s.defs ==> DefOk(w, n, s.defs[n]);
    }
  }

  lemma SameArmingArmed(w: World, s: Store, b: map<string, Definition>)
    requires SameArming(s.defs, b) && ArmedOk(w, s.triggers, s.defs)
    ensures ArmedOk(w, s.triggers, b)
  {
  }

  lemma SameArmingPauses(w: World, paused: map<string, Paused>, a: map<string, Definition>, b: map<string, Definition>)
    requires SameArming(a, b) && PausesOk(w, paused, a)
    ensures PausesOk(w, paused, b)
  {
    forall n | n in paused ensures PauseOk(w, n, paused[n], b) {
      assert PauseOk(w, n, paused[n], a);
    }
  }

  lemma SaveArming(s: Store, name: string, version: nat, v: Version, t: Store)
    requires t == SaveDefinition(s, name, version, v)
    ensures SameArming(s.defs, t.defs) && t == s.(defs := t.defs)
  {
    if t != s {
      SaveOne(s.defs, name, t.defs[name], t.defs);
    }
  }

  lemma SaveOne(a: map<string, Definition>, name: string, d: Definition, b: map<string, Definition>)
    requires b == a[name := d]
    requires if name in a then d.triggers == a[name].triggers && d.tripped == a[name].tripped else d.triggers == {}
    ensures SameArming(a, b)
  {
  }

  lemma SaveInv(w: World, s: Store, name: string, version: nat, v: Version, t: Store)
    requires Kept(w, s) && t == SaveDefinition(s, name, version, v)
    ensures Kept(w, t) && t.queue == s.queue && t.runs == s.runs
  {
    SaveArming(s, name, version, v, t);
    SameArmingSlots(w, s.queue, s.defs, t.defs);
    SameArmingDefs(w, s, t.defs);
    if w.armed {
      SameArmingArmed(w, s, t.defs);
    }
    SameArmingPauses(w, s.paused, s.defs, t.defs);
    GrowNoLost(s, t);
  }

  lemma PausedAside(w: World, s: Store, name: string, p: Paused)
    requires Wf(w, s) && name in s.defs && p == PausedOf(s, s.defs[name])
    ensures AsideOk(w, name, p)
    ensures s.defs[name].tripped.Some? ==> p.triggers == map[] && p.queues == map[]
    ensures forall k :: k in s.queue && k in s.defs[name].triggers ==> k in p.queues && p.queues[k] == s.queue[k]
  {
    assert DefOk(w, name, s.defs[name]);
    forall k | k in s.queue ensures SlotOk(w, k, s.queue[k], s.defs) {
    }
  }

  lemma PauseInv(w: World, s: Store, name: string, reason: string, now: int, t: Store)
    requires Kept(w, s) && Pause(s, name, reason, now) == Ok(t) && t != s
    ensures Kept(w, t) && t.runs == s.runs && t.stopped == s.stopped && name in s.defs && name in t.paused
    ensures t.paused[name] == PausedOf(s, s.defs[name])
    ensures t.queue == s.queue - s.defs[name].triggers
    ensures w.armed ==> forall k :: k in t.queue ==> w.owner(k) != name
  {
    var d := t.defs[name];
    PausedAside(w, s, name, t.paused[name]);
    forall n | n in t.paused ensures PauseOk(w, n, t.paused[n], t.defs) {
      assert n != name ==> PauseOk(w, n, s.paused[n], s.defs);
    }
    ArmWf(w, s, name, d, map[], Arm(s, s.defs[name].triggers, map[]), t);
    GrowNoLost(s, t);
  }

  ghost predicate Resumes(w: World, s: Store, name: string, t: Store) {
    && Wf(w, s) && name in s.defs && s.defs[name].tripped.Some? && name in s.paused
    && t == Restored(s, name, s.defs[name], s.paused[name])
  }

  /** A paused definition has no slot: all of them are aside. */
  lemma PausedHasNone(w: World, s: Store, name: string)
    requires Wf(w, s) && name in s.defs && s.defs[name].tripped.Some?
    ensures s.defs[name].triggers == {} && (w.armed ==> forall k :: k in s.queue ==> w.owner(k) != name)
  {
    assert DefOk(w, name, s.defs[name]);
    if w.armed {
      forall k | k in s.queue ensures w.owner(k) != name {
        assert SlotOk(w, k, s.queue[k], s.defs);
      }
    }
  }

  lemma RestoredRows(w: World, s: Store, name: string, t: Store)
    requires Resumes(w, s, name, t)
    ensures t.queue == s.queue + s.paused[name].queues && t.triggers == s.triggers + s.paused[name].triggers
    ensures t.queueName == s.queueName + (set k | k in s.paused[name].queues :: (name, k))
    ensures t.defs[name].triggers == s.paused[name].triggers.Keys && t.defs == s.defs[name := t.defs[name]]
    ensures t.runs == s.runs && t.drain == s.drain && t.stopped == s.stopped && t.paused == s.paused - {name}
    ensures t.defs[name].tripped.Some? ==> s.paused[name].triggers == map[]
  {
    PausedHasNone(w, s, name);
    assert PauseOk(w, name, s.paused[name], s.defs);
    ArmNothing(s, s.paused[name].triggers);
  }

  lemma ArmNothing(s: Store, wanted: map<string, Trigger>)
    ensures var armed := Arm(s, {}, wanted);
            armed == s.(triggers := s.triggers + wanted, index := armed.index)
  {
    assert s.queue - {} == s.queue;
    assert s.triggers - ({} - wanted.Keys) == s.triggers;
  }

  lemma UnionIndex(queue: map<string, Slot>, rows: set<Key>, more: map<string, Slot>, name: string)
    requires QueueIndexOk(queue, rows) && forall k :: k in queue && k in more ==> queue[k].admission.name == name
    requires forall k :: k in more ==> more[k].admission.name == name
    ensures QueueIndexOk(queue + more, rows + set k | k in more :: (name, k))
  {
    var all := rows + set k | k in more :: (name, k);
    forall r: Key ensures r in all <==> r.1 in queue + more && (queue + more)[r.1].admission.name == r.0 {
      assert r in all <==> r in rows || (r.0 == name && r.1 in more);
    }
  }

  lemma RestoredIndex(w: World, s: Store, name: string, t: Store)
    requires Resumes(w, s, name, t)
    ensures QueueIndexOk(t.queue, t.queueName) && (w.armed ==> HaveTriggers(t.queue, t.triggers))
  {
    RestoredRows(w, s, name, t);
    var p := s.paused[name];
    assert PauseOk(w, name, p, s.defs);
    forall k | k in s.queue && k in p.queues ensures s.queue[k].admission.name == name {
      assert SlotOk(w, k, s.queue[k], s.defs);
    }
    UnionIndex(s.queue, s.queueName, p.queues, name);
  }

  lemma RestoredSlots(w: World, s: Store, name: string, t: Store)
    requires Resumes(w, s, name, t)
    ensures SlotsOk(w, t.queue, t.defs)
  {
    RestoredRows(w, s, name, t);
    assert PauseOk(w, name, s.paused[name], s.defs);
    PausedHasNone(w, s, name);
    forall k | k in t.queue ensures SlotOk(w, k, t.queue[k], t.defs) {
      if k in s.paused[name].queues {
        assert w.owner(k) == name;
      } else {
        assert SlotOk(w, k, s.queue[k], s.defs);
      }
    }
  }

  lemma RestoredDefs(w: World, s: Store, name: string, t: Store)
    requires Resumes(w, s, name, t)
    ensures DefsOk(w, t.defs)
  {
    RestoredRows(w, s, name, t);
    assert PauseOk(w, name, s.paused[name], s.defs);
    forall n | n in t.defs ensures DefOk(w, n, t.defs[n]) {
      assert n != name ==> DefOk(w, n, s.defs[n]);
    }
  }

  lemma RestoredArmed(w: World, s: Store, name: string, t: Store)
    requires Resumes(w, s, name, t) && w.armed
    ensures ArmedOk(w, t.triggers, t.defs)
  {
    RestoredRows(w, s, name, t);
    PausedHasNone(w, s, name);
    var p := s.paused[name];
    assert PauseOk(w, name, p, s.defs);
    forall k | k in t.triggers && !w.policy(k).Replace? ensures w.owner(k) in t.defs && k in t.defs[w.owner(k)].triggers {
      if k in p.triggers {
        assert w.owner(k) == name;
      } else {
        assert k in s.triggers;
      }
    }
  }

  lemma RestoredPauses(w: World, s: Store, name: string, t: Store)
    requires Resumes(w, s, name, t)
    ensures PausesOk(w, t.paused, t.defs)
  {
    RestoredRows(w, s, name, t);
    forall n | n in t.paused ensures PauseOk(w, n, t.paused[n], t.defs) {
      assert PauseOk(w, n, s.paused[n], s.defs);
    }
  }

  lemma RestoredWf(w: World, s: Store, name: string, t: Store)
    requires Resumes(w, s, name, t)
    ensures Wf(w, t) && t.runs == s.runs && t.drain == s.drain
    ensures forall k :: k in s.queue && w.owner(k) != name ==> k in t.queue && t.queue[k] == s.queue[k]
    ensures forall k :: k in t.queue && w.owner(k) != name ==> k in s.queue
    ensures w.armed ==> forall k :: k in s.queue ==> w.owner(k) != name
  {
    RestoredRows(w, s, name, t);
    RestoredIndex(w, s, name, t);
    RestoredSlots(w, s, name, t);
    RestoredDefs(w, s, name, t);
    if w.armed {
      RestoredArmed(w, s, name, t);
    }
    RestoredPauses(w, s, name, t);
    PausedHasNone(w, s, name);
    assert PauseOk(w, name, s.paused[name], s.defs);
    assert forall k :: k in s.paused[name].queues ==> w.owner(k) == name;
  }

  lemma ResumeInv(w: World, s: Store, name: string, now: int, t: Store)
    requires Kept(w, s) && Resume(s, name, now) == Ok(t) && t != s
    ensures Kept(w, t) && name in s.defs && s.defs[name].tripped.Some? && name in s.paused
    ensures Passes(Restored(s, name, s.defs[name], s.paused[name]), t)
  {
    var m := Restored(s, name, s.defs[name], s.paused[name]);
    RestoredWf(w, s, name, m);
    DrainWf(w, m, name, now, t);
    forall n ensures SettledName(t, n) {
      if n != name {
        assert SettledName(s, n);
        assert SettledName(m, n) by {
          forall k | k in m.queue && m.queue[k].admission.name == n ensures Waits(m.runs, k, m.queue[k]) || n in m.drain {
            assert SlotOk(w, k, m.queue[k], m.defs);
          }
        }
        NameSettledOn(m, t, n);
      }
    }
  }

  lemma PendingInv(w: World, s: Store, limit: nat, now: int, t: Store)
    requires Kept(w, s) && DrainPending(s, limit, now) == Ok(t)
    ensures Kept(w, t) && Moves(s, t)
  {
    var names := Sorted(AsKeys(s.drain));
    MarksWf(w, s, if |names| <= limit then names else names[..limit], now, t);
    PassesMoves(s, t);
  }

  lemma StopInv(w: World, s: Store, enabled: bool, now: int, t: Store)
    requires Kept(w, s) && Stop(s, enabled, now) == Ok(t)
    ensures Kept(w, t) && Moves(s.(stopped := t.stopped), t)
  {
    if s.stopped && !enabled {
      var m := s.(stopped := false);
      GrowNoLost(s, m);
      PendingInv(w, m, MAX_PAGE, now, t);
    } else {
      GrowNoLost(s, t);
    }
  }

  // ── every step ────────────────────────────────────────────────────────────

  /** Where a buffered slot may be after a step: still buffered, promoted to a stored
      run, put aside by a pause, or dropped by a trip or an activation of its definition. */
  ghost predicate Accounted(s: Store, c: Command, t: Store, k: string)
    requires k in s.queue
  {
    var q := s.queue[k];
    || (k in t.queue && t.queue[k] == q)
    || HasRun(t.runs, q.admission)
    || Broken(t.defs, q.admission.name)
    || (c.Pausing? && c.name == q.admission.name && c.name in t.paused && k in t.paused[c.name].queues && t.paused[c.name].queues[k] == q)
    || (c.Activating? && c.name == q.admission.name)
  }

  /** The resume brings back another slot of the key. */
  ghost predicate Displaced(s: Store, c: Command, k: string)
    requires k in s.queue
  {
    c.Resuming? && c.name in s.paused && k in s.paused[c.name].queues && s.paused[c.name].queues[k] != s.queue[k]
  }

  ghost predicate AllAccounted(s: Store, c: Command, t: Store) {
    forall k :: k in s.queue ==> Displaced(s, c, k) || Accounted(s, c, t, k)
  }

  /** Where only stored triggers fire, a paused definition has no slot to displace. */
  lemma NoneDisplaced(w: World, s: Store, c: Command, k: string)
    requires Inv(w, s) && k in s.queue
    ensures !Displaced(s, c, k)
  {
    if c.Resuming? && c.name in s.paused && k in s.paused[c.name].queues {
      assert PauseOk(w, c.name, s.paused[c.name], s.defs);
      PausedHasNone(w, s, c.name);
      assert false;
    }
  }

  /** While a slot stays buffered its trigger gets no other run. */
  ghost predicate InOrder(s: Store, t: Store) {
    forall k, x :: k in s.queue && k in t.queue && t.queue[k] == s.queue[k] && x in t.runs && x !in s.runs ==>
                     t.runs[x].trigger != Some(k)
  }

  lemma MovesFair(s: Store, c: Command, t: Store)
    requires Moves(s.(stopped := t.stopped), t)
    ensures AllAccounted(s, c, t) && InOrder(s, t)
  {
  }

  lemma TurnoverFair(s: Store, c: Command, t: Store, k: string)
    requires Turnover(s, t, k)
    ensures AllAccounted(s, c, t) && InOrder(s, t)
  {
    if Moves(s, t) {
      MovesFair(s, c, t);
    } else {
      var m :| BuffersAfter(s, m, t, k);
      BufferAccounted(s, c, m, t, k);
      BufferInOrder(s, m, t, k);
    }
  }

  lemma BufferAccounted(s: Store, c: Command, m: Store, t: Store, k: string)
    requires SlotsKept(s, m) && Buffers(m, t, k)
    ensures AllAccounted(s, c, t)
  {
    forall j | j in s.queue ensures Accounted(s, c, t, j) {
      assert j in m.queue ==> j != k && t.queue[j] == s.queue[j];
    }
  }

  /** The slot a firing buffers is not the one its own drain promoted. */
  lemma BufferInOrder(s: Store, m: Store, t: Store, k: string)
    requires BuffersAfter(s, m, t, k)
    ensures InOrder(s, t)
  {
    forall j, x | j in s.queue && j in t.queue && t.queue[j] == s.queue[j] && x in t.runs && x !in s.runs
      ensures t.runs[x].trigger != Some(j)
    {
      if j !in m.queue {
        var i :| FromSlot(s, m, i, x);
      }
    }
  }

  lemma ResumeFair(w: World, s: Store, c: Command, t: Store)
    requires Kept(w, s) && c.Resuming? && Resume(s, c.name, c.now) == Ok(t) && t != s
    ensures AllAccounted(s, c, t) && InOrder(s, t)
  {
    ResumeInv(w, s, c.name, c.now, t);
    var m := Restored(s, c.name, s.defs[c.name], s.paused[c.name]);
    RestoredRows(w, s, c.name, m);
    PassesMoves(m, t);
    RestoredAccounted(s, c, m, t);
    RestoredInOrder(s, m, t);
  }

  lemma RestoredAccounted(s: Store, c: Command, m: Store, t: Store)
    requires c.Resuming? && c.name in s.paused && m.queue == s.queue + s.paused[c.name].queues && SlotsKept(m, t)
    ensures AllAccounted(s, c, t)
  {
    forall k | k in s.queue && !Displaced(s, c, k) ensures Accounted(s, c, t, k) {
      assert k in m.queue && m.queue[k] == s.queue[k];
    }
  }

  lemma RestoredInOrder(s: Store, m: Store, t: Store)
    requires m.runs == s.runs && s.queue.Keys <= m.queue.Keys && Waited(m, t)
    ensures InOrder(s, t)
  {
  }

  lemma PauseFair(w: World, s: Store, c: Command, t: Store)
    requires Kept(w, s) && c.Pausing? && Pause(s, c.name, c.reason, c.now) == Ok(t) && t != s
    ensures AllAccounted(s, c, t) && InOrder(s, t)
  {
    PauseInv(w, s, c.name, c.reason, c.now, t);
    PausedAside(w, s, c.name, t.paused[c.name]);
    assert DefOk(w, c.name, s.defs[c.name]);
    forall k | k in s.queue ensures Accounted(s, c, t, k) {
      assert SlotOk(w, k, s.queue[k], s.defs);
      assert k !in s.defs[c.name].triggers ==> k in t.queue;
    }
  }

  lemma ActivateFair(w: World, s: Store, c: Command, t: Store)
    requires Kept(w, s) && c.Activating? && Callable(w, c) && Activate(s, c.name, c.version, c.epoch, c.wanted) == Ok(t)
    ensures AllAccounted(s, c, t) && InOrder(s, t)
  {
    ActivateInv(w, s, c.name, c.version, c.epoch, c.wanted, t);
    forall k | k in s.queue ensures Accounted(s, c, t, k) {
      assert SlotOk(w, k, s.queue[k], s.defs);
    }
  }

  /** Steps that start, end or promote runs. */
  lemma RunStep(w: World, s: Store, c: Command, t: Store)
    requires Kept(w, s) && Callable(w, c) && Effect(w, s, c) == Ok(t)
    requires c.Starting? || c.Finishing? || c.Cancelling? || c.Paging? || c.Stopping?
    ensures Kept(w, t) && AllAccounted(s, c, t) && InOrder(s, t)
  {
    if c.Starting? {
      StartInv(w, s, c.a, c.kind, c.now, t);
    } else if c.Finishing? {
      FinishInv(w, s, c.id, c.seen, c.threshold, c.now, t);
    } else if c.Cancelling? {
      TerminateWf(w, s, c.id, c.now, t);
    } else if c.Stopping? {
      StopInv(w, s, c.enabled, c.now, t);
    } else if !s.stopped {
      PendingInv(w, s, c.limit, c.now, t);
    }
    MovesFair(s, c, t);
  }

  lemma FireStep(w: World, s: Store, c: Command, t: Store)
    requires Kept(w, s) && Callable(w, c) && Effect(w, s, c) == Ok(t) && c.Firing_?
    ensures Kept(w, t) && AllAccounted(s, c, t) && InOrder(s, t)
  {
    FireInv(w, s, c.f, c.now, t);
    TurnoverFair(s, c, t, c.f.key);
  }

  lemma CatalogStep(w: World, s: Store, c: Command, t: Store)
    requires Kept(w, s) && Callable(w, c) && Effect(w, s, c) == Ok(t) && t != s
    requires c.Activating? || c.Saving? || c.Pausing? || c.Resuming? || c.Acknowledging?
    ensures Kept(w, t) && AllAccounted(s, c, t) && InOrder(s, t)
  {
    if c.Activating? {
      ActivateInv(w, s, c.name, c.version, c.epoch, c.wanted, t);
      ActivateFair(w, s, c, t);
    } else if c.Saving? {
      SaveInv(w, s, c.name, c.version, c.v, t);
    } else if c.Pausing? {
      PauseInv(w, s, c.name, c.reason, c.now, t);
      PauseFair(w, s, c, t);
    } else if c.Resuming? {
      ResumeInv(w, s, c.name, c.now, t);
      ResumeFair(w, s, c, t);
    } else {
      GrowNoLost(s, t);
    }
  }

  lemma StepKeeps(w: World, s: Store, c: Command, t: Store)
    requires Kept(w, s) && Callable(w, c) && t == Step(w, s, c)
    ensures Kept(w, t) && AllAccounted(s, c, t) && InOrder(s, t)
  {
    if t != s {
      if c.Starting? || c.Finishing? || c.Cancelling? || c.Paging? || c.Stopping? {
        RunStep(w, s, c, t);
      } else if c.Firing_? {
        FireStep(w, s, c, t);
      } else {
        CatalogStep(w, s, c, t);
      }
    }
  }

  ghost predicate Offered(w: World, commands: seq<Command>) {
    forall i :: 0 <= i < |commands| ==> Callable(w, commands[i])
  }

  ghost predicate AllCallable(w: World, commands: seq<Command>) {
    w.armed && Offered(w, commands)
  }

  lemma AlwaysInv(w: World, commands: seq<Command>)
    requires AllCallable(w, commands)
    ensures Inv(w, After(w, commands))
  {
    AlwaysKept(w, commands);
  }

  lemma {:induction false} AlwaysKept(w: World, commands: seq<Command>)
    requires Offered(w, commands)
    ensures Kept(w, After(w, commands))
    decreases |commands|
  {
    if commands == [] {
      assert NoLost(EMPTY);
    } else {
      var rest := commands[..|commands| - 1];
      assert forall i :: 0 <= i < |rest| ==> rest[i] == commands[i];
      AlwaysKept(w, rest);
      StepKeeps(w, After(w, rest), commands[|commands| - 1], After(w, commands));
    }
  }

  /** In every committed state a buffered slot has a live run of its trigger, a full
      definition, or a deferred drain, and its rows agree; where only stored triggers
      fire, its trigger is armed and its definition untripped. */
  lemma NoLostPromotion(w: World, commands: seq<Command>, k: string)
    requires Offered(w, commands) && k in After(w, commands).queue
    ensures var s, q := After(w, commands), After(w, commands).queue[k];
            && (LiveOf(s.runs, k) != {} || |LiveNamed(s.runs, q.admission.name)| >= q.ceiling || q.admission.name in s.drain)
            && (q.admission.name, k) in s.queueName
            && (w.armed ==> k in s.triggers && q.admission.name in s.defs && k in s.defs[q.admission.name].triggers
                            && s.defs[q.admission.name].tripped.None?)
  {
    AlwaysKept(w, commands);
    var s := After(w, commands);
    assert SlotOk(w, k, s.queue[k], s.defs);
    assert SettledName(s, s.queue[k].admission.name);
    if w.armed {
      assert DefOk(w, w.owner(k), s.defs[w.owner(k)]);
    }
  }

  /** No later slot of a trigger is admitted while an earlier one is buffered, and no
      buffered slot vanishes; but a resume may displace one that was buffered for a
      trigger that was not stored. */
  lemma NoOvertaking(w: World, commands: seq<Command>, i: nat, k: string)
    requires Offered(w, commands) && i < |commands| && k in After(w, commands[..i]).queue
    ensures var s, t := After(w, commands[..i]), After(w, commands[..i + 1]);
            && (Accounted(s, commands[i], t, k) || (!w.armed && Displaced(s, commands[i], k)))
            && (k in t.queue && t.queue[k] == s.queue[k] ==>
                  forall x :: x in t.runs && x !in s.runs ==> t.runs[x].trigger != Some(k))
  {
    var before := commands[..i];
    assert forall j :: 0 <= j < |before| ==> before[j] == commands[j];
    AlwaysKept(w, before);
    assert commands[..i + 1][..i] == before;
    if w.armed {
      NoneDisplaced(w, After(w, before), commands[i], k);
    }
    StepKeeps(w, After(w, before), commands[i], After(w, commands[..i + 1]));
  }
}

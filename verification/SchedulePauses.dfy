/**
 Slots a pause put aside: they stay as they are until their definition is resumed or
 activated, come back with the resume, and no other run of their trigger is stored in
 between.
 */
module SchedulePauses {
  import opened Options
  import opened Order
  import opened Schedule
  import opened SchedulePromotion
  import opened ScheduleRuns
  import opened ScheduleBreaker

  ghost predicate IsAside(s: Store, n: string, k: string, q: Slot) {
    n in s.paused && k in s.paused[n].queues && s.paused[n].queues[k] == q
  }

  ghost predicate IsBuffered(s: Store, k: string, q: Slot) {
    k in s.queue && s.queue[k] == q
  }

  /** Where a slot put aside may be after a step: still aside; or, by the resume of its
      definition, buffered again, promoted to a stored run, or dropped by a trip; or
      dropped by an activation. */
  ghost predicate AsideAccounted(c: Command, t: Store, n: string, k: string, q: Slot) {
    || IsAside(t, n, k, q)
    || (c.Resuming? && c.name == n && (IsBuffered(t, k, q) || HasRun(t.runs, q.admission) || Broken(t.defs, n)))
    || (c.Activating? && c.name == n)
  }

  ghost predicate NoNewRun(s: Store, t: Store, k: string) {
    forall x :: x in t.runs && x !in s.runs ==> t.runs[x].trigger != Some(k)
  }

  lemma PausedStay(w: World, s: Store, c: Command, t: Store)
    requires Inv(w, s) && Callable(w, c) && Effect(w, s, c) == Ok(t) && !IsCatalog(c)
    ensures t.paused == s.paused
  {
    if c.Firing_? {
      FireInv(w, s, c.f, c.now, t);
    } else if c.Starting? {
      StartInv(w, s, c.a, c.kind, c.now, t);
    } else if c.Finishing? {
      FinishInv(w, s, c.id, c.seen, c.threshold, c.now, t);
    } else if c.Cancelling? {
      TerminateWf(w, s, c.id, c.now, t);
    } else if c.Stopping? {
      StopInv(w, s, c.enabled, c.now, t);
    } else if !s.stopped {
      PendingInv(w, s, c.limit, c.now, t);
    }
  }

  lemma ResumedSlot(w: World, s: Store, c: Command, t: Store, n: string, k: string, q: Slot)
    requires Inv(w, s) && c.Resuming? && Resume(s, c.name, c.now) == Ok(t) && t != s && IsAside(s, n, k, q)
    ensures AsideAccounted(c, t, n, k, q)
  {
    ResumeInv(w, s, c.name, c.now, t);
    var m := Restored(s, c.name, s.defs[c.name], s.paused[c.name]);
    assert Wf(w, s);
    RestoredRows(w, s, c.name, m);
    assert PauseOk(w, n, s.paused[n], s.defs);
  }

  lemma CatalogAside(w: World, s: Store, c: Command, t: Store, n: string, k: string, q: Slot)
    requires Inv(w, s) && Callable(w, c) && Effect(w, s, c) == Ok(t) && t != s && IsCatalog(c) && IsAside(s, n, k, q)
    ensures AsideAccounted(c, t, n, k, q)
  {
    if c.Resuming? {
      ResumedSlot(w, s, c, t, n, k, q);
    } else if c.Pausing? {
      PauseKeepsOthers(w, s, c, t, n);
    } else {
      CatalogPaused(w, s, c, t);
    }
  }

  lemma CatalogPaused(w: World, s: Store, c: Command, t: Store)
    requires Effect(w, s, c) == Ok(t) && t != s && (c.Activating? || c.Saving? || c.Acknowledging?)
    ensures t.paused == if c.Activating? then s.paused - {c.name} else s.paused
  {
  }

  lemma PauseKeepsOthers(w: World, s: Store, c: Command, t: Store, n: string)
    requires Inv(w, s) && c.Pausing? && Pause(s, c.name, c.reason, c.now) == Ok(t) && t != s && n in s.paused
    ensures n in t.paused && t.paused[n] == s.paused[n]
  {
    assert PauseOk(w, n, s.paused[n], s.defs);
    assert c.name != n;
  }

  lemma StepAside(w: World, s: Store, c: Command, t: Store, n: string, k: string, q: Slot)
    requires Inv(w, s) && Callable(w, c) && t == Step(w, s, c) && IsAside(s, n, k, q)
    ensures AsideAccounted(c, t, n, k, q)
  {
    if t != s {
      if IsCatalog(c) {
        CatalogAside(w, s, c, t, n, k, q);
      } else {
        PausedStay(w, s, c, t);
      }
    }
  }

  // ── no run of the trigger meanwhile ───────────────────────────────────────

  lemma PausedGetsNone(w: World, s: Store, c: Command, t: Store, n: string, k: string, q: Slot)
    requires Inv(w, s) && Inv(w, t) && Callable(w, c) && t == Step(w, s, c) && IsAside(s, n, k, q) && !(c.Resuming? && c.name == n)
    ensures NoNewRun(s, t, k)
  {
    assert PauseOk(w, n, s.paused[n], s.defs);
    forall x | x in t.runs && x !in s.runs ensures t.runs[x].trigger != Some(k) {
      NotOfPaused(w, s, c, t, n, x);
      assert t.runs[x].trigger.Some? ==> w.owner(t.runs[x].trigger.value) == t.runs[x].admission.name;
    }
  }

  lemma NotOfPaused(w: World, s: Store, c: Command, t: Store, n: string, x: Id)
    requires Inv(w, s) && Callable(w, c) && t == Step(w, s, c) && n in s.paused && !(c.Resuming? && c.name == n)
    requires x in t.runs && x !in s.runs
    ensures t.runs[x].admission.name != n
  {
    assert PauseOk(w, n, s.paused[n], s.defs);
    if !IsCatalog(c) {
      StepStands(w, s, c, t);
    } else if c.Resuming? {
      ResumeOfOther(w, s, c, t, x);
    } else {
      CatalogAdds(w, s, c, t);
    }
  }

  lemma ResumedGetsNone(w: World, s: Store, c: Command, t: Store, n: string, k: string, q: Slot)
    requires Inv(w, s) && c.Resuming? && c.name == n && t == Step(w, s, c) && IsAside(s, n, k, q) && IsBuffered(t, k, q)
    ensures NoNewRun(s, t, k)
  {
    if t != s {
      ResumeInv(w, s, c.name, c.now, t);
      var m := Restored(s, c.name, s.defs[c.name], s.paused[c.name]);
      RestoredRows(w, s, c.name, m);
    }
  }

  /** In every run: a slot put aside is accounted for by each step, and while it is aside
      or comes back its trigger gets no other run. */
  lemma AsideNotOvertaken(w: World, commands: seq<Command>, i: nat, n: string, k: string, q: Slot)
    requires AllCallable(w, commands) && i < |commands| && IsAside(After(w, commands[..i]), n, k, q)
    ensures var s, t := After(w, commands[..i]), After(w, commands[..i + 1]);
            && AsideAccounted(commands[i], t, n, k, q)
            && (IsAside(t, n, k, q) || IsBuffered(t, k, q) ==> NoNewRun(s, t, k))
  {
    Prefix(w, commands, i);
    var s, c, t := After(w, commands[..i]), commands[i], After(w, commands[..i + 1]);
    AlwaysInv(w, commands[..i]);
    AlwaysInv(w, commands[..i + 1]);
    StepAside(w, s, c, t, n, k, q);
    if c.Resuming? && c.name == n {
      if IsBuffered(t, k, q) {
        ResumedGetsNone(w, s, c, t, n, k, q);
      } else if t == s {
        assert NoNewRun(s, t, k);
      } else {
        ResumedNotAside(w, s, c, t, n);
      }
    } else {
      PausedGetsNone(w, s, c, t, n, k, q);
    }
  }

  lemma ResumedNotAside(w: World, s: Store, c: Command, t: Store, n: string)
    requires Inv(w, s) && c.Resuming? && c.name == n && t == Step(w, s, c) && t != s
    ensures n !in t.paused
  {
    ResumeInv(w, s, n, c.now, t);
    RestoredRows(w, s, n, Restored(s, n, s.defs[n], s.paused[n]));
  }

  /** Over whole runs: until its definition is resumed or activated, a slot put aside is
      there unchanged and no run of its trigger was stored since. */
  lemma {:induction false} AsideStays(w: World, commands: seq<Command>, i: nat, n: string, k: string, q: Slot)
    requires AllCallable(w, commands) && i <= |commands| && IsAside(After(w, commands[..i]), n, k, q)
    requires forall m :: i <= m < |commands| ==> !((commands[m].Resuming? || commands[m].Activating?) && commands[m].name == n)
    ensures IsAside(After(w, commands), n, k, q) && NoNewRun(After(w, commands[..i]), After(w, commands), k)
    decreases |commands|
  {
    if i == |commands| {
      assert commands[..i] == commands;
    } else {
      var last := |commands| - 1;
      var rest := commands[..last];
      Prefix(w, commands, last);
      assert rest[..i] == commands[..i] && commands[..last + 1] == commands;
      assert forall m :: 0 <= m < |rest| ==> rest[m] == commands[m];
      AsideStays(w, rest, i, n, k, q);
      AlwaysInv(w, rest);
      AsideNotOvertaken(w, commands, last, n, k, q);
      TriggersStay(w, After(w, rest), commands[last], After(w, commands));
      NoNewRunOn(After(w, commands[..i]), After(w, rest), After(w, commands), k);
    }
  }

  lemma NoNewRunOn(s: Store, m: Store, t: Store, k: string)
    requires NoNewRun(s, m, k) && NoNewRun(m, t, k) && SameTriggered(m.runs, t.runs)
    ensures NoNewRun(s, t, k)
  {
    forall x | x in t.runs && x !in s.runs ensures t.runs[x].trigger != Some(k) {
      assert x in m.runs ==> m.runs[x].trigger != Some(k);
    }
  }

  /** A stored run keeps the trigger that admitted it. */
  ghost predicate SameTriggered(a: map<Id, Run>, b: map<Id, Run>) {
    forall x :: x in a ==> x in b && b[x].trigger == a[x].trigger
  }

  lemma TriggersStay(w: World, s: Store, c: Command, t: Store)
    requires Callable(w, c) && Inv(w, s) && t == Step(w, s, c)
    ensures SameTriggered(s.runs, t.runs)
  {
    if t != s {
      if c.Resuming? {
        ResumeInv(w, s, c.name, c.now, t);
        RestoredRows(w, s, c.name, Restored(s, c.name, s.defs[c.name], s.paused[c.name]));
      } else if IsCatalog(c) {
        CatalogAdds(w, s, c, t);
      } else if c.Firing_? {
        FireInv(w, s, c.f, c.now, t);
      } else {
        RunRowsStay(w, s, c, t);
      }
    }
  }

  lemma RunRowsStay(w: World, s: Store, c: Command, t: Store)
    requires Inv(w, s) && Callable(w, c) && Effect(w, s, c) == Ok(t) && !IsCatalog(c) && !c.Firing_?
    ensures RowsStay(s.runs, t.runs)
  {
    if c.Starting? {
      StartInv(w, s, c.a, c.kind, c.now, t);
    } else if c.Finishing? {
      FinishInv(w, s, c.id, c.seen, c.threshold, c.now, t);
    } else if c.Cancelling? {
      TerminateWf(w, s, c.id, c.now, t);
    } else if c.Stopping? {
      StopInv(w, s, c.enabled, c.now, t);
    } else if !s.stopped {
      PendingInv(w, s, c.limit, c.now, t);
    }
  }
}

/**
 The breaker over whole runs: at most one trip per definition and epoch, reported and
 disarmed in its commit; a standing trip freezes the definition until the next
 activation and refuses its content by every path.
 */
module ScheduleBreaker {
  import opened Options
  import opened Order
  import opened Schedule
  import opened SchedulePromotion
  import opened ScheduleRuns
  import TI = TriggerIndex
  import T = TriggerRuns

  predicate IsCatalog(c: Command) {
    c.Activating? || c.Saving? || c.Pausing? || c.Resuming? || c.Acknowledging?
  }

  /** Steps that start, end or promote runs leave standing trips alone. */
  lemma RunStands(w: World, s: Store, c: Command, t: Store)
    requires Inv(w, s) && Callable(w, c) && Effect(w, s, c) == Ok(t)
    requires c.Starting? || c.Finishing? || c.Cancelling? || c.Paging? || c.Stopping?
    ensures TripsStand(s, t) && Vetted(s, t)
  {
    if c.Starting? {
      StartInv(w, s, c.a, c.kind, c.now, t);
    } else if c.Finishing? {
      FinishInv(w, s, c.id, c.seen, c.threshold, c.now, t);
    } else if c.Cancelling? {
      TerminateWf(w, s, c.id, c.now, t);
    } else if c.Stopping? {
      StopInv(w, s, c.enabled, c.now, t);
    } else if s.stopped {
      TripsStandStill(s, t);
    } else {
      PendingInv(w, s, c.limit, c.now, t);
    }
  }

  lemma FireStands(w: World, s: Store, c: Command, t: Store)
    requires Inv(w, s) && Callable(w, c) && Effect(w, s, c) == Ok(t) && c.Firing_?
    ensures TripsStand(s, t) && Vetted(s, t)
  {
    FireInv(w, s, c.f, c.now, t);
    if !Moves(s, t) {
      var m :| BuffersAfter(s, m, t, c.f.key);
      TripsStandStill(m, t);
      TripsStandOn(s, m, t);
    }
  }

  lemma StepStands(w: World, s: Store, c: Command, t: Store)
    requires Inv(w, s) && Callable(w, c) && t == Step(w, s, c) && !IsCatalog(c)
    ensures TripsStand(s, t) && Vetted(s, t)
  {
    if t == s {
      TripsStandStill(s, t);
    } else if c.Firing_? {
      FireStands(w, s, c, t);
    } else {
      RunStands(w, s, c, t);
    }
  }

  // ── a standing trip ───────────────────────────────────────────────────────

  predicate Activates(c: Command, name: string) {
    c.Activating? && c.name == name
  }

  /** The trip stands: only a pause on top of it may come and go. */
  ghost predicate Frozen(a: Definition, b: Definition) {
    && b.epoch == a.epoch && b.active == a.active && b.faults == a.faults && b.triggers == {}
    && a.tripped.Some? && b.tripped.Some? && b.tripped.value.breaker
    && b.tripped.value.(manual := a.tripped.value.manual) == a.tripped.value
  }

  lemma ResumeFrozen(w: World, s: Store, c: Command, t: Store, n: string)
    requires Inv(w, s) && c.Resuming? && Resume(s, c.name, c.now) == Ok(t) && t != s && Broken(s.defs, n)
    ensures n in t.defs && Frozen(s.defs[n], t.defs[n])
  {
    ResumeInv(w, s, c.name, c.now, t);
    var m := Restored(s, c.name, s.defs[c.name], s.paused[c.name]);
    RestoredWf(w, s, c.name, m);
    RestoredRows(w, s, c.name, m);
    assert PauseOk(w, c.name, s.paused[c.name], s.defs);
    assert DefOk(w, n, s.defs[n]);
    assert DefMoves(n, m.defs[n], t.defs[n], t.notices);
  }

  lemma CatalogFrozen(w: World, s: Store, c: Command, t: Store, n: string)
    requires Inv(w, s) && Callable(w, c) && Effect(w, s, c) == Ok(t) && t != s && IsCatalog(c)
    requires Broken(s.defs, n) && !Activates(c, n)
    ensures n in t.defs && Frozen(s.defs[n], t.defs[n])
  {
    assert DefOk(w, n, s.defs[n]);
    if c.Resuming? {
      ResumeFrozen(w, s, c, t, n);
    }
  }

  /** A broken definition keeps its trip, count, active version and epoch through every
      step but its own activation. */
  lemma StepFrozen(w: World, s: Store, c: Command, t: Store, n: string)
    requires Inv(w, s) && Callable(w, c) && t == Step(w, s, c) && Broken(s.defs, n) && !Activates(c, n)
    ensures n in t.defs && Frozen(s.defs[n], t.defs[n])
  {
    assert DefOk(w, n, s.defs[n]);
    if t != s {
      if IsCatalog(c) {
        CatalogFrozen(w, s, c, t, n);
      } else {
        StepStands(w, s, c, t);
        assert DefMoves(n, s.defs[n], t.defs[n], t.notices);
      }
    }
  }

  lemma FrozenOn(a: Definition, b: Definition, c: Definition)
    requires Frozen(a, b) && Frozen(b, c)
    ensures Frozen(a, c)
  {
    assert c.tripped.value.(manual := a.tripped.value.manual) == b.tripped.value.(manual := a.tripped.value.manual);
  }

  // ── trips and their notices ───────────────────────────────────────────────

  /** A notice is of a past epoch, or of the standing trip. */
  ghost predicate NoticeOk(defs: map<string, Definition>, key: Notice) {
    && key.name in defs && key.epoch <= defs[key.name].epoch
    && (key.epoch == defs[key.name].epoch ==> Broken(defs, key.name) && defs[key.name].tripped.value.at == key.at)
  }

  ghost predicate NoticesOk(s: Store) {
    forall key :: key in s.notices ==> NoticeOk(s.defs, key)
  }

  ghost predicate TripEpochs(defs: map<string, Definition>) {
    forall n :: Broken(defs, n) ==> defs[n].tripped.value.epoch == defs[n].epoch
  }

  lemma StandsNotices(s: Store, t: Store)
    requires NoticesOk(s) && TripEpochs(s.defs) && TripsStand(s, t)
    ensures NoticesOk(t) && TripEpochs(t.defs)
  {
    forall n | Broken(t.defs, n) ensures t.defs[n].tripped.value.epoch == t.defs[n].epoch {
      assert DefMoves(n, s.defs[n], t.defs[n], t.notices);
    }
    forall key | key in t.notices ensures NoticeOk(t.defs, key) {
      if key in s.notices {
        assert NoticeOk(s.defs, key);
      } else {
        assert NoticeMoves(s.defs, key, t.defs);
      }
      assert DefMoves(key.name, s.defs[key.name], t.defs[key.name], t.notices);
    }
  }

  /** Every definition but `name` is as it was, and `name` is in a later epoch or still
      tripped by the same trip if it was broken. */
  ghost predicate OneDef(s: Store, t: Store, name: string) {
    && t.notices == s.notices && name in t.defs
    && (forall n :: n in s.defs ==> n in t.defs)
    && (forall n :: n in t.defs && n != name ==> n in s.defs && t.defs[n] == s.defs[n])
    && (name in s.defs ==> t.defs[name].epoch >= s.defs[name].epoch)
    && (name !in s.defs ==> !Broken(t.defs, name))
    && (name in s.defs && t.defs[name].epoch == s.defs[name].epoch ==>
          (Broken(s.defs, name) <==> Broken(t.defs, name)) &&
          (Broken(t.defs, name) ==> t.defs[name].tripped.value.at == s.defs[name].tripped.value.at
                                    && t.defs[name].tripped.value.epoch == s.defs[name].tripped.value.epoch))
    && (name in s.defs && t.defs[name].epoch > s.defs[name].epoch ==> t.defs[name].tripped.None?)
  }

  lemma OneDefNotices(s: Store, t: Store, name: string)
    requires NoticesOk(s) && TripEpochs(s.defs) && OneDef(s, t, name)
    ensures NoticesOk(t) && TripEpochs(t.defs)
  {
    forall key | key in t.notices ensures NoticeOk(t.defs, key) {
      assert NoticeOk(s.defs, key);
    }
  }

  lemma PlainCatalog(w: World, s: Store, c: Command, t: Store)
    requires Effect(w, s, c) == Ok(t) && t != s && (c.Activating? || c.Saving? || c.Pausing?)
    ensures OneDef(s, t, c.name)
  {
  }

  lemma RestoredOneDef(s: Store, name: string, t: Store)
    requires name in s.defs && s.defs[name].tripped.Some? && name in s.paused
    requires t == Restored(s, name, s.defs[name], s.paused[name])
    ensures OneDef(s, t, name)
  {
  }

  lemma ResumeNotices(w: World, s: Store, c: Command, t: Store)
    requires Inv(w, s) && NoticesOk(s) && TripEpochs(s.defs) && c.Resuming? && Resume(s, c.name, c.now) == Ok(t) && t != s
    ensures NoticesOk(t) && TripEpochs(t.defs)
  {
    ResumeInv(w, s, c.name, c.now, t);
    var m := Restored(s, c.name, s.defs[c.name], s.paused[c.name]);
    RestoredOneDef(s, c.name, m);
    OneDefNotices(s, m, c.name);
    StandsNotices(m, t);
  }

  lemma StepNotices(w: World, s: Store, c: Command, t: Store)
    requires Inv(w, s) && Callable(w, c) && t == Step(w, s, c) && NoticesOk(s) && TripEpochs(s.defs)
    ensures NoticesOk(t) && TripEpochs(t.defs)
  {
    if t != s {
      if !IsCatalog(c) {
        StepStands(w, s, c, t);
        StandsNotices(s, t);
      } else if c.Resuming? {
        ResumeNotices(w, s, c, t);
      } else if !c.Acknowledging? {
        PlainCatalog(w, s, c, t);
        OneDefNotices(s, t, c.name);
      }
    }
  }

  lemma {:induction false} AlwaysNotices(w: World, commands: seq<Command>)
    requires AllCallable(w, commands)
    ensures var s := After(w, commands); Inv(w, s) && NoticesOk(s) && TripEpochs(s.defs)
    decreases |commands|
  {
    AlwaysInv(w, commands);
    if commands != [] {
      var rest := commands[..|commands| - 1];
      assert forall i :: 0 <= i < |rest| ==> rest[i] == commands[i];
      AlwaysNotices(w, rest);
      StepNotices(w, After(w, rest), commands[|commands| - 1], After(w, commands));
    }
  }

  lemma StandTells(s: Store, t: Store, key: Notice)
    requires NoticesOk(s) && TripsStand(s, t) && key in s.notices
    ensures key in t.notices && t.notices[key] == s.notices[key]
  {
    assert NoticeOk(s.defs, key);
  }

  lemma ResumeTells(w: World, s: Store, c: Command, t: Store, key: Notice)
    requires Inv(w, s) && NoticesOk(s) && TripEpochs(s.defs) && c.Resuming? && Resume(s, c.name, c.now) == Ok(t) && t != s && key in s.notices
    ensures key in t.notices && t.notices[key] == s.notices[key]
  {
    ResumeInv(w, s, c.name, c.now, t);
    var m := Restored(s, c.name, s.defs[c.name], s.paused[c.name]);
    RestoredOneDef(s, c.name, m);
    OneDefNotices(s, m, c.name);
    StandTells(m, t, key);
  }

  /** A notice stays as it is until it is acknowledged. */
  lemma NoticeStays(w: World, s: Store, c: Command, t: Store, key: Notice)
    requires Inv(w, s) && Callable(w, c) && t == Step(w, s, c) && NoticesOk(s) && TripEpochs(s.defs)
    requires key in s.notices && c != Acknowledging(key)
    ensures key in t.notices && t.notices[key] == s.notices[key]
  {
    if t != s {
      if !IsCatalog(c) {
        StepStands(w, s, c, t);
        StandTells(s, t, key);
      } else if c.Resuming? {
        ResumeTells(w, s, c, t, key);
      } else if !c.Acknowledging? {
        PlainCatalog(w, s, c, t);
      }
    }
  }

  /** In every history a reported trip stays reported until just its own notice is
      acknowledged, which changes nothing else. */
  lemma {:induction false} ToldUntilAcknowledged(w: World, commands: seq<Command>, i: nat, key: Notice)
    requires AllCallable(w, commands) && i <= |commands| && key in After(w, commands[..i]).notices
    requires forall m :: i <= m < |commands| ==> commands[m] != Acknowledging(key)
    ensures var s := After(w, commands);
            && key in s.notices && s.notices[key] == After(w, commands[..i]).notices[key]
            && Step(w, s, Acknowledging(key)) == s.(notices := map n | n in s.notices && n != key :: s.notices[n])
    decreases |commands|
  {
    var s := After(w, commands);
    assert s.notices - {key} == map n | n in s.notices && n != key :: s.notices[n];
    if i == |commands| {
      assert commands[..i] == commands;
    } else {
      var last := |commands| - 1;
      var rest := commands[..last];
      assert rest[..i] == commands[..i];
      Prefix(w, commands, last);
      assert forall m :: 0 <= m < |rest| ==> rest[m] == commands[m];
      ToldUntilAcknowledged(w, rest, i, key);
      AlwaysNotices(w, rest);
      assert commands[..last + 1] == commands;
      NoticeStays(w, After(w, rest), commands[last], s, key);
    }
  }

  lemma CatalogTripsNone(w: World, s: Store, c: Command, t: Store, n: string)
    requires Inv(w, s) && Callable(w, c) && t == Step(w, s, c) && IsCatalog(c) && !Broken(s.defs, n) && Broken(t.defs, n)
    ensures c.Resuming? && FreshTrip(n, t.defs[n], t.notices)
  {
    if c.Resuming? {
      ResumeInv(w, s, c.name, c.now, t);
      var m := Restored(s, c.name, s.defs[c.name], s.paused[c.name]);
      RestoredOneDef(s, c.name, m);
      assert DefMoves(n, m.defs[n], t.defs[n], t.notices);
    } else if !c.Acknowledging? {
      PlainCatalog(w, s, c, t);
    }
  }

  lemma FireDisarms(w: World, s: Store, c: Command, t: Store, n: string, k: string)
    requires Inv(w, s) && Callable(w, c) && Effect(w, s, c) == Ok(t) && c.Firing_? && !T.IsReplacing(s, c, k)
    requires n in s.defs && s.defs[n].tripped.None? && k in s.defs[n].triggers && Broken(t.defs, n)
    ensures k !in t.triggers
  {
    if c.f.key == k {
      T.FiringKeeps(w, s, c.f, c.now, t);
    } else {
      T.ReplacingStep(w, s, c.f, c.now, t);
    }
  }

  /** Every trigger a definition owned is gone with its trip, unless the step is a
      replacing firing of that very key. */
  lemma TripDisarms(w: World, s: Store, c: Command, t: Store, n: string, k: string)
    requires Inv(w, s) && Callable(w, c) && t == Step(w, s, c) && !Broken(s.defs, n) && Broken(t.defs, n)
    requires k in T.Owned(s, n) && !T.IsReplacing(s, c, k)
    ensures k !in t.triggers
  {
    assert n in s.paused ==> PauseOk(w, n, s.paused[n], s.defs);
    if IsCatalog(c) {
      CatalogTripsNone(w, s, c, t, n);
      T.ResumeDisarms(w, s, c, t, n, k);
    } else {
      StepStands(w, s, c, t);
      assert DefMoves(n, s.defs[n], t.defs[n], t.notices);
      if c.Firing_? {
        FireDisarms(w, s, c, t, n, k);
      } else {
        T.RunTrig(w, s, c, t);
      }
    }
  }

  /** A trip commits with exactly one notice of its definition and epoch, with its slots
      gone and with every trigger it owned, but for that of a replacing firing. */
  lemma TripIsReported(w: World, commands: seq<Command>, i: nat, n: string)
    requires AllCallable(w, commands) && i < |commands|
    requires !Broken(After(w, commands[..i]).defs, n) && Broken(After(w, commands[..i + 1]).defs, n)
    ensures var t := After(w, commands[..i + 1]);
            && FreshTrip(n, t.defs[n], t.notices)
            && (forall key :: key in t.notices && key.name == n && key.epoch == t.defs[n].epoch ==> key.at == t.defs[n].tripped.value.at)
            && (forall k :: k in t.queue ==> w.owner(k) != n)
            && (forall k :: k in t.triggers && !w.policy(k).Replace? ==> w.owner(k) != n)
            && (forall k :: k in T.Owned(After(w, commands[..i]), n) && !T.IsReplacing(After(w, commands[..i]), commands[i], k) ==>
                  k !in t.triggers)
  {
    Prefix(w, commands, i);
    var s, t := After(w, commands[..i]), After(w, commands[..i + 1]);
    AlwaysNotices(w, commands[..i + 1]);
    AlwaysInv(w, commands[..i]);
    if IsCatalog(commands[i]) {
      CatalogTripsNone(w, s, commands[i], t, n);
    } else {
      StepStands(w, s, commands[i], t);
      assert DefMoves(n, s.defs[n], t.defs[n], t.notices);
    }
    TripLeavesNone(w, t, n);
    forall k | k in T.Owned(s, n) && !T.IsReplacing(s, commands[i], k) ensures k !in t.triggers {
      TripDisarms(w, s, commands[i], t, n, k);
    }
    forall key | key in t.notices && key.name == n && key.epoch == t.defs[n].epoch ensures key.at == t.defs[n].tripped.value.at {
      assert NoticeOk(t.defs, key);
    }
  }

  lemma TripLeavesNone(w: World, t: Store, n: string)
    requires w.armed && Wf(w, t) && Broken(t.defs, n)
    ensures forall k :: k in t.queue ==> w.owner(k) != n
    ensures forall k :: k in t.triggers && !w.policy(k).Replace? ==> w.owner(k) != n
  {
    assert DefOk(w, n, t.defs[n]);
    forall k | k in t.queue ensures w.owner(k) != n {
      assert SlotOk(w, k, t.queue[k], t.defs);
    }
  }

  lemma Prefix(w: World, commands: seq<Command>, i: nat)
    requires AllCallable(w, commands) && i < |commands|
    ensures AllCallable(w, commands[..i]) && AllCallable(w, commands[..i + 1]) && Callable(w, commands[i])
    ensures After(w, commands[..i + 1]) == Step(w, After(w, commands[..i]), commands[i])
  {
    assert forall j :: 0 <= j < i ==> commands[..i][j] == commands[j];
    assert forall j :: 0 <= j < i + 1 ==> commands[..i + 1][j] == commands[j];
    assert commands[..i + 1][..i] == commands[..i];
  }

  // ── whole runs ────────────────────────────────────────────────────────────

  ghost predicate NotActivated(commands: seq<Command>, i: nat, n: string) {
    forall m :: i <= m < |commands| ==> !Activates(commands[m], n)
  }

  /** Until the next activation of the definition its trip, fault count, active version
      and epoch stand. */
  lemma {:induction false} FrozenUntilActivation(w: World, commands: seq<Command>, i: nat, n: string)
    requires AllCallable(w, commands) && i <= |commands| && NotActivated(commands, i, n)
    requires Broken(After(w, commands[..i]).defs, n)
    ensures n in After(w, commands).defs && Frozen(After(w, commands[..i]).defs[n], After(w, commands).defs[n])
    decreases |commands|
  {
    if i == |commands| {
      assert commands[..i] == commands;
      AlwaysInv(w, commands);
      assert DefOk(w, n, After(w, commands).defs[n]);
    } else {
      var last := |commands| - 1;
      var rest := commands[..last];
      assert rest[..i] == commands[..i];
      Prefix(w, commands, last);
      assert forall m :: 0 <= m < |rest| ==> rest[m] == commands[m];
      FrozenUntilActivation(w, rest, i, n);
      AlwaysInv(w, rest);
      assert commands[..last + 1] == commands;
      StepFrozen(w, After(w, rest), commands[last], After(w, commands), n);
      FrozenOn(After(w, commands[..i]).defs[n], After(w, rest).defs[n], After(w, commands).defs[n]);
    }
  }

  /** How far a definition is past an epoch in which it broke. */
  ghost predicate Past(defs: map<string, Definition>, n: string, epoch: nat) {
    n in defs && (defs[n].epoch > epoch || (defs[n].epoch == epoch && Broken(defs, n)))
  }

  lemma ResumePast(w: World, s: Store, c: Command, t: Store, n: string, epoch: nat)
    requires Inv(w, s) && c.Resuming? && Resume(s, c.name, c.now) == Ok(t) && t != s && Past(s.defs, n, epoch)
    ensures Past(t.defs, n, epoch)
  {
    ResumeInv(w, s, c.name, c.now, t);
    var m := Restored(s, c.name, s.defs[c.name], s.paused[c.name]);
    RestoredOneDef(s, c.name, m);
    assert DefMoves(n, m.defs[n], t.defs[n], t.notices);
  }

  lemma StepPast(w: World, s: Store, c: Command, t: Store, n: string, epoch: nat)
    requires Inv(w, s) && Callable(w, c) && t == Step(w, s, c) && Past(s.defs, n, epoch)
    ensures Past(t.defs, n, epoch)
  {
    if t != s {
      if !IsCatalog(c) {
        StepStands(w, s, c, t);
        assert DefMoves(n, s.defs[n], t.defs[n], t.notices);
      } else if c.Resuming? {
        ResumePast(w, s, c, t, n, epoch);
      } else if !c.Acknowledging? {
        PlainCatalog(w, s, c, t);
      }
    }
  }

  lemma {:induction false} AlwaysPast(w: World, commands: seq<Command>, i: nat, n: string, epoch: nat)
    requires AllCallable(w, commands) && i <= |commands| && Past(After(w, commands[..i]).defs, n, epoch)
    ensures Past(After(w, commands).defs, n, epoch)
    decreases |commands|
  {
    if i == |commands| {
      assert commands[..i] == commands;
    } else {
      var last := |commands| - 1;
      var rest := commands[..last];
      assert rest[..i] == commands[..i];
      Prefix(w, commands, last);
      AlwaysPast(w, rest, i, n, epoch);
      AlwaysInv(w, rest);
      assert commands[..last + 1] == commands;
      StepPast(w, After(w, rest), commands[last], After(w, commands), n, epoch);
    }
  }

  /** The step trips the definition's breaker. */
  ghost predicate TripsAt(w: World, commands: seq<Command>, i: nat, n: string)
    requires i < |commands|
  {
    !Broken(After(w, commands[..i]).defs, n) && Broken(After(w, commands[..i + 1]).defs, n)
  }

  /** At most one trip of a definition commits per epoch. */
  lemma OneTripPerEpoch(w: World, commands: seq<Command>, i: nat, j: nat, n: string)
    requires AllCallable(w, commands) && i < j < |commands| && TripsAt(w, commands, i, n) && TripsAt(w, commands, j, n)
    ensures After(w, commands[..i + 1]).defs[n].epoch < After(w, commands[..j + 1]).defs[n].epoch
  {
    var e := After(w, commands[..i + 1]).defs[n].epoch;
    Prefix(w, commands, j);
    assert commands[..j][..i + 1] == commands[..i + 1];
    AlwaysPast(w, commands[..j], i + 1, n, e);
    var d := After(w, commands[..j]).defs[n];
    assert d.epoch > e;
    AlwaysInv(w, commands[..j]);
    StepLater(w, After(w, commands[..j]), commands[j], After(w, commands[..j + 1]), n);
  }

  lemma StepLater(w: World, s: Store, c: Command, t: Store, n: string)
    requires Inv(w, s) && Callable(w, c) && t == Step(w, s, c) && n in s.defs
    ensures n in t.defs && t.defs[n].epoch >= s.defs[n].epoch
  {
    if t != s {
      if !IsCatalog(c) {
        StepStands(w, s, c, t);
        assert DefMoves(n, s.defs[n], t.defs[n], t.notices);
      } else if c.Resuming? {
        ResumeLater(w, s, c, t, n);
      } else if !c.Acknowledging? {
        PlainCatalog(w, s, c, t);
      }
    }
  }

  lemma ResumeLater(w: World, s: Store, c: Command, t: Store, n: string)
    requires Inv(w, s) && c.Resuming? && Resume(s, c.name, c.now) == Ok(t) && t != s && n in s.defs
    ensures n in t.defs && t.defs[n].epoch >= s.defs[n].epoch
  {
    ResumeInv(w, s, c.name, c.now, t);
    var m := Restored(s, c.name, s.defs[c.name], s.paused[c.name]);
    RestoredOneDef(s, c.name, m);
    assert DefMoves(n, m.defs[n], t.defs[n], t.notices);
  }

  // ── admissions under a trip ───────────────────────────────────────────────

  lemma ResumeVets(w: World, s: Store, c: Command, t: Store, x: Id)
    requires Inv(w, s) && c.Resuming? && Resume(s, c.name, c.now) == Ok(t) && t != s
    requires x in t.runs && x !in s.runs && Broken(s.defs, t.runs[x].admission.name)
    ensures var a := t.runs[x].admission; var d := s.defs[a.name];
            DigestOf(s.defs, a) != "" && DigestOf(s.defs, a) != d.tripped.value.digest
  {
    ResumeInv(w, s, c.name, c.now, t);
    var m := Restored(s, c.name, s.defs[c.name], s.paused[c.name]);
    RestoredWf(w, s, c.name, m);
    assert !Barred(m.defs, t.runs[x].admission);
  }

  lemma CatalogAdds(w: World, s: Store, c: Command, t: Store)
    requires Inv(w, s) && Callable(w, c) && t == Step(w, s, c) && IsCatalog(c) && !c.Resuming?
    ensures t.runs == s.runs
  {
  }

  /** While a breaker's trip stands no step admits a run of the tripped digest or of a
      version the catalog lacks, whatever path it takes. */
  lemma TrippedRefuses(w: World, commands: seq<Command>, i: nat, x: Id)
    requires AllCallable(w, commands) && i < |commands| && x in After(w, commands[..i + 1]).runs && x !in After(w, commands[..i]).runs
    requires Broken(After(w, commands[..i]).defs, After(w, commands[..i + 1]).runs[x].admission.name)
    ensures var s, a := After(w, commands[..i]), After(w, commands[..i + 1]).runs[x].admission;
            var d := s.defs[a.name];
            a.version in d.versions && d.versions[a.version].digest != d.tripped.value.digest
  {
    Prefix(w, commands, i);
    var s, c, t := After(w, commands[..i]), commands[i], After(w, commands[..i + 1]);
    AlwaysInv(w, commands[..i]);
    if !IsCatalog(c) {
      StepStands(w, s, c, t);
    } else if c.Resuming? {
      ResumeVets(w, s, c, t, x);
    } else {
      CatalogAdds(w, s, c, t);
    }
  }

  /** While a pause stands no run of the definition is admitted at all. */
  lemma PausedRefuses(w: World, commands: seq<Command>, i: nat, x: Id)
    requires AllCallable(w, commands) && i < |commands| && x in After(w, commands[..i + 1]).runs && x !in After(w, commands[..i]).runs
    ensures var s, name := After(w, commands[..i]), After(w, commands[..i + 1]).runs[x].admission.name;
            name in s.defs && s.defs[name].tripped.Some? && s.defs[name].tripped.value.manual.Some? ==>
              commands[i].Resuming? && commands[i].name == name
  {
    Prefix(w, commands, i);
    var s, c, t := After(w, commands[..i]), commands[i], After(w, commands[..i + 1]);
    AlwaysInv(w, commands[..i]);
    if !IsCatalog(c) {
      StepStands(w, s, c, t);
    } else if !c.Resuming? {
      CatalogAdds(w, s, c, t);
    } else {
      ResumeOfOther(w, s, c, t, x);
    }
  }

  lemma ResumeOfOther(w: World, s: Store, c: Command, t: Store, x: Id)
    requires Inv(w, s) && c.Resuming? && t == Step(w, s, c) && x in t.runs && x !in s.runs
    ensures var name := t.runs[x].admission.name;
            name in s.defs && s.defs[name].tripped.Some? && s.defs[name].tripped.value.manual.Some? ==> c.name == name
  {
    ResumeInv(w, s, c.name, c.now, t);
    var m := Restored(s, c.name, s.defs[c.name], s.paused[c.name]);
    RestoredWf(w, s, c.name, m);
    assert !Barred(m.defs, t.runs[x].admission);
  }
}

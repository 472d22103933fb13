/**
 The breaker's count over whole runs: from an activation on it is the streak of faults of
 the outcomes counted since, and the trip comes exactly when it first reaches the
 threshold.
 */
module ScheduleStreak {
  import opened Options
  import opened Order
  import opened Schedule
  import opened SchedulePromotion
  import opened ScheduleRuns
  import opened ScheduleBreaker
  import opened ScheduleLog
  import TI = TriggerIndex

  // ── streaks ───────────────────────────────────────────────────────────────

  /** The faults at the end of a log since its last success. */
  function Streak(log: Log): nat {
    if log == [] then 0
    else
      var last := log[|log| - 1].seen;
      if last.ASuccess? then 0 else Streak(log[..|log| - 1]) + if last.AFault? then 1 else 0
  }

  function Least(a: nat, b: nat): nat {
    if a < b then a else b
  }

  /** The `j`th outcome is a fault whose streak is as long as the policy asks: its own
      number, or the default given with that outcome, and one at least; off asks for none. */
  predicate Reaches(b: Breaker, log: Log, j: nat)
    requires 0 < j <= |log|
  {
    log[j - 1].seen.AFault? &&
    match b
    case Off => false
    case Threshold(n) => Streak(log[..j]) >= if n < 1 then 1 else n
    case Inherit => Streak(log[..j]) >= if log[j - 1].default_ < 1 then 1 else log[j - 1].default_
  }

  lemma {:induction false} JudgeIsStreak(b: Breaker, log: Log)
    requires WhileWhole(b, Tally(0, false), log)
    ensures JudgeAll(b, Tally(0, false), log).faults == Least(Streak(log), 4_294_967_295)
    ensures JudgeAll(b, Tally(0, false), log).broken <==> log != [] && Reaches(b, log, |log|)
    decreases |log|
  {
    if log != [] {
      var rest := log[..|log| - 1];
      assert forall i :: 0 <= i < |rest| ==> rest[..i] == log[..i];
      assert log[..|rest|] == rest && log[..|log|] == log;
      JudgeIsStreak(b, rest);
    }
  }

  /** The log of an unbroken definition holds no streak that reaches a threshold, and that
      of a broken one holds exactly one, at its end. */
  lemma FirstReach(b: Breaker, log: Log, j: nat)
    requires WhileWhole(b, Tally(0, false), log) && 0 < j < |log|
    ensures !Reaches(b, log, j)
  {
    var part := log[..j];
    assert forall i :: 0 <= i < |part| ==> part[..i] == log[..i];
    assert part[..j] == part;
    JudgeIsStreak(b, part);
  }

  // ── one step ──────────────────────────────────────────────────────────────

  /** An active version is one the catalog holds. */
  ghost predicate ActiveOk(defs: map<string, Definition>) {
    forall n :: n in defs && defs[n].active.Some? ==> defs[n].active.value in defs[n].versions
  }

  /** What a step other than its activation does to a definition's count. */
  ghost predicate CountedStep(d: Definition, e: Definition, log: Log) {
    && e.epoch == d.epoch && e.active == d.active && ActivePolicy(e) == ActivePolicy(d)
    && TallyOf(e) == JudgeAll(ActivePolicy(d), TallyOf(d), log)
    && WhileWhole(ActivePolicy(d), TallyOf(d), log)
  }

  lemma RunLogs(w: World, s: Store, c: Command, n: string, t: Store)
    requires Effect(w, s, c) == Ok(t) && (c.Starting? || c.Cancelling? || c.Paging? || c.Stopping?)
    ensures Logs(s, t, n, StepLog(w, s, c, n))
  {
    match c
    case Starting(a, kind, now) => StartLogs(s, a, kind, now, n, t);
    case Cancelling(id, now) => TerminateLogs(w, s, id, now, n, t);
    case Paging(limit, now) => PageLogs(w, s, c, n, t);
    case Stopping(enabled, now) => SwitchLogs(w, s, c, n, t);
  }

  lemma PageLogs(w: World, s: Store, c: Command, n: string, t: Store)
    requires Effect(w, s, c) == Ok(t) && c.Paging?
    ensures Logs(s, t, n, StepLog(w, s, c, n))
  {
    if s.stopped {
      LogsSame(s, t, n);
    } else {
      PendingLogs(s, c.limit, c.now, n, t);
    }
  }

  lemma SwitchLogs(w: World, s: Store, c: Command, n: string, t: Store)
    requires Effect(w, s, c) == Ok(t) && c.Stopping?
    ensures Logs(s, t, n, StepLog(w, s, c, n))
  {
    if s.stopped && !c.enabled {
      var m := s.(stopped := false);
      PendingLogs(m, MAX_PAGE, c.now, n, t);
      LogsThen(s, m, t, n, StepLog(w, s, c, n));
    } else {
      LogsSame(s, t, n);
    }
  }

  lemma StartLogs(s: Store, a: Admission, kind: Kind, now: int, n: string, t: Store)
    requires Start(s, a, kind, now) == Ok(t)
    ensures Logs(s, t, n, MarkedLog(s, a.name, now, n))
  {
    var m, log := DrainMarked(s, a.name, now).s, MarkedLog(s, a.name, now, n);
    MarkedLogs(s, a.name, now, n, m);
    if t != m {
      TI.InsertFrame(m, a, kind, None, None, t);
      LogsSame(m, t, n);
      LogsOn(s, m, t, n, log, []);
      assert log + [] == log;
    }
  }

  lemma FinishCounts(w: World, s: Store, c: Command, n: string, t: Store)
    requires c.Finishing? && Effect(w, s, c) == Ok(t)
    ensures Counts(s, t, n, StepLog(w, s, c, n))
  {
    var r := s.runs[c.id];
    var m := Observe(s, r.admission, r.epoch, c.seen, c.threshold, c.now);
    ObserveCounts(s, r.admission, r.epoch, c.seen, c.threshold, c.now, n, m);
    TerminateLogs(w, m, c.id, c.now, n, t);
    CountsOn(s, m, t, n, ObserveLog(s, r.admission, r.epoch, c.seen, c.threshold, n), TerminateLog(w, m, c.id, c.now, n));
  }

  lemma CountsMeans(s: Store, t: Store, n: string, log: Log)
    requires Counts(s, t, n, log) && n in s.defs
    ensures n in t.defs && CountedStep(s.defs[n], t.defs[n], log)
  {
    assert DefMoves(n, s.defs[n], t.defs[n], t.notices);
  }

  lemma RunCounted(w: World, s: Store, c: Command, n: string, t: Store)
    requires Effect(w, s, c) == Ok(t) && !IsCatalog(c) && n in s.defs
    ensures n in t.defs && CountedStep(s.defs[n], t.defs[n], StepLog(w, s, c, n))
  {
    if c.Finishing? {
      FinishCounts(w, s, c, n, t);
    } else if c.Firing_? {
      FireLogs(w, s, c.f, c.now, n, t);
    } else {
      RunLogs(w, s, c, n, t);
    }
    CountsMeans(s, t, n, StepLog(w, s, c, n));
  }

  lemma SameCount(d: Definition, e: Definition)
    requires e.epoch == d.epoch && e.active == d.active && ActivePolicy(e) == ActivePolicy(d) && TallyOf(e) == TallyOf(d)
    ensures CountedStep(d, e, [])
  {
  }

  lemma CatalogCounted(w: World, s: Store, c: Command, n: string, t: Store)
    requires Inv(w, s) && ActiveOk(s.defs) && Effect(w, s, c) == Ok(t) && IsCatalog(c) && !c.Resuming? && n in s.defs && !Activates(c, n)
    ensures n in t.defs && CountedStep(s.defs[n], t.defs[n], [])
  {
    CatalogSame(w, s, c, n, t);
    SameCount(s.defs[n], t.defs[n]);
  }

  lemma CatalogSame(w: World, s: Store, c: Command, n: string, t: Store)
    requires ActiveOk(s.defs) && Effect(w, s, c) == Ok(t) && IsCatalog(c) && !c.Resuming? && n in s.defs && !Activates(c, n)
    ensures n in t.defs && t.defs[n].epoch == s.defs[n].epoch && t.defs[n].active == s.defs[n].active
    ensures ActivePolicy(t.defs[n]) == ActivePolicy(s.defs[n]) && TallyOf(t.defs[n]) == TallyOf(s.defs[n])
  {
    if c.Pausing? {
      PauseSame(s, c, n, t);
    } else if c.Saving? {
      SaveSame(s, c, n, t);
    }
  }

  lemma PauseSame(s: Store, c: Command, n: string, t: Store)
    requires c.Pausing? && Pause(s, c.name, c.reason, c.now) == Ok(t) && n in s.defs
    ensures n in t.defs && t.defs[n].epoch == s.defs[n].epoch && t.defs[n].active == s.defs[n].active
    ensures t.defs[n].versions == s.defs[n].versions && TallyOf(t.defs[n]) == TallyOf(s.defs[n])
  {
  }

  lemma SaveForm(s: Store, name: string, version: nat, v: Version, t: Store, n: string, e: Definition)
    requires t == SaveDefinition(s, name, version, v) && n in s.defs
    requires e == if n == name && version !in s.defs[n].versions then s.defs[n].(versions := s.defs[n].versions[version := v]) else s.defs[n]
    ensures n in t.defs && t.defs[n] == e
  {
  }

  lemma SaveSame(s: Store, c: Command, n: string, t: Store)
    requires c.Saving? && t == SaveDefinition(s, c.name, c.version, c.v) && n in s.defs && ActiveOk(s.defs)
    ensures n in t.defs && t.defs[n].epoch == s.defs[n].epoch && t.defs[n].active == s.defs[n].active
    ensures ActivePolicy(t.defs[n]) == ActivePolicy(s.defs[n]) && TallyOf(t.defs[n]) == TallyOf(s.defs[n])
  {
    var d := s.defs[n];
    var e := if n == c.name && c.version !in d.versions then d.(versions := d.versions[c.version := c.v]) else d;
    SaveForm(s, c.name, c.version, c.v, t, n, e);
    if e != d {
      NewVersion(d, c.version, c.v);
    }
  }

  lemma NewVersion(d: Definition, version: nat, v: Version)
    requires version !in d.versions && (d.active.Some? ==> d.active.value in d.versions)
    ensures ActivePolicy(d.(versions := d.versions[version := v])) == ActivePolicy(d)
  {
  }

  lemma ResumeCounted(w: World, s: Store, c: Command, n: string, t: Store)
    requires Inv(w, s) && c.Resuming? && Effect(w, s, c) == Ok(t) && n in s.defs
    ensures n in t.defs && CountedStep(s.defs[n], t.defs[n], StepLog(w, s, c, n))
  {
    if t == s && (s.defs[c.name].tripped.None? || c.name !in s.paused) {
      SameCount(s.defs[n], t.defs[n]);
    } else {
      var m := Restored(s, c.name, s.defs[c.name], s.paused[c.name]);
      DrainLogs(m, c.name, c.now, n, t);
      CountsMeans(m, t, n, DrainLog(m, c.name, c.now, n));
      RestoredCount(s, c.name, n, m);
    }
  }

  lemma RestoredCount(s: Store, name: string, n: string, m: Store)
    requires name in s.defs && s.defs[name].tripped.Some? && name in s.paused && n in s.defs
    requires m == Restored(s, name, s.defs[name], s.paused[name])
    ensures n in m.defs && TallyOf(m.defs[n]) == TallyOf(s.defs[n])
    ensures m.defs[n].epoch == s.defs[n].epoch && m.defs[n].active == s.defs[n].active && m.defs[n].versions == s.defs[n].versions
  {
  }

  /** Every step but its activation moves a definition's count by the outcomes it counts. */
  lemma StepCounted(w: World, s: Store, c: Command, t: Store, n: string)
    requires Inv(w, s) && ActiveOk(s.defs) && t == Step(w, s, c) && n in s.defs && !Activates(c, n)
    ensures n in t.defs && CountedStep(s.defs[n], t.defs[n], StepLog(w, s, c, n))
  {
    if Effect(w, s, c).Err? {
      SameCount(s.defs[n], t.defs[n]);
    } else if !IsCatalog(c) {
      RunCounted(w, s, c, n, t);
    } else if c.Resuming? {
      ResumeCounted(w, s, c, n, t);
    } else {
      CatalogCounted(w, s, c, n, t);
    }
  }

  // ── whole runs ────────────────────────────────────────────────────────────

  lemma ResumeActive(w: World, s: Store, name: string, now: int, t: Store)
    requires Inv(w, s) && ActiveOk(s.defs) && Resume(s, name, now) == Ok(t) && t != s
    ensures ActiveOk(t.defs)
  {
    ResumeInv(w, s, name, now, t);
    var m := Restored(s, name, s.defs[name], s.paused[name]);
    assert ActiveOk(m.defs);
    StandsActive(m, t);
  }

  lemma StepActive(w: World, s: Store, c: Command, t: Store)
    requires Inv(w, s) && Callable(w, c) && ActiveOk(s.defs) && t == Step(w, s, c)
    ensures ActiveOk(t.defs)
  {
    if t != s {
      if !IsCatalog(c) {
        StepStands(w, s, c, t);
        StandsActive(s, t);
      } else if c.Resuming? {
        ResumeActive(w, s, c.name, c.now, t);
      } else if !c.Acknowledging? {
        CatalogActive(w, s, c, t);
      }
    }
  }

  lemma StandsActive(s: Store, t: Store)
    requires TripsStand(s, t) && ActiveOk(s.defs)
    ensures ActiveOk(t.defs)
  {
    forall n | n in t.defs && t.defs[n].active.Some? ensures t.defs[n].active.value in t.defs[n].versions {
      assert DefMoves(n, s.defs[n], t.defs[n], t.notices);
    }
  }

  lemma CatalogActive(w: World, s: Store, c: Command, t: Store)
    requires ActiveOk(s.defs) && Effect(w, s, c) == Ok(t) && (c.Activating? || c.Saving? || c.Pausing?)
    ensures ActiveOk(t.defs)
  {
  }

  lemma {:induction false} AlwaysActive(w: World, commands: seq<Command>)
    requires AllCallable(w, commands)
    ensures ActiveOk(After(w, commands).defs)
    decreases |commands|
  {
    if commands != [] {
      var last := |commands| - 1;
      Prefix(w, commands, last);
      assert commands[..last + 1] == commands;
      AlwaysActive(w, commands[..last]);
      AlwaysInv(w, commands[..last]);
      StepActive(w, After(w, commands[..last]), commands[last], After(w, commands));
    }
  }

  /** The outcomes counted for a definition by the commands from `i` on. */
  function LogSince(w: World, commands: seq<Command>, i: nat, n: string): Log
    decreases |commands|
  {
    if |commands| <= i then []
    else
      var rest := commands[..|commands| - 1];
      LogSince(w, rest, i, n) + StepLog(w, After(w, rest), commands[|commands| - 1], n)
  }

  lemma CountedOn(d: Definition, e: Definition, f: Definition, log: Log, more: Log)
    requires CountedStep(d, e, log) && CountedStep(e, f, more)
    ensures CountedStep(d, f, log + more)
  {
    JudgeOn(ActivePolicy(d), TallyOf(d), log, more);
    WholeOn(ActivePolicy(d), TallyOf(d), log, more);
  }

  lemma {:induction false} CountedSince(w: World, commands: seq<Command>, i: nat, n: string)
    requires AllCallable(w, commands) && i <= |commands| && NotActivated(commands, i, n) && n in After(w, commands[..i]).defs
    ensures n in After(w, commands).defs
    ensures CountedStep(After(w, commands[..i]).defs[n], After(w, commands).defs[n], LogSince(w, commands, i, n))
    decreases |commands|
  {
    if i == |commands| {
      assert commands[..i] == commands;
      SameCount(After(w, commands).defs[n], After(w, commands).defs[n]);
    } else {
      var last := |commands| - 1;
      var rest := commands[..last];
      Prefix(w, commands, last);
      assert rest[..i] == commands[..i] && commands[..last + 1] == commands;
      assert forall m :: 0 <= m < |rest| ==> rest[m] == commands[m];
      CountedSince(w, rest, i, n);
      CountedLast(w, commands, rest, After(w, commands[..i]).defs[n], LogSince(w, rest, i, n), n);
    }
  }

  lemma CountedLast(w: World, commands: seq<Command>, rest: seq<Command>, d: Definition, log: Log, n: string)
    requires commands != [] && rest == commands[..|commands| - 1] && AllCallable(w, rest) && AllCallable(w, commands)
    requires !Activates(commands[|commands| - 1], n) && n in After(w, rest).defs && CountedStep(d, After(w, rest).defs[n], log)
    ensures n in After(w, commands).defs
    ensures CountedStep(d, After(w, commands).defs[n], log + StepLog(w, After(w, rest), commands[|commands| - 1], n))
  {
    var s, c, t := After(w, rest), commands[|commands| - 1], After(w, commands);
    AlwaysInv(w, rest);
    AlwaysActive(w, rest);
    StepCounted(w, s, c, t, n);
    CountedOn(d, s.defs[n], t.defs[n], log, StepLog(w, s, c, n));
  }

  lemma Activated(w: World, s: Store, c: Command, t: Store)
    requires c.Activating? && t == Step(w, s, c) && t != s
    ensures c.name in t.defs && TallyOf(t.defs[c.name]) == Tally(0, false) && t.defs[c.name].active == Some(c.version)
  {
  }

  /** From an activation on, the count is the streak of faults of the outcomes counted
      since, the definition is tripped exactly when the last of them completed a streak
      that reaches the threshold in force for it, and no earlier one did. */
  lemma BreakerCounts(w: World, commands: seq<Command>, i: nat, n: string)
    requires AllCallable(w, commands) && i < |commands| && Activates(commands[i], n) && After(w, commands[..i + 1]) != After(w, commands[..i])
    requires NotActivated(commands, i + 1, n)
    ensures n in After(w, commands).defs && n in After(w, commands[..i + 1]).defs
    ensures commands[i].version in After(w, commands[..i + 1]).defs[n].versions
    ensures var d, log := After(w, commands).defs[n], LogSince(w, commands, i + 1, n);
            var policy := After(w, commands[..i + 1]).defs[n].versions[commands[i].version].breaker;
            && d.epoch == After(w, commands[..i + 1]).defs[n].epoch && d.active == Some(commands[i].version)
            && d.faults == Least(Streak(log), 4_294_967_295)
            && (Broken(After(w, commands).defs, n) <==> log != [] && Reaches(policy, log, |log|))
            && (forall j :: 0 < j < |log| ==> !Reaches(policy, log, j))
  {
    Prefix(w, commands, i);
    Activated(w, After(w, commands[..i]), commands[i], After(w, commands[..i + 1]));
    CountedSince(w, commands, i + 1, n);
    var log, policy := LogSince(w, commands, i + 1, n), ActivePolicy(After(w, commands[..i + 1]).defs[n]);
    JudgeIsStreak(policy, log);
    forall j | 0 < j < |log| ensures !Reaches(policy, log, j) {
      FirstReach(policy, log, j);
    }
  }

  /** So a version whose breaker is off never trips it. */
  lemma OffNeverTrips(w: World, commands: seq<Command>, i: nat, n: string)
    requires AllCallable(w, commands) && i < |commands| && Activates(commands[i], n) && After(w, commands[..i + 1]) != After(w, commands[..i])
    requires NotActivated(commands, i + 1, n) && n in After(w, commands[..i + 1]).defs
    requires var d := After(w, commands[..i + 1]).defs[n]; commands[i].version in d.versions && d.versions[commands[i].version].breaker.Off?
    ensures !Broken(After(w, commands).defs, n)
  {
    BreakerCounts(w, commands, i, n);
  }

  // ── whose outcomes count ──────────────────────────────────────────────────

  /** A run of the active version, admitted in the epoch, that the step ended or stored as
      refused. */
  ghost predicate EndedNow(s: Store, t: Store, n: string, x: Id) {
    && n in s.defs && x in t.runs && !t.runs[x].live && t.runs[x].admission.name == n
    && s.defs[n].active == Some(t.runs[x].admission.version) && t.runs[x].epoch == Some(s.defs[n].epoch)
    && (x !in s.runs || s.runs[x].live)
  }

  lemma LoggedRun(s: Store, t: Store, n: string, log: Log)
    requires Logs(s, t, n, log) && log != []
    ensures EndedNow(s, t, n, log[0].run.id) && s.defs[n].tripped.None?
  {
    assert IsBehind(t, s.defs[n].epoch, log[0]);
  }

  lemma FinishedRun(w: World, s: Store, c: Command, n: string, t: Store)
    requires c.Finishing? && Effect(w, s, c) == Ok(t) && StepLog(w, s, c, n) != [] && n in s.defs
    ensures s.defs[n].tripped.None? && exists x :: EndedNow(s, t, n, x)
  {
    var r := s.runs[c.id];
    var m := Observe(s, r.admission, r.epoch, c.seen, c.threshold, c.now);
    TI.ObserveTrig(s, r.admission, r.epoch, c.seen, c.threshold, c.now, m);
    TerminateLogs(w, m, c.id, c.now, n, t);
    if r.admission.name == n && Observes(s, r.admission, r.epoch) {
      assert EndedNow(s, t, n, c.id);
    } else {
      var log := TerminateLog(w, m, c.id, c.now, n);
      LoggedRun(m, t, n, log);
      assert DefMoves(n, s.defs[n], m.defs[n], m.notices);
      assert EndedNow(s, t, n, log[0].run.id);
    }
  }

  lemma ResumeLogged(w: World, s: Store, name: string, now: int, n: string, t: Store, log: Log)
    requires Inv(w, s) && Resume(s, name, now) == Ok(t) && t != s && n in s.defs
    requires name in s.defs && name in s.paused
    requires log == DrainLog(Restored(s, name, s.defs[name], s.paused[name]), name, now, n) && log != []
    ensures (s.defs[n].tripped.None? || name == n) && exists x :: EndedNow(s, t, n, x)
  {
    ResumeInv(w, s, name, now, t);
    var m := Restored(s, name, s.defs[name], s.paused[name]);
    RestoredRows(w, s, name, m);
    RestoredCount(s, name, n, m);
    DrainLogs(m, name, now, n, t);
    LoggedRun(m, t, n, log);
    assert EndedNow(s, t, n, log[0].run.id);
  }

  lemma ResumedRun(w: World, s: Store, c: Command, n: string, t: Store)
    requires Inv(w, s) && c.Resuming? && Effect(w, s, c) == Ok(t) && t != s && n in s.defs && StepLog(w, s, c, n) != []
    ensures (s.defs[n].tripped.None? || c.name == n) && exists x :: EndedNow(s, t, n, x)
  {
    ResumeLogged(w, s, c.name, c.now, n, t, StepLog(w, s, c, n));
  }

  lemma StepsRun(w: World, s: Store, c: Command, t: Store, n: string)
    requires Effect(w, s, c) == Ok(t) && n in s.defs && !IsCatalog(c) && StepLog(w, s, c, n) != []
    ensures s.defs[n].tripped.None? && exists x :: EndedNow(s, t, n, x)
  {
    var log := StepLog(w, s, c, n);
    if c.Finishing? {
      FinishedRun(w, s, c, n, t);
    } else if c.Firing_? {
      FireLogs(w, s, c.f, c.now, n, t);
      LoggedRun(s, t, n, log);
    } else {
      RunLogs(w, s, c, n, t);
      LoggedRun(s, t, n, log);
    }
  }

  /** In every run, if a step changes a definition's count within its epoch, nothing was
      tripped, unless by the pause the step lifts, and the step ended, or stored as
      refused, a run of the active version admitted in that epoch. */
  lemma OnlyItsRunsCount(w: World, commands: seq<Command>, i: nat, n: string)
    requires AllCallable(w, commands) && i < |commands| && !Activates(commands[i], n)
    requires n in After(w, commands[..i]).defs && n in After(w, commands[..i + 1]).defs
    requires After(w, commands[..i + 1]).defs[n].faults != After(w, commands[..i]).defs[n].faults
    ensures var s, t := After(w, commands[..i]), After(w, commands[..i + 1]);
            && (s.defs[n].tripped.None? || (commands[i].Resuming? && commands[i].name == n))
            && exists x :: EndedNow(s, t, n, x)
  {
    Prefix(w, commands, i);
    var s, c, t := After(w, commands[..i]), commands[i], After(w, commands[..i + 1]);
    AlwaysInv(w, commands[..i]);
    AlwaysActive(w, commands[..i]);
    StepCounted(w, s, c, t, n);
    assert StepLog(w, s, c, n) != [];
    if c.Resuming? {
      ResumedRun(w, s, c, n, t);
    } else {
      NotCatalog(w, s, c, n);
      StepsRun(w, s, c, t, n);
    }
  }

  lemma NotCatalog(w: World, s: Store, c: Command, n: string)
    requires StepLog(w, s, c, n) != [] && !c.Resuming?
    ensures !IsCatalog(c)
  {
  }
}

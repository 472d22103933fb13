/**
 What the breaker of a definition observed: the outcomes each step counted, in the order
 they were counted, and the tally they amount to.
 */
module ScheduleLog {
  import opened Options
  import opened Order
  import opened Schedule
  import opened SchedulePromotion
  import TI = TriggerIndex

  /** A counted outcome, with the host's default threshold that came with it. */
  datatype Outcome_ = Outcome_(run: Admission, seen: Seen, default_: Count)
  type Log = seq<Outcome_>

  // ── the outcomes a step counts for a definition ───────────────────────────

  function ObserveLog(s: Store, run: Admission, epoch: Option<nat>, seen: Seen, default_: Count, n: string): Log {
    if run.name == n && Observes(s, run, epoch) then [Outcome_(run, seen, default_)] else []
  }

  function RefuseLog(s: Store, a: Admission, f: Fault, n: string): Log {
    if a.id !in s.runs && MayInsert(s, a) then
      ObserveLog(Inserted(s, a, None, None, false), a, EpochOf(s.defs, a), AFault, f.threshold, n)
    else []
  }

  function DrainOneLog(s: Store, row: Key, n: string): Log {
    var k := row.1;
    if k !in s.queue || s.queue[k].failure.None? || k !in s.triggers then []
    else if LiveOf(s.runs, k) != {} || !Capacity(s.runs, s.queue[k].admission.name, s.queue[k].ceiling) then []
    else RefuseLog(RemoveQueue(s, k), s.queue[k].admission, s.queue[k].failure.value, n)
  }

  function DrainKeysLog(s: Store, keys: seq<Key>, now: int, n: string): Log
    decreases |keys|
  {
    if keys == [] || DrainOne(s, keys[0], now).Err? then []
    else DrainOneLog(s, keys[0], n) + DrainKeysLog(DrainOne(s, keys[0], now).s, keys[1..], now, n)
  }

  function DrainLog(s: Store, name: string, now: int, n: string): Log {
    if s.stopped then [] else DrainKeysLog(s, Sorted(QueueRows(s, name)), now, n)
  }

  function DrainNamesLog(s: Store, names: seq<Key>, now: int, n: string): Log
    decreases |names|
  {
    if names == [] || Drain(s, names[0].0, now).Err? then []
    else DrainLog(s, names[0].0, now, n) + DrainNamesLog(Drain(s, names[0].0, now).s, names[1..], now, n)
  }

  function Unmarked(s: Store, name: string): Store {
    s.(drain := s.drain - {name})
  }

  function MarkedLog(s: Store, name: string, now: int, n: string): Log {
    if name in s.drain && !s.stopped then DrainLog(Unmarked(s, name), name, now, n) else []
  }

  function MarksLog(s: Store, names: seq<Key>, now: int, n: string): Log
    decreases |names|
  {
    if names == [] || Drain(Unmarked(s, names[0].0), names[0].0, now).Err? then []
    else
      DrainLog(Unmarked(s, names[0].0), names[0].0, now, n) +
      MarksLog(Drain(Unmarked(s, names[0].0), names[0].0, now).s, names[1..], now, n)
  }

  function PendingLog(s: Store, limit: nat, now: int, n: string): Log {
    var names := Sorted(AsKeys(s.drain));
    MarksLog(s, if |names| <= limit then names else names[..limit], now, n)
  }

  function TerminateLog(w: World, s: Store, id: Id, now: int, n: string): Log {
    if id !in s.runs || !s.runs[id].live then []
    else
      DrainNamesLog(Rearmed(s.(runs := EndRuns(w, s.runs, id)), s.runs[id], now), Sorted(AsKeys(EndedNames(w, s.runs, id))), now, n)
  }

  function TerminateAllLog(w: World, s: Store, ids: seq<Key>, now: int, n: string): Log
    decreases |ids|
  {
    if ids == [] || Terminate(w, s, ids[0].0, now).Err? then []
    else TerminateLog(w, s, ids[0].0, now, n) + TerminateAllLog(w, Terminate(w, s, ids[0].0, now).s, ids[1..], now, n)
  }

  function CommitLog(s: Store, f: Firing, n: string): Log {
    var b := AdmitAll(PutTrigger(s, f.key, f.expected, f.next), f, f.admit);
    if b.Err? || f.refused.None? then [] else RefuseLog(b.s, f.refused.value.admission, f.refused.value.fault, n)
  }

  function FireSlotLog(s: Store, f: Firing, g: Guard, a: Admission, busy: bool, n: string): Log {
    if !Capacity(s.runs, a.name, g.max) || (busy && (g.policy.Skip? || g.policy.Queue?)) then [] else CommitLog(s, f, n)
  }

  function FireCheckedLog(w: World, s: Store, f: Firing, now: int, n: string): Log {
    if f.ingested then []
    else
      var a := Candidate(f);
      if f.overlap.Some? && a.Some? then
        var g, live := f.overlap.value, LiveOf(s.runs, f.key);
        if a.value.id in s.runs then CommitLog(s, f, n)
        else if g.policy.Replace? then
          var m := TerminateAll(w, s, Sorted(AsKeys(live)), now);
          if m.Err? then []
          else TerminateAllLog(w, s, Sorted(AsKeys(live)), now, n) + FireSlotLog(m.s, f, g, a.value, live != {}, n)
        else FireSlotLog(s, f, g, a.value, live != {}, n)
      else if f.busy.Some? && a.Some? && f.key in s.last && s.last[f.key] in s.runs && s.runs[s.last[f.key]].live then []
      else CommitLog(s, f, n)
  }

  function FireLog(w: World, s: Store, f: Firing, now: int, n: string): Log {
    if s.stopped then []
    else
      var a := Candidate(f);
      var m := if a.Some? then DrainMarked(s, a.value.name, now) else Ok(s);
      var first := if a.Some? then MarkedLog(s, a.value.name, now, n) else [];
      if m.Err? then []
      else if Fire(w, s, f, now) == FireChecked(w, m.s, f, now) then first + FireCheckedLog(w, m.s, f, now, n)
      else first
  }

  /** The outcomes of one committed step. */
  function StepLog(w: World, s: Store, c: Command, n: string): Log {
    if Effect(w, s, c).Err? then []
    else
      match c
      case Starting(a, _, now) => MarkedLog(s, a.name, now, n)
      case Firing_(f, now) => FireLog(w, s, f, now, n)
      case Finishing(id, seen, threshold, now) =>
        if id in s.runs then
          var r := s.runs[id];
          ObserveLog(s, r.admission, r.epoch, seen, threshold, n) +
          TerminateLog(w, Observe(s, r.admission, r.epoch, seen, threshold, now), id, now, n)
        else []
      case Cancelling(id, now) => TerminateLog(w, s, id, now, n)
      case Resuming(name, now) =>
        if name in s.defs && s.defs[name].tripped.Some? && name in s.paused then
          DrainLog(Restored(s, name, s.defs[name], s.paused[name]), name, now, n)
        else []
      case Stopping(enabled, now) => if s.stopped && !enabled then PendingLog(s.(stopped := false), MAX_PAGE, now, n) else []
      case Paging(limit, now) => if s.stopped then [] else PendingLog(s, limit, now, n)
      case _ => []
  }

  // ── the tally of a log ────────────────────────────────────────────────────

  datatype Tally = Tally(faults: Count, broken: bool)

  function TallyOf(d: Definition): Tally {
    Tally(d.faults, d.tripped.Some? && d.tripped.value.breaker)
  }

  function ActivePolicy(d: Definition): Breaker {
    if d.active.Some? then PolicyOf(d, d.active.value) else Inherit
  }

  function Judge(b: Breaker, y: Tally, o: Outcome_): Tally {
    match o.seen
    case Neither => y
    case ASuccess => y.(faults := 0)
    case AFault =>
      var faults := if y.faults < MAX_COUNT then y.faults + 1 else MAX_COUNT;
      var threshold := Effective(b, o.default_);
      Tally(faults, threshold.Some? && faults >= threshold.value)
  }

  function JudgeAll(b: Breaker, y: Tally, log: Log): Tally
    decreases |log|
  {
    if log == [] then y else Judge(b, JudgeAll(b, y, log[..|log| - 1]), log[|log| - 1])
  }

  /** Each outcome was counted before the breaker tripped. */
  ghost predicate WhileWhole(b: Breaker, y: Tally, log: Log) {
    forall i :: 0 <= i < |log| ==> !JudgeAll(b, y, log[..i]).broken
  }

  lemma {:induction false} JudgeOn(b: Breaker, y: Tally, log: Log, more: Log)
    ensures JudgeAll(b, y, log + more) == JudgeAll(b, JudgeAll(b, y, log), more)
    decreases |more|
  {
    if more == [] {
      assert log + more == log;
    } else {
      var all := log + more;
      assert all[..|all| - 1] == log + more[..|more| - 1];
      JudgeOn(b, y, log, more[..|more| - 1]);
    }
  }

  lemma WholeOn(b: Breaker, y: Tally, log: Log, more: Log)
    requires WhileWhole(b, y, log) && WhileWhole(b, JudgeAll(b, y, log), more)
    ensures WhileWhole(b, y, log + more)
  {
    var all := log + more;
    forall i | 0 <= i < |all| ensures !JudgeAll(b, y, all[..i]).broken {
      if i < |log| {
        assert all[..i] == log[..i];
      } else {
        assert all[..i] == log + more[..i - |log|];
        JudgeOn(b, y, log, more[..i - |log|]);
      }
    }
  }

  /** The definition after the step is the one before with the log counted. */
  ghost predicate Tallied(d: Definition, e: Definition, log: Log) {
    && (log != [] ==> d.tripped.None?)
    && (forall i :: 0 <= i < |log| ==> d.active == Some(log[i].run.version))
    && TallyOf(e) == JudgeAll(ActivePolicy(d), TallyOf(d), log)
    && WhileWhole(ActivePolicy(d), TallyOf(d), log)
  }

  lemma TalliedOn(d: Definition, e: Definition, f: Definition, log: Log, more: Log)
    requires Tallied(d, e, log) && Tallied(e, f, more) && e.active == d.active && e.versions == d.versions && (d.tripped.Some? ==> e.tripped.Some?)
    ensures Tallied(d, f, log + more)
  {
    var b := ActivePolicy(d);
    JudgeOn(b, TallyOf(d), log, more);
    WholeOn(b, TallyOf(d), log, more);
  }

  lemma TalliedNone(d: Definition)
    ensures Tallied(d, d, [])
  {
  }

  ghost predicate Counts(s: Store, t: Store, n: string, log: Log) {
    && TripsStand(s, t)
    && if n in s.defs then Tallied(s.defs[n], t.defs[n], log) else log == []
  }

  lemma CountsOn(s: Store, m: Store, t: Store, n: string, log: Log, more: Log)
    requires Counts(s, m, n, log) && Counts(m, t, n, more)
    ensures Counts(s, t, n, log + more)
  {
    TripsStandOn(s, m, t);
    if n in s.defs {
      assert DefMoves(n, s.defs[n], m.defs[n], m.notices);
      TalliedOn(s.defs[n], m.defs[n], t.defs[n], log, more);
    }
  }

  lemma CountsSame(s: Store, t: Store, n: string)
    requires TripsStand(s, t) && t.defs == s.defs
    ensures Counts(s, t, n, [])
  {
    if n in s.defs {
      TalliedNone(s.defs[n]);
    }
  }

  lemma CountsThen(s: Store, m: Store, t: Store, n: string, log: Log)
    requires TripsStand(s, m) && m.defs == s.defs && Counts(m, t, n, log)
    ensures Counts(s, t, n, log)
  {
    CountsSame(s, m, n);
    CountsOn(s, m, t, n, [], log);
    assert [] + log == log;
  }

  // ── every function counts what its log says ───────────────────────────────

  lemma OneJudged(d: Definition, e: Definition, o: Outcome_)
    requires d.active == Some(o.run.version) && d.tripped.None? && TallyOf(e) == Judge(ActivePolicy(d), TallyOf(d), o)
    ensures Tallied(d, e, [o])
  {
    var log := [o];
    assert log[..0] == [];
    assert JudgeAll(ActivePolicy(d), TallyOf(d), log[..0]) == TallyOf(d);
  }

  lemma FaultJudged(s: Store, run: Admission, epoch: Option<nat>, default_: Count, now: int, t: Store)
    requires t == Observe(s, run, epoch, AFault, default_, now) && Observes(s, run, epoch)
    ensures run.name in t.defs && t.defs == s.defs[run.name := t.defs[run.name]]
    ensures TallyOf(t.defs[run.name]) == Judge(ActivePolicy(s.defs[run.name]), TallyOf(s.defs[run.name]), Outcome_(run, AFault, default_))
  {
    var d := s.defs[run.name];
    var c, threshold := Counted(d), Effective(PolicyOf(d, run.version), default_);
    assert ActivePolicy(d) == PolicyOf(d, run.version);
    if threshold.Some? && c.faults >= threshold.value {
      assert t == Tripped(s, run, c, threshold.value, now);
    }
  }

  lemma ObserveJudges(s: Store, run: Admission, epoch: Option<nat>, seen: Seen, default_: Count, now: int, t: Store)
    requires t == Observe(s, run, epoch, seen, default_, now) && Observes(s, run, epoch)
    ensures run.name in t.defs && t.defs == s.defs[run.name := t.defs[run.name]]
    ensures TallyOf(t.defs[run.name]) == Judge(ActivePolicy(s.defs[run.name]), TallyOf(s.defs[run.name]), Outcome_(run, seen, default_))
  {
    if seen.AFault? {
      FaultJudged(s, run, epoch, default_, now, t);
    } else {
      OtherJudged(s, run, epoch, seen, default_, now, t);
    }
  }

  lemma OtherForm(s: Store, run: Admission, epoch: Option<nat>, seen: Seen, default_: Count, now: int, t: Store, e: Definition)
    requires t == Observe(s, run, epoch, seen, default_, now) && Observes(s, run, epoch) && !seen.AFault?
    requires e == if seen.ASuccess? then s.defs[run.name].(faults := 0) else s.defs[run.name]
    ensures t.defs == s.defs[run.name := e]
  {
    if t == s {
      assert e == s.defs[run.name];
    }
  }

  lemma OtherJudged(s: Store, run: Admission, epoch: Option<nat>, seen: Seen, default_: Count, now: int, t: Store)
    requires t == Observe(s, run, epoch, seen, default_, now) && Observes(s, run, epoch) && !seen.AFault?
    ensures run.name in t.defs && t.defs == s.defs[run.name := t.defs[run.name]]
    ensures TallyOf(t.defs[run.name]) == Judge(ActivePolicy(s.defs[run.name]), TallyOf(s.defs[run.name]), Outcome_(run, seen, default_))
  {
    var e := if seen.ASuccess? then s.defs[run.name].(faults := 0) else s.defs[run.name];
    OtherForm(s, run, epoch, seen, default_, now, t, e);
  }

  lemma ObserveCounts(s: Store, run: Admission, epoch: Option<nat>, seen: Seen, default_: Count, now: int, n: string, t: Store)
    requires t == Observe(s, run, epoch, seen, default_, now)
    ensures Counts(s, t, n, ObserveLog(s, run, epoch, seen, default_, n))
  {
    TI.ObserveTrig(s, run, epoch, seen, default_, now, t);
    if Observes(s, run, epoch) {
      ObserveJudges(s, run, epoch, seen, default_, now, t);
      if run.name == n {
        OneJudged(s.defs[n], t.defs[n], Outcome_(run, seen, default_));
      } else if n in s.defs {
        TalliedNone(s.defs[n]);
      }
    } else if n in s.defs {
      TalliedNone(s.defs[n]);
    }
  }

  // ── and the runs behind it ────────────────────────────────────────────────

  /** Runs stay, may end, and do not live again. */
  ghost predicate RowsGrow(a: map<Id, Run>, b: map<Id, Run>) {
    forall x :: x in a ==> x in b && b[x].admission == a[x].admission && b[x].epoch == a[x].epoch && (b[x].live ==> a[x].live)
  }

  /** An outcome's run: stored, ended, of the definition's epoch. */
  ghost predicate IsBehind(t: Store, epoch: nat, o: Outcome_) {
    && o.run.id in t.runs && t.runs[o.run.id].admission == o.run && !t.runs[o.run.id].live
    && t.runs[o.run.id].epoch == Some(epoch)
  }

  /** The outcomes are those of refused runs the step stored. */
  ghost predicate Behind(s: Store, t: Store, n: string, log: Log) {
    forall i :: 0 <= i < |log| ==> NewBehind(s, t, n, log[i])
  }

  ghost predicate NewBehind(s: Store, t: Store, n: string, o: Outcome_) {
    n in s.defs && o.run.name == n && o.run.id !in s.runs && IsBehind(t, s.defs[n].epoch, o)
  }

  ghost predicate Logs(s: Store, t: Store, n: string, log: Log) {
    Counts(s, t, n, log) && RowsGrow(s.runs, t.runs) && Behind(s, t, n, log)
  }

  lemma BehindOn(s: Store, m: Store, t: Store, n: string, log: Log, more: Log)
    requires TripsStand(s, m) && RowsGrow(s.runs, m.runs) && RowsGrow(m.runs, t.runs) && Behind(s, m, n, log) && Behind(m, t, n, more)
    ensures Behind(s, t, n, log + more)
  {
    var all := log + more;
    if n in s.defs {
      assert DefMoves(n, s.defs[n], m.defs[n], m.notices);
    }
    forall i | 0 <= i < |all|
      ensures NewBehind(s, t, n, all[i])
    {
      if i < |log| {
        assert all[i] == log[i] && NewBehind(s, m, n, log[i]);
      } else {
        assert all[i] == more[i - |log|] && NewBehind(m, t, n, more[i - |log|]);
      }
    }
  }

  lemma LogsOn(s: Store, m: Store, t: Store, n: string, log: Log, more: Log)
    requires Logs(s, m, n, log) && Logs(m, t, n, more)
    ensures Logs(s, t, n, log + more)
  {
    CountsOn(s, m, t, n, log, more);
    BehindOn(s, m, t, n, log, more);
  }

  lemma LogsSame(s: Store, t: Store, n: string)
    requires t.defs == s.defs && t.notices == s.notices && RowsGrow(s.runs, t.runs)
    ensures Logs(s, t, n, [])
  {
    TripsStandStill(s, t);
    CountsSame(s, t, n);
  }

  lemma LogsThen(s: Store, m: Store, t: Store, n: string, log: Log)
    requires m.defs == s.defs && m.notices == s.notices && RowsGrow(s.runs, m.runs) && Logs(m, t, n, log)
    ensures Logs(s, t, n, log)
  {
    LogsSame(s, m, n);
    LogsOn(s, m, t, n, [], log);
    assert [] + log == log;
  }

  lemma RefuseLogs(s: Store, a: Admission, f: Fault, now: int, n: string, t: Store)
    requires Refuse(s, a, f, now) == Ok(t)
    ensures Logs(s, t, n, RefuseLog(s, a, f, n))
  {
    if a.id in s.runs {
      LogsSame(s, t, n);
    } else {
      var m := Inserted(s, a, None, None, false);
      TripsStandStill(s, m);
      ObserveCounts(m, a, EpochOf(s.defs, a), AFault, f.threshold, now, n, t);
      CountsThen(s, m, t, n, RefuseLog(s, a, f, n));
      TI.ObserveTrig(m, a, EpochOf(s.defs, a), AFault, f.threshold, now, t);
      RefuseBehind(s, a, f, n, m, t);
    }
  }

  lemma RefuseBehind(s: Store, a: Admission, f: Fault, n: string, m: Store, t: Store)
    requires a.id !in s.runs && MayInsert(s, a) && m == Inserted(s, a, None, None, false) && RunsKept(m.runs, t.runs)
    ensures RowsGrow(s.runs, t.runs) && Behind(s, t, n, RefuseLog(s, a, f, n))
  {
    assert t.runs[a.id] == m.runs[a.id];
  }

  lemma DrainOneLogs(s: Store, row: Key, now: int, n: string, t: Store)
    requires DrainOne(s, row, now) == Ok(t)
    ensures Logs(s, t, n, DrainOneLog(s, row, n))
  {
    var k := row.1;
    if t == s {
      DrainedNone(s, row, now, n);
      LogsSame(s, t, n);
    } else {
      var q, m := s.queue[k], RemoveQueue(s, k);
      if q.failure.Some? {
        RefuseLogs(m, q.admission, q.failure.value, now, n, t);
        LogsThen(s, m, t, n, DrainOneLog(s, row, n));
      } else {
        TI.AdmitFrame(m, k, q.admission, q.rearm, Some(s.triggers[k]), t);
        LogsSame(s, t, n);
      }
    }
  }

  /** A slot that has its turn leaves the queue. */
  lemma DrainedNone(s: Store, row: Key, now: int, n: string)
    requires DrainOne(s, row, now) == Ok(s)
    ensures DrainOneLog(s, row, n) == []
  {
    var k := row.1;
    if k in s.queue && k in s.triggers && s.queue[k].failure.Some? && LiveOf(s.runs, k) == {}
       && Capacity(s.runs, s.queue[k].admission.name, s.queue[k].ceiling) {
      QueueShrinks(s, row, now, s);
    }
  }

  lemma QueueShrinks(s: Store, row: Key, now: int, t: Store)
    requires DrainOne(s, row, now) == Ok(t) && row.1 in s.queue && row.1 in s.triggers && s.queue[row.1].failure.Some?
    requires LiveOf(s.runs, row.1) == {} && Capacity(s.runs, s.queue[row.1].admission.name, s.queue[row.1].ceiling)
    ensures row.1 !in t.queue
  {
  }

  lemma {:induction false} DrainKeysLogs(s: Store, keys: seq<Key>, now: int, n: string, t: Store)
    requires DrainKeys(s, keys, now) == Ok(t)
    ensures Logs(s, t, n, DrainKeysLog(s, keys, now, n))
    decreases |keys|
  {
    if keys == [] {
      LogsSame(s, t, n);
    } else {
      var m := DrainOne(s, keys[0], now).s;
      DrainOneLogs(s, keys[0], now, n, m);
      DrainKeysLogs(m, keys[1..], now, n, t);
      LogsOn(s, m, t, n, DrainOneLog(s, keys[0], n), DrainKeysLog(m, keys[1..], now, n));
    }
  }

  lemma DrainLogs(s: Store, name: string, now: int, n: string, t: Store)
    requires Drain(s, name, now) == Ok(t)
    ensures Logs(s, t, n, DrainLog(s, name, now, n))
  {
    if s.stopped {
      DeferFrame(s, name, now, t);
      LogsSame(s, t, n);
    } else {
      DrainKeysLogs(s, Sorted(QueueRows(s, name)), now, n, t);
    }
  }

  lemma DeferFrame(s: Store, name: string, now: int, t: Store)
    requires s.stopped && Drain(s, name, now) == Ok(t)
    ensures t == s.(drain := t.drain)
  {
  }

  lemma {:induction false} DrainNamesLogs(s: Store, names: seq<Key>, now: int, n: string, t: Store)
    requires DrainNames(s, names, now) == Ok(t)
    ensures Logs(s, t, n, DrainNamesLog(s, names, now, n))
    decreases |names|
  {
    if names == [] {
      LogsSame(s, t, n);
    } else {
      var m := Drain(s, names[0].0, now).s;
      DrainLogs(s, names[0].0, now, n, m);
      DrainNamesLogs(m, names[1..], now, n, t);
      LogsOn(s, m, t, n, DrainLog(s, names[0].0, now, n), DrainNamesLog(m, names[1..], now, n));
    }
  }

  lemma UnmarkLogs(s: Store, name: string, now: int, n: string, t: Store)
    requires Drain(Unmarked(s, name), name, now) == Ok(t)
    ensures Logs(s, t, n, DrainLog(Unmarked(s, name), name, now, n))
  {
    DrainLogs(Unmarked(s, name), name, now, n, t);
    LogsThen(s, Unmarked(s, name), t, n, DrainLog(Unmarked(s, name), name, now, n));
  }

  lemma MarkedLogs(s: Store, name: string, now: int, n: string, t: Store)
    requires DrainMarked(s, name, now) == Ok(t)
    ensures Logs(s, t, n, MarkedLog(s, name, now, n))
  {
    if name in s.drain && !s.stopped {
      UnmarkLogs(s, name, now, n, t);
    } else {
      LogsSame(s, t, n);
    }
  }

  lemma {:induction false} MarksLogs(s: Store, names: seq<Key>, now: int, n: string, t: Store)
    requires DrainMarks(s, names, now) == Ok(t)
    ensures Logs(s, t, n, MarksLog(s, names, now, n))
    decreases |names|
  {
    if names == [] {
      LogsSame(s, t, n);
    } else {
      var m := Drain(Unmarked(s, names[0].0), names[0].0, now).s;
      UnmarkLogs(s, names[0].0, now, n, m);
      MarksLogs(m, names[1..], now, n, t);
      LogsOn(s, m, t, n, DrainLog(Unmarked(s, names[0].0), names[0].0, now, n), MarksLog(m, names[1..], now, n));
    }
  }

  lemma PendingLogs(s: Store, limit: nat, now: int, n: string, t: Store)
    requires DrainPending(s, limit, now) == Ok(t)
    ensures Logs(s, t, n, PendingLog(s, limit, now, n))
  {
    var names := Sorted(AsKeys(s.drain));
    MarksLogs(s, if |names| <= limit then names else names[..limit], now, n, t);
  }

  lemma EndRearmed(w: World, s: Store, id: Id, now: int, b: Store)
    requires id in s.runs && b == Rearmed(s.(runs := EndRuns(w, s.runs, id)), s.runs[id], now)
    ensures b == s.(runs := EndRuns(w, s.runs, id), triggers := b.triggers, index := b.index)
    ensures id in b.runs && !b.runs[id].live
  {
    RearmedKeys(s.(runs := EndRuns(w, s.runs, id)), s.runs[id], now, b);
  }

  lemma EndedLogs(s: Store, b: Store, names: seq<Key>, now: int, n: string, t: Store, id: Id)
    requires b.defs == s.defs && b.notices == s.notices && RowsGrow(s.runs, b.runs) && id in b.runs && !b.runs[id].live
    requires DrainNames(b, names, now) == Ok(t)
    ensures Logs(s, t, n, DrainNamesLog(b, names, now, n)) && id in t.runs && !t.runs[id].live
  {
    DrainNamesLogs(b, names, now, n, t);
    LogsThen(s, b, t, n, DrainNamesLog(b, names, now, n));
  }

  lemma TerminateLogs(w: World, s: Store, id: Id, now: int, n: string, t: Store)
    requires Terminate(w, s, id, now) == Ok(t)
    ensures Logs(s, t, n, TerminateLog(w, s, id, now, n)) && (id in s.runs ==> !t.runs[id].live)
  {
    if id in s.runs && s.runs[id].live {
      var b := Rearmed(s.(runs := EndRuns(w, s.runs, id)), s.runs[id], now);
      EndRearmed(w, s, id, now, b);
      EndedLogs(s, b, Sorted(AsKeys(EndedNames(w, s.runs, id))), now, n, t, id);
    } else {
      LogsSame(s, t, n);
    }
  }

  lemma {:induction false} TerminateAllLogs(w: World, s: Store, ids: seq<Key>, now: int, n: string, t: Store)
    requires TerminateAll(w, s, ids, now) == Ok(t)
    ensures Logs(s, t, n, TerminateAllLog(w, s, ids, now, n))
    decreases |ids|
  {
    if ids == [] {
      LogsSame(s, t, n);
    } else {
      var m := Terminate(w, s, ids[0].0, now).s;
      TerminateLogs(w, s, ids[0].0, now, n, m);
      TerminateAllLogs(w, m, ids[1..], now, n, t);
      LogsOn(s, m, t, n, TerminateLog(w, s, ids[0].0, now, n), TerminateAllLog(w, m, ids[1..], now, n));
    }
  }

  // ── firings ───────────────────────────────────────────────────────────────

  lemma {:induction false} AdmitAllGrows(s: Store, f: Firing, admit: seq<Admission>, t: Store)
    requires AdmitAll(s, f, admit) == Ok(t)
    ensures t == s.(runs := t.runs, last := t.last) && RowsGrow(s.runs, t.runs)
    decreases |admit|
  {
    if admit != [] {
      var m := AdmitFiring(s, f.key, admit[0], f.rearm, f.next).s;
      TI.AdmitFrame(s, f.key, admit[0], f.rearm, f.next, m);
      AdmitAllGrows(m, f, admit[1..], t);
    }
  }

  lemma RefuseFiringLogs(s: Store, k: string, r: Refusal, now: int, n: string, t: Store)
    requires RefuseFiring(s, k, r, now) == Ok(t)
    ensures Logs(s, t, n, RefuseLog(s, r.admission, r.fault, n))
  {
    var m, log := Refuse(s, r.admission, r.fault, now).s, RefuseLog(s, r.admission, r.fault, n);
    RefuseLogs(s, r.admission, r.fault, now, n, m);
    LogsSame(m, t, n);
    LogsOn(s, m, t, n, log, []);
    assert log + [] == log;
  }

  lemma CommitLogs(s: Store, f: Firing, now: int, n: string, t: Store)
    requires Commit(s, f, now).Fires? && t == Commit(s, f, now).s
    ensures Logs(s, t, n, CommitLog(s, f, n))
  {
    var a := PutTrigger(s, f.key, f.expected, f.next);
    var b := AdmitAll(a, f, f.admit).s;
    AdmitAllGrows(a, f, f.admit, b);
    if f.refused.Some? {
      RefuseFiringLogs(b, f.key, f.refused.value, now, n, t);
      LogsThen(s, b, t, n, CommitLog(s, f, n));
    } else {
      LogsSame(s, t, n);
    }
  }

  lemma FireSlotLogs(s: Store, f: Firing, g: Guard, a: Admission, busy: bool, now: int, n: string, t: Store)
    requires FireSlot(s, f, g, a, busy, now).Fires? && t == FireSlot(s, f, g, a, busy, now).s
    ensures Logs(s, t, n, FireSlotLog(s, f, g, a, busy, n))
  {
    if !Capacity(s.runs, a.name, g.max) || (busy && (g.policy.Skip? || g.policy.Queue?)) {
      SkipFrame(s, f, g, a, busy, now, t);
      LogsSame(s, t, n);
    } else {
      CommitLogs(s, f, now, n, t);
    }
  }

  lemma SkipFrame(s: Store, f: Firing, g: Guard, a: Admission, busy: bool, now: int, t: Store)
    requires FireSlot(s, f, g, a, busy, now).Fires? && t == FireSlot(s, f, g, a, busy, now).s
    requires !Capacity(s.runs, a.name, g.max) || (busy && (g.policy.Skip? || g.policy.Queue?))
    ensures t.runs == s.runs && t.defs == s.defs && t.notices == s.notices
  {
    if !Capacity(s.runs, a.name, g.max) {
      PutFrame(s, f.key, f.expected, Some(g.full));
    } else if g.policy.Queue? && f.key !in s.queue {
      PutFrame(Buffer(s, f.key, SlotOf(f, g, a)), f.key, f.expected, f.next);
    } else {
      PutFrame(s, f.key, f.expected, f.busy);
    }
  }

  lemma PutFrame(s: Store, k: string, before: Option<Trigger>, after: Option<Trigger>)
    ensures var t := PutTrigger(s, k, before, after); t.runs == s.runs && t.defs == s.defs && t.notices == s.notices
  {
  }

  lemma OverlapLogs(w: World, s: Store, f: Firing, g: Guard, a: Admission, now: int, n: string, t: Store)
    requires f.overlap == Some(g) && Candidate(f) == Some(a) && a.id !in s.runs && !f.ingested
    requires FireChecked(w, s, f, now).Fires? && t == FireChecked(w, s, f, now).s
    ensures Logs(s, t, n, FireCheckedLog(w, s, f, now, n))
  {
    var live := LiveOf(s.runs, f.key);
    if g.policy.Replace? {
      var ids := Sorted(AsKeys(live));
      var m := TerminateAll(w, s, ids, now).s;
      TerminateAllLogs(w, s, ids, now, n, m);
      FireSlotLogs(m, f, g, a, live != {}, now, n, t);
      LogsOn(s, m, t, n, TerminateAllLog(w, s, ids, now, n), FireSlotLog(m, f, g, a, live != {}, n));
    } else {
      FireSlotLogs(s, f, g, a, live != {}, now, n, t);
    }
  }

  lemma FireCheckedLogs(w: World, s: Store, f: Firing, now: int, n: string, t: Store)
    requires FireChecked(w, s, f, now).Fires? && t == FireChecked(w, s, f, now).s
    ensures Logs(s, t, n, FireCheckedLog(w, s, f, now, n))
  {
    var a := Candidate(f);
    if f.ingested {
      LogsSame(s, t, n);
    } else if f.overlap.Some? && a.Some? && a.value.id !in s.runs {
      OverlapLogs(w, s, f, f.overlap.value, a.value, now, n, t);
    } else if f.overlap.Some? && a.Some? {
      CommitLogs(s, f, now, n, t);
    } else if f.busy.Some? && a.Some? && f.key in s.last && s.last[f.key] in s.runs && s.runs[s.last[f.key]].live {
      LogsSame(s, t, n);
    } else {
      CommitLogs(s, f, now, n, t);
    }
  }

  lemma FireLogs(w: World, s: Store, f: Firing, now: int, n: string, t: Store)
    requires Fire(w, s, f, now).Fires? && t == Fire(w, s, f, now).s
    ensures Logs(s, t, n, FireLog(w, s, f, now, n))
  {
    if s.stopped {
      LogsSame(s, t, n);
    } else {
      var a := Candidate(f);
      var m := if a.Some? then DrainMarked(s, a.value.name, now).s else s;
      var first := if a.Some? then MarkedLog(s, a.value.name, now, n) else [];
      if a.Some? {
        MarkedLogs(s, a.value.name, now, n, m);
      } else {
        LogsSame(s, m, n);
      }
      if Fire(w, s, f, now) == FireChecked(w, m, f, now) {
        FireCheckedLogs(w, m, f, now, n, t);
        LogsOn(s, m, t, n, first, FireCheckedLog(w, m, f, now, n));
        assert FireLog(w, s, f, now, n) == first + FireCheckedLog(w, m, f, now, n);
      } else {
        assert t == m && FireLog(w, s, f, now, n) == first;
      }
    }
  }
}

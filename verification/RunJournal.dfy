/**
 What the journal proves over whole runs: records advance and never change once
 complete, the tree budget is conserved, refusals name one key, and totals sum every
 answer once.
 */
module RunJournal {
  import opened Options
  import opened Runs
  import opened RunTree
  import opened RunSafety

  // ── records only advance ──────────────────────────────────────────────────

  predicate IsComplete(r: Record) {
    !(r.Task? && r.result.None?) && !(r.Call? && !r.state.Done?)
  }

  lemma BecomesOn(a: Record, b: Record, c: Record)
    requires MayBecome(a, b) && MayBecome(b, c)
    ensures MayBecome(a, c)
    ensures IsComplete(a) ==> c == a
    ensures a.Call? ==> c.Call? && c.binding == a.binding
  {
  }

  ghost predicate Advances(a: Journal, b: Journal) {
    forall k :: k in a ==> k in b && MayBecome(a[k], b[k])
  }

  lemma AdvancesOn(a: Journal, b: Journal, c: Journal)
    requires Advances(a, b) && Advances(b, c)
    ensures Advances(a, c)
  {
    forall k | k in a ensures k in c && MayBecome(a[k], c[k]) {
      BecomesOn(a[k], b[k], c[k]);
    }
  }

  lemma DecidedAdvances(db: Db, id: Id, f: Fence, k: string, limit: nat, now: int, x: Id)
    requires MaySpend(db, f, k, limit, now) && id == f.run
    ensures Advances(JournalOf(db, x), JournalOf(Decided(db, id, k, limit), x))
  {
  }

  lemma TerminateRecords(db: Db, id: Id, status: Status, now: int)
    requires id in db.runs
    ensures Terminate(db, id, status, now).records == db.records
    ensures Terminate(db, id, status, now).policy == db.policy
  {
  }

  predicate Sweeps(c: Command, x: Id) {
    c.Sweep? && c.id == x
  }

  predicate Journals(c: Command) {
    c.Save? || c.Spend? || c.Listen? || c.Deliver? || c.Sweep?
  }

  lemma OtherRecords(db: Db, c: Command, after: Db)
    requires after == Step(db, c) && !Journals(c)
    ensures after.records == db.records
  {
    if Commits(db, c) && c.Kill? {
      TerminateRecords(db, c.id, Cancel, c.now);
    }
  }

  /** A step other than its sweep only advances a run's records. */
  lemma StepAdvances(db: Db, c: Command, x: Id, after: Db)
    requires after == Step(db, c) && !Sweeps(c, x)
    ensures Advances(JournalOf(db, x), JournalOf(after, x))
  {
    if !Journals(c) {
      OtherRecords(db, c, after);
    } else if c.Spend? && Commits(db, c) {
      DecidedAdvances(db, c.fence.run, c.fence, c.key, c.limit, c.now, x);
    }
  }

  /** No command from `i` on sweeps the run. */
  ghost predicate Unswept(commands: seq<Command>, i: nat, x: Id) {
    forall m :: i <= m < |commands| ==> !Sweeps(commands[m], x)
  }

  /** Until the run is swept its records stay: a complete record never changes, and a
      call keeps its binding. */
  lemma {:induction false} RecordsStay(p: Policy, commands: seq<Command>, i: nat, x: Id)
    requires i <= |commands| && Unswept(commands, i, x)
    ensures Advances(JournalOf(After(p, commands[..i]), x), JournalOf(After(p, commands), x))
    decreases |commands|
  {
    if i == |commands| {
      assert commands[..i] == commands;
    } else {
      var rest := commands[..|commands| - 1];
      assert rest[..i] == commands[..i];
      assert forall m :: 0 <= m < |rest| ==> rest[m] == commands[m];
      RecordsStay(p, rest, i, x);
      StepAdvances(After(p, rest), commands[|commands| - 1], x, After(p, commands));
      AdvancesOn(JournalOf(After(p, commands[..i]), x), JournalOf(After(p, rest), x), JournalOf(After(p, commands), x));
    }
  }

  /** A completed record of a live run is the one it was completed as. */
  lemma CompletedIsImmutable(p: Policy, commands: seq<Command>, i: nat, x: Id, k: string)
    requires i <= |commands| && k in JournalOf(After(p, commands[..i]), x)
    requires x in After(p, commands).runs && Live(After(p, commands).runs[x]) && x in After(p, commands[..i]).runs
    ensures var a, b := JournalOf(After(p, commands[..i]), x), JournalOf(After(p, commands), x);
            && k in b
            && (IsComplete(a[k]) ==> b[k] == a[k])
            && (a[k].Call? ==> b[k].Call? && b[k].binding == a[k].binding)
  {
    LiveIsUnswept(p, commands, i, x);
    var a, b := JournalOf(After(p, commands[..i]), x), JournalOf(After(p, commands), x);
    assert MayBecome(a[k], b[k]);
    BecomesOn(a[k], b[k], b[k]);
  }

  lemma {:induction false} LiveIsUnswept(p: Policy, commands: seq<Command>, i: nat, x: Id)
    requires i <= |commands| && x in After(p, commands[..i]).runs
    requires x in After(p, commands).runs && Live(After(p, commands).runs[x])
    ensures Advances(JournalOf(After(p, commands[..i]), x), JournalOf(After(p, commands), x))
    decreases |commands|
  {
    if i == |commands| {
      assert commands[..i] == commands;
    } else {
      var rest := commands[..|commands| - 1];
      assert rest[..i] == commands[..i];
      AlwaysGrows(p, rest, i);
      AlwaysGood(p, rest);
      var a, c, b := After(p, rest), commands[|commands| - 1], After(p, commands);
      StepGood(a, c, b);
      assert Evolves(a.runs[x], b.runs[x]);
      LiveIsUnswept(p, rest, i, x);
      LiveStepAdvances(a, c, x, b);
      AdvancesOn(JournalOf(After(p, commands[..i]), x), JournalOf(a, x), JournalOf(b, x));
    }
  }

  lemma LiveStepAdvances(db: Db, c: Command, x: Id, after: Db)
    requires after == Step(db, c) && x in db.runs && Live(db.runs[x])
    ensures Advances(JournalOf(db, x), JournalOf(after, x))
  {
    if Sweeps(c, x) {
      assert after == db;
    } else {
      StepAdvances(db, c, x, after);
    }
  }

  // ── one first refusal ─────────────────────────────────────────────────────

  predicate IsRefusal(r: Record) {
    r.Budget? && !r.granted
  }

  /** The step refuses the run a unit. */
  ghost predicate Refuses(db: Db, c: Command, x: Id) {
    c.Spend? && Commits(db, c) && c.fence.run == x && Spent(db, RootOf(db.runs[x])) >= c.limit
  }

  /** The keys refused to the run in commit order, since its records were last swept. */
  ghost function Refused(p: Policy, commands: seq<Command>, x: Id): seq<string>
    decreases |commands|
  {
    if commands == [] then [] else
      var rest, c := commands[..|commands| - 1], commands[|commands| - 1];
      RefusedAfter(After(p, rest), c, x, Refused(p, rest, x))
  }

  ghost function RefusedAfter(db: Db, c: Command, x: Id, keys: seq<string>): seq<string> {
    if Sweeps(c, x) && Commits(db, c) then []
    else if Refuses(db, c, x) then keys + [c.key]
    else keys
  }

  /** The journal's refusals are those keys, and each names the first of them, as the
      run's exceeded record does. */
  ghost predicate RefusalsAre(j: Journal, keys: seq<string>) {
    && EXCEEDED !in keys
    && (EXCEEDED in j <==> keys != [])
    && (keys != [] ==> j[EXCEEDED] == Exceeded(keys[0]))
    && (forall k :: k in keys ==> k in j && IsRefusal(j[k]))
    && forall k :: k in j && IsRefusal(j[k]) ==> k in keys && j[k].first == Some(keys[0])
  }

  lemma SpendRefusals(j: Journal, keys: seq<string>, k: string, spent: nat, first: string, after: Journal)
    requires RefusalsAre(j, keys) && k !in j && k != EXCEEDED
    requires first == if EXCEEDED in j then j[EXCEEDED].key else k
    requires after == j[EXCEEDED := Exceeded(first)][k := Budget(false, spent, Some(first))]
    ensures RefusalsAre(after, keys + [k])
  {
    assert first == (keys + [k])[0];
  }

  lemma SaveRefusals(j: Journal, keys: seq<string>, k: string, r: Record)
    requires RefusalsAre(j, keys) && k != EXCEEDED && (k in j ==> MayBecome(j[k], r))
    requires r.Budget? || r.Exceeded? ==> k in j && j[k] == r
    ensures RefusalsAre(j[k := r], keys)
  {
  }

  lemma StepRefusals(db: Db, c: Command, x: Id, after: Db, keys: seq<string>)
    requires Callable(c) && after == Step(db, c) && RefusalsAre(JournalOf(db, x), keys)
    ensures RefusalsAre(JournalOf(after, x), RefusedAfter(db, c, x, keys))
  {
    if !Journals(c) {
      OtherRecords(db, c, after);
    } else if Commits(db, c) {
      if c.Spend? {
        DecideRefusals(db, c, x, after, keys);
      } else if c.Save? {
        StoreRefusals(db, c, x, after, keys);
      } else {
        MailRefusals(db, c, x, after, keys);
      }
    }
  }

  lemma StoreRefusals(db: Db, c: Command, x: Id, after: Db, keys: seq<string>)
    requires Callable(c) && c.Save? && Commits(db, c) && after == Step(db, c) && RefusalsAre(JournalOf(db, x), keys)
    ensures RefusalsAre(JournalOf(after, x), keys)
  {
    var j := JournalOf(db, x);
    if c.fence.run == x {
      SaveRefusals(j, keys, c.key, c.record);
    } else {
      assert JournalOf(after, x) == j;
    }
  }

  lemma MailRefusals(db: Db, c: Command, x: Id, after: Db, keys: seq<string>)
    requires Callable(c) && (c.Listen? || c.Deliver? || c.Sweep?) && Commits(db, c)
    requires after == Step(db, c) && RefusalsAre(JournalOf(db, x), keys)
    ensures RefusalsAre(JournalOf(after, x), if Sweeps(c, x) then [] else keys)
  {
  }

  lemma DecideRefusals(db: Db, c: Command, x: Id, after: Db, keys: seq<string>)
    requires Callable(c) && c.Spend? && Commits(db, c) && after == Step(db, c) && RefusalsAre(JournalOf(db, x), keys)
    ensures RefusalsAre(JournalOf(after, x), RefusedAfter(db, c, x, keys))
  {
    var j := JournalOf(db, x);
    if c.fence.run == x {
      var spent := Spent(db, RootOf(db.runs[x]));
      if spent >= c.limit {
        var first := if EXCEEDED in j then j[EXCEEDED].key else c.key;
        SpendRefusals(j, keys, c.key, spent, first, JournalOf(after, x));
      } else {
        SaveNoRefusal(j, keys, c.key, JournalOf(after, x));
      }
    } else {
      assert JournalOf(after, x) == j;
    }
  }

  lemma SaveNoRefusal(j: Journal, keys: seq<string>, k: string, after: Journal)
    requires RefusalsAre(j, keys) && k !in j && k != EXCEEDED
    requires k in after && !IsRefusal(after[k]) && after == j[k := after[k]]
    ensures RefusalsAre(after, keys)
  {
  }

  ghost predicate AllCallable(commands: seq<Command>) {
    forall i :: 0 <= i < |commands| ==> Callable(commands[i])
  }

  /** After any history every refusal in a run's journal names the first one that
      committed, and the refusals are those that committed. */
  lemma {:induction false} RefusalsAgree(p: Policy, commands: seq<Command>, x: Id)
    requires AllCallable(commands)
    ensures RefusalsAre(JournalOf(After(p, commands), x), Refused(p, commands, x))
    decreases |commands|
  {
    if commands != [] {
      var rest := commands[..|commands| - 1];
      assert forall m :: 0 <= m < |rest| ==> rest[m] == commands[m];
      RefusalsAgree(p, rest, x);
      StepRefusals(After(p, rest), commands[|commands| - 1], x, After(p, commands), Refused(p, rest, x));
    }
  }

  // ── the tree budget ───────────────────────────────────────────────────────

  /** The step decides a unit for some run of the tree `root`. */
  ghost predicate Grants(db: Db, c: Command, root: Id) {
    && c.Spend? && Commits(db, c)
    && RootOf(db.runs[c.fence.run]) == root
    && Spent(db, root) < c.limit
  }

  /** The units ever granted in the tree. */
  ghost function GrantedUnits(p: Policy, commands: seq<Command>, root: Id): nat
    decreases |commands|
  {
    if commands == [] then 0
    else
      var rest := commands[..|commands| - 1];
      GrantedUnits(p, rest, root) + if Grants(After(p, rest), commands[|commands| - 1], root) then 1 else 0
  }

  predicate IsLiveRoot(runs: Rows, t: Id) {
    t in runs && Live(runs[t]) && runs[t].origin.root.None?
  }

  lemma SpendBudget(db: Db, c: Command, t: Id, after: Db)
    requires c.Spend? && Commits(db, c) && after == Step(db, c)
    ensures Spent(after, t) == Spent(db, t) + if Grants(db, c, t) then 1 else 0
  {
  }

  lemma EndedId(db: Db, id: Id, status: Status, now: int, after: Db)
    requires Good(db.runs) && id in db.runs && Live(db.runs[id]) && Ends(status) && after == Terminate(db, id, status, now)
    ensures id in after.runs && !Live(after.runs[id])
  {
    var spent := Spent(db, RootOf(db.runs[id]));
    var b := EndTree(db.runs, id, status, spent, now);
    EndTreeGood(db.runs, id, status, spent, now, b);
    ReportGood(b, id, status, now, after.runs);
    assert !Live(b[id]) && Evolves(b[id], after.runs[id]);
  }

  lemma KillBudget(db: Db, c: Command, t: Id, after: Db)
    requires Good(db.runs) && c.Kill? && Commits(db, c) && after == Step(db, c)
    requires t in after.runs ==> Live(after.runs[t])
    ensures Spent(after, t) == Spent(db, t)
  {
    EndedId(db, c.id, Cancel, c.now, after);
    assert t != c.id;
  }

  lemma LastBudget(db: Db, id: Id, n: nat, status: Status, now: int, t: Id, after: Db)
    requires Good(db.runs) && id in db.runs && Live(db.runs[id]) && Ends(status)
    requires after == Concludes(db, id, status, n, now)
    requires t in after.runs ==> Live(after.runs[t])
    ensures Spent(after, t) == Spent(db, t)
  {
    var mid := Counted(db, id, n);
    assert RowOk(id, db.runs[id]);
    OneRow(db.runs, id, mid.runs[id], mid.runs);
    EndedId(mid, id, status, now, after);
    assert t != id;
  }

  lemma FinishBudget(db: Db, c: Command, t: Id, after: Db)
    requires Good(db.runs) && c.Finish? && Commits(db, c) && after == Step(db, c)
    requires t in after.runs ==> Live(after.runs[t])
    ensures Spent(after, t) == Spent(db, t)
  {
    OwnerLive(db, c.fence, c.now);
    var x := c.fence.run;
    var n := db.runs[x].life.interruptions;
    var verdict := Verdict(n, c.status);
    if Ends(verdict) {
      LastBudget(db, x, Tries(n, c.status), verdict, c.now, t, after);
    }
  }

  /** A step moves a tree's counter by the unit it grants there and nothing else, as
      long as the root lives. */
  lemma StepBudget(db: Db, c: Command, t: Id, after: Db)
    requires Good(db.runs) && after == Step(db, c)
    requires t in after.runs ==> Live(after.runs[t])
    ensures Spent(after, t) == Spent(db, t) + if Grants(db, c, t) then 1 else 0
  {
    if Commits(db, c) {
      if c.Spend? {
        SpendBudget(db, c, t, after);
      } else if c.Kill? {
        KillBudget(db, c, t, after);
      } else if c.Finish? {
        FinishBudget(db, c, t, after);
      }
    }
  }

  lemma GrantsInTree(db: Db, c: Command, t: Id)
    requires Good(db.runs) && Grants(db, c, t)
    ensures IsLiveRoot(db.runs, t)
  {
    OwnerLive(db, c.fence, c.now);
    LiveRoot(db.runs, c.fence.run);
  }

  /** A live root's counter is the number of units ever granted in its tree. */
  lemma {:induction false} BudgetConserved(p: Policy, commands: seq<Command>, t: Id)
    ensures var db := After(p, commands);
            && (t !in db.runs ==> Spent(db, t) == 0 && GrantedUnits(p, commands, t) == 0)
            && (IsLiveRoot(db.runs, t) ==> Spent(db, t) == GrantedUnits(p, commands, t))
    decreases |commands|
  {
    if commands != [] {
      var rest := commands[..|commands| - 1];
      var a, c, b := After(p, rest), commands[|commands| - 1], After(p, commands);
      BudgetConserved(p, rest, t);
      AlwaysGood(p, rest);
      StepGood(a, c, b);
      assert t in a.runs ==> Evolves(a.runs[t], b.runs[t]);
      if t in b.runs ==> Live(b.runs[t]) {
        StepBudget(a, c, t, b);
      }
      assert t !in a.runs ==> !Grants(a, c, t) by {
        if Grants(a, c, t) {
          GrantsInTree(a, c, t);
        }
      }
    }
  }

  ghost predicate SpendsAtMost(commands: seq<Command>, limit: nat) {
    forall i :: 0 <= i < |commands| && commands[i].Spend? ==> commands[i].limit <= limit
  }

  lemma StepWithin(db: Db, c: Command, limit: nat, after: Db)
    requires after == Step(db, c) && (c.Spend? ==> c.limit <= limit)
    requires forall t :: t in db.budget ==> db.budget[t] <= limit
    ensures forall t :: t in after.budget ==> after.budget[t] <= limit
  {
  }

  /** No counter passes a limit every spend keeps to. */
  lemma {:induction false} BudgetBounded(p: Policy, commands: seq<Command>, limit: nat)
    requires SpendsAtMost(commands, limit)
    ensures forall t :: t in After(p, commands).budget ==> After(p, commands).budget[t] <= limit
    decreases |commands|
  {
    if commands != [] {
      var rest := commands[..|commands| - 1];
      assert forall m :: 0 <= m < |rest| ==> rest[m] == commands[m];
      BudgetBounded(p, rest, limit);
      StepWithin(After(p, rest), commands[|commands| - 1], limit, After(p, commands));
    }
  }

  lemma DecidedIsSaved(p: Policy, commands: seq<Command>, i: nat)
    requires i < |commands| && commands[i].Spend? && Commits(After(p, commands[..i]), commands[i])
    ensures var x := commands[i].fence.run;
            x in After(p, commands[..i + 1]).runs && commands[i].key in JournalOf(After(p, commands[..i + 1]), x)
  {
    Next(p, commands, i);
  }

  lemma SavedIsRefused(db: Db, c: Command)
    requires Good(db.runs) && c.Spend?
    requires c.fence.run in db.runs && Live(db.runs[c.fence.run]) ==> c.key in JournalOf(db, c.fence.run)
    ensures !Commits(db, c)
  {
    if Authority(db, c.fence, c.now) {
      OwnerLive(db, c.fence, c.now);
    }
  }

  /** A run's key is decided at most once. */
  lemma DecidedOnce(p: Policy, commands: seq<Command>, i: nat, j: nat)
    requires i < j < |commands| && commands[i].Spend? && commands[j].Spend?
    requires commands[i].fence.run == commands[j].fence.run && commands[i].key == commands[j].key
    requires Commits(After(p, commands[..i]), commands[i])
    ensures !Commits(After(p, commands[..j]), commands[j])
  {
    var x, late := commands[j].fence.run, commands[..j];
    var db := After(p, late);
    DecidedIsSaved(p, commands, i);
    assert late[..i + 1] == commands[..i + 1];
    if x in db.runs && Live(db.runs[x]) {
      LiveIsUnswept(p, late, i + 1, x);
    }
    AlwaysGood(p, late);
    SavedIsRefused(db, commands[j]);
  }

  // ── annotation totals ─────────────────────────────────────────────────────

  datatype Answer = Answer(key: string, annotations: Annotations)

  ghost predicate Answers(db: Db, c: Command, x: Id) {
    c.Save? && Commits(db, c) && c.fence.run == x && Completes(db, x, c.key, c.record)
  }

  /** The answers a run's calls completed with, in commit order. */
  ghost function AnswersOf(p: Policy, commands: seq<Command>, x: Id): seq<Answer>
    decreases |commands|
  {
    if commands == [] then []
    else
      var rest, c := commands[..|commands| - 1], commands[|commands| - 1];
      NextAnswers(After(p, rest), c, x, AnswersOf(p, rest, x))
  }

  ghost function NextAnswers(db: Db, c: Command, x: Id, answers: seq<Answer>): seq<Answer> {
    if Answers(db, c, x) then answers + [Answer(c.key, c.record.annotations)] else answers
  }

  ghost function Sum(p: Policy, answers: seq<Answer>): Totals
    decreases |answers|
  {
    if answers == [] then map[]
    else Accumulate(p, Sum(p, answers[..|answers| - 1]), answers[|answers| - 1].annotations)
  }

  ghost predicate SameTotals(a: Rows, b: Rows) {
    && (forall x :: x in a ==> x in b && b[x].totals == a[x].totals)
    && forall x :: x in b && x !in a ==> b[x].totals == map[]
  }

  lemma ReportTotals(a: Rows, child: Id, status: Status, now: int, b: Rows)
    requires child in a && b == ReportTo(a, child, status, now)
    ensures SameTotals(a, b)
  {
  }

  lemma TerminateTotals(db: Db, id: Id, status: Status, now: int, after: Db)
    requires id in db.runs && after == Terminate(db, id, status, now)
    ensures SameTotals(db.runs, after.runs)
  {
    var b := EndTree(db.runs, id, status, Spent(db, RootOf(db.runs[id])), now);
    assert SameTotals(db.runs, b);
    ReportTotals(b, id, status, now, after.runs);
  }

  lemma RestedTotals(a: Rows, id: Id, status: Status, woken: bool, now: int, b: Rows)
    requires id in a && b == Rested(a, id, status, woken, now)
    ensures SameTotals(a, b)
  {
    var mid := a[id := LetGo(a[id], status, woken, now)];
    ReportTotals(mid, id, status, now, b);
  }

  lemma LastTotals(db: Db, id: Id, verdict: Status, n: nat, now: int, after: Db)
    requires id in db.runs && after == Concludes(db, id, verdict, n, now)
    ensures SameTotals(db.runs, after.runs)
  {
    TerminateTotals(Counted(db, id, n), id, verdict, now, after);
  }

  lemma FinishTotals(db: Db, id: Id, status: Status, woken: bool, now: int, after: Db)
    requires id in db.runs && after == Finishes(db, id, status, woken, now)
    ensures SameTotals(db.runs, after.runs)
  {
    var n := db.runs[id].life.interruptions;
    var verdict := Verdict(n, status);
    if Ends(verdict) {
      LastTotals(db, id, verdict, Tries(n, status), now, after);
    } else {
      assert after.runs == Rested(db.runs, id, status, woken, now);
      RestedTotals(db.runs, id, status, woken, now, after.runs);
    }
  }

  lemma ChildTotals(db: Db, f: Fence, a: Admission, link: Link, now: int, owner: string, after: Db)
    requires f.run in db.runs && link.parent == f.run && after == WithChild(db, f, a, link, now, owner)
    ensures SameTotals(db.runs, after.runs)
  {
    var b := db.runs[f.run := Expects(db.runs[f.run], a.id, now)];
    assert SameTotals(db.runs, b);
    if a.id in b {
      var c := b[a.id].life;
      if c.outcome.Some? {
        ReportTotals(b, a.id, c.outcome.value, now, after.runs);
      } else if c.state.Waiting? {
        ReportTotals(b, a.id, Sleeping(0), now, after.runs);
      }
    }
  }

  lemma PutTotals(a: Rows, x: Id, r: Run, b: Rows)
    requires x in a && b == a[x := r] && r.totals == a[x].totals
    ensures SameTotals(a, b)
  {
  }

  lemma OwnerTotals(db: Db, c: Command, after: Db)
    requires Commits(db, c) && after == Apply(db, c) && (c.Renew? || c.Release? || c.Spend? || c.Listen?)
    ensures SameTotals(db.runs, after.runs)
  {
    PutTotals(db.runs, c.fence.run, after.runs[c.fence.run], after.runs);
  }

  lemma RowTotals(db: Db, c: Command, after: Db)
    requires Commits(db, c) && after == Apply(db, c) && (c.Claim? || c.Deliver? || c.Sweep?)
    ensures SameTotals(db.runs, after.runs)
  {
    PutTotals(db.runs, c.id, after.runs[c.id], after.runs);
  }

  lemma TreeTotals(db: Db, c: Command, after: Db)
    requires Commits(db, c) && after == Apply(db, c) && (c.Finish? || c.Kill? || c.StartChild? || c.SetHold?)
    ensures SameTotals(db.runs, after.runs)
  {
    if c.Finish? {
      FinishTotals(db, c.fence.run, c.status, c.woken, c.now, after);
    } else if c.Kill? {
      TerminateTotals(db, c.id, Cancel, c.now, after);
    } else if c.StartChild? {
      ChildTotals(db, c.fence, c.a, c.link, c.now, c.owner, after);
    }
  }

  /** Only a save that completes a call changes totals. */
  lemma StepTotals(db: Db, c: Command, after: Db)
    requires after == Step(db, c) && !c.Save?
    ensures SameTotals(db.runs, after.runs)
  {
    if Commits(db, c) {
      if c.Renew? || c.Release? || c.Spend? || c.Listen? {
        OwnerTotals(db, c, after);
      } else if c.Claim? || c.Deliver? || c.Sweep? {
        RowTotals(db, c, after);
      } else if !IsRoot(c) && !c.Stop? {
        TreeTotals(db, c, after);
      }
    }
  }

  lemma SaveTotals(db: Db, c: Command, x: Id, after: Db)
    requires after == Step(db, c) && c.Save?
    ensures after.runs.Keys == db.runs.Keys && (Answers(db, c, x) ==> x in db.runs)
    ensures x in db.runs ==>
              after.runs[x].totals ==
              if Answers(db, c, x) then Accumulate(db.policy, db.runs[x].totals, c.record.annotations) else db.runs[x].totals
  {
  }

  lemma StepPolicy(db: Db, c: Command)
    ensures Step(db, c).policy == db.policy
  {
    if Commits(db, c) && c.Kill? {
      TerminateRecords(db, c.id, Cancel, c.now);
    }
  }

  lemma {:induction false} PolicyStays(p: Policy, commands: seq<Command>)
    ensures After(p, commands).policy == p
    decreases |commands|
  {
    if commands != [] {
      PolicyStays(p, commands[..|commands| - 1]);
      StepPolicy(After(p, commands[..|commands| - 1]), commands[|commands| - 1]);
    }
  }

  lemma SumMore(p: Policy, answers: seq<Answer>, a: Answer)
    ensures Sum(p, answers + [a]) == Accumulate(p, Sum(p, answers), a.annotations)
  {
    assert (answers + [a])[..|answers|] == answers;
  }

  /** A run's totals are its answers summed, each once, in the order they committed. */
  lemma {:induction false} TotalsAreSums(p: Policy, commands: seq<Command>, x: Id)
    ensures var db := After(p, commands);
            if x in db.runs then db.runs[x].totals == Sum(p, AnswersOf(p, commands, x))
            else AnswersOf(p, commands, x) == []
    decreases |commands|
  {
    if commands != [] {
      var rest := commands[..|commands| - 1];
      var a, c, b := After(p, rest), commands[|commands| - 1], After(p, commands);
      TotalsAreSums(p, rest, x);
      if c.Save? {
        PolicyStays(p, rest);
        SaveTotals(a, c, x, b);
        if Answers(a, c, x) {
          SumMore(p, AnswersOf(p, rest, x), Answer(c.key, c.record.annotations));
        }
      } else {
        StepTotals(a, c, b);
      }
    }
  }

  /** One name's numbers added up, whatever else an answer holds. */
  function NameSum(p: Policy, total: Num, answer: Annotations, name: string): Num
    decreases |answer|
  {
    if answer == [] then total
    else
      var before, last := NameSum(p, total, answer[..|answer| - 1], name), answer[|answer| - 1];
      if last.0 != name || last.1.Text? then before
      else match p.add(before, last.1.n) case Some(sum) => sum case None => before
  }

  /** A name once present keeps summing, and no more than the allowed names ever are. */
  lemma {:induction false} NamesKeepSumming(p: Policy, totals: Totals, answer: Annotations)
    requires |totals| <= 32
    ensures var sum := Accumulate(p, totals, answer);
            && |sum| <= 32
            && forall name :: name in totals ==> name in sum && sum[name] == NameSum(p, totals[name], answer, name)
    decreases |answer|
  {
    if answer != [] {
      var rest, last := answer[..|answer| - 1], answer[|answer| - 1];
      NamesKeepSumming(p, totals, rest);
      var before := Accumulate(p, totals, rest);
      if last.1.Number? {
        AddToOne(p, before, last.0, last.1.n);
      }
    }
  }

  lemma AddToOne(p: Policy, totals: Totals, name: string, n: Num)
    requires |totals| <= 32
    ensures var sum := AddTo(p, totals, name, n);
            && |sum| <= 32
            && forall other :: other in totals && other != name ==> other in sum && sum[other] == totals[other]
  {
    var sum := AddTo(p, totals, name, n);
    if name in totals {
      assert sum.Keys == totals.Keys;
      assert |sum| == |sum.Keys| && |totals| == |totals.Keys|;
    } else if sum != totals {
      assert sum.Keys == totals.Keys + {name};
      assert |sum| == |sum.Keys| && |totals| == |totals.Keys|;
    }
  }

  /** Which answers count: those of distinct calls, and all of a live run's. */
  ghost predicate AnswersOk(j: Journal, answers: seq<Answer>, live: bool) {
    && (forall i, k :: 0 <= i < k < |answers| ==> answers[i].key != answers[k].key)
    && (forall k :: k in j && IsAnswer(j[k]) ==> Answer(k, j[k].annotations) in answers)
    && (live ==> forall a :: a in answers ==> a.key in j && IsAnswer(j[a.key]) && j[a.key].annotations == a.annotations)
  }

  predicate Unended(db: Db, x: Id) {
    x in db.runs ==> Live(db.runs[x])
  }

  lemma SaveAnswers(j: Journal, k: string, r: Record, answers: seq<Answer>)
    requires AnswersOk(j, answers, true) && (k in j ==> MayBecome(j[k], r))
    ensures if IsAnswer(r) && !(k in j && IsAnswer(j[k]))
            then AnswersOk(j[k := r], answers + [Answer(k, r.annotations)], true)
            else AnswersOk(j[k := r], answers, true)
  {
  }

  ghost predicate AnswersWithin(a: Journal, b: Journal) {
    forall k :: k in a && IsAnswer(a[k]) ==> k in b && b[k] == a[k]
  }

  lemma SameAnswersOk(a: Journal, b: Journal, answers: seq<Answer>, live: bool, still: bool)
    requires AnswersOk(a, answers, live) && AnswersWithin(b, a) && (still ==> live && AnswersWithin(a, b))
    ensures AnswersOk(b, answers, still)
  {
  }

  /** Any other step leaves the answers in the journal as they are, or sweeps them. */
  lemma OtherAnswers(db: Db, c: Command, x: Id, after: Db)
    requires after == Step(db, c) && !(c.Save? && c.fence.run == x)
    ensures AnswersWithin(JournalOf(after, x), JournalOf(db, x))
    ensures !Sweeps(c, x) || !Commits(db, c) ==> AnswersWithin(JournalOf(db, x), JournalOf(after, x))
  {
    if !Journals(c) {
      OtherRecords(db, c, after);
    } else if c.Spend? && Commits(db, c) && c.fence.run == x {
      SpendKeepsAnswers(db, c, after);
    }
  }

  lemma SpendKeepsAnswers(db: Db, c: Command, after: Db)
    requires c.Spend? && Commits(db, c) && after == Apply(db, c)
    ensures var a, b := JournalOf(db, c.fence.run), JournalOf(after, c.fence.run);
            AnswersWithin(a, b) && AnswersWithin(b, a)
  {
  }

  lemma SaveStepAnswers(db: Db, c: Command, x: Id, after: Db, answers: seq<Answer>)
    requires Good(db.runs) && after == Step(db, c) && c.Save? && c.fence.run == x
    requires AnswersOk(JournalOf(db, x), answers, Unended(db, x))
    ensures AnswersOk(JournalOf(after, x), NextAnswers(db, c, x, answers), Unended(after, x))
  {
    if Commits(db, c) {
      OwnerLive(db, c.fence, c.now);
      SaveAnswers(JournalOf(db, x), c.key, c.record, answers);
    }
  }

  lemma OtherStepAnswers(db: Db, c: Command, x: Id, after: Db, answers: seq<Answer>)
    requires after == Step(db, c) && !(c.Save? && c.fence.run == x) && Grows(db.runs, after.runs)
    requires AnswersOk(JournalOf(db, x), answers, Unended(db, x))
    ensures AnswersOk(JournalOf(after, x), answers, Unended(after, x))
  {
    assert x in db.runs ==> Evolves(db.runs[x], after.runs[x]);
    OtherAnswers(db, c, x, after);
    SameAnswersOk(JournalOf(db, x), JournalOf(after, x), answers, Unended(db, x), Unended(after, x));
  }

  /** The summed answers are those of distinct calls; while the run lives they are
      exactly the answers its journal holds. */
  lemma {:induction false} AnswersAreTheJournal(p: Policy, commands: seq<Command>, x: Id)
    ensures var db := After(p, commands);
            AnswersOk(JournalOf(db, x), AnswersOf(p, commands, x), Unended(db, x))
    decreases |commands|
  {
    if commands != [] {
      var rest := commands[..|commands| - 1];
      var a, c, b := After(p, rest), commands[|commands| - 1], After(p, commands);
      AnswersAreTheJournal(p, rest, x);
      AlwaysGood(p, rest);
      if c.Save? && c.fence.run == x {
        SaveStepAnswers(a, c, x, b, AnswersOf(p, rest, x));
      } else {
        StepGood(a, c, b);
        OtherStepAnswers(a, c, x, b, AnswersOf(p, rest, x));
      }
    }
  }
}

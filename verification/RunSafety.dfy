/**
 What every run of the store keeps: well-formed rows, the run forest, fencing and
 final outcomes.
 */
module RunSafety {
  import opened Options
  import opened Runs
  import opened RunTree

  // ── one row ───────────────────────────────────────────────────────────────

  ghost predicate LifeOk(x: Id, l: Life) {
    && (l.ended.Some? <==> Terminal(l.state))
    && (l.ended.Some? <==> l.outcome.Some?)
    && (l.outcome.Some? ==> Ends(l.outcome.value))
    && (l.fence.Some? <==> l.state.Running?)
    && (l.lease.Some? <==> l.state.Running?)
    && (l.fence.Some? ==> l.fence.value.run == x && l.fence.value.generation == l.generation)
    && (l.ended.Some? ==> l.held.None?)
  }

  /** An ended run waits for nothing. */
  ghost predicate MailOk(r: Run) {
    !Live(r) ==> r.mail.awaits == map[] && r.mail.listeners == map[] && r.mail.subscriptions == map[] && r.mail.waits == map[]
  }

  ghost predicate RowOk(x: Id, r: Run) {
    IdOf(r) == x && LifeOk(x, r.life) && MailOk(r)
  }

  ghost predicate RowsOk(runs: Rows) {
    forall x :: x in runs ==> RowOk(x, runs[x])
  }

  /** How a row may change: what admission fixed stays, generations only grow, and an
      ended run keeps its outcome and totals. */
  ghost predicate Evolves(r: Run, s: Run) {
    && s.origin == r.origin
    && s.life.generation >= r.life.generation
    && (!Live(r) ==> s.life == r.life && s.totals == r.totals && s.budgetEnded == r.budgetEnded)
  }

  ghost predicate Grows(a: Rows, b: Rows) {
    a.Keys <= b.Keys && forall x :: x in a ==> Evolves(a[x], b[x])
  }

  lemma GrowsOn(a: Rows, b: Rows, c: Rows)
    requires Grows(a, b) && Grows(b, c)
    ensures Grows(a, c)
  {
    forall x | x in a ensures Evolves(a[x], c[x]) {
      assert Evolves(a[x], b[x]) && Evolves(b[x], c[x]);
    }
  }

  ghost predicate Good(runs: Rows) {
    RowsOk(runs) && TreeOk(runs)
  }

  lemma OneRow(a: Rows, x: Id, r: Run, b: Rows)
    requires Good(a) && x in a && b == a[x := r]
    requires Evolves(a[x], r) && RowOk(x, r) && Live(r) == Live(a[x])
    ensures Good(b) && Grows(a, b)
  {
    assert Grafts(a, b) && SameLives(a, b);
    TreeKept(a, b);
  }

  lemma CountedGood(db: Db, id: Id, n: nat)
    requires Good(db.runs) && id in db.runs && Live(db.runs[id])
    ensures Good(Counted(db, id, n).runs)
  {
    assert RowOk(id, db.runs[id]);
    OneRow(db.runs, id, Counted(db, id, n).runs[id], Counted(db, id, n).runs);
  }

  lemma NewRow(a: Rows, r: Run, b: Rows)
    requires Good(a) && IdOf(r) !in a && b == a[IdOf(r) := r]
    requires RowOk(IdOf(r), r) && Grafted(a, r, IdOf(r))
    ensures Good(b) && Grows(a, b)
  {
    assert Grafts(a, b) && SameLives(a, b);
    TreeKept(a, b);
  }

  // ── row functions ─────────────────────────────────────────────────────────

  lemma ClaimedOk(r: Run, now: int, owner: string)
    requires RowOk(IdOf(r), r) && Live(r)
    ensures var s := Claimed(r, now, owner);
            RowOk(IdOf(r), s) && Evolves(r, s) && Live(s) && s.life.generation == r.life.generation + 1
  {
  }

  lemma ReportedOk(p: Run, child: Id, status: Status, now: int)
    requires RowOk(IdOf(p), p)
    ensures var q := Reported(p, child, status, now);
            RowOk(IdOf(p), q) && Evolves(p, q) && Live(q) == Live(p) && q.totals == p.totals
    ensures !Live(p) ==> Reported(p, child, status, now) == p
  {
  }

  lemma EndedOk(r: Run, status: Status, spent: nat, now: int)
    requires RowOk(IdOf(r), r) && Live(r) && Ends(status)
    ensures var s := Ended(r, status, spent, now);
            RowOk(IdOf(r), s) && Evolves(r, s) && !Live(s)
  {
  }

  // ── steps ─────────────────────────────────────────────────────────────────

  lemma EndTreeGood(a: Rows, id: Id, status: Status, spent: nat, now: int, b: Rows)
    requires Good(a) && id in a && Live(a[id]) && Ends(status) && b == EndTree(a, id, status, spent, now)
    ensures Good(b) && Grows(a, b)
  {
    EndTreeKeeps(a, id, status, spent, now, b);
    forall x | x in a ensures Evolves(a[x], b[x]) && RowOk(x, b[x]) {
      assert RowOk(x, a[x]);
      EndTreeRow(a, id, status, spent, now, x);
    }
  }

  lemma EndTreeRow(a: Rows, id: Id, status: Status, spent: nat, now: int, x: Id)
    requires x in a && RowOk(x, a[x]) && id in a && Live(a[id]) && Ends(status)
    ensures var r := EndTree(a, id, status, spent, now)[x];
            Evolves(a[x], r) && RowOk(x, r)
  {
    if x == id {
      EndedOk(a[x], status, spent, now);
    } else if EndsWith(a, x, id) {
      EndedOk(a[x], Cancel, spent, now);
    }
  }

  lemma ReportGood(a: Rows, child: Id, status: Status, now: int, b: Rows)
    requires Good(a) && child in a && b == ReportTo(a, child, status, now)
    ensures Good(b) && Grows(a, b)
  {
    var p := ParentOf(a[child]);
    if p.Some? && p.value in a {
      assert RowOk(p.value, a[p.value]);
      ReportedOk(a[p.value], child, status, now);
      OneRow(a, p.value, Reported(a[p.value], child, status, now), b);
    }
  }

  lemma TerminateGood(db: Db, id: Id, status: Status, now: int)
    requires Good(db.runs) && id in db.runs && Live(db.runs[id]) && Ends(status)
    ensures var after := Terminate(db, id, status, now);
            Good(after.runs) && Grows(db.runs, after.runs)
  {
    var spent := Spent(db, RootOf(db.runs[id]));
    var b := EndTree(db.runs, id, status, spent, now);
    EndTreeGood(db.runs, id, status, spent, now, b);
    var c := ReportTo(b, id, status, now);
    ReportGood(b, id, status, now, c);
    GrowsOn(db.runs, b, c);
  }

  lemma LastGood(db: Db, id: Id, n: nat, status: Status, now: int, after: Db)
    requires Good(db.runs) && id in db.runs && Live(db.runs[id]) && Ends(status) && after == Concludes(db, id, status, n, now)
    ensures Good(after.runs) && Grows(db.runs, after.runs)
  {
    var mid := Counted(db, id, n);
    assert RowOk(id, db.runs[id]);
    OneRow(db.runs, id, mid.runs[id], mid.runs);
    TerminateGood(mid, id, status, now);
    GrowsOn(db.runs, mid.runs, after.runs);
  }

  lemma LetGoOk(r: Run, status: Status, woken: bool, now: int)
    requires RowOk(IdOf(r), r) && Live(r) && !Ends(status)
    ensures var s := LetGo(r, status, woken, now);
            RowOk(IdOf(r), s) && Evolves(r, s) && Live(s) && s.life.fence.None?
  {
  }

  lemma LetGoGood(a: Rows, x: Id, status: Status, woken: bool, now: int, c: Rows)
    requires Good(a) && x in a && Live(a[x]) && !Ends(status) && c == Rested(a, x, status, woken, now)
    ensures Good(c) && Grows(a, c)
  {
    assert RowOk(x, a[x]);
    LetGoOk(a[x], status, woken, now);
    var b := a[x := LetGo(a[x], status, woken, now)];
    OneRow(a, x, b[x], b);
    ReportGood(b, x, status, now, c);
    GrowsOn(a, b, c);
  }

  lemma FinishGood(db: Db, id: Id, status: Status, woken: bool, now: int, after: Db)
    requires Good(db.runs) && id in db.runs && Live(db.runs[id]) && after == Finishes(db, id, status, woken, now)
    ensures Good(after.runs) && Grows(db.runs, after.runs)
  {
    var n := db.runs[id].life.interruptions;
    var verdict := Verdict(n, status);
    if Ends(verdict) {
      LastGood(db, id, Tries(n, status), verdict, now, after);
    } else {
      assert after.runs == Rested(db.runs, id, status, woken, now) && verdict == status;
      LetGoGood(db.runs, id, status, woken, now, after.runs);
    }
  }

  lemma HoldGood(a: Rows, id: Id, hold: Option<Hold>, b: Rows)
    requires Good(a) && b == HoldTree(a, id, hold)
    ensures Good(b) && Grows(a, b)
  {
    forall x | x in a ensures RowOk(x, b[x]) && Evolves(a[x], b[x]) && Live(a[x]) == Live(b[x]) {
      assert RowOk(x, a[x]);
    }
    assert Grafts(a, b) && SameLives(a, b);
    TreeKept(a, b);
  }

  lemma ExpectsGood(a: Rows, x: Id, child: Id, now: int, b: Rows)
    requires Good(a) && x in a && Live(a[x]) && b == a[x := Expects(a[x], child, now)]
    ensures Good(b) && Grows(a, b)
  {
    assert RowOk(x, a[x]);
    OneRow(a, x, b[x], b);
  }

  lemma RejoinedGood(b: Rows, child: Id, now: int, c: Rows)
    requires Good(b) && child in b && c == Rejoined(b, child, now)
    ensures Good(c) && Grows(b, c)
  {
    var r := b[child].life;
    if r.outcome.Some? {
      ReportGood(b, child, r.outcome.value, now, c);
    } else if r.state.Waiting? {
      ReportGood(b, child, Sleeping(0), now, c);
    }
  }

  lemma NewChildGood(b: Rows, a: Admission, link: Link, now: int, owner: string, c: Rows)
    requires Good(b) && a.id !in b && link.parent in b && Live(b[link.parent])
    requires c == b[a.id := NewChild(b[link.parent], a, link, now, owner)]
    ensures Good(c) && Grows(b, c)
  {
    ClaimedOk(Born(Origin(a, now, Some(link), Some(RootOf(b[link.parent])), None), now), now, owner);
    NewRow(b, c[a.id], c);
  }

  lemma ChildGood(db: Db, f: Fence, a: Admission, link: Link, now: int, owner: string, after: Db)
    requires Good(db.runs) && MayStartChild(db, f, a, link, now) && after == WithChild(db, f, a, link, now, owner)
    ensures Good(after.runs) && Grows(db.runs, after.runs)
  {
    OwnerLive(db, f, now);
    var b := db.runs[f.run := Expects(db.runs[f.run], a.id, now)];
    ExpectsGood(db.runs, f.run, a.id, now, b);
    var c := after.runs;
    if a.id in b {
      assert c == Rejoined(b, a.id, now);
      RejoinedGood(b, a.id, now, c);
    } else {
      NewChildGood(b, a, link, now, owner, c);
    }
    GrowsOn(db.runs, b, c);
  }

  lemma AdmitGood(a: Rows, r: Run, b: Rows)
    requires Good(a) && IdOf(r) !in a && b == a[IdOf(r) := r]
    requires RowOk(IdOf(r), r) && r.origin.child.None? && r.origin.root.None?
    ensures Good(b) && Grows(a, b)
  {
    NewRow(a, r, b);
  }

  /** A step that rewrites one stored row. */
  lemma Touch(a: Rows, x: Id, r: Run, b: Rows)
    requires Good(a) && x in a && b == a[x := r] && Rewrites(x, a[x], r)
    ensures Good(b) && Grows(a, b)
  {
    assert RowOk(x, a[x]);
    OneRow(a, x, r, b);
  }

  ghost predicate Rewrites(x: Id, r: Run, s: Run) {
    RowOk(x, r) ==> Evolves(r, s) && RowOk(x, s) && Live(s) == Live(r)
  }

  lemma RenewedOk(x: Id, r: Run, now: int)
    requires r.life.state.Running?
    ensures Rewrites(x, r, Renewed(r, now)) && Rewrites(x, r, Released(r, now))
  {
  }

  lemma MarkedOk(x: Id, r: Run, totals: Totals)
    requires r.life.state.Running?
    ensures Rewrites(x, r, r.(evidence := true, totals := totals))
  {
  }

  lemma MailedOk(x: Id, r: Run, mail: Mail, wake: int, evidence: bool)
    requires Live(r)
    ensures Rewrites(x, r, r.(mail := mail, life := r.life.(wake := wake), evidence := evidence))
  {
  }

  lemma SweptOk(x: Id, r: Run)
    ensures Rewrites(x, r, Swept(r))
  {
  }

  lemma OwnerLive(db: Db, f: Fence, now: int)
    requires Good(db.runs) && Authority(db, f, now)
    ensures Live(db.runs[f.run])
  {
    assert RowOk(f.run, db.runs[f.run]);
  }

  predicate IsTouch(c: Command) {
    c.Renew? || c.Release? || c.Save? || c.Spend? || c.Listen? || c.Deliver? || c.Sweep?
  }

  predicate IsRoot(c: Command) {
    c.Admit? || c.Start? || c.Refuse?
  }

  lemma LeaseGood(db: Db, c: Command, b: Rows)
    requires Good(db.runs) && Commits(db, c) && (c.Renew? || c.Release?) && b == Apply(db, c).runs
    ensures Good(b) && Grows(db.runs, b)
  {
    var x := c.fence.run;
    var r := db.runs[x];
    RenewedOk(x, r, c.now);
    Touch(db.runs, x, if c.Renew? then Renewed(r, c.now) else Released(r, c.now), b);
  }

  lemma JournalGood(db: Db, c: Command, b: Rows)
    requires Good(db.runs) && Commits(db, c) && (c.Save? || c.Spend?) && b == Apply(db, c).runs
    ensures Good(b) && Grows(db.runs, b)
  {
    var x := c.fence.run;
    var r := db.runs[x].(evidence := true, totals := b[x].totals);
    MarkedOk(x, db.runs[x], b[x].totals);
    Touch(db.runs, x, r, b);
  }

  lemma MailGood(db: Db, x: Id, mail: Mail, wake: int, news: Journal, stored: bool, b: Rows)
    requires Good(db.runs) && x in db.runs && Live(db.runs[x]) && b == WithMail(db, x, mail, wake, news, stored).runs
    ensures Good(b) && Grows(db.runs, b)
  {
    var r := db.runs[x];
    MailedOk(x, r, mail, wake, r.evidence || stored);
    Touch(db.runs, x, r.(mail := mail, life := r.life.(wake := wake), evidence := r.evidence || stored), b);
  }

  lemma SweepGood(a: Rows, x: Id, b: Rows)
    requires Good(a) && x in a && b == a[x := Swept(a[x])]
    ensures Good(b) && Grows(a, b)
  {
    SweptOk(x, a[x]);
    Touch(a, x, Swept(a[x]), b);
  }

  /** Steps that rewrite one row. */
  lemma TouchGood(db: Db, c: Command, b: Rows)
    requires Good(db.runs) && Commits(db, c) && IsTouch(c) && b == Apply(db, c).runs
    ensures Good(b) && Grows(db.runs, b)
  {
    if c.Renew? || c.Release? {
      LeaseGood(db, c, b);
    } else if c.Save? || c.Spend? {
      JournalGood(db, c, b);
    } else if c.Listen? {
      OwnerLive(db, c.fence, c.now);
      MailGood(db, c.fence.run, c.mail, db.runs[c.fence.run].life.wake, c.news, c.stored, b);
    } else if c.Deliver? {
      MailGood(db, c.id, c.mail, c.wake, c.news, c.stored, b);
    } else {
      SweepGood(db.runs, c.id, b);
    }
  }

  /** Steps that add a root. */
  lemma RootGood(db: Db, c: Command, b: Rows)
    requires Good(db.runs) && Commits(db, c) && b == Apply(db, c).runs
    requires IsRoot(c)
    ensures Good(b) && Grows(db.runs, b)
  {
    match c
    case Admit(ad, trigger, now) => AdmitGood(db.runs, Born(Origin(ad, now, None, None, trigger), now), b);
    case Start(ad, now, owner) =>
      var born := Born(Origin(ad, now, None, None, None), now);
      ClaimedOk(born, now, owner);
      AdmitGood(db.runs, Claimed(born, now, owner), b);
    case Refuse(ad, error, now) =>
      AdmitGood(db.runs, Refused(Born(Origin(ad, now, None, None, None), now), error, now), b);
  }

  lemma ClaimGood(a: Rows, id: Id, now: int, owner: string, b: Rows)
    requires Good(a) && id in a && Claimable(a[id].life, now) && b == a[id := Claimed(a[id], now, owner)]
    ensures Good(b) && Grows(a, b)
  {
    assert RowOk(id, a[id]);
    ClaimedOk(a[id], now, owner);
    OneRow(a, id, Claimed(a[id], now, owner), b);
  }

  lemma EndGood(db: Db, c: Command, after: Db)
    requires Good(db.runs) && Commits(db, c) && after == Apply(db, c) && (c.Finish? || c.Kill?)
    ensures Good(after.runs) && Grows(db.runs, after.runs)
  {
    if c.Finish? {
      OwnerLive(db, c.fence, c.now);
      FinishGood(db, c.fence.run, c.status, c.woken, c.now, after);
    } else {
      TerminateGood(db, c.id, Cancel, c.now);
    }
  }

  /** Every step keeps rows and trees well-formed and only lets rows evolve. */
  lemma StepGood(db: Db, c: Command, after: Db)
    requires Good(db.runs) && after == Step(db, c)
    ensures Good(after.runs) && Grows(db.runs, after.runs)
  {
    if Commits(db, c) {
      if IsTouch(c) {
        TouchGood(db, c, after.runs);
      } else if IsRoot(c) {
        RootGood(db, c, after.runs);
      } else if c.Finish? || c.Kill? {
        EndGood(db, c, after);
      } else if c.Claim? {
        ClaimGood(db.runs, c.id, c.now, c.owner, after.runs);
      } else if c.StartChild? {
        ChildGood(db, c.fence, c.a, c.link, c.now, c.owner, after);
      } else if c.SetHold? {
        HoldGood(db.runs, c.id, c.hold, after.runs);
      }
    }
  }

  lemma {:induction false} PowerGrows(m: nat, n: nat)
    requires m <= n
    ensures 1 <= Power(m) <= Power(n)
    decreases n
  {
    if m < n {
      PowerGrows(m, n - 1);
    } else if n > 0 {
      PowerGrows(m - 1, n - 1);
    }
  }

  /** The pause doubles with each interruption up to ten minutes. */
  lemma BackoffDoubles(n: nat)
    requires n > 0
    ensures Backoff(1) == 2_000
    ensures Backoff(n + 1) == if 2 * Backoff(n) < 600_000 then 2 * Backoff(n) else 600_000
  {
    if n > 20 {
      PowerGrows(9, 20);
      assert Power(9) == 512;
    }
  }

  // ── whole runs ────────────────────────────────────────────────────────────

  /** Every reachable store has well-formed rows in a forest where a live run's
      ancestors are live. */
  lemma {:induction false} AlwaysGood(p: Policy, commands: seq<Command>)
    ensures Good(After(p, commands).runs)
    decreases |commands|
  {
    if commands == [] {
      assert After(p, commands).runs == map[];
    } else {
      var rest := commands[..|commands| - 1];
      AlwaysGood(p, rest);
      StepGood(After(p, rest), commands[|commands| - 1], After(p, commands));
    }
  }

  lemma {:induction false} AlwaysGrows(p: Policy, commands: seq<Command>, i: nat)
    requires i <= |commands|
    ensures Grows(After(p, commands[..i]).runs, After(p, commands).runs)
    decreases |commands|
  {
    if i == |commands| {
      assert commands[..i] == commands;
    } else {
      var rest := commands[..|commands| - 1];
      assert rest[..i] == commands[..i];
      AlwaysGrows(p, rest, i);
      AlwaysGood(p, rest);
      StepGood(After(p, rest), commands[|commands| - 1], After(p, commands));
      GrowsOn(After(p, commands[..i]).runs, After(p, rest).runs, After(p, commands).runs);
    }
  }

  lemma Between(p: Policy, commands: seq<Command>, i: nat, j: nat)
    requires i <= j <= |commands|
    ensures Grows(After(p, commands[..i]).runs, After(p, commands[..j]).runs)
  {
    assert commands[..j][..i] == commands[..i];
    AlwaysGrows(p, commands[..j], i);
  }

  /** A terminal outcome, with the instant of the end and the totals, never changes. */
  lemma OutcomeIsFinal(p: Policy, commands: seq<Command>, i: nat, j: nat, x: Id)
    requires i <= j <= |commands| && x in After(p, commands[..i]).runs && !Live(After(p, commands[..i]).runs[x])
    ensures var a, b := After(p, commands[..i]).runs, After(p, commands[..j]).runs;
            x in b && b[x].life == a[x].life && b[x].totals == a[x].totals && b[x].origin == a[x].origin
  {
    Between(p, commands, i, j);
  }

  /** The fence a step acts under. */
  function FenceOf(c: Command): Option<Fence> {
    match c
    case Renew(f, _) => Some(f)
    case Release(f, _) => Some(f)
    case Save(f, _, _, _) => Some(f)
    case Spend(f, _, _, _) => Some(f)
    case Listen(f, _, _, _, _) => Some(f)
    case Finish(f, _, _, _) => Some(f)
    case StartChild(f, _, _, _, _) => Some(f)
    case _ => None
  }

  lemma FenceNeeded(db: Db, c: Command)
    requires FenceOf(c).Some? && Commits(db, c)
    ensures Authority(db, FenceOf(c).value, c.now)
  {
  }

  lemma Outdated(db: Db, c: Command, f: Fence)
    requires RowsOk(db.runs) && FenceOf(c) == Some(f) && f.run in db.runs && db.runs[f.run].life.generation > f.generation
    ensures !Commits(db, c)
  {
    assert RowOk(f.run, db.runs[f.run]);
    if Commits(db, c) {
      FenceNeeded(db, c);
    }
  }

  lemma Next(p: Policy, commands: seq<Command>, i: nat)
    requires i < |commands|
    ensures After(p, commands[..i + 1]) == Step(After(p, commands[..i]), commands[i])
  {
    assert commands[..i + 1][..i] == commands[..i];
  }

  lemma ClaimRaises(p: Policy, commands: seq<Command>, i: nat)
    requires i < |commands| && commands[i].Claim? && Commits(After(p, commands[..i]), commands[i])
    ensures var a, b, x := After(p, commands[..i]).runs, After(p, commands[..i + 1]).runs, commands[i].id;
            x in a && x in b && b[x].life.generation == a[x].life.generation + 1
  {
    Next(p, commands, i);
  }

  lemma Overtaken(p: Policy, commands: seq<Command>, h: nat, i: nat, j: nat, f: Fence, now: int)
    requires h <= i < j <= |commands|
    requires Authority(After(p, commands[..h]), f, now)
    requires commands[i].Claim? && commands[i].id == f.run && Commits(After(p, commands[..i]), commands[i])
    ensures f.run in After(p, commands[..j]).runs && After(p, commands[..j]).runs[f.run].life.generation > f.generation
  {
    AlwaysGood(p, commands[..h]);
    assert RowOk(f.run, After(p, commands[..h]).runs[f.run]);
    Between(p, commands, h, i);
    ClaimRaises(p, commands, i);
    Between(p, commands, i + 1, j);
  }

  /** Once a later claim of the run commits, nothing under an earlier fence ever
      commits again. */
  lemma StaleFenceNeverCommits(p: Policy, commands: seq<Command>, h: nat, i: nat, j: nat, f: Fence, now: int)
    requires h <= i < j < |commands|
    requires Authority(After(p, commands[..h]), f, now)
    requires commands[i].Claim? && commands[i].id == f.run && Commits(After(p, commands[..i]), commands[i])
    requires FenceOf(commands[j]) == Some(f)
    ensures !Commits(After(p, commands[..j]), commands[j])
  {
    Overtaken(p, commands, h, i, j, f, now);
    AlwaysGood(p, commands[..j]);
    Outdated(After(p, commands[..j]), commands[j], f);
  }
}

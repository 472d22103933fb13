/**
 The run rows and the mailboxes as one machine: every step of the run store together
 with what it does to the mailbox of each run. Rows and mailboxes agree in every
 reachable state, so the wake-up rule of the mailbox is one about claims.
 */
module JointRuns {
  import opened Options
  import opened Runs
  import opened RunTree
  import opened RunSafety
  import opened RunMail
  import M = Mailbox
  import P = MailboxProofs
  import H = MailboxRuns

  datatype Joint = Joint(db: Db, boxes: map<Id, M.Box>)

  /** A command, the instant it commits at, the mailbox operation that a listen or an
      arrival performs, and the payload of a notice. */
  datatype Action = Action(c: Command, now: int, event: M.Command, data: string)

  /** At most two mailbox operations of a step on one run. */
  datatype Effect = Effect(first: Option<M.Command>, second: Option<M.Command>)

  const NOTHING := Effect(None, None)

  function Once(c: M.Command): Effect {
    Effect(Some(c), None)
  }

  function Perform(b: M.Box, c: Option<M.Command>, now: int): M.Box {
    if c.None? then b else M.Step(b, c.value, now)
  }

  function Performed(b: M.Box, e: Effect, now: int): M.Box {
    Perform(Perform(b, e.first, now), e.second, now)
  }

  // ── what a step does to the mailboxes ─────────────────────────────────────

  /** The end of `id`: the mailboxes of what ends, and the notice to its parent. */
  ghost function EndEffect(runs: Rows, id: Id, x: Id, data: string): Effect
    requires id in runs
  {
    Effect(if EndsWith(runs, x, id) then Some(M.DoTerminate) else None,
           if ParentOf(runs[id]) == Some(x) then Some(M.DoChildDone(id, data)) else None)
  }

  ghost function FinishEffect(db: Db, id: Id, status: Status, x: Id, data: string, now: int): Effect
    requires id in db.runs
  {
    var life := db.runs[id].life;
    if Ends(Verdict(life.interruptions, status)) then
      EndEffect(Counted(db, id, Tries(life.interruptions, status)).runs, id, x, data)
    else if x == id then
      Once(if status.Sleeping? then M.DoFinishWaiting(status.until) else M.DoRelease(Later(now, Backoff(life.interruptions + 1))))
    else if status.Sleeping? && ParentOf(db.runs[id]) == Some(x) then
      Once(M.DoChildWaiting(id, data))
    else NOTHING
  }

  /** A parent starts its child, or hears again what the stored one reported. */
  function ChildEffect(runs: Rows, child: Id, data: string): Effect {
    Effect(Some(M.DoStartChild(child)),
           if child !in runs then None
           else if runs[child].life.outcome.Some? then Some(M.DoChildDone(child, data))
           else if runs[child].life.state.Waiting? then Some(M.DoChildWaiting(child, data))
           else None)
  }

  ghost function EffectOn(db: Db, a: Action, x: Id): Effect
    requires Commits(db, a.c)
  {
    match a.c
    case Claim(id, _, _, _) => if x == id then Once(M.DoClaim) else NOTHING
    case Release(f, now) => if x == f.run then Once(M.DoRelease(now)) else NOTHING
    case Save(f, k, _, _) => if x == f.run then Once(M.DoSave(k, a.data)) else NOTHING
    case Spend(f, k, _, _) => if x == f.run then Once(M.DoSave(k, a.data)) else NOTHING
    case Listen(f, _, _, _, _) => if x == f.run then Once(a.event) else NOTHING
    case Deliver(id, _, _, _, _) => if x == id then Once(a.event) else NOTHING
    case Finish(f, status, _, now) => FinishEffect(db, f.run, status, x, a.data, now)
    case StartChild(f, child, _, _, _) => if x == f.run then ChildEffect(db.runs, child.id, a.data) else NOTHING
    case Kill(id, _) => EndEffect(db.runs, id, x, a.data)
    case Sweep(id, _, _) => if x == id then Once(M.DoForget) else NOTHING
    case _ => NOTHING
  }

  /** The mailbox of a run the step admits. */
  function NewBox(c: Command, now: int): M.Box {
    if c.Admit? then M.Fresh(now)
    else if c.Refuse? then M.Step(M.Fresh(now), M.DoTerminate, now)
    else M.Step(M.Fresh(now), M.DoClaim, now)
  }

  ghost function BoxAfter(j: Joint, a: Action, x: Id): M.Box
    requires Commits(j.db, a.c)
  {
    if x in j.boxes then Performed(j.boxes[x], EffectOn(j.db, a, x), a.now) else NewBox(a.c, a.now)
  }

  ghost function Next(j: Joint, a: Action): Joint {
    if Commits(j.db, a.c) then
      Joint(Step(j.db, a.c), map x | x in Step(j.db, a.c).runs :: BoxAfter(j, a, x))
    else j
  }

  // ── what the store gives a command ────────────────────────────────────────

  predicate At(c: Command, now: int) {
    match c
    case SetHold(_, _) => true
    case Stop(_) => true
    case Deliver(_, _, _, _, _) => true
    case _ => c.now == now
  }

  predicate OwnerListens(e: M.Command) {
    e.DoRegister? || e.DoUnregister? || e.DoTake? || e.DoSubscribe? || e.DoUnsubscribe?
  }

  predicate Arrives(e: M.Command) {
    e.DoDeliver? || e.DoPublish? || e.DoOffer? || e.DoSweepExpired?
  }

  /** What is written to the row is what the mailbox operation left. */
  ghost predicate Writes(r: Run, b: M.Box, mail: Mail, stored: bool) {
    SameMail(mail, b) && b.row.evidence == (r.evidence || stored)
  }

  /** The command carries its instant, and what it takes from the mailbox is there. */
  ghost predicate Fits(j: Joint, a: Action) {
    At(a.c, a.now) &&
    match a.c
    case Listen(f, mail, _, stored, _) =>
      OwnerListens(a.event) &&
      (f.run in j.db.runs && f.run in j.boxes ==> Writes(j.db.runs[f.run], M.Step(j.boxes[f.run], a.event, a.now), mail, stored))
    case Deliver(id, mail, wake, _, stored) =>
      Arrives(a.event) &&
      (id in j.db.runs && id in j.boxes ==>
         var b := M.Step(j.boxes[id], a.event, a.now);
         Writes(j.db.runs[id], b, mail, stored) && wake == b.row.wake)
    case Finish(f, _, woken, _) =>
      f.run in j.boxes ==> woken == M.HasWanted(j.boxes[f.run].row.(state := M.Waiting), j.boxes[f.run].copies, a.now)
    case _ => true
  }

  // ── rows and mailboxes agree ──────────────────────────────────────────────

  ghost predicate BoxOk(r: Run, b: M.Box, now: int) {
    Holds(r, b) && P.Valid(b) && P.NoLostWake(b, now)
  }

  ghost predicate Agree(j: Joint, now: int) {
    && Good(j.db.runs) && j.boxes.Keys == j.db.runs.Keys
    && forall x :: x in j.db.runs ==> BoxOk(j.db.runs[x], j.boxes[x], now)
  }

  lemma PerformKeeps(b: M.Box, c: Option<M.Command>, then_: int, now: int)
    requires P.Valid(b) && P.NoLostWake(b, then_) && then_ <= now
    ensures P.Valid(Perform(b, c, now)) && P.NoLostWake(Perform(b, c, now), now)
  {
    if c.None? {
      H.WakeStays(b, then_, now);
    } else {
      H.StepKeeps(b, c.value, then_, now, M.Step(b, c.value, now));
    }
  }

  lemma PerformedKeeps(b: M.Box, e: Effect, then_: int, now: int)
    requires P.Valid(b) && P.NoLostWake(b, then_) && then_ <= now
    ensures P.Valid(Performed(b, e, now)) && P.NoLostWake(Performed(b, e, now), now)
  {
    PerformKeeps(b, e.first, then_, now);
    PerformKeeps(Perform(b, e.first, now), e.second, now, now);
  }

  lemma NewBoxKeeps(c: Command, now: int)
    ensures P.Valid(NewBox(c, now)) && P.NoLostWake(NewBox(c, now), now)
  {
    H.FreshValid(now);
    PerformKeeps(M.Fresh(now), if c.Admit? then None else if c.Refuse? then Some(M.DoTerminate) else Some(M.DoClaim), now, now);
  }

  lemma BornHolds(o: Origin, now: int)
    ensures Holds(Born(o, now), M.Fresh(now))
  {
  }

  lemma RefusedHolds(o: Origin, error: string, now: int)
    ensures Holds(Refused(Born(o, now), error, now), M.Step(M.Fresh(now), M.DoTerminate, now))
  {
  }

  lemma StartedHolds(o: Origin, owner: string, now: int)
    ensures Holds(Claimed(Born(o, now), now, owner), M.Step(M.Fresh(now), M.DoClaim, now))
  {
  }

  // ── one row's step ────────────────────────────────────────────────────────

  /** An ended run hears nothing. */
  lemma EndedDeaf(r: Run, child: Id, status: Status, now: int)
    requires !Live(r) && r.mail.awaits == map[]
    ensures Reported(r, child, status, now) == r
  {
  }

  lemma ChildDoneFollows(r: Run, b: M.Box, child: Id, status: Status, data: string, now: int)
    requires Holds(r, b) && P.Valid(b) && Ends(status) && (!Live(r) ==> r.mail.awaits == map[])
    ensures Holds(Reported(r, child, status, now), M.Step(b, M.DoChildDone(child, data), now))
  {
    if Live(r) {
      assert r.mail.addressed <= r.mail.awaits.Keys;
      ChildEndHolds(r, b, child, status, data, now);
    } else {
      EndedDeaf(r, child, status, now);
    }
  }

  lemma TerminateFollows(r: Run, b: M.Box, status: Status, spent: nat, now: int)
    requires Holds(r, b) && Live(r)
    ensures Holds(Ended(r, status, spent, now), M.Step(b, M.DoTerminate, now))
  {
    EndHolds(r, b, status, spent, now);
  }

  /** The row of `x` at the end of `id`: ended with it, told as its parent, or neither. */
  lemma EndRow(db: Db, id: Id, status: Status, now: int, x: Id, q: Run)
    requires Good(db.runs) && id in db.runs && x in db.runs
    requires var spent := Spent(db, RootOf(db.runs[id]));
             q == if !EndsWith(db.runs, x, id) then db.runs[x] else Ended(db.runs[x], if x == id then status else Cancel, spent, now)
    ensures x in Terminate(db, id, status, now).runs
    ensures Terminate(db, id, status, now).runs[x] ==
            if ParentOf(db.runs[id]) == Some(x) then Reported(q, id, status, now) else q
  {
    var after := EndedWith(db, id, status, now);
    assert ParentOf(after.runs[id]) == ParentOf(db.runs[id]) && after.runs[x] == q;
  }

  /** The mailbox at the same end. */
  lemma EndBox(r: Run, q: Run, b: M.Box, b1: M.Box, ends: bool, status: Status, spent: nat, now: int)
    requires Holds(r, b) && (ends ==> Live(r)) && q == (if ends then Ended(r, status, spent, now) else r)
    requires b1 == Perform(b, if ends then Some(M.DoTerminate) else None, now)
    ensures Holds(q, b1)
  {
    if ends {
      TerminateFollows(r, b, status, spent, now);
    }
  }

  lemma EndedQuiet(x: Id, runs: Rows, q: Run, status: Status, spent: nat, now: int)
    requires Good(runs) && x in runs && (q == runs[x] || q == Ended(runs[x], status, spent, now))
    ensures !Live(q) ==> q.mail.awaits == map[]
  {
    assert RowOk(x, runs[x]);
  }

  lemma HearEnd(q: Run, b: M.Box, id: Id, status: Status, data: string, now: int, told: bool, c: Option<M.Command>)
    requires Holds(q, b) && P.Valid(b) && Ends(status) && (!Live(q) ==> q.mail.awaits == map[])
    requires c == if told then Some(M.DoChildDone(id, data)) else None
    ensures Holds(if told then Reported(q, id, status, now) else q, Perform(b, c, now))
  {
    if told {
      ChildDoneFollows(q, b, id, status, data, now);
    }
  }

  lemma EndFollows(db: Db, id: Id, status: Status, now: int, x: Id, b: M.Box, data: string)
    requires Good(db.runs) && id in db.runs && Live(db.runs[id]) && Ends(status)
    requires x in db.runs && BoxOk(db.runs[x], b, now)
    ensures x in Terminate(db, id, status, now).runs
    ensures Holds(Terminate(db, id, status, now).runs[x], Performed(b, EndEffect(db.runs, id, x, data), now))
  {
    var e, ends := EndEffect(db.runs, id, x, data), EndsWith(db.runs, x, id);
    var spent, s := Spent(db, RootOf(db.runs[id])), if x == id then status else Cancel;
    var q := if ends then Ended(db.runs[x], s, spent, now) else db.runs[x];
    var b1 := Perform(b, e.first, now);
    EndRow(db, id, status, now, x, q);
    EndBox(db.runs[x], q, b, b1, ends, s, spent, now);
    PerformKeeps(b, e.first, now, now);
    EndedQuiet(x, db.runs, q, s, spent, now);
    HearEnd(q, b1, id, status, data, now, ParentOf(db.runs[id]) == Some(x), e.second);
  }

  lemma FinishFollows(db: Db, id: Id, status: Status, woken: bool, now: int, x: Id, b: M.Box, data: string)
    requires Good(db.runs) && id in db.runs && db.runs[id].life.state.Running?
    requires x in db.runs && BoxOk(db.runs[x], b, now)
    requires x == id ==> woken == M.HasWanted(b.row.(state := M.Waiting), b.copies, now)
    ensures x in Finishes(db, id, status, woken, now).runs
    ensures Holds(Finishes(db, id, status, woken, now).runs[x], Performed(b, FinishEffect(db, id, status, x, data, now), now))
  {
    var life := db.runs[id].life;
    assert RowOk(id, db.runs[id]);
    var verdict, tries := Verdict(life.interruptions, status), Tries(life.interruptions, status);
    if Ends(verdict) {
      ConcludeFollows(db, id, verdict, tries, now, x, b, data);
    } else {
      RestFollows(db.runs, id, status, woken, now, x, b, data, FinishEffect(db, id, status, x, data, now));
    }
  }

  lemma ConcludeFollows(db: Db, id: Id, verdict: Status, tries: nat, now: int, x: Id, b: M.Box, data: string)
    requires Good(db.runs) && id in db.runs && Live(db.runs[id]) && Ends(verdict)
    requires x in db.runs && BoxOk(db.runs[x], b, now)
    ensures x in Concludes(db, id, verdict, tries, now).runs
    ensures Holds(Concludes(db, id, verdict, tries, now).runs[x], Performed(b, EndEffect(Counted(db, id, tries).runs, id, x, data), now))
  {
    CountedGood(db, id, tries);
    EndFollows(Counted(db, id, tries), id, verdict, now, x, b, data);
  }

  lemma RestRow(runs: Rows, id: Id, status: Status, woken: bool, now: int, x: Id)
    requires Good(runs) && id in runs && x in runs
    ensures x in Rested(runs, id, status, woken, now)
    ensures Rested(runs, id, status, woken, now)[x] ==
            if x == id then LetGo(runs[id], status, woken, now)
            else if ParentOf(runs[id]) == Some(x) then Reported(runs[x], id, status, now)
            else runs[x]
  {
    NotOwnParent(runs, id);
    assert ParentOf(LetGo(runs[id], status, woken, now)) == ParentOf(runs[id]);
  }

  lemma RestFollows(runs: Rows, id: Id, status: Status, woken: bool, now: int, x: Id, b: M.Box, data: string, e: Effect)
    requires Good(runs) && id in runs && runs[id].life.state.Running? && !Ends(status) && Live(runs[id])
    requires x in runs && Holds(runs[x], b)
    requires x == id ==> woken == M.HasWanted(b.row.(state := M.Waiting), b.copies, now)
    requires e == if x == id then Once(if status.Sleeping? then M.DoFinishWaiting(status.until) else M.DoRelease(Later(now, Backoff(runs[id].life.interruptions + 1))))
                  else if status.Sleeping? && ParentOf(runs[id]) == Some(x) then Once(M.DoChildWaiting(id, data))
                  else NOTHING
    ensures x in Rested(runs, id, status, woken, now)
    ensures Holds(Rested(runs, id, status, woken, now)[x], Performed(b, e, now))
  {
    RestRow(runs, id, status, woken, now, x);
    if x == id {
      LetGoFollows(runs[id], b, status, woken, now);
    } else if ParentOf(runs[id]) == Some(x) && status.Sleeping? {
      ChildWaitsHolds(runs[x], b, id, status.until, data, now);
    }
  }

  lemma LetGoFollows(r: Run, b: M.Box, status: Status, woken: bool, now: int)
    requires Holds(r, b) && r.life.state.Running? && Live(r) && !Ends(status)
    requires woken == M.HasWanted(b.row.(state := M.Waiting), b.copies, now)
    ensures var c := if status.Sleeping? then M.DoFinishWaiting(status.until) else M.DoRelease(Later(now, Backoff(r.life.interruptions + 1)));
            Holds(LetGo(r, status, woken, now), M.Step(b, c, now))
  {
    if status.Sleeping? {
      SleepHolds(r, b, status.until, woken, now);
    }
  }

  lemma NotOwnParent(runs: Rows, id: Id)
    requires Good(runs) && id in runs
    ensures ParentOf(runs[id]) != Some(id)
  {
    if ParentOf(runs[id]) == Some(id) {
      ParentNotUnder(runs, id);
      UnderSelf(runs, id);
    }
  }

  /** The parent's row once it has started the child, or heard of it again. */
  lemma ChildRow(db: Db, f: Fence, a: Admission, link: Link, now: int, owner: string, x: Id)
    requires Good(db.runs) && MayStartChild(db, f, a, link, now) && x in db.runs
    ensures x in WithChild(db, f, a, link, now, owner).runs
    ensures WithChild(db, f, a, link, now, owner).runs[x] ==
            if x != f.run then db.runs[x]
            else
              var p := Expects(db.runs[x], a.id, now);
              if a.id !in db.runs then p
              else if db.runs[a.id].life.outcome.Some? then Reported(p, a.id, db.runs[a.id].life.outcome.value, now)
              else if db.runs[a.id].life.state.Waiting? then Reported(p, a.id, Sleeping(0), now)
              else p
  {
  }

  lemma StartFollows(r: Run, b: M.Box, child: Id, now: int, b1: M.Box)
    requires Holds(r, b) && r.life.state.Running? && b1 == M.Step(b, M.DoStartChild(child), now)
    ensures Holds(Expects(r, child, now), b1)
  {
    StartChildHolds(r, b, child, now);
  }

  lemma StartChildFollows(db: Db, f: Fence, a: Admission, link: Link, now: int, owner: string, b: M.Box, data: string, q: Run)
    requires Good(db.runs) && MayStartChild(db, f, a, link, now) && BoxOk(db.runs[f.run], b, now)
    requires q == WithChild(db, f, a, link, now, owner).runs[f.run]
    ensures Holds(q, Performed(b, ChildEffect(db.runs, a.id, data), now))
  {
    var p := Expects(db.runs[f.run], a.id, now);
    var b1 := M.Step(b, M.DoStartChild(a.id), now);
    ChildRow(db, f, a, link, now, owner, f.run);
    StartFollows(db.runs[f.run], b, a.id, now, b1);
    PerformKeeps(b, Some(M.DoStartChild(a.id)), now, now);
    if a.id in db.runs {
      RejoinFollows(db.runs[a.id].life, a.id, p, b1, data, now, db.runs);
    }
  }

  lemma RejoinFollows(life: Life, child: Id, p: Run, b: M.Box, data: string, now: int, runs: Rows)
    requires Good(runs) && child in runs && life == runs[child].life && Holds(p, b) && P.Valid(b) && Live(p)
    ensures life.outcome.Some? ==> Holds(Reported(p, child, life.outcome.value, now), M.Step(b, M.DoChildDone(child, data), now))
    ensures life.state.Waiting? ==> Holds(Reported(p, child, Sleeping(0), now), M.Step(b, M.DoChildWaiting(child, data), now))
  {
    assert RowOk(child, runs[child]);
    if life.outcome.Some? {
      ChildDoneFollows(p, b, child, life.outcome.value, data, now);
    }
    ChildWaitsHolds(p, b, child, 0, data, now);
  }

  lemma ClaimFollows(r: Run, b: M.Box, owner: string, now: int)
    requires Holds(r, b) && Live(r)
    ensures Holds(Claimed(r, now, owner), M.Step(b, M.DoClaim, now))
  {
  }

  lemma ReleaseFollows(r: Run, b: M.Box, now: int)
    requires Holds(r, b) && r.life.state.Running?
    ensures Holds(Released(r, now), M.Step(b, M.DoRelease(now), now))
  {
  }

  lemma SaveFollows(r: Run, b: M.Box, k: string, data: string, totals: Totals, now: int)
    requires Holds(r, b) && r.life.state.Running?
    ensures Holds(r.(evidence := true, totals := totals), M.Step(b, M.DoSave(k, data), now))
  {
  }

  lemma SweepFollows(r: Run, b: M.Box, now: int)
    requires Holds(r, b) && !Live(r)
    ensures Holds(Swept(r), M.Step(b, M.DoForget, now))
  {
    SweepHolds(r, b);
  }

  lemma ListenState(b: M.Box, e: M.Command, now: int)
    requires P.Valid(b) && b.row.state.Running? && OwnerListens(e)
    ensures M.Step(b, e, now).row.state.Running?
  {
    if e.DoTake? {
      H.TakeStaysRunning(b, e.k, e.types, now);
    }
  }

  lemma ArrivalState(b: M.Box, e: M.Command, now: int)
    requires P.Valid(b) && Arrives(e)
    ensures M.Step(b, e, now).row.state == b.row.state
  {
    if e.DoDeliver? {
      AcceptState(b, M.DeliveredCopy(e.t, e.data, e.env, now, e.keep), now);
    } else if e.DoPublish? {
      AcceptState(b, M.PublishedCopy(e.t, e.data, e.env, now, e.kept), now);
    } else if e.DoSweepExpired? {
      SweepState(b, now);
    }
  }

  lemma SweepState(b: M.Box, now: int)
    requires P.Valid(b)
    ensures M.Step(b, M.DoSweepExpired, now).row.state == b.row.state
  {
    P.ExpireFrame(b, now);
  }

  lemma AcceptState(b: M.Box, e: M.Copy, now: int)
    ensures M.AcceptInto(b, e, now).row.state == b.row.state
  {
  }

  lemma MailFollows(r: Run, b: M.Box, after: M.Box, mail: Mail, wake: int, stored: bool)
    requires Holds(r, b) && after.row.state == b.row.state && Writes(r, after, mail, stored)
    requires b.row.state.Ready? || b.row.state.Waiting? ==> wake == after.row.wake
    ensures Holds(r.(mail := mail, life := r.life.(wake := wake), evidence := r.evidence || stored), after)
  {
  }

  // ── the step ──────────────────────────────────────────────────────────────

  /** The run whose row alone a command writes. */
  ghost predicate Touches(c: Command, x: Id) {
    match c
    case Claim(id, _, _, _) => x == id
    case Release(f, _) => x == f.run
    case Save(f, _, _, _) => x == f.run
    case Spend(f, _, _, _) => x == f.run
    case Sweep(id, _, _) => x == id
    case _ => false
  }

  lemma TouchFollows(db: Db, a: Action, x: Id, b: M.Box)
    requires Good(db.runs) && Commits(db, a.c) && At(a.c, a.now) && Touches(a.c, x) && x in db.runs && Holds(db.runs[x], b)
    ensures x in Step(db, a.c).runs && Holds(Step(db, a.c).runs[x], Performed(b, EffectOn(db, a, x), a.now))
  {
    assert RowOk(x, db.runs[x]);
    match a.c
    case Claim(_, _, owner, _) => ClaimFollows(db.runs[x], b, owner, a.now);
    case Release(_, _) => ReleaseFollows(db.runs[x], b, a.now);
    case Save(_, k, _, _) => SaveFollows(db.runs[x], b, k, a.data, Step(db, a.c).runs[x].totals, a.now);
    case Spend(_, k, _, _) => SaveFollows(db.runs[x], b, k, a.data, db.runs[x].totals, a.now);
    case Sweep(_, _, _) => SweepFollows(db.runs[x], b, a.now);
  }

  ghost predicate Mails(c: Command, x: Id) {
    (c.Listen? && x == c.fence.run) || (c.Deliver? && x == c.id)
  }

  lemma MailsFollows(j: Joint, a: Action, x: Id, b: M.Box)
    requires Fits(j, a) && Commits(j.db, a.c) && Mails(a.c, x) && x in j.db.runs && x in j.boxes && b == j.boxes[x]
    requires Holds(j.db.runs[x], b) && P.Valid(b)
    ensures x in Step(j.db, a.c).runs && Holds(Step(j.db, a.c).runs[x], Performed(b, EffectOn(j.db, a, x), a.now))
  {
    if a.c.Listen? {
      ListenFollows(j.db, a, x, b);
    } else {
      DeliverFollows(j.db, a, x, b);
    }
  }

  lemma ListenFollows(db: Db, a: Action, x: Id, b: M.Box)
    requires a.c.Listen? && Commits(db, a.c) && x == a.c.fence.run && Holds(db.runs[x], b) && P.Valid(b) && OwnerListens(a.event)
    requires Writes(db.runs[x], M.Step(b, a.event, a.now), a.c.mail, a.c.stored)
    ensures x in Step(db, a.c).runs && Holds(Step(db, a.c).runs[x], Performed(b, EffectOn(db, a, x), a.now))
  {
    ListenState(b, a.event, a.now);
    MailFollows(db.runs[x], b, M.Step(b, a.event, a.now), a.c.mail, db.runs[x].life.wake, a.c.stored);
  }

  lemma DeliverFollows(db: Db, a: Action, x: Id, b: M.Box)
    requires a.c.Deliver? && Commits(db, a.c) && x == a.c.id && Holds(db.runs[x], b) && P.Valid(b) && Arrives(a.event)
    requires var after := M.Step(b, a.event, a.now); Writes(db.runs[x], after, a.c.mail, a.c.stored) && a.c.wake == after.row.wake
    ensures x in Step(db, a.c).runs && Holds(Step(db, a.c).runs[x], Performed(b, EffectOn(db, a, x), a.now))
  {
    ArrivalState(b, a.event, a.now);
    MailFollows(db.runs[x], b, M.Step(b, a.event, a.now), a.c.mail, a.c.wake, a.c.stored);
  }

  /** Commands that end runs, let one go or start a child. */
  predicate Spreads(c: Command) {
    c.Finish? || c.StartChild? || c.Kill?
  }

  /** Any other row keeps everything its mailbox reads. */
  lemma OtherRow(db: Db, c: Command, x: Id)
    requires Commits(db, c) && !Spreads(c) && !Touches(c, x) && !Mails(c, x) && x in db.runs
    ensures x in Step(db, c).runs && Step(db, c).runs[x].mail == db.runs[x].mail && Step(db, c).runs[x].evidence == db.runs[x].evidence
    ensures var l, k := db.runs[x].life, Step(db, c).runs[x].life;
            k.state == l.state && k.wake == l.wake && k.ended == l.ended
  {
  }

  lemma OtherFollows(db: Db, a: Action, x: Id, b: M.Box)
    requires Commits(db, a.c) && !Spreads(a.c) && !Touches(a.c, x) && !Mails(a.c, x) && x in db.runs && Holds(db.runs[x], b)
    ensures x in Step(db, a.c).runs && Holds(Step(db, a.c).runs[x], Performed(b, EffectOn(db, a, x), a.now))
  {
    OtherRow(db, a.c, x);
    assert EffectOn(db, a, x) == NOTHING;
  }

  lemma SpreadFollows(j: Joint, a: Action, x: Id, b: M.Box)
    requires Good(j.db.runs) && Fits(j, a) && Commits(j.db, a.c) && Spreads(a.c) && x in j.db.runs && x in j.boxes && b == j.boxes[x]
    requires BoxOk(j.db.runs[x], b, a.now)
    ensures x in Step(j.db, a.c).runs && Holds(Step(j.db, a.c).runs[x], Performed(b, EffectOn(j.db, a, x), a.now))
  {
    match a.c
    case Finish(f, status, woken, _) =>
      FinishFollows(j.db, f.run, status, woken, a.now, x, b, a.data);
    case StartChild(f, child, link, _, owner) =>
      ChildStepFollows(j.db, f, child, link, a.now, owner, b, a.data, x);
    case Kill(id, _) =>
      EndFollows(j.db, id, Cancel, a.now, x, b, a.data);
  }

  lemma ChildStepFollows(db: Db, f: Fence, a: Admission, link: Link, now: int, owner: string, b: M.Box, data: string, x: Id)
    requires Good(db.runs) && MayStartChild(db, f, a, link, now) && x in db.runs && BoxOk(db.runs[x], b, now)
    ensures x in WithChild(db, f, a, link, now, owner).runs
    ensures var e := if x == f.run then ChildEffect(db.runs, a.id, data) else NOTHING;
            Holds(WithChild(db, f, a, link, now, owner).runs[x], Performed(b, e, now))
  {
    ChildRow(db, f, a, link, now, owner, x);
    if x == f.run {
      StartChildFollows(db, f, a, link, now, owner, b, data, WithChild(db, f, a, link, now, owner).runs[x]);
    }
  }

  /** Every row the step keeps still agrees with its mailbox. */
  lemma HoldsFollows(j: Joint, a: Action, x: Id, b: M.Box)
    requires Good(j.db.runs) && Fits(j, a) && Commits(j.db, a.c) && x in j.db.runs && x in j.boxes && b == j.boxes[x]
    requires BoxOk(j.db.runs[x], b, a.now)
    ensures x in Step(j.db, a.c).runs && Holds(Step(j.db, a.c).runs[x], Performed(b, EffectOn(j.db, a, x), a.now))
  {
    if Spreads(a.c) {
      SpreadFollows(j, a, x, b);
    } else if Touches(a.c, x) {
      TouchFollows(j.db, a, x, b);
    } else if Mails(a.c, x) {
      MailsFollows(j, a, x, b);
    } else {
      OtherFollows(j.db, a, x, b);
    }
  }

  lemma RowFollows(j: Joint, a: Action, now: int, x: Id, b: M.Box)
    requires Good(j.db.runs) && now <= a.now && Fits(j, a) && Commits(j.db, a.c) && x in j.db.runs && x in j.boxes && b == j.boxes[x]
    requires BoxOk(j.db.runs[x], b, now)
    ensures x in Step(j.db, a.c).runs
    ensures BoxOk(Step(j.db, a.c).runs[x], Performed(b, EffectOn(j.db, a, x), a.now), a.now)
  {
    H.WakeStays(b, now, a.now);
    HoldsFollows(j, a, x, b);
    PerformedKeeps(b, EffectOn(j.db, a, x), now, a.now);
  }

  /** The row of a run the step admits. */
  lemma NewRowIs(db: Db, c: Command, x: Id, o: Origin)
    requires Commits(db, c) && x in Step(db, c).runs && x !in db.runs
    requires match c
             case Admit(ad, trigger, now) => o == Origin(ad, now, None, None, trigger)
             case Refuse(ad, _, now) => o == Origin(ad, now, None, None, None)
             case Start(ad, now, _) => o == Origin(ad, now, None, None, None)
             case StartChild(f, ad, link, now, _) => o == Origin(ad, now, Some(link), Some(RootOf(Expects(db.runs[f.run], ad.id, now))), None)
             case _ => false
    ensures Step(db, c).runs[x] ==
            if c.Admit? then Born(o, c.now)
            else if c.Refuse? then Refused(Born(o, c.now), c.error, c.now)
            else Claimed(Born(o, c.now), c.now, c.owner)
  {
  }

  /** It has the mailbox it is born with. */
  lemma BoxBorn(r: Run, c: Command, o: Origin)
    requires c.Admit? || c.Refuse? || c.Start? || c.StartChild?
    requires r == if c.Admit? then Born(o, c.now)
                  else if c.Refuse? then Refused(Born(o, c.now), c.error, c.now)
                  else Claimed(Born(o, c.now), c.now, c.owner)
    ensures BoxOk(r, NewBox(c, c.now), c.now)
  {
    NewBoxKeeps(c, c.now);
    if c.Admit? {
      BornHolds(o, c.now);
    } else if c.Refuse? {
      RefusedHolds(o, c.error, c.now);
    } else {
      StartedHolds(o, c.owner, c.now);
    }
  }

  lemma RowBorn(db: Db, c: Command, x: Id)
    requires Commits(db, c) && x in Step(db, c).runs && x !in db.runs
    ensures (c.Admit? || c.Refuse? || c.Start? || c.StartChild?) && BoxOk(Step(db, c).runs[x], NewBox(c, c.now), c.now)
  {
    OldRows(db, c, x);
    var o := if c.Admit? then Origin(c.a, c.now, None, None, c.trigger)
             else if !c.StartChild? then Origin(c.a, c.now, None, None, None)
             else Origin(c.a, c.now, Some(c.link), Some(RootOf(Expects(db.runs[c.fence.run], c.a.id, c.now))), None);
    NewRowIs(db, c, x, o);
    BoxBorn(Step(db, c).runs[x], c, o);
  }

  lemma OldRows(db: Db, c: Command, x: Id)
    requires Commits(db, c) && x in Step(db, c).runs && x !in db.runs
    ensures c.Admit? || c.Refuse? || c.Start? || c.StartChild?
  {
    if c.Finish? {
      FinishRows(db, c.fence.run, c.status, c.woken, c.now, x);
    }
  }

  lemma FinishRows(db: Db, id: Id, status: Status, woken: bool, now: int, x: Id)
    requires id in db.runs
    ensures x in Finishes(db, id, status, woken, now).runs ==> x in db.runs
  {
  }

  lemma BoxFollows(j: Joint, a: Action, now: int, x: Id)
    requires Agree(j, now) && now <= a.now && Fits(j, a) && Commits(j.db, a.c) && x in Step(j.db, a.c).runs
    ensures BoxOk(Step(j.db, a.c).runs[x], BoxAfter(j, a, x), a.now)
  {
    if x in j.db.runs {
      assert BoxOk(j.db.runs[x], j.boxes[x], now);
      RowFollows(j, a, now, x, j.boxes[x]);
    } else {
      RowBorn(j.db, a.c, x);
    }
  }

  lemma Idle(j: Joint, now: int, later: int)
    requires Agree(j, now) && now <= later
    ensures Agree(j, later)
  {
    forall x | x in j.db.runs ensures BoxOk(j.db.runs[x], j.boxes[x], later) {
      assert BoxOk(j.db.runs[x], j.boxes[x], now);
      H.WakeStays(j.boxes[x], now, later);
    }
  }

  lemma AllFollow(j: Joint, a: Action, now: int, after: Db, boxes: map<Id, M.Box>)
    requires Agree(j, now) && now <= a.now && Fits(j, a) && Commits(j.db, a.c) && after == Step(j.db, a.c)
    requires boxes.Keys == after.runs.Keys && forall x :: x in boxes ==> boxes[x] == BoxAfter(j, a, x)
    ensures forall x :: x in after.runs ==> BoxOk(after.runs[x], boxes[x], a.now)
  {
    forall x | x in after.runs ensures BoxOk(after.runs[x], boxes[x], a.now) {
      assert boxes[x] == BoxAfter(j, a, x);
      BoxFollows(j, a, now, x);
    }
  }

  /** Every step keeps rows and mailboxes in agreement, and wake-ups in the mailboxes. */
  lemma NextAgrees(j: Joint, a: Action, now: int, k: Joint)
    requires Agree(j, now) && now <= a.now && Fits(j, a) && k == Next(j, a)
    ensures Agree(k, a.now)
  {
    if Commits(j.db, a.c) {
      StepGood(j.db, a.c, k.db);
      AllFollow(j, a, now, k.db, k.boxes);
    } else {
      Idle(j, now, a.now);
    }
  }

  // ── whole histories ───────────────────────────────────────────────────────

  ghost function History(p: Policy, actions: seq<Action>): Joint
    decreases |actions|
  {
    if actions == [] then Joint(Empty(p), map[]) else Next(History(p, actions[..|actions| - 1]), actions[|actions| - 1])
  }

  /** The clock never runs back, and each step takes from the mailboxes what is there. */
  ghost predicate Proper(p: Policy, actions: seq<Action>) {
    forall i :: 0 <= i < |actions| ==> Fits(History(p, actions[..i]), actions[i]) && (i > 0 ==> actions[i - 1].now <= actions[i].now)
  }

  function Clock(actions: seq<Action>, start: int): int {
    if actions == [] then start else actions[|actions| - 1].now
  }

  lemma ProperRest(p: Policy, actions: seq<Action>, rest: seq<Action>, start: int)
    requires Proper(p, actions) && actions != [] && rest == actions[..|actions| - 1] && start <= actions[0].now
    ensures Proper(p, rest) && (rest != [] ==> start <= rest[0].now)
    ensures Fits(History(p, rest), actions[|rest|]) && Clock(rest, start) <= actions[|rest|].now
  {
    forall i | 0 <= i < |rest| ensures Fits(History(p, rest[..i]), rest[i]) && (i > 0 ==> rest[i - 1].now <= rest[i].now) {
      assert rest[..i] == actions[..i];
    }
  }

  lemma {:induction false} AlwaysAgree(p: Policy, actions: seq<Action>, start: int)
    requires Proper(p, actions) && (actions != [] ==> start <= actions[0].now)
    ensures Agree(History(p, actions), Clock(actions, start))
    decreases |actions|
  {
    if actions == [] {
      NothingAgrees(p, start);
    } else {
      var n := |actions| - 1;
      var rest := actions[..n];
      ProperRest(p, actions, rest, start);
      AlwaysAgree(p, rest, start);
      NextAgrees(History(p, rest), actions[n], Clock(rest, start), History(p, actions));
    }
  }

  lemma NothingAgrees(p: Policy, start: int)
    ensures Agree(Joint(Empty(p), map[]), start)
  {
  }

  /** The run waits, not held, and its mailbox holds a copy it wants. */
  ghost predicate Wants(j: Joint, x: Id, now: int)
    requires x in j.db.runs && x in j.boxes
  {
    var l := j.db.runs[x].life;
    l.state.Waiting? && l.held.None? && M.HasWanted(j.boxes[x].row, j.boxes[x].copies, now)
  }

  /** In every history, from its last instant on: a waiting run that is not held and whose
      mailbox holds a copy it wants can be claimed. */
  lemma WantedIsClaimed(p: Policy, actions: seq<Action>, start: int, x: Id, now: int)
    requires Proper(p, actions) && (actions != [] ==> start <= actions[0].now) && Clock(actions, start) <= now
    ensures var j := History(p, actions);
            x in j.db.runs ==> (x in j.boxes && (Wants(j, x, now) ==> Claimable(j.db.runs[x].life, now)))
  {
    AlwaysAgree(p, actions, start);
    var j := History(p, actions);
    if x in j.db.runs {
      assert BoxOk(j.db.runs[x], j.boxes[x], Clock(actions, start));
      H.WakeStays(j.boxes[x], Clock(actions, start), now);
    }
  }
}

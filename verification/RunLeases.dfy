/**
 Leases over whole histories: an owner acts exactly while the lease it was last granted
 outlasts a skewed clock, and what a hold or a stop leaves it to do.
 */
module RunLeases {
  import opened Options
  import opened Runs
  import opened RunTree
  import opened RunSafety
  import opened RunOutcomes
  import J = RunJournal

  datatype Grant = Grant(fence: Fence, at: int)

  /** The lease a command gives: the creator of a run and of a child under the first fence,
      a claim under the next one, a renewal under its own. */
  function Grants_(db: Db, c: Command): Option<Grant> {
    match c
    case Start(a, now, owner) => Some(Grant(Fence(a.id, owner, 1), now))
    case StartChild(f, a, link, now, owner) => if a.id in db.runs then None else Some(Grant(Fence(a.id, owner, 1), now))
    case Claim(id, now, owner, _) => if id in db.runs then Some(Grant(Fence(id, owner, db.runs[id].life.generation + 1), now)) else None
    case Renew(f, now) => Some(Grant(f, now))
    case _ => None
  }

  /** The command takes the lease of `x` away: its owner's release or finish, or its end. */
  ghost predicate Takes(db: Db, c: Command, x: Id, after: Db) {
    || ((c.Release? || c.Finish?) && c.fence.run == x)
    || (x in db.runs && db.runs[x].life.ended.None? && x in after.runs && after.runs[x].life.ended.Some?)
  }

  /** The last lease of the run that nothing took away. */
  ghost function Lease(p: Policy, commands: seq<Command>, x: Id): Option<Grant>
    decreases |commands|
  {
    if commands == [] then None else
      var rest, c := commands[..|commands| - 1], commands[|commands| - 1];
      LeaseAfter(After(p, rest), c, x, Lease(p, rest, x))
  }

  ghost function LeaseAfter(db: Db, c: Command, x: Id, before: Option<Grant>): Option<Grant> {
    if !Commits(db, c) then before
    else if Grants_(db, c).Some? && Grants_(db, c).value.fence.run == x then Grants_(db, c)
    else if Takes(db, c, x, Apply(db, c)) then None
    else before
  }

  /** The row holds that lease: its fence, and thirty seconds from when it was given. */
  predicate Holds(l: Life, lease: Option<Grant>) {
    match lease
    case Some(g) => l.state.Running? && l.fence == Some(g.fence) && l.lease == Some(Sum(g.at, 30_000))
    case None => l.fence.None? && l.lease.None? && !l.state.Running?
  }

  lemma OldHolds(db: Db, c: Command, x: Id, before: Option<Grant>, after: Db)
    requires Good(db.runs) && Commits(db, c) && after == Apply(db, c) && x in db.runs && Holds(db.runs[x].life, before)
    ensures x in after.runs && Holds(after.runs[x].life, LeaseAfter(db, c, x, before))
  {
    LifeDecides(db, c, x, after);
    assert RowOk(x, db.runs[x]);
    if c.Finish? || c.Kill? {
      EndHolds(db, c, x, before, after);
    } else {
      StayHolds(db, c, x, before, after);
    }
  }

  lemma EndHolds(db: Db, c: Command, x: Id, before: Option<Grant>, after: Db)
    requires RowsOk(db.runs) && Commits(db, c) && after == Apply(db, c) && x in db.runs && Holds(db.runs[x].life, before) && (c.Finish? || c.Kill?)
    requires x in after.runs && SameLife(LifeAfter(db, c, x), after.runs[x].life)
    ensures Holds(after.runs[x].life, LeaseAfter(db, c, x, before))
  {
    UnderSelf(db.runs, x);
  }

  lemma StayHolds(db: Db, c: Command, x: Id, before: Option<Grant>, after: Db)
    requires x in db.runs && RowOk(x, db.runs[x]) && Commits(db, c) && after == Apply(db, c) && Holds(db.runs[x].life, before) && !c.Finish? && !c.Kill?
    requires x in after.runs && SameLife(LifeAfter(db, c, x), after.runs[x].life)
    ensures Holds(after.runs[x].life, LeaseAfter(db, c, x, before))
  {
  }

  lemma NewHolds(db: Db, c: Command, x: Id, after: Db)
    requires Commits(db, c) && after == Apply(db, c) && x in after.runs && x !in db.runs
    ensures Holds(after.runs[x].life, LeaseAfter(db, c, x, None))
  {
    NewLifeIs(db, c, x, after);
  }

  lemma NoneHolds(db: Db, c: Command, x: Id)
    requires Good(db.runs) && Commits(db, c) && x !in db.runs && x !in Apply(db, c).runs
    ensures LeaseAfter(db, c, x, None) == None
  {
  }

  lemma {:induction false} RowsHold(p: Policy, commands: seq<Command>, x: Id)
    ensures var db := After(p, commands);
            if x in db.runs then Holds(db.runs[x].life, Lease(p, commands, x)) else Lease(p, commands, x) == None
    decreases |commands|
  {
    if commands != [] {
      var rest, c := commands[..|commands| - 1], commands[|commands| - 1];
      var db, after := After(p, rest), After(p, commands);
      AlwaysGood(p, rest);
      RowsHold(p, rest, x);
      if Commits(db, c) {
        if x in db.runs {
          OldHolds(db, c, x, Lease(p, rest, x), after);
        } else if x in after.runs {
          NewHolds(db, c, x, after);
        } else {
          NoneHolds(db, c, x);
        }
      }
    }
  }

  // ── the law of the lease ──────────────────────────────────────────────────

  predicate IsFenced(c: Command) {
    c.Renew? || c.Release? || c.Save? || c.Spend? || c.Listen? || c.Finish? || c.StartChild?
  }

  /** The lease last given under the fence stands, and outlasts the clock with its skew. */
  predicate Lasts(lease: Option<Grant>, f: Fence, now: int, skew: int) {
    match lease
    case Some(g) => g.fence == f && Sum(now, skew) < Sum(g.at, 30_000)
    case None => false
  }

  lemma AuthorityLasts(p: Policy, commands: seq<Command>, f: Fence, now: int)
    ensures Authority(After(p, commands), f, now) <==> Lasts(Lease(p, commands, f.run), f, now, p.skew)
  {
    RowsHold(p, commands, f.run);
    J.PolicyStays(p, commands);
    FenceNamesRun(p, commands, f.run);
  }

  lemma {:induction false} FenceNamesRun(p: Policy, commands: seq<Command>, x: Id)
    ensures Lease(p, commands, x).Some? ==> Lease(p, commands, x).value.fence.run == x
    decreases |commands|
  {
    if commands != [] {
      FenceNamesRun(p, commands[..|commands| - 1], x);
    }
  }

  /** No step of an owner commits but under the last lease given to its fence, while that
      outlasts the clock. */
  lemma OwnerNeedsLease(p: Policy, commands: seq<Command>, c: Command)
    requires IsFenced(c) && Commits(After(p, commands), c)
    ensures Lasts(Lease(p, commands, c.fence.run), c.fence, c.now, p.skew)
  {
    AuthorityLasts(p, commands, c.fence, c.now);
  }

  /** A step of an owner that nothing but its lease, a hold or the stop could refuse. */
  predicate Ordinary(db: Db, c: Command) {
    match c
    case Renew(_, _) => true
    case Release(_, _) => true
    case Finish(_, _, _, _) => true
    case Listen(_, _, news, _, _) => news == map[]
    case Spend(f, k, _, _) => k !in JournalOf(db, f.run) && EXCEEDED !in JournalOf(db, f.run)
    case Save(f, k, r, _) => k !in JournalOf(db, f.run) && r.Fixed?
    case _ => false
  }

  /** Until then the owner acts: it releases always, renews unless all is stopped, and does
      the rest unless the run is held too. */
  lemma LeaseLets(p: Policy, commands: seq<Command>, c: Command)
    requires Ordinary(After(p, commands), c) && Lasts(Lease(p, commands, c.fence.run), c.fence, c.now, p.skew)
    ensures var db := After(p, commands);
            && c.fence.run in db.runs && db.runs[c.fence.run].life.ended.None?
            && (Commits(db, c) <==> c.Release? || (!db.stopped && (c.Renew? || db.runs[c.fence.run].life.held.None?)))
  {
    AuthorityLasts(p, commands, c.fence, c.now);
    AlwaysGood(p, commands);
    OwnerLive(After(p, commands), c.fence, c.now);
    OwnerMay(After(p, commands), c);
  }

  lemma OwnerMay(db: Db, c: Command)
    requires Ordinary(db, c) && Authority(db, c.fence, c.now)
    ensures Commits(db, c) <==> c.Release? || (!db.stopped && (c.Renew? || db.runs[c.fence.run].life.held.None?))
  {
  }

  // ── holds and the stop ────────────────────────────────────────────────────

  /** The answer of a call that is pending. */
  predicate Answers(journal: Journal, c: Command) {
    c.Save? && c.key in journal && journal[c.key].Call? && journal[c.key].state == Pending && c.record.Call? && c.record.state != Pending
  }

  /** A held run is not claimed, and its owner only renews, releases, or saves the answer
      of a call that is pending. */
  lemma HeldWaits(db: Db, c: Command, x: Id)
    requires Commits(db, c) && x in db.runs && db.runs[x].life.held.Some?
    ensures !(c.Claim? && c.id == x)
    ensures IsFenced(c) && c.fence.run == x && !c.Renew? && !c.Release? ==> Answers(JournalOf(db, x), c)
  {
  }

  /** While all is stopped nothing is admitted, claimed, renewed or done by an owner but a
      release. */
  lemma StoppedWaits(db: Db, c: Command)
    requires Commits(db, c) && db.stopped
    ensures c.Release? || c.Deliver? || c.Kill? || c.SetHold? || c.Stop? || c.Sweep?
  {
  }
}

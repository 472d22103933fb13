/**
 How a run's state follows its steps: what each command makes of each run's life, that an
 ended run's state is that of its outcome, and where every outcome comes from.
 */
module RunOutcomes {
  import opened Options
  import opened Runs
  import opened RunTree
  import opened RunSafety

  /** An instant and a delay, within the 64-bit instants. */
  function Sum(at: int, delay: int): int {
    var t := at + delay;
    if t > 0x7fff_ffff_ffff_ffff then 0x7fff_ffff_ffff_ffff else if t < -0x8000_0000_0000_0000 then -0x8000_0000_0000_0000 else t
  }

  /** What a finish of a run with so many interruptions in a row ends it with: the status, a
      fault with the tenth interruption, or nothing. */
  function Ending(interruptions: nat, status: Status): Option<Status> {
    match status
    case Finished(_) => Some(status)
    case Faulted(_) => Some(status)
    case Cancel => Some(status)
    case Sleeping(_) => None
    case Interrupted(error) => if interruptions >= 9 then Some(Faulted(error)) else None
  }

  /** A life that ended with the outcome. */
  function Over(l: Life, outcome: Status, now: int): Life {
    l.(state := (match outcome case Finished(_) => Completed case Faulted(_) => Failed case _ => Cancelled),
       outcome := Some(outcome), ended := Some(now), fence := None, lease := None, held := None)
  }

  /** What ends with `id`: it, and live runs below it. */
  ghost predicate Falls(runs: Rows, x: Id, id: Id) {
    x == id || (x in runs && runs[x].life.ended.None? && Under(runs, x, id))
  }

  function Held(l: Life, hold: Option<Hold>): Life {
    if l.held.Some? == hold.Some? then l else l.(held := hold)
  }

  /** The life of a stored run after a committed command, but for its wake-up. */
  ghost function LifeAfter(db: Db, c: Command, x: Id): Life
    requires x in db.runs && Commits(db, c)
  {
    var l := db.runs[x].life;
    match c
    case Claim(id, now, owner, _) =>
      if x != id then l
      else l.(state := Running, generation := l.generation + 1, fence := Some(Fence(id, owner, l.generation + 1)), lease := Some(Sum(now, 30_000)))
    case Renew(f, now) => if x == f.run then l.(lease := Some(Sum(now, 30_000))) else l
    case Release(f, _) => if x == f.run then l.(state := Ready, fence := None, lease := None) else l
    case Finish(f, status, _, now) =>
      var n := db.runs[f.run].life.interruptions;
      var tries := if status.Interrupted? then n + 1 else 0;
      (match Ending(n, status)
       case Some(outcome) =>
         if x == f.run then Over(l.(interruptions := tries), outcome, now)
         else if Falls(db.runs, x, f.run) then Over(l, Cancel, now) else l
       case None =>
         if x != f.run then l
         else l.(state := if status.Sleeping? then Waiting else Ready, interruptions := tries, fence := None, lease := None))
    case Kill(id, now) => if Falls(db.runs, x, id) then Over(l, Cancel, now) else l
    case SetHold(id, hold) => if l.ended.None? && Under(db.runs, x, id) then Held(l, hold) else l
    case _ => l
  }

  /** The row changed in nothing of its life but the wake-up. */
  ghost predicate SameLife(a: Life, b: Life) {
    b == a.(wake := b.wake)
  }

  // ── one row at a time ─────────────────────────────────────────────────────

  lemma ReportedLife(p: Run, child: Id, status: Status, now: int)
    ensures SameLife(p.life, Reported(p, child, status, now).life)
  {
  }

  /** A report changes no life but wake-ups. */
  lemma ReportLife(runs: Rows, child: Id, status: Status, now: int, x: Id)
    requires child in runs && x in runs
    ensures var after := ReportTo(runs, child, status, now); x in after && SameLife(runs[x].life, after[x].life)
  {
    if ParentOf(runs[child]) == Some(x) {
      ReportedLife(runs[x], child, status, now);
    }
  }

  lemma TerminateLife(db: Db, id: Id, status: Status, now: int, x: Id, after: Db)
    requires id in db.runs && x in db.runs && Live(db.runs[id]) && Ends(status) && after == Terminate(db, id, status, now)
    ensures x in after.runs
    ensures SameLife(if x == id then Over(db.runs[x].life, status, now)
                     else if Falls(db.runs, x, id) then Over(db.runs[x].life, Cancel, now) else db.runs[x].life, after.runs[x].life)
  {
    var mid := EndedWith(db, id, status, now);
    UnderSelf(db.runs, id);
    ReportLife(mid.runs, id, status, now, x);
  }

  lemma FinishLife(db: Db, id: Id, status: Status, woken: bool, now: int, x: Id, after: Db)
    requires id in db.runs && x in db.runs && Live(db.runs[id]) && after == Finishes(db, id, status, woken, now)
    ensures x in after.runs
    ensures var l, n := db.runs[x].life, db.runs[id].life.interruptions;
            var tries := if status.Interrupted? then n + 1 else 0;
            SameLife(match Ending(n, status)
                     case Some(outcome) =>
                       if x == id then Over(l.(interruptions := tries), outcome, now)
                       else if Falls(db.runs, x, id) then Over(l, Cancel, now) else l
                     case None =>
                       if x != id then l
                       else l.(state := if status.Sleeping? then Waiting else Ready, interruptions := tries, fence := None, lease := None),
                     after.runs[x].life)
  {
    var n := db.runs[id].life.interruptions;
    var tries := Tries(n, status);
    match Ending(n, status)
    case Some(outcome) =>
      var mid := Counted(db, id, tries);
      CountedTree(db, id, tries, x);
      TerminateLife(mid, id, outcome, now, x, after);
    case None =>
      ReportLife(db.runs[id := LetGo(db.runs[id], status, woken, now)], id, status, now, x);
  }

  lemma CountedTree(db: Db, id: Id, n: nat, x: Id)
    requires id in db.runs && x in db.runs
    ensures Falls(Counted(db, id, n).runs, x, id) <==> Falls(db.runs, x, id)
  {
    SameClimbs(db.runs, Counted(db, id, n).runs, x, id);
  }

  lemma SameClimbs(a: Rows, b: Rows, x: Id, top: Id)
    requires a.Keys == b.Keys && forall y :: y in a ==> ParentOf(a[y]) == ParentOf(b[y])
    ensures Under(a, x, top) <==> Under(b, x, top)
  {
    forall n: nat ensures Climbs(a, x, top, n) <==> Climbs(b, x, top, n) {
      SameClimb(a, b, x, top, n);
    }
  }

  lemma {:induction false} SameClimb(a: Rows, b: Rows, x: Id, top: Id, n: nat)
    requires a.Keys == b.Keys && forall y :: y in a ==> ParentOf(a[y]) == ParentOf(b[y])
    ensures Climbs(a, x, top, n) <==> Climbs(b, x, top, n)
    decreases n
  {
    if n > 0 && x in a && ParentOf(a[x]).Some? {
      SameClimb(a, b, ParentOf(a[x]).value, top, n - 1);
    }
  }

  lemma ChildLife(db: Db, f: Fence, a: Admission, link: Link, now: int, owner: string, x: Id, after: Db)
    requires MayStartChild(db, f, a, link, now) && x in db.runs && after == WithChild(db, f, a, link, now, owner)
    ensures x in after.runs && SameLife(db.runs[x].life, after.runs[x].life)
  {
    var runs := db.runs[f.run := Expects(db.runs[f.run], a.id, now)];
    if a.id in runs {
      var l := runs[a.id].life;
      if l.outcome.Some? {
        ReportLife(runs, a.id, l.outcome.value, now, x);
      } else if l.state.Waiting? {
        ReportLife(runs, a.id, Sleeping(0), now, x);
      }
    }
  }

  lemma FinishedLife(db: Db, c: Command, x: Id, after: Db)
    requires Good(db.runs) && Commits(db, c) && after == Apply(db, c) && x in db.runs && c.Finish?
    ensures x in after.runs && SameLife(LifeAfter(db, c, x), after.runs[x].life)
  {
    OwnerLive(db, c.fence, c.now);
    FinishLife(db, c.fence.run, c.status, c.woken, c.now, x, after);
  }

  lemma KilledLife(db: Db, c: Command, x: Id, after: Db)
    requires Good(db.runs) && Commits(db, c) && after == Apply(db, c) && x in db.runs && c.Kill?
    ensures x in after.runs && SameLife(LifeAfter(db, c, x), after.runs[x].life)
  {
    TerminateLife(db, c.id, Cancel, c.now, x, after);
  }

  lemma ParentLife(db: Db, c: Command, x: Id, after: Db)
    requires Good(db.runs) && Commits(db, c) && after == Apply(db, c) && x in db.runs && c.StartChild?
    ensures x in after.runs && SameLife(LifeAfter(db, c, x), after.runs[x].life)
  {
    ChildLife(db, c.fence, c.a, c.link, c.now, c.owner, x, after);
  }

  /** What each command makes of each stored run. */
  lemma LifeDecides(db: Db, c: Command, x: Id, after: Db)
    requires Good(db.runs) && Commits(db, c) && after == Apply(db, c) && x in db.runs
    ensures x in after.runs && SameLife(LifeAfter(db, c, x), after.runs[x].life)
  {
    if c.Finish? {
      FinishedLife(db, c, x, after);
    } else if c.Kill? {
      KilledLife(db, c, x, after);
    } else if c.StartChild? {
      ParentLife(db, c, x, after);
    } else if c.Spend? || c.SetHold? {
      ShapedLife(db, c, x, after);
    } else {
      PlainLife(db, c, x, after);
    }
  }

  lemma PlainLife(db: Db, c: Command, x: Id, after: Db)
    requires Good(db.runs) && Commits(db, c) && after == Apply(db, c) && x in db.runs && !c.Finish? && !c.Kill? && !c.StartChild?
    requires !c.Spend? && !c.SetHold?
    ensures x in after.runs && SameLife(LifeAfter(db, c, x), after.runs[x].life)
  {
    assert RowOk(x, db.runs[x]);
  }

  lemma ShapedLife(db: Db, c: Command, x: Id, after: Db)
    requires Good(db.runs) && Commits(db, c) && after == Apply(db, c) && x in db.runs && (c.Spend? || c.SetHold?)
    ensures x in after.runs && SameLife(LifeAfter(db, c, x), after.runs[x].life)
  {
  }

  // ── new rows ──────────────────────────────────────────────────────────────

  predicate Inserts(c: Command) {
    c.Admit? || c.Start? || c.Refuse? || c.StartChild?
  }

  /** The life a new run is stored with: ready, claimed by its creator, or ended by its
      refusal. */
  function NewLife(c: Command): Life
    requires Inserts(c)
  {
    match c
    case Admit(_, _, now) => Life(Ready, None, 0, None, now, 0, None, None, None)
    case Refuse(_, error, now) => Life(Failed, None, 0, None, now, 0, Some(Faulted(error)), Some(now), None)
    case _ => Life(Running, Some(Fence(c.a.id, c.owner, 1)), 1, Some(Sum(c.now, 30_000)), c.now, 0, None, None, None)
  }

  lemma NewLifeIs(db: Db, c: Command, x: Id, after: Db)
    requires Commits(db, c) && after == Apply(db, c) && x in after.runs && x !in db.runs
    ensures Inserts(c) && x == c.a.id && after.runs[x].life == NewLife(c)
  {
    if c.Finish? {
      OldFinish(db, c.fence.run, c.status, c.woken, c.now, x);
    }
  }

  lemma OldFinish(db: Db, id: Id, status: Status, woken: bool, now: int, x: Id)
    requires id in db.runs && x in Finishes(db, id, status, woken, now).runs
    ensures x in db.runs
  {
  }

  // ── the state of an ended run ─────────────────────────────────────────────

  /** Completed with an output, failed with a fault, cancelled with neither; and no other
      state has an outcome. */
  predicate StateTells(l: Life) {
    && (l.state.Completed? <==> l.outcome.Some? && l.outcome.value.Finished?)
    && (l.state.Failed? <==> l.outcome.Some? && l.outcome.value.Faulted?)
    && (l.state.Cancelled? <==> l.outcome.Some? && l.outcome.value.Cancel?)
    && (l.outcome.Some? <==> l.ended.Some?)
  }

  lemma StepTells(db: Db, c: Command, x: Id, after: Db)
    requires Good(db.runs) && after == Step(db, c) && x in after.runs
    requires x in db.runs ==> StateTells(db.runs[x].life)
    ensures StateTells(after.runs[x].life)
  {
    if Commits(db, c) {
      if x in db.runs {
        LifeDecides(db, c, x, after);
        LifeTells(db, c, x);
      } else {
        NewLifeIs(db, c, x, after);
      }
    }
  }

  lemma FinishTells(db: Db, c: Command, x: Id)
    requires Commits(db, c) && c.Finish? && x in db.runs && RowOk(x, db.runs[x]) && StateTells(db.runs[x].life)
    ensures StateTells(LifeAfter(db, c, x))
  {
  }

  lemma LifeTells(db: Db, c: Command, x: Id)
    requires Good(db.runs) && Commits(db, c) && x in db.runs && StateTells(db.runs[x].life)
    ensures StateTells(LifeAfter(db, c, x))
  {
    assert RowOk(x, db.runs[x]);
    if c.Finish? {
      FinishTells(db, c, x);
    }
  }

  /** In every reachable store. */
  lemma {:induction false} OutcomeTells(p: Policy, commands: seq<Command>, x: Id)
    requires x in After(p, commands).runs
    ensures StateTells(After(p, commands).runs[x].life)
    decreases |commands|
  {
    var rest := commands[..|commands| - 1];
    var db := After(p, rest);
    AlwaysGood(p, rest);
    if x in db.runs {
      OutcomeTells(p, rest, x);
    }
    StepTells(db, commands[|commands| - 1], x, After(p, commands));
  }

  // ── interruptions in a row ────────────────────────────────────────────────

  /** The interruptions of the run since a finish of it that was none. */
  ghost function InARow(p: Policy, commands: seq<Command>, x: Id): nat
    decreases |commands|
  {
    if commands == [] then 0 else
      var rest, c := commands[..|commands| - 1], commands[|commands| - 1];
      if !(c.Finish? && c.fence.run == x && Commits(After(p, rest), c)) then InARow(p, rest, x)
      else if c.status.Interrupted? then InARow(p, rest, x) + 1 else 0
  }

  /** They are what the row counts, and fewer than ten while the run lives. */
  lemma {:induction false} CountsInARow(p: Policy, commands: seq<Command>, x: Id)
    ensures var db := After(p, commands);
            if x in db.runs then db.runs[x].life.interruptions == InARow(p, commands, x) && (db.runs[x].life.ended.None? ==> InARow(p, commands, x) < 10)
            else InARow(p, commands, x) == 0
    decreases |commands|
  {
    if commands != [] {
      var rest, c := commands[..|commands| - 1], commands[|commands| - 1];
      var db := After(p, rest);
      AlwaysGood(p, rest);
      CountsInARow(p, rest, x);
      if Commits(db, c) {
        OneMore(db, c, x, Step(db, c));
      }
    }
  }

  lemma OneMore(db: Db, c: Command, x: Id, after: Db)
    requires Good(db.runs) && Commits(db, c) && after == Step(db, c)
    ensures x in db.runs ==> x in after.runs
    ensures x in after.runs && x !in db.runs ==> after.runs[x].life.interruptions == 0 && !(c.Finish? && c.fence.run == x)
    ensures x in db.runs ==>
              var n, k := db.runs[x].life.interruptions, after.runs[x].life;
              k.interruptions == (if !(c.Finish? && c.fence.run == x) then n else if c.status.Interrupted? then n + 1 else 0)
              && (k.ended.None? && c.Finish? && c.fence.run == x ==> k.interruptions < 10)
              && (k.ended.None? ==> db.runs[x].life.ended.None?)
  {
    if x in db.runs {
      LifeDecides(db, c, x, after);
      assert RowOk(x, db.runs[x]);
    } else if x in after.runs {
      NewLifeIs(db, c, x, after);
    }
  }

  // ── where an outcome comes from ───────────────────────────────────────────

  /** Why the run ended in the step, given its interruptions in a row: its owner's finish,
      the tenth interruption, its cancellation, its refusal, or the end of what is above. */
  ghost predicate Ends_(db: Db, c: Command, x: Id, interrupted: nat, outcome: Status, at: int) {
    match c
    case Finish(f, status, _, now) =>
      at == now &&
      if x == f.run then
        || (status == outcome && (status.Finished? || status.Faulted? || status.Cancel?))
        || (status.Interrupted? && interrupted == 9 && outcome == Faulted(status.error))
      else outcome == Cancel && Under(db.runs, x, f.run)
    case Kill(id, now) => at == now && outcome == Cancel && Under(db.runs, x, id)
    case Refuse(a, error, now) => at == now && x == a.id && outcome == Faulted(error)
    case _ => false
  }

  lemma StepEnds(db: Db, c: Command, x: Id, after: Db)
    requires Good(db.runs) && Commits(db, c) && after == Step(db, c) && x in after.runs && after.runs[x].life.ended.Some?
    requires x in db.runs ==> db.runs[x].life.ended.None? && db.runs[x].life.interruptions < 10
    ensures after.runs[x].life.outcome.Some?
    ensures Ends_(db, c, x, if x in db.runs then db.runs[x].life.interruptions else 0, after.runs[x].life.outcome.value, after.runs[x].life.ended.value)
  {
    if x in db.runs {
      LifeDecides(db, c, x, after);
      UnderSelf(db.runs, x);
    } else {
      NewLifeIs(db, c, x, after);
    }
  }

  /** The command `i` ended the run. */
  ghost predicate EndedBy(p: Policy, commands: seq<Command>, i: nat, x: Id, outcome: Status, at: int) {
    && i < |commands| && Commits(After(p, commands[..i]), commands[i])
    && Ends_(After(p, commands[..i]), commands[i], x, InARow(p, commands[..i], x), outcome, at)
  }

  lemma EndedEarlier(p: Policy, commands: seq<Command>, i: nat, x: Id, outcome: Status, at: int)
    requires commands != [] && EndedBy(p, commands[..|commands| - 1], i, x, outcome, at)
    ensures EndedBy(p, commands, i, x, outcome, at)
  {
    assert commands[..|commands| - 1][..i] == commands[..i];
  }

  /** In every history an ended run was ended by one committed command, and its outcome and
      instant are what that command gives. */
  lemma {:induction false} OutcomeComes(p: Policy, commands: seq<Command>, x: Id)
    requires x in After(p, commands).runs && After(p, commands).runs[x].life.ended.Some?
    ensures After(p, commands).runs[x].life.outcome.Some?
    ensures var l := After(p, commands).runs[x].life;
            exists i :: EndedBy(p, commands, i, x, l.outcome.value, l.ended.value)
    decreases |commands|
  {
    var last := |commands| - 1;
    var rest, c := commands[..last], commands[last];
    var db, after := After(p, rest), After(p, commands);
    AlwaysGood(p, rest);
    CountsInARow(p, rest, x);
    if x in db.runs && db.runs[x].life.ended.Some? {
      OutcomeComes(p, rest, x);
      SameEnd(db, c, x, after);
      var i :| EndedBy(p, rest, i, x, db.runs[x].life.outcome.value, db.runs[x].life.ended.value);
      EndedEarlier(p, commands, i, x, db.runs[x].life.outcome.value, db.runs[x].life.ended.value);
    } else {
      StepEnds(db, c, x, after);
      assert EndedBy(p, commands, last, x, after.runs[x].life.outcome.value, after.runs[x].life.ended.value);
    }
  }

  lemma SameEnd(db: Db, c: Command, x: Id, after: Db)
    requires Good(db.runs) && after == Step(db, c) && x in db.runs && db.runs[x].life.ended.Some?
    ensures x in after.runs && after.runs[x].life.outcome == db.runs[x].life.outcome && after.runs[x].life.ended == db.runs[x].life.ended
  {
    StepGood(db, c, after);
    assert Evolves(db.runs[x], after.runs[x]);
  }

  /** The other way: a committed finish that ends its run ends it with that, and with it
      every live run below as cancelled; a committed cancellation likewise. */
  lemma EndReaches(db: Db, c: Command, id: Id, outcome: Status, x: Id, after: Db)
    requires Good(db.runs) && Commits(db, c) && after == Step(db, c) && x in db.runs && db.runs[x].life.ended.None? && Under(db.runs, x, id)
    requires (c.Finish? && c.fence.run == id && Ending(db.runs[id].life.interruptions, c.status) == Some(outcome)) || (c.Kill? && c.id == id && outcome == Cancel)
    ensures x in after.runs && after.runs[x].life.ended == Some(c.now)
    ensures after.runs[x].life.outcome == Some(if x == id then outcome else Cancel)
  {
    LifeDecides(db, c, x, after);
  }
}

/**
 The run rows and their index as the store updates them: every store of a row moves
 its index rows, the end of a run cascades through the children index, and a hold
 collects its subtree the same way.
 */
module RunStore {
  import opened Options
  import opened Runs
  import opened RunTree
  import opened RunSafety
  import opened RunIndex

  /** The rows once `done` have ended. */
  ghost function EndPart(a: Rows, id: Id, status: Status, done: set<Id>, spent: nat, now: int): Rows {
    map x | x in a ::
      if x == id then Ended(a[x], status, spent, now)
      else if x in done then Ended(a[x], Cancel, spent, now)
      else a[x]
  }

  /** Every live child of an ended run is ended or its parent is still to be visited. */
  ghost predicate Pursued(a: Rows, done: set<Id>, parents: seq<Id>) {
    forall c :: c in a && c !in done && Live(a[c]) && ParentOf(a[c]).Some? && ParentOf(a[c]).value in done ==>
                  ParentOf(a[c]).value in parents
  }

  ghost predicate AllEnd(a: Rows, id: Id, done: set<Id>) {
    id in done && forall x :: x in done ==> EndsWith(a, x, id)
  }

  lemma CascadeDone(a: Rows, id: Id, status: Status, done: set<Id>, spent: nat, now: int)
    requires Good(a) && id in a && AllEnd(a, id, done) && Pursued(a, done, [])
    ensures EndPart(a, id, status, done, spent, now) == EndTree(a, id, status, spent, now)
  {
    ClosedIsSubtree(a, id, done);
  }

  lemma ChildEnds(a: Rows, id: Id, done: set<Id>, p: Id, c: Id)
    requires AllEnd(a, id, done) && p in done && c in a && Live(a[c]) && ParentOf(a[c]) == Some(p)
    ensures EndsWith(a, c, id)
  {
    assert EndsWith(a, p, id);
    if p == id {
      UnderSelf(a, id);
    }
    UnderParent(a, c, id);
  }

  /** An ended run takes no notice. */
  lemma EndedHearsNothing(r: Run, status: Status, spent: nat, now: int, child: Id)
    ensures Reported(Ended(r, status, spent, now), child, Cancel, now) == Ended(r, status, spent, now)
  {
  }

  lemma EndedChild(a: Rows, id: Id, status: Status, done: set<Id>, spent: nat, now: int, p: Id, c: Id, runs: Rows)
    requires id in a && p in done && p in a && c in a && c != id && ParentOf(a[c]) == Some(p) && (p == id || p in done)
    requires runs == EndPart(a, id, status, done + {c}, spent, now)
    ensures c in runs && ReportTo(runs, c, Cancel, now) == runs
  {
    EndedHearsNothing(a[p], if p == id then status else Cancel, spent, now, c);
    assert ParentOf(runs[c]) == Some(p);
    assert runs[p := runs[p]] == runs;
  }

  class RunRows {
    var runs: Rows
    var index: Index
    var records: map<Id, Journal>
    var budget: map<Id, nat>
    var stopped: bool
    const policy: Policy

    constructor (p: Policy)
      ensures State() == Empty(p) && Agrees()
    {
      policy := p;
      runs, index, records, budget, stopped := map[], map[], map[], map[], false;
    }

    ghost function State(): Db
      reads this
    {
      Db(runs, records, budget, stopped, policy)
    }

    ghost predicate Agrees()
      reads this
    {
      IndexOk(index, runs) && forall x :: x in runs ==> IdOf(runs[x]) == x
    }

    /** Stores a row whose current index rows are `before`. */
    method StoreIndexed(s: Run, before: Index)
      requires Agrees()
      requires if IdOf(s) in runs then IsIndexOf(before, runs[IdOf(s)]) else before == map[]
      modifies this`runs, this`index
      ensures runs == old(runs)[IdOf(s) := s] && Agrees()
    {
      var after := Indexes(s);
      Move(Changes(before, after));
      MovedAgrees(old(index), runs, s, before, after, index);
      runs := runs[IdOf(s) := s];
    }

    method Move(changes: map<Key, Option<Entry>>)
      modifies this`index
      ensures Moved(old(index), changes, {}, index)
    {
      var rest := changes.Keys;
      while rest != {}
        invariant rest <= changes.Keys && Moved(old(index), changes, rest, index)
      {
        var k :| k in rest;
        rest := rest - {k};
        index := Changed(index, k, changes[k]);
      }
    }

    method Store(s: Run)
      requires Agrees()
      modifies this`runs, this`index
      ensures runs == old(runs)[IdOf(s) := s] && Agrees()
    {
      var before := map[];
      if IdOf(s) in runs {
        before := Indexes(runs[IdOf(s)]);
      }
      StoreIndexed(s, before);
    }

    /** The ids in a run's range of the children index. */
    method ChildIds(p: Id) returns (ids: set<Id>)
      requires Agrees()
      ensures forall x :: x in ids <==> x in runs && Live(runs[x]) && ParentOf(runs[x]) == Some(p)
    {
      ids := set k | k in index && k.Children? && k.parent == p :: k.run;
      forall x ensures x in ids <==> x in runs && Live(runs[x]) && ParentOf(runs[x]) == Some(p) {
        ChildrenIndexed(index, runs, p, x);
        assert x in ids <==> Children(p, x) in index;
      }
    }

    // ── the end of a run ────────────────────────────────────────────────────

    /** A child's notification to its parent. */
    method Lifecycle(child: Id, status: Status, now: int)
      requires Agrees() && child in runs
      modifies this`runs, this`index
      ensures runs == ReportTo(old(runs), child, status, now) && Agrees()
    {
      var link := runs[child].origin.child;
      if link.None? || link.value.parent !in runs || status.Interrupted? {
        assert runs == ReportTo(runs, child, status, now);
        return;
      }
      var p := link.value.parent;
      Store(Reported(runs[p], child, status, now));
    }

    /** Ends one child, read before: `before` is fresh, and its ended parent hears nothing. */
    method EndChild(c: Run, p: Id, spent: nat, now: int, ghost a: Rows, ghost id: Id, ghost status: Status, ghost done: set<Id>)
      requires Agrees() && id in a && p in done && p in a && runs == EndPart(a, id, status, done, spent, now)
      requires IdOf(c) in a && IdOf(c) !in done && IdOf(c) != id && c == a[IdOf(c)] && ParentOf(c) == Some(p)
      modifies this`runs, this`index
      ensures Agrees() && runs == EndPart(a, id, status, done + {IdOf(c)}, spent, now)
    {
      var before := Indexes(c);
      StoreIndexed(Ended(c, Status.Cancel, spent, now), before);
      assert runs == EndPart(a, id, status, done + {IdOf(c)}, spent, now);
      EndedChild(a, id, status, done, spent, now, p, IdOf(c), runs);
      Lifecycle(IdOf(c), Status.Cancel, now);
    }

    /** The live children of an ended run. */
    method Survivors(p: Id, spent: nat, now: int, ghost a: Rows, ghost id: Id, ghost status: Status, ghost done: set<Id>)
      returns (read: Rows)
      requires Agrees() && AllEnd(a, id, done) && runs == EndPart(a, id, status, done, spent, now)
      ensures forall x :: x in read <==> x in a && x !in done && Live(a[x]) && ParentOf(a[x]) == Some(p)
      ensures forall x :: x in read ==> read[x] == a[x] && IdOf(a[x]) == x
    {
      var ids := ChildIds(p);
      assert forall x :: x in done ==> x in runs && !Live(runs[x]);
      assert forall x :: x in runs && x !in done ==> runs[x] == a[x];
      read := map x | x in ids :: runs[x];
    }

    /** Ends the live children of one ended parent, as read before any of them changed. */
    method EndChildren(p: Id, spent: nat, now: int, ghost a: Rows, ghost id: Id, ghost status: Status, ghost done: set<Id>)
      returns (ids: seq<Id>, ghost ended: set<Id>)
      requires Agrees() && p in done && AllEnd(a, id, done) && id in a
      requires runs == EndPart(a, id, status, done, spent, now)
      modifies this`runs, this`index
      ensures Agrees() && done <= ended && runs == EndPart(a, id, status, ended, spent, now)
      ensures forall x :: x in ended <==> x in done || (x in a && Live(a[x]) && ParentOf(a[x]) == Some(p))
      ensures forall x :: x in ids <==> x in ended - done
    {
      var read := Survivors(p, spent, now, a, id, status, done);
      assert p in a;
      ids, ended := [], done;
      var rest := read.Keys;
      while rest != {}
        invariant Agrees() && rest <= read.Keys && done <= ended
        invariant runs == EndPart(a, id, status, ended, spent, now)
        invariant forall x :: x in ended <==> x in done || (x in read && x !in rest)
        invariant forall x :: x in ids <==> x in read && x !in rest
      {
        var x :| x in rest;
        rest := rest - {x};
        EndChild(read[x], p, spent, now, a, id, status, ended);
        ids, ended := ids + [x], ended + {x};
      }
    }

    /** Ends the live descendants of a run that has just ended. */
    method Cascade(id: Id, spent: nat, now: int, ghost a: Rows, ghost status: Status)
      requires Agrees() && Good(a) && id in a && runs == EndPart(a, id, status, {id}, spent, now)
      modifies this`runs, this`index
      ensures Agrees() && runs == EndTree(a, id, status, spent, now)
    {
      var parents := [id];
      ghost var done := {id};
      while parents != []
        invariant Agrees() && runs == EndPart(a, id, status, done, spent, now)
        invariant AllEnd(a, id, done) && Pursued(a, done, parents)
        invariant forall p :: p in parents ==> p in done
        decreases Left(a, done), |parents|
      {
        var p := parents[|parents| - 1];
        parents := parents[..|parents| - 1];
        ghost var was := done;
        var ids: seq<Id>;
        ids, done := EndChildren(p, spent, now, a, id, status, done);
        Pursue(a, id, was, done, p, parents, ids);
        parents := parents + ids;
      }
      CascadeDone(a, id, status, done, spent, now);
    }

    /** Ends the run's own row, and the tree's budget with a root. */
    method EndRow(id: Id, status: Status, now: int) returns (spent: nat)
      requires Agrees() && id in runs
      modifies this`runs, this`index, this`budget
      ensures Agrees() && spent == Spent(old(State()), RootOf(old(runs[id])))
      ensures runs == EndPart(old(runs), id, status, {id}, spent, now)
      ensures budget == if old(runs[id].origin.root.None?) then old(budget) - {id} else old(budget)
    {
      var r, root := runs[id], RootOf(runs[id]);
      spent := if root in budget then budget[root] else 0;
      Store(Ended(r, status, spent, now));
      if r.origin.root.None? && id in budget {
        budget := budget - {id};
      }
    }

    /** Ends a run and everything below it. */
    method EndAll(id: Id, status: Status, now: int)
      requires Agrees() && Good(runs) && id in runs
      modifies this`runs, this`index, this`budget
      ensures Agrees() && id in runs && State() == EndedWith(old(State()), id, status, now)
    {
      ghost var was := State();
      var spent := EndRow(id, status, now);
      Cascade(id, spent, now, was.runs, status);
      assert State() == EndedWith(was, id, status, now);
    }

    method Terminate(id: Id, status: Status, now: int)
      requires Agrees() && Good(runs) && id in runs
      modifies this`runs, this`index, this`budget
      ensures Agrees() && State() == Runs.Terminate(old(State()), id, status, now)
    {
      EndAll(id, status, now);
      Lifecycle(id, status, now);
    }

    method Cancel(id: Id, now: int) returns (changed: bool)
      requires Agrees() && Good(runs)
      modifies this`runs, this`index, this`budget
      ensures Agrees() && State() == Step(old(State()), Kill(id, now))
      ensures changed <==> Commits(old(State()), Kill(id, now))
    {
      if id !in runs || !Live(runs[id]) {
        return false;
      }
      Terminate(id, Status.Cancel, now);
      changed := true;
    }

    method Finish(f: Fence, status: Status, woken: bool, now: int) returns (ok: bool)
      requires Agrees() && Good(runs)
      modifies this`runs, this`index, this`budget
      ensures Agrees() && State() == Step(old(State()), Command.Finish(f, status, woken, now))
      ensures ok <==> Checked(old(State()), f, now)
    {
      ok := Check(f, now);
      if !ok {
        return;
      }
      OwnerLive(State(), f, now);
      var r, verdict := runs[f.run], Verdict(runs[f.run].life.interruptions, status);
      if Ends(verdict) {
        Conclude(f.run, verdict, Tries(r.life.interruptions, status), now);
      } else {
        Rest(f.run, status, woken, now);
      }
    }

    method Rest(id: Id, status: Status, woken: bool, now: int)
      requires Agrees() && id in runs
      modifies this`runs, this`index
      ensures Agrees() && runs == Rested(old(runs), id, status, woken, now)
    {
      Store(LetGo(runs[id], status, woken, now));
      Lifecycle(id, status, now);
    }

    method Conclude(id: Id, verdict: Status, interruptions: nat, now: int)
      requires Agrees() && Good(runs) && id in runs && Live(runs[id])
      modifies this`runs, this`index, this`budget
      ensures Agrees() && State() == Concludes(old(State()), id, verdict, interruptions, now)
    {
      var r := runs[id];
      Store(r.(life := r.life.(interruptions := interruptions)));
      assert State() == Counted(old(State()), id, interruptions);
      CountedGood(old(State()), id, interruptions);
      Terminate(id, verdict, now);
    }

    method Check(f: Fence, now: int) returns (ok: bool)
      ensures ok <==> Checked(State(), f, now)
    {
      if stopped || f.run !in runs {
        return false;
      }
      var l := runs[f.run].life;
      ok := l.state.Running? && l.fence == Some(f) && l.lease.Some? && l.lease.value > Later(now, policy.skew) && l.held.None?;
    }

    // ── claims and leases ───────────────────────────────────────────────────

    method ClaimAs(id: Id, now: int, owner: string, worker: Worker) returns (fence: Option<Fence>)
      requires Agrees()
      modifies this`runs, this`index
      ensures Agrees() && State() == Step(old(State()), Claim(id, now, owner, worker))
      ensures fence.Some? <==> Commits(old(State()), Claim(id, now, owner, worker))
      ensures fence.Some? ==> id in runs && runs[id].life.fence == fence
    {
      if stopped || id !in runs || !Claimable(runs[id].life, now)
         || !Admits(worker, runs[id].origin.admission.application) || runs[id].life.generation >= MAX_GENERATION {
        return None;
      }
      Store(Claimed(runs[id], now, owner));
      fence := runs[id].life.fence;
    }

    // ── the budget ──────────────────────────────────────────────────────────

    /** Spends a unit under `k`, or answers what was decided there. */
    method Spend(f: Fence, k: string, limit: nat, now: int) returns (decision: Option<Record>)
      requires Agrees()
      modifies this`runs, this`index, this`budget, this`records
      ensures Agrees() && State() == Step(old(State()), Command.Spend(f, k, limit, now))
      ensures decision.Some? ==> k in JournalOf(State(), f.run) && JournalOf(State(), f.run)[k] == decision.value
      ensures decision.Some? <==> MaySpend(old(State()), f, k, limit, now) || Repeats(old(State()), f, k, now)
    {
      var ok := Check(f, now);
      if !ok {
        return None;
      }
      var journal := if f.run in records then records[f.run] else map[];
      if k in journal {
        return if journal[k].Budget? then Some(journal[k]) else None;
      }
      var root := RootOf(runs[f.run]);
      var spent := if root in budget then budget[root] else 0;
      if spent >= limit && EXCEEDED in journal && !journal[EXCEEDED].Exceeded? {
        return None;
      }
      if spent < limit {
        decision := Some(Budget(true, spent + 1, None));
        budget := budget[root := spent + 1];
        Journalled(f.run, journal[k := decision.value]);
      } else {
        var first := FirstRefused(journal, k);
        decision := Some(Budget(false, spent, Some(first)));
        Journalled(f.run, journal[EXCEEDED := Exceeded(first)][k := decision.value]);
      }
    }

    method Journalled(id: Id, journal: Journal)
      requires Agrees() && id in runs
      modifies this`runs, this`index, this`records
      ensures Agrees() && runs == old(runs)[id := old(runs[id]).(evidence := true)] && records == old(records)[id := journal]
    {
      records := records[id := journal];
      Store(runs[id].(evidence := true));
    }

    // ── admission, leases and records ───────────────────────────────────────

    /** Admits a root, or joins the stored run of that id if the admissions agree. */
    method Admit(a: Admission, trigger: Option<string>, now: int) returns (inserted: bool, refused: Option<Field>)
      requires Agrees()
      modifies this`runs, this`index
      ensures Agrees() && State() == Step(old(State()), Command.Admit(a, trigger, now))
      ensures inserted <==> MayAdmit(old(State()), a)
      ensures refused == if a.id in old(runs) then Mismatch(old(runs[a.id]).origin.admission, a, false) else None
    {
      inserted, refused := false, None;
      if a.id in runs {
        refused := Mismatch(runs[a.id].origin.admission, a, false);
      } else if !stopped {
        Store(Born(Origin(a, now, None, None, trigger), now));
        inserted := true;
      }
    }

    /** Admits a root that its creator claims at once. */
    method Start(a: Admission, now: int, owner: string) returns (fence: Option<Fence>, refused: Option<Field>)
      requires Agrees()
      modifies this`runs, this`index
      ensures Agrees() && State() == Step(old(State()), Command.Start(a, now, owner))
      ensures fence == if MayAdmit(old(State()), a) then Some(Fence(a.id, owner, 1)) else None
      ensures refused == if a.id in old(runs) then Mismatch(old(runs[a.id]).origin.admission, a, false) else None
    {
      fence, refused := None, None;
      if a.id in runs {
        refused := Mismatch(runs[a.id].origin.admission, a, false);
      } else if !stopped {
        var s := Claimed(Born(Origin(a, now, None, None, None), now), now, owner);
        Store(s);
        fence := s.life.fence;
      }
    }

    /** Stores a root that ended before it ran, if its id is new. */
    method Refuse(a: Admission, error: string, now: int) returns (inserted: bool, refused: Option<Field>)
      requires Agrees()
      modifies this`runs, this`index
      ensures Agrees() && State() == Step(old(State()), Command.Refuse(a, error, now))
      ensures inserted <==> MayAdmit(old(State()), a)
      ensures refused == if a.id in old(runs) then Mismatch(old(runs[a.id]).origin.admission, a, false) else None
    {
      inserted, refused := false, None;
      if a.id in runs {
        refused := Mismatch(runs[a.id].origin.admission, a, false);
      } else if !stopped {
        Store(Refused(Born(Origin(a, now, None, None, None), now), error, now));
        inserted := true;
      }
    }

    /** The owner's listens, waits and takes, with the event records they wrote. */
    method Listen(f: Fence, mail: Mail, news: Journal, stored: bool, now: int) returns (ok: bool)
      requires Agrees()
      modifies this`runs, this`index, this`records
      ensures Agrees() && State() == Step(old(State()), Command.Listen(f, mail, news, stored, now))
      ensures ok <==> Checked(old(State()), f, now) && NewsOk(old(State()), f.run, news)
    {
      ok := Check(f, now);
      if ok {
        ok := Mailed(f.run, mail, runs[f.run].life.wake, news, stored);
      }
    }

    /** A copy put into a live run's mailbox. */
    method Deliver(id: Id, mail: Mail, wake: int, news: Journal, stored: bool) returns (ok: bool)
      requires Agrees()
      modifies this`runs, this`index, this`records
      ensures Agrees() && State() == Step(old(State()), Command.Deliver(id, mail, wake, news, stored))
      ensures ok <==> id in old(runs) && Live(old(runs[id])) && NewsOk(old(State()), id, news)
    {
      ok := id in runs && Live(runs[id]);
      if ok {
        ok := Mailed(id, mail, wake, news, stored);
      }
    }

    method Mailed(id: Id, mail: Mail, wake: int, news: Journal, stored: bool) returns (ok: bool)
      requires Agrees() && id in runs
      modifies this`runs, this`index, this`records
      ensures Agrees() && (ok <==> NewsOk(old(State()), id, news))
      ensures State() == if ok then WithMail(old(State()), id, mail, wake, news, stored) else old(State())
    {
      var r := runs[id];
      var journal := if id in records then records[id] else map[];
      ok := AddsTo(journal, news);
      if ok {
        records := records[id := journal + news];
        Store(r.(mail := mail, life := r.life.(wake := wake), evidence := r.evidence || stored));
      }
    }

    /** The whole store's stop switch; no row changes. */
    method Stop(enabled: bool)
      requires Agrees()
      modifies this`stopped
      ensures Agrees() && State() == Step(old(State()), Command.Stop(enabled))
    {
      stopped := enabled;
    }

    method Renew(f: Fence, now: int) returns (ok: bool)
      requires Agrees()
      modifies this`runs, this`index
      ensures Agrees() && State() == Step(old(State()), Command.Renew(f, now))
      ensures ok <==> Checked(old(State()), f, now)
    {
      ok := Check(f, now);
      var owns := Owns(f, now);
      if !stopped && owns {
        Store(Renewed(runs[f.run], now));
      }
    }

    method Release(f: Fence, now: int) returns (ok: bool)
      requires Agrees()
      modifies this`runs, this`index
      ensures Agrees() && State() == Step(old(State()), Command.Release(f, now))
      ensures ok <==> Authority(old(State()), f, now)
    {
      ok := Owns(f, now);
      if ok {
        Store(Released(runs[f.run], now));
      }
    }

    method Owns(f: Fence, now: int) returns (ok: bool)
      ensures ok <==> Authority(State(), f, now)
    {
      if f.run !in runs {
        return false;
      }
      var l := runs[f.run].life;
      ok := l.state.Running? && l.fence == Some(f) && l.lease.Some? && l.lease.value > Later(now, policy.skew);
    }

    /** Saves a record; the save that completes a call adds its numbers to the totals. */
    method SaveRecord(f: Fence, k: string, r: Record, now: int) returns (ok: bool)
      requires Agrees()
      modifies this`runs, this`index, this`records
      ensures Agrees() && State() == Step(old(State()), Save(f, k, r, now))
      ensures ok <==> MaySave(old(State()), f, k, r, now)
    {
      var owns := Owns(f, now);
      if stopped || !owns {
        return false;
      }
      var journal := if f.run in records then records[f.run] else map[];
      ok := Saveable(journal, k, r, runs[f.run].life.held.Some?);
      if !ok {
        return;
      }
      records := records[f.run := journal[k := r]];
      var s := runs[f.run];
      var totals := s.totals;
      if IsAnswer(r) && !(k in journal && IsAnswer(journal[k])) {
        totals := AddUp(policy, totals, r.annotations);
      }
      Store(s.(evidence := true, totals := totals));
    }

    /** Starts an owned child, or repeats what the stored one reported. */
    method StartChild(f: Fence, a: Admission, link: Link, now: int, owner: string) returns (ok: bool)
      requires Agrees()
      modifies this`runs, this`index
      ensures Agrees() && State() == Step(old(State()), Command.StartChild(f, a, link, now, owner))
      ensures ok <==> MayStartChild(old(State()), f, a, link, now)
    {
      ok := Check(f, now);
      if !ok || link.parent != f.run || a.id == f.run {
        return false;
      }
      if a.id in runs && (Mismatch(runs[a.id].origin.admission, a, true).Some? || runs[a.id].origin.child != Some(link)) {
        return false;
      }
      Store(Expects(runs[f.run], a.id, now));
      if a.id !in runs {
        Store(NewChild(runs[f.run], a, link, now, owner));
      } else {
        var c := runs[a.id].life;
        if c.outcome.Some? {
          Lifecycle(a.id, c.outcome.value, now);
        } else if c.state.Waiting? {
          Lifecycle(a.id, Sleeping(0), now);
        }
      }
    }

    /** Removes the evidence of a run that ended long enough ago. */
    method Sweep(id: Id, now: int, kept: nat)
      requires Agrees()
      modifies this`runs, this`index, this`records
      ensures Agrees() && State() == Step(old(State()), Command.Sweep(id, now, kept))
    {
      if id in runs && runs[id].life.ended.Some? && runs[id].evidence && runs[id].life.ended.value <= Later(now, 0 - kept) {
        records := records - {id};
        Store(Swept(runs[id]));
      }
    }

    // ── holds ───────────────────────────────────────────────────────────────

    /** The stored rows of some ids, each once. */
    method RowsOf(ids: set<Id>) returns (list: seq<Run>)
      requires Agrees() && forall x :: x in ids ==> x in runs
      ensures |list| == |ids| && Lists(list, runs, ids)
    {
      list := [];
      var rest := ids;
      while rest != {}
        invariant rest <= ids && |list| + |rest| == |ids|
        invariant Lists(list, runs, ids - rest)
      {
        var x :| x in rest;
        ListsOne(runs, x);
        ListsMore(list, runs, ids - rest, [runs[x]], {x});
        assert ids - rest + {x} == ids - (rest - {x});
        list, rest := list + [runs[x]], rest - {x};
      }
      assert ids - rest == ids;
    }

    /** A live run and its live descendants, level by level through the children index. */
    method Subtree(id: Id) returns (tree: seq<Run>, ghost found: set<Id>)
      requires Agrees() && Good(runs) && id in runs && Live(runs[id])
      ensures IsSubtree(runs, id, tree, found)
    {
      tree := [runs[id]];
      var next := 0;
      ghost var seen := {};
      found := {id};
      FirstListed(runs, id);
      ghost var left := |runs.Keys|;
      while next < |tree|
        invariant Walking(runs, id, tree, found, seen, next) && next + left == |runs.Keys|
        decreases left
      {
        tree, found, seen := Visit(id, tree, found, seen, next);
        next, left := next + 1, left - 1;
      }
      Walked(runs, id, tree, found, seen);
    }

    /** Adds the live children of the next listed run. */
    method Visit(id: Id, tree: seq<Run>, ghost found: set<Id>, ghost seen: set<Id>, next: nat)
      returns (more: seq<Run>, ghost found_: set<Id>, ghost seen_: set<Id>)
      requires Agrees() && Good(runs) && next < |tree| && Walking(runs, id, tree, found, seen, next)
      ensures Walking(runs, id, more, found_, seen_, next + 1) && next < |runs.Keys|
    {
      FoundFits(runs, found);
      var ids := ChildIds(IdOf(tree[next]));
      var rows := RowsOf(ids);
      Expand(runs, id, tree, found, seen, next, ids, rows);
      more, found_, seen_ := tree + rows, found + ids, seen + {IdOf(tree[next])};
    }

    /** Holds or releases a live run and its live descendants; says whether any changed. */
    method SetHold(id: Id, hold: Option<Hold>) returns (changed: bool)
      requires Agrees() && Good(runs)
      modifies this`runs, this`index
      ensures Agrees() && State() == Step(old(State()), Command.SetHold(id, hold))
      ensures changed <==> runs != old(runs)
    {
      ghost var c := Command.SetHold(id, hold);
      if id in runs && Live(runs[id]) {
        assert Commits(State(), c);
        changed := HoldSubtree(id, hold);
        assert State() == Apply(old(State()), c);
      } else {
        changed := false;
      }
    }

    method HoldSubtree(id: Id, hold: Option<Hold>) returns (changed: bool)
      requires Agrees() && Good(runs) && id in runs && Live(runs[id])
      modifies this`runs, this`index
      ensures Agrees() && State() == HeldTree(old(State()), id, hold)
      ensures changed <==> runs != old(runs)
    {
      ghost var a := runs;
      ghost var found;
      var tree: seq<Run>;
      tree, found := Subtree(id);
      changed := HoldEach(tree, hold, found);
      HoldPartIsTree(a, id, found, hold);
    }

    method HoldEach(tree: seq<Run>, hold: Option<Hold>, ghost found: set<Id>) returns (changed: bool)
      requires Agrees() && Lists(tree, runs, found)
      modifies this`runs, this`index
      ensures Agrees() && runs == HoldPart(old(runs), found, hold)
      ensures changed <==> runs != old(runs)
    {
      changed := false;
      ghost var a, done: set<Id> := runs, {};
      assert HoldPart(a, done, hold) == a;
      for i := 0 to |tree|
        invariant Agrees() && Lists(tree[..i], a, done) && runs == HoldPart(a, done, hold)
        invariant changed <==> runs != a
      {
        NotSeen(tree, a, done, i);
        ListsNext(tree, a, done, i, []);
        assert tree + [] == tree;
        var touched := HoldOne(tree[i], hold, a, done);
        changed := changed || touched;
        done := done + {IdOf(tree[i])};
      }
      assert tree[..|tree|] == tree;
      SameList(tree, a, found, done);
    }

    method HoldOne(s: Run, hold: Option<Hold>, ghost a: Rows, ghost done: set<Id>) returns (changed: bool)
      requires Agrees() && runs == HoldPart(a, done, hold) && IdOf(s) in a && a[IdOf(s)] == s && IdOf(s) !in done
      modifies this`runs, this`index
      ensures Agrees() && runs == HoldPart(a, done + {IdOf(s)}, hold)
      ensures changed || old(runs) != a <==> runs != a
    {
      changed := s.life.held.Some? != hold.Some?;
      if changed {
        var before := Indexes(s);
        StoreIndexed(Toggled(s, hold), before);
        assert runs[IdOf(s)] != a[IdOf(s)];
      }
    }
  }

  /** The key was decided before. */
  predicate Repeats(db: Db, f: Fence, k: string, now: int) {
    Checked(db, f, now) && k in JournalOf(db, f.run) && JournalOf(db, f.run)[k].Budget?
  }

  function Toggled(r: Run, hold: Option<Hold>): Run {
    r.(life := r.life.(held := hold))
  }

  /** The rows once `done` are in the wanted state. */
  ghost function HoldPart(a: Rows, done: set<Id>, hold: Option<Hold>): Rows {
    map x | x in a :: if x in done && a[x].life.held.Some? != hold.Some? then Toggled(a[x], hold) else a[x]
  }

  lemma HoldPartIsTree(a: Rows, id: Id, found: set<Id>, hold: Option<Hold>)
    requires forall x :: x in found <==> x in a && Live(a[x]) && Under(a, x, id)
    ensures HoldPart(a, found, hold) == HoldTree(a, id, hold)
  {
  }

  /** The list holds the rows of exactly the given runs, each once. */
  ghost predicate Lists(list: seq<Run>, runs: Rows, ids: set<Id>) {
    && (forall i :: 0 <= i < |list| ==> IdOf(list[i]) in ids && IdOf(list[i]) in runs && list[i] == runs[IdOf(list[i])])
    && (forall i, j :: 0 <= i < j < |list| ==> IdOf(list[i]) != IdOf(list[j]))
    && (forall x :: x in ids ==> exists i :: 0 <= i < |list| && IdOf(list[i]) == x)
  }

  ghost predicate Hangs(runs: Rows, x: Id, seen: set<Id>) {
    x in runs && ParentOf(runs[x]).Some? && ParentOf(runs[x]).value in seen
  }

  /** The search found live runs below `id` only, each through its parent, and every
      live child of the runs seen. */
  ghost predicate Explored(runs: Rows, id: Id, found: set<Id>, seen: set<Id>) {
    && id in found && seen <= found
    && (forall x :: x in found ==> x in runs && Live(runs[x]) && Under(runs, x, id))
    && (forall x {:trigger Hangs(runs, x, seen)} :: x in found && x != id ==> Hangs(runs, x, seen))
    && (forall x {:trigger Hangs(runs, x, seen)} :: Hangs(runs, x, seen) && Live(runs[x]) ==> x in found)
  }

  /** The children of a run not seen before are new: a run has one parent, and the top's
      is not below it. */
  lemma Explore(runs: Rows, id: Id, found: set<Id>, seen: set<Id>, p: Id, ids: set<Id>)
    requires Good(runs) && Explored(runs, id, found, seen) && p in found && p !in seen
    requires forall x :: x in ids <==> x in runs && Live(runs[x]) && ParentOf(runs[x]) == Some(p)
    ensures ids !! found && Explored(runs, id, found + ids, seen + {p})
  {
    forall x | x in ids ensures x !in found {
      assert !Hangs(runs, x, seen);
      if x == id {
        ParentNotUnder(runs, id);
      }
    }
    forall x | x in found + ids && x != id ensures Hangs(runs, x, seen + {p}) {
      assert x in found ==> Hangs(runs, x, seen);
    }
    forall x | x in ids ensures Under(runs, x, id) {
      UnderParent(runs, x, id);
    }
    forall x | Hangs(runs, x, seen + {p}) && Live(runs[x]) ensures x in found + ids {
      assert Hangs(runs, x, seen) || ParentOf(runs[x]) == Some(p);
    }
  }

  /** The search so far: `found` are listed, the first `next` of them seen. */
  ghost predicate Walking(runs: Rows, id: Id, tree: seq<Run>, found: set<Id>, seen: set<Id>, next: nat) {
    && next <= |tree| && |found| == |tree| && found <= runs.Keys
    && Lists(tree, runs, found) && Lists(tree[..next], runs, seen)
    && Explored(runs, id, found, seen)
  }

  /** The list holds exactly the live runs at and below `id`, each once. */
  ghost predicate IsSubtree(runs: Rows, id: Id, tree: seq<Run>, found: set<Id>) {
    Lists(tree, runs, found) && forall x :: x in found <==> x in runs && Live(runs[x]) && Under(runs, x, id)
  }

  lemma FirstListed(runs: Rows, id: Id)
    requires Good(runs) && id in runs && Live(runs[id])
    ensures Walking(runs, id, [runs[id]], {id}, {}, 0)
  {
    assert RowOk(id, runs[id]);
    UnderSelf(runs, id);
    ListsOne(runs, id);
  }

  /** Visiting one listed run lists its children, all new. */
  lemma Expand(runs: Rows, id: Id, tree: seq<Run>, found: set<Id>, seen: set<Id>, next: nat, ids: set<Id>, rows: seq<Run>)
    requires Good(runs) && next < |tree| && Walking(runs, id, tree, found, seen, next)
    requires Lists(rows, runs, ids) && |ids| == |rows|
    requires forall x :: x in ids <==> x in runs && Live(runs[x]) && ParentOf(runs[x]) == Some(IdOf(tree[next]))
    ensures Walking(runs, id, tree + rows, found + ids, seen + {IdOf(tree[next])}, next + 1)
  {
    NotSeen(tree, runs, seen, next);
    Explore(runs, id, found, seen, IdOf(tree[next]), ids);
    ListsMore(tree, runs, found, rows, ids);
    ListsNext(tree, runs, seen, next, rows);
  }

  lemma Walked(runs: Rows, id: Id, tree: seq<Run>, found: set<Id>, seen: set<Id>)
    requires Good(runs) && Walking(runs, id, tree, found, seen, |tree|)
    ensures IsSubtree(runs, id, tree, found)
  {
    assert tree[..|tree|] == tree;
    SameList(tree, runs, found, seen);
    Reached(runs, id, found);
  }

  lemma FoundFits(runs: Rows, found: set<Id>)
    requires found <= runs.Keys
    ensures |found| <= |runs.Keys|
  {
    assert |runs.Keys - found| == |runs.Keys| - |found|;
  }

  lemma NotSeen(tree: seq<Run>, runs: Rows, seen: set<Id>, next: nat)
    requires next < |tree| && Lists(tree[..next], runs, seen)
    requires forall i, j :: 0 <= i < j < |tree| ==> IdOf(tree[i]) != IdOf(tree[j])
    ensures IdOf(tree[next]) !in seen
  {
    assert forall i :: 0 <= i < |tree[..next]| ==> IdOf(tree[..next][i]) != IdOf(tree[next]);
  }

  lemma ListsOne(runs: Rows, x: Id)
    requires x in runs && IdOf(runs[x]) == x
    ensures Lists([runs[x]], runs, {x})
  {
    assert IdOf([runs[x]][0]) == x;
  }

  lemma ListsMore(tree: seq<Run>, runs: Rows, found: set<Id>, rows: seq<Run>, ids: set<Id>)
    requires Lists(tree, runs, found) && Lists(rows, runs, ids) && ids !! found
    ensures Lists(tree + rows, runs, found + ids)
  {
    var all := tree + rows;
    forall x | x in found + ids ensures exists i :: 0 <= i < |all| && IdOf(all[i]) == x {
      if x in found {
        var i :| 0 <= i < |tree| && IdOf(tree[i]) == x;
        assert all[i] == tree[i];
      } else {
        var i :| 0 <= i < |rows| && IdOf(rows[i]) == x;
        assert all[|tree| + i] == rows[i];
      }
    }
  }

  lemma ListsNext(tree: seq<Run>, runs: Rows, seen: set<Id>, next: nat, rows: seq<Run>)
    requires next < |tree| && Lists(tree[..next], runs, seen) && IdOf(tree[next]) !in seen
    requires IdOf(tree[next]) in runs && tree[next] == runs[IdOf(tree[next])]
    ensures Lists((tree + rows)[..next + 1], runs, seen + {IdOf(tree[next])})
  {
    assert (tree + rows)[..next + 1] == tree[..next] + [tree[next]];
    ListsOne(runs, IdOf(tree[next]));
    ListsMore(tree[..next], runs, seen, [tree[next]], {IdOf(tree[next])});
  }

  lemma SameList(tree: seq<Run>, runs: Rows, a: set<Id>, b: set<Id>)
    requires Lists(tree, runs, a) && Lists(tree, runs, b)
    ensures a == b
  {
    forall x ensures x in a <==> x in b {
      if x in a {
        var i :| 0 <= i < |tree| && IdOf(tree[i]) == x;
      }
      if x in b {
        var i :| 0 <= i < |tree| && IdOf(tree[i]) == x;
      }
    }
  }

  lemma Reached(runs: Rows, id: Id, found: set<Id>)
    requires LiveParents(runs) && Explored(runs, id, found, found)
    ensures forall x :: x in found <==> x in runs && Live(runs[x]) && Under(runs, x, id)
  {
    forall c | c in runs && Live(runs[c]) && ParentOf(runs[c]).Some? && ParentOf(runs[c]).value in found ensures c in found {
      assert Hangs(runs, c, found);
    }
    forall x | x in runs && Live(runs[x]) && Under(runs, x, id) ensures x in found {
      var n: nat :| Climbs(runs, x, id, n);
      ClosedReaches(runs, id, found, x, n);
    }
  }

  /** Adds the numbers of one answer to the totals. */
  method AddUp(p: Policy, totals: Totals, answer: Annotations) returns (sum: Totals)
    ensures sum == Accumulate(p, totals, answer)
  {
    sum := totals;
    for i := 0 to |answer|
      invariant sum == Accumulate(p, totals, answer[..i])
    {
      assert answer[..i + 1][..i] == answer[..i];
      match answer[i].1
      case Text(_) =>
      case Number(n) =>
        var name := answer[i].0;
        if name in sum {
          var added := p.add(sum[name], n);
          if added.Some? {
            sum := sum[name := added.value];
          } else {
            sum := sum[name := sum[name]];
          }
        } else if |sum| < MAX_ANNOTATIONS {
          var more := sum[name := n];
          if p.fits(more) {
            sum := more;
          }
        }
    }
    assert answer[..|answer|] == answer;
  }

  /** Visiting one parent keeps the cascade's invariant and either ends runs or leaves
      fewer parents to visit. */
  lemma Pursue(a: Rows, id: Id, was: set<Id>, done: set<Id>, p: Id, parents: seq<Id>, ids: seq<Id>)
    requires AllEnd(a, id, was) && p in was && was <= done
    requires Pursued(a, was, parents + [p])
    requires forall x :: x in done <==> x in was || (x in a && Live(a[x]) && ParentOf(a[x]) == Some(p))
    requires forall x :: x in ids <==> x in done - was
    ensures AllEnd(a, id, done) && Pursued(a, done, parents + ids)
    ensures if ids == [] then done == was else Left(a, done) < Left(a, was)
  {
    forall x | x in done ensures EndsWith(a, x, id) {
      if x !in was {
        ChildEnds(a, id, was, p, x);
      }
    }
    if ids == [] {
      forall x | x in done ensures x in was {
        assert x !in ids;
      }
      assert done == was;
    } else {
      assert ids[0] in ids;
      assert ids[0] in a.Keys - was && ids[0] !in a.Keys - done;
      Fewer(a.Keys - done, a.Keys - was, ids[0]);
    }
  }

  ghost function Left(a: Rows, done: set<Id>): nat {
    |a.Keys - done|
  }

  lemma Fewer<T>(a: set<T>, b: set<T>, x: T)
    requires a <= b && x in b && x !in a
    ensures |a| < |b|
  {
    assert |b - a| == |b| - |a|;
    assert x in b - a;
  }
}

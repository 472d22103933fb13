/**
 What each command of the run store decides and leaves, written out over the rows before
 it: claims, wake-ups, admissions, records, the budget and children.
 */
module RunDecisions {
  import opened Options
  import opened Runs
  import opened RunTree
  import opened RunSafety
  import opened RunOutcomes

  // ── claims ────────────────────────────────────────────────────────────────

  /** Due: ready or waiting with its wake-up reached, or running with its lease over. */
  predicate Due(l: Life, now: int) {
    match l.state
    case Ready => l.wake <= now
    case Waiting => l.wake <= now
    case Running => l.lease.Some? && l.lease.value <= now
    case _ => false
  }

  /** A worker of one version takes runs of that version, of those it accepts, and those of
      none; a worker of no version takes all. */
  predicate Takes(w: Worker, application: Option<string>) {
    w.version.None? || application.None? || application.value == w.version.value || application.value in w.accepts
  }

  /** A claim takes a due run that is not held, by a worker that may run it. */
  lemma ClaimDecides(db: Db, id: Id, now: int, owner: string, w: Worker)
    ensures Commits(db, Claim(id, now, owner, w)) <==>
            && id in db.runs && !db.stopped && db.runs[id].life.held.None? && Due(db.runs[id].life, now)
            && Takes(w, db.runs[id].origin.admission.application) && db.runs[id].life.generation < 0xffff_ffff_ffff_ffff
  {
  }

  // ── wake-ups ──────────────────────────────────────────────────────────────

  function Doubled(n: nat): nat {
    if n == 0 then 1 else 2 * Doubled(n - 1)
  }

  /** The pause after the nth interruption in a row: two seconds, doubled each time, up to
      ten minutes. */
  function Pause(n: nat): nat
    requires n > 0
  {
    var ms := 2_000 * Doubled(n - 1);
    if ms < 600_000 then ms else 600_000
  }

  lemma {:induction false} DoubledIsPower(n: nat)
    ensures Doubled(n) == Power(n)
  {
    if n > 0 {
      DoubledIsPower(n - 1);
    }
  }

  lemma PauseIsBackoff(n: nat)
    requires n > 0
    ensures Backoff(n) == Pause(n)
  {
    DoubledIsPower(n - 1);
    if n > 21 {
      DoubledIsPower(20);
      PowerGrows(20, n - 1);
      PowerGrows(9, 20);
      assert Power(9) == 512;
    }
  }

  /** When a run that its owner lets go is due again: at once when released; asleep, when it
      asked, or at once if woken; after its pause when interrupted. */
  lemma WakeDecides(db: Db, c: Command, after: Db)
    requires Good(db.runs) && Commits(db, c) && after == Apply(db, c) && (c.Release? || c.Finish?)
    ensures c.fence.run in db.runs && c.fence.run in after.runs
    ensures var l, wake := db.runs[c.fence.run].life, after.runs[c.fence.run].life.wake;
            && (c.Release? ==> wake == c.now)
            && (c.Finish? && c.status.Sleeping? ==> wake == if c.woken then c.now else c.status.until)
            && (c.Finish? && c.status.Interrupted? && l.interruptions < 9 ==> wake == Sum(c.now, Pause(l.interruptions + 1)))
  {
    if c.Finish? {
      OwnerLive(db, c.fence, c.now);
      LetGoWake(db.runs, c.fence.run, c.status, c.woken, c.now, after);
    }
  }

  lemma LetGoWake(runs: Rows, id: Id, status: Status, woken: bool, now: int, after: Db)
    requires Good(runs) && id in runs
    requires !Ends(Verdict(runs[id].life.interruptions, status)) ==> after.runs == Rested(runs, id, status, woken, now)
    ensures status.Sleeping? ==> id in after.runs && after.runs[id].life.wake == if woken then now else status.until
    ensures status.Interrupted? && runs[id].life.interruptions < 9 ==>
              id in after.runs && after.runs[id].life.wake == Sum(now, Pause(runs[id].life.interruptions + 1))
  {
    if ParentOf(runs[id]) == Some(id) {
      ParentNotUnder(runs, id);
      UnderSelf(runs, id);
    }
    if status.Interrupted? {
      PauseIsBackoff(runs[id].life.interruptions + 1);
    }
  }

  /** A claim of a running run records that it was due when its lease ended. */
  lemma ClaimWake(db: Db, id: Id, now: int, owner: string, w: Worker)
    requires Good(db.runs) && Commits(db, Claim(id, now, owner, w))
    ensures id in Apply(db, Claim(id, now, owner, w)).runs
    ensures var l := db.runs[id].life;
            Some(Apply(db, Claim(id, now, owner, w)).runs[id].life.wake) == if l.state.Running? then l.lease else Some(l.wake)
  {
  }

  // ── admissions ────────────────────────────────────────────────────────────

  /** What a root must agree on: the definition, the version it names, the host's data. */
  lemma RootAgrees(stored: Admission, a: Admission)
    ensures Mismatch(stored, a, false) ==
            if stored.name != a.name then Some(NameField)
            else if a.pinned && stored.version != a.version then Some(VersionField)
            else if stored.host != a.host then Some(HostField)
            else None
    ensures Mismatch(stored, a, true) == if stored.name != a.name then Some(NameField) else None
  {
  }

  /** A new row: what admission fixed, an empty mailbox, no totals and no evidence. */
  lemma NewRowIs(db: Db, c: Command, after: Db)
    requires Commits(db, c) && after == Apply(db, c) && (c.Admit? || c.Start? || c.Refuse?)
    ensures c.a.id !in db.runs && !db.stopped && c.a.id in after.runs
    ensures after == db.(runs := db.runs[c.a.id := after.runs[c.a.id]])
    ensures var r := after.runs[c.a.id];
            && r.origin == Origin(c.a, c.now, None, None, if c.Admit? then c.trigger else None)
            && r.mail == Mail(map[], map[], map[], {}, map[], {}, None, {}) && r.totals == map[] && !r.evidence && r.budgetEnded.None?
            && r.life == NewLife(c)
  {
  }

  // ── records ───────────────────────────────────────────────────────────────

  /** What may replace a stored record: itself, a task's result, or a later state of a call
      that is not answered, with the same binding. */
  predicate Replaces(o: Record, r: Record) {
    || o == r
    || (o.Task? && r.Task? && o.result.None? && o.started == r.started)
    || (o.Call? && r.Call? && !o.state.Done? && o.binding == r.binding)
  }

  /** A record is saved if it may replace what is stored; event, budget and refusal records
      only as they are stored; under a hold only the answer of a pending call. */
  lemma SaveDecides(db: Db, f: Fence, k: string, r: Record, now: int)
    requires f.run in db.runs && Authority(db, f, now) && !db.stopped
    ensures var journal := JournalOf(db, f.run);
            Commits(db, Save(f, k, r, now)) <==>
            && (k in journal ==> Replaces(journal[k], r))
            && (r.Event? || r.Expired? || r.Budget? || r.Exceeded? ==> k in journal && journal[k] == r)
            && (db.runs[f.run].life.held.Some? ==>
                  k in journal && journal[k].Call? && journal[k].state == Pending && r.Call? && r.state != Pending)
  {
  }

  /** A save stores the record and, with the first answer of a call, its numbers. */
  lemma SaveLeaves(db: Db, f: Fence, k: string, r: Record, now: int, after: Db)
    requires Commits(db, Save(f, k, r, now)) && after == Apply(db, Save(f, k, r, now))
    ensures f.run in db.runs && f.run in after.runs
    ensures after.records == db.records[f.run := JournalOf(db, f.run)[k := r]]
    ensures after == db.(records := after.records, runs := db.runs[f.run := db.runs[f.run].(evidence := true, totals := after.runs[f.run].totals)])
    ensures !(r.Call? && r.state.Done?) || (k in JournalOf(db, f.run) && JournalOf(db, f.run)[k].Call? && JournalOf(db, f.run)[k].state.Done?)
            ==> after.runs[f.run].totals == db.runs[f.run].totals
  {
  }

  /** A number is added to the total of its name if the sum is a number; a new name is
      taken in while there are fewer than thirty-two and the totals with it still fit. */
  lemma AddToDecides(p: Policy, totals: Totals, name: string, n: Num)
    ensures AddTo(p, totals, name, n) ==
            if name in totals then (if p.add(totals[name], n).Some? then totals[name := p.add(totals[name], n).value] else totals)
            else if |totals| < 32 && p.fits(totals[name := n]) then totals[name := n]
            else totals
  {
    if name in totals {
      assert totals[name := totals[name]] == totals;
    }
  }

  /** The annotations of an answer are added one after the other; texts are not. */
  lemma AccumulateDecides(p: Policy, totals: Totals, answer: Annotations, name: string, note: Annotation)
    ensures Accumulate(p, totals, []) == totals
    ensures Accumulate(p, totals, answer + [(name, note)]) ==
            if note.Number? then AddTo(p, Accumulate(p, totals, answer), name, note.n) else Accumulate(p, totals, answer)
  {
    var all := answer + [(name, note)];
    assert all[..|all| - 1] == answer;
  }

  // ── the budget ────────────────────────────────────────────────────────────

  /** A unit is granted while the tree's counter is below the limit and refused from then
      on; the record says which, the counter after it, and the run's first refused key. */
  lemma SpendLeaves(db: Db, f: Fence, k: string, limit: nat, now: int, after: Db)
    requires Commits(db, Spend(f, k, limit, now)) && after == Apply(db, Spend(f, k, limit, now))
    ensures f.run in db.runs && k !in JournalOf(db, f.run)
    ensures var journal := JournalOf(db, f.run);
            var root := if db.runs[f.run].origin.root.Some? then db.runs[f.run].origin.root.value else db.runs[f.run].origin.admission.id;
            var spent := if root in db.budget then db.budget[root] else 0;
            var first := if "exceeded" in journal && journal["exceeded"].Exceeded? then journal["exceeded"].key else k;
            && after.runs == db.runs[f.run := db.runs[f.run].(evidence := true)]
            && after == db.(runs := after.runs, budget := after.budget, records := after.records)
            && if spent < limit then
                 after.budget == db.budget[root := spent + 1] && after.records == db.records[f.run := journal[k := Budget(true, spent + 1, None)]]
               else
                 after.budget == db.budget
                 && after.records == db.records[f.run := journal["exceeded" := Exceeded(first)][k := Budget(false, spent, Some(first))]]
  {
  }

  /** The end of a run keeps what its tree had spent; a root's counter goes with it. */
  lemma EndKeepsBudget(db: Db, id: Id, status: Status, now: int, x: Id)
    requires id in db.runs && x in db.runs && Live(db.runs[id])
    ensures var after := EndedWith(db, id, status, now);
            var root := if db.runs[id].origin.root.Some? then db.runs[id].origin.root.value else db.runs[id].origin.admission.id;
            && after.budget == (if db.runs[id].origin.root.None? then db.budget - {id} else db.budget)
            && x in after.runs
            && after.runs[x].budgetEnded == (if Falls(db.runs, x, id) then Some(if root in db.budget then db.budget[root] else 0) else db.runs[x].budgetEnded)
            && (Falls(db.runs, x, id) ==>
                  after.runs[x].mail == db.runs[x].mail.(awaits := map[], listeners := map[], subscriptions := map[], addressed := {}, waits := map[]))
            && (!Falls(db.runs, x, id) ==> after.runs[x] == db.runs[x])
            && after.runs[x].totals == db.runs[x].totals && after.runs[x].evidence == db.runs[x].evidence
  {
    UnderSelf(db.runs, id);
  }

  // ── children ──────────────────────────────────────────────────────────────

  /** A child starts under its owner's lease: new, or the one its parent started under this
      very link, of the same definition. */
  lemma ChildDecides(db: Db, f: Fence, a: Admission, link: Link, now: int, owner: string)
    ensures Commits(db, StartChild(f, a, link, now, owner)) <==>
            && Checked(db, f, now) && link.parent == f.run && a.id != f.run
            && (a.id in db.runs ==> db.runs[a.id].origin.admission.name == a.name && db.runs[a.id].origin.child == Some(link))
  {
  }

  /** A new child: linked to its parent, in its parent's tree, and claimed by its creator. */
  lemma ChildLeaves(db: Db, f: Fence, a: Admission, link: Link, now: int, owner: string, after: Db)
    requires Commits(db, StartChild(f, a, link, now, owner)) && after == Apply(db, StartChild(f, a, link, now, owner)) && a.id !in db.runs
    ensures f.run in db.runs && a.id in after.runs
    ensures var r, p := after.runs[a.id], db.runs[f.run];
            && r.origin == Origin(a, now, Some(link), Some(if p.origin.root.Some? then p.origin.root.value else p.origin.admission.id), None)
            && r.life == NewLife(StartChild(f, a, link, now, owner)) && r.totals == map[] && !r.evidence && r.budgetEnded.None?
            && r.mail == Mail(map[], map[], map[], {}, map[], {}, None, {})
    ensures after.records == db.records && after.budget == db.budget
  {
  }

  /** What the parent registers: both notices of the child, and the internal listener. */
  lemma ParentExpects(p: Run, child: Id, now: int)
    ensures var q := Expects(p, child, now);
            && q == p.(mail := p.mail.(awaits := q.mail.awaits, listeners := p.mail.listeners["child:" + child := ["done:" + child]]))
            && (forall t :: t in q.mail.awaits <==> t in p.mail.awaits || t == "done:" + child || t == "waiting:" + child)
            && (forall t :: t in q.mail.awaits ==> q.mail.awaits[t] == if t in p.mail.awaits then p.mail.awaits[t] else now)
  {
  }

  // ── the host's commands ───────────────────────────────────────────────────

  /** A new run is admitted unless all is stopped. Cancelling, holding, releasing and
      delivering need a run that has not ended, and no more than that; the stop switch can
      always be set. */
  lemma HostDecides(db: Db, c: Command)
    ensures c.Admit? || c.Start? || c.Refuse? ==> (Commits(db, c) <==> c.a.id !in db.runs && !db.stopped)
    ensures c.Kill? || c.SetHold? ==> (Commits(db, c) <==> c.id in db.runs && db.runs[c.id].life.ended.None?)
    ensures c.Deliver? ==> (Commits(db, c) <==> c.id in db.runs && db.runs[c.id].life.ended.None? && NewsFits(db, c.id, c.news))
    ensures c.Stop? ==> Commits(db, c) && Apply(db, c) == db.(stopped := c.enabled)
  {
  }

  /** Event records under keys that have none; not the one that refusals use. */
  predicate NewsFits(db: Db, id: Id, news: Journal) {
    forall k | k in news ::
      !(id in db.records && k in db.records[id]) && k != "exceeded" && (news[k].Event? || news[k].Expired?)
  }

  /** What an arrival writes: the mailbox fields, the wake-up and the event records it is
      given, and evidence once and for all. */
  lemma MailLeaves(db: Db, id: Id, mail: Mail, wake: int, news: Journal, stored: bool)
    requires id in db.runs
    ensures var after := WithMail(db, id, mail, wake, news, stored);
            && id in after.runs && id in after.records
            && after == db.(runs := db.runs[id := after.runs[id]], records := db.records[id := after.records[id]])
            && after.runs[id] == db.runs[id].(mail := mail, life := db.runs[id].life.(wake := wake), evidence := db.runs[id].evidence || stored)
            && (forall k :: k in after.records[id] <==> k in news || (id in db.records && k in db.records[id]))
            && (forall k :: k in after.records[id] ==> after.records[id][k] == if k in news then news[k] else db.records[id][k])
  {
  }

  // ── the sweep ─────────────────────────────────────────────────────────────

  /** Evidence goes once its run ended long enough ago, and with it its records. */
  lemma SweepDecides(db: Db, id: Id, now: int, kept: nat)
    ensures Commits(db, Sweep(id, now, kept)) <==>
            id in db.runs && db.runs[id].life.ended.Some? && db.runs[id].evidence && db.runs[id].life.ended.value <= Sum(now, 0 - kept)
    ensures Commits(db, Sweep(id, now, kept)) ==>
              var after := Apply(db, Sweep(id, now, kept));
              && after.records == db.records - {id} && id in after.runs && after == db.(runs := db.runs[id := after.runs[id]], records := after.records)
              && after.runs[id] == db.runs[id].(evidence := false, mail := db.runs[id].mail.(pending := {}, mailbox := None, seen := {}))
  {
  }
}

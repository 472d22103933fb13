/**
 The secondary rows of the runs: which index rows a run row has, how a store of the
 row moves them, and what a range of the due index finds.
 */
module RunIndex {
  import opened Options
  import opened Runs
  import opened RunTree
  import opened RunSafety

  // ── index rows ────────────────────────────────────────────────────────────

  datatype Scope = Everything | OfName(name: string)
  datatype WaitScope =
    | AnyWait
    | WaitOfName(name: string)
    | WaitOfRun(id: Id)
    | WaitOfType(type_: string)
    | WaitOfNameAndType(name: string, type_: string)

  /** The key of an index row; every one names its run. */
  datatype Key =
    | ByName(name: string, run: Id)
    | ByStart(scope: Scope, at: int, run: Id)
    | ByEnd(scope: Scope, at: int, run: Id)
    | ByParent(parent: Id, at: int, run: Id)
    | ByWait(wscope: WaitScope, at: int, run: Id, key: string)
    | LiveName(name: string, run: Id)
    | TriggerLive(trigger: string, run: Id)
    | Due(at: int, run: Id)
    | DueApp(app: string, at: int, run: Id)
    | Children(parent: Id, run: Id)
    | Awaiting(type_: string, at: int, run: Id)
    | Subscribed(type_: string, run: Id)
    | MailboxDue(at: int, run: Id)
    | FinishedAt(at: int, run: Id)

  datatype Entry = RunEntry(run: Id) | WaitEntry(run: Id, definition: string, key: string, waiting: PendingWait)

  type Index = map<Key, Entry>

  /** When a run is due: a held one never, a running one when its lease ends. */
  function DueAt(l: Life): Option<int> {
    if l.held.Some? then None
    else if l.state.Running? then l.lease
    else Some(l.wake)
  }

  function AppOf(r: Run): string {
    if r.origin.admission.application.Some? then r.origin.admission.application.value else ""
  }

  /** A child's waiting notice is awaited without competing for deliveries until a
      listen names the type. */
  predicate Internal(m: Mail, t: string) {
    "waiting:" <= t && "child:" + t[|"waiting:"|..] in m.listeners
  }

  predicate Competes(r: Run, t: string) {
    && r.life.held.None? && t in r.mail.awaits && t !in r.mail.pending
    && (!Internal(r.mail, t) || t in r.mail.addressed)
  }

  predicate InScope(s: Scope, r: Run) {
    s.OfName? ==> s.name == r.origin.admission.name
  }

  predicate InWaitScope(s: WaitScope, r: Run, w: PendingWait) {
    match s
    case AnyWait => true
    case WaitOfName(name) => name == r.origin.admission.name
    case WaitOfRun(id) => id == IdOf(r)
    case WaitOfType(t) => t in w.types
    case WaitOfNameAndType(name, t) => name == r.origin.admission.name && t in w.types
  }

  /** Whether a run row has this index row. */
  predicate Indexed(r: Run, k: Key) {
    && k.run == IdOf(r)
    && match k
       case ByName(name, _) => name == r.origin.admission.name
       case ByStart(scope, at, _) => InScope(scope, r) && at == r.origin.admitted
       case ByEnd(scope, at, _) => InScope(scope, r) && r.life.ended == Some(at)
       case ByParent(parent, at, _) => ParentOf(r) == Some(parent) && at == r.origin.admitted
       case ByWait(scope, at, _, key) =>
         key in r.mail.waits && at == r.mail.waits[key].since && InWaitScope(scope, r, r.mail.waits[key])
       case LiveName(name, _) => Live(r) && name == r.origin.admission.name
       case TriggerLive(trigger, _) => Live(r) && r.origin.trigger == Some(trigger)
       case Due(at, _) => Live(r) && DueAt(r.life) == Some(at)
       case DueApp(app, at, _) => Live(r) && DueAt(r.life) == Some(at) && app == AppOf(r)
       case Children(parent, _) => Live(r) && ParentOf(r) == Some(parent)
       case Awaiting(t, at, _) => Live(r) && Competes(r, t) && at == r.mail.awaits[t]
       case Subscribed(t, _) => Live(r) && exists s | s in r.mail.subscriptions :: t in r.mail.subscriptions[s]
       case MailboxDue(at, _) => Live(r) && r.mail.mailbox == Some(at)
       case FinishedAt(at, _) => r.life.ended == Some(at) && r.evidence
  }

  function EntryOf(r: Run, k: Key): Entry
    requires Indexed(r, k)
  {
    if k.ByWait? then WaitEntry(IdOf(r), r.origin.admission.name, k.key, r.mail.waits[k.key]) else RunEntry(IdOf(r))
  }

  // ── the rows of one run, as the store collects them ───────────────────────

  ghost predicate IsIndexOf(m: Index, r: Run) {
    forall k :: (k in m <==> Indexed(r, k)) && (k in m ==> m[k] == EntryOf(r, k))
  }

  method WaitRows(r: Run) returns (rows: set<Key>)
    ensures forall k :: k in rows <==> k.ByWait? && Indexed(r, k)
  {
    rows := {};
    var rest := r.mail.waits.Keys;
    while rest != {}
      invariant rest <= r.mail.waits.Keys
      invariant forall k :: k in rows <==> k.ByWait? && k.key !in rest && Indexed(r, k)
    {
      var key :| key in rest;
      rest := rest - {key};
      var one := RowsOfWait(r, key);
      rows := rows + one;
    }
  }

  /** The rows of one wait: five kinds, two of them per listed type. */
  method RowsOfWait(r: Run, key: string) returns (rows: set<Key>)
    requires key in r.mail.waits
    ensures forall k :: k in rows <==> k.ByWait? && k.key == key && Indexed(r, k)
  {
    var w, name, id := r.mail.waits[key], r.origin.admission.name, IdOf(r);
    var scopes := {AnyWait, WaitOfName(name), WaitOfRun(id)};
    for i := 0 to |w.types|
      invariant forall s :: s in scopes <==>
                  (s.AnyWait? || s == WaitOfName(name) || s == WaitOfRun(id)
                   || (s.WaitOfType? && s.type_ in w.types[..i])
                   || (s.WaitOfNameAndType? && s.name == name && s.type_ in w.types[..i]))
    {
      assert w.types[..i + 1] == w.types[..i] + [w.types[i]];
      scopes := scopes + {WaitOfType(w.types[i]), WaitOfNameAndType(name, w.types[i])};
    }
    assert w.types[..|w.types|] == w.types;
    assert forall s :: s in scopes <==> InWaitScope(s, r, w);
    rows := set s | s in scopes :: ByWait(s, w.since, id, key);
  }

  method AwaitRows(r: Run) returns (rows: set<Key>)
    ensures forall k :: k in rows <==> k.Awaiting? && Indexed(r, k)
  {
    rows := {};
    if !Live(r) || r.life.held.Some? {
      return;
    }
    var rest := r.mail.awaits.Keys;
    while rest != {}
      invariant rest <= r.mail.awaits.Keys
      invariant forall k :: k in rows <==> k.Awaiting? && k.type_ !in rest && Indexed(r, k)
    {
      var t :| t in rest;
      rest := rest - {t};
      if t !in r.mail.pending && (!Internal(r.mail, t) || t in r.mail.addressed) {
        rows := rows + {Awaiting(t, r.mail.awaits[t], IdOf(r))};
      }
    }
  }

  method SubscriptionRows(r: Run) returns (rows: set<Key>)
    ensures forall k :: k in rows <==> k.Subscribed? && Indexed(r, k)
  {
    rows := {};
    if !Live(r) {
      return;
    }
    var rest := r.mail.subscriptions.Keys;
    while rest != {}
      invariant rest <= r.mail.subscriptions.Keys
      invariant forall k :: k in rows <==>
                  (k.Subscribed? && k.run == IdOf(r) &&
                   exists s :: s in r.mail.subscriptions && s !in rest && k.type_ in r.mail.subscriptions[s])
    {
      var s :| s in rest;
      rest := rest - {s};
      rows := rows + set t | t in r.mail.subscriptions[s] :: Subscribed(t, IdOf(r));
    }
  }

  /** The rows a run has whatever its mailbox holds. */
  method LifeRows(r: Run) returns (rows: set<Key>)
    ensures forall k :: k in rows <==> !k.ByWait? && !k.Awaiting? && !k.Subscribed? && Indexed(r, k)
  {
    var id, name := IdOf(r), r.origin.admission.name;
    rows := {ByName(name, id), ByStart(Everything, r.origin.admitted, id), ByStart(OfName(name), r.origin.admitted, id)};
    if r.origin.child.Some? {
      rows := rows + {ByParent(r.origin.child.value.parent, r.origin.admitted, id)};
    }
    if r.life.ended.Some? {
      rows := rows + {ByEnd(Everything, r.life.ended.value, id), ByEnd(OfName(name), r.life.ended.value, id)};
      if r.evidence {
        rows := rows + {FinishedAt(r.life.ended.value, id)};
      }
    } else {
      var live := LiveOnly(r);
      rows := rows + live;
    }
  }

  method LiveOnly(r: Run) returns (rows: set<Key>)
    requires Live(r)
    ensures forall k :: k in rows <==>
              (k.LiveName? || k.TriggerLive? || k.Due? || k.DueApp? || k.Children? || k.MailboxDue?) && Indexed(r, k)
  {
    var id := IdOf(r);
    rows := {LiveName(r.origin.admission.name, id)};
    if r.origin.trigger.Some? {
      rows := rows + {TriggerLive(r.origin.trigger.value, id)};
    }
    var due := DueAt(r.life);
    if due.Some? {
      rows := rows + {Due(due.value, id), DueApp(AppOf(r), due.value, id)};
    }
    if r.origin.child.Some? {
      rows := rows + {Children(r.origin.child.value.parent, id)};
    }
    if r.mail.mailbox.Some? {
      rows := rows + {MailboxDue(r.mail.mailbox.value, id)};
    }
  }

  method Indexes(r: Run) returns (m: Index)
    ensures IsIndexOf(m, r)
  {
    var life := LifeRows(r);
    var waits := WaitRows(r);
    var awaits := AwaitRows(r);
    var subscriptions := SubscriptionRows(r);
    var rows := life + waits + awaits + subscriptions;
    assert forall k :: k in rows <==> Indexed(r, k);
    m := map k | k in rows :: EntryOf(r, k);
  }

  // ── agreement ─────────────────────────────────────────────────────────────

  /** The index rows are exactly those of the run rows. */
  ghost predicate IndexOk(index: Index, runs: Rows) {
    forall k :: (k in index <==> k.run in runs && Indexed(runs[k.run], k)) &&
                (k in index ==> index[k] == EntryOf(runs[k.run], k))
  }

  /** The rows to put and to delete between two row sets. */
  function Changes(before: Index, after: Index): map<Key, Option<Entry>> {
    (map k | k in after && !(k in before && before[k] == after[k]) :: Some(after[k])) +
    (map k | k in before && k !in after :: None)
  }

  function Changed(index: Index, k: Key, change: Option<Entry>): Index {
    if change.Some? then index[k := change.value] else index - {k}
  }

  /** What an index holds once the changes of one run, but `rest`, are applied. */
  ghost predicate Moved(old_: Index, changes: map<Key, Option<Entry>>, rest: set<Key>, new_: Index) {
    forall k :: if k in changes && k !in rest then (k in new_ <==> changes[k].Some?) && (k in new_ ==> new_[k] == changes[k].value)
                else (k in new_ <==> k in old_) && (k in new_ ==> new_[k] == old_[k])
  }

  /** Replacing a run's rows keeps the agreement, provided the rows it is taken to have
      are the ones it has. */
  lemma MovedAgrees(old_: Index, runs: Rows, s: Run, before: Index, after: Index, new_: Index)
    requires IndexOk(old_, runs) && IsIndexOf(after, s)
    requires if IdOf(s) in runs then IsIndexOf(before, runs[IdOf(s)]) && IdOf(runs[IdOf(s)]) == IdOf(s) else before == map[]
    requires Moved(old_, Changes(before, after), {}, new_)
    ensures IndexOk(new_, runs[IdOf(s) := s])
  {
    var changes, x, next := Changes(before, after), IdOf(s), runs[IdOf(s) := s];
    forall k ensures (k in new_ <==> k.run in next && Indexed(next[k.run], k)) && (k in new_ ==> new_[k] == EntryOf(next[k.run], k)) {
      if k.run == x {
        assert k in before <==> k in old_;
        assert k in after <==> Indexed(s, k);
      } else {
        assert k !in before && k !in after;
      }
    }
  }

  /** The rows determine the index. */
  lemma IndexUnique(a: Index, b: Index, runs: Rows)
    requires IndexOk(a, runs) && IndexOk(b, runs)
    ensures a == b
  {
    assert forall k :: k in a <==> k in b;
  }

  // ── the due range ─────────────────────────────────────────────────────────

  /** A run is in the due index up to `now` exactly when it can be claimed at `now`, and
      it is there once. */
  lemma DueMeansClaimable(index: Index, runs: Rows, x: Id, now: int)
    requires IndexOk(index, runs) && RowsOk(runs)
    ensures (exists at :: at <= now && Due(at, x) in index) <==> (x in runs && Claimable(runs[x].life, now))
    ensures forall at, at2 :: Due(at, x) in index && Due(at2, x) in index ==> at == at2
  {
    forall at: int ensures Due(at, x) in index <==> x in runs && Live(runs[x]) && DueAt(runs[x].life) == Some(at) {
      var k := Due(at, x);
      if x in runs {
        assert RowOk(x, runs[x]);
      }
      assert k in index <==> k.run in runs && Indexed(runs[k.run], k);
    }
    if x in runs && Claimable(runs[x].life, now) {
      assert RowOk(x, runs[x]);
      assert Due(DueAt(runs[x].life).value, x) in index;
    }
    if x in runs {
      assert RowOk(x, runs[x]);
    }
  }

  /** The index of an application version holds its due runs; undeclared ones are under
      the empty version. */
  lemma DueByApplication(index: Index, runs: Rows, x: Id, app: string, at: int)
    requires IndexOk(index, runs) && RowsOk(runs)
    ensures DueApp(app, at, x) in index <==> Due(at, x) in index && app == AppOf(runs[x])
  {
    var k, d := DueApp(app, at, x), Due(at, x);
    if x in runs {
      assert RowOk(x, runs[x]);
    }
    assert d in index <==> d.run in runs && Indexed(runs[d.run], d);
    assert k in index <==> k.run in runs && Indexed(runs[k.run], k);
  }

  /** A claim keeps the instant the run became due and moves it to the new lease's end. */
  lemma ClaimMovesDue(r: Run, now: int, owner: string)
    requires Claimable(r.life, now)
    ensures var c := Claimed(r, now, owner).life;
            DueAt(r.life) == Some(c.wake) && c.wake <= now && DueAt(c) == Some(Later(now, LEASE_MS))
  {
  }

  /** Live children are found through the children index. */
  lemma ChildrenIndexed(index: Index, runs: Rows, p: Id, x: Id)
    requires IndexOk(index, runs) && (x in runs ==> IdOf(runs[x]) == x)
    ensures Children(p, x) in index <==> x in runs && Live(runs[x]) && ParentOf(runs[x]) == Some(p)
  {
    var k := Children(p, x);
    assert k in index <==> k.run in runs && Indexed(runs[k.run], k);
  }

  /** Releasing what a hold of an unheld subtree froze restores the index too. */
  lemma HoldThenReleaseIndex(before: Index, after: Index, runs: Rows, id: Id, hold: Hold)
    requires Forest(runs) && IndexOk(before, runs)
    requires forall x :: x in runs && Live(runs[x]) && Under(runs, x, id) ==> runs[x].life.held.None?
    requires IndexOk(after, HoldTree(HoldTree(runs, id, Some(hold)), id, None))
    ensures after == before
  {
    HoldThenRelease(runs, id, hold);
    IndexUnique(before, after, runs);
  }

  /** An untargeted delivery finds a run under a type it awaits and has no unread copy of,
      unless the run is held, or the type is the waiting notice of a child it only joins. */
  lemma AwaitingMeans(r: Run, t: string, at: int)
    ensures Indexed(r, Awaiting(t, at, IdOf(r))) <==>
            && r.life.ended.None? && r.life.held.None? && t in r.mail.awaits && r.mail.awaits[t] == at && t !in r.mail.pending
            && (t in r.mail.addressed || forall child: string :: t == "waiting:" + child ==> "child:" + child !in r.mail.listeners)
  {
    assert |"waiting:"| == 8;
    if "waiting:" <= t {
      assert t == "waiting:" + t[8..];
    }
    forall child: string | t == "waiting:" + child ensures "waiting:" <= t && t[8..] == child {
    }
  }

  /** A held run is due in no index, and a run with a mailbox expiry, an end or a live
      subscription is under just that. */
  lemma HeldIndexed(r: Run, at: int, app: string, t: string)
    ensures Indexed(r, Due(at, IdOf(r))) <==>
            r.life.ended.None? && r.life.held.None? && Some(at) == if r.life.state.Running? then r.life.lease else Some(r.life.wake)
    ensures Indexed(r, DueApp(app, at, IdOf(r))) <==>
            Indexed(r, Due(at, IdOf(r))) && app == if r.origin.admission.application.Some? then r.origin.admission.application.value else ""
    ensures Indexed(r, MailboxDue(at, IdOf(r))) <==> r.life.ended.None? && r.mail.mailbox == Some(at)
    ensures Indexed(r, FinishedAt(at, IdOf(r))) <==> r.life.ended == Some(at) && r.evidence
    ensures Indexed(r, Subscribed(t, IdOf(r))) <==> r.life.ended.None? && exists k :: k in r.mail.subscriptions && t in r.mail.subscriptions[k]
  {
  }
}

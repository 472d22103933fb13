/**
 The mailbox operations as the store performs them, on the rows of one run: counters
 and bounded index scans instead of reading the copies.
 */
module MailboxStore {
  import opened Options
  import opened Mailbox
  import opened MailboxProofs
  import Order

  // ── what the counters and bounded scans answer ────────────────────────────

  ghost predicate NoticePending(copies: Copies, t: string) {
    exists n :: n in copies && IsNotice(copies[n]) && copies[n].type_ == t
  }

  ghost predicate CloudLive(copies: Copies, t: string, now: int) {
    exists n :: n in copies && IsPending(copies[n]) && copies[n].type_ == t && copies[n].envelope.Some? && !IsExpired(copies[n], now)
  }

  ghost predicate PublishedLive(copies: Copies, now: int) {
    exists n :: n in copies && IsPending(copies[n]) && IsPublished(copies[n]) && !IsExpired(copies[n], now)
  }

  /** The wake test type by type, over awaited and subscribed types only. */
  ghost predicate WantedByType(row: Row, copies: Copies, now: int) {
    || (exists t :: t in row.awaits && AwaitedHit(row, copies, t, now))
    || (exists k, t :: k in row.subscriptions && t in row.subscriptions[k] && SubscriptionHit(copies, t, now))
  }

  ghost predicate AwaitedHit(row: Row, copies: Copies, t: string, now: int) {
    (NoticePending(copies, t) && Wakes(row, t, false)) || CloudLive(copies, t, now)
  }

  ghost predicate SubscriptionHit(copies: Copies, t: string, now: int) {
    (t == "*" && PublishedLive(copies, now)) || CloudLive(copies, t, now)
  }

  /** Looking only at awaited and subscribed types misses no wanted copy: addressed
      waits are awaited, and so is a listened-for type with a pending notice. */
  lemma WantedHasType(row: Row, copies: Copies, now: int)
    requires ListensOk(row, copies) && HasWanted(row, copies, now)
    ensures WantedByType(row, copies, now)
  {
    var n :| n in copies && Wanted(row, copies[n], now);
    var e := copies[n];
    if Wakes(row, e.type_, e.envelope.Some?) {
      if e.envelope.None? {
        assert IsNotice(e) && NoticePending(copies, e.type_);
      } else {
        assert CloudLive(copies, e.type_, now);
      }
      assert e.type_ in row.awaits;
    } else {
      var k :| k in row.subscriptions && (e.type_ in row.subscriptions[k] || (IsPublished(e) && "*" in row.subscriptions[k]));
      if e.type_ in row.subscriptions[k] {
        assert CloudLive(copies, e.type_, now) && SubscriptionHit(copies, e.type_, now);
      } else {
        assert PublishedLive(copies, now) && SubscriptionHit(copies, "*", now);
      }
    }
  }

  lemma AwaitHitIsWanted(row: Row, copies: Copies, t: string, now: int)
    requires NoticesOk(copies) && t in row.awaits && AwaitedHit(row, copies, t, now)
    ensures HasWanted(row, copies, now)
  {
    if CloudLive(copies, t, now) {
      var n :| n in copies && IsPending(copies[n]) && copies[n].type_ == t && copies[n].envelope.Some? && !IsExpired(copies[n], now);
      assert Wanted(row, copies[n], now);
    } else {
      var n :| n in copies && IsNotice(copies[n]) && copies[n].type_ == t;
      assert Wanted(row, copies[n], now);
    }
  }

  lemma SubscriptionHitIsWanted(row: Row, copies: Copies, k: string, t: string, now: int)
    requires k in row.subscriptions && t in row.subscriptions[k] && SubscriptionHit(copies, t, now)
    ensures HasWanted(row, copies, now)
  {
    if CloudLive(copies, t, now) {
      var n :| n in copies && IsPending(copies[n]) && copies[n].type_ == t && copies[n].envelope.Some? && !IsExpired(copies[n], now);
      assert Subscribed(row, copies[n]) && Wanted(row, copies[n], now);
    } else {
      var n :| n in copies && IsPending(copies[n]) && IsPublished(copies[n]) && !IsExpired(copies[n], now);
      assert Subscribed(row, copies[n]) && Wanted(row, copies[n], now);
    }
  }

  lemma CountersTell(pending: map<string, Count>, copies: Copies, t: string)
    requires CountOk(pending, copies, t)
    ensures (t in pending && pending[t].copies > pending[t].cloud) <==> NoticePending(copies, t)
    ensures (t in pending && pending[t].cloud > 0) <==> CloudOf(copies, t) != {}
  {
    var p, c := PendingOf(copies, t), CloudOf(copies, t);
    assert c <= p;
    assert |p| == |c| + |p - c|;
    if NoticePending(copies, t) {
      var n :| n in copies && IsNotice(copies[n]) && copies[n].type_ == t;
      assert n in p - c;
    }
    if p - c != {} {
      var n :| n in p - c;
      assert n in copies && IsNotice(copies[n]) && copies[n].type_ == t;
    }
    assert c != {} ==> p != {};
  }

  /** While no mailbox copy has expired, no pending copy has. */
  lemma FreshMeansLive(mailbox: Option<int>, copies: Copies, now: int)
    requires MailboxOk(mailbox, copies) && (mailbox.None? || mailbox.value > now)
    ensures forall t :: CloudLive(copies, t, now) <==> CloudOf(copies, t) != {}
    ensures PublishedLive(copies, now) <==> PublishedSet(copies) != {}
  {
    forall t: string ensures CloudLive(copies, t, now) <==> CloudOf(copies, t) != {} {
      if n :| n in CloudOf(copies, t) {
        assert IsPending(copies[n]) && !IsExpired(copies[n], now);
      }
      if CloudLive(copies, t, now) {
        var n :| n in copies && IsPending(copies[n]) && copies[n].type_ == t && copies[n].envelope.Some? && !IsExpired(copies[n], now);
        assert n in CloudOf(copies, t);
      }
    }
    if n :| n in PublishedSet(copies) {
      assert IsPending(copies[n]) && !IsExpired(copies[n], now);
    }
    if PublishedLive(copies, now) {
      var n :| n in copies && IsPending(copies[n]) && IsPublished(copies[n]) && !IsExpired(copies[n], now);
      assert n in PublishedSet(copies);
    }
  }

  /** The rows of a type's live index from the first instant after `now`: those the scan
      of `Keys.LiveScan` reads. */
  function LiveRows(index: set<IndexRow>, t: string, now: int): set<IndexRow> {
    set r | r in index && r.Live? && r.type_ == t && (r.expires.None? || r.expires.value > now)
  }

  function LivePublishedRows(index: set<IndexRow>, now: int): set<IndexRow> {
    set r | r in index && r.LivePublished? && (r.expires.None? || r.expires.value > now)
  }

  /** At most `limit` of the rows: which of them does not matter here. */
  ghost predicate IsLimited(part: set<IndexRow>, rows: set<IndexRow>, limit: nat) {
    part <= rows && |part| == if |rows| < limit then |rows| else limit
  }

  method Limited(rows: set<IndexRow>, limit: nat) returns (part: set<IndexRow>)
    ensures IsLimited(part, rows, limit)
  {
    part := {};
    var rest := rows;
    while |part| < limit && rest != {}
      invariant part !! rest && part + rest == rows && |part| <= limit
      decreases rest
    {
      var r :| r in rest;
      part, rest := part + {r}, rest - {r};
    }
    assert rest == {} ==> part == rows;
    assert |rows| == |part| + |rest|;
  }

  lemma LiveRow(index: set<IndexRow>, copies: Copies, r: IndexRow)
    requires IndexOk(index, copies) && r.Live?
    ensures r in index <==> r.n in copies && IsPending(copies[r.n]) &&
                            r.type_ == copies[r.n].type_ && r.expires == copies[r.n].expires && r.cloud == copies[r.n].envelope.Some?
  {
    assert r in index <==> r.n in copies && IsPending(copies[r.n]) && Describes(r, copies[r.n]);
  }

  /** Two live rows of a type include an event's if there is one: at most one of them
      is a lifecycle notice. */
  lemma TwoRowsTell(index: set<IndexRow>, copies: Copies, t: string, now: int, two: set<IndexRow>)
    requires IndexOk(index, copies) && NoticesOk(copies) && IsLimited(two, LiveRows(index, t, now), 2)
    ensures (exists r :: r in two && r.Live? && r.cloud) <==> CloudLive(copies, t, now)
  {
    var rows := LiveRows(index, t, now);
    if r :| r in two && r.Live? && r.cloud {
      LiveRow(index, copies, r);
      assert r.n in copies && !IsExpired(copies[r.n], now);
    }
    if CloudLive(copies, t, now) {
      var n :| n in copies && IsPending(copies[n]) && copies[n].type_ == t && copies[n].envelope.Some? && !IsExpired(copies[n], now);
      var r := Live(t, copies[n].expires, n, true);
      LiveRow(index, copies, r);
      assert r in rows;
      if |rows| < 2 {
        Order.SubsetOfSameSize(two, rows);
      } else {
        TwoOf(two);
        var a, b :| a in two && b in two && a != b;
        LiveRow(index, copies, a);
        LiveRow(index, copies, b);
        assert a.cloud || b.cloud;
      }
    }
  }

  lemma TwoOf<T>(s: set<T>)
    requires |s| == 2
    ensures exists a, b :: a in s && b in s && a != b
  {
    var a :| a in s;
    assert |s - {a}| == 1;
    var b :| b in s - {a};
  }

  lemma OneRowTells(index: set<IndexRow>, copies: Copies, now: int, one: set<IndexRow>)
    requires IndexOk(index, copies) && IsLimited(one, LivePublishedRows(index, now), 1)
    ensures one != {} <==> PublishedLive(copies, now)
  {
    if r :| r in one {
      assert r in index <==> r.n in copies && IsPending(copies[r.n]) && Describes(r, copies[r.n]);
      assert r.n in copies && !IsExpired(copies[r.n], now);
    }
    if PublishedLive(copies, now) {
      var n :| n in copies && IsPending(copies[n]) && IsPublished(copies[n]) && !IsExpired(copies[n], now);
      var r := LivePublished(copies[n].expires, n);
      assert r in index <==> r.n in copies && IsPending(copies[r.n]) && Describes(r, copies[r.n]);
      assert r in LivePublishedRows(index, now);
    }
  }

  // ── the store ─────────────────────────────────────────────────────────────

  class RunMailbox {
    var row: Row
    var copies: map<nat, Copy>
    var ids: map<string, nat>
    var types: map<string, nat>
    var index: set<IndexRow>
    var records: map<RecordKey, Record>

    ghost function State(): Box
      reads this
    {
      Box(row, copies, ids, types, index, records)
    }

    constructor (now: int)
      ensures State() == Fresh(now)
    {
      row := Fresh(now).row;
      copies, ids, types, index, records := map[], map[], map[], {}, map[];
    }

    method Store(e: Copy)
      modifies this
      ensures State() == Push(old(State()), e)
    {
      var n := row.accepted;
      Identify(n, e);
      copies := copies[n := e];
      index := index + PendingRows(n, e);
      Count(e);
    }

    method Identify(n: nat, e: Copy)
      modifies this`ids, this`types
      ensures ids == if Identity(e).Some? then old(ids)[Identity(e).value := n] else old(ids)
      ensures types == if e.type_ in old(types) then old(types) else old(types)[e.type_ := n]
    {
      if Identity(e).Some? {
        ids := ids[Identity(e).value := n];
      }
      if e.type_ !in types {
        types := types[e.type_ := n];
      }
    }

    method Count(e: Copy)
      modifies this`row
      ensures State() == old(State()).(row := Push(old(State()), e).row)
    {
      var held, mailbox := row.published, row.mailbox;
      if IsPublished(e) {
        held := held + 1;
      }
      if e.expires.Some? {
        mailbox := Some(MinOption(mailbox, e.expires.value));
      }
      row := row.(accepted := row.accepted + 1, pending := CountUp(row.pending, e), published := held, mailbox := mailbox, evidence := true);
    }

    method Use(n: nat, k: RecordKey)
      requires n in copies
      modifies this`row, this`copies, this`index
      ensures State() == Consume(old(State()), n, k)
    {
      var e := copies[n];
      index := index - PendingRows(n, e);
      row := row.(pending := CountDown(row.pending, e));
      if IsPublished(e) {
        row := row.(published := Less1(row.published));
      }
      copies := copies[n := e.(consumed := Some(k))];
    }

    method RefreshMailbox()
      modifies this`row
      ensures State() == Refresh(old(State()))
    {
      var rows := ExpiryRows(index);
      row := row.(mailbox := if rows == {} then None else Some(Earliest(rows).at));
    }

    method ExpireCopies(now: int)
      modifies this
      ensures State() == Expire(old(State()), now)
    {
      if row.mailbox.None? || row.mailbox.value > now {
        return;
      }
      var due := DueRows(index, now);
      ghost var all := ExpireAll(State(), DueOrder(due));
      while due != {}
        invariant forall r :: r in due ==> r.Expiring?
        invariant ExpireAll(State(), DueOrder(due)) == all
        decreases |due|
      {
        var r := Earliest(due);
        var n := r.n;
        if n in copies {
          records := records[RecordKey.Expiry(n) := Expired(TakenOf(copies[n]))];
          Use(n, RecordKey.Expiry(n));
        }
        assert |due - {r}| < |due|;
        due := due - {r};
      }
      RefreshMailbox();
    }

    /** The fast wake test: counters, the earliest expiry and scans of at most two rows
        answer whether some stored copy is wanted. */
    method PendingWanted(now: int) returns (wanted: bool)
      requires Valid(State())
      ensures wanted <==> HasWanted(row, copies, now)
    {
      wanted := AwaitsHit(now);
      if !wanted {
        wanted := SubscriptionsHit(now);
      }
      if HasWanted(row, copies, now) {
        WantedHasType(row, copies, now);
      }
    }

    method AwaitsHit(now: int) returns (hit: bool)
      requires Valid(State())
      ensures hit ==> HasWanted(row, copies, now)
      ensures !hit ==> forall t :: t in row.awaits ==> !AwaitedHit(row, copies, t, now)
    {
      var rest := row.awaits.Keys;
      hit := false;
      while rest != {} && !hit
        invariant rest <= row.awaits.Keys
        invariant hit ==> HasWanted(row, copies, now)
        invariant !hit ==> forall t :: t in row.awaits.Keys - rest ==> !AwaitedHit(row, copies, t, now)
        decreases |rest|
      {
        var t :| t in rest;
        hit := AwaitHit(t, now);
        if hit {
          AwaitHitIsWanted(row, copies, t, now);
        }
        rest := rest - {t};
      }
    }

    method SubscriptionsHit(now: int) returns (hit: bool)
      requires Valid(State())
      ensures hit ==> HasWanted(row, copies, now)
      ensures !hit ==> forall k, t :: k in row.subscriptions && t in row.subscriptions[k] ==> !SubscriptionHit(copies, t, now)
    {
      var rest := row.subscriptions.Keys;
      hit := false;
      while rest != {} && !hit
        invariant rest <= row.subscriptions.Keys
        invariant hit ==> HasWanted(row, copies, now)
        invariant !hit ==> forall k, t :: k in row.subscriptions.Keys - rest && t in row.subscriptions[k] ==> !SubscriptionHit(copies, t, now)
        decreases |rest|
      {
        var k :| k in rest;
        hit := AnyHit(row.subscriptions[k], now);
        if hit {
          ghost var t :| t in row.subscriptions[k] && SubscriptionHit(copies, t, now);
          SubscriptionHitIsWanted(row, copies, k, t, now);
        }
        rest := rest - {k};
      }
    }

    method AnyHit(types_: seq<string>, now: int) returns (hit: bool)
      requires Valid(State())
      ensures hit <==> exists t :: t in types_ && SubscriptionHit(copies, t, now)
    {
      for i := 0 to |types_|
        invariant forall j :: 0 <= j < i ==> !SubscriptionHit(copies, types_[j], now)
      {
        hit := TypeHit(types_[i], now);
        if hit {
          return;
        }
      }
      hit := false;
    }

    /** A live event of the type. The counter decides while nothing is past its time;
        otherwise two index rows that outlast `now` do. */
    method LiveEvent(t: string, now: int) returns (live: bool)
      requires Valid(State())
      ensures live <==> CloudLive(copies, t, now)
    {
      assert CountOk(row.pending, copies, t);
      CountersTell(row.pending, copies, t);
      if t !in row.pending || row.pending[t].cloud == 0 {
        NoCloud(copies, t, now);
        return false;
      }
      if row.mailbox.None? || row.mailbox.value > now {
        FreshMeansLive(row.mailbox, copies, now);
        return true;
      }
      var two := Limited(LiveRows(index, t, now), 2);
      TwoRowsTell(index, copies, t, now, two);
      live := exists r | r in two :: r.Live? && r.cloud;
    }

    method AwaitHit(t: string, now: int) returns (hit: bool)
      requires Valid(State()) && t in row.awaits
      ensures hit <==> AwaitedHit(row, copies, t, now)
    {
      assert CountOk(row.pending, copies, t);
      CountersTell(row.pending, copies, t);
      if t in row.pending && row.pending[t].copies > row.pending[t].cloud && Wakes(row, t, false) {
        return true;
      }
      hit := LiveEvent(t, now);
    }

    method TypeHit(t: string, now: int) returns (hit: bool)
      requires Valid(State())
      ensures hit <==> SubscriptionHit(copies, t, now)
    {
      if t == "*" && row.published > 0 {
        var fresh_ := row.mailbox.None? || row.mailbox.value > now;
        var one := Limited(LivePublishedRows(index, now), 1);
        OneRowTells(index, copies, now, one);
        if fresh_ {
          FreshMeansLive(row.mailbox, copies, now);
        }
        if fresh_ || one != {} {
          return true;
        }
      } else if t == "*" {
        NonePublished(copies, now);
      }
      hit := LiveEvent(t, now);
    }

    method AcceptEvent(e: Copy, now: int) returns (outcome: Accepted)
      modifies this
      ensures outcome == Accept(old(State()), e, now)
      ensures State() == AcceptInto(old(State()), e, now)
    {
      var id := Identity(e);
      ghost var before := State();
      if id.Some? && id.value in ids && ids[id.value] in copies {
        var held := copies[ids[id.value]].envelope;
        return if held.Some? && held.value.payload == e.envelope.value.payload then Repeated else Conflicting;
      }
      if Wanted(row, e, now) && now < row.wake {
        row := row.(wake := now);
      }
      Store(e);
      outcome := Stored(Box(row, copies, ids, types, index, records));
    }

    method NotifyParent(t: string, data: string, now: int)
      modifies this
      ensures State() == Notify(old(State()), t, data, now)
    {
      if row.state.Ended? || t !in row.awaits || t in row.pending {
        return;
      }
      if Wakes(row, t, false) {
        row := row.(wake := now);
      }
      Store(NoticeCopy(t, data, now));
    }

    /** The least sequence number in one indexed row per listed type. */
    method FirstCandidate(listed: seq<string>) returns (found: Option<nat>)
      ensures found.None? <==> Candidates(index, listed) == {}
      ensures found.Some? ==> IsLeast(found.value, Candidates(index, listed))
    {
      found := None;
      ghost var seen: set<nat> := {};
      for i := 0 to |listed|
        invariant forall n :: n in seen <==> exists r :: r in index && r.ByType? && r.type_ in listed[..i] && r.n == n
        invariant if found.None? then seen == {} else IsLeast(found.value, seen)
      {
        var rows := set r | r in index && r.ByType? && r.type_ == listed[i] :: r.n;
        assert listed[..i + 1] == listed[..i] + [listed[i]];
        found := Merge(found, seen, rows);
        seen := seen + rows;
      }
      assert listed[..|listed|] == listed;
      if "*" in listed {
        var rows := set r | r in index && r.ByPublished? :: r.n;
        found := Merge(found, seen, rows);
        seen := seen + rows;
      }
      assert seen == Candidates(index, listed);
    }

    method TakeNext(k: string, listed: seq<string>, now: int) returns (take: Take)
      modifies this
      ensures (State(), take) == TakeEvent(old(State()), k, listed, now)
    {
      if Caller(k) in records {
        return if records[Caller(k)].Event? then Took(records[Caller(k)].event) else Invalid;
      }
      ExpireCopies(now);
      ghost var b1 := State();
      var found := FirstCandidate(listed);
      if found.Some? && found.value in copies {
        var n := found.value;
        var e := copies[n];
        row := row.(listeners := DropChild(row.listeners, e.type_));
        Use(n, Caller(k));
        if e.expires.Some? {
          RefreshMailbox();
        }
        row := Close(row.(listeners := row.listeners - {k}), listed);
        records := records[Caller(k) := Event(TakenOf(e))];
        assert n == Least(Candidates(b1.index, listed));
        take := Took(TakenOf(e));
      } else {
        row := row.(listeners := row.listeners[k := listed]);
        take := Nothing;
      }
    }

    method ReleaseAsWaiting(wakeAt: int, now: int)
      requires Valid(State())
      modifies this`row
      ensures State() == FinishWaiting(old(State()), wakeAt, now)
    {
      ghost var before := State();
      var wanted := PendingWanted(now);
      assert HasWanted(row, copies, now) <==> HasWanted(row.(state := Waiting), copies, now) by {
        SameWanted(row, row.(state := Waiting), copies, now);
      }
      row := row.(state := Waiting, wake := if wanted then now else wakeAt);
    }
  }

  lemma SameWanted(a: Row, b: Row, copies: Copies, now: int)
    requires b == a.(state := b.state)
    ensures HasWanted(a, copies, now) <==> HasWanted(b, copies, now)
  {
    forall n | n in copies ensures Wanted(a, copies[n], now) <==> Wanted(b, copies[n], now) {
      assert Listens(a, copies[n].type_) <==> Listens(b, copies[n].type_);
      assert Subscribed(a, copies[n]) <==> Subscribed(b, copies[n]);
    }
  }

  lemma NoCloud(copies: Copies, t: string, now: int)
    requires CloudOf(copies, t) == {}
    ensures !CloudLive(copies, t, now)
  {
    assert forall n :: n in copies && IsPending(copies[n]) && copies[n].type_ == t && copies[n].envelope.Some? ==> n in CloudOf(copies, t);
  }

  lemma NonePublished(copies: Copies, now: int)
    requires |PublishedSet(copies)| == 0
    ensures !PublishedLive(copies, now)
  {
    assert forall n :: n in copies && IsPending(copies[n]) && IsPublished(copies[n]) ==> n in PublishedSet(copies);
  }

  /** The smaller of a candidate so far and the first row of another index range. */
  method Merge(found: Option<nat>, ghost seen: set<nat>, rows: set<nat>) returns (best: Option<nat>)
    requires if found.None? then seen == {} else IsLeast(found.value, seen)
    ensures if best.None? then seen + rows == {} else IsLeast(best.value, seen + rows)
  {
    if rows == {} {
      assert seen + rows == seen;
      return found;
    }
    var m := Least(rows);
    best := Some(if found.Some? && found.value < m then found.value else m);
  }
}

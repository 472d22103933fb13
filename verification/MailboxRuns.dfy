/**
 Whole histories of one run's mailbox: any sequence of deliveries, publications,
 child notices, waits, takes, sweeps and releases under a clock that never goes back.
 */
module MailboxRuns {
  import opened Options
  import opened Mailbox
  import opened MailboxProofs

  // ── steps that only change the run row ────────────────────────────────────

  lemma RowChange(b: Box, after: Box)
    requires Valid(b) && after == b.(row := after.row)
    requires after.row.pending == b.row.pending && after.row.published == b.row.published
    requires after.row.evidence == b.row.evidence && after.row.accepted == b.row.accepted && after.row.mailbox == b.row.mailbox
    requires b.row.state.Ended? ==> after.row.state.Ended?
    requires ListensOk(after.row, b.copies)
    ensures Valid(after)
  {
    RepAgain(b, after);
  }

  /** What the wake rules read of a row. */
  ghost predicate SameWants(a: Row, b: Row) {
    a.awaits == b.awaits && a.listeners == b.listeners && a.subscriptions == b.subscriptions && a.addressed == b.addressed
  }

  lemma WantedAlike(a: Row, b: Row, e: Copy, now: int)
    requires SameWants(a, b)
    ensures Wanted(a, e, now) <==> Wanted(b, e, now)
  {
    assert Listens(a, e.type_) <==> Listens(b, e.type_);
    assert Subscribed(a, e) <==> Subscribed(b, e);
  }

  /** A copy wanted later is wanted now. */
  lemma WantedEarlier(row: Row, e: Copy, then_: int, now: int)
    requires then_ <= now && Wanted(row, e, now)
    ensures Wanted(row, e, then_)
  {
  }

  lemma WakeStays(b: Box, then_: int, now: int)
    requires NoLostWake(b, then_) && then_ <= now
    ensures NoLostWake(b, now)
  {
    if b.row.state.Waiting? && HasWanted(b.row, b.copies, now) {
      var n :| n in b.copies && Wanted(b.row, b.copies[n], now);
      WantedEarlier(b.row, b.copies[n], then_, now);
    }
  }

  /** Fewer wants, fewer pending copies and no later wake-up keep a run due. */
  lemma WakeShrinks(b: Box, after: Box, now: int)
    requires NoLostWake(b, now) && after.row.wake == b.row.wake && (after.row.state.Waiting? ==> b.row.state.Waiting?)
    requires forall n :: n in after.copies && Wanted(after.row, after.copies[n], now) ==> n in b.copies && Wanted(b.row, b.copies[n], now)
    ensures NoLostWake(after, now)
  {
  }

  // ── accepting ─────────────────────────────────────────────────────────────

  lemma WokenValid(b: Box, wake: int)
    requires Valid(b)
    ensures Valid(b.(row := b.row.(wake := wake)))
  {
    RowChange(b, b.(row := b.row.(wake := wake)));
  }

  ghost predicate Acceptable(b: Box, e: Copy) {
    IsPending(e) && e.envelope.Some? && (b.row.state.Ended? ==> Identity(e).Some? && Identity(e).value in b.ids)
  }

  lemma AcceptCases(b: Box, e: Copy, now: int)
    requires IdsOk(b.ids, b.copies)
    ensures if Identity(e).Some? && Identity(e).value in b.ids then AcceptInto(b, e, now) == b
            else AcceptInto(b, e, now) == Push(Woken(b, e, now), e)
  {
    if Identity(e).Some? && Identity(e).value in b.ids {
      assert b.ids[Identity(e).value] in b.copies;
    }
  }

  lemma AcceptKeeps(b: Box, e: Copy, now: int)
    requires Valid(b) && Acceptable(b, e)
    ensures Valid(AcceptInto(b, e, now))
  {
    AcceptCases(b, e, now);
    if !(Identity(e).Some? && Identity(e).value in b.ids) {
      WokenStorable(b, e, now, Woken(b, e, now));
      PushKeeps(Woken(b, e, now), e);
    }
  }

  lemma WokenStorable(b: Box, e: Copy, now: int, woken: Box)
    requires Valid(b) && Acceptable(b, e) && !(Identity(e).Some? && Identity(e).value in b.ids) && woken == Woken(b, e, now)
    ensures Valid(woken) && Storable(woken, e)
  {
    WokenValid(b, now);
  }

  /** A new copy the run wants makes it due; otherwise nothing changes for it. */
  lemma PushWakes(b: Box, e: Copy, wake: int, now: int)
    requires NoLostWake(b, now) && b.row.accepted !in b.copies
    requires wake <= b.row.wake || wake <= now
    requires Wanted(b.row, e, now) ==> wake <= now
    ensures NoLostWake(Push(b.(row := b.row.(wake := wake)), e), now)
  {
    var after := Push(b.(row := b.row.(wake := wake)), e);
    if after.row.state.Waiting? && HasWanted(after.row, after.copies, now) {
      var n :| n in after.copies && Wanted(after.row, after.copies[n], now);
      WantedAlike(after.row, b.row, after.copies[n], now);
      if n != b.row.accepted {
        assert n in b.copies && Wanted(b.row, b.copies[n], now);
      }
    }
  }

  lemma WokenPushWakes(b: Box, e: Copy, now: int)
    requires NoLostWake(b, now) && b.row.accepted !in b.copies
    ensures NoLostWake(Push(Woken(b, e, now), e), now)
  {
    var wake := if Wanted(b.row, e, now) && now < b.row.wake then now else b.row.wake;
    PushWakes(b, e, wake, now);
    assert b.(row := b.row.(wake := wake)) == Woken(b, e, now);
  }

  lemma AcceptWakes(b: Box, e: Copy, now: int)
    requires Valid(b) && NoLostWake(b, now) && Acceptable(b, e)
    ensures NoLostWake(AcceptInto(b, e, now), now)
  {
    AcceptCases(b, e, now);
    WokenPushWakes(b, e, now);
  }

  lemma NotifyKeeps(b: Box, t: string, data: string, now: int)
    requires Valid(b)
    ensures Valid(Notify(b, t, data, now))
  {
    if !b.row.state.Ended? && t in b.row.awaits && t !in b.row.pending {
      var woken := if Wakes(b.row, t, false) then b.(row := b.row.(wake := now)) else b;
      WokenValid(b, now);
      PushKeeps(woken, NoticeCopy(t, data, now));
    }
  }

  lemma NotifyWakes(b: Box, t: string, data: string, now: int)
    requires KeysOk(b.row, b.copies) && NoLostWake(b, now)
    ensures NoLostWake(Notify(b, t, data, now), now)
  {
    if !b.row.state.Ended? && t in b.row.awaits && t !in b.row.pending {
      var e := NoticeCopy(t, data, now);
      PushKeys(b.row, b.copies, e, Push(b, e).row);
      var wake := if Wakes(b.row, t, false) then now else b.row.wake;
      PushWakes(b, e, wake, now);
      assert b.row.(wake := b.row.wake) == b.row && b.(row := b.row) == b;
    }
  }

  // ── waits and listens ─────────────────────────────────────────────────────

  lemma CloseListens(row: Row, types: seq<string>, copies: Copies)
    requires ListensOk(row, copies)
    ensures ListensOk(Close(row, types), copies)
  {
    var after := Close(row, types);
    forall n | n in copies && IsNotice(copies[n]) && Listens(after, copies[n].type_) ensures copies[n].type_ in after.awaits {
      var k :| k in row.listeners && !IsChild(k) && copies[n].type_ in row.listeners[k];
      assert Listens(row, copies[n].type_) && Named(row.listeners, copies[n].type_);
    }
  }

  lemma FewerListeners(row: Row, after: Row, copies: Copies)
    requires ListensOk(row, copies)
    requires after.awaits == row.awaits && after.addressed == row.addressed
    requires forall k :: k in after.listeners && !IsChild(k) ==> k in row.listeners && after.listeners[k] == row.listeners[k]
    ensures ListensOk(after, copies)
  {
    forall n | n in copies && IsNotice(copies[n]) && Listens(after, copies[n].type_) ensures Listens(row, copies[n].type_) {
      var k :| k in after.listeners && !IsChild(k) && copies[n].type_ in after.listeners[k];
      assert k in row.listeners && copies[n].type_ in row.listeners[k];
    }
  }

  lemma CloseWants(row: Row, types: seq<string>, e: Copy, now: int)
    requires Wanted(Close(row, types), e, now)
    ensures Wanted(row, e, now)
  {
  }

  lemma UnregisterKeeps(b: Box, k: string, types: seq<string>, after: Box)
    requires Valid(b) && after == UnregisterWait(b, k, types)
    ensures Valid(after)
  {
    var fewer := b.row.(listeners := b.row.listeners - {k});
    FewerListeners(b.row, fewer, b.copies);
    CloseListens(fewer, types, b.copies);
    RowChange(b, after);
  }

  lemma MoreAwaits(row: Row, after: Row, copies: Copies)
    requires ListensOk(row, copies) && row.awaits.Keys <= after.awaits.Keys && after.addressed <= after.awaits.Keys
    requires forall k :: k in after.listeners && !IsChild(k) ==> k in row.listeners && after.listeners[k] == row.listeners[k]
    ensures ListensOk(after, copies)
  {
    forall n | n in copies && IsNotice(copies[n]) && Listens(after, copies[n].type_) ensures Listens(row, copies[n].type_) {
      var k :| k in after.listeners && !IsChild(k) && copies[n].type_ in after.listeners[k];
      assert k in row.listeners && copies[n].type_ in row.listeners[k];
    }
  }

  // ── takes ─────────────────────────────────────────────────────────────────

  /** A pending copy that a listen for `types` may take: of a listed type, or for `*`
      a published one. */
  ghost predicate Matches(e: Copy, types: seq<string>) {
    IsPending(e) && (e.type_ in types || ("*" in types && IsPublished(e)))
  }

  ghost function Matching(copies: Copies, types: seq<string>): set<nat> {
    set n | n in copies && Matches(copies[n], types)
  }

  lemma CandidatesMatch(index: set<IndexRow>, copies: Copies, types: seq<string>)
    requires IndexOk(index, copies)
    ensures Candidates(index, types) == Matching(copies, types)
  {
    forall n ensures n in Candidates(index, types) <==> n in Matching(copies, types) {
      CandidateMatches(index, copies, types, n);
    }
  }

  lemma CandidateMatches(index: set<IndexRow>, copies: Copies, types: seq<string>, n: nat)
    requires IndexOk(index, copies)
    ensures n in Candidates(index, types) <==> n in Matching(copies, types)
  {
    if n in copies {
      var a, b := ByType(copies[n].type_, n), ByPublished(n);
      assert a in index <==> a.n in copies && IsPending(copies[a.n]) && Describes(a, copies[a.n]);
      assert b in index <==> b.n in copies && IsPending(copies[b.n]) && Describes(b, copies[b.n]);
    }
    if r :| r in index && r.ByType? && r.type_ in types && r.n == n {
      assert r.n in copies && IsPending(copies[r.n]) && Describes(r, copies[r.n]);
    }
    if r :| r in index && r.ByPublished? && r.n == n {
      assert r.n in copies && IsPending(copies[r.n]) && Describes(r, copies[r.n]);
    }
  }

  /** Registering a listen that found nothing: no pending notice has a listed type. */
  lemma ListenKeeps(b: Box, k: string, types: seq<string>)
    requires Valid(b) && Matching(b.copies, types) == {}
    ensures Valid(b.(row := b.row.(listeners := b.row.listeners[k := types])))
  {
    var after := b.(row := b.row.(listeners := b.row.listeners[k := types]));
    forall n | n in b.copies && IsNotice(b.copies[n]) && Listens(after.row, b.copies[n].type_) ensures Listens(b.row, b.copies[n].type_) {
      var q :| q in after.row.listeners && !IsChild(q) && b.copies[n].type_ in after.row.listeners[q];
      assert n !in Matching(b.copies, types);
      assert q != k && q in b.row.listeners && b.row.listeners[q] == after.row.listeners[q];
    }
    RowChange(b, after);
  }

  /** What a take changes, part by part. */
  lemma TakeCopyParts(b: Box, n: nat, k: string, types: seq<string>, after: Box)
    requires n in b.copies && after == TakeCopy(b, n, k, types)
    ensures after.copies == Used(b.copies, n, Caller(k)) && after.ids == b.ids && after.types == b.types
    ensures after.index == b.index - PendingRows(n, b.copies[n])
    ensures after.records == b.records[Caller(k) := Event(TakenOf(b.copies[n]))]
    ensures after.row.pending == CountDown(b.row.pending, b.copies[n])
    ensures after.row.published == if IsPublished(b.copies[n]) then Less1(b.row.published) else b.row.published
    ensures after.row.evidence == b.row.evidence && after.row.accepted == b.row.accepted && after.row.state == b.row.state
  {
  }

  lemma TakeCopyKeeps(b: Box, n: nat, k: string, types: seq<string>, after: Box)
    requires Valid(b) && n in b.copies && IsPending(b.copies[n]) && Caller(k) !in b.records
    requires after == TakeCopy(b, n, k, types)
    ensures Valid(after)
  {
    TakeCopyParts(b, n, k, types, after);
    ConsumeKeeps(b, n, Caller(k), Event(TakenOf(b.copies[n])), after);
    TakenMailbox(b, n, k, types, after);
    TakenListens(b.row, b.copies, after.copies, n, k, types, after.row);
  }

  lemma TakenMailbox(b: Box, n: nat, k: string, types: seq<string>, after: Box)
    requires IndexOk(b.index, b.copies) && MailboxOk(b.row.mailbox, b.copies)
    requires n in b.copies && IsPending(b.copies[n]) && after == TakeCopy(b, n, k, types)
    ensures MailboxOk(after.row.mailbox, after.copies)
  {
    var e := b.copies[n];
    if e.expires.Some? {
      var dropped := b.(row := b.row.(listeners := DropChild(b.row.listeners, e.type_)));
      ConsumeIndex(b.index, b.copies, n, Caller(k));
      RefreshRight(Consume(dropped, n, Caller(k)));
    } else {
      ConsumeMailbox(b.row.mailbox, b.copies, n, Caller(k));
    }
  }

  lemma TakenListens(row: Row, copies: Copies, after: Copies, n: nat, k: string, types: seq<string>, now: Row)
    requires ListensOk(row, copies) && n in copies && after == Used(copies, n, Caller(k))
    requires now.awaits == Close(row.(listeners := DropChild(row.listeners, copies[n].type_) - {k}), types).awaits
    requires now.addressed == Close(row.(listeners := DropChild(row.listeners, copies[n].type_) - {k}), types).addressed
    requires now.listeners == DropChild(row.listeners, copies[n].type_) - {k}
    ensures ListensOk(now, after)
  {
    var fewer := row.(listeners := DropChild(row.listeners, copies[n].type_) - {k});
    ListensShrink(row, row, copies, after);
    FewerListeners(row, fewer, after);
    CloseListens(fewer, types, after);
    ListensShrink(Close(fewer, types), now, after, after);
  }

  lemma TakeOrListenKeeps(b: Box, k: string, types: seq<string>, after: Box)
    requires Valid(b) && Caller(k) !in b.records && after == TakeOrListen(b, k, types).0
    ensures Valid(after)
  {
    var found := Candidates(b.index, types);
    CandidatesMatch(b.index, b.copies, types);
    if found != {} {
      TakeCopyKeeps(b, Least(found), k, types, after);
    } else {
      ListenKeeps(b, k, types);
    }
  }

  lemma TakeKeeps(b: Box, k: string, types: seq<string>, now: int, after: Box)
    requires Valid(b) && after == TakeEvent(b, k, types, now).0
    ensures Valid(after)
  {
    if Caller(k) !in b.records {
      var b1 := Expire(b, now);
      ExpireKeeps(b, now);
      ExpireFrame(b, now);
      TakeOrListenKeeps(b1, k, types, after);
    }
  }

  /** The copies a listen for `types` may take at `now`. */
  ghost function Takeable(copies: Copies, types: seq<string>, now: int): set<nat> {
    set n | n in copies && Matches(copies[n], types) && !IsExpired(copies[n], now)
  }

  /** A take gives the earliest accepted copy that is pending, unexpired and listed (for
      `*`: published), consumes it under its key and records it there; every other copy
      but the expired ones stays as it was. */
  lemma TakeIsFirst(b: Box, k: string, types: seq<string>, now: int, after: Box, take: Take)
    requires Valid(b) && Caller(k) !in b.records && (after, take) == TakeEvent(b, k, types, now)
    requires Takeable(b.copies, types, now) != {}
    ensures var n := Least(Takeable(b.copies, types, now));
            && take.Took? && IsTaken(take.event, b.copies[n])
            && n in after.copies && after.copies[n].consumed == Some(Caller(k))
            && Caller(k) in after.records && after.records[Caller(k)] == Event(take.event)
            && ExpiryDone(b.copies - {n}, after.copies - {n}, now)
  {
    var b1 := Expire(b, now);
    AfterExpiry(b, types, now, b1);
    TakenIs(b1, b.copies, k, types, now, after, take);
  }

  lemma AfterExpiry(b: Box, types: seq<string>, now: int, b1: Box)
    requires Valid(b) && b1 == Expire(b, now)
    ensures ExpiryDone(b.copies, b1.copies, now) && Candidates(b1.index, types) == Takeable(b.copies, types, now)
  {
    ExpireKeeps(b, now);
    ExpireFrame(b, now);
    CandidatesMatch(b1.index, b1.copies, types);
    LiveIsMatching(b.copies, b1.copies, types, now);
  }

  lemma TakenIs(b1: Box, copies: Copies, k: string, types: seq<string>, now: int, after: Box, take: Take)
    requires ExpiryDone(copies, b1.copies, now) && Candidates(b1.index, types) == Takeable(copies, types, now) != {}
    requires (after, take) == TakeOrListen(b1, k, types)
    ensures var n := Least(Takeable(copies, types, now));
            && take == Took(TakenOf(copies[n]))
            && n in after.copies && after.copies[n].consumed == Some(Caller(k))
            && Caller(k) in after.records && after.records[Caller(k)] == Event(TakenOf(copies[n]))
            && ExpiryDone(copies - {n}, after.copies - {n}, now)
  {
    var n := Least(Takeable(copies, types, now));
    assert b1.copies[n] == copies[n];
    TakeCopyIs(b1, n, k, types, after);
  }

  lemma TakeCopyIs(b: Box, n: nat, k: string, types: seq<string>, after: Box)
    requires n in b.copies && after == TakeCopy(b, n, k, types)
    ensures after.copies == Used(b.copies, n, Caller(k))
    ensures after.records == b.records[Caller(k) := Event(TakenOf(b.copies[n]))]
  {
  }

  /** With nothing to take, a listen is registered under its key. */
  lemma TakeNothing(b: Box, k: string, types: seq<string>, now: int, after: Box, take: Take)
    requires Valid(b) && Caller(k) !in b.records && (after, take) == TakeEvent(b, k, types, now)
    requires Takeable(b.copies, types, now) == {}
    ensures take == Nothing && k in after.row.listeners && after.row.listeners[k] == types
    ensures ExpiryDone(b.copies, after.copies, now)
  {
    AfterExpiry(b, types, now, Expire(b, now));
  }

  lemma LiveIsMatching(copies: Copies, after: Copies, types: seq<string>, now: int)
    requires ExpiryDone(copies, after, now)
    ensures Takeable(copies, types, now) == Matching(after, types)
  {
  }

  /** Repeating a take under its key gives the same event and changes nothing. */
  lemma TakeRepeats(b: Box, k: string, types: seq<string>, now: int, again: seq<string>, later: int)
    requires Valid(b) && TakeEvent(b, k, types, now).1.Took?
    ensures var (after, take) := TakeEvent(b, k, types, now);
            TakeEvent(after, k, again, later) == (after, take)
  {
  }

  // ── the other steps ───────────────────────────────────────────────────────

  lemma OfferIndex(index: set<IndexRow>, copies: Copies, n: nat, e: Copy)
    requires IndexOk(index, copies) && n in copies && IsPending(copies[n]) && copies[n].delivered && copies[n].envelope.Some?
    requires e == copies[n].(delivered := false)
    ensures IndexOk(index + {ByPublished(n), LivePublished(e.expires, n)}, copies[n := e])
  {
  }

  lemma OfferCounts(pending: map<string, Count>, copies: Copies, n: nat, e: Copy)
    requires CountsOk(pending, copies) && n in copies && e == copies[n].(delivered := false)
    ensures CountsOk(pending, copies[n := e])
  {
    var after := copies[n := e];
    forall t: string ensures CountOk(pending, after, t) {
      assert CountOk(pending, copies, t);
      assert PendingOf(after, t) == PendingOf(copies, t) && CloudOf(after, t) == CloudOf(copies, t);
    }
  }

  lemma OfferPublished(copies: Copies, n: nat, e: Copy)
    requires n in copies && IsPending(copies[n]) && copies[n].delivered && copies[n].envelope.Some?
    requires e == copies[n].(delivered := false)
    ensures |PublishedSet(copies[n := e])| == |PublishedSet(copies)| + 1
  {
    assert PublishedSet(copies[n := e]) == PublishedSet(copies) + {n};
  }

  lemma OfferMailbox(mailbox: Option<int>, copies: Copies, n: nat, e: Copy)
    requires MailboxOk(mailbox, copies) && n in copies && e == copies[n].(delivered := false)
    ensures MailboxOk(mailbox, copies[n := e])
  {
    if mailbox.Some? {
      var m :| m in copies && IsPending(copies[m]) && copies[m].expires == mailbox;
      assert copies[n := e][m].expires == mailbox && IsPending(copies[n := e][m]);
    }
  }

  lemma OfferRecords(records: map<RecordKey, Record>, copies: Copies, n: nat, e: Copy)
    requires RecordsOk(records, copies) && n in copies && IsPending(copies[n]) && e == copies[n].(delivered := false)
    ensures RecordsOk(records, copies[n := e])
  {
    var after := copies[n := e];
    forall k | k in records && !records[k].Other? ensures exists m :: m in after && after[m].consumed == Some(k) {
      var m :| m in copies && copies[m].consumed == Some(k);
      assert after[m].consumed == Some(k);
    }
  }

  lemma OfferIds(ids: map<string, nat>, copies: Copies, n: nat, e: Copy)
    requires IdsOk(ids, copies) && n in copies && e == copies[n].(delivered := false)
    ensures IdsOk(ids, copies[n := e])
  {
  }

  lemma OfferTypes(types: map<string, nat>, copies: Copies, n: nat, e: Copy)
    requires TypesOk(types, copies) && n in copies && e == copies[n].(delivered := false)
    ensures TypesOk(types, copies[n := e])
  {
  }

  lemma OfferNotices(copies: Copies, n: nat, e: Copy)
    requires NoticesOk(copies) && n in copies && copies[n].envelope.Some? && e == copies[n].(delivered := false)
    ensures NoticesOk(copies[n := e])
  {
  }

  lemma OfferKeeps(b: Box, n: nat, now: int, after: Box)
    requires Valid(b) && after == OfferToWildcard(b, n, now)
    ensures Valid(after)
  {
    if n in b.copies && IsPending(b.copies[n]) && b.copies[n].delivered {
      var e := b.copies[n].(delivered := false);
      DeliveredIsEvent(b.copies, n);
      OfferRep(b, n, e, after);
      OfferMailbox(b.row.mailbox, b.copies, n, e);
      OfferListens(b.row, after.row, b.copies, n, e);
    }
  }

  lemma DeliveredIsEvent(copies: Copies, n: nat)
    requires NoticesOk(copies) && n in copies && copies[n].delivered
    ensures copies[n].envelope.Some?
  {
  }

  lemma OfferListens(row: Row, after: Row, copies: Copies, n: nat, e: Copy)
    requires ListensOk(row, copies) && n in copies && e == copies[n].(delivered := false) && SameWants(row, after)
    ensures ListensOk(after, copies[n := e])
  {
    ListensShrink(row, after, copies, copies[n := e]);
  }

  lemma OfferRep(b: Box, n: nat, e: Copy, after: Box)
    requires Rep(b) && n in b.copies && IsPending(b.copies[n]) && b.copies[n].delivered && b.copies[n].envelope.Some?
    requires e == b.copies[n].(delivered := false)
    requires after.copies == b.copies[n := e] && after.ids == b.ids && after.types == b.types && after.records == b.records
    requires after.index == b.index + {ByPublished(n), LivePublished(e.expires, n)}
    requires after.row == b.row.(wake := after.row.wake, published := b.row.published + 1)
    ensures Rep(after)
  {
    OfferIndex(b.index, b.copies, n, e);
    OfferCounts(b.row.pending, b.copies, n, e);
    OfferPublished(b.copies, n, e);
    OfferRecords(b.records, b.copies, n, e);
    OfferIds(b.ids, b.copies, n, e);
    OfferTypes(b.types, b.copies, n, e);
    OfferNotices(b.copies, n, e);
    OfferKeys(b.row, b.copies, n, e, after.row);
  }

  lemma OfferKeys(row: Row, copies: Copies, n: nat, e: Copy, now: Row)
    requires KeysOk(row, copies) && n in copies
    requires now.evidence == row.evidence && now.accepted == row.accepted
    ensures KeysOk(now, copies[n := e])
  {
  }

  lemma OfferWakes(b: Box, n: nat, now: int, after: Box)
    requires NoLostWake(b, now) && after == OfferToWildcard(b, n, now)
    ensures NoLostWake(after, now)
  {
    assert after == b || after.row.wake <= now;
  }

  lemma SaveKeeps(b: Box, k: string, content: string, after: Box)
    requires Valid(b) && !b.row.state.Ended? && after.row == b.row.(evidence := true)
    requires after == b.(records := after.records, row := after.row)
    requires after.records == if Caller(k) in b.records then b.records else b.records[Caller(k) := Other(content)]
    ensures Valid(after)
  {
    if Caller(k) !in b.records {
      SaveRecords(b.records, b.copies, k, content);
    }
    assert KeysOk(after.row, after.copies);
  }

  lemma SaveRecords(records: map<RecordKey, Record>, copies: Copies, k: string, content: string)
    requires RecordsOk(records, copies) && Caller(k) !in records
    ensures RecordsOk(records[Caller(k) := Other(content)], copies)
  {
  }

  lemma ForgetKeeps(b: Box, after: Box)
    requires Valid(b) && b.row.state.Ended? && after == Forget(b)
    ensures Valid(after)
  {
    forall t: string ensures CountOk(after.row.pending, after.copies, t) {
      assert PendingOf(after.copies, t) == {};
    }
    assert PublishedSet(after.copies) == {};
  }

  lemma FinishKeeps(b: Box, wakeAt: int, now: int, after: Box)
    requires Valid(b) && b.row.state.Running? && after == FinishWaiting(b, wakeAt, now)
    ensures Valid(after)
  {
    ReleaseKeeps(b, after);
  }

  lemma FinishWakes(b: Box, wakeAt: int, now: int, after: Box)
    requires after == FinishWaiting(b, wakeAt, now)
    ensures NoLostWake(after, now)
  {
    if HasWanted(after.row, after.copies, now) {
      var n :| n in after.copies && Wanted(after.row, after.copies[n], now);
      WantedAlike(after.row, b.row.(state := Waiting), after.copies[n], now);
      assert HasWanted(b.row.(state := Waiting), b.copies, now);
    }
  }

  // ── whole histories ───────────────────────────────────────────────────────

  /** The part of the mailbox the wake-up depends on was not enlarged. */
  lemma ExpireWakes(b: Box, now: int)
    requires Valid(b) && NoLostWake(b, now)
    ensures NoLostWake(Expire(b, now), now)
  {
    ExpireFrame(b, now);
    var after := Expire(b, now);
    forall n | n in after.copies && Wanted(after.row, after.copies[n], now) ensures Wanted(b.row, b.copies[n], now) {
      WantedAlike(after.row, b.row, after.copies[n], now);
    }
    WakeShrinks(b, after, now);
  }

  lemma ChildDoneKeeps(b: Box, child: string, data: string, now: int)
    requires Valid(b) && NoLostWake(b, now)
    ensures Valid(ChildDone(b, child, data, now)) && NoLostWake(ChildDone(b, child, data, now), now)
  {
    if DONE + child !in b.types {
      var closed := b.(row := Close(b.row, [WAITING + child]));
      CloseListens(b.row, [WAITING + child], b.copies);
      RowChange(b, closed);
      forall n | n in closed.copies && Wanted(closed.row, closed.copies[n], now) ensures Wanted(b.row, b.copies[n], now) {
        CloseWants(b.row, [WAITING + child], b.copies[n], now);
      }
      WakeShrinks(b, closed, now);
      NotifyKeeps(closed, DONE + child, data, now);
      NotifyWakes(closed, DONE + child, data, now);
    }
  }

  /** More awaits, and no new listener but internal ones. */
  lemma RegisterKeeps(b: Box, after: Box)
    requires Valid(b) && after == b.(row := b.row.(awaits := after.row.awaits, addressed := after.row.addressed, listeners := after.row.listeners))
    requires b.row.awaits.Keys <= after.row.awaits.Keys && after.row.addressed <= after.row.awaits.Keys
    requires forall k :: k in after.row.listeners && !IsChild(k) ==> k in b.row.listeners && after.row.listeners[k] == b.row.listeners[k]
    ensures Valid(after)
  {
    MoreAwaits(b.row, after.row, b.copies);
    RowChange(b, after);
  }

  /** Subscriptions, wake-up and release leave the registrations alone. */
  lemma ReleaseKeeps(b: Box, after: Box)
    requires Valid(b) && !after.row.state.Ended? && !b.row.state.Ended?
    requires after == b.(row := b.row.(subscriptions := after.row.subscriptions, state := after.row.state, wake := after.row.wake))
    ensures Valid(after)
  {
    ListensShrink(b.row, after.row, b.copies, b.copies);
    RowChange(b, after);
  }

  ghost predicate Registers(c: Command) {
    c.DoRegister? || c.DoStartChild? || c.DoSubscribe? || c.DoUnsubscribe? || c.DoRelease?
  }

  lemma RegistrationKeeps(b: Box, c: Command, now: int, after: Box)
    requires Valid(b) && b.row.state.Running? && after == OwnerStep(b, c, now) && Registers(c)
    ensures Valid(after)
  {
    if c.DoRegister? {
      assert after == RegisterWait(b, c.types, now);
      RegisterKeeps(b, after);
    } else if c.DoStartChild? {
      assert after == StartChild(b, c.child, now);
      RegisterKeeps(b, after);
    } else {
      ReleaseKeeps(b, after);
    }
  }

  /** A step of the owner leaves the run running, or releases it. */
  lemma OwnerKeeps(b: Box, c: Command, now: int, after: Box)
    requires Valid(b) && b.row.state.Running? && after == OwnerStep(b, c, now) && !Registers(c)
    ensures Valid(after)
  {
    match c
    case DoUnregister(k, types) =>
      assert after == UnregisterWait(b, k, types);
      UnregisterKeeps(b, k, types, after);
    case DoTake(k, types) =>
      assert after == TakeEvent(b, k, types, now).0;
      TakeKeeps(b, k, types, now, after);
    case DoFinishWaiting(wake) =>
      assert after == FinishWaiting(b, wake, now);
      FinishKeeps(b, wake, now, after);
    case DoSave(k, content) =>
      SaveKeeps(b, k, content, after);
    case _ =>
  }

  lemma OwnerWakes(b: Box, c: Command, now: int, after: Box)
    requires Valid(b) && b.row.state.Running? && after == OwnerStep(b, c, now)
    ensures NoLostWake(after, now)
  {
    if c.DoFinishWaiting? {
      FinishWakes(b, c.wake, now, after);
    } else if c.DoTake? {
      TakeStaysRunning(b, c.k, c.types, now);
    }
  }

  lemma TakeOrListenState(b: Box, k: string, types: seq<string>)
    ensures TakeOrListen(b, k, types).0.row.state == b.row.state
  {
    var found := Candidates(b.index, types);
    if found != {} && Least(found) in b.copies {
      TakeCopyParts(b, Least(found), k, types, TakeCopy(b, Least(found), k, types));
    }
  }

  lemma TakeStaysRunning(b: Box, k: string, types: seq<string>, now: int)
    requires Valid(b) && b.row.state.Running?
    ensures TakeEvent(b, k, types, now).0.row.state.Running?
  {
    ExpireFrame(b, now);
    TakeOrListenState(Expire(b, now), k, types);
  }

  lemma StateChange(b: Box, after: Box)
    requires Valid(b) && after == b.(row := after.row) && SameWants(b.row, after.row)
    requires after.row == b.row.(state := after.row.state) && (b.row.state.Ended? ==> after.row.state.Ended?)
    ensures Valid(after)
  {
    ListensShrink(b.row, after.row, b.copies, b.copies);
    RowChange(b, after);
  }

  lemma TerminateKeeps(b: Box, after: Box)
    requires Valid(b) && after == Terminate(b)
    ensures Valid(after)
  {
    RowChange(b, after);
  }

  /** What arrives from outside the run. */
  lemma ArrivalKeeps(b: Box, c: Command, now: int, after: Box)
    requires Valid(b) && NoLostWake(b, now) && after == Step(b, c, now)
    requires c.DoDeliver? || c.DoPublish? || c.DoChildDone? || c.DoChildWaiting?
    ensures Valid(after) && NoLostWake(after, now)
  {
    match c
    case DoDeliver(t, data, env, keep) =>
      DeliverKeeps(b, t, data, env, now, keep);
    case DoPublish(t, data, env, kept) =>
      PublishKeeps(b, t, data, env, now, kept);
    case DoChildDone(child, data) =>
      ChildDoneKeeps(b, child, data, now);
    case DoChildWaiting(child, data) =>
      NotifyKeeps(b, WAITING + child, data, now);
      NotifyWakes(b, WAITING + child, data, now);
  }

  lemma ForgetStepKeeps(b: Box, now: int, after: Box)
    requires Valid(b) && after == Step(b, DoForget, now)
    ensures Valid(after)
  {
    if b.row.state.Ended? {
      ForgetKeeps(b, after);
    }
  }

  lemma SweepStepKeeps(b: Box, now: int, after: Box)
    requires Valid(b) && after == Step(b, DoSweepExpired, now)
    ensures Valid(after)
  {
    if !b.row.state.Ended? {
      SweepKeeps(b, now, after);
    }
  }

  /** What the store does to the run: sweeps, claims, ends. */
  lemma StoreKeeps(b: Box, c: Command, now: int, after: Box)
    requires Valid(b) && after == Step(b, c, now)
    requires c.DoOffer? || c.DoSweepExpired? || c.DoForget? || c.DoTerminate? || c.DoClaim?
    ensures Valid(after)
  {
    if c.DoSweepExpired? {
      SweepStepKeeps(b, now, after);
    } else if c.DoForget? {
      ForgetStepKeeps(b, now, after);
    } else if !b.row.state.Ended? {
      if c.DoOffer? {
        OfferKeeps(b, c.n, now, after);
      } else if c.DoTerminate? {
        TerminateKeeps(b, after);
      } else {
        StateChange(b, after);
      }
    }
  }

  lemma SweepKeeps(b: Box, now: int, after: Box)
    requires Valid(b) && after == Expire(b, now)
    ensures Valid(after)
  {
    ExpireKeeps(b, now);
  }

  lemma StoreWakes(b: Box, c: Command, now: int, after: Box)
    requires Valid(b) && NoLostWake(b, now) && after == Step(b, c, now)
    requires c.DoOffer? || c.DoSweepExpired? || c.DoForget? || c.DoTerminate? || c.DoClaim?
    ensures NoLostWake(after, now)
  {
    match c
    case DoOffer(n) =>
      if !b.row.state.Ended? {
        assert after == OfferToWildcard(b, n, now);
        OfferWakes(b, n, now, after);
      }
    case DoSweepExpired =>
      if !b.row.state.Ended? {
        assert after == Expire(b, now);
        ExpireWakes(b, now);
      }
    case _ =>
  }

  lemma StepKeeps(b: Box, c: Command, then_: int, now: int, after: Box)
    requires Valid(b) && NoLostWake(b, then_) && then_ <= now && after == Step(b, c, now)
    ensures Valid(after) && NoLostWake(after, now)
  {
    WakeStays(b, then_, now);
    if c.DoDeliver? || c.DoPublish? || c.DoChildDone? || c.DoChildWaiting? {
      ArrivalKeeps(b, c, now, after);
    } else if c.DoOffer? || c.DoSweepExpired? || c.DoForget? || c.DoTerminate? || c.DoClaim? {
      StoreKeeps(b, c, now, after);
      StoreWakes(b, c, now, after);
    } else if b.row.state.Running? {
      if Registers(c) {
        RegistrationKeeps(b, c, now, after);
      } else {
        OwnerKeeps(b, c, now, after);
      }
      OwnerWakes(b, c, now, after);
    }
  }

  lemma DeliverKeeps(b: Box, t: string, data: string, env: Envelope, now: int, keep: nat)
    requires Valid(b) && NoLostWake(b, now)
    ensures Valid(Deliver(b, t, data, env, now, keep)) && NoLostWake(Deliver(b, t, data, env, now, keep), now)
  {
    if !b.row.state.Ended? || (env.identity.Some? && env.identity.value in b.ids) {
      AcceptKeeps(b, DeliveredCopy(t, data, env, now, keep), now);
      AcceptWakes(b, DeliveredCopy(t, data, env, now, keep), now);
    }
  }

  lemma PublishKeeps(b: Box, t: string, data: string, env: Envelope, now: int, kept: Option<nat>)
    requires Valid(b) && NoLostWake(b, now)
    ensures Valid(Publish(b, t, data, env, now, kept)) && NoLostWake(Publish(b, t, data, env, now, kept), now)
  {
    if !b.row.state.Ended? {
      AcceptKeeps(b, PublishedCopy(t, data, env, now, kept), now);
      AcceptWakes(b, PublishedCopy(t, data, env, now, kept), now);
    }
  }

  /** A history: commands with the instants they commit at. */
  function RunAll(b: Box, commands: seq<(Command, int)>): Box
    decreases |commands|
  {
    if commands == [] then b else
      var n := |commands| - 1;
      Step(RunAll(b, commands[..n]), commands[n].0, commands[n].1)
  }

  ghost predicate Clocked(start: int, commands: seq<(Command, int)>) {
    forall i :: 0 <= i < |commands| ==> start <= commands[i].1 && (i > 0 ==> commands[i - 1].1 <= commands[i].1)
  }

  lemma FreshValid(now: int)
    ensures Valid(Fresh(now)) && NoLostWake(Fresh(now), now)
  {
    var b := Fresh(now);
    forall t: string ensures CountOk(b.row.pending, b.copies, t) {
      assert PendingOf(b.copies, t) == {};
    }
    assert PublishedSet(b.copies) == {};
  }

  /** However deliveries, publications, notices, waits, takes, sweeps and releases
      interleave: the counters, the earliest expiry and all index families are exactly
      those of the stored copies, no identity is held twice, consumed copies and their
      records correspond one to one, and a waiting run holding a copy it wants is due. */
  lemma {:induction false} MailboxAlwaysRight(start: int, commands: seq<(Command, int)>)
    requires Clocked(start, commands)
    ensures Valid(RunAll(Fresh(start), commands))
    ensures NoLostWake(RunAll(Fresh(start), commands), if commands == [] then start else commands[|commands| - 1].1)
    decreases |commands|
  {
    if commands == [] {
      FreshValid(start);
    } else {
      var n := |commands| - 1;
      var earlier := commands[..n];
      assert forall i :: 0 <= i < n ==> earlier[i] == commands[i];
      MailboxAlwaysRight(start, earlier);
      var before, after := RunAll(Fresh(start), earlier), RunAll(Fresh(start), commands);
      assert after == Step(before, commands[n].0, commands[n].1);
      StepKeeps(before, commands[n].0, if earlier == [] then start else earlier[n - 1].1, commands[n].1, after);
    }
  }
}

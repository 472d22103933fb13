/**
 What each mailbox operation leaves, written out over the copies and registrations before
 it.
 */
module MailboxDecisions {
  import opened Options
  import opened Mailbox
  import opened MailboxProofs
  import opened MailboxRuns
  import opened MailboxOrigins

  // ── what a run would take ─────────────────────────────────────────────────

  /** A key other than the internal one of a started child. */
  predicate IsOwnKey(k: string) {
    !("child:" <= k)
  }

  /** An event the run waits for by type, or subscribed to by type or by wildcard; a notice
      that a wait or a listen of its own names. */
  predicate Hears(row: Row, e: Copy) {
    match e.envelope
    case Some(_) =>
      || e.type_ in row.awaits
      || (exists k | k in row.subscriptions :: e.type_ in row.subscriptions[k])
      || (!e.delivered && exists k | k in row.subscriptions :: "*" in row.subscriptions[k])
    case None => e.type_ in row.addressed || exists k | k in row.listeners :: IsOwnKey(k) && e.type_ in row.listeners[k]
  }

  predicate Past(e: Copy, now: int) {
    match e.expires
    case Some(at) => at <= now
    case None => false
  }

  lemma WantsIsHears(row: Row, e: Copy, now: int)
    ensures Wanted(row, e, now) <==> e.consumed.None? && !Past(e, now) && Hears(row, e)
  {
    assert forall k :: IsOwnKey(k) <==> !IsChild(k);
  }

  // ── storing a copy ────────────────────────────────────────────────────────

  /** The copy gets the next number, and nothing else is stored or dropped. */
  ghost predicate Stores(b: Box, e: Copy, wake: int, after: Box) {
    && after.copies == b.copies[b.row.accepted := e]
    && after.row == b.row.(accepted := b.row.accepted + 1, evidence := true, wake := wake,
                           pending := after.row.pending, published := after.row.published, mailbox := after.row.mailbox)
    && after.ids == (if e.envelope.Some? && e.envelope.value.identity.Some? then b.ids[e.envelope.value.identity.value := b.row.accepted] else b.ids)
    && after.records == b.records
    && after.types == if e.type_ in b.types then b.types else b.types[e.type_ := b.row.accepted]
  }

  /** The copy the mailbox holds under an identity. */
  ghost predicate HoldsIdentity(b: Box, id: string, n: nat) {
    n in b.copies && b.copies[n].envelope.Some? && b.copies[n].envelope.value.identity == Some(id)
  }

  /** A known identity is a repeat if the payload is the same, and a conflict if not. */
  lemma KnownEvent(b: Box, e: Copy, now: int, id: string, n: nat)
    requires Valid(b) && e.envelope.Some? && e.envelope.value.identity == Some(id) && HoldsIdentity(b, id, n)
    ensures Accept(b, e, now) == if b.copies[n].envelope.value.payload == e.envelope.value.payload then Repeated else Conflicting
  {
    assert Identity(b.copies[n]) == Some(id);
    assert id in b.ids && b.ids[id] == n;
  }

  lemma PushStores(b: Box, e: Copy, wake: int, woken: Box)
    requires woken == b.(row := b.row.(wake := wake))
    ensures Stores(b, e, wake, Push(woken, e))
  {
  }

  /** Any other event is stored, and makes the run due if it would take it. */
  lemma NewEvent(b: Box, e: Copy, now: int)
    requires Valid(b) && e.consumed.None? && e.envelope.Some?
    requires e.envelope.value.identity.Some? ==> forall n :: n in b.copies ==> !HoldsIdentity(b, e.envelope.value.identity.value, n)
    ensures var r := Accept(b, e, now);
            r.Stored? && Stores(b, e, if Hears(b.row, e) && !Past(e, now) && now < b.row.wake then now else b.row.wake, r.box)
  {
    WantsIsHears(b.row, e, now);
    var id := Identity(e);
    if id.Some? && id.value in b.ids {
      assert HoldsIdentity(b, id.value, b.ids[id.value]);
    }
    var wake := if Hears(b.row, e) && !Past(e, now) && now < b.row.wake then now else b.row.wake;
    assert b.(row := b.row.(wake := wake)) == Woken(b, e, now);
    PushStores(b, e, wake, Woken(b, e, now));
  }

  /** A child's notice is stored if the run awaits it and none of the type waits unread; it
      makes the run due if a wait or a listen of its own names it. */
  lemma NoticeDecides(b: Box, t: string, data: string, now: int, after: Box)
    requires Valid(b) && after == Notify(b, t, data, now)
    ensures if b.row.state.Ended? || t !in b.row.awaits || (exists n :: n in b.copies && b.copies[n].consumed.None? && b.copies[n].type_ == t)
            then after == b
            else
              var e := Copy(t, data, now, None, false, None, None);
              Stores(b, e, if Hears(b.row, e) then now else b.row.wake, after)
  {
    var e := NoticeCopy(t, data, now);
    WantsIsHears(b.row, e, now);
    PendingTold(b, t);
    if !b.row.state.Ended? && t in b.row.awaits && t !in b.row.pending {
      var wake := if Hears(b.row, e) then now else b.row.wake;
      PushStores(b, e, wake, b.(row := b.row.(wake := wake)));
    }
  }

  lemma PendingTold(b: Box, t: string)
    requires Valid(b)
    ensures t in b.row.pending <==> exists n :: n in b.copies && b.copies[n].consumed.None? && b.copies[n].type_ == t
  {
    assert CountOk(b.row.pending, b.copies, t);
    if t in b.row.pending {
      var n :| n in PendingOf(b.copies, t);
      assert n in b.copies && b.copies[n].consumed.None? && b.copies[n].type_ == t;
    }
    if n :| n in b.copies && b.copies[n].consumed.None? && b.copies[n].type_ == t {
      assert n in PendingOf(b.copies, t);
    }
  }

  /** The end of a child is told once: never again if a copy of its type was ever stored.
      The wait for its waiting is closed first, unless a listener lists it. */
  lemma ChildEndDecides(b: Box, child: string, data: string, now: int, after: Box)
    requires after == ChildDone(b, child, data, now)
    ensures if "done:" + child in b.types then after == b
            else exists m :: IsClosed(b.row, m, ["waiting:" + child]) && after == Notify(b.(row := m), "done:" + child, data, now)
  {
    IsClosedBy(b.row, ["waiting:" + child]);
  }

  // ── registrations ─────────────────────────────────────────────────────────

  /** Types listed by no listener are awaited and addressed no more. */
  ghost predicate IsClosed(row: Row, after: Row, types: seq<string>) {
    && after == row.(awaits := after.awaits, addressed := after.addressed)
    && (forall t :: t in after.awaits <==> t in row.awaits && (t !in types || exists k :: k in row.listeners && t in row.listeners[k]))
    && (forall t :: t in after.awaits ==> after.awaits[t] == row.awaits[t])
    && forall t :: t in after.addressed <==> t in row.addressed && (t !in types || exists k :: k in row.listeners && t in row.listeners[k])
  }

  lemma IsClosedBy(row: Row, types: seq<string>)
    ensures IsClosed(row, Close(row, types), types)
  {
  }

  /** An addressed wait awaits its types, from now if it did not before. */
  lemma WaitDecides(b: Box, types: seq<string>, now: int, after: Box)
    requires after == RegisterWait(b, types, now)
    ensures after == b.(row := b.row.(awaits := after.row.awaits, addressed := after.row.addressed))
    ensures forall t :: t in after.row.addressed <==> t in b.row.addressed || t in types
    ensures forall t :: t in after.row.awaits <==> t in b.row.awaits || t in types
    ensures forall t :: t in after.row.awaits ==> after.row.awaits[t] == if t in b.row.awaits then b.row.awaits[t] else now
  {
  }

  lemma UnregisterDecides(b: Box, k: string, types: seq<string>, after: Box)
    requires after == UnregisterWait(b, k, types)
    ensures after == b.(row := after.row) && IsClosed(b.row.(listeners := b.row.listeners - {k}), after.row, types)
  {
    IsClosedBy(b.row.(listeners := b.row.listeners - {k}), types);
  }

  /** Starting a child awaits both its notices and listens for its end. */
  lemma ExpectDecides(b: Box, child: string, now: int, after: Box)
    requires after == StartChild(b, child, now)
    ensures after == b.(row := b.row.(awaits := after.row.awaits, listeners := b.row.listeners["child:" + child := ["done:" + child]]))
    ensures forall t :: t in after.row.awaits <==> t in b.row.awaits || t == "done:" + child || t == "waiting:" + child
    ensures forall t :: t in after.row.awaits ==> after.row.awaits[t] == if t in b.row.awaits then b.row.awaits[t] else now
  {
  }

  /** What a take leaves of the registrations: its own listener goes, with a child's last
      notice the listener of the child, and then what no listener lists. */
  lemma TakenRow(b: Box, n: nat, k: string, types: seq<string>, after: Box)
    requires n in b.copies && after == TakeCopy(b, n, k, types)
    ensures var t := b.copies[n].type_;
            var left := (if "done:" <= t then b.row.listeners - {"child:" + t[5..]} else b.row.listeners) - {k};
            IsClosed(b.row.(listeners := left, pending := after.row.pending, published := after.row.published, mailbox := after.row.mailbox),
                     after.row, types)
  {
    var t := b.copies[n].type_;
    var dropped := DropChild(b.row.listeners, t);
    assert |DONE| == 5;
    var row := b.row.(listeners := dropped - {k}, pending := after.row.pending, published := after.row.published, mailbox := after.row.mailbox);
    IsClosedBy(row, types);
    assert after.row == Close(row, types);
  }

  // ── the run's own transitions ─────────────────────────────────────────────

  /** Released as waiting: due now if a stored copy is one it would take, else when asked. */
  lemma WaitingDecides(b: Box, wakeAt: int, now: int, after: Box)
    requires after == FinishWaiting(b, wakeAt, now)
    ensures after == b.(row := b.row.(state := Waiting,
                          wake := if exists n :: n in b.copies && b.copies[n].consumed.None? && !Past(b.copies[n], now) && Hears(b.row, b.copies[n])
                                  then now else wakeAt))
  {
    forall n | n in b.copies
      ensures Wanted(b.row.(state := Waiting), b.copies[n], now) <==>
              b.copies[n].consumed.None? && !Past(b.copies[n], now) && Hears(b.row, b.copies[n])
    {
      WantsIsHears(b.row.(state := Waiting), b.copies[n], now);
    }
    assert HasWanted(b.row.(state := Waiting), b.copies, now) <==>
           exists n :: n in b.copies && Wanted(b.row.(state := Waiting), b.copies[n], now);
  }

  /** An unread delivery is offered as if published, and the run is due. */
  lemma OfferDecides(b: Box, n: nat, now: int, after: Box)
    requires after == OfferToWildcard(b, n, now)
    ensures if n !in b.copies || b.copies[n].consumed.Some? || !b.copies[n].delivered then after == b
            else
              && after.copies == b.copies[n := b.copies[n].(delivered := false)]
              && after.row == b.row.(wake := if now < b.row.wake then now else b.row.wake, published := b.row.published + 1)
              && after.ids == b.ids && after.types == b.types && after.records == b.records
  {
  }

  /** The end clears what the run waited for; the sweep leaves no copy, record or index row. */
  lemma EndDecides(b: Box)
    ensures Terminate(b) == b.(row := b.row.(state := Ended, awaits := map[], listeners := map[], subscriptions := map[], addressed := {}))
    ensures var f := Forget(b);
            && f.copies == map[] && f.records == map[] && f.index == {} && f.ids == map[] && f.types == map[]
            && f.row == b.row.(pending := map[], published := 0, mailbox := None, evidence := false)
  {
  }

  /** An ended run is only swept; only the owner of a running one registers, takes, saves
      or lets go. */
  lemma StepGuards(b: Box, c: Command, now: int)
    ensures b.row.state.Ended? && !c.DoForget? && !c.DoDeliver? ==> Step(b, c, now) == b
    ensures !b.row.state.Ended? && c.DoForget? ==> Step(b, c, now) == b
    ensures !b.row.state.Running?
            && (c.DoRegister? || c.DoUnregister? || c.DoTake? || c.DoSubscribe? || c.DoUnsubscribe? || c.DoStartChild? || c.DoRelease?
                || c.DoFinishWaiting? || c.DoSave?)
            ==> Step(b, c, now) == b
  {
  }

  /** What the owner of a running run does beyond waits, takes and children. */
  lemma OwnerDecides(b: Box, k: string, types: seq<string>, content: string, wake: int, now: int)
    requires b.row.state.Running?
    ensures Step(b, DoSubscribe(k, types), now) == b.(row := b.row.(subscriptions := b.row.subscriptions[k := types]))
    ensures Step(b, DoUnsubscribe(k), now) == b.(row := b.row.(subscriptions := b.row.subscriptions - {k}))
    ensures Step(b, DoRelease(wake), now) == b.(row := b.row.(state := Ready, wake := wake))
    ensures Step(b, DoSave(k, content), now) ==
            b.(row := b.row.(evidence := true),
               records := if Caller(k) in b.records then b.records else b.records[Caller(k) := Other(content)])
  {
  }

  /** Which operation each command of the owner is. */
  lemma OwnerCommands(b: Box, k: string, types: seq<string>, child: string, now: int)
    requires b.row.state.Running?
    ensures Step(b, DoRegister(types), now) == RegisterWait(b, types, now)
    ensures Step(b, DoUnregister(k, types), now) == UnregisterWait(b, k, types)
    ensures Step(b, DoStartChild(child), now) == StartChild(b, child, now)
  {
  }

  lemma TakeCommand(b: Box, k: string, types: seq<string>, now: int)
    requires b.row.state.Running?
    ensures Step(b, DoTake(k, types), now) == TakeEvent(b, k, types, now).0
  {
  }

  lemma WaitCommand(b: Box, wake: int, now: int)
    requires b.row.state.Running?
    ensures Step(b, DoFinishWaiting(wake), now) == FinishWaiting(b, wake, now)
  {
  }

  /** What the store does to a run that has not ended: claims change only its state. */
  lemma StoreCommands(b: Box, child: string, data: string, n: nat, now: int)
    requires !b.row.state.Ended?
    ensures Step(b, DoClaim, now) == b.(row := b.row.(state := Running))
    ensures Step(b, DoTerminate, now) == Terminate(b)
    ensures Step(b, DoSweepExpired, now) == Expire(b, now)
    ensures Step(b, DoOffer(n), now) == OfferToWildcard(b, n, now)
    ensures Step(b, DoChildDone(child, data), now) == ChildDone(b, child, data, now)
    ensures Step(b, DoChildWaiting(child, data), now) == Notify(b, "waiting:" + child, data, now)
  {
  }

  /** What arrives: a delivery needs an identity, and an ended run takes it only as a
      repeat; a publication to all needs a subscription. */
  lemma ArrivalDecides(b: Box, t: string, data: string, env: Envelope, now: int, keep: nat, kept: Option<nat>)
    ensures var d := Copy(t, data, now, Some(env), true, Some(Sum(now, keep)), None);
            Step(b, DoDeliver(t, data, env, keep), now) ==
            if env.identity.None? || (b.row.state.Ended? && env.identity.value !in b.ids) then b else AcceptInto(b, d, now)
    ensures var p := Copy(t, data, now, Some(env), false, if kept.Some? then Some(Sum(now, kept.value)) else None, None);
            Step(b, DoPublish(t, data, env, kept), now) ==
            if b.row.state.Ended? || (kept.None? && !exists k :: k in b.row.subscriptions && (t in b.row.subscriptions[k] || "*" in b.row.subscriptions[k]))
            then b else AcceptInto(b, p, now)
  {
  }
}

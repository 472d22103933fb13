/**
 One run's mailbox: the copies of events it accepted, the index rows and counters
 that summarise the pending ones, and what each store operation does to them.
 */
module Mailbox {
  import opened Options
  import R = Runs

  // ── rows ──────────────────────────────────────────────────────────────────

  /** An accepted CloudEvent: its `source` + `id` when it has both, and the rest
      without its `time`. */
  datatype Envelope = Envelope(identity: Option<string>, payload: string)

  /** A record key: the caller's, or the expiry of the copy at a sequence number
      (`mailbox#expired[n]`, which callers never use as theirs). */
  datatype RecordKey = Caller(key: string) | Expiry(copy: nat)

  datatype Copy = Copy(
    type_: string,
    data: string,
    deliveredAt: int,
    envelope: Option<Envelope>,
    delivered: bool,
    expires: Option<int>,
    consumed: Option<RecordKey>)

  /** The event a listen is given. */
  datatype Taken = Taken(type_: string, data: string, at: int, envelope: Option<Envelope>)
  datatype Record = Event(event: Taken) | Expired(event: Taken) | Other(content: string)

  /** A row of one of the five index families over pending copies: two keyed by type
      (sequence, live-until), two for events only, one keyed by the time to expire. */
  datatype IndexRow =
    | ByType(type_: string, n: nat)
    | Live(type_: string, expires: Option<int>, n: nat, cloud: bool)
    | ByPublished(n: nat)
    | LivePublished(expires: Option<int>, n: nat)
    | Expiring(at: int, n: nat)

  datatype Count = Count(copies: nat, cloud: nat)
  datatype RunState = Ready | Running | Waiting | Ended

  /** The part of the run row that the mailbox reads and writes. */
  datatype Row = Row(
    state: RunState,
    wake: int,
    awaits: map<string, int>,
    listeners: map<string, seq<string>>,
    subscriptions: map<string, seq<string>>,
    addressed: set<string>,
    accepted: nat,
    pending: map<string, Count>,
    published: nat,
    mailbox: Option<int>,
    evidence: bool)

  datatype Box = Box(
    row: Row,
    copies: map<nat, Copy>,
    ids: map<string, nat>,
    types: map<string, nat>,
    index: set<IndexRow>,
    records: map<RecordKey, Record>)

  function Fresh(now: int): Box {
    Box(Row(Ready, now, map[], map[], map[], {}, 0, map[], 0, None, false), map[], map[], map[], {}, map[])
  }

  // ── rules ─────────────────────────────────────────────────────────────────

  predicate IsPending(e: Copy) {
    e.consumed.None?
  }

  predicate IsExpired(e: Copy, now: int) {
    e.expires.Some? && e.expires.value <= now
  }

  /** Taken by a wildcard: published, not delivered. */
  predicate IsPublished(e: Copy) {
    e.envelope.Some? && !e.delivered
  }

  function Identity(e: Copy): Option<string> {
    if e.envelope.Some? then e.envelope.value.identity else None
  }

  predicate Subscribed(row: Row, e: Copy) {
    e.envelope.Some? &&
    exists k | k in row.subscriptions :: e.type_ in row.subscriptions[k] || (IsPublished(e) && "*" in row.subscriptions[k])
  }

  const CHILD := "child:"

  predicate IsChild(k: string) {
    CHILD <= k
  }

  predicate Listens(row: Row, t: string) {
    exists k | k in row.listeners :: !IsChild(k) && t in row.listeners[k]
  }

  /** Whether a pending copy of a type wakes the run: an event if its type is awaited,
      a lifecycle notice only if an addressed wait or a listen names the type. */
  predicate Wakes(row: Row, t: string, cloud: bool) {
    if cloud then t in row.awaits else t in row.addressed || Listens(row, t)
  }

  /** The run could use this copy now: it is neither consumed nor past its time, and a
      listen or a subscription matches it. */
  predicate Wanted(row: Row, e: Copy, now: int) {
    IsPending(e) && !IsExpired(e, now) && (Wakes(row, e.type_, e.envelope.Some?) || Subscribed(row, e))
  }

  /** The simple wake test: some stored copy is wanted. */
  predicate HasWanted(row: Row, copies: map<nat, Copy>, now: int) {
    exists n | n in copies :: Wanted(row, copies[n], now)
  }

  function TakenOf(e: Copy): Taken {
    Taken(e.type_, e.data, e.deliveredAt, e.envelope)
  }

  function PendingRows(n: nat, e: Copy): set<IndexRow> {
    {ByType(e.type_, n), Live(e.type_, e.expires, n, e.envelope.Some?)} +
    (if IsPublished(e) then {ByPublished(n), LivePublished(e.expires, n)} else {}) +
    (if e.expires.Some? then {Expiring(e.expires.value, n)} else {})
  }

  function MinOption(a: Option<int>, b: int): int {
    if a.Some? && a.value < b then a.value else b
  }

  // ── storing and consuming copies ──────────────────────────────────────────

  function CountUp(pending: map<string, Count>, e: Copy): map<string, Count> {
    var was := if e.type_ in pending then pending[e.type_] else Count(0, 0);
    pending[e.type_ := Count(was.copies + 1, was.cloud + if e.envelope.Some? then 1 else 0)]
  }

  function Less1(n: nat): nat {
    if n > 0 then n - 1 else 0
  }

  function CountDown(pending: map<string, Count>, e: Copy): map<string, Count> {
    if e.type_ !in pending then pending else
      var was := pending[e.type_];
      var now := Count(Less1(was.copies), if e.envelope.Some? then Less1(was.cloud) else was.cloud);
      if now.copies == 0 then pending - {e.type_} else pending[e.type_ := now]
  }

  /** Appends a copy under the next sequence number. */
  function Push(b: Box, e: Copy): Box {
    var n := b.row.accepted;
    b.(copies := b.copies[n := e],
       ids := if Identity(e).Some? then b.ids[Identity(e).value := n] else b.ids,
       types := if e.type_ in b.types then b.types else b.types[e.type_ := n],
       index := b.index + PendingRows(n, e),
       row := b.row.(
         accepted := n + 1,
         pending := CountUp(b.row.pending, e),
         published := b.row.published + (if IsPublished(e) then 1 else 0),
         mailbox := if e.expires.Some? then Some(MinOption(b.row.mailbox, e.expires.value)) else b.row.mailbox,
         evidence := true))
  }

  /** Hands a pending copy to the record `k`; nothing summarises it any more. */
  function Consume(b: Box, n: nat, k: RecordKey): Box
    requires n in b.copies
  {
    var e := b.copies[n];
    b.(copies := b.copies[n := e.(consumed := Some(k))],
       index := b.index - PendingRows(n, e),
       row := b.row.(
         pending := CountDown(b.row.pending, e),
         published := if IsPublished(e) then Less1(b.row.published) else b.row.published))
  }

  function ExpiryRows(index: set<IndexRow>): set<IndexRow> {
    set r | r in index && r.Expiring?
  }

  predicate Before(a: IndexRow, b: IndexRow)
    requires a.Expiring? && b.Expiring?
  {
    a.at < b.at || (a.at == b.at && a.n <= b.n)
  }

  predicate IsEarliest(r: IndexRow, rows: set<IndexRow>) {
    r in rows && (forall s | s in rows :: s.Expiring?) && forall s | s in rows :: Before(r, s)
  }

  lemma {:induction false} EarliestExists(rows: set<IndexRow>)
    requires rows != {} && forall s :: s in rows ==> s.Expiring?
    ensures exists r :: IsEarliest(r, rows)
    decreases |rows|
  {
    var x :| x in rows;
    var rest := rows - {x};
    if rest == {} {
      assert rows == {x};
      assert IsEarliest(x, rows);
    } else {
      EarliestExists(rest);
      var r :| IsEarliest(r, rest);
      var first := if Before(x, r) then x else r;
      forall s | s in rows ensures Before(first, s) {
        assert s == x || s in rest;
      }
      assert IsEarliest(first, rows);
    }
  }

  /** The first row of the expiry index. */
  function Earliest(rows: set<IndexRow>): (r: IndexRow)
    requires rows != {} && forall s :: s in rows ==> s.Expiring?
    ensures IsEarliest(r, rows)
  {
    EarliestExists(rows);
    var r :| IsEarliest(r, rows); r
  }

  /** Reads the row's expiry off the first expiry row. */
  function Refresh(b: Box): Box {
    var rows := ExpiryRows(b.index);
    b.(row := b.row.(mailbox := if rows == {} then None else Some(Earliest(rows).at)))
  }

  function ExpireOne(b: Box, n: nat): Box {
    if n !in b.copies then b else
      var after := Consume(b, n, Expiry(n));
      after.(records := after.records[Expiry(n) := Expired(TakenOf(b.copies[n]))])
  }

  function DueRows(index: set<IndexRow>, now: int): set<IndexRow> {
    set r | r in index && r.Expiring? && r.at <= now
  }

  /** The sequence numbers of expiry rows, earliest first. */
  function DueOrder(rows: set<IndexRow>): seq<nat>
    requires forall s :: s in rows ==> s.Expiring?
    decreases |rows|
  {
    if rows == {} then [] else
      var r := Earliest(rows);
      assert |rows - {r}| < |rows|;
      [r.n] + DueOrder(rows - {r})
  }

  function ExpireAll(b: Box, ns: seq<nat>): Box
    decreases |ns|
  {
    if ns == [] then b else ExpireAll(ExpireOne(b, ns[0]), ns[1..])
  }

  /** Turns each copy that came due into an expiry record. */
  function Expire(b: Box, now: int): Box {
    if b.row.mailbox.None? || b.row.mailbox.value > now then b
    else Refresh(ExpireAll(b, DueOrder(DueRows(b.index, now))))
  }

  // ── accepting ─────────────────────────────────────────────────────────────

  datatype Accepted = Stored(box: Box) | Repeated | Conflicting

  /** Takes in an event; a known identity is a repeat or a conflict. */
  function Accept(b: Box, e: Copy, now: int): Accepted {
    var id := Identity(e);
    if id.Some? && id.value in b.ids && b.ids[id.value] in b.copies then
      var held := b.copies[b.ids[id.value]].envelope;
      if held.Some? && held.value.payload == e.envelope.value.payload then Repeated else Conflicting
    else
      Stored(Push(Woken(b, e, now), e))
  }

  /** A copy the run wants makes it due. */
  function Woken(b: Box, e: Copy, now: int): Box {
    if Wanted(b.row, e, now) && now < b.row.wake then b.(row := b.row.(wake := now)) else b
  }

  function AcceptInto(b: Box, e: Copy, now: int): Box {
    var r := Accept(b, e, now);
    if r.Stored? then r.box else b
  }

  function DeliveredCopy(t: string, data: string, env: Envelope, now: int, keep: nat): Copy {
    Copy(t, data, now, Some(env), true, Some(R.Later(now, keep)), None)
  }

  function PublishedCopy(t: string, data: string, env: Envelope, now: int, keep: Option<nat>): Copy {
    Copy(t, data, now, Some(env), false, if keep.Some? then Some(R.Later(now, keep.value)) else None, None)
  }

  function NoticeCopy(t: string, data: string, now: int): Copy {
    Copy(t, data, now, None, false, None, None)
  }

  /** An addressed delivery; an ended run takes none, and repeats what it holds. */
  function Deliver(b: Box, t: string, data: string, env: Envelope, now: int, keep: nat): Box {
    if b.row.state.Ended? && !(env.identity.Some? && env.identity.value in b.ids) then b
    else AcceptInto(b, DeliveredCopy(t, data, env, now, keep), now)
  }

  /** A publication, addressed (kept for a time) or to the subscribers. */
  function Publish(b: Box, t: string, data: string, env: Envelope, now: int, keep: Option<nat>): Box {
    var e := PublishedCopy(t, data, env, now, keep);
    if b.row.state.Ended? || (keep.None? && !Subscribed(b.row, e)) then b else AcceptInto(b, e, now)
  }

  /** A child reports to its parent; a report of the type that still waits suffices. */
  function Notify(b: Box, t: string, data: string, now: int): Box {
    if b.row.state.Ended? || t !in b.row.awaits || t in b.row.pending then b else
      var woken := if Wakes(b.row, t, false) then b.(row := b.row.(wake := now)) else b;
      Push(woken, NoticeCopy(t, data, now))
  }

  // ── waits, listens and takes ──────────────────────────────────────────────

  predicate Named(listeners: map<string, seq<string>>, t: string) {
    exists k | k in listeners :: t in listeners[k]
  }

  /** Drops the awaits of types no listener names any more. */
  function Close(row: Row, types: seq<string>): Row {
    row.(awaits := map t | t in row.awaits && (t !in types || Named(row.listeners, t)) :: row.awaits[t],
         addressed := set t | t in row.addressed && (t !in types || Named(row.listeners, t)))
  }

  function RegisterWait(b: Box, types: seq<string>, now: int): Box {
    b.(row := b.row.(
      addressed := b.row.addressed + (set t | t in types),
      awaits := (map t | t in types :: now) + b.row.awaits))
  }

  function UnregisterWait(b: Box, k: string, types: seq<string>): Box {
    b.(row := Close(b.row.(listeners := b.row.listeners - {k}), types))
  }

  function Candidates(index: set<IndexRow>, types: seq<string>): set<nat> {
    (set r | r in index && r.ByType? && r.type_ in types :: r.n) +
    (if "*" in types then (set r | r in index && r.ByPublished? :: r.n) else {})
  }

  predicate IsLeast(m: nat, s: set<nat>) {
    m in s && forall x | x in s :: m <= x
  }

  lemma {:induction false} LeastExists(s: set<nat>)
    requires s != {}
    ensures exists m :: IsLeast(m, s)
    decreases |s|
  {
    var x :| x in s;
    var rest := s - {x};
    if rest == {} {
      assert s == {x};
      assert IsLeast(x, s);
    } else {
      LeastExists(rest);
      var m :| IsLeast(m, rest);
      var least := if x < m then x else m;
      forall y | y in s ensures least <= y {
        assert y == x || y in rest;
      }
      assert IsLeast(least, s);
    }
  }

  function Least(s: set<nat>): (m: nat)
    requires s != {}
    ensures IsLeast(m, s)
  {
    LeastExists(s);
    var m :| IsLeast(m, s); m
  }

  const DONE := "done:"
  const WAITING := "waiting:"

  /** Taking a child's last notice closes its internal listener. */
  function DropChild(listeners: map<string, seq<string>>, t: string): map<string, seq<string>> {
    if DONE <= t then listeners - {CHILD + t[|DONE|..]} else listeners
  }

  datatype Take = Took(event: Taken) | Nothing | Invalid

  function TakeCopy(b: Box, n: nat, k: string, types: seq<string>): Box
    requires n in b.copies
  {
    var e := b.copies[n];
    var dropped := b.(row := b.row.(listeners := DropChild(b.row.listeners, e.type_)));
    var consumed := Consume(dropped, n, Caller(k));
    var refreshed := if e.expires.Some? then Refresh(consumed) else consumed;
    refreshed.(row := Close(refreshed.row.(listeners := refreshed.row.listeners - {k}), types),
           records := refreshed.records[Caller(k) := Event(TakenOf(e))])
  }

  /** Takes the first pending copy of a listed type, or registers the listen. */
  function TakeOrListen(b: Box, k: string, types: seq<string>): (Box, Take) {
    var found := Candidates(b.index, types);
    if found != {} && Least(found) in b.copies then
      (TakeCopy(b, Least(found), k, types), Took(TakenOf(b.copies[Least(found)])))
    else
      (b.(row := b.row.(listeners := b.row.listeners[k := types])), Nothing)
  }

  /** A listen under key `k`: its recorded event again, or what is there once expired
      copies are consumed by their expiry records. */
  function TakeEvent(b: Box, k: string, types: seq<string>, now: int): (Box, Take) {
    if Caller(k) in b.records then
      (b, if b.records[Caller(k)].Event? then Took(b.records[Caller(k)].event) else Invalid)
    else
      TakeOrListen(Expire(b, now), k, types)
  }

  // ── children ──────────────────────────────────────────────────────────────

  /** The parent's side of starting a child. */
  function StartChild(b: Box, child: string, now: int): Box {
    b.(row := b.row.(
      awaits := map[DONE + child := now, WAITING + child := now] + b.row.awaits,
      listeners := b.row.listeners[CHILD + child := [DONE + child]]))
  }

  /** The parent's side of a child's end: told once. */
  function ChildDone(b: Box, child: string, data: string, now: int): Box {
    if DONE + child in b.types then b
    else Notify(b.(row := Close(b.row, [WAITING + child])), DONE + child, data, now)
  }

  // ── the run's own transitions ─────────────────────────────────────────────

  /** Releases the run as waiting: now, if it holds a copy it wants. */
  function FinishWaiting(b: Box, wakeAt: int, now: int): Box {
    var waiting := b.row.(state := Waiting);
    b.(row := waiting.(wake := if HasWanted(waiting, b.copies, now) then now else wakeAt))
  }

  function Terminate(b: Box): Box {
    b.(row := b.row.(state := Ended, awaits := map[], listeners := map[], subscriptions := map[], addressed := {}))
  }

  /** A validated answer to a wildcard wait is also offered to wildcard takes. */
  function OfferToWildcard(b: Box, n: nat, now: int): Box {
    if n !in b.copies || !IsPending(b.copies[n]) || !b.copies[n].delivered then b else
      var e := b.copies[n].(delivered := false);
      b.(copies := b.copies[n := e],
         index := b.index + {ByPublished(n), LivePublished(e.expires, n)},
         row := b.row.(wake := if now < b.row.wake then now else b.row.wake, published := b.row.published + 1))
  }

  /** Leaves nothing of a swept run's evidence. */
  function Forget(b: Box): Box {
    Box(b.row.(pending := map[], published := 0, mailbox := None, evidence := false), map[], map[], map[], {}, map[])
  }

  datatype Command =
    | DoDeliver(t: string, data: string, env: Envelope, keep: nat)
    | DoPublish(t: string, data: string, env: Envelope, kept: Option<nat>)
    | DoChildDone(child: string, data: string)
    | DoChildWaiting(child: string, data: string)
    | DoRegister(types: seq<string>)
    | DoUnregister(k: string, types: seq<string>)
    | DoTake(k: string, types: seq<string>)
    | DoSubscribe(k: string, types: seq<string>)
    | DoUnsubscribe(k: string)
    | DoStartChild(child: string)
    | DoClaim
    | DoRelease(wake: int)
    | DoFinishWaiting(wake: int)
    | DoTerminate
    | DoSave(k: string, content: string)
    | DoOffer(n: nat)
    | DoSweepExpired
    | DoForget

  /** One committed store operation on the run. Steps of the run's owner need it
      running; an ended run is only swept. */
  function Step(b: Box, c: Command, now: int): Box {
    match c
    case DoDeliver(t, data, env, keep) => if env.identity.None? then b else Deliver(b, t, data, env, now, keep)
    case DoPublish(t, data, env, kept) => Publish(b, t, data, env, now, kept)
    case DoChildDone(child, data) => if b.row.state.Ended? then b else ChildDone(b, child, data, now)
    case DoChildWaiting(child, data) => Notify(b, WAITING + child, data, now)
    case DoOffer(n) => if b.row.state.Ended? then b else OfferToWildcard(b, n, now)
    case DoSweepExpired => if b.row.state.Ended? then b else Expire(b, now)
    case DoForget => if b.row.state.Ended? then Forget(b) else b
    case DoTerminate => if b.row.state.Ended? then b else Terminate(b)
    case DoClaim => if b.row.state.Ended? then b else b.(row := b.row.(state := Running))
    case _ => if b.row.state.Running? then OwnerStep(b, c, now) else b
  }

  function OwnerStep(b: Box, c: Command, now: int): Box {
    match c
    case DoRegister(types) => RegisterWait(b, types, now)
    case DoUnregister(k, types) => UnregisterWait(b, k, types)
    case DoTake(k, types) => TakeEvent(b, k, types, now).0
    case DoSubscribe(k, types) => b.(row := b.row.(subscriptions := b.row.subscriptions[k := types]))
    case DoUnsubscribe(k) => b.(row := b.row.(subscriptions := b.row.subscriptions - {k}))
    case DoStartChild(child) => StartChild(b, child, now)
    case DoRelease(wake) => b.(row := b.row.(state := Ready, wake := wake))
    case DoFinishWaiting(wake) => FinishWaiting(b, wake, now)
    case DoSave(k, content) =>
      b.(records := if Caller(k) in b.records then b.records else b.records[Caller(k) := Other(content)],
         row := b.row.(evidence := true))
    case _ => b
  }
}

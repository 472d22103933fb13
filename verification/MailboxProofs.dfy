/**
 What every operation on a mailbox keeps: the counters and index rows are exactly
 those of the stored copies, identities are unique, consumed copies and their records
 correspond one to one, and a waiting run that holds a copy it wants is due.
 */
module MailboxProofs {
  import opened Options
  import opened Mailbox

  // ── the representation ────────────────────────────────────────────────────

  type Copies = map<nat, Copy>

  ghost predicate KeysOk(row: Row, copies: Copies) {
    if row.evidence then forall n: nat :: n in copies <==> n < row.accepted
    else copies == map[] && (row.accepted == 0 || row.state.Ended?)
  }

  /** What a row of each index family says about the pending copy it names. */
  ghost predicate Describes(r: IndexRow, e: Copy) {
    match r
    case ByType(t, _) => t == e.type_
    case Live(t, x, _, cloud) => t == e.type_ && x == e.expires && cloud == e.envelope.Some?
    case ByPublished(_) => IsPublished(e)
    case LivePublished(x, _) => IsPublished(e) && x == e.expires
    case Expiring(at, _) => e.expires == Some(at)
  }

  /** The index rows are exactly the true descriptions of pending copies. */
  ghost predicate IndexOk(index: set<IndexRow>, copies: Copies) {
    forall r :: r in index <==> r.n in copies && IsPending(copies[r.n]) && Describes(r, copies[r.n])
  }

  lemma PendingRowsDescribe(n: nat, e: Copy, r: IndexRow)
    ensures r in PendingRows(n, e) <==> r.n == n && Describes(r, e)
  {
  }

  ghost function PendingOf(copies: Copies, t: string): set<nat> {
    set n | n in copies && IsPending(copies[n]) && copies[n].type_ == t
  }

  ghost function CloudOf(copies: Copies, t: string): set<nat> {
    set n | n in copies && IsPending(copies[n]) && copies[n].type_ == t && copies[n].envelope.Some?
  }

  ghost function PublishedSet(copies: Copies): set<nat> {
    set n | n in copies && IsPending(copies[n]) && IsPublished(copies[n])
  }

  ghost predicate CountOk(pending: map<string, Count>, copies: Copies, t: string) {
    && (t in pending <==> PendingOf(copies, t) != {})
    && (t in pending ==> pending[t] == Count(|PendingOf(copies, t)|, |CloudOf(copies, t)|))
  }

  ghost predicate CountsOk(pending: map<string, Count>, copies: Copies) {
    forall t :: CountOk(pending, copies, t)
  }

  ghost predicate MailboxOk(mailbox: Option<int>, copies: Copies) {
    && (forall n :: n in copies && IsPending(copies[n]) && copies[n].expires.Some? ==>
          mailbox.Some? && mailbox.value <= copies[n].expires.value)
    && (mailbox.Some? ==> exists n :: n in copies && IsPending(copies[n]) && copies[n].expires == mailbox)
  }

  ghost predicate IdsOk(ids: map<string, nat>, copies: Copies) {
    && (forall i :: i in ids ==> ids[i] in copies && Identity(copies[ids[i]]) == Some(i))
    && (forall n :: n in copies && Identity(copies[n]).Some? ==>
          Identity(copies[n]).value in ids && ids[Identity(copies[n]).value] == n)
  }

  ghost predicate TypesOk(types: map<string, nat>, copies: Copies) {
    && (forall t :: t in types ==> types[t] in copies && copies[types[t]].type_ == t)
    && (forall n :: n in copies ==> copies[n].type_ in types && types[copies[n].type_] <= n)
  }

  ghost predicate IsNotice(e: Copy) {
    IsPending(e) && e.envelope.None?
  }

  /** A type has at most one pending lifecycle notice, which never expires. */
  ghost predicate NoticesOk(copies: Copies) {
    && (forall n :: n in copies && copies[n].envelope.None? ==> copies[n].expires.None? && !copies[n].delivered)
    && (forall m, n :: m in copies && n in copies && IsNotice(copies[m]) && IsNotice(copies[n]) && copies[m].type_ == copies[n].type_ ==> m == n)
  }

  /** The event is the copy's: its type, its data, when it arrived, and its envelope. */
  ghost predicate IsTaken(event: Taken, e: Copy) {
    event.type_ == e.type_ && event.data == e.data && event.at == e.deliveredAt && event.envelope == e.envelope
  }

  ghost predicate RecordOf(k: RecordKey, record: Record, n: nat, e: Copy) {
    match k
    case Caller(_) => record.Event? && IsTaken(record.event, e)
    case Expiry(m) => m == n && record.Expired? && IsTaken(record.event, e)
  }

  /** Consumed copies and event records correspond one to one. */
  ghost predicate RecordsOk(records: map<RecordKey, Record>, copies: Copies) {
    && (forall n :: n in copies && copies[n].consumed.Some? ==>
          copies[n].consumed.value in records && RecordOf(copies[n].consumed.value, records[copies[n].consumed.value], n, copies[n]))
    && (forall m, n :: m in copies && n in copies && copies[m].consumed.Some? && copies[m].consumed == copies[n].consumed ==> m == n)
    && (forall k :: k in records && !records[k].Other? ==> exists n :: n in copies && copies[n].consumed == Some(k))
    && (forall k :: k in records && k.Expiry? ==> records[k].Expired?)
  }

  /** Addressed waits are awaited, and so is the type of a pending notice that a
      listen names. */
  ghost predicate ListensOk(row: Row, copies: Copies) {
    && row.addressed <= row.awaits.Keys
    && (forall n :: n in copies && IsNotice(copies[n]) && Listens(row, copies[n].type_) ==> copies[n].type_ in row.awaits)
  }

  ghost predicate Rep(b: Box) {
    && KeysOk(b.row, b.copies)
    && IndexOk(b.index, b.copies)
    && CountsOk(b.row.pending, b.copies)
    && b.row.published == |PublishedSet(b.copies)|
    && IdsOk(b.ids, b.copies)
    && TypesOk(b.types, b.copies)
    && NoticesOk(b.copies)
    && RecordsOk(b.records, b.copies)
  }

  ghost predicate Valid(b: Box) {
    Rep(b) && MailboxOk(b.row.mailbox, b.copies) && ListensOk(b.row, b.copies)
  }

  /** A waiting run that holds a copy it wants is due. */
  ghost predicate NoLostWake(b: Box, now: int) {
    b.row.state.Waiting? && HasWanted(b.row, b.copies, now) ==> b.row.wake <= now
  }

  // ── storing a copy ────────────────────────────────────────────────────────

  lemma PushSets(copies: Copies, n: nat, e: Copy, t: string)
    requires n !in copies && IsPending(e)
    ensures PendingOf(copies[n := e], t) == if t == e.type_ then PendingOf(copies, t) + {n} else PendingOf(copies, t)
    ensures CloudOf(copies[n := e], t) == if t == e.type_ && e.envelope.Some? then CloudOf(copies, t) + {n} else CloudOf(copies, t)
    ensures n !in PendingOf(copies, t) && CloudOf(copies, t) <= PendingOf(copies, t)
  {
  }

  lemma PushCount(pending: map<string, Count>, copies: Copies, after: Copies, n: nat, e: Copy, t: string)
    requires CountOk(pending, copies, t) && n !in copies && IsPending(e) && after == copies[n := e]
    ensures CountOk(CountUp(pending, e), after, t)
  {
    PushSets(copies, n, e, t);
    var p, c := PendingOf(copies, t), CloudOf(copies, t);
    assert |p + {n}| == |p| + 1 && |c + {n}| == |c| + 1;
    assert p == {} ==> c == {};
  }

  lemma PushCounts(pending: map<string, Count>, copies: Copies, n: nat, e: Copy)
    requires CountsOk(pending, copies) && n !in copies && IsPending(e)
    ensures CountsOk(CountUp(pending, e), copies[n := e])
  {
    var after, counts := copies[n := e], CountUp(pending, e);
    forall t: string ensures CountOk(counts, after, t) {
      assert CountOk(pending, copies, t);
      PushCount(pending, copies, after, n, e, t);
    }
  }

  lemma PushPublished(copies: Copies, n: nat, e: Copy)
    requires n !in copies && IsPending(e)
    ensures |PublishedSet(copies[n := e])| == |PublishedSet(copies)| + if IsPublished(e) then 1 else 0
  {
    assert PublishedSet(copies[n := e]) == PublishedSet(copies) + if IsPublished(e) then {n} else {};
  }

  lemma PushIndex(index: set<IndexRow>, copies: Copies, n: nat, e: Copy)
    requires IndexOk(index, copies) && n !in copies && IsPending(e)
    ensures IndexOk(index + PendingRows(n, e), copies[n := e])
  {
    forall r ensures r in PendingRows(n, e) <==> r.n == n && Describes(r, e) {
      PendingRowsDescribe(n, e, r);
    }
  }

  lemma PushMailbox(mailbox: Option<int>, copies: Copies, n: nat, e: Copy)
    requires MailboxOk(mailbox, copies) && n !in copies && IsPending(e)
    ensures MailboxOk(if e.expires.Some? then Some(MinOption(mailbox, e.expires.value)) else mailbox, copies[n := e])
  {
    var after := copies[n := e];
    var m := if e.expires.Some? then Some(MinOption(mailbox, e.expires.value)) else mailbox;
    if m.Some? {
      if m == mailbox {
        var k :| k in copies && IsPending(copies[k]) && copies[k].expires == mailbox;
        assert after[k] == copies[k];
      } else {
        assert after[n].expires == m;
      }
    }
  }

  /** What a new copy must be: pending, of a new identity, and if it is a notice the
      only one of its type, awaited and never expiring. */
  ghost predicate Storable(b: Box, e: Copy) {
    && IsPending(e) && !b.row.state.Ended?
    && (Identity(e).Some? ==> Identity(e).value !in b.ids)
    && (e.envelope.None? ==> e.expires.None? && !e.delivered && e.type_ !in b.row.pending && e.type_ in b.row.awaits)
  }

  lemma PushKeys(row: Row, copies: Copies, e: Copy, after: Row)
    requires KeysOk(row, copies) && !row.state.Ended? && after.evidence && after.accepted == row.accepted + 1
    ensures row.accepted !in copies && KeysOk(after, copies[row.accepted := e])
  {
  }

  lemma PushIds(ids: map<string, nat>, copies: Copies, n: nat, e: Copy)
    requires IdsOk(ids, copies) && n !in copies && (Identity(e).Some? ==> Identity(e).value !in ids)
    ensures IdsOk(if Identity(e).Some? then ids[Identity(e).value := n] else ids, copies[n := e])
  {
  }

  lemma PushTypes(types: map<string, nat>, copies: Copies, n: nat, e: Copy)
    requires TypesOk(types, copies) && n !in copies && forall m :: m in copies ==> m < n
    ensures TypesOk(if e.type_ in types then types else types[e.type_ := n], copies[n := e])
  {
    if e.type_ in types {
      assert types[e.type_] in copies;
    }
  }

  lemma PushNotices(pending: map<string, Count>, copies: Copies, n: nat, e: Copy)
    requires NoticesOk(copies) && n !in copies && CountOk(pending, copies, e.type_)
    requires e.envelope.None? ==> e.expires.None? && !e.delivered && e.type_ !in pending
    ensures NoticesOk(copies[n := e])
  {
    if e.envelope.None? {
      forall m | m in copies && IsNotice(copies[m]) ensures copies[m].type_ != e.type_ {
        assert m !in PendingOf(copies, e.type_);
      }
    }
  }

  lemma PushRecords(records: map<RecordKey, Record>, copies: Copies, n: nat, e: Copy)
    requires RecordsOk(records, copies) && n !in copies && IsPending(e)
    ensures RecordsOk(records, copies[n := e])
  {
    var after := copies[n := e];
    forall k | k in records && !records[k].Other? ensures exists m :: m in after && after[m].consumed == Some(k) {
      var m :| m in copies && copies[m].consumed == Some(k);
      assert after[m] == copies[m];
    }
  }

  lemma PushKeeps(b: Box, e: Copy)
    requires Valid(b) && Storable(b, e)
    ensures Valid(Push(b, e))
  {
    var n, after := b.row.accepted, Push(b, e);
    PushNumbers(b, e, after);
    PushEvidence(b, e, after);
    PushKeys(b.row, b.copies, e, after.row);
    PushListens(b.row, after.row, b.copies, n, e);
  }

  lemma PushNumbers(b: Box, e: Copy, after: Box)
    requires Valid(b) && Storable(b, e) && after == Push(b, e)
    ensures IndexOk(after.index, after.copies) && CountsOk(after.row.pending, after.copies)
    ensures after.row.published == |PublishedSet(after.copies)| && MailboxOk(after.row.mailbox, after.copies)
  {
    var n := b.row.accepted;
    PushKeys(b.row, b.copies, e, after.row);
    PushIndex(b.index, b.copies, n, e);
    PushCounts(b.row.pending, b.copies, n, e);
    PushPublished(b.copies, n, e);
    PushMailbox(b.row.mailbox, b.copies, n, e);
  }

  lemma PushEvidence(b: Box, e: Copy, after: Box)
    requires Valid(b) && Storable(b, e) && after == Push(b, e)
    ensures IdsOk(after.ids, after.copies) && TypesOk(after.types, after.copies)
    ensures NoticesOk(after.copies) && RecordsOk(after.records, after.copies)
  {
    var n := b.row.accepted;
    PushKeys(b.row, b.copies, e, after.row);
    PushIds(b.ids, b.copies, n, e);
    PushTypes(b.types, b.copies, n, e);
    PushNotices(b.row.pending, b.copies, n, e);
    PushRecords(b.records, b.copies, n, e);
  }

  lemma PushListens(row: Row, after: Row, copies: Copies, n: nat, e: Copy)
    requires ListensOk(row, copies) && n !in copies && (e.envelope.None? ==> e.type_ in row.awaits)
    requires after.awaits == row.awaits && after.addressed == row.addressed && after.listeners == row.listeners
    ensures ListensOk(after, copies[n := e])
  {
  }

  // ── consuming a copy ──────────────────────────────────────────────────────

  ghost function Used(copies: Copies, n: nat, k: RecordKey): Copies
    requires n in copies
  {
    copies[n := copies[n].(consumed := Some(k))]
  }

  lemma ConsumeSets(copies: Copies, n: nat, k: RecordKey, t: string)
    requires n in copies && IsPending(copies[n])
    ensures var e, after := copies[n], Used(copies, n, k);
            && PendingOf(after, t) == (if t == e.type_ then PendingOf(copies, t) - {n} else PendingOf(copies, t))
            && CloudOf(after, t) == (if t == e.type_ && e.envelope.Some? then CloudOf(copies, t) - {n} else CloudOf(copies, t))
            && (t == e.type_ ==> n in PendingOf(copies, t) && (e.envelope.Some? ==> n in CloudOf(copies, t)))
  {
  }

  lemma ConsumeCount(pending: map<string, Count>, copies: Copies, after: Copies, n: nat, k: RecordKey, t: string)
    requires CountOk(pending, copies, t) && n in copies && IsPending(copies[n]) && after == Used(copies, n, k)
    ensures CountOk(CountDown(pending, copies[n]), after, t)
  {
    ConsumeSets(copies, n, k, t);
    var p, c := PendingOf(copies, t), CloudOf(copies, t);
    assert n in p ==> |p - {n}| == |p| - 1;
    assert n in c ==> |c - {n}| == |c| - 1;
  }

  lemma ConsumeCounts(pending: map<string, Count>, copies: Copies, n: nat, k: RecordKey)
    requires CountsOk(pending, copies) && n in copies && IsPending(copies[n])
    ensures CountsOk(CountDown(pending, copies[n]), Used(copies, n, k))
  {
    var after, counts := Used(copies, n, k), CountDown(pending, copies[n]);
    forall t: string ensures CountOk(counts, after, t) {
      assert CountOk(pending, copies, t);
      ConsumeCount(pending, copies, after, n, k, t);
    }
  }

  lemma ConsumePublished(copies: Copies, n: nat, k: RecordKey)
    requires n in copies && IsPending(copies[n])
    ensures IsPublished(copies[n]) ==> |PublishedSet(copies)| > 0
    ensures |PublishedSet(Used(copies, n, k))| == |PublishedSet(copies)| - if IsPublished(copies[n]) then 1 else 0
  {
    assert PublishedSet(Used(copies, n, k)) == PublishedSet(copies) - if IsPublished(copies[n]) then {n} else {};
    assert IsPublished(copies[n]) ==> n in PublishedSet(copies);
  }

  lemma ConsumeIndex(index: set<IndexRow>, copies: Copies, n: nat, k: RecordKey)
    requires IndexOk(index, copies) && n in copies && IsPending(copies[n])
    ensures IndexOk(index - PendingRows(n, copies[n]), Used(copies, n, k))
  {
    forall r ensures r in PendingRows(n, copies[n]) <==> r.n == n && Describes(r, copies[n]) {
      PendingRowsDescribe(n, copies[n], r);
    }
  }

  lemma ConsumeIds(ids: map<string, nat>, copies: Copies, n: nat, k: RecordKey)
    requires IdsOk(ids, copies) && n in copies
    ensures IdsOk(ids, Used(copies, n, k))
  {
  }

  lemma ConsumeTypes(types: map<string, nat>, copies: Copies, n: nat, k: RecordKey)
    requires TypesOk(types, copies) && n in copies
    ensures TypesOk(types, Used(copies, n, k))
  {
  }

  lemma ConsumeNotices(copies: Copies, n: nat, k: RecordKey)
    requires NoticesOk(copies) && n in copies
    ensures NoticesOk(Used(copies, n, k))
  {
  }

  lemma ConsumeRecords(records: map<RecordKey, Record>, copies: Copies, n: nat, k: RecordKey, record: Record)
    requires RecordsOk(records, copies) && n in copies && IsPending(copies[n])
    requires RecordOf(k, record, n, copies[n]) && k !in records
    ensures RecordsOk(records[k := record], Used(copies, n, k))
  {
    var after := Used(copies, n, k);
    forall q | q in records[k := record] && !records[k := record][q].Other?
      ensures exists m :: m in after && after[m].consumed == Some(q)
    {
      if q == k {
        assert after[n].consumed == Some(q);
      } else {
        var m :| m in copies && copies[m].consumed == Some(q);
        assert after[m] == copies[m];
      }
    }
  }

  /** The record key of a pending copy's expiry is unused. */
  lemma ExpiryKeyFree(records: map<RecordKey, Record>, copies: Copies, n: nat)
    requires RecordsOk(records, copies) && n in copies && IsPending(copies[n])
    ensures Expiry(n) !in records
  {
    assert forall m :: m in copies && copies[m].consumed == Some(Expiry(n)) ==> RecordOf(Expiry(n), records[Expiry(n)], m, copies[m]);
  }

  /** A consumed copy with its record: everything but `mailbox` is right again. */
  lemma ConsumeNumbers(b: Box, n: nat, k: RecordKey, after: Box)
    requires Rep(b) && n in b.copies && IsPending(b.copies[n]) && after.copies == Used(b.copies, n, k)
    requires after.index == b.index - PendingRows(n, b.copies[n])
    requires after.row.pending == CountDown(b.row.pending, b.copies[n])
    requires after.row.published == if IsPublished(b.copies[n]) then Less1(b.row.published) else b.row.published
    ensures IndexOk(after.index, after.copies) && CountsOk(after.row.pending, after.copies)
    ensures after.row.published == |PublishedSet(after.copies)|
  {
    ConsumeCounts(b.row.pending, b.copies, n, k);
    ConsumePublished(b.copies, n, k);
    ConsumeIndex(b.index, b.copies, n, k);
  }

  lemma ConsumeEvidence(b: Box, n: nat, k: RecordKey, record: Record, after: Box)
    requires Rep(b) && n in b.copies && IsPending(b.copies[n]) && after.copies == Used(b.copies, n, k)
    requires RecordOf(k, record, n, b.copies[n]) && k !in b.records
    requires after.ids == b.ids && after.types == b.types && after.records == b.records[k := record]
    ensures IdsOk(after.ids, after.copies) && TypesOk(after.types, after.copies)
    ensures NoticesOk(after.copies) && RecordsOk(after.records, after.copies)
  {
    ConsumeIds(b.ids, b.copies, n, k);
    ConsumeTypes(b.types, b.copies, n, k);
    ConsumeNotices(b.copies, n, k);
    ConsumeRecords(b.records, b.copies, n, k, record);
  }

  lemma ConsumeKeeps(b: Box, n: nat, k: RecordKey, record: Record, after: Box)
    requires Rep(b) && n in b.copies && IsPending(b.copies[n])
    requires RecordOf(k, record, n, b.copies[n]) && k !in b.records
    requires after.copies == Used(b.copies, n, k) && after.ids == b.ids && after.types == b.types
    requires after.index == b.index - PendingRows(n, b.copies[n]) && after.records == b.records[k := record]
    requires after.row.pending == CountDown(b.row.pending, b.copies[n])
    requires after.row.published == if IsPublished(b.copies[n]) then Less1(b.row.published) else b.row.published
    requires after.row.evidence == b.row.evidence && after.row.accepted == b.row.accepted && after.row.state == b.row.state
    ensures Rep(after)
  {
    ConsumeKeys(b.row, after.row, b.copies, n, k);
    ConsumeNumbers(b, n, k, after);
    ConsumeEvidence(b, n, k, record, after);
  }

  /** Consuming a copy that never expires leaves the earliest expiry alone. */
  lemma ConsumeMailbox(mailbox: Option<int>, copies: Copies, n: nat, k: RecordKey)
    requires MailboxOk(mailbox, copies) && n in copies && copies[n].expires.None?
    ensures MailboxOk(mailbox, Used(copies, n, k))
  {
    if mailbox.Some? {
      var m :| m in copies && IsPending(copies[m]) && copies[m].expires == mailbox;
      assert Used(copies, n, k)[m] == copies[m];
    }
  }

  lemma ExpiryRow(index: set<IndexRow>, copies: Copies, at: int, n: nat)
    requires IndexOk(index, copies)
    ensures Expiring(at, n) in index <==> n in copies && IsPending(copies[n]) && copies[n].expires == Some(at)
  {
    assert Expiring(at, n) in index <==>
           Expiring(at, n).n in copies && IsPending(copies[n]) && Describes(Expiring(at, n), copies[n]);
  }

  lemma RefreshRight(b: Box)
    requires IndexOk(b.index, b.copies)
    ensures MailboxOk(Refresh(b).row.mailbox, b.copies)
  {
    var rows := ExpiryRows(b.index);
    forall n | n in b.copies && IsPending(b.copies[n]) && b.copies[n].expires.Some?
      ensures Expiring(b.copies[n].expires.value, n) in rows
    {
      ExpiryRow(b.index, b.copies, b.copies[n].expires.value, n);
    }
    if rows != {} {
      var r := Earliest(rows);
      ExpiryRow(b.index, b.copies, r.at, r.n);
    }
  }

  lemma ListensShrink(row: Row, now: Row, copies: Copies, after: Copies)
    requires ListensOk(row, copies)
    requires now.awaits == row.awaits && now.addressed == row.addressed && now.listeners == row.listeners
    requires forall n :: n in after && IsNotice(after[n]) ==> n in copies && IsNotice(copies[n]) && copies[n].type_ == after[n].type_
    ensures ListensOk(now, after)
  {
  }

  lemma ConsumeKeys(row: Row, now: Row, copies: Copies, n: nat, k: RecordKey)
    requires KeysOk(row, copies) && n in copies
    requires now.evidence == row.evidence && now.accepted == row.accepted && now.state == row.state
    ensures KeysOk(now, Used(copies, n, k))
  {
  }

  // ── expiry ────────────────────────────────────────────────────────────────

  lemma ListensExpired(row: Row, now: Row, copies: Copies, after: Copies, ns: seq<nat>)
    requires ListensOk(row, copies) && ExpiredAt(copies, after, ns)
    requires now.awaits == row.awaits && now.addressed == row.addressed && now.listeners == row.listeners
    ensures ListensOk(now, after)
  {
    ListensShrink(row, now, copies, after);
  }

  ghost predicate Expirable(b: Box, n: nat) {
    n in b.copies && IsPending(b.copies[n]) && b.copies[n].expires.Some?
  }

  /** The copies after those at `ns` expired. */
  ghost predicate ExpiredAt(copies: Copies, after: Copies, ns: seq<nat>) {
    after.Keys == copies.Keys &&
    forall n :: n in copies ==> after[n] == if n in ns then copies[n].(consumed := Some(Expiry(n))) else copies[n]
  }

  lemma ExpireOneKeeps(b: Box, n: nat, after: Box)
    requires Rep(b) && Expirable(b, n) && after == ExpireOne(b, n)
    ensures Rep(after)
  {
    ExpiryKeyFree(b.records, b.copies, n);
    ConsumeKeeps(b, n, Expiry(n), Expired(TakenOf(b.copies[n])), after);
  }

  lemma StaysExpirable(b: Box, m: nat, n: nat)
    requires Expirable(b, n) && m != n
    ensures Expirable(ExpireOne(b, m), n)
  {
  }

  lemma {:induction false} ExpireAllKeeps(b: Box, ns: seq<nat>)
    requires Rep(b) && forall n :: n in ns ==> Expirable(b, n)
    requires forall i, j :: 0 <= i < j < |ns| ==> ns[i] != ns[j]
    ensures Rep(ExpireAll(b, ns))
    decreases |ns|
  {
    if ns != [] {
      var b1 := ExpireOne(b, ns[0]);
      ExpireOneKeeps(b, ns[0], b1);
      forall n | n in ns[1..] ensures Expirable(b1, n) {
        assert n in ns && n != ns[0];
        StaysExpirable(b, ns[0], n);
      }
      ExpireAllKeeps(b1, ns[1..]);
    }
  }

  /** Expiring changes the copies at `ns`, their counters and the expiry records. */
  lemma {:induction false} ExpireAllFrame(b: Box, ns: seq<nat>)
    requires forall n :: n in ns ==> n in b.copies
    requires forall i, j :: 0 <= i < j < |ns| ==> ns[i] != ns[j]
    ensures ExpiredAt(b.copies, ExpireAll(b, ns).copies, ns)
    ensures ExpireAll(b, ns).row == b.row.(pending := ExpireAll(b, ns).row.pending, published := ExpireAll(b, ns).row.published)
    ensures forall k: RecordKey :: k.Caller? ==> (k in ExpireAll(b, ns).records <==> k in b.records)
    decreases |ns|
  {
    if ns != [] {
      var b1 := ExpireOne(b, ns[0]);
      assert forall n :: n in ns[1..] ==> n in ns && n != ns[0];
      ExpireAllFrame(b1, ns[1..]);
      assert forall n :: n in ns <==> n == ns[0] || n in ns[1..];
    }
  }

  lemma {:induction false} DueOrderLists(rows: set<IndexRow>)
    requires forall r :: r in rows ==> r.Expiring?
    requires forall r, s :: r in rows && s in rows && r.n == s.n ==> r == s
    ensures forall n :: n in DueOrder(rows) <==> exists r :: r in rows && r.n == n
    ensures forall i, j :: 0 <= i < j < |DueOrder(rows)| ==> DueOrder(rows)[i] != DueOrder(rows)[j]
    decreases |rows|
  {
    if rows != {} {
      var first := Earliest(rows);
      var rest := rows - {first};
      assert |rest| < |rows|;
      DueOrderLists(rest);
      forall n ensures n in DueOrder(rows) <==> exists r :: r in rows && r.n == n {
        if r :| r in rows && r.n == n {
          assert r == first || r in rest;
        }
      }
      forall j | 0 <= j < |DueOrder(rest)| ensures DueOrder(rest)[j] != first.n {
        assert DueOrder(rest)[j] in DueOrder(rest);
        var r :| r in rest && r.n == DueOrder(rest)[j];
      }
    }
  }

  /** Expiry consumes exactly the pending copies whose time is over. */
  ghost predicate ExpiryDone(copies: Copies, after: Copies, now: int) {
    after.Keys == copies.Keys &&
    forall n :: n in copies ==>
      after[n] == if IsPending(copies[n]) && IsExpired(copies[n], now) then copies[n].(consumed := Some(Expiry(n))) else copies[n]
  }

  lemma DueNumbers(index: set<IndexRow>, copies: Copies, now: int)
    requires IndexOk(index, copies)
    ensures var ns := DueOrder(DueRows(index, now));
            && (forall n :: n in ns <==> n in copies && IsPending(copies[n]) && IsExpired(copies[n], now))
            && (forall i, j :: 0 <= i < j < |ns| ==> ns[i] != ns[j])
  {
    var rows := DueRows(index, now);
    forall r | r in rows ensures r.n in copies && IsPending(copies[r.n]) && copies[r.n].expires == Some(r.at) {
      ExpiryRow(index, copies, r.at, r.n);
    }
    forall n | n in copies && IsPending(copies[n]) && IsExpired(copies[n], now)
      ensures Expiring(copies[n].expires.value, n) in rows
    {
      ExpiryRow(index, copies, copies[n].expires.value, n);
    }
    DueOrderLists(rows);
  }

  lemma ExpireKeeps(b: Box, now: int)
    requires Valid(b)
    ensures Valid(Expire(b, now))
  {
    if b.row.mailbox.Some? && b.row.mailbox.value <= now {
      var ns := DueOrder(DueRows(b.index, now));
      DueNumbers(b.index, b.copies, now);
      ExpireListed(b, ns, Expire(b, now));
    }
  }

  lemma ExpireListed(b: Box, ns: seq<nat>, after: Box)
    requires Rep(b) && ListensOk(b.row, b.copies)
    requires forall n :: n in ns ==> n in b.copies && IsPending(b.copies[n]) && b.copies[n].expires.Some?
    requires forall i, j :: 0 <= i < j < |ns| ==> ns[i] != ns[j]
    requires after == Refresh(ExpireAll(b, ns))
    ensures Valid(after)
  {
    forall n | n in ns ensures Expirable(b, n) {
    }
    ExpireAllKeeps(b, ns);
    ExpireAllFrame(b, ns);
    ExpiredValid(b, ExpireAll(b, ns), after, ns);
  }

  /** Expiry changes the expired copies, their records and counters, and no more. */
  lemma ExpireFrame(b: Box, now: int)
    requires IndexOk(b.index, b.copies) && MailboxOk(b.row.mailbox, b.copies)
    ensures ExpiryDone(b.copies, Expire(b, now).copies, now)
    ensures forall k: RecordKey :: k.Caller? ==> (k in Expire(b, now).records <==> k in b.records)
    ensures var row := Expire(b, now).row;
            row == b.row.(pending := row.pending, published := row.published, mailbox := row.mailbox)
  {
    if b.row.mailbox.Some? && b.row.mailbox.value <= now {
      var ns := DueOrder(DueRows(b.index, now));
      DueNumbers(b.index, b.copies, now);
      ExpireAllFrame(b, ns);
    }
  }

  lemma ExpiredValid(b: Box, all: Box, after: Box, ns: seq<nat>)
    requires Rep(all) && after == Refresh(all) && ListensOk(b.row, b.copies)
    requires ExpiredAt(b.copies, all.copies, ns)
    requires all.row == b.row.(pending := all.row.pending, published := all.row.published)
    ensures Valid(after)
  {
    RefreshRight(all);
    ListensExpired(b.row, after.row, b.copies, all.copies, ns);
    RepAgain(all, after);
  }

  /** `Rep` does not read `mailbox`, the wake-up or the registrations. */
  lemma RepAgain(b: Box, after: Box)
    requires Rep(b) && after == b.(row := after.row)
    requires after.row.pending == b.row.pending && after.row.published == b.row.published
    requires after.row.evidence == b.row.evidence && after.row.accepted == b.row.accepted
    requires b.row.state.Ended? ==> after.row.state.Ended?
    ensures Rep(after)
  {
  }
}

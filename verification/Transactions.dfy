/**
 Optimistic transactions over an ordered, versioned row map, and the retry loop of
 the store. A transaction reads points and limited ranges through its own writes;
 its commit validates every version it observed. Calls of any number of clients
 interleave at every single read, and each call is retried on a conflict.
 */
module Transactions {
  import opened Options
  import opened Order

  /** A row version. Versions are never issued twice: a version is the position of
      the row's value in the log of all values ever written. */
  type Version = nat
  type Rows<V> = map<Key, V>
  type Versioned<V> = map<Key, (Version, V)>
  type Writes<V> = map<Key, Option<V>>

  datatype Range = Range(kind: string, start: string, end: Option<string>)
  datatype RangeRead = RangeRead(range: Range, limit: nat, versions: map<Key, Version>)
  datatype Tx<V> = Tx(points: map<Key, Option<(Version, V)>>, scans: seq<RangeRead>, writes: Writes<V>)

  // ── ranges ────────────────────────────────────────────────────────────────

  /** What a range means: one kind, ids in `[start, end)`. */
  predicate InRange(k: Key, r: Range) {
    k.0 == r.kind && !Less(k.1, r.start) && (r.end.Some? ==> Less(k.1, r.end.value))
  }

  /** The exclusive bound the ordered map is given: an open range ends at the
      successor of its kind. */
  function Upper(r: Range): Key {
    if r.end.Some? then (r.kind, r.end.value) else (r.kind + ['\0'], "")
  }

  predicate Between(k: Key, r: Range) {
    !KeyLess(k, (r.kind, r.start)) && KeyLess(k, Upper(r))
  }

  /** Nothing sorts between a string and its extension by the least character. */
  lemma {:induction false} NoneBetween(a: string, b: string)
    ensures Less(b, a + ['\0']) <==> b == a || Less(b, a)
    decreases |a|
  {
    if a == [] {
      if b != [] {
        assert Less(b, ['\0']) <==> b[0] < '\0' || (b[0] == '\0' && Less(b[1..], []));
      }
    } else if b != [] {
      var next := a + ['\0'];
      assert next[0] == a[0] && next[1..] == a[1..] + ['\0'];
      NoneBetween(a[1..], b[1..]);
      assert b[0] == a[0] && b[1..] == a[1..] ==> b == [b[0]] + b[1..] == [a[0]] + a[1..] == a;
    }
  }

  /** The bounds given to the ordered map select exactly the range. */
  lemma BetweenIsInRange(k: Key, r: Range)
    ensures Between(k, r) <==> InRange(k, r)
  {
    LessIrreflexive(r.kind);
    NoneBetween(r.kind, k.0);
    LessConnected(k.0, r.kind);
    if Less(r.kind, k.0) && Less(k.0, r.kind) {
      LessTransitive(r.kind, k.0, r.kind);
    }
  }

  function KeysIn(keys: set<Key>, r: Range): (s: set<Key>) {
    set k | k in keys && Between(k, r)
  }

  /** `found` is the limited range: the first `limit` rows of the range. */
  predicate IsScan<V(==)>(found: Rows<V>, rows: Rows<V>, r: Range, limit: nat) {
    IsFirst(found.Keys, KeysIn(rows.Keys, r), limit) && IsPart(found, rows)
  }

  predicate IsPart<V(==)>(found: Rows<V>, rows: Rows<V>) {
    forall k :: k in found ==> k in rows && found[k] == rows[k]
  }

  // ── one transaction ───────────────────────────────────────────────────────

  function Values<V>(rows: Versioned<V>): Rows<V> {
    map k | k in rows :: rows[k].1
  }

  /** The rows written, without the deletions. */
  function PutRows<V>(writes: Writes<V>): Rows<V> {
    map k | k in writes && writes[k].Some? :: writes[k].value
  }

  /** The rows as the transaction sees them: its writes over the base. */
  function Overlay<V>(base: Rows<V>, writes: Writes<V>): (view: Rows<V>) {
    (base - writes.Keys) + PutRows(writes)
  }

  function Lookup<K, V>(rows: map<K, V>, k: K): Option<V> {
    if k in rows then Some(rows[k]) else None
  }

  function ReadOf<V>(read: Option<(Version, V)>): Option<V> {
    if read.Some? then Some(read.value.1) else None
  }

  function VersionOf<V>(read: Option<(Version, V)>): Option<Version> {
    if read.Some? then Some(read.value.0) else None
  }

  /** The read a point lookup leaves behind (the first one is kept). */
  function Observe<V>(rows: Versioned<V>, tx: Tx<V>, k: Key): (t: Tx<V>) {
    if k in tx.writes || k in tx.points then tx else tx.(points := tx.points[k := Lookup(rows, k)])
  }

  function GetAnswer<V>(rows: Versioned<V>, tx: Tx<V>, k: Key): Option<V> {
    if k in tx.writes then tx.writes[k] else ReadOf(Observe(rows, tx, k).points[k])
  }

  predicate EmptyRange(r: Range) {
    r.end.Some? && !Less(r.start, r.end.value)
  }

  /** The writes that fall in a range. */
  function WritesIn<V>(writes: Writes<V>, r: Range): Writes<V> {
    map k | k in writes && InRange(k, r) :: writes[k]
  }

  /** How many base rows a scan reads: every write may hide one. */
  function ReadLimit<V>(writes: Writes<V>, limit: nat): nat {
    limit + |writes|
  }

  /** What a scan answers: `limit + |writes|` base rows are read, the writes are
      laid over them, and the first `limit` rows of the result are returned. */
  predicate ScanAnswers<V(==)>(answer: Rows<V>, read: Rows<V>, writes: Writes<V>, r: Range, limit: nat) {
    if limit == 0 || EmptyRange(r) then answer == map[] else
      var merged := Overlay(read, WritesIn(writes, r));
      IsFirst(answer.Keys, merged.Keys, limit) && IsPart(answer, merged)
  }

  // ── the limited scan is exact ─────────────────────────────────────────────

  /** Overwriting or deleting at most `extra` of `limit + extra` leading keys and
      inserting others leaves the first `limit` keys of the whole merge among what
      was read. */
  lemma MergedPrefix(base: set<Key>, written: set<Key>, puts: set<Key>, limit: nat, extra: nat, read: set<Key>, f: set<Key>)
    requires |written| <= extra && puts <= written
    requires IsFirst(read, base, limit + extra)
    requires IsFirst(f, (read - written) + puts, limit)
    ensures IsFirst(f, (base - written) + puts, limit)
  {
    var kept, part, whole := read - written, (read - written) + puts, (base - written) + puts;
    if read != base {
      assert |read| == limit + extra by {
        if |read| == |base| {
          SubsetOfSameSize(read, base);
        }
      }
      assert |kept| >= limit by {
        assert read == kept + (read * written);
        SubsetSize(read * written, written);
      }
      SubsetSize(kept, part);
      SubsetSize(part, whole);
      forall a, b | a in f && b in whole - f ensures KeyLess(a, b) {
        if b !in part {
          assert b in base - read;
          if !KeyLess(a, b) {
            PrefixTooLong(kept, f, part, a, b);
          }
        }
      }
    }
  }

  /** A segment that reaches past `b` holds every kept key below `b`. */
  lemma PrefixTooLong(kept: set<Key>, f: set<Key>, part: set<Key>, a: Key, b: Key)
    requires kept <= part && a in f && f <= part && b !in part
    requires !KeyLess(a, b)
    requires forall x :: x in kept ==> KeyLess(x, b)
    requires forall x, y :: x in f && y in part - f ==> KeyLess(x, y)
    ensures |f| > |kept|
  {
    KeyOrder();
    assert KeyLess(b, a);
    forall x | x in kept ensures x in f - {a} {
      assert KeyLess(x, b) && KeyLess(x, a);
    }
    SubsetSize(kept, f - {a});
  }

  lemma OverlayKeys<V>(base: Rows<V>, writes: Writes<V>)
    ensures Overlay(base, writes).Keys == (base.Keys - writes.Keys) + PutRows(writes).Keys
  {
  }

  lemma WritesInRange<V>(writes: Writes<V>, r: Range)
    ensures WritesIn(writes, r).Keys == KeysIn(writes.Keys, r)
    ensures PutRows(WritesIn(writes, r)).Keys == KeysIn(PutRows(writes).Keys, r)
  {
    forall k ensures Between(k, r) <==> InRange(k, r) {
      BetweenIsInRange(k, r);
    }
  }

  lemma MergedKeys<V>(rows: Rows<V>, writes: Writes<V>, r: Range)
    ensures KeysIn(Overlay(rows, writes).Keys, r)
         == (KeysIn(rows.Keys, r) - KeysIn(writes.Keys, r)) + KeysIn(PutRows(writes).Keys, r)
  {
    OverlayKeys(rows, writes);
  }

  /** Reading `limit + |writes|` base rows and overlaying the writes yields the first
      `limit` rows of the fully merged range, whatever the writes are. */
  lemma LimitedScanIsExact<V>(rows: Rows<V>, writes: Writes<V>, r: Range, limit: nat, read: Rows<V>, answer: Rows<V>)
    requires limit != 0 && !EmptyRange(r) ==> IsScan(read, rows, r, limit + |writes|)
    requires ScanAnswers(answer, read, writes, r, limit)
    ensures IsScan(answer, Overlay(rows, writes), r, limit)
  {
    if limit == 0 || EmptyRange(r) {
      NothingToScan(Overlay(rows, writes), r, limit);
    } else {
      ScanKeys(rows, writes, r, limit, read, answer);
      MergedValues(rows, writes, r, read);
    }
  }

  lemma ScanKeys<V>(rows: Rows<V>, writes: Writes<V>, r: Range, limit: nat, read: Rows<V>, answer: Rows<V>)
    requires IsScan(read, rows, r, limit + |writes|)
    requires IsFirst(answer.Keys, Overlay(read, WritesIn(writes, r)).Keys, limit)
    ensures IsFirst(answer.Keys, KeysIn(Overlay(rows, writes).Keys, r), limit)
  {
    var inside := WritesIn(writes, r);
    MergedKeys(rows, writes, r);
    OverlayKeys(read, inside);
    WritesInRange(writes, r);
    SubsetSize(inside.Keys, writes.Keys);
    MergedPrefix(KeysIn(rows.Keys, r), inside.Keys, PutRows(inside).Keys, limit, |writes|, read.Keys, answer.Keys);
  }

  lemma NothingToScan<V>(rows: Rows<V>, r: Range, limit: nat)
    requires limit == 0 || EmptyRange(r)
    ensures IsScan(map[], rows, r, limit)
  {
    if limit != 0 {
      forall k | k in rows.Keys ensures !Between(k, r) {
        BetweenIsInRange(k, r);
        EmptyRangeHasNoKey(k, r);
      }
      assert KeysIn(rows.Keys, r) == {};
    }
  }

  lemma MergedValues<V>(rows: Rows<V>, writes: Writes<V>, r: Range, read: Rows<V>)
    requires read.Keys <= KeysIn(rows.Keys, r) && IsPart(read, rows)
    ensures IsPart(Overlay(read, WritesIn(writes, r)), Overlay(rows, writes))
  {
    WritesInRange(writes, r);
    assert forall k :: k in KeysIn(rows.Keys, r) && k in writes ==> k in KeysIn(writes.Keys, r);
  }

  /** A limited range has one answer. */
  lemma ScanUnique<V>(a: Rows<V>, b: Rows<V>, rows: Rows<V>, r: Range, limit: nat)
    requires IsScan(a, rows, r, limit) && IsScan(b, rows, r, limit)
    ensures a == b
  {
    FirstUnique(a.Keys, b.Keys, KeysIn(rows.Keys, r), limit);
  }

  lemma EmptyRangeHasNoKey(k: Key, r: Range)
    requires EmptyRange(r)
    ensures !InRange(k, r)
  {
    LessConnected(r.start, r.end.value);
    LessConnected(k.1, r.start);
    if Less(k.1, r.end.value) && Less(r.end.value, r.start) {
      LessTransitive(k.1, r.end.value, r.start);
    }
  }
}

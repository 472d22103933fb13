/**
 Bounded pages: the due runs of a worker merged from one bounded page per compatible
 version, and a listing followed page by page through its cursors.
 */
module Pages {
  import opened Options
  import opened Order
  import K = Keys
  import R = Runs
  import I = RunIndex
  import S = RunSafety

  // ── first rows of a union ─────────────────────────────────────────────────

  lemma FirstOfUnionSize(r: set<Key>, a: set<Key>, b: set<Key>, first: set<Key>, n: nat)
    requires IsFirst(first, a, n) && IsFirst(r, first + b, n)
    ensures r <= a + b && |r| == (if n < |a + b| then n else |a + b|)
  {
    if |a| <= n {
      SubsetOfSameSize(first, a);
    } else {
      SubsetSize(first, first + b);
      SubsetSize(a, a + b);
    }
  }

  /** A row outside a full first segment leaves another of the segment out. */
  lemma SomeLeftOut(r: set<Key>, first: set<Key>, x: Key)
    requires |r| == |first| && x in r && x !in first
    ensures exists p :: p in first && p !in r
  {
    if first <= r {
      SubsetOfSameSize(first, r);
      assert false;
    }
  }

  lemma FirstOfUnionOrder(r: set<Key>, a: set<Key>, b: set<Key>, first: set<Key>, n: nat, x: Key, y: Key)
    requires IsFirst(first, a, n) && IsFirst(r, first + b, n) && x in r && y in (a + b) - r
    ensures KeyLess(x, y)
  {
    if y !in first + b {
      assert y in a - first;
      if x !in first {
        SubsetSize(first, first + b);
        if |a| <= n {
          SubsetOfSameSize(first, a);
        }
        SomeLeftOut(r, first, x);
        var p :| p in first && p !in r;
        assert p in (first + b) - r;
        KeyTransitive(x, p, y);
      }
    }
  }

  /** The first rows of a union are those of the union with one part cut to its first. */
  lemma FirstOfUnion(r: set<Key>, a: set<Key>, b: set<Key>, first: set<Key>, n: nat)
    requires IsFirst(first, a, n) && IsFirst(r, first + b, n)
    ensures IsFirst(r, a + b, n)
  {
    FirstOfUnionSize(r, a, b, first, n);
    forall x, y | x in r && y in (a + b) - r ensures KeyLess(x, y) {
      FirstOfUnionOrder(r, a, b, first, n, x, y);
    }
  }

  /** Whatever else they are merged with, the rows of `part` give the same first rows as
      those of `full`. */
  ghost predicate Covers(part: set<Key>, full: set<Key>, n: nat) {
    forall r, rest :: IsFirst(r, part + rest, n) ==> IsFirst(r, full + rest, n)
  }

  lemma CoversMore(part: set<Key>, full: set<Key>, page: set<Key>, more: set<Key>, n: nat)
    requires Covers(part, full, n) && IsFirst(page, more, n)
    ensures Covers(part + page, full + more, n)
  {
    forall r, rest | IsFirst(r, (part + page) + rest, n) ensures IsFirst(r, (full + more) + rest, n) {
      assert (part + page) + rest == part + (page + rest);
      assert IsFirst(r, full + (page + rest), n);
      assert full + (page + rest) == page + (full + rest);
      FirstOfUnion(r, more, full + rest, page, n);
      assert more + (full + rest) == (full + more) + rest;
    }
  }

  // ── due runs ──────────────────────────────────────────────────────────────

  predicate AtInstants(index: I.Index) {
    forall k | k in index :: (k.Due? || k.DueApp?) ==> K.IsInstant(k.at)
  }

  /** The keys of a version's due index below the end of the range at `now`. */
  function DueOf(index: I.Index, version: string, now: int): set<Key>
    requires AtInstants(index) && K.IsInstant(now)
  {
    set k | k in index && k.DueApp? && k.app == version && Less(K.Timed(k.at, k.run), K.Until(now)) :: (K.Timed(k.at, k.run), k.run)
  }

  function AllDue(index: I.Index, versions: set<string>, now: int): set<Key>
    requires AtInstants(index) && K.IsInstant(now)
  {
    set k | k in index && k.DueApp? && k.app in versions && Less(K.Timed(k.at, k.run), K.Until(now)) :: (K.Timed(k.at, k.run), k.run)
  }

  /** The versions a declared worker resumes; the empty one stands for undeclared runs. */
  function VersionsOf(w: R.Worker): set<string>
    requires w.version.Some?
  {
    {"", w.version.value} + set a | a in w.accepts
  }

  /** The due rows a worker pages through: a declared one by version, another all. */
  function DueFor(index: I.Index, w: R.Worker, now: int): set<Key>
    requires AtInstants(index) && K.IsInstant(now)
  {
    if w.version.Some? then AllDue(index, VersionsOf(w), now)
    else set k | k in index && k.Due? && Less(K.Timed(k.at, k.run), K.Until(now)) :: (K.Timed(k.at, k.run), k.run)
  }

  lemma MoreVersions(index: I.Index, seen: set<string>, v: string, now: int)
    requires AtInstants(index) && K.IsInstant(now)
    ensures AllDue(index, seen + {v}, now) == AllDue(index, seen, now) + DueOf(index, v, now)
  {
  }

  /** One page of at most `limit` rows per version, merged in due order. */
  method DueAs(index: I.Index, now: int, limit: nat, w: R.Worker) returns (due: seq<Key>)
    requires AtInstants(index) && K.IsInstant(now)
    ensures exists first :: IsFirst(first, DueFor(index, w, now), limit) && due == Sorted(first)
  {
    if w.version.None? {
      var first := TakeFirst(DueFor(index, w, now), limit);
      return Sorted(first);
    }
    var all := MergedPages(index, now, limit, w);
    var first := TakeFirst(all, limit);
    assert all + {} == all && DueFor(index, w, now) + {} == DueFor(index, w, now);
    due := Sorted(first);
  }

  method MergedPages(index: I.Index, now: int, limit: nat, w: R.Worker) returns (all: set<Key>)
    requires AtInstants(index) && K.IsInstant(now) && w.version.Some?
    ensures Covers(all, AllDue(index, VersionsOf(w), now), limit)
  {
    all := {};
    var rest := VersionsOf(w);
    ghost var seen: set<string> := {};
    assert AllDue(index, seen, now) == {};
    while rest != {}
      invariant seen + rest == VersionsOf(w)
      invariant Covers(all, AllDue(index, seen, now), limit)
      decreases |rest|
    {
      var v :| v in rest;
      var page := TakeFirst(DueOf(index, v, now), limit);
      CoversMore(all, AllDue(index, seen, now), page, DueOf(index, v, now), limit);
      MoreVersions(index, seen, v, now);
      all, rest, seen := all + page, rest - {v}, seen + {v};
    }
    assert seen == VersionsOf(w);
  }

  ghost predicate Listed(keys: set<Key>, x: R.Id) {
    exists key :: key in keys && key.1 == x
  }

  lemma ListedByVersion(index: I.Index, runs: R.Rows, now: int, w: R.Worker, x: R.Id)
    requires AtInstants(index) && K.IsInstant(now) && w.version.Some?
    requires I.IndexOk(index, runs) && S.RowsOk(runs)
    ensures Listed(DueFor(index, w, now), x) <==>
            exists at :: at <= now && I.Due(at, x) in index && I.AppOf(runs[x]) in VersionsOf(w)
  {
    var due := DueFor(index, w, now);
    if Listed(due, x) {
      var key :| key in due && key.1 == x;
      var k :| k in index && k.DueApp? && k.app in VersionsOf(w) && Less(K.Timed(k.at, k.run), K.Until(now)) && (K.Timed(k.at, k.run), k.run) == key;
      K.TimedRange(k.at, k.run, now);
      I.DueByApplication(index, runs, x, k.app, k.at);
      assert I.Due(k.at, x) in index;
    }
    if at :| at <= now && I.Due(at, x) in index && I.AppOf(runs[x]) in VersionsOf(w) {
      var app := I.AppOf(runs[x]);
      I.DueByApplication(index, runs, x, app, at);
      var k := I.DueApp(app, at, x);
      K.TimedRange(at, x, now);
      assert (K.Timed(k.at, k.run), k.run) in due;
    }
  }

  lemma ListedAtAll(index: I.Index, now: int, w: R.Worker, x: R.Id)
    requires AtInstants(index) && K.IsInstant(now) && w.version.None?
    ensures Listed(DueFor(index, w, now), x) <==> exists at :: at <= now && I.Due(at, x) in index
  {
    var due := DueFor(index, w, now);
    if Listed(due, x) {
      var key :| key in due && key.1 == x;
      var k :| k in index && k.Due? && Less(K.Timed(k.at, k.run), K.Until(now)) && (K.Timed(k.at, k.run), k.run) == key;
      K.TimedRange(k.at, k.run, now);
      assert I.Due(k.at, x) in index;
    }
    if at :| at <= now && I.Due(at, x) in index {
      var k := I.Due(at, x);
      K.TimedRange(at, x, now);
      assert (K.Timed(k.at, k.run), k.run) in due;
    }
  }

  lemma AdmitsByVersion(r: R.Run, w: R.Worker)
    requires w.version.Some? && r.origin.admission.application != Some("")
    ensures R.Admits(w, r.origin.admission.application) <==> I.AppOf(r) in VersionsOf(w)
  {
  }

  /** The pages are taken from exactly the due runs the worker may claim. */
  lemma DueAreClaimable(index: I.Index, runs: R.Rows, now: int, w: R.Worker, x: R.Id)
    requires AtInstants(index) && K.IsInstant(now)
    requires I.IndexOk(index, runs) && S.RowsOk(runs)
    requires forall y :: y in runs ==> runs[y].origin.admission.application != Some("")
    ensures Listed(DueFor(index, w, now), x) <==>
            x in runs && R.Claimable(runs[x].life, now) && R.Admits(w, runs[x].origin.admission.application)
  {
    I.DueMeansClaimable(index, runs, x, now);
    if w.version.Some? {
      ListedByVersion(index, runs, now, w, x);
      if x in runs {
        AdmitsByVersion(runs[x], w);
      }
    } else {
      ListedAtAll(index, now, w, x);
    }
  }

  // ── pages and cursors ─────────────────────────────────────────────────────

  const MAX_PAGE := 1_000

  datatype Cursor = Cursor(query: string, after: string)
  datatype Page = Page(rows: seq<Key>, next: Option<Cursor>) | Invalid(reason: string)

  /** A listing: the rows of one kind between two instants. */
  datatype Query = Query(kind: string, query: string, since: Option<int>, before: Option<int>)

  predicate QueryOk(q: Query) {
    (q.since.Some? ==> K.IsInstant(q.since.value)) && (q.before.Some? ==> K.IsInstant(q.before.value))
  }

  function StartOf(q: Query): string
    requires QueryOk(q)
  {
    if q.since.Some? then K.TimeKey(q.since.value) else ""
  }

  predicate BeforeEnd(q: Query, k: string)
    requires QueryOk(q)
  {
    q.before.Some? ==> Less(k, K.TimeKey(q.before.value))
  }

  /** The rows of the listing from a key on. */
  function Window(store: set<Key>, q: Query, from: string): set<Key>
    requires QueryOk(q)
  {
    set r | r in store && r.0 == q.kind && !Less(r.1, from) && BeforeEnd(q, r.1)
  }

  function After(rows: set<Key>, after: string): set<Key> {
    set r | r in rows && Less(after, r.1)
  }

  /** The rows of the listing not yet seen at a cursor. */
  function Rest(store: set<Key>, q: Query, cursor: Option<Cursor>): set<Key>
    requires QueryOk(q)
  {
    if cursor.Some? then set r | r in store && r.0 == q.kind && Less(cursor.value.after, r.1) && BeforeEnd(q, r.1)
    else Window(store, q, StartOf(q))
  }

  /** The first rows of an initial segment that is long enough are those of the whole. */
  lemma FirstOfSegment(rest: set<Key>, segment: set<Key>, page: set<Key>, n: nat)
    requires segment <= rest && (forall a, b :: a in segment && b in rest - segment ==> KeyLess(a, b))
    requires |segment| >= n || segment == rest
    requires IsFirst(page, segment, n)
    ensures IsFirst(page, rest, n)
  {
    SubsetSize(segment, rest);
  }

  lemma LongEnough(found: set<Key>, segment: set<Key>, own: Key, n: nat)
    requires |found| == n + 1 && forall r :: r in found && r != own ==> r in segment
    ensures |segment| >= n
  {
    assert |found - {own}| >= n;
    SubsetSize(found - {own}, segment);
  }

  /** Reading one row more than the page from the cursor on and dropping the cursor's own
      row gives the first rows after it. */
  lemma PageAfterCursor(rows: set<Key>, kind: string, after: string, found: set<Key>, page: set<Key>, limit: nat)
    requires forall r :: r in rows ==> r.0 == kind && !Less(r.1, after)
    requires IsFirst(found, rows, limit + 1) && IsFirst(page, After(found, after), limit)
    ensures IsFirst(page, After(rows, after), limit)
  {
    var rest, segment := After(rows, after), After(found, after);
    forall r | r in rows && r !in rest ensures r == (kind, after) {
      LessConnected(after, r.1);
    }
    if |rows| <= limit + 1 {
      SubsetOfSameSize(found, rows);
    } else {
      LongEnough(found, segment, (kind, after), limit);
    }
    FirstOfSegment(rest, segment, page, limit);
  }

  lemma EmptyWindow(store: set<Key>, q: Query, from: string)
    requires QueryOk(q) && q.before.Some? && !Less(from, K.TimeKey(q.before.value))
    ensures Window(store, q, from) == {}
  {
    var end := K.TimeKey(q.before.value);
    forall r | r in store && r.0 == q.kind && Less(r.1, end) ensures Less(r.1, from) {
      LessConnected(from, end);
      if from != end {
        LessTransitive(r.1, end, from);
      }
    }
  }

  lemma RestFromCursor(store: set<Key>, q: Query, c: Cursor)
    requires QueryOk(q)
    ensures Rest(store, q, Some(c)) == After(Window(store, q, c.after), c.after)
  {
    forall r: Key | Less(c.after, r.1) ensures !Less(r.1, c.after) {
      LessAsymmetric(c.after, r.1);
    }
  }

  /** Whether a page request is refused. */
  predicate Refused(q: Query, cursor: Option<Cursor>, limit: nat) {
    || !(1 <= limit <= MAX_PAGE)
    || (q.since.Some? && q.before.Some? && q.since.value > q.before.value)
    || (cursor.Some? && cursor.value.query != q.query)
  }

  /** One page: the first rows of the listing after the cursor, and a cursor at its last
      row if it is full. */
  method PageRows(store: set<Key>, q: Query, cursor: Option<Cursor>, limit: nat) returns (page: Page)
    requires QueryOk(q)
    ensures page.Invalid? <==> Refused(q, cursor, limit)
    ensures page.Page? ==> exists first :: IsFirst(first, Rest(store, q, cursor), limit) && page.rows == Sorted(first)
    ensures page.Page? ==> page.next == if |page.rows| == limit then Some(Cursor(q.query, page.rows[limit - 1].1)) else None
  {
    if !(1 <= limit <= MAX_PAGE) {
      return Invalid("page limit");
    }
    if q.since.Some? && q.before.Some? && q.since.value > q.before.value {
      return Invalid("invalid time window");
    }
    if cursor.Some? && cursor.value.query != q.query {
      return Invalid("cursor belongs to another query");
    }
    var start := if cursor.Some? then cursor.value.after else StartOf(q);
    if cursor.Some? {
      RestFromCursor(store, q, cursor.value);
    }
    if q.before.Some? && !Less(start, K.TimeKey(q.before.value)) {
      EmptyWindow(store, q, start);
      assert Rest(store, q, cursor) == {};
      assert IsFirst({}, {}, limit) && Sorted({}) == [];
      return Page([], None);
    }
    var rows := Window(store, q, start);
    var found := TakeFirst(rows, limit + if cursor.Some? then 1 else 0);
    var kept := found;
    if cursor.Some? {
      kept := set r | r in found && Less(cursor.value.after, r.1);
      kept := TakeFirst(kept, limit);
      PageAfterCursor(rows, q.kind, cursor.value.after, found, kept, limit);
    }
    assert IsFirst(kept, Rest(store, q, cursor), limit);
    var list := Sorted(kept);
    SortedLists(kept);
    page := Page(list, if |list| == limit then Some(Cursor(q.query, list[limit - 1].1)) else None);
  }

  /** What a request must not ask: no rows or more than a thousand, a window that ends
      before it starts, or a cursor of another listing. */
  lemma RefusedMeans(q: Query, cursor: Option<Cursor>, limit: nat)
    ensures Refused(q, cursor, limit) <==>
            || limit == 0 || limit > 1_000
            || (q.since.Some? && q.before.Some? && q.before.value < q.since.value)
            || (cursor.Some? && cursor.value.query != q.query)
  {
  }

  /** A timed row is listed exactly if its kind is asked for and its instant lies from the
      start of the window on and before its end. */
  lemma WindowMeans(store: set<Key>, q: Query, kind: string, ms: int, id: string)
    requires QueryOk(q) && K.IsInstant(ms)
    ensures (kind, K.Timed(ms, id)) in Window(store, q, StartOf(q)) <==>
            && (kind, K.Timed(ms, id)) in store && kind == q.kind
            && (q.since.Some? ==> q.since.value <= ms) && (q.before.Some? ==> ms < q.before.value)
  {
    if q.since.Some? {
      TimedAgainstKey(ms, id, q.since.value);
    }
    if q.before.Some? {
      TimedAgainstKey(ms, id, q.before.value);
    }
  }

  /** A timed key lies below a bare time key exactly if its instant is earlier. */
  lemma TimedAgainstKey(ms: int, id: string, at: int)
    requires K.IsInstant(ms) && K.IsInstant(at)
    ensures Less(K.Timed(ms, id), K.TimeKey(at)) <==> ms < at
  {
    K.LessAppend(K.TimeKey(ms), K.TimeKey(at), ":" + id, "");
    K.TimeOrder(ms, at);
    assert K.TimeKey(at) + "" == K.TimeKey(at);
  }

  /** What is left after a cursor: the rows of the kind above it and before the end. */
  lemma RestMeans(store: set<Key>, q: Query, c: Cursor, r: Key)
    requires QueryOk(q)
    ensures r in Rest(store, q, Some(c)) <==>
            r in store && r.0 == q.kind && Less(c.after, r.1) && (q.before.Some? ==> Less(r.1, K.TimeKey(q.before.value)))
  {
  }

  // ── following the cursors ─────────────────────────────────────────────────

  lemma MinOfUnion(a: set<Key>, b: set<Key>)
    requires a != {} && forall x, y :: x in a && y in b ==> KeyLess(x, y)
    ensures Min(a + b) == Min(a)
  {
    KeyOrder();
  }

  /** Sorted lists of sets one above the other join to the sorted list of both. */
  lemma {:induction false} SortedJoin(a: set<Key>, b: set<Key>)
    requires forall x, y :: x in a && y in b ==> KeyLess(x, y)
    ensures Sorted(a) + Sorted(b) == Sorted(a + b)
    decreases |a|
  {
    if a == {} {
      assert a + b == b;
    } else {
      var m := Min(a);
      MinOfUnion(a, b);
      assert m !in b by {
        KeyOrder();
      }
      assert (a + b) - {m} == (a - {m}) + b;
      assert |a - {m}| == |a| - 1;
      SortedJoin(a - {m}, b);
    }
  }

  /** After a full page the cursor stands at its last row: what is left is the rest. */
  lemma RestAfterPage(store: set<Key>, q: Query, cursor: Option<Cursor>, first: set<Key>, list: seq<Key>, limit: nat, next: Cursor)
    requires QueryOk(q) && limit > 0 && IsFirst(first, Rest(store, q, cursor), limit)
    requires list == Sorted(first) && |list| == limit && next == Cursor(q.query, list[limit - 1].1)
    ensures Rest(store, q, Some(next)) == Rest(store, q, cursor) - first
  {
    var rest := Rest(store, q, cursor);
    SortedLists(first);
    var last := list[limit - 1];
    assert last in list;
    KeyOrder();
    forall r | r in first ensures !Less(next.after, r.1) {
      assert r in list;
      var i :| 0 <= i < |list| && list[i] == r;
      LessIrreflexive(last.1);
      if i < limit - 1 {
        assert KeyLess(list[i], list[limit - 1]);
        LessAsymmetric(r.1, last.1);
      }
    }
    forall r | r in rest - first ensures Less(next.after, r.1) {
      assert KeyLess(last, r);
      LessIrreflexive(r.0);
    }
    forall r: Key | r in Rest(store, q, Some(next)) ensures r in rest {
      RestShrinks(q, cursor, last.1, r.1);
    }
  }

  lemma LessAsymmetric(a: string, b: string)
    requires Less(a, b)
    ensures !Less(b, a)
  {
    LessIrreflexive(a);
    if Less(b, a) {
      LessTransitive(a, b, a);
    }
  }

  lemma RestShrinks(q: Query, cursor: Option<Cursor>, last: string, k: string)
    requires QueryOk(q) && Less(last, k)
    ensures cursor.Some? && Less(cursor.value.after, last) ==> Less(cursor.value.after, k)
    ensures !Less(last, StartOf(q)) ==> !Less(k, StartOf(q))
  {
    if cursor.Some? && Less(cursor.value.after, last) {
      LessTransitive(cursor.value.after, last, k);
    }
    if Less(k, StartOf(q)) {
      LessTransitive(last, k, StartOf(q));
    }
  }

  /** Some rows are listed, below all the others. */
  ghost predicate Listing(all: set<Key>, listed: set<Key>, rest: set<Key>) {
    listed !! rest && listed + rest == all && forall x, y :: x in listed && y in rest ==> KeyLess(x, y)
  }

  lemma ListMore(all: set<Key>, listed: set<Key>, rest: set<Key>, first: set<Key>, n: nat)
    requires Listing(all, listed, rest) && IsFirst(first, rest, n)
    ensures Sorted(listed) + Sorted(first) == Sorted(listed + first) && |Sorted(first)| == |first|
    ensures Listing(all, listed + first, rest - first) && |rest - first| == |rest| - |first|
    ensures |first| < n ==> listed + first == all
  {
    SortedJoin(listed, first);
    SortedLists(first);
    assert (listed + first) + (rest - first) == all;
    if |first| < n {
      SubsetOfSameSize(first, rest);
    }
  }

  /** Following the cursors to the end over an unchanged store lists every row of the
      window once, in order. */
  method ListAll(store: set<Key>, q: Query, limit: nat) returns (rows: seq<Key>)
    requires QueryOk(q) && !Refused(q, None, limit)
    ensures rows == Sorted(Window(store, q, StartOf(q)))
  {
    rows := [];
    var cursor: Option<Cursor> := None;
    ghost var all, listed: set<Key> := Window(store, q, StartOf(q)), {};
    while true
      invariant cursor.Some? ==> cursor.value.query == q.query
      invariant Listing(all, listed, Rest(store, q, cursor)) && rows == Sorted(listed)
      decreases |Rest(store, q, cursor)|
    {
      var page := PageRows(store, q, cursor, limit);
      ghost var first :| IsFirst(first, Rest(store, q, cursor), limit) && page.rows == Sorted(first);
      ListMore(all, listed, Rest(store, q, cursor), first, limit);
      rows := rows + page.rows;
      if page.next.None? {
        return;
      }
      RestAfterPage(store, q, cursor, first, page.rows, limit, page.next.value);
      listed := listed + first;
      cursor := page.next;
    }
  }
}

/**
 The table of a run's secrets: every nonempty string of the resolved values with the
 path that names it, longest first, neighbours with the same text merged. What that
 gives redaction, and what keys and names must not contain for it.
 */
module SecretTables {
  import opened Options
  import opened Order
  import opened Secrets
  import opened Redaction

  // ── the strings of a secret ───────────────────────────────────────────────

  function Digits(n: nat): string {
    if n < 10 then [(n + 48) as char] else Digits(n / 10) + [(n % 10 + 48) as char]
  }

  function ItemPath(path: string, i: nat): string {
    path + "[" + Digits(i) + "]"
  }

  function FieldPath(path: string, key: string): string {
    path + "." + key
  }

  function LeavesOfItems(ghost owner: Json, items: seq<Json>, path: string): seq<Secret>
    requires forall i :: 0 <= i < |items| ==> items[i] < owner
    decreases owner, 0, |items|
  {
    if items == [] then [] else
      var n := |items| - 1;
      LeavesOfItems(owner, items[..n], path) + Leaves(items[n], ItemPath(path, n))
  }

  function LeavesOfFields(ghost owner: Json, fields: seq<(string, Json)>, path: string): seq<Secret>
    requires forall i :: 0 <= i < |fields| ==> fields[i].1 < owner
    decreases owner, 0, |fields|
  {
    if fields == [] then [] else
      var n := |fields| - 1;
      LeavesOfFields(owner, fields[..n], path) + Leaves(fields[n].1, FieldPath(path, fields[n].0))
  }

  /** Every nonempty string of a secret with the path that names it. */
  function Leaves(v: Json, path: string): seq<Secret>
    decreases v, 1
  {
    match v
    case String(s) => if s == [] then [] else [Secret(s, path)]
    case Array(items) => LeavesOfItems(v, items, path)
    case Object(fields) => LeavesOfFields(v, fields, path)
    case _ => []
  }

  // ── resolving ─────────────────────────────────────────────────────────────

  type Values = seq<(string, Option<Json>)>

  /** The value of each declared name, or the store's first failure. */
  function Lookup(declared: seq<string>, store: string -> Result<Option<Json>>): Result<Values> {
    if declared == [] then Ok([]) else
      var n := |declared| - 1;
      var done := Lookup(declared[..n], store);
      if done.Err? then done else
        var v := store(declared[n]);
        if v.Err? then Err(v.path) else Ok(done.value + [(declared[n], v.value)])
  }

  function Gather(values: Values): seq<Secret> {
    if values == [] then [] else
      var n := |values| - 1;
      Gather(values[..n]) + if values[n].1.Some? then Leaves(values[n].1.value, values[n].0) else []
  }

  /** Longer texts first, then by path. */
  predicate Before(a: Secret, b: Secret) {
    Bytes(a.text) > Bytes(b.text) || (Bytes(a.text) == Bytes(b.text) && Less(a.path, b.path))
  }

  /** Stable insertion: after every entry it does not come before. */
  function Place(table: seq<Secret>, s: Secret): seq<Secret> {
    if table == [] then [s]
    else if Before(s, table[0]) then [s] + table
    else [table[0]] + Place(table[1..], s)
  }

  function Sort(secrets: seq<Secret>): seq<Secret> {
    if secrets == [] then [] else
      var n := |secrets| - 1;
      Place(Sort(secrets[..n]), secrets[n])
  }

  /** Of neighbours with the same text the first is kept. */
  function Dedup(secrets: seq<Secret>): seq<Secret> {
    if secrets == [] then [] else
      var n := |secrets| - 1;
      var kept := Dedup(secrets[..n]);
      if kept != [] && kept[|kept| - 1].text == secrets[n].text then kept else kept + [secrets[n]]
  }

  function Table(values: Values): seq<Secret> {
    Dedup(Sort(Gather(values)))
  }

  method Resolve(declared: seq<string>, store: string -> Result<Option<Json>>) returns (r: Result<seq<Secret>>)
    ensures var values := Lookup(declared, store);
            r == if values.Err? then Err(values.path) else Ok(Table(values.value))
  {
    var values: Values := [];
    for i := 0 to |declared|
      invariant Lookup(declared[..i], store) == Ok(values)
    {
      var v := store(declared[i]);
      assert declared[..i + 1][..i] == declared[..i];
      if v.Err? {
        LookupFails(declared, store, i + 1, v.path);
        return Err(v.path);
      }
      values := values + [(declared[i], v.value)];
    }
    assert declared[..|declared|] == declared;
    var texts: seq<Secret> := [];
    for i := 0 to |values|
      invariant texts == Gather(values[..i])
    {
      assert values[..i + 1][..i] == values[..i];
      if values[i].1.Some? {
        texts := texts + Leaves(values[i].1.value, values[i].0);
      }
    }
    assert values[..|values|] == values;
    r := Ok(Dedup(Sort(texts)));
  }

  lemma {:induction false} LookupFails(declared: seq<string>, store: string -> Result<Option<Json>>, i: nat, e: string)
    requires i <= |declared| && Lookup(declared[..i], store) == Err(e)
    ensures Lookup(declared, store) == Err(e)
    decreases |declared| - i
  {
    if i == |declared| {
      assert declared[..i] == declared;
    } else {
      assert declared[..i + 1][..i] == declared[..i];
      LookupFails(declared, store, i + 1, e);
    }
  }

  // ── what is gathered ──────────────────────────────────────────────────────

  /** The nonempty string at a path of the value: an index in brackets, a key after a dot. */
  ghost predicate StandsAt(v: Json, path: string, a: Secret) {
    match v
    case String(s) => s != "" && a.text == s && a.path == path
    case Array(items) => exists i :: 0 <= i < |items| && StandsAt(items[i], path + "[" + Digits(i) + "]", a)
    case Object(fields) => exists i :: 0 <= i < |fields| && StandsAt(fields[i].1, path + "." + fields[i].0, a)
    case _ => false
  }

  ghost predicate ItemStands(items: seq<Json>, i: int, path: string, a: Secret) {
    0 <= i < |items| && StandsAt(items[i], path + "[" + Digits(i) + "]", a)
  }

  ghost predicate FieldStands(fields: seq<(string, Json)>, i: int, path: string, a: Secret) {
    0 <= i < |fields| && StandsAt(fields[i].1, path + "." + fields[i].0, a)
  }

  lemma {:induction false} ItemsStand(owner: Json, items: seq<Json>, path: string, a: Secret)
    requires forall i :: 0 <= i < |items| ==> items[i] < owner
    ensures a in LeavesOfItems(owner, items, path) <==> exists i :: ItemStands(items, i, path, a)
    decreases owner, 0, |items|
  {
    if items != [] {
      var n := |items| - 1;
      ItemsStand(owner, items[..n], path, a);
      LeavesExact(items[n], ItemPath(path, n), a);
      assert ItemStands(items, n, path, a) <==> a in Leaves(items[n], ItemPath(path, n));
      assert forall i :: ItemStands(items, i, path, a) <==> ItemStands(items[..n], i, path, a) || (i == n && ItemStands(items, n, path, a));
    }
  }

  lemma {:induction false} FieldsStand(owner: Json, fields: seq<(string, Json)>, path: string, a: Secret)
    requires forall i :: 0 <= i < |fields| ==> fields[i].1 < owner
    ensures a in LeavesOfFields(owner, fields, path) <==> exists i :: FieldStands(fields, i, path, a)
    decreases owner, 0, |fields|
  {
    if fields != [] {
      var n := |fields| - 1;
      FieldsStand(owner, fields[..n], path, a);
      LeavesExact(fields[n].1, FieldPath(path, fields[n].0), a);
      assert FieldStands(fields, n, path, a) <==> a in Leaves(fields[n].1, FieldPath(path, fields[n].0));
      assert forall i :: FieldStands(fields, i, path, a) <==> FieldStands(fields[..n], i, path, a) || (i == n && FieldStands(fields, n, path, a));
    }
  }

  /** The entries of a value are exactly its nonempty strings with their paths. */
  lemma {:induction false} LeavesExact(v: Json, path: string, a: Secret)
    ensures a in Leaves(v, path) <==> StandsAt(v, path, a)
    decreases v, 1
  {
    match v
    case Array(items) =>
      ItemsStand(v, items, path, a);
      if StandsAt(v, path, a) {
        var i :| 0 <= i < |items| && StandsAt(items[i], path + "[" + Digits(i) + "]", a);
        assert ItemStands(items, i, path, a);
      }
    case Object(fields) =>
      FieldsStand(v, fields, path, a);
      if StandsAt(v, path, a) {
        var i :| 0 <= i < |fields| && StandsAt(fields[i].1, path + "." + fields[i].0, a);
        assert FieldStands(fields, i, path, a);
      }
    case _ =>
  }

  /** Either every name has the value the store gives it, in order, or the first failure of
      the store is the answer. */
  lemma {:induction false} LookupMeans(declared: seq<string>, store: string -> Result<Option<Json>>)
    ensures match Lookup(declared, store)
            case Ok(values) =>
              |values| == |declared| && forall i :: 0 <= i < |declared| ==> values[i].0 == declared[i] && store(declared[i]) == Result.Ok(values[i].1)
            case Err(e) =>
              exists i :: 0 <= i < |declared| && store(declared[i]) == Result.Err(e) && forall j :: 0 <= j < i ==> store(declared[j]).Ok?
    decreases |declared|
  {
    if declared != [] {
      var n := |declared| - 1;
      LookupMeans(declared[..n], store);
      assert declared[..n] + [declared[n]] == declared;
      if Lookup(declared[..n], store).Err? {
        var i :| 0 <= i < n && store(declared[..n][i]) == Result.Err(Lookup(declared[..n], store).path) && forall j :: 0 <= j < i ==> store(declared[..n][j]).Ok?;
        assert declared[..n][i] == declared[i] && forall j :: 0 <= j < i ==> declared[..n][j] == declared[j];
      } else {
        assert forall j :: 0 <= j < n ==> declared[..n][j] == declared[j];
      }
    }
  }

  // ── the order ─────────────────────────────────────────────────────────────

  ghost predicate Sorted(table: seq<Secret>) {
    forall i, j :: 0 <= i < j < |table| ==> !Before(table[j], table[i])
  }

  /** What does not come before `b`, nor `b` before `c`: neither `a` before `c`. */
  lemma NotBeforeTransitive(a: Secret, b: Secret, c: Secret)
    requires !Before(b, a) && !Before(c, b)
    ensures !Before(c, a)
  {
    if Bytes(a.text) == Bytes(c.text) && Less(c.path, a.path) {
      LessConnected(a.path, b.path);
      if a.path != b.path {
        LessTransitive(c.path, a.path, b.path);
      }
    }
  }

  lemma BeforeAsymmetric(a: Secret, b: Secret)
    requires Before(a, b)
    ensures !Before(b, a)
  {
    if Bytes(a.text) == Bytes(b.text) && Less(b.path, a.path) {
      LessTransitive(a.path, b.path, a.path);
      LessIrreflexive(a.path);
    }
  }

  lemma {:induction false} PlaceMembers(table: seq<Secret>, s: Secret)
    ensures forall x :: x in Place(table, s) <==> x in table || x == s
  {
    if table != [] {
      assert forall x :: x in table <==> x == table[0] || x in table[1..];
      PlaceMembers(table[1..], s);
    }
  }

  lemma {:induction false} PlaceSorts(table: seq<Secret>, s: Secret)
    requires Sorted(table)
    ensures Sorted(Place(table, s))
  {
    if table != [] {
      if Before(s, table[0]) {
        BeforeAsymmetric(s, table[0]);
        forall j | 0 <= j < |table| ensures !Before(table[j], s) {
          if j > 0 {
            NotBeforeTransitive(s, table[0], table[j]);
          }
        }
      } else {
        var rest := Place(table[1..], s);
        PlaceSorts(table[1..], s);
        PlaceMembers(table[1..], s);
        forall j | 0 <= j < |rest| ensures !Before(rest[j], table[0]) {
          assert rest[j] in rest;
        }
      }
    }
  }

  /** Sorting lists the same entries in order. */
  lemma {:induction false} SortSorts(secrets: seq<Secret>)
    ensures Sorted(Sort(secrets)) && forall x :: x in Sort(secrets) <==> x in secrets
  {
    if secrets != [] {
      var n := |secrets| - 1;
      SortSorts(secrets[..n]);
      PlaceSorts(Sort(secrets[..n]), secrets[n]);
      PlaceMembers(Sort(secrets[..n]), secrets[n]);
      assert secrets == secrets[..n] + [secrets[n]];
    }
  }

  lemma {:induction false} PlaceMultiset(table: seq<Secret>, s: Secret)
    ensures multiset(Place(table, s)) == multiset(table) + multiset{s}
  {
    if table != [] {
      assert table == [table[0]] + table[1..];
      PlaceMultiset(table[1..], s);
    }
  }

  lemma {:induction false} SortPermutes(secrets: seq<Secret>)
    ensures multiset(Sort(secrets)) == multiset(secrets)
  {
    if secrets != [] {
      var n := |secrets| - 1;
      SortPermutes(secrets[..n]);
      PlaceMultiset(Sort(secrets[..n]), secrets[n]);
      assert secrets == secrets[..n] + [secrets[n]];
    }
  }

  ghost predicate HasText(table: seq<Secret>, text: string) {
    exists s :: s in table && s.text == text
  }

  /** Merging neighbours invents no entry. */
  lemma {:induction false} DedupMembers(secrets: seq<Secret>)
    ensures forall s :: s in Dedup(secrets) ==> s in secrets
  {
    if secrets != [] {
      DedupMembers(secrets[..|secrets| - 1]);
    }
  }

  /** It drops no text. */
  lemma {:induction false} DedupTexts(secrets: seq<Secret>, text: string)
    requires HasText(secrets, text)
    ensures HasText(Dedup(secrets), text)
  {
    var n := |secrets| - 1;
    var kept, r := Dedup(secrets[..n]), Dedup(secrets);
    if text == secrets[n].text {
      assert r[|r| - 1] in r;
    } else {
      var s :| s in secrets && s.text == text;
      assert s in secrets[..n];
      DedupTexts(secrets[..n], text);
      var e :| e in kept && e.text == text;
      assert e in r;
    }
  }

  /** And it keeps the order. */
  lemma {:induction false} DedupSorted(secrets: seq<Secret>)
    requires Sorted(secrets)
    ensures Sorted(Dedup(secrets))
  {
    if secrets != [] {
      var n := |secrets| - 1;
      var kept := Dedup(secrets[..n]);
      DedupSorted(secrets[..n]);
      DedupMembers(secrets[..n]);
      forall i | 0 <= i < |kept| ensures !Before(secrets[n], kept[i]) {
        assert kept[i] in kept;
      }
    }
  }

  lemma {:induction false} PlaceLast(table: seq<Secret>, s: Secret)
    requires forall i :: 0 <= i < |table| ==> !Before(s, table[i])
    ensures Place(table, s) == table + [s]
  {
    if table != [] {
      PlaceLast(table[1..], s);
      assert table + [s] == [table[0]] + (table[1..] + [s]);
    }
  }

  lemma SortLast(secrets: seq<Secret>, s: Secret)
    requires Sort(secrets) == secrets && forall i :: 0 <= i < |secrets| ==> !Before(s, secrets[i])
    ensures Sort(secrets + [s]) == secrets + [s]
  {
    var all := secrets + [s];
    assert all[..|all| - 1] == secrets;
    PlaceLast(secrets, s);
  }

  lemma DedupLast(secrets: seq<Secret>, s: Secret)
    requires Dedup(secrets) == secrets && (secrets != [] ==> secrets[|secrets| - 1].text != s.text)
    ensures Dedup(secrets + [s]) == secrets + [s]
  {
    var all := secrets + [s];
    assert all[..|all| - 1] == secrets;
  }

  /** Only neighbours are merged: of three texts of one length, with the same text at
      both ends of the path order, all entries stay. */
  lemma RepeatsRemain(a: Secret, b: Secret, c: Secret)
    requires a.text == c.text != b.text && Bytes(a.text) == Bytes(b.text) && Less(a.path, b.path) && Less(b.path, c.path)
    ensures Dedup(Sort([a, b, c])) == [a, b, c]
  {
    BeforeAsymmetric(a, b);
    BeforeAsymmetric(b, c);
    NotBeforeTransitive(a, b, c);
    SortLast([], a);
    SortLast([a], b);
    SortLast([a, b], c);
    DedupLast([], a);
    DedupLast([a], b);
    DedupLast([a, b], c);
    assert [] + [a] == [a] && [a] + [b] == [a, b] && [a, b] + [c] == [a, b, c];
  }

  /** A path belongs to one text. */
  ghost predicate PathsAgree(secrets: seq<Secret>) {
    forall a, b :: a in secrets && b in secrets && a.path == b.path ==> a.text == b.text
  }

  /** Then the entries of a path are neighbours, and one is left. */
  lemma {:induction false} DedupDistinct(secrets: seq<Secret>)
    requires Sorted(secrets) && PathsAgree(secrets)
    ensures DistinctPaths(Dedup(secrets))
  {
    if secrets != [] {
      var n := |secrets| - 1;
      var kept, last := Dedup(secrets[..n]), secrets[n];
      DedupDistinct(secrets[..n]);
      DedupSorted(secrets[..n]);
      DedupMembers(secrets[..n]);
      if kept != [] && kept[|kept| - 1].text != last.text {
        forall i | 0 <= i < |kept| ensures kept[i].path != last.path {
          NeighbourPath(secrets, kept, i);
        }
      }
    }
  }

  lemma NeighbourPath(secrets: seq<Secret>, kept: seq<Secret>, i: nat)
    requires secrets != [] && Sorted(secrets) && PathsAgree(secrets)
    requires Sorted(kept) && (forall s :: s in kept ==> s in secrets[..|secrets| - 1]) && i < |kept|
    requires kept[|kept| - 1].text != secrets[|secrets| - 1].text
    ensures kept[i].path != secrets[|secrets| - 1].path
  {
    var x, z, last := kept[i], kept[|kept| - 1], secrets[|secrets| - 1];
    assert x in kept && z in kept && last in secrets;
    assert x in secrets[..|secrets| - 1] && z in secrets[..|secrets| - 1];
    assert !Before(last, z) && !Before(last, x);
    assert i < |kept| - 1 ==> !Before(z, x);
    LessConnected(x.path, z.path);
  }

  // ── paths name strings ────────────────────────────────────────────────────

  /** No separator of paths and no mark. */
  ghost predicate Plain(s: string) {
    '.' !in s && '[' !in s && NoMark(s)
  }

  /** Keys, at every depth, are distinct and plain, and no string holds a mark. */
  ghost predicate PlainValue(v: Json) {
    match v
    case String(s) => NoMark(s)
    case Array(items) => forall i :: 0 <= i < |items| ==> PlainValue(items[i])
    case Object(fields) => DistinctKeys(fields) && forall i :: 0 <= i < |fields| ==> Plain(fields[i].0) && PlainValue(fields[i].1)
    case _ => true
  }

  /** `q` is `path`, or goes on after a separator. */
  ghost predicate Extends(q: string, path: string) {
    StartsWith(q, path) && (|q| == |path| || q[|path|] == '.' || q[|path|] == '[')
  }

  lemma {:induction false} InItems(owner: Json, items: seq<Json>, path: string, a: Secret) returns (i: nat)
    requires forall i :: 0 <= i < |items| ==> items[i] < owner
    requires a in LeavesOfItems(owner, items, path)
    ensures i < |items| && a in Leaves(items[i], ItemPath(path, i))
  {
    i := |items| - 1;
    if a !in Leaves(items[i], ItemPath(path, i)) {
      i := InItems(owner, items[..i], path, a);
    }
  }

  lemma {:induction false} InFields(owner: Json, fields: seq<(string, Json)>, path: string, a: Secret) returns (i: nat)
    requires forall i :: 0 <= i < |fields| ==> fields[i].1 < owner
    requires a in LeavesOfFields(owner, fields, path)
    ensures i < |fields| && a in Leaves(fields[i].1, FieldPath(path, fields[i].0))
  {
    i := |fields| - 1;
    if a !in Leaves(fields[i].1, FieldPath(path, fields[i].0)) {
      i := InFields(owner, fields[..i], path, a);
    }
  }

  lemma {:induction false} DigitsPlain(n: nat)
    ensures Plain(Digits(n)) && ']' !in Digits(n) && Digits(n) != []
  {
    if n >= 10 {
      DigitsPlain(n / 10);
    }
  }

  lemma {:induction false} DigitsInjective(m: nat, n: nat)
    requires Digits(m) == Digits(n)
    ensures m == n
    decreases m
  {
    var a, b := Digits(m), Digits(n);
    assert m % 10 == n % 10 by {
      LastDigit(m);
      LastDigit(n);
    }
    if m >= 10 && n >= 10 {
      assert Digits(m / 10) == a[..|a| - 1] == Digits(n / 10);
      DigitsInjective(m / 10, n / 10);
    } else if m >= 10 {
      DigitsPlain(m / 10);
    } else if n >= 10 {
      DigitsPlain(n / 10);
    }
  }

  lemma LastDigit(n: nat)
    ensures Digits(n) != [] && Digits(n)[|Digits(n)| - 1] == (n % 10 + 48) as char
  {
  }

  lemma ItemPathPlain(path: string, i: nat)
    requires NoMark(path)
    ensures NoMark(ItemPath(path, i)) && Extends(ItemPath(path, i), path)
  {
    DigitsPlain(i);
    assert ItemPath(path, i)[..|path|] == path;
  }

  lemma FieldPathPlain(path: string, key: string)
    requires NoMark(path) && Plain(key)
    ensures NoMark(FieldPath(path, key)) && Extends(FieldPath(path, key), path)
  {
    assert FieldPath(path, key)[..|path|] == path;
  }

  lemma ExtendsOn(q: string, longer: string, path: string)
    requires Extends(q, longer) && Extends(longer, path)
    ensures Extends(q, path)
  {
    assert q[..|longer|] == longer;
    assert q[..|path|] == longer[..|path|];
    if |path| < |longer| {
      assert q[..|longer|][|path|] == longer[|path|];
    }
  }

  /** A leaf is a nonempty string, and its path extends the path of its value. */
  lemma {:induction false} LeafPath(v: Json, path: string, a: Secret)
    requires PlainValue(v) && NoMark(path) && a in Leaves(v, path)
    ensures Extends(a.path, path) && NoMark(a.path) && a.text != [] && NoMark(a.text)
    decreases v
  {
    match v
    case String(s) =>
      assert path[..|path|] == path;
    case Array(items) =>
      var i := InItems(v, items, path, a);
      ItemPathPlain(path, i);
      LeafPath(items[i], ItemPath(path, i), a);
      ExtendsOn(a.path, ItemPath(path, i), path);
    case Object(fields) =>
      var i := InFields(v, fields, path, a);
      FieldPathPlain(path, fields[i].0);
      LeafPath(fields[i].1, FieldPath(path, fields[i].0), a);
      ExtendsOn(a.path, FieldPath(path, fields[i].0), path);
  }

  /** A path goes through one key. */
  lemma SameKey(q: string, base: string, k: string, l: string)
    requires Plain(k) && Plain(l) && Extends(q, base + k) && Extends(q, base + l)
    ensures k == l
  {
    KeyNotShorter(q, base, k, l);
    KeyNotShorter(q, base, l, k);
    assert q[|base|..|base| + |k|] == (base + k)[|base|..] == k;
    assert q[|base|..|base| + |l|] == (base + l)[|base|..] == l;
  }

  lemma KeyNotShorter(q: string, base: string, k: string, l: string)
    requires Plain(l) && Extends(q, base + k) && Extends(q, base + l)
    ensures |l| <= |k|
  {
    if |k| < |l| {
      CharAt(q, base, l, |k|);
    }
  }

  lemma CharAt(q: string, base: string, s: string, i: nat)
    requires StartsWith(q, base + s) && i < |s|
    ensures q[|base| + i] == s[i] && s[i] in s
  {
    assert q[..|base + s|][|base| + i] == (base + s)[|base| + i];
  }

  /** And through one index. */
  lemma SameIndex(q: string, path: string, i: nat, j: nat)
    requires StartsWith(q, ItemPath(path, i)) && StartsWith(q, ItemPath(path, j))
    ensures i == j
  {
    var base, a, b := path + "[", Digits(i), Digits(j);
    DigitsPlain(i);
    DigitsPlain(j);
    IndexNotShorter(q, base, a, b);
    IndexNotShorter(q, base, b, a);
    assert q[|base|..|base| + |a|] == (base + a + "]")[|base|..|base| + |a|] == a;
    assert q[|base|..|base| + |b|] == (base + b + "]")[|base|..|base| + |b|] == b;
    DigitsInjective(i, j);
  }

  lemma IndexNotShorter(q: string, base: string, a: string, b: string)
    requires ']' !in b && StartsWith(q, base + a + "]") && StartsWith(q, base + b + "]")
    ensures |b| <= |a|
  {
    assert base + a + "]" == base + (a + "]") && base + b + "]" == base + (b + "]");
    CharAt(q, base, a + "]", |a|);
    if |a| < |b| {
      CharAt(q, base, b + "]", |a|);
    }
  }

  /** With plain keys a path names one string of the value. */
  lemma {:induction false} OneLeaf(v: Json, path: string, a: Secret, b: Secret)
    requires PlainValue(v) && NoMark(path) && a in Leaves(v, path) && b in Leaves(v, path) && a.path == b.path
    ensures a == b
    decreases v
  {
    match v
    case String(s) =>
    case Array(items) =>
      var i := InItems(v, items, path, a);
      var j := InItems(v, items, path, b);
      ItemPathPlain(path, i);
      ItemPathPlain(path, j);
      LeafPath(items[i], ItemPath(path, i), a);
      LeafPath(items[j], ItemPath(path, j), b);
      SameIndex(a.path, path, i, j);
      OneLeaf(items[i], ItemPath(path, i), a, b);
    case Object(fields) =>
      var i := InFields(v, fields, path, a);
      var j := InFields(v, fields, path, b);
      FieldPathPlain(path, fields[i].0);
      FieldPathPlain(path, fields[j].0);
      LeafPath(fields[i].1, FieldPath(path, fields[i].0), a);
      LeafPath(fields[j].1, FieldPath(path, fields[j].0), b);
      SameKey(a.path, path + ".", fields[i].0, fields[j].0);
      assert i == j;
      OneLeaf(fields[i].1, FieldPath(path, fields[i].0), a, b);
  }

  // ── the table ─────────────────────────────────────────────────────────────

  /** Names are plain and not empty, values are plain, and a name has one value. */
  ghost predicate PlainValues(values: Values) {
    && (forall i :: 0 <= i < |values| ==> values[i].0 != [] && Plain(values[i].0))
    && (forall i :: 0 <= i < |values| && values[i].1.Some? ==> PlainValue(values[i].1.value))
    && forall i, j :: 0 <= i < j < |values| && values[i].0 == values[j].0 ==> values[i].1 == values[j].1
  }

  ghost predicate IsLeaf(values: Values, i: int, a: Secret) {
    0 <= i < |values| && values[i].1.Some? && a in Leaves(values[i].1.value, values[i].0)
  }

  /** The gathered entries are the strings of the values. */
  lemma {:induction false} Gathered(values: Values, a: Secret)
    ensures a in Gather(values) <==> exists i :: IsLeaf(values, i, a)
  {
    if values != [] {
      var n := |values| - 1;
      var rest := values[..n];
      Gathered(rest, a);
      if i :| IsLeaf(rest, i, a) {
        assert IsLeaf(values, i, a);
      }
      if i :| IsLeaf(values, i, a) {
        assert i < n ==> IsLeaf(rest, i, a);
        assert IsLeaf(values, n, a) <==> values[n].1.Some? && a in Leaves(values[n].1.value, values[n].0);
      }
      if a in Gather(values) && a !in Gather(rest) {
        assert IsLeaf(values, n, a);
      }
    }
  }

  lemma GatheredAgree(values: Values)
    requires PlainValues(values)
    ensures PathsAgree(Gather(values))
  {
    var all := Gather(values);
    forall a, b | a in all && b in all && a.path == b.path ensures a.text == b.text {
      Gathered(values, a);
      Gathered(values, b);
      var i :| IsLeaf(values, i, a);
      var j :| IsLeaf(values, j, b);
      LeafPath(values[i].1.value, values[i].0, a);
      LeafPath(values[j].1.value, values[j].0, b);
      assert "" + values[i].0 == values[i].0 && "" + values[j].0 == values[j].0;
      SameKey(a.path, "", values[i].0, values[j].0);
      OneLeaf(values[i].1.value, values[i].0, a, b);
    }
  }

  lemma TableEntries(values: Values)
    ensures Sorted(Table(values)) && forall s :: s in Table(values) ==> s in Gather(values)
  {
    var all := Gather(values);
    SortSorts(all);
    DedupSorted(Sort(all));
    DedupMembers(Sort(all));
  }

  /** Whatever the values are, the table replaces no secret inside a longer one. */
  lemma TableOrdered(values: Values)
    ensures Ordered(Table(values))
  {
    TableEntries(values);
    var t := Table(values);
    forall i, j | 0 <= i < j < |t| ensures Bytes(t[i].text) >= Bytes(t[j].text) {
      assert !Before(t[j], t[i]);
    }
    LongestFirst(t);
  }

  /** Every string of a resolved value is in the table, and nothing else is. */
  lemma TableComplete(values: Values, text: string)
    ensures HasText(Table(values), text) <==> exists i, a :: IsLeaf(values, i, a) && a.text == text
  {
    var all, t := Gather(values), Table(values);
    SortSorts(all);
    if HasText(t, text) {
      TableEntries(values);
      var s :| s in t && s.text == text;
      Gathered(values, s);
      var i :| IsLeaf(values, i, s);
    }
    if i, a :| IsLeaf(values, i, a) && a.text == text {
      Gathered(values, a);
      assert a in Sort(all);
      DedupTexts(Sort(all), text);
    }
  }

  /** Plain names and keys give distinct, nonempty, mark-free paths. */
  lemma TableWellFormed(values: Values)
    requires PlainValues(values)
    ensures WellFormed(Table(values))
  {
    var t := Table(values);
    forall i | 0 <= i < |t|
      ensures t[i].text != [] && NoMark(t[i].text) && NoMark(t[i].path) && t[i].path != []
    {
      EntryPlain(values, t[i]);
    }
    GatheredAgree(values);
    SortSorts(Gather(values));
    DedupDistinct(Sort(Gather(values)));
  }

  lemma EntryPlain(values: Values, s: Secret)
    requires PlainValues(values) && s in Table(values)
    ensures s.text != [] && NoMark(s.text) && NoMark(s.path) && s.path != []
  {
    TableEntries(values);
    Gathered(values, s);
    var n :| IsLeaf(values, n, s);
    LeafPath(values[n].1.value, values[n].0, s);
  }

  /** So a run whose secrets have plain names and keys gets every text back exactly if
      each of its secrets' own markers is read back. */
  lemma TableRoundTrip(values: Values)
    requires PlainValues(values)
    ensures WellFormed(Table(values))
    ensures Decodable(Table(values)) <==> forall text :: Load(Table(values), Text(Table(values), text)) == Ok(text)
  {
    TableWellFormed(values);
    TableOrdered(values);
    RoundTripExactly(Table(values));
  }

  // ── without plain keys ────────────────────────────────────────────────────

  /** A key with a dot reads like a nested key, and two secrets share one path. */
  lemma PathsMayCollide(x: string, y: string)
    requires x != [] && y != []
    ensures var v := Object([("b", Object([("c", String(x))])), ("b.c", String(y))]);
            Leaves(v, "a") == [Secret(x, "a.b.c"), Secret(y, "a.b.c")]
  {
    var inner := Object([("c", String(x))]);
    var v := Object([("b", inner), ("b.c", String(y))]);
    assert inner.fields[..0] == [] && v.fields[..1] == [("b", inner)] && v.fields[..1][..0] == [];
    assert FieldPath("a", "b") == "a.b" && FieldPath("a.b", "c") == "a.b.c" && FieldPath("a", "b.c") == "a.b.c";
    assert LeavesOfFields(inner, inner.fields, "a.b") == LeavesOfFields(inner, inner.fields[..0], "a.b") + Leaves(String(x), "a.b.c");
    assert Leaves(inner, "a.b") == [Secret(x, "a.b.c")];
    assert LeavesOfFields(v, v.fields[..1], "a") == LeavesOfFields(v, v.fields[..1][..0], "a") + Leaves(inner, "a.b");
    assert LeavesOfFields(v, v.fields[..1], "a") == [Secret(x, "a.b.c")];
    assert Leaves(String(y), "a.b.c") == [Secret(y, "a.b.c")];
    assert LeavesOfFields(v, v.fields, "a") == LeavesOfFields(v, v.fields[..1], "a") + Leaves(String(y), "a.b.c");
  }

  /** Then some text does not come back, whatever the two secrets are, as long as they
      differ and their shared path does not contain them. */
  lemma CollisionLosesText(x: string, y: string)
    requires x != [] && y != [] && x != y && NoMark(x) && NoMark(y)
    requires !Contains("a.b.c", x) && !Contains("a.b.c", y)
    ensures var v := Object([("b", Object([("c", String(x))])), ("b.c", String(y))]);
            var t := Table([("a", Some(v))]);
            MarkFree(t) && exists text :: Load(t, Text(t, text)) != Ok(text)
  {
    PathsMayCollide(x, y);
    TwoLeavesLose("a", Object([("b", Object([("c", String(x))])), ("b.c", String(y))]), x, y, "a.b.c");
  }

  lemma TwoLeavesLose(name: string, v: Json, x: string, y: string, p: string)
    requires Leaves(v, name) == [Secret(x, p), Secret(y, p)] && x != [] && y != [] && x != y
    requires NoMark(x) && NoMark(y) && NoMark(p) && p != [] && !Contains(p, x) && !Contains(p, y)
    ensures var t := Table([(name, Some(v))]); MarkFree(t) && exists text :: Load(t, Text(t, text)) != Ok(text)
  {
    var values: Values := [(name, Some(v))];
    assert values[..0] == [] && Gather(values) == Gather(values[..0]) + Leaves(v, name);
    assert Gather(values) == [Secret(x, p), Secret(y, p)];
    var t := TwoEntries(x, y, p);
    TableOrdered(values);
    SharedPathLoses(t);
  }

  /** Of two secrets with one path the second does not come back. */
  lemma SharedPathLoses(t: seq<Secret>)
    requires |t| == 2 && MarkFree(t) && Ordered(t) && t[0].text != t[1].text && t[0].path == t[1].path != []
    requires !Contains(t[0].path, t[0].text) && !Contains(t[0].path, t[1].text)
    ensures exists text :: Load(t, Text(t, text)) != Ok(text)
  {
    assert First(t, 1);
    PathsDecide(t);
    RoundTripExactly(t);
  }

  lemma TwoEntries(x: string, y: string, p: string) returns (t: seq<Secret>)
    requires x != y
    ensures t == Dedup(Sort([Secret(x, p), Secret(y, p)]))
    ensures t == [Secret(x, p), Secret(y, p)] || t == [Secret(y, p), Secret(x, p)]
  {
    var a, b := Secret(x, p), Secret(y, p);
    SortLast([], a);
    assert [] + [a] == [a] && [a] + [b] == [a, b];
    t := [a, b];
    if Before(b, a) {
      assert [a, b][..1] == [a];
      t := [b, a];
    } else {
      SortLast([a], b);
    }
    DedupLast([], t[0]);
    DedupLast([t[0]], t[1]);
    assert [] + [t[0]] == [t[0]] && [t[0]] + [t[1]] == t;
  }
}

/**
 The order of stored strings and of `(kind, id)` keys, and the selection of the
 first rows of a range. Characters are Unicode scalar values, whose numeric order
 is the order of their UTF-8 encodings, so `Less` is the binary order of the rows.
 */
module Order {

  type Key = (string, string)

  /** Lexicographic order of strings. */
  predicate Less(a: string, b: string)
    decreases |a|
  {
    b != [] && (a == [] || a[0] < b[0] || (a[0] == b[0] && Less(a[1..], b[1..])))
  }

  /** Order of the ordered map: by kind, then by id. */
  predicate KeyLess(a: Key, b: Key) {
    Less(a.0, b.0) || (a.0 == b.0 && Less(a.1, b.1))
  }

  lemma {:induction false} LessIrreflexive(a: string)
    ensures !Less(a, a)
  {
    if a != [] {
      LessIrreflexive(a[1..]);
    }
  }

  lemma {:induction false} LessTransitive(a: string, b: string, c: string)
    requires Less(a, b) && Less(b, c)
    ensures Less(a, c)
    decreases |a|
  {
    if a != [] && a[0] == b[0] && b[0] == c[0] {
      LessTransitive(a[1..], b[1..], c[1..]);
    }
  }

  lemma {:induction false} LessConnected(a: string, b: string)
    ensures a == b || Less(a, b) || Less(b, a)
    decreases |a|
  {
    if a != [] && b != [] && a[0] == b[0] {
      LessConnected(a[1..], b[1..]);
      assert a == [a[0]] + a[1..] && b == [b[0]] + b[1..];
    }
  }

  /** The key order is a strict total order. */
  lemma KeyOrder()
    ensures forall a: Key :: !KeyLess(a, a)
    ensures forall a: Key, b: Key, c: Key :: KeyLess(a, b) && KeyLess(b, c) ==> KeyLess(a, c)
    ensures forall a: Key, b: Key :: a == b || KeyLess(a, b) || KeyLess(b, a)
  {
    forall a: Key ensures !KeyLess(a, a) {
      LessIrreflexive(a.0);
      LessIrreflexive(a.1);
    }
    forall a: Key, b: Key, c: Key | KeyLess(a, b) && KeyLess(b, c) ensures KeyLess(a, c) {
      KeyTransitive(a, b, c);
    }
    forall a: Key, b: Key ensures a == b || KeyLess(a, b) || KeyLess(b, a) {
      LessConnected(a.0, b.0);
      LessConnected(a.1, b.1);
    }
  }

  lemma KeyTransitive(a: Key, b: Key, c: Key)
    requires KeyLess(a, b) && KeyLess(b, c)
    ensures KeyLess(a, c)
  {
    if Less(a.0, b.0) && Less(b.0, c.0) {
      LessTransitive(a.0, b.0, c.0);
    } else if a.0 == b.0 == c.0 {
      LessTransitive(a.1, b.1, c.1);
    }
  }

  predicate IsMin(m: Key, s: set<Key>) {
    m in s && forall k :: k in s && k != m ==> KeyLess(m, k)
  }

  lemma {:induction false} MinExists(s: set<Key>)
    requires s != {}
    ensures exists m :: IsMin(m, s)
    decreases |s|
  {
    KeyOrder();
    var x :| x in s;
    var rest := s - {x};
    if rest == {} {
      assert s == {x};
      assert IsMin(x, s);
    } else {
      MinExists(rest);
      var m :| IsMin(m, rest);
      assert IsMin(if KeyLess(x, m) then x else m, s);
    }
  }

  /** The smallest key of a nonempty set. */
  function Min(s: set<Key>): (m: Key)
    requires s != {}
    ensures IsMin(m, s)
  {
    MinExists(s);
    KeyOrder();
    var m :| IsMin(m, s); m
  }

  /** An initial segment of `s` of `n` keys, or all of `s`. */
  predicate IsFirst(r: set<Key>, s: set<Key>, n: nat) {
    r <= s && |r| == (if n < |s| then n else |s|) &&
    forall a, b :: a in r && b in s - r ==> KeyLess(a, b)
  }

  /** An initial segment is determined by its size. */
  lemma FirstUnique(r: set<Key>, f: set<Key>, s: set<Key>, n: nat)
    requires IsFirst(r, s, n) && IsFirst(f, s, n)
    ensures r == f
  {
    KeyOrder();
    if r <= f {
      SubsetOfSameSize(r, f);
    } else {
      var a :| a in r && a !in f;
      forall b | b in f ensures b in r {
        assert a in s - f && KeyLess(b, a);
        assert b in s - r ==> KeyLess(a, b);
      }
      SubsetOfSameSize(f, r);
    }
  }

  /** Takes the first `n` keys of `s`, one smallest key at a time. */
  method TakeFirst(s: set<Key>, n: nat) returns (r: set<Key>)
    ensures IsFirst(r, s, n)
  {
    r := {};
    var rest := s;
    while |r| < n && rest != {}
      invariant r !! rest && r + rest == s && |r| <= n
      invariant forall a, b :: a in r && b in rest ==> KeyLess(a, b)
      decreases rest
    {
      var m := Min(rest);
      r, rest := r + {m}, rest - {m};
    }
    assert s - r == rest;
  }

  lemma SubsetOfSameSize<T>(a: set<T>, b: set<T>)
    requires a <= b && |a| == |b|
    ensures a == b
  {
    assert |b - a| == |b| - |a|;
    assert b - a == {};
  }

  lemma SubsetSize<T>(a: set<T>, b: set<T>)
    requires a <= b
    ensures |a| <= |b|
  {
    assert |b - a| == |b| - |a|;
  }

  /** The keys of `s` in ascending order. */
  function Sorted(s: set<Key>): (r: seq<Key>)
    decreases |s|
  {
    if s == {} then [] else
      assert |s - {Min(s)}| == |s| - 1;
      [Min(s)] + Sorted(s - {Min(s)})
  }

  /** `Sorted` lists every key of the set once, in ascending order. */
  lemma {:induction false} SortedLists(s: set<Key>)
    ensures |Sorted(s)| == |s|
    ensures forall k :: k in Sorted(s) <==> k in s
    ensures forall i, j :: 0 <= i < j < |Sorted(s)| ==> KeyLess(Sorted(s)[i], Sorted(s)[j])
    decreases |s|
  {
    if s != {} {
      var m := Min(s);
      assert |s - {m}| == |s| - 1;
      SortedLists(s - {m});
    }
  }
}

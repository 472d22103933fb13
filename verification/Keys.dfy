/**
 Order-preserving keys: instants as fixed-width hexadecimal text, ranges of timed keys,
 and the range of the strings with a given prefix.
 */
module Keys {
  import opened Options
  import opened Order

  // ── comparison of concatenations ──────────────────────────────────────────

  /** Texts of equal length before a difference decide the order. */
  lemma {:induction false} LessAppend(a: string, b: string, x: string, y: string)
    requires |a| == |b|
    ensures Less(a + x, b + y) <==> Less(a, b) || (a == b && Less(x, y))
    decreases |a|
  {
    if a == [] {
      assert a + x == x && b + y == y;
    } else {
      LessAppend(a[1..], b[1..], x, y);
      assert (a + x)[1..] == a[1..] + x && (b + y)[1..] == b[1..] + y;
      assert a == [a[0]] + a[1..] && b == [b[0]] + b[1..];
    }
  }

  // ── instants ──────────────────────────────────────────────────────────────

  const TOP := 0x8000_0000_0000_0000
  const WORD := 0x1_0000_0000_0000_0000

  predicate IsInstant(ms: int) {
    -TOP <= ms < TOP
  }

  /** The two's complement bits of an instant, as a number. */
  function Bits(ms: int): nat
    requires IsInstant(ms)
  {
    if ms >= 0 then ms else ms + WORD
  }

  /** Flips the highest of 64 bits. */
  function Flip(u: nat): nat
    requires u < WORD
  {
    if u >= TOP then u - TOP else u + TOP
  }

  const DIGITS := "0123456789abcdef"

  function Digit(d: nat): char
    requires d < 16
  {
    DIGITS[d]
  }

  function Power16(n: nat): nat {
    if n == 0 then 1 else 16 * Power16(n - 1)
  }

  /** Fixed-width lower-case hexadecimal. */
  function Hex(n: nat, width: nat): (h: string)
    ensures |h| == width
  {
    if width == 0 then "" else Hex(n / 16, width - 1) + [Digit(n % 16)]
  }

  function Value(c: char): Option<nat> {
    if '0' <= c <= '9' then Some((c - '0') as nat)
    else if 'a' <= c <= 'f' then Some((c - 'a') as nat + 10)
    else None
  }

  function FromHex(h: string): Option<nat> {
    if h == "" then Some(0)
    else
      match (FromHex(h[..|h| - 1]), Value(h[|h| - 1]))
      case (Some(n), Some(d)) => Some(16 * n + d)
      case _ => None
  }

  function TimeKey(ms: int): string
    requires IsInstant(ms)
  {
    Hex(Flip(Bits(ms)), 16)
  }

  function FromTimeKey(k: string): Option<int> {
    match FromHex(k)
    case None => None
    case Some(u) =>
      if u >= WORD then None
      else if Flip(u) < TOP then Some(Flip(u)) else Some(Flip(u) - WORD)
  }

  lemma DigitOrder(a: nat, b: nat)
    requires a < 16 && b < 16
    ensures (Digit(a) < Digit(b) <==> a < b) && (Digit(a) == Digit(b) <==> a == b) && Value(Digit(a)) == Some(a)
  {
  }

  lemma LessOne(x: char, y: char)
    ensures Less([x], [y]) <==> x < y
  {
  }

  /** Fixed-width hexadecimal compares as the numbers do. */
  lemma {:induction false} HexOrder(m: nat, n: nat, width: nat)
    requires m < Power16(width) && n < Power16(width)
    ensures Less(Hex(m, width), Hex(n, width)) <==> m < n
    ensures Hex(m, width) == Hex(n, width) <==> m == n
    decreases width
  {
    if width > 0 {
      HexOrder(m / 16, n / 16, width - 1);
      var a, b, x, y := Hex(m / 16, width - 1), Hex(n / 16, width - 1), [Digit(m % 16)], [Digit(n % 16)];
      LessAppend(a, b, x, y);
      LessOne(Digit(m % 16), Digit(n % 16));
      DigitOrder(m % 16, n % 16);
      assert Hex(m, width) == a + x && Hex(n, width) == b + y;
      assert (a + x)[..width - 1] == a && (b + y)[..width - 1] == b;
      assert (a + x)[width - 1] == x[0] && (b + y)[width - 1] == y[0];
    }
  }

  lemma {:induction false} HexInverse(n: nat, width: nat)
    requires n < Power16(width)
    ensures FromHex(Hex(n, width)) == Some(n)
    decreases width
  {
    if width > 0 {
      HexInverse(n / 16, width - 1);
      DigitOrder(n % 16, n % 16);
      var h := Hex(n, width);
      assert h[..|h| - 1] == Hex(n / 16, width - 1);
    }
  }

  lemma SixteenDigits()
    ensures Power16(16) == WORD
  {
    assert Power16(4) == 0x1_0000;
    assert Power16(8) == 0x1_0000_0000;
    assert Power16(12) == 0x1_0000_0000_0000;
  }

  /** The text order of time keys is the order of the instants. */
  lemma TimeOrder(a: int, b: int)
    requires IsInstant(a) && IsInstant(b)
    ensures Less(TimeKey(a), TimeKey(b)) <==> a < b
    ensures TimeKey(a) == TimeKey(b) <==> a == b
  {
    SixteenDigits();
    HexOrder(Flip(Bits(a)), Flip(Bits(b)), 16);
  }

  /** Decoding a time key gives its instant back. */
  lemma TimeInverse(ms: int)
    requires IsInstant(ms)
    ensures FromTimeKey(TimeKey(ms)) == Some(ms)
  {
    SixteenDigits();
    HexInverse(Flip(Bits(ms)), 16);
  }

  function Timed(ms: int, id: string): string
    requires IsInstant(ms)
  {
    TimeKey(ms) + (":" + id)
  }

  /** The exclusive end of the timed keys up to an instant. */
  function Until(ms: int): string
    requires IsInstant(ms)
  {
    TimeKey(ms) + ";"
  }

  /** A timed key lies before the end of a range exactly when its instant is in it. */
  lemma TimedRange(ms: int, id: string, now: int)
    requires IsInstant(ms) && IsInstant(now)
    ensures Less(Timed(ms, id), Until(now)) <==> ms <= now
  {
    LessAppend(TimeKey(ms), TimeKey(now), ":" + id, ";");
    TimeOrder(ms, now);
    assert Less(":" + id, ";");
  }

  /** Timed keys are ordered by instant, then by what follows. */
  lemma TimedOrder(a: int, x: string, b: int, y: string)
    requires IsInstant(a) && IsInstant(b)
    ensures Less(Timed(a, x), Timed(b, y)) <==> a < b || (a == b && Less(x, y))
    ensures Timed(a, x) == Timed(b, y) <==> a == b && x == y
  {
    LessAppend(TimeKey(a), TimeKey(b), ":" + x, ":" + y);
    LessAppend(":", ":", x, y);
    TimeOrder(a, b);
    var s, t := Timed(a, x), Timed(b, y);
    assert s[..16] == TimeKey(a) && t[..16] == TimeKey(b);
    assert s[17..] == x && t[17..] == y;
  }

  // ── copies that may never expire ──────────────────────────────────────────

  /** The live index key of a copy: its expiry, or `~` where a time key would stand. */
  function LiveKey(expires: Option<int>, id: string): string
    requires expires.Some? ==> IsInstant(expires.value)
  {
    match expires
    case Some(at) => Timed(at, id)
    case None => "~:" + id
  }

  lemma {:induction false} HexBelowTilde(n: nat, width: nat)
    ensures forall i :: 0 <= i < width ==> Hex(n, width)[i] < '~'
  {
    if width > 0 {
      HexBelowTilde(n / 16, width - 1);
      assert forall j :: 0 <= j < 16 ==> DIGITS[j] < '~';
    }
  }

  /** The key without an expiry follows each key with one, even of the last instant. */
  lemma NeverIsLast(at: int, x: string, y: string)
    requires IsInstant(at)
    ensures Less(Timed(at, x), LiveKey(None, y)) && !Less(LiveKey(None, y), Until(at))
  {
    HexBelowTilde(Flip(Bits(at)), 16);
    var never := LiveKey(None, y);
    assert never[0] == '~' && TimeKey(at)[0] < '~';
    assert Timed(at, x)[0] == TimeKey(at)[0] == Until(at)[0];
  }

  /** Scanning the live index from the end of `now` reads exactly the copies that are not
      expired then. */
  lemma LiveScan(expires: Option<int>, id: string, now: int)
    requires IsInstant(now) && (expires.Some? ==> IsInstant(expires.value))
    ensures !Less(LiveKey(expires, id), Until(now)) <==> expires.None? || now < expires.value
  {
    match expires
    case Some(at) => TimedRange(at, id, now);
    case None => NeverIsLast(now, id, id);
  }

  // ── prefixes ──────────────────────────────────────────────────────────────

  const LAST: char := '\U{10FFFF}'

  /** No character lies between the two. */
  ghost predicate Adjacent(c: char, n: char) {
    c < n && (n as int == c as int + 1 || (c as int == 0xd7ff && n as int == 0xe000))
  }

  lemma NoneBetween(c: char, n: char, d: char)
    requires Adjacent(c, n) && c < d
    ensures n <= d
  {
  }

  /** The next character: surrogate code points are none. */
  function Next(c: char): (n: char)
    requires c != LAST
    ensures Adjacent(c, n)
  {
    if c as int == 0xd7ff then 0xe000 as char else (c as int + 1) as char
  }

  /** The first string above all that start with the prefix; none: there is no such. */
  function PrefixEnd(p: string): Option<string> {
    if p == "" then None
    else if p[|p| - 1] == LAST then PrefixEnd(p[..|p| - 1])
    else Some(p[..|p| - 1] + [Next(p[|p| - 1])])
  }

  /** As the store computes it, dropping last characters that have no successor. */
  method FindPrefixEnd(p: string) returns (end: Option<string>)
    ensures end == PrefixEnd(p)
  {
    var chars := p;
    while chars != ""
      invariant PrefixEnd(chars) == PrefixEnd(p)
      decreases |chars|
    {
      var last := chars[|chars| - 1];
      chars := chars[..|chars| - 1];
      var next := last as int + 1;
      if next == 0xd800 {
        next := 0xe000;
      }
      if next <= 0x10ffff {
        return Some(chars + [next as char]);
      }
    }
    return None;
  }

  ghost predicate InRange(s: string, from: string, end: Option<string>) {
    !Less(s, from) && (end.None? || Less(s, end.value))
  }

  /** A string starts with `q + [c]` exactly when it starts with `q` and goes on with `c`. */
  lemma SplitPrefix(s: string, q: string, c: char)
    ensures q + [c] <= s <==> q <= s && |s| > |q| && s[|q|] == c
  {
    if |s| > |q| && q <= s && s[|q|] == c {
      assert s[..|q| + 1] == q + [c];
    }
    if q + [c] <= s {
      assert s[..|q|] == (q + [c])[..|q|] && s[|q|] == (q + [c])[|q|];
    }
  }

  /** Below a common prefix only the rest is compared. */
  lemma LessBelow(q: string, x: string, y: string)
    ensures Less(q + x, q + y) <==> Less(x, y)
  {
    LessAppend(q, q, x, y);
    LessIrreflexive(q);
  }

  lemma LessFirst(t: string, c: char)
    ensures !Less(t, [c]) <==> t != "" && t[0] >= c
    ensures t != "" ==> (Less(t, [c]) <==> t[0] < c)
  {
  }

  /** Between a prefix and the text with its last character advanced lies the prefix. */
  lemma AdvancedEnd(s: string, q: string, c: char, n: char)
    requires Adjacent(c, n)
    ensures InRange(s, q + [c], Some(q + [n])) <==> q + [c] <= s
  {
    SplitPrefix(s, q, c);
    if q <= s {
      var t := s[|q|..];
      assert s == q + t;
      LessBelow(q, t, [c]);
      LessBelow(q, t, [n]);
      LessFirst(t, c);
      LessFirst(t, n);
      if t != "" && c < t[0] {
        NoneBetween(c, n, t[0]);
      }
    } else {
      NotBelow(s, q, [c], [n]);
    }
  }

  lemma PrefixRest(s: string, q: string)
    requires s != "" && q != "" && s[0] == q[0]
    ensures q <= s <==> q[1..] <= s[1..]
  {
    assert s == [s[0]] + s[1..] && q == [q[0]] + q[1..];
  }

  /** A string that does not start with `q` compares alike with all that do. */
  lemma {:induction false} NotBelow(s: string, q: string, x: string, y: string)
    requires !(q <= s)
    ensures Less(s, q + x) <==> Less(s, q + y)
    ensures Less(s, q + x) <==> Less(s, q)
    decreases |q|
  {
    if s != "" && s[0] == q[0] {
      PrefixRest(s, q);
      NotBelow(s[1..], q[1..], x, y);
      assert (q + x)[1..] == q[1..] + x && (q + y)[1..] == q[1..] + y;
    }
  }

  /** A string lies in the range of a prefix exactly when it starts with it. */
  lemma {:induction false} PrefixRange(p: string, s: string)
    ensures InRange(s, p, PrefixEnd(p)) <==> p <= s
    decreases |p|
  {
    if p != "" {
      var q, c := p[..|p| - 1], p[|p| - 1];
      assert p == q + [c];
      if c == LAST {
        PrefixRange(q, s);
        LastRange(q, s);
      } else {
        AdvancedEnd(s, q, c, Next(c));
      }
    }
  }

  lemma LastRange(q: string, s: string)
    requires InRange(s, q, PrefixEnd(q)) <==> q <= s
    ensures InRange(s, q + [LAST], PrefixEnd(q)) <==> q + [LAST] <= s
  {
    SplitPrefix(s, q, LAST);
    if q <= s {
      var t := s[|q|..];
      assert s == q + t;
      LessBelow(q, t, [LAST]);
      LessFirst(t, LAST);
    } else {
      NotBelow(s, q, [LAST], []);
      assert q + [] == q;
    }
  }
}

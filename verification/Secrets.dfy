/**
 Redaction: every occurrence of a secret in persisted text is replaced by a marker
 `MARK path MARK` (a literal `MARK` is doubled), and restored when it is loaded.
 */
module Secrets {

  const MARK: char := '\U{0001}'

  datatype Result<+T> = Ok(value: T) | Err(path: string)

  /** A secret string and the path its marker names. */
  datatype Secret = Secret(text: string, path: string)

  // ── replacement of text ───────────────────────────────────────────────────

  predicate StartsWith(s: string, p: string) {
    |p| <= |s| && s[..|p|] == p
  }

  ghost predicate Contains(s: string, p: string) {
    exists i :: 0 <= i <= |s| && StartsWith(s[i..], p)
  }

  /** Every non-overlapping occurrence of `p`, from the left, replaced by `sub`. */
  function Replace(s: string, p: string, sub: string): string
    requires p != []
    decreases |s|
  {
    if s == [] then []
    else if StartsWith(s, p) then sub + Replace(s[|p|..], p, sub)
    else [s[0]] + Replace(s[1..], p, sub)
  }

  /** The replacement as a loop over the text. */
  method ReplaceAll(s: string, p: string, sub: string) returns (out: string)
    requires p != []
    ensures out == Replace(s, p, sub)
  {
    out := "";
    var i := 0;
    assert s[0..] == s;
    while i < |s|
      invariant 0 <= i <= |s|
      invariant out + Replace(s[i..], p, sub) == Replace(s, p, sub)
      decreases |s| - i
    {
      if StartsWith(s[i..], p) {
        assert s[i..][|p|..] == s[i + |p|..];
        out := out + sub;
        i := i + |p|;
      } else {
        assert s[i..][1..] == s[i + 1..];
        out := out + [s[i]];
        i := i + 1;
      }
    }
  }

  function Doubled(s: string): string {
    Replace(s, [MARK], [MARK, MARK])
  }

  function Marker(path: string): string {
    [MARK] + path + [MARK]
  }

  /** The text with each secret in turn replaced by its marker. */
  function Redact(out: string, secrets: seq<Secret>): string
    requires forall i :: 0 <= i < |secrets| ==> secrets[i].text != []
    decreases |secrets|
  {
    if secrets == [] then out else
      Redact(Replace(out, EscapedSecret(secrets[0].text), Marker(secrets[0].path)), secrets[1..])
  }

  function EscapedSecret(s: string): (r: string)
    ensures s != [] ==> r != []
  {
    Doubled(s)
  }

  function Text(secrets: seq<Secret>, text: string): string
    requires forall i :: 0 <= i < |secrets| ==> secrets[i].text != []
  {
    if secrets == [] then text else Redact(Doubled(text), secrets)
  }

  method RedactText(secrets: seq<Secret>, text: string) returns (out: string)
    requires forall i :: 0 <= i < |secrets| ==> secrets[i].text != []
    ensures out == Text(secrets, text)
  {
    if secrets == [] {
      return text;
    }
    out := ReplaceAll(text, [MARK], [MARK, MARK]);
    for i := 0 to |secrets|
      invariant Redact(out, secrets[i..]) == Text(secrets, text)
    {
      var secret := ReplaceAll(secrets[i].text, [MARK], [MARK, MARK]);
      out := ReplaceAll(out, secret, Marker(secrets[i].path));
      assert secrets[i..][1..] == secrets[i + 1..];
    }
  }

  // ── restoring ─────────────────────────────────────────────────────────────

  /** The length of the run before the next `MARK` (or the end). */
  function UpToMark(s: string): (n: nat)
    ensures n <= |s| && (n < |s| ==> s[n] == MARK) && forall i :: 0 <= i < n ==> s[i] != MARK
  {
    if s == [] || s[0] == MARK then 0 else 1 + UpToMark(s[1..])
  }

  function Find(secrets: seq<Secret>, path: string): (r: Result<string>)
    ensures r.Ok? ==> exists i :: 0 <= i < |secrets| && secrets[i].path == path && secrets[i].text == r.value
  {
    if secrets == [] then Err(path)
    else if secrets[0].path == path then Ok(secrets[0].text)
    else
      assert forall i :: 0 <= i < |secrets[1..]| ==> secrets[1..][i] == secrets[i + 1];
      Find(secrets[1..], path)
  }

  function Prepend(s: string, r: Result<string>): Result<string> {
    if r.Ok? then Ok(s + r.value) else r
  }

  /** The next piece of restored text: a character, a doubled `MARK`, or a secret. */
  function Piece(secrets: seq<Secret>, s: string): Result<string>
    requires s != []
  {
    if s[0] != MARK then Ok([s[0]]) else
      var n := UpToMark(s[1..]);
      if n == 0 then Ok([MARK]) else Find(secrets, s[1..1 + n])
  }

  /** How much of the stored text it takes: a marker ends at the next `MARK`. */
  function Used(s: string): (n: nat)
    requires s != []
    ensures 0 < n <= |s|
  {
    if s[0] != MARK then 1 else
      var n := UpToMark(s[1..]);
      if 1 + n < |s| then n + 2 else |s|
  }

  /** Text with its markers resolved. */
  function Restore(secrets: seq<Secret>, s: string): Result<string>
    decreases |s|
  {
    if s == [] then Ok([])
    else if Piece(secrets, s).Err? then Piece(secrets, s)
    else Prepend(Piece(secrets, s).value, Restore(secrets, s[Used(s)..]))
  }

  /** Loaded text; a run without secrets stores text as it is. */
  function Load(secrets: seq<Secret>, text: string): Result<string> {
    if secrets == [] then Ok(text) else Restore(secrets, text)
  }

  method RestoreText(secrets: seq<Secret>, text: string) returns (r: Result<string>)
    ensures r == Load(secrets, text)
  {
    if secrets == [] {
      return Ok(text);
    }
    var out, i := "", 0;
    assert text[0..] == text;
    PrependNothing(Restore(secrets, text));
    while i < |text|
      invariant 0 <= i <= |text|
      invariant Restore(secrets, text) == Prepend(out, Restore(secrets, text[i..]))
      decreases |text| - i
    {
      var rest := text[i..];
      var piece := Piece(secrets, rest);
      if piece.Err? {
        return piece;
      }
      assert rest[Used(rest)..] == text[i + Used(rest)..];
      PrependTwice(out, piece.value, Restore(secrets, text[i + Used(rest)..]));
      out, i := out + piece.value, i + Used(rest);
    }
    assert text[i..] == [] && out + [] == out;
    r := Ok(out);
  }

  lemma PrependNothing(r: Result<string>)
    ensures Prepend("", r) == r
  {
    if r.Ok? {
      assert "" + r.value == r.value;
    }
  }

  lemma PrependTwice(a: string, b: string, r: Result<string>)
    ensures Prepend(a, Prepend(b, r)) == Prepend(a + b, r)
  {
    if r.Ok? {
      assert a + (b + r.value) == (a + b) + r.value;
    }
  }

  // ── secrets ───────────────────────────────────────────────────────────────

  ghost predicate NoMark(s: string) {
    MARK !in s
  }

  /** Secrets are not empty, and neither they nor their paths hold a `MARK`. */
  ghost predicate MarkFree(secrets: seq<Secret>) {
    forall i :: 0 <= i < |secrets| ==> secrets[i].text != [] && NoMark(secrets[i].text) && NoMark(secrets[i].path)
  }

  ghost predicate DistinctPaths(secrets: seq<Secret>) {
    forall i, j :: 0 <= i < j < |secrets| ==> secrets[i].path != secrets[j].path
  }

  /** Marker paths moreover are not empty and are distinct. */
  ghost predicate WellFormed(secrets: seq<Secret>) {
    MarkFree(secrets) && DistinctPaths(secrets) && forall i :: 0 <= i < |secrets| ==> secrets[i].path != []
  }

  /** The entry is the first of its text; a later one never gets to replace it. */
  predicate First(secrets: seq<Secret>, i: nat) {
    i < |secrets| && forall h :: 0 <= h < i ==> secrets[h].text != secrets[i].text
  }

  /** No secret occurs in another one whose turn comes later. */
  ghost predicate Ordered(secrets: seq<Secret>) {
    forall i, j :: 0 <= i < j < |secrets| && secrets[i].text != secrets[j].text ==> !Contains(secrets[j].text, secrets[i].text)
  }

  /** No secret occurs in the path of a marker that is already in the text when its
      turn comes. */
  ghost predicate LaterNotInPaths(secrets: seq<Secret>) {
    forall i, j :: 0 <= i < j < |secrets| && First(secrets, i) ==> !Contains(secrets[i].path, secrets[j].text)
  }

  ghost predicate NoneInPaths(secrets: seq<Secret>) {
    forall i, j :: 0 <= i < |secrets| && 0 <= j < |secrets| && First(secrets, i) ==> !Contains(secrets[i].path, secrets[j].text)
  }

  /** What is stored for an occurrence of the secret at `i`: its marker, with what the
      secrets after it do to its path. */
  function Stored(secrets: seq<Secret>, i: nat): string
    requires i < |secrets| && forall j :: 0 <= j < |secrets| ==> secrets[j].text != []
  {
    Redact(Marker(secrets[i].path), secrets[i + 1..])
  }

  /** Each secret's own marker is read back as that secret: a test of the table. */
  predicate Decodable(secrets: seq<Secret>)
    requires forall j :: 0 <= j < |secrets| ==> secrets[j].text != []
  {
    forall i :: 0 <= i < |secrets| && First(secrets, i) ==> Restore(secrets, Stored(secrets, i)) == Ok(secrets[i].text)
  }

  // ── replacing does not cross a mark ───────────────────────────────────────

  function Marks(s: string): nat {
    if s == [] then 0 else (if s[0] == MARK then 1 else 0) + Marks(s[1..])
  }

  lemma {:induction false} MarksJoin(a: string, b: string)
    ensures Marks(a + b) == Marks(a) + Marks(b)
  {
    if a == [] {
      assert a + b == b;
    } else {
      assert (a + b)[1..] == a[1..] + b;
      MarksJoin(a[1..], b);
    }
  }

  lemma {:induction false} MarksOfFree(s: string)
    requires NoMark(s)
    ensures Marks(s) == 0
  {
    if s != [] {
      assert s[0] in s && forall c :: c in s[1..] ==> c in s;
      MarksOfFree(s[1..]);
    }
  }

  lemma MarksOfMarker(q: string)
    requires NoMark(q)
    ensures Marks(Marker(q)) == 2
  {
    MarksOfFree(q);
    MarksJoin([MARK] + q, [MARK]);
    MarksJoin([MARK], q);
    assert Marks([MARK]) == 1;
  }

  /** A replacement by a marker adds marks in pairs. */
  lemma {:induction false} ReplacePairs(s: string, p: string, q: string)
    requires p != [] && NoMark(p) && NoMark(q)
    ensures Marks(Replace(s, p, Marker(q))) % 2 == Marks(s) % 2
    decreases |s|
  {
    if s != [] {
      if StartsWith(s, p) {
        var rest := s[|p|..];
        ReplacePairs(rest, p, q);
        MarksOfMarker(q);
        MarksJoin(Marker(q), Replace(rest, p, Marker(q)));
        assert s == p + rest;
        MarksJoin(p, rest);
        MarksOfFree(p);
      } else {
        ReplacePairs(s[1..], p, q);
        var rest := Replace(s[1..], p, Marker(q));
        assert ([s[0]] + rest)[1..] == rest;
      }
    }
  }

  lemma Skip(s: string, p: string, sub: string, c: char, rest: string)
    requires p != [] && s == [c] + rest && !StartsWith(s, p)
    ensures Replace(s, p, sub) == [c] + Replace(rest, p, sub)
  {
    assert s[1..] == rest;
  }

  /** Text that ends in a mark is replaced apart from what follows it. */
  lemma {:induction false} ReplaceSplit(a: string, b: string, p: string, sub: string)
    requires p != [] && NoMark(p) && a != [] && a[|a| - 1] == MARK
    ensures Replace(a + b, p, sub) == Replace(a, p, sub) + Replace(b, p, sub)
    decreases |a|
  {
    var s := a + b;
    NotBeyondMark(a, b, p);
    if StartsWith(a, p) {
      assert s[|p|..] == a[|p|..] + b;
      ReplaceSplit(a[|p|..], b, p, sub);
      Associates(sub, Replace(a[|p|..], p, sub), Replace(b, p, sub));
    } else {
      Skip(s, p, sub, a[0], a[1..] + b);
      if |a| == 1 {
        assert a[1..] + b == b && Replace(a, p, sub) == [a[0]] + [];
      } else {
        ReplaceSplit(a[1..], b, p, sub);
        Associates([a[0]], Replace(a[1..], p, sub), Replace(b, p, sub));
      }
    }
  }

  lemma Associates(a: string, b: string, c: string)
    ensures a + (b + c) == (a + b) + c
  {
  }

  /** Mark-free text at the front lies before the first mark. */
  lemma NotBeyondMark(a: string, b: string, p: string)
    requires NoMark(p) && a != [] && a[|a| - 1] == MARK
    ensures StartsWith(a + b, p) <==> StartsWith(a, p)
    ensures StartsWith(a, p) ==> |p| < |a|
  {
    var s := a + b;
    if |p| < |a| {
      assert s[..|p|] == a[..|p|];
    } else if |p| <= |s| {
      assert s[..|p|][|a| - 1] == MARK && p[|a| - 1] in p;
      assert |p| == |a| ==> a[..|p|][|a| - 1] == MARK;
    }
  }

  /** What replacing a text leaves of a marker: it begins and ends with a mark, and its
      marks come in pairs. */
  ghost predicate Closed(s: string) {
    s != [] && s[0] == MARK && s[|s| - 1] == MARK && Marks(s) % 2 == 0
  }

  lemma {:induction false} ReplaceEnd(s: string, p: string, sub: string)
    requires p != [] && NoMark(p) && s != [] && s[|s| - 1] == MARK
    ensures var r := Replace(s, p, sub); r != [] && r[|r| - 1] == MARK
    decreases |s|
  {
    assert s + [] == s;
    NotBeyondMark(s, [], p);
    if StartsWith(s, p) {
      ReplaceEnd(s[|p|..], p, sub);
    } else if |s| > 1 {
      ReplaceEnd(s[1..], p, sub);
    }
  }

  lemma ReplaceClosed(s: string, p: string, q: string)
    requires p != [] && NoMark(p) && NoMark(q) && Closed(s)
    ensures Closed(Replace(s, p, Marker(q)))
  {
    ReplaceEnd(s, p, Marker(q));
    ReplacePairs(s, p, q);
    assert p[0] in p;
    assert s == [MARK] + s[1..];
    Skip(s, p, Marker(q), MARK, s[1..]);
  }

  /** The marker of the secret at `i` before the turn of the one at `k`. */
  function Staged(secrets: seq<Secret>, i: nat, k: nat): string
    requires i < k <= |secrets| && forall j :: 0 <= j < |secrets| ==> secrets[j].text != []
    decreases k
  {
    if k == i + 1 then Marker(secrets[i].path)
    else Replace(Staged(secrets, i, k - 1), secrets[k - 1].text, Marker(secrets[k - 1].path))
  }

  lemma {:induction false} StagedClosed(secrets: seq<Secret>, i: nat, k: nat)
    requires i < k <= |secrets| && MarkFree(secrets)
    ensures Closed(Staged(secrets, i, k))
    decreases k
  {
    if k == i + 1 {
      MarksOfMarker(secrets[i].path);
    } else {
      StagedClosed(secrets, i, k - 1);
      ReplaceClosed(Staged(secrets, i, k - 1), secrets[k - 1].text, secrets[k - 1].path);
    }
  }

  lemma {:induction false} StagedIsRedacted(secrets: seq<Secret>, i: nat, k: nat)
    requires i < k <= |secrets| && MarkFree(secrets)
    ensures Redact(Staged(secrets, i, k), secrets[k..]) == Staged(secrets, i, |secrets|)
    decreases |secrets| - k
  {
    if k < |secrets| {
      assert secrets[k..][0] == secrets[k] && secrets[k..][1..] == secrets[k + 1..];
      DoubledMarkFree(secrets[k].text);
      StagedIsRedacted(secrets, i, k + 1);
    }
  }

  lemma StoredIs(secrets: seq<Secret>, i: nat)
    requires i < |secrets| && MarkFree(secrets)
    ensures Stored(secrets, i) == Staged(secrets, i, |secrets|)
  {
    StagedIsRedacted(secrets, i, i + 1);
  }

  // ── restoring piece by piece ──────────────────────────────────────────────

  lemma {:induction false} UpToMarkIs(p: string, rest: string)
    requires NoMark(p)
    ensures UpToMark(p + [MARK] + rest) == |p|
  {
    if p != [] {
      assert (p + [MARK] + rest)[1..] == p[1..] + [MARK] + rest;
      UpToMarkIs(p[1..], rest);
    }
  }

  function Then(r: Result<string>, rest: Result<string>): Result<string> {
    if r.Err? then r else Prepend(r.value, rest)
  }

  /** Text whose marks come in pairs is read apart from what follows it. */
  lemma {:induction false} RestoreSplit(secrets: seq<Secret>, a: string, b: string)
    requires Marks(a) % 2 == 0
    ensures Restore(secrets, a + b) == Then(Restore(secrets, a), Restore(secrets, b))
    decreases |a|
  {
    if a == [] {
      assert a + b == b;
      PrependNothing(Restore(secrets, b));
    } else {
      SameFront(secrets, a, b);
      var n := Used(a);
      assert (a + b)[n..] == a[n..] + b;
      RestoreSplit(secrets, a[n..], b);
      if Piece(secrets, a).Ok? && Restore(secrets, a[n..]).Ok? {
        PrependTwice(Piece(secrets, a).value, Restore(secrets, a[n..]).value, Restore(secrets, b));
      }
    }
  }

  lemma SameFront(secrets: seq<Secret>, a: string, b: string)
    requires a != [] && Marks(a) % 2 == 0
    ensures Used(a + b) == Used(a) && Piece(secrets, a + b) == Piece(secrets, a) && Marks(a[Used(a)..]) % 2 == 0
  {
    if a[0] == MARK {
      var p, tail := FrontMarker(a);
      MarkerFront(secrets, p, tail);
      MarkerFront(secrets, p, tail + b);
      assert a + b == Marker(p) + (tail + b);
      assert a[|p| + 2..] == tail;
    }
  }

  /** Paired marks: the first one has another that ends its path. */
  lemma FrontMarker(a: string) returns (p: string, tail: string)
    requires a != [] && a[0] == MARK && Marks(a) % 2 == 0
    ensures NoMark(p) && a == Marker(p) + tail && Marks(tail) % 2 == 0
  {
    var rest := a[1..];
    p, tail := UntilMark(rest);
    assert a == [MARK] + rest;
    assert a == Marker(p) + tail;
  }

  lemma UntilMark(s: string) returns (p: string, tail: string)
    requires Marks(s) % 2 == 1
    ensures NoMark(p) && s == p + [MARK] + tail && Marks(tail) % 2 == 0
  {
    var n := UpToMark(s);
    p := s[..n];
    var end := s[n..];
    assert s == p + end;
    MarksOfFree(p);
    MarksJoin(p, end);
    tail := FirstMark(end);
    assert p + end == p + [MARK] + tail;
  }

  lemma FirstMark(s: string) returns (tail: string)
    requires Marks(s) % 2 == 1 && (s != [] ==> s[0] == MARK)
    ensures s == [MARK] + tail && Marks(tail) % 2 == 0
  {
    tail := s[1..];
    assert s == [s[0]] + tail;
    assert Marks(s) == 1 + Marks(tail);
  }

  lemma MarkerFront(secrets: seq<Secret>, p: string, tail: string)
    requires NoMark(p)
    ensures var s := Marker(p) + tail;
            Used(s) == |p| + 2 && Piece(secrets, s) == if p == [] then Ok([MARK]) else Find(secrets, p)
  {
    var s := Marker(p) + tail;
    assert s[1..] == p + [MARK] + tail;
    UpToMarkIs(p, tail);
    assert s[1..1 + |p|] == p;
  }

  // ── redacted text as tokens ───────────────────────────────────────────────

  /** What redacted text is made of: a character, a doubled mark, or the marker of
      the secret at an index. */
  datatype Token = Lit(c: char) | Esc | Ref(index: nat)

  /** Before the turn of the secret at `k`, markers are of earlier first entries. */
  ghost predicate TokenOk(t: Token, secrets: seq<Secret>, k: nat) {
    match t
    case Lit(c) => c != MARK
    case Esc => true
    case Ref(i) => i < k && First(secrets, i)
  }

  ghost predicate TokensOk(ts: seq<Token>, secrets: seq<Secret>, k: nat) {
    forall i :: 0 <= i < |ts| ==> TokenOk(ts[i], secrets, k)
  }

  ghost function Spell(t: Token, secrets: seq<Secret>, k: nat): string
    requires TokenOk(t, secrets, k) && k <= |secrets| && MarkFree(secrets)
  {
    match t
    case Lit(c) => [c]
    case Esc => [MARK, MARK]
    case Ref(i) => Staged(secrets, i, k)
  }

  function Mean(t: Token, secrets: seq<Secret>): string {
    match t
    case Lit(c) => [c]
    case Esc => [MARK]
    case Ref(i) => if i < |secrets| then secrets[i].text else []
  }

  /** The stored characters. */
  ghost function Flat(ts: seq<Token>, secrets: seq<Secret>, k: nat): string
    requires TokensOk(ts, secrets, k) && k <= |secrets| && MarkFree(secrets)
  {
    if ts == [] then [] else Spell(ts[0], secrets, k) + Flat(ts[1..], secrets, k)
  }

  /** The characters they stand for. */
  function Meaning(ts: seq<Token>, secrets: seq<Secret>): string {
    if ts == [] then [] else Mean(ts[0], secrets) + Meaning(ts[1..], secrets)
  }

  /** If each marker is read back, restoring yields what the tokens stand for. */
  lemma {:induction false} RestoreTokens(ts: seq<Token>, secrets: seq<Secret>)
    requires MarkFree(secrets) && Decodable(secrets) && TokensOk(ts, secrets, |secrets|)
    ensures Restore(secrets, Flat(ts, secrets, |secrets|)) == Ok(Meaning(ts, secrets))
  {
    if ts != [] {
      RestoreTokens(ts[1..], secrets);
      RestoreToken(ts[0], secrets);
      RestoreSplit(secrets, Spell(ts[0], secrets, |secrets|), Flat(ts[1..], secrets, |secrets|));
    }
  }

  lemma RestoreToken(t: Token, secrets: seq<Secret>)
    requires MarkFree(secrets) && Decodable(secrets) && TokenOk(t, secrets, |secrets|)
    ensures var s := Spell(t, secrets, |secrets|); Marks(s) % 2 == 0 && Restore(secrets, s) == Ok(Mean(t, secrets))
  {
    match t
    case Lit(c) =>
      RestoreChar(secrets, c);
    case Esc =>
      RestoreDoubled(secrets);
    case Ref(i) =>
      StagedClosed(secrets, i, |secrets|);
      StoredIs(secrets, i);
  }

  lemma RestoreChar(secrets: seq<Secret>, c: char)
    requires c != MARK
    ensures Marks([c]) == 0 && Restore(secrets, [c]) == Ok([c])
  {
    assert [c][1..] == [] && [c] + [] == [c];
    assert Piece(secrets, [c]) == Ok([c]) && Used([c]) == 1;
  }

  lemma RestoreDoubled(secrets: seq<Secret>)
    ensures Marks([MARK, MARK]) == 2 && Restore(secrets, [MARK, MARK]) == Ok([MARK])
  {
    var s := [MARK, MARK];
    MarksJoin([MARK], [MARK]);
    assert [MARK] + [MARK] == s && s[1..] == [MARK] && s[2..] == [] && [MARK] + [] == [MARK];
    assert Piece(secrets, s) == Ok([MARK]) && Used(s) == 2;
  }

  // ── replacing in tokens ───────────────────────────────────────────────────

  /** The next tokens are the characters of `p`. */
  predicate Spells(ts: seq<Token>, p: string) {
    |p| <= |ts| && forall i :: 0 <= i < |p| ==> ts[i] == Lit(p[i])
  }

  /** The tokens after the secret at `k` got its marker. */
  function Mark(ts: seq<Token>, p: string, k: nat): seq<Token>
    requires p != []
    decreases |ts|
  {
    if ts == [] then []
    else if Spells(ts, p) then [Ref(k)] + Mark(ts[|p|..], p, k)
    else [ts[0]] + Mark(ts[1..], p, k)
  }

  /** A run of characters is stored as itself. */
  lemma {:induction false} SpelledPrefix(ts: seq<Token>, p: string, secrets: seq<Secret>, k: nat)
    requires TokensOk(ts, secrets, k) && k <= |secrets| && MarkFree(secrets) && Spells(ts, p)
    ensures Flat(ts, secrets, k) == p + Flat(ts[|p|..], secrets, k)
    decreases |p|
  {
    if p != [] {
      assert ts[0] == Lit(p[0]) && Spells(ts[1..], p[1..]);
      SpelledPrefix(ts[1..], p[1..], secrets, k);
      assert ts[1..][|p[1..]|..] == ts[|p|..];
      Assoc(p, Flat(ts[|p|..], secrets, k));
    }
  }

  /** And it stands for itself. */
  lemma {:induction false} MeaningPrefix(ts: seq<Token>, p: string, secrets: seq<Secret>)
    requires Spells(ts, p)
    ensures Meaning(ts, secrets) == p + Meaning(ts[|p|..], secrets)
    decreases |p|
  {
    if p != [] {
      assert ts[0] == Lit(p[0]) && Spells(ts[1..], p[1..]);
      MeaningPrefix(ts[1..], p[1..], secrets);
      assert ts[1..][|p[1..]|..] == ts[|p|..];
      Assoc(p, Meaning(ts[|p|..], secrets));
    }
  }

  lemma Assoc(p: string, s: string)
    requires p != []
    ensures [p[0]] + (p[1..] + s) == p + s
  {
  }

  /** A character that is no mark is spelled by itself only. */
  lemma FrontIsLit(ts: seq<Token>, secrets: seq<Secret>, k: nat, c: char)
    requires TokensOk(ts, secrets, k) && k <= |secrets| && MarkFree(secrets)
    requires Flat(ts, secrets, k) != [] && Flat(ts, secrets, k)[0] == c && c != MARK
    ensures ts != [] && ts[0] == Lit(c) && Flat(ts, secrets, k)[1..] == Flat(ts[1..], secrets, k)
  {
    if ts[0].Ref? {
      StagedClosed(secrets, ts[0].index, k);
    }
  }

  lemma StartsWithRest(s: string, p: string)
    requires p != [] && StartsWith(s, p)
    ensures StartsWith(s[1..], p[1..])
  {
    assert s[1..][..|p| - 1] == s[..|p|][1..];
  }

  /** An occurrence of mark-free text at the front is a run of characters. */
  lemma {:induction false} OccurrenceIsSpelled(ts: seq<Token>, p: string, secrets: seq<Secret>, k: nat)
    requires TokensOk(ts, secrets, k) && k <= |secrets| && MarkFree(secrets)
    requires NoMark(p) && StartsWith(Flat(ts, secrets, k), p)
    ensures Spells(ts, p)
    decreases |p|
  {
    if p != [] {
      var flat := Flat(ts, secrets, k);
      assert p == flat[..|p|];
      assert flat[0] == p[0] && p[0] in p;
      FrontIsLit(ts, secrets, k, p[0]);
      StartsWithRest(flat, p);
      assert forall c :: c in p[1..] ==> c in p;
      OccurrenceIsSpelled(ts[1..], p[1..], secrets, k);
    }
  }

  /** Replacing a secret in the stored characters is marking its runs of characters;
      the markers already there go to their next stage. */
  lemma {:induction false} ReplaceIsMark(ts: seq<Token>, secrets: seq<Secret>, k: nat)
    requires k < |secrets| && MarkFree(secrets) && TokensOk(ts, secrets, k)
    requires TokensOk(Mark(ts, secrets[k].text, k), secrets, k + 1)
    ensures Replace(Flat(ts, secrets, k), secrets[k].text, Marker(secrets[k].path)) == Flat(Mark(ts, secrets[k].text, k), secrets, k + 1)
    decreases |ts|
  {
    var p, sub := secrets[k].text, Marker(secrets[k].path);
    if ts != [] {
      var flat, after := Flat(ts, secrets, k), Mark(ts, p, k);
      if Spells(ts, p) {
        SpelledPrefix(ts, p, secrets, k);
        assert StartsWith(flat, p) && flat[|p|..] == Flat(ts[|p|..], secrets, k);
        assert after[1..] == Mark(ts[|p|..], p, k);
        ReplaceIsMark(ts[|p|..], secrets, k);
      } else {
        if StartsWith(flat, p) {
          OccurrenceIsSpelled(ts, p, secrets, k);
        }
        assert after[1..] == Mark(ts[1..], p, k) && after[0] == ts[0];
        ReplaceIsMark(ts[1..], secrets, k);
        ReplaceAfter(ts[0], Flat(ts[1..], secrets, k), secrets, k);
      }
    }
  }

  /** A replacement passes over a token it does not start at. */
  lemma ReplaceAfter(t: Token, rest: string, secrets: seq<Secret>, k: nat)
    requires k < |secrets| && MarkFree(secrets) && TokenOk(t, secrets, k)
    requires !StartsWith(Spell(t, secrets, k) + rest, secrets[k].text)
    ensures var p, sub := secrets[k].text, Marker(secrets[k].path);
            Replace(Spell(t, secrets, k) + rest, p, sub) == Spell(t, secrets, k + 1) + Replace(rest, p, sub)
  {
    var p, sub := secrets[k].text, Marker(secrets[k].path);
    match t
    case Lit(c) =>
      Skip([c] + rest, p, sub, c, rest);
    case Esc =>
      ReplaceMarks(rest, p, sub);
    case Ref(i) =>
      StagedClosed(secrets, i, k);
      ReplaceSplit(Staged(secrets, i, k), rest, p, sub);
  }

  lemma ReplaceMarks(rest: string, p: string, sub: string)
    requires p != [] && NoMark(p)
    ensures Replace([MARK, MARK] + rest, p, sub) == [MARK, MARK] + Replace(rest, p, sub)
  {
    assert p[0] in p;
    assert [MARK, MARK] + rest == [MARK] + ([MARK] + rest);
    Skip([MARK, MARK] + rest, p, sub, MARK, [MARK] + rest);
    Skip([MARK] + rest, p, sub, MARK, rest);
    assert [MARK] + ([MARK] + Replace(rest, p, sub)) == [MARK, MARK] + Replace(rest, p, sub);
  }

  /** Marking a first entry's runs keeps what the tokens stand for. */
  lemma {:induction false} MarkKeeps(ts: seq<Token>, secrets: seq<Secret>, k: nat)
    requires First(secrets, k) && secrets[k].text != [] && TokensOk(ts, secrets, k)
    ensures var after := Mark(ts, secrets[k].text, k);
            TokensOk(after, secrets, k + 1) && Meaning(after, secrets) == Meaning(ts, secrets)
    decreases |ts|
  {
    var p := secrets[k].text;
    if ts != [] {
      var after := Mark(ts, p, k);
      var n := if Spells(ts, p) then |p| else 1;
      if n == |p| && Spells(ts, p) {
        MeaningPrefix(ts, p, secrets);
      }
      MarkKeeps(ts[n..], secrets, k);
      assert after[1..] == Mark(ts[n..], p, k);
      assert TokenOk(ts[0], secrets, k);
    }
  }

  // ── no run of a secret's characters is left ───────────────────────────────

  /** The characters of `p` appear nowhere as a run. */
  ghost predicate NoRun(ts: seq<Token>, p: string) {
    forall i :: 0 <= i <= |ts| ==> !Spells(ts[i..], p)
  }

  lemma NoRunTail(t: Token, ts: seq<Token>, p: string)
    requires NoRun(ts, p) && !Spells([t] + ts, p)
    ensures NoRun([t] + ts, p)
  {
    var all := [t] + ts;
    forall i | 0 <= i <= |all| ensures !Spells(all[i..], p) {
      if i == 0 {
        assert all[0..] == all;
      } else {
        assert all[i..] == ts[i - 1..];
      }
    }
  }

  /** The characters that lead a marked sequence led it before. */
  lemma {:induction false} MarkLeading(ts: seq<Token>, p: string, k: nat, q: string)
    requires p != [] && Spells(Mark(ts, p, k), q)
    ensures Spells(ts, q)
    decreases |q|
  {
    if q != [] {
      var rest := Mark(ts[1..], p, k);
      assert Mark(ts, p, k)[0] == Lit(q[0]);
      assert Mark(ts, p, k) == [ts[0]] + rest;
      assert Spells(rest, q[1..]) by {
        forall i | 0 <= i < |q[1..]| ensures rest[i] == Lit(q[1..][i]) {
          assert rest[i] == Mark(ts, p, k)[i + 1];
        }
      }
      MarkLeading(ts[1..], p, k, q[1..]);
      forall i | 0 <= i < |q| ensures ts[i] == Lit(q[i]) {
        if i > 0 {
          assert ts[1..][i - 1] == Lit(q[1..][i - 1]);
        }
      }
    }
  }

  lemma {:induction false} MarkRemoves(ts: seq<Token>, p: string, k: nat)
    requires p != []
    ensures NoRun(Mark(ts, p, k), p)
    decreases |ts|
  {
    if ts != [] {
      if Spells(ts, p) {
        MarkRemoves(ts[|p|..], p, k);
        assert ([Ref(k)] + Mark(ts[|p|..], p, k))[0] != Lit(p[0]);
        NoRunTail(Ref(k), Mark(ts[|p|..], p, k), p);
      } else {
        MarkRemoves(ts[1..], p, k);
        if Spells(Mark(ts, p, k), p) {
          MarkLeading(ts, p, k, p);
        }
        NoRunTail(ts[0], Mark(ts[1..], p, k), p);
      }
    }
  }

  lemma {:induction false} MarkKeepsNoRun(ts: seq<Token>, p: string, k: nat, q: string)
    requires p != [] && q != [] && NoRun(ts, q)
    ensures NoRun(Mark(ts, p, k), q)
    decreases |ts|
  {
    if ts != [] {
      var n := if Spells(ts, p) then |p| else 1;
      forall i | 0 <= i <= |ts[n..]| ensures !Spells(ts[n..][i..], q) {
        assert ts[n..][i..] == ts[n + i..];
      }
      MarkKeepsNoRun(ts[n..], p, k, q);
      assert ts[0..] == ts;
      if Spells(Mark(ts, p, k), q) {
        MarkLeading(ts, p, k, q);
      }
      NoRunTail(Mark(ts, p, k)[0], Mark(ts[n..], p, k), q);
    }
  }

  lemma {:induction false} MarkNothing(ts: seq<Token>, p: string, k: nat)
    requires p != [] && NoRun(ts, p)
    ensures Mark(ts, p, k) == ts
  {
    if ts != [] {
      assert ts[0..] == ts && !Spells(ts[0..], p);
      forall i | 0 <= i <= |ts[1..]| ensures !Spells(ts[1..][i..], p) {
        assert ts[1..][i..] == ts[i + 1..];
      }
      MarkNothing(ts[1..], p, k);
      assert ts == [ts[0]] + ts[1..];
    }
  }

  /** No characters of an earlier secret are left. */
  ghost predicate Cleared(ts: seq<Token>, secrets: seq<Secret>, k: nat) {
    forall j :: 0 <= j < k && j < |secrets| ==> NoRun(ts, secrets[j].text)
  }

  /** One secret's turn; for a repeated text there is nothing left to mark. */
  lemma MarkTurn(ts: seq<Token>, secrets: seq<Secret>, k: nat)
    requires k < |secrets| && MarkFree(secrets) && TokensOk(ts, secrets, k) && Cleared(ts, secrets, k)
    ensures var after := Mark(ts, secrets[k].text, k);
            TokensOk(after, secrets, k + 1) && Cleared(after, secrets, k + 1) && Meaning(after, secrets) == Meaning(ts, secrets)
  {
    var p := secrets[k].text;
    if First(secrets, k) {
      MarkKeeps(ts, secrets, k);
    } else {
      MarkNothing(ts, p, k);
    }
    forall j | 0 <= j < k + 1 && j < |secrets| ensures NoRun(Mark(ts, p, k), secrets[j].text) {
      if j == k {
        MarkRemoves(ts, p, k);
      } else {
        MarkKeepsNoRun(ts, p, k, secrets[j].text);
      }
    }
  }

  // ── the whole redaction ───────────────────────────────────────────────────

  function Tokens(text: string): seq<Token> {
    if text == [] then [] else [if text[0] == MARK then Esc else Lit(text[0])] + Tokens(text[1..])
  }

  lemma {:induction false} DoubledIsTokens(text: string, secrets: seq<Secret>)
    requires MarkFree(secrets)
    ensures TokensOk(Tokens(text), secrets, 0)
    ensures Doubled(text) == Flat(Tokens(text), secrets, 0) && Meaning(Tokens(text), secrets) == text
  {
    if text != [] {
      DoubledIsTokens(text[1..], secrets);
      var rest := Tokens(text[1..]);
      assert Tokens(text)[1..] == rest;
      assert text == [text[0]] + text[1..];
      if text[0] == MARK {
        assert StartsWith(text, [MARK]);
      } else {
        Skip(text, [MARK], [MARK, MARK], text[0], text[1..]);
      }
    }
  }

  lemma {:induction false} DoubledMarkFree(s: string)
    requires NoMark(s)
    ensures Doubled(s) == s
  {
    if s != [] {
      assert s[0] in s && forall c :: c in s[1..] ==> c in s;
      DoubledMarkFree(s[1..]);
      Skip(s, [MARK], [MARK, MARK], s[0], s[1..]);
    }
  }

  /** The tokens after the secrets from `k` on got their markers. */
  function MarkFrom(ts: seq<Token>, secrets: seq<Secret>, k: nat): seq<Token>
    requires k <= |secrets| && forall i :: 0 <= i < |secrets| ==> secrets[i].text != []
    decreases |secrets| - k
  {
    if k == |secrets| then ts else MarkFrom(Mark(ts, secrets[k].text, k), secrets, k + 1)
  }

  lemma {:induction false} RedactIsMark(ts: seq<Token>, secrets: seq<Secret>, k: nat)
    requires k <= |secrets| && MarkFree(secrets) && TokensOk(ts, secrets, k) && Cleared(ts, secrets, k)
    ensures var all := MarkFrom(ts, secrets, k);
            && TokensOk(all, secrets, |secrets|) && Cleared(all, secrets, |secrets|) && Meaning(all, secrets) == Meaning(ts, secrets)
            && Redact(Flat(ts, secrets, k), secrets[k..]) == Flat(all, secrets, |secrets|)
    decreases |secrets| - k
  {
    if k < |secrets| {
      assert secrets[k..][0] == secrets[k] && secrets[k..][1..] == secrets[k + 1..];
      DoubledMarkFree(secrets[k].text);
      MarkTurn(ts, secrets, k);
      ReplaceIsMark(ts, secrets, k);
      RedactIsMark(Mark(ts, secrets[k].text, k), secrets, k + 1);
    }
  }

  /** Redacted text and what it stands for, as tokens. */
  lemma TextIsTokens(secrets: seq<Secret>, text: string) returns (ts: seq<Token>)
    requires secrets != [] && MarkFree(secrets)
    ensures ts == MarkFrom(Tokens(text), secrets, 0)
    ensures TokensOk(ts, secrets, |secrets|) && Cleared(ts, secrets, |secrets|)
    ensures Text(secrets, text) == Flat(ts, secrets, |secrets|) && Meaning(ts, secrets) == text
  {
    ts := MarkFrom(Tokens(text), secrets, 0);
    DoubledIsTokens(text, secrets);
    assert secrets[0..] == secrets;
    RedactIsMark(Tokens(text), secrets, 0);
  }

  // ── a secret's own redaction ──────────────────────────────────────────────

  lemma {:induction false} TokensOfMarkFree(s: string)
    requires NoMark(s)
    ensures |Tokens(s)| == |s| && forall i :: 0 <= i < |s| ==> Tokens(s)[i] == Lit(s[i])
  {
    if s != [] {
      assert s[0] in s && forall c :: c in s[1..] ==> c in s;
      TokensOfMarkFree(s[1..]);
    }
  }

  lemma NotContainedNoRun(s: string, p: string)
    requires NoMark(s) && !Contains(s, p)
    ensures NoRun(Tokens(s), p)
  {
    TokensOfMarkFree(s);
    var ts := Tokens(s);
    forall i | 0 <= i <= |ts| ensures !Spells(ts[i..], p) {
      assert !StartsWith(s[i..], p);
      if |p| <= |s[i..]| {
        var x :| 0 <= x < |p| && s[i..][..|p|][x] != p[x];
        assert ts[i..][x] == Lit(s[i + x]);
      }
    }
  }

  lemma {:induction false} UntilItsTurn(ts: seq<Token>, secrets: seq<Secret>, k: nat, i: nat)
    requires k <= i < |secrets| && forall j :: 0 <= j < |secrets| ==> secrets[j].text != []
    requires forall j :: k <= j < i ==> NoRun(ts, secrets[j].text)
    ensures MarkFrom(ts, secrets, k) == MarkFrom(ts, secrets, i)
    decreases i - k
  {
    if k < i {
      MarkNothing(ts, secrets[k].text, k);
      UntilItsTurn(ts, secrets, k + 1, i);
    }
  }

  lemma {:induction false} AfterItsTurn(secrets: seq<Secret>, k: nat, i: nat)
    requires k <= |secrets| && forall j :: 0 <= j < |secrets| ==> secrets[j].text != []
    ensures MarkFrom([Ref(i)], secrets, k) == [Ref(i)]
    decreases |secrets| - k
  {
    if k < |secrets| {
      assert Mark([Ref(i)], secrets[k].text, k) == [Ref(i)] by {
        assert [Ref(i)][0] != Lit(secrets[k].text[0]);
        assert [Ref(i)][1..] == [];
      }
      AfterItsTurn(secrets, k + 1, i);
    }
  }

  /** A secret alone is redacted to its marker, with what later secrets do to it. */
  lemma RedactsToMarker(secrets: seq<Secret>, i: nat)
    requires MarkFree(secrets) && Ordered(secrets) && First(secrets, i)
    ensures Text(secrets, secrets[i].text) == Stored(secrets, i)
  {
    var s := secrets[i].text;
    var ts := TextIsTokens(secrets, s);
    TokensOfMarkFree(s);
    forall j | 0 <= j < i ensures NoRun(Tokens(s), secrets[j].text) {
      NotContainedNoRun(s, secrets[j].text);
    }
    UntilItsTurn(Tokens(s), secrets, 0, i);
    assert Spells(Tokens(s), s) && Tokens(s)[|s|..] == [];
    assert Mark(Tokens(s), s, i) == [Ref(i)];
    AfterItsTurn(secrets, i + 1, i);
    assert ts == [Ref(i)] && ts[1..] == [];
    StoredIs(secrets, i);
  }

  // ── the round trip ────────────────────────────────────────────────────────

  /** Every text comes back exactly if each secret's own marker is read back. */
  lemma RoundTripExactly(secrets: seq<Secret>)
    requires MarkFree(secrets) && Ordered(secrets)
    ensures Decodable(secrets) <==> forall text :: Load(secrets, Text(secrets, text)) == Ok(text)
  {
    if secrets == [] {
    } else if Decodable(secrets) {
      forall text ensures Load(secrets, Text(secrets, text)) == Ok(text) {
        var ts := TextIsTokens(secrets, text);
        RestoreTokens(ts, secrets);
      }
    } else {
      var i :| 0 <= i < |secrets| && First(secrets, i) && Restore(secrets, Stored(secrets, i)) != Ok(secrets[i].text);
      RedactsToMarker(secrets, i);
      assert Load(secrets, Text(secrets, secrets[i].text)) != Ok(secrets[i].text);
    }
  }

  /** Text that is not in a path is replaced nowhere in its marker. */
  lemma {:induction false} ReplaceNothing(s: string, p: string, sub: string)
    requires p != [] && !Contains(s, p)
    ensures Replace(s, p, sub) == s
  {
    if s != [] {
      assert s[0..] == s && !StartsWith(s[0..], p);
      ContainsSuffix(s, p);
      ReplaceNothing(s[1..], p, sub);
    }
  }

  lemma ContainsSuffix(q: string, p: string)
    requires q != [] && !Contains(q, p)
    ensures !Contains(q[1..], p)
  {
    forall i | 0 <= i <= |q[1..]| ensures !StartsWith(q[1..][i..], p) {
      assert q[1..][i..] == q[i + 1..];
      assert !StartsWith(q[i + 1..], p);
    }
  }

  lemma NotContainedTail(c: char, rest: string, p: string)
    requires !Contains(rest, p) && !StartsWith([c] + rest, p)
    ensures !Contains([c] + rest, p)
  {
    var s := [c] + rest;
    forall i | 0 <= i <= |s| ensures !StartsWith(s[i..], p) {
      if i == 0 {
        assert s[0..] == s;
      } else {
        assert s[i..] == rest[i - 1..];
      }
    }
  }

  /** Mark-free text is in a marker only if it is in its path. */
  lemma OnlyInPath(q: string, p: string)
    requires p != [] && NoMark(p) && !Contains(q, p)
    ensures !Contains(Marker(q), p)
  {
    var s := Marker(q);
    assert p[0] in p && p[|p| - 1] in p;
    forall i | 0 <= i <= |s| ensures !StartsWith(s[i..], p) {
      if i == 0 {
        assert |p| <= |s| ==> s[i..][..|p|][0] == MARK;
      } else if i + |p| <= |q| + 1 {
        assert s[i..][..|p|] == q[i - 1..][..|p|];
        assert !StartsWith(q[i - 1..], p);
      } else if i + |p| == |s| {
        assert s[i..][..|p|][|p| - 1] == MARK;
      }
    }
  }

  lemma InMarker(q: string, p: string)
    requires Contains(q, p)
    ensures Contains(Marker(q), p)
  {
    var i :| 0 <= i <= |q| && StartsWith(q[i..], p);
    var s := Marker(q);
    assert s[i + 1..] == q[i..] + [MARK];
    assert s[i + 1..][..|p|] == q[i..][..|p|];
    assert StartsWith(s[i + 1..], p);
  }

  /** Where no later secret is in its path, a marker stays as it is. */
  lemma StagedStays(secrets: seq<Secret>, i: nat, k: nat)
    requires i < k <= |secrets| && MarkFree(secrets) && LaterNotInPaths(secrets) && First(secrets, i)
    ensures Staged(secrets, i, k) == Marker(secrets[i].path)
  {
    forall j | i < j < |secrets| ensures Untouched(secrets, Marker(secrets[i].path), j) {
      NextStays(secrets, i, j);
    }
    StagedSame(secrets, i, k, Marker(secrets[i].path));
  }

  ghost predicate Untouched(secrets: seq<Secret>, m: string, j: nat)
    requires j < |secrets| && secrets[j].text != []
  {
    Replace(m, secrets[j].text, Marker(secrets[j].path)) == m
  }

  lemma {:induction false} StagedSame(secrets: seq<Secret>, i: nat, k: nat, m: string)
    requires i < k <= |secrets| && m == Marker(secrets[i].path) && forall j :: 0 <= j < |secrets| ==> secrets[j].text != []
    requires forall j :: i < j < |secrets| ==> Untouched(secrets, m, j)
    ensures Staged(secrets, i, k) == m
    decreases k
  {
    if k > i + 1 {
      StagedSame(secrets, i, k - 1, m);
      assert Untouched(secrets, m, k - 1);
    }
  }

  lemma NextStays(secrets: seq<Secret>, i: nat, j: nat)
    requires i < j < |secrets| && MarkFree(secrets) && LaterNotInPaths(secrets) && First(secrets, i)
    ensures Replace(Marker(secrets[i].path), secrets[j].text, Marker(secrets[j].path)) == Marker(secrets[i].path)
  {
    MarkerStays(secrets[i].path, secrets[j].text, Marker(secrets[j].path));
  }

  lemma MarkerStays(q: string, p: string, sub: string)
    requires p != [] && NoMark(p) && !Contains(q, p)
    ensures Replace(Marker(q), p, sub) == Marker(q)
  {
    OnlyInPath(q, p);
    ReplaceNothing(Marker(q), p, sub);
  }

  lemma RestoreMarker(secrets: seq<Secret>, q: string)
    requires q != [] && NoMark(q)
    ensures var found := Find(secrets, q); Restore(secrets, Marker(q)) == found
  {
    MarkerFront(secrets, q, []);
    assert Marker(q) + [] == Marker(q) && Marker(q)[|q| + 2..] == [];
    if Find(secrets, q).Ok? {
      assert Find(secrets, q).value + [] == Find(secrets, q).value;
    }
  }

  /** A path names the first entry it stands at. */
  lemma {:induction false} FindFirst(secrets: seq<Secret>, i: nat)
    requires i < |secrets| && forall h :: 0 <= h < i ==> secrets[h].path != secrets[i].path
    ensures Find(secrets, secrets[i].path) == Ok(secrets[i].text)
  {
    if i > 0 {
      var rest := secrets[1..];
      assert forall k :: 0 <= k < |rest| ==> rest[k] == secrets[k + 1];
      FindFirst(rest, i - 1);
    }
  }

  lemma {:induction false} FindLeast(secrets: seq<Secret>, j: nat) returns (h: nat)
    requires j < |secrets|
    ensures h <= j && secrets[h].path == secrets[j].path && forall g :: 0 <= g < h ==> secrets[g].path != secrets[j].path
  {
    h := 0;
    while secrets[h].path != secrets[j].path
      invariant h <= j && forall g :: 0 <= g < h ==> secrets[g].path != secrets[j].path
      decreases j - h
    {
      h := h + 1;
    }
  }

  /** If no secret is in an earlier path, the round trip is a matter of the paths: a
      first entry must not share the path of an entry before it. */
  lemma PathsDecide(secrets: seq<Secret>)
    requires MarkFree(secrets) && LaterNotInPaths(secrets) && forall i :: 0 <= i < |secrets| ==> secrets[i].path != []
    ensures Decodable(secrets) <==>
            forall i, j :: 0 <= i < j < |secrets| && First(secrets, j) ==> secrets[i].path != secrets[j].path
  {
    forall j: nat | j < |secrets| && First(secrets, j)
      ensures Restore(secrets, Stored(secrets, j)) == Ok(secrets[j].text) <==>
              forall i :: 0 <= i < j ==> secrets[i].path != secrets[j].path
    {
      StoredIs(secrets, j);
      StagedStays(secrets, j, |secrets|);
      RestoreMarker(secrets, secrets[j].path);
      var h := FindLeast(secrets, j);
      FindFirst(secrets, h);
    }
  }

  /** Restoring redacted text gives the text back, if no secret occurs in the path of
      a marker placed before its turn. */
  lemma RoundTrip(secrets: seq<Secret>, text: string)
    requires WellFormed(secrets) && LaterNotInPaths(secrets)
    ensures Decodable(secrets) && Load(secrets, Text(secrets, text)) == Ok(text)
  {
    PathsDecide(secrets);
    if secrets != [] {
      var ts := TextIsTokens(secrets, text);
      RestoreTokens(ts, secrets);
    }
  }

  // ── no secret remains ─────────────────────────────────────────────────────

  /** `p` is in no marker of the tokens. */
  ghost predicate Clear(ts: seq<Token>, p: string, secrets: seq<Secret>)
    requires MarkFree(secrets)
  {
    forall i :: 0 <= i < |ts| && ts[i].Ref? && ts[i].index < |secrets| ==> !Contains(Staged(secrets, ts[i].index, |secrets|), p)
  }

  /** Mark-free text in the stored characters is a run of characters or in a marker. */
  lemma {:induction false} ContainedIsSpelled(ts: seq<Token>, p: string, secrets: seq<Secret>)
    requires MarkFree(secrets) && TokensOk(ts, secrets, |secrets|)
    requires p != [] && NoMark(p) && NoRun(ts, p) && Clear(ts, p, secrets)
    ensures !Contains(Flat(ts, secrets, |secrets|), p)
    decreases |ts|
  {
    if ts != [] {
      var n := |secrets|;
      forall i | 0 <= i <= |ts[1..]| ensures !Spells(ts[1..][i..], p) {
        assert ts[1..][i..] == ts[i + 1..];
      }
      ContainedIsSpelled(ts[1..], p, secrets);
      assert ts[0..] == ts;
      if StartsWith(Flat(ts, secrets, n), p) {
        OccurrenceIsSpelled(ts, p, secrets, n);
      }
      NotContainedAfter(ts[0], Flat(ts[1..], secrets, n), p, secrets);
    }
  }

  lemma NotContainedAfter(t: Token, rest: string, p: string, secrets: seq<Secret>)
    requires MarkFree(secrets) && TokenOk(t, secrets, |secrets|)
    requires p != [] && NoMark(p) && (t.Ref? ==> !Contains(Staged(secrets, t.index, |secrets|), p))
    requires !Contains(rest, p) && !StartsWith(Spell(t, secrets, |secrets|) + rest, p)
    ensures !Contains(Spell(t, secrets, |secrets|) + rest, p)
  {
    assert p[0] in p;
    match t
    case Lit(c) =>
      NotContainedTail(c, rest, p);
    case Esc =>
      NotContainedTail(MARK, rest, p);
      assert [MARK] + ([MARK] + rest) == [MARK, MARK] + rest;
      NotContainedTail(MARK, [MARK] + rest, p);
    case Ref(i) =>
      StagedClosed(secrets, i, |secrets|);
      NotContainedJoin(Staged(secrets, i, |secrets|), rest, p);
  }

  /** No occurrence crosses the mark that ends the first part. */
  lemma NotContainedJoin(a: string, b: string, p: string)
    requires p != [] && NoMark(p) && a != [] && a[|a| - 1] == MARK && !Contains(a, p) && !Contains(b, p)
    ensures !Contains(a + b, p)
  {
    var s := a + b;
    forall i | 0 <= i <= |s| ensures !StartsWith(s[i..], p) {
      if i < |a| {
        assert s[i..] == a[i..] + b;
        NotBeyondMark(a[i..], b, p);
      } else {
        assert s[i..] == b[i - |a|..];
      }
    }
  }

  /** No secret is left in what is stored for a secret: another test of the table. */
  ghost predicate MarkersHide(secrets: seq<Secret>)
    requires MarkFree(secrets)
  {
    forall i, j :: 0 <= i < |secrets| && 0 <= j < |secrets| && First(secrets, i) ==> !Contains(Stored(secrets, i), secrets[j].text)
  }

  lemma NotInTokens(ts: seq<Token>, secrets: seq<Secret>, j: nat)
    requires MarkFree(secrets) && MarkersHide(secrets) && TokensOk(ts, secrets, |secrets|) && j < |secrets|
    ensures Clear(ts, secrets[j].text, secrets)
  {
    forall i | 0 <= i < |ts| && ts[i].Ref? ensures !Contains(Staged(secrets, ts[i].index, |secrets|), secrets[j].text) {
      assert TokenOk(ts[i], secrets, |secrets|);
      StoredIs(secrets, ts[i].index);
    }
  }

  /** Redaction hides every secret in every text exactly if none is left in what is
      stored for a single secret. */
  lemma HiddenExactly(secrets: seq<Secret>)
    requires MarkFree(secrets) && Ordered(secrets)
    ensures MarkersHide(secrets) <==>
            forall text, j :: 0 <= j < |secrets| ==> !Contains(Text(secrets, text), secrets[j].text)
  {
    if MarkersHide(secrets) {
      forall text, j | 0 <= j < |secrets| ensures !Contains(Text(secrets, text), secrets[j].text) {
        var ts := TextIsTokens(secrets, text);
        NotInTokens(ts, secrets, j);
        ContainedIsSpelled(ts, secrets[j].text, secrets);
      }
    } else {
      var i, j :| 0 <= i < |secrets| && 0 <= j < |secrets| && First(secrets, i) && Contains(Stored(secrets, i), secrets[j].text);
      RedactsToMarker(secrets, i);
      assert Contains(Text(secrets, secrets[i].text), secrets[j].text);
    }
  }

  /** If no secret is in an earlier path, that is a matter of the paths too. */
  lemma PathsHide(secrets: seq<Secret>)
    requires MarkFree(secrets) && LaterNotInPaths(secrets)
    ensures MarkersHide(secrets) <==> NoneInPaths(secrets)
  {
    forall i, j | 0 <= i < |secrets| && 0 <= j < |secrets| && First(secrets, i)
      ensures Contains(Stored(secrets, i), secrets[j].text) <==> Contains(secrets[i].path, secrets[j].text)
    {
      StoredIs(secrets, i);
      StagedStays(secrets, i, |secrets|);
      if Contains(secrets[i].path, secrets[j].text) {
        InMarker(secrets[i].path, secrets[j].text);
      } else {
        OnlyInPath(secrets[i].path, secrets[j].text);
      }
    }
  }

  /** No secret remains in redacted text, if none occurs in a marker path. */
  lemma NoSecretRemains(secrets: seq<Secret>, text: string, j: nat)
    requires MarkFree(secrets) && NoneInPaths(secrets) && j < |secrets|
    ensures !Contains(Text(secrets, text), secrets[j].text)
  {
    PathsHide(secrets);
    var ts := TextIsTokens(secrets, text);
    NotInTokens(ts, secrets, j);
    ContainedIsSpelled(ts, secrets[j].text, secrets);
  }

  // ── the order secrets are replaced in ─────────────────────────────────────

  /** The bytes of a character in UTF-8. */
  function Width(c: char): nat {
    if c < '\U{0080}' then 1 else if c < '\U{0800}' then 2 else if c < '\U{10000}' then 3 else 4
  }

  function Bytes(s: string): nat {
    if s == [] then 0 else Width(s[0]) + Bytes(s[1..])
  }

  lemma {:induction false} BytesJoin(a: string, b: string)
    ensures Bytes(a + b) == Bytes(a) + Bytes(b)
  {
    if a == [] {
      assert a + b == b;
    } else {
      assert (a + b)[1..] == a[1..] + b;
      BytesJoin(a[1..], b);
    }
  }

  /** Text inside another, longer text takes fewer bytes. */
  lemma InsideIsShorter(s: string, p: string)
    requires Contains(s, p) && s != p
    ensures Bytes(p) < Bytes(s)
  {
    var i :| 0 <= i <= |s| && StartsWith(s[i..], p);
    var a, b := s[..i], s[i..][|p|..];
    assert s == a + (p + b);
    BytesJoin(a, p + b);
    BytesJoin(p, b);
    assert a != [] || b != [];
  }

  /** Sorted longest first, no secret occurs in a later different one. */
  lemma LongestFirst(secrets: seq<Secret>)
    requires forall i, j :: 0 <= i < j < |secrets| ==> Bytes(secrets[i].text) >= Bytes(secrets[j].text)
    ensures Ordered(secrets)
  {
    forall i, j | 0 <= i < j < |secrets| && secrets[i].text != secrets[j].text
      ensures !Contains(secrets[j].text, secrets[i].text)
    {
      if Contains(secrets[j].text, secrets[i].text) {
        InsideIsShorter(secrets[j].text, secrets[i].text);
      }
    }
  }

  // ── what happens without the conditions ───────────────────────────────────

  /** A later secret inside an earlier marker's path breaks the round trip: the
      secret `b` occurs in the path `ab` of the secret `xyz`. */
  lemma BrokenRoundTrip()
    ensures var secrets := [Secret("xyz", "ab"), Secret("b", "c")];
            WellFormed(secrets) && Ordered(secrets) && !LaterNotInPaths(secrets) &&
            Restore(secrets, Text(secrets, "xyz")) == Err("a")
  {
    var secrets := [Secret("xyz", "ab"), Secret("b", "c")];
    BrokenText(secrets);
    BrokenRestore(secrets);
    BrokenConditions(secrets);
  }

  lemma BrokenConditions(secrets: seq<Secret>)
    requires secrets == [Secret("xyz", "ab"), Secret("b", "c")]
    ensures WellFormed(secrets) && Ordered(secrets) && !LaterNotInPaths(secrets)
  {
    assert "ab"[1..] == "b";
    assert StartsWith("ab"[1..], "b");
    assert Contains(secrets[0].path, secrets[1].text);
    assert forall i :: 0 <= i <= 1 ==> |"b"[i..]| < 3;
    assert First(secrets, 0);
  }

  lemma BrokenText(secrets: seq<Secret>)
    requires secrets == [Secret("xyz", "ab"), Secret("b", "c")]
    ensures WellFormed(secrets) && Text(secrets, "xyz") == [MARK] + "a" + Marker("c") + [MARK]
  {
    DoubledMarkFree("xyz");
    DoubledMarkFree("b");
    var once := Marker("ab");
    assert Replace("xyz", "xyz", once) == once + Replace("", "xyz", once);
    assert Replace("xyz", "xyz", once) == once;
    BrokenReplace();
    assert secrets[1..] == [Secret("b", "c")];
    assert Redact(once, secrets[1..]) == Redact(Replace(once, "b", Marker("c")), secrets[1..][1..]);
  }

  lemma BrokenReplace()
    ensures Replace(Marker("ab"), "b", Marker("c")) == [MARK] + "a" + Marker("c") + [MARK]
  {
    var s, sub := Marker("ab"), Marker("c");
    Skip(s, "b", sub, MARK, "ab" + [MARK]);
    Skip("ab" + [MARK], "b", sub, 'a', "b" + [MARK]);
    assert ("b" + [MARK])[1..] == [MARK];
    assert Replace("b" + [MARK], "b", sub) == sub + Replace([MARK], "b", sub);
    Skip([MARK], "b", sub, MARK, "");
  }

  lemma BrokenRestore(secrets: seq<Secret>)
    requires secrets == [Secret("xyz", "ab"), Secret("b", "c")]
    ensures Restore(secrets, [MARK] + "a" + Marker("c") + [MARK]) == Err("a")
  {
    var s := [MARK] + "a" + Marker("c") + [MARK];
    assert s[1..] == "a" + [MARK] + ("c" + [MARK, MARK]);
    UpToMarkIs("a", "c" + [MARK, MARK]);
    assert s[1..2] == "a";
    assert Find(secrets, "a") == Find(secrets[1..], "a") == Find(secrets[1..][1..], "a");
  }
}

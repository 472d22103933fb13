/**
 The stored form of the runs' index keys: a kind and an id as text. Different index
 keys have different stored forms, so rows of different runs never meet.
 */
module KeyCodes {
  import opened Options
  import opened Keys
  import opened RunIndex

  // ── components ────────────────────────────────────────────────────────────

  /** The UTF-8 encoding of a character, as byte values. */
  function Utf8(c: char): (b: seq<nat>)
    ensures |b| > 0 && forall i :: 0 <= i < |b| ==> b[i] < 256
  {
    var n := c as int;
    if n < 0x80 then [n]
    else if n < 0x800 then [0xc0 + n / 0x40, 0x80 + n % 0x40]
    else if n < 0x1_0000 then [0xe0 + n / 0x1000, 0x80 + n / 0x40 % 0x40, 0x80 + n % 0x40]
    else [0xf0 + n / 0x4_0000, 0x80 + n / 0x1000 % 0x40, 0x80 + n / 0x40 % 0x40, 0x80 + n % 0x40]
  }

  function Bytes(s: string): (b: seq<nat>)
    ensures forall i :: 0 <= i < |b| ==> b[i] < 256
  {
    if s == "" then [] else Utf8(s[0]) + Bytes(s[1..])
  }

  function HexBytes(b: seq<nat>): string {
    if b == [] then "" else Hex(b[0], 2) + HexBytes(b[1..])
  }

  /** A text as part of a kind: its bytes in hexadecimal. */
  function Component(s: string): string {
    HexBytes(Bytes(s))
  }

  /** The first byte tells how many follow. */
  function Length(first: nat): nat {
    if first < 0x80 then 1 else if first < 0xe0 then 2 else if first < 0xf0 then 3 else 4
  }

  lemma Utf8Length(c: char)
    ensures |Utf8(c)| == Length(Utf8(c)[0])
  {
  }

  function Code(b: seq<int>): int
    requires |b| > 0
  {
    if |b| == 1 then b[0]
    else if |b| == 2 then (b[0] - 0xc0) * 0x40 + (b[1] - 0x80)
    else if |b| == 3 then (b[0] - 0xe0) * 0x1000 + (b[1] - 0x80) * 0x40 + (b[2] - 0x80)
    else if |b| == 4 then (b[0] - 0xf0) * 0x4_0000 + (b[1] - 0x80) * 0x1000 + (b[2] - 0x80) * 0x40 + (b[3] - 0x80)
    else 0
  }

  lemma Utf8Code(c: char)
    ensures Code(Utf8(c)) == c as int
  {
    var n := c as int;
    assert n / 0x1000 == n / 0x40 / 0x40;
    assert n / 0x4_0000 == n / 0x1000 / 0x40;
  }

  /** No character's bytes begin another's. */
  lemma Utf8PrefixFree(c: char, d: char, x: seq<nat>, y: seq<nat>)
    requires Utf8(c) + x == Utf8(d) + y
    ensures c == d && x == y
  {
    var a, b := Utf8(c), Utf8(d);
    assert a[0] == (a + x)[0] && b[0] == (b + y)[0];
    Utf8Length(c);
    Utf8Length(d);
    assert a == (a + x)[..|a|] && b == (b + y)[..|b|];
    assert x == (a + x)[|a|..] && y == (b + y)[|b|..];
    Utf8Code(c);
    Utf8Code(d);
  }

  lemma {:induction false} BytesInjective(s: string, t: string)
    requires Bytes(s) == Bytes(t)
    ensures s == t
    decreases |s|
  {
    if s != "" && t != "" {
      Utf8PrefixFree(s[0], t[0], Bytes(s[1..]), Bytes(t[1..]));
      BytesInjective(s[1..], t[1..]);
      assert s == [s[0]] + s[1..] && t == [t[0]] + t[1..];
    }
  }

  lemma {:induction false} HexBytesInjective(a: seq<nat>, b: seq<nat>)
    requires forall i :: 0 <= i < |a| ==> a[i] < 256
    requires forall i :: 0 <= i < |b| ==> b[i] < 256
    requires HexBytes(a) == HexBytes(b)
    ensures a == b
    decreases |a|
  {
    if a != [] && b != [] {
      var x, y := HexBytes(a), HexBytes(b);
      assert x[..2] == Hex(a[0], 2) && y[..2] == Hex(b[0], 2);
      assert x[2..] == HexBytes(a[1..]) && y[2..] == HexBytes(b[1..]);
      assert Power16(2) == 256;
      HexOrder(a[0], b[0], 2);
      HexBytesInjective(a[1..], b[1..]);
      assert a == [a[0]] + a[1..] && b == [b[0]] + b[1..];
    }
  }

  lemma ComponentInjective(s: string, t: string)
    requires Component(s) == Component(t)
    ensures s == t
  {
    HexBytesInjective(Bytes(s), Bytes(t));
    BytesInjective(s, t);
  }

  ghost predicate Plain(s: string) {
    ':' !in s
  }

  lemma {:induction false} HexPlain(n: nat, width: nat)
    ensures Plain(Hex(n, width))
    decreases width
  {
    if width > 0 {
      HexPlain(n / 16, width - 1);
    }
  }

  lemma {:induction false} HexBytesPlain(b: seq<nat>)
    ensures Plain(HexBytes(b))
  {
    if b != [] {
      HexPlain(b[0], 2);
      HexBytesPlain(b[1..]);
    }
  }

  lemma ComponentPlain(s: string)
    ensures Plain(Component(s))
  {
    HexBytesPlain(Bytes(s));
  }

  // ── kinds and ids ─────────────────────────────────────────────────────────

  /** The name of the index a key belongs to. */
  function Head(k: Key): string {
    match k
    case ByName(_, _) => "name"
    case ByStart(_, _, _) => "control_run"
    case ByEnd(_, _, _) => "control_end"
    case ByParent(_, _, _) => "control_parent"
    case ByWait(scope, _, _, _) =>
      (match scope
       case AnyWait => "control_wait"
       case WaitOfName(_) => "control_wait_definition"
       case WaitOfRun(_) => "control_wait_run"
       case WaitOfType(_) => "control_wait_type"
       case WaitOfNameAndType(_, _) => "control_wait_definition")
    case LiveName(_, _) => "live_name"
    case TriggerLive(_, _) => "trigger_live"
    case Due(_, _) => "due"
    case DueApp(_, _, _) => "due_app"
    case Children(_, _) => "children"
    case Awaiting(_, _, _) => "wait"
    case Subscribed(_, _) => "subs"
    case MailboxDue(_, _) => "mailbox"
    case FinishedAt(_, _) => "finished"
  }

  function Part(value: string): string {
    ":" + Component(value)
  }

  function Tail(k: Key): string {
    match k
    case ByName(name, _) => Part(name)
    case ByStart(scope, _, _) => if scope.OfName? then Part(scope.name) else ""
    case ByEnd(scope, _, _) => if scope.OfName? then Part(scope.name) else ""
    case ByParent(parent, _, _) => Part(parent)
    case ByWait(scope, _, _, _) =>
      (match scope
       case AnyWait => ""
       case WaitOfName(name) => Part(name)
       case WaitOfRun(id) => Part(id)
       case WaitOfType(t) => Part(t)
       case WaitOfNameAndType(name, t) => Part(name) + (":type" + Part(t)))
    case LiveName(name, _) => Part(name)
    case TriggerLive(trigger, _) => Part(trigger)
    case Due(_, _) => ""
    case DueApp(app, _, _) => Part(app)
    case Children(parent, _) => Part(parent)
    case Awaiting(t, _, _) => Part(t)
    case Subscribed(t, _) => Part(t)
    case MailboxDue(_, _) => ""
    case FinishedAt(_, _) => ""
  }

  function Kind(k: Key): string {
    Head(k) + Tail(k)
  }

  predicate IsTimed(k: Key) {
    !(k.ByName? || k.LiveName? || k.TriggerLive? || k.Children? || k.Subscribed?)
  }

  predicate InTime(k: Key) {
    IsTimed(k) ==> IsInstant(k.at)
  }

  function RowId(k: Key): string
    requires InTime(k)
  {
    if !IsTimed(k) then k.run
    else if k.ByWait? then Timed(k.at, Component(k.run) + Part(k.key))
    else Timed(k.at, k.run)
  }

  // ── no two keys meet ──────────────────────────────────────────────────────

  ghost predicate Follows(t: string) {
    t == "" || t[0] == ':'
  }

  /** How many characters come before the first colon. */
  function Cut(s: string): nat {
    if s == "" || s[0] == ':' then 0 else 1 + Cut(s[1..])
  }

  lemma {:induction false} CutOf(a: string, x: string)
    requires Plain(a) && Follows(x)
    ensures Cut(a + x) == |a|
    decreases |a|
  {
    if a == "" {
      assert a + x == x;
    } else {
      assert (a + x)[0] == a[0] && (a + x)[1..] == a[1..] + x;
      CutOf(a[1..], x);
    }
  }

  /** Text before the first colon, and the rest. */
  lemma SplitUnique(a: string, x: string, b: string, y: string)
    requires a + x == b + y && Plain(a) && Plain(b) && Follows(x) && Follows(y)
    ensures a == b && x == y
  {
    CutOf(a, x);
    CutOf(b, y);
    assert a == (a + x)[..|a|] && b == (b + y)[..|b|];
    assert x == (a + x)[|a|..] && y == (b + y)[|b|..];
  }

  lemma HeadPlain(k: Key)
    ensures Plain(Head(k)) && |Head(k)| >= 3 && Follows(Tail(k))
  {
  }

  /** The index a key belongs to, as a number. */
  function Tag(k: Key): nat {
    match k
    case ByName(_, _) => 0
    case ByStart(_, _, _) => 1
    case ByEnd(_, _, _) => 2
    case ByParent(_, _, _) => 3
    case ByWait(scope, _, _, _) =>
      (match scope
       case AnyWait => 4
       case WaitOfName(_) => 5
       case WaitOfRun(_) => 6
       case WaitOfType(_) => 7
       case WaitOfNameAndType(_, _) => 5)
    case LiveName(_, _) => 8
    case TriggerLive(_, _) => 9
    case Due(_, _) => 10
    case DueApp(_, _, _) => 11
    case Children(_, _) => 12
    case Awaiting(_, _, _) => 13
    case Subscribed(_, _) => 14
    case MailboxDue(_, _) => 15
    case FinishedAt(_, _) => 16
  }

  /** Length, first and last character tell the heads apart. */
  function Mark(tag: nat): (int, char, char) {
    match tag
    case 0 => (4, 'n', 'e')
    case 1 => (11, 'c', 'n')
    case 2 => (11, 'c', 'd')
    case 3 => (14, 'c', 't')
    case 4 => (12, 'c', 't')
    case 5 => (23, 'c', 'n')
    case 6 => (16, 'c', 'n')
    case 7 => (17, 'c', 'e')
    case 8 => (9, 'l', 'e')
    case 9 => (12, 't', 'e')
    case 10 => (3, 'd', 'e')
    case 11 => (7, 'd', 'p')
    case 12 => (8, 'c', 'n')
    case 13 => (4, 'w', 't')
    case 14 => (4, 's', 's')
    case 15 => (7, 'm', 'x')
    case _ => (8, 'f', 'd')
  }

  lemma HeadMark(k: Key)
    ensures |Head(k)| >= 3 && Tag(k) <= 16 && Mark(Tag(k)) == (|Head(k)|, Head(k)[0], Head(k)[|Head(k)| - 1])
  {
  }

  lemma MarksDiffer(i: nat, j: nat)
    requires i <= 16 && j <= 16 && Mark(i) == Mark(j)
    ensures i == j
  {
  }

  lemma PartInjective(a: string, b: string)
    requires Part(a) == Part(b)
    ensures a == b
  {
    assert Part(a)[1..] == Component(a) && Part(b)[1..] == Component(b);
    ComponentInjective(a, b);
  }

  lemma SplitParts(a: string, x: string, b: string, y: string)
    requires ":" + a + x == ":" + b + y && Plain(a) && Plain(b) && Follows(x) && Follows(y)
    ensures a == b && x == y
  {
    var s, t := ":" + a + x, ":" + b + y;
    assert s[1..] == a + x && t[1..] == b + y;
    SplitUnique(a, x, b, y);
  }

  lemma PartsInjective(a: string, x: string, b: string, y: string)
    requires Part(a) + x == Part(b) + y && Follows(x) && Follows(y)
    ensures a == b && x == y
  {
    ComponentPlain(a);
    ComponentPlain(b);
    SplitParts(Component(a), x, Component(b), y);
    ComponentInjective(a, b);
  }

  lemma SameKind(a: Key, b: Key)
    requires Kind(a) == Kind(b)
    ensures Tag(a) == Tag(b) && Tail(a) == Tail(b)
  {
    HeadPlain(a);
    HeadPlain(b);
    SplitUnique(Head(a), Tail(a), Head(b), Tail(b));
    HeadMark(a);
    HeadMark(b);
    MarksDiffer(Tag(a), Tag(b));
  }

  function TypeTail(s: WaitScope): string {
    if s.WaitOfNameAndType? then ":type" + Part(s.type_) else ""
  }

  lemma SameDefinitionScope(a: WaitScope, b: WaitScope)
    requires (a.WaitOfName? || a.WaitOfNameAndType?) && (b.WaitOfName? || b.WaitOfNameAndType?)
    requires Part(a.name) + TypeTail(a) == Part(b.name) + TypeTail(b)
    ensures a == b
  {
    PartsInjective(a.name, TypeTail(a), b.name, TypeTail(b));
    if a.WaitOfNameAndType? && b.WaitOfNameAndType? {
      assert TypeTail(a)[5..] == Part(a.type_) && TypeTail(b)[5..] == Part(b.type_);
      PartInjective(a.type_, b.type_);
    }
  }

  lemma SameScope(a: Key, b: Key)
    requires a.ByWait? && b.ByWait? && Tag(a) == Tag(b) && Tail(a) == Tail(b)
    ensures a.wscope == b.wscope
  {
    var x, y := a.wscope, b.wscope;
    match x
    case AnyWait =>
    case WaitOfRun(id) => PartInjective(id, y.id);
    case WaitOfType(t) => PartInjective(t, y.type_);
    case WaitOfName(name) =>
      assert Part(name) + "" == Part(name);
      assert y.WaitOfName? ==> Part(y.name) + "" == Part(y.name);
      SameDefinitionScope(x, y);
    case WaitOfNameAndType(name, t) =>
      assert y.WaitOfName? ==> Part(y.name) + "" == Part(y.name);
      SameDefinitionScope(x, y);
  }

  lemma SameWaitRow(a: Key, b: Key)
    requires a.ByWait? && b.ByWait? && InTime(a) && InTime(b) && RowId(a) == RowId(b)
    ensures a.at == b.at && a.run == b.run && a.key == b.key
  {
    TimedOrder(a.at, Component(a.run) + Part(a.key), b.at, Component(b.run) + Part(b.key));
    ComponentPlain(a.run);
    ComponentPlain(b.run);
    SplitUnique(Component(a.run), Part(a.key), Component(b.run), Part(b.key));
    ComponentInjective(a.run, b.run);
    PartInjective(a.key, b.key);
  }

  /** The stored form of an index key determines it: rows of two runs, or of two indexes
      of one run, never share a place. */
  lemma NoCollisions(a: Key, b: Key)
    requires InTime(a) && InTime(b) && Kind(a) == Kind(b) && RowId(a) == RowId(b)
    ensures a == b
  {
    SameKind(a, b);
    if a.ByWait? {
      SameScope(a, b);
      SameWaitRow(a, b);
    } else {
      SameTail(a, b);
      SameRow(a, b);
      SameParts(a, b);
    }
  }

  lemma SameRow(a: Key, b: Key)
    requires !a.ByWait? && InTime(a) && InTime(b) && Tag(a) == Tag(b) && RowId(a) == RowId(b)
    ensures a.run == b.run && (IsTimed(a) ==> a.at == b.at)
  {
    if IsTimed(a) {
      TimedOrder(a.at, a.run, b.at, b.run);
    }
  }

  lemma SameParts(a: Key, b: Key)
    requires !a.ByWait? && Tag(a) == Tag(b) && Subject(a) == Subject(b)
    requires a.run == b.run && (IsTimed(a) ==> a.at == b.at)
    ensures a == b
  {
  }

  /** What follows the head of a kind other than a wait's. */
  function Subject(k: Key): Option<string> {
    match k
    case ByName(name, _) => Some(name)
    case ByStart(scope, _, _) => if scope.OfName? then Some(scope.name) else None
    case ByEnd(scope, _, _) => if scope.OfName? then Some(scope.name) else None
    case ByParent(parent, _, _) => Some(parent)
    case LiveName(name, _) => Some(name)
    case TriggerLive(trigger, _) => Some(trigger)
    case DueApp(app, _, _) => Some(app)
    case Children(parent, _) => Some(parent)
    case Awaiting(t, _, _) => Some(t)
    case Subscribed(t, _) => Some(t)
    case _ => None
  }

  lemma SameTail(a: Key, b: Key)
    requires !a.ByWait? && Tag(a) == Tag(b) && Tail(a) == Tail(b)
    ensures Subject(a) == Subject(b)
  {
    if Subject(a).Some? && Subject(b).Some? {
      PartInjective(Subject(a).value, Subject(b).value);
    }
  }
}

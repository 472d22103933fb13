/**
 Any number of store calls interleaving at every read. An operation is a
 deterministic function of the answers it was given; a call runs it in a fresh
 transaction until one attempt commits, fails or meets its 128th conflict. The
 committed history is the history of the operations run one by one, each alone.
 */
module Serializability {
  import opened Options
  import opened Order
  import opened Transactions

  const ATTEMPTS: nat := 128

  datatype Action<V> = Get(key: Key) | Scan(range: Range, limit: nat) | Put(key: Key, row: V) | Delete(key: Key) | Finish | Fail
  datatype Answer<V> = Row(row: Option<V>) | Found(rows: Rows<V>) | Done | Refused
  type Program<!V> = seq<Answer<V>> -> Action<V>

  // ── running alone ─────────────────────────────────────────────────────────

  /** The answer an action gets on plain rows, without versions or interference. */
  ghost predicate Alone<V>(view: Rows<V>, readOnly: bool, a: Action<V>, answer: Answer<V>) {
    match a
    case Get(k) => answer == Row(Lookup(view, k))
    case Scan(r, limit) => answer.Found? && IsScan(answer.rows, view, r, limit)
    case Put(_, _) => answer == if readOnly then Refused else Done
    case Delete(_) => answer == if readOnly then Refused else Done
    case Finish => false
    case Fail => false
  }

  function Buffer<V>(writes: Writes<V>, a: Action<V>, answer: Answer<V>): Writes<V> {
    if answer.Done? && a.Put? then writes[a.key := Some(a.row)]
    else if answer.Done? && a.Delete? then writes[a.key := None]
    else writes
  }

  /** What the operation has written after these answers. */
  ghost function WritesOf<V>(p: Program<V>, answers: seq<Answer<V>>): Writes<V> {
    if answers == [] then map[] else
      var before := answers[..|answers| - 1];
      Buffer(WritesOf(p, before), p(before), answers[|answers| - 1])
  }

  ghost predicate AnsweredAlone<V>(p: Program<V>, readOnly: bool, base: Rows<V>, answers: seq<Answer<V>>, i: nat)
    requires i < |answers|
  {
    Alone(Overlay(base, WritesOf(p, answers[..i])), readOnly, p(answers[..i]), answers[i])
  }

  /** Running alone on `base`, the operation gets exactly these answers. */
  ghost predicate RunsAlone<V>(p: Program<V>, readOnly: bool, base: Rows<V>, answers: seq<Answer<V>>) {
    forall i :: 0 <= i < |answers| ==> AnsweredAlone(p, readOnly, base, answers, i)
  }

  // ── one action of an optimistic transaction ───────────────────────────────

  /** The rows observed under `keys`. */
  function Fetch<V>(rows: Versioned<V>, keys: set<Key>): Rows<V> {
    map k | k in rows && k in keys :: rows[k].1
  }

  function FetchVersions<V>(rows: Versioned<V>, keys: set<Key>): map<Key, Version> {
    map k | k in rows && k in keys :: rows[k].0
  }

  ghost predicate Scans<V>(rows: Versioned<V>, tx: Tx<V>, r: Range, limit: nat, found: set<Key>, after: Tx<V>, answer: Rows<V>) {
    ScanAnswers(answer, Fetch(rows, found), tx.writes, r, limit) &&
    if limit == 0 || EmptyRange(r) then after == tx else
      var n := ReadLimit(tx.writes, limit);
      && IsFirst(found, KeysIn(rows.Keys, r), n)
      && after == tx.(scans := tx.scans + [RangeRead(r, n, FetchVersions(rows, found))])
  }

  /** One action against the shared rows: `found` are the keys a range returned. */
  ghost predicate Acts<V>(rows: Versioned<V>, readOnly: bool, tx: Tx<V>, a: Action<V>, found: set<Key>, after: Tx<V>, answer: Answer<V>) {
    match a
    case Get(k) => after == Observe(rows, tx, k) && answer == Row(GetAnswer(rows, tx, k))
    case Scan(r, limit) => answer.Found? && Scans(rows, tx, r, limit, found, after, answer.rows)
    case Put(k, v) =>
      if readOnly then after == tx && answer == Refused
      else after == Observe(rows, tx, k).(writes := tx.writes[k := Some(v)]) && answer == Done
    case Delete(k) =>
      if readOnly then after == tx && answer == Refused
      else after == Observe(rows, tx, k).(writes := tx.writes[k := None]) && answer == Done
    case Finish => false
    case Fail => false
  }

  // ── validation ────────────────────────────────────────────────────────────

  predicate PointValid<V>(tx: Tx<V>, rows: Versioned<V>, k: Key)
    requires k in tx.points
  {
    VersionOf(tx.points[k]) == VersionOf(Lookup(rows, k))
  }

  predicate RangeValid<V>(scan: RangeRead, rows: Versioned<V>) {
    && IsFirst(scan.versions.Keys, KeysIn(rows.Keys, scan.range), scan.limit)
    && forall k :: k in scan.versions ==> k in rows && rows[k].0 == scan.versions[k]
  }

  predicate RangesValid<V>(tx: Tx<V>, rows: Versioned<V>) {
    forall i :: 0 <= i < |tx.scans| ==> RangeValid(tx.scans[i], rows)
  }

  /** Every observation still holds. */
  predicate Validates<V>(tx: Tx<V>, rows: Versioned<V>) {
    RangesValid(tx, rows) && forall k :: k in tx.points ==> PointValid(tx, rows, k)
  }

  /** A range returned this key with the version the point read saw. */
  predicate Ranged<V>(tx: Tx<V>, k: Key)
    requires k in tx.points
  {
    tx.points[k].Some? &&
    exists i :: 0 <= i < |tx.scans| && k in tx.scans[i].versions && tx.scans[i].versions[k] == tx.points[k].value.0
  }

  /** The commit's own test, which leaves such points to the range. */
  predicate CommitCheck<V>(tx: Tx<V>, rows: Versioned<V>) {
    RangesValid(tx, rows) && forall k :: k in tx.points && !Ranged(tx, k) ==> PointValid(tx, rows, k)
  }

  /** Skipping points a range covers loses no conflict. */
  lemma CommitCheckIsFull<V>(tx: Tx<V>, rows: Versioned<V>)
    ensures CommitCheck(tx, rows) <==> Validates(tx, rows)
  {
    if CommitCheck(tx, rows) {
      forall k | k in tx.points ensures PointValid(tx, rows, k) {
        if Ranged(tx, k) {
          var i :| 0 <= i < |tx.scans| && k in tx.scans[i].versions && tx.scans[i].versions[k] == tx.points[k].value.0;
          assert RangeValid(tx.scans[i], rows);
        }
      }
    }
  }

  /** A row read, put or deleted is one the commit checks: the commit is refused if it has
      changed since the transaction first touched it, whatever became of the value. */
  lemma TouchedIsChecked<V>(rows: Versioned<V>, tx: Tx<V>, a: Action<V>, after: Tx<V>, answer: Answer<V>, now: Versioned<V>)
    requires a.Get? || a.Put? || a.Delete?
    requires Acts(rows, false, tx, a, {}, after, answer) && a.key !in tx.points && a.key !in tx.writes
    requires CommitCheck(after, now)
    ensures a.key in rows <==> a.key in now
    ensures a.key in rows ==> now[a.key].0 == rows[a.key].0
  {
    CommitCheckIsFull(after, now);
    assert PointValid(after, now, a.key);
  }

  // ── versions name values ──────────────────────────────────────────────────

  ghost predicate Consistent<V>(rows: Versioned<V>, log: seq<V>) {
    forall k :: k in rows ==> rows[k].0 < |log| && log[rows[k].0] == rows[k].1
  }

  ghost predicate Seen<V>(tx: Tx<V>, log: seq<V>) {
    forall k :: k in tx.points && tx.points[k].Some? ==>
      tx.points[k].value.0 < |log| && log[tx.points[k].value.0] == tx.points[k].value.1
  }

  /** Whatever rows the validation would accept, now or later, on their values the
      operation run alone gets the answers it got. */
  ghost predicate Explained<V(!new)>(log: seq<V>, tx: Tx<V>, p: Program<V>, readOnly: bool, answers: seq<Answer<V>>) {
    forall rows: Versioned<V>, later: seq<V> ::
      log <= later && Consistent(rows, later) && Validates(tx, rows) ==> RunsAlone(p, readOnly, Values(rows), answers)
  }

  lemma PointAnswer<V>(rows: Versioned<V>, log: seq<V>, now: Versioned<V>, later: seq<V>, tx: Tx<V>, k: Key)
    requires Consistent(rows, log) && Seen(tx, log) && log <= later && Consistent(now, later)
    requires Validates(Observe(rows, tx, k), now)
    ensures GetAnswer(rows, tx, k) == Lookup(Overlay(Values(now), tx.writes), k)
  {
    if k !in tx.writes {
      assert PointValid(Observe(rows, tx, k), now, k);
    }
  }

  lemma RangeAnswer<V>(rows: Versioned<V>, log: seq<V>, now: Versioned<V>, later: seq<V>, scan: RangeRead, found: set<Key>)
    requires Consistent(rows, log) && log <= later && Consistent(now, later)
    requires found <= rows.Keys && scan.versions == FetchVersions(rows, found) && RangeValid(scan, now)
    ensures IsScan(Fetch(rows, found), Values(now), scan.range, scan.limit)
  {
    assert scan.versions.Keys == found == Fetch(rows, found).Keys;
    assert Values(now).Keys == now.Keys;
    forall k | k in found ensures k in now && now[k].1 == rows[k].1 {
      assert k in scan.versions && now[k].0 == scan.versions[k];
    }
  }

  /** The answer just given is the one the operation gets alone on any rows that
      the extended observations accept. */
  lemma ScanIsAlone<V>(rows: Versioned<V>, log: seq<V>, readOnly: bool, tx: Tx<V>, r: Range, limit: nat, found: set<Key>, after: Tx<V>, answer: Answer<V>, now: Versioned<V>, later: seq<V>)
    requires Consistent(rows, log) && log <= later && Consistent(now, later)
    requires Acts(rows, readOnly, tx, Scan(r, limit), found, after, answer) && Validates(after, now)
    ensures answer.Found? && IsScan(answer.rows, Overlay(Values(now), tx.writes), r, limit)
  {
    if limit != 0 && !EmptyRange(r) {
      var scan := after.scans[|tx.scans|];
      assert RangeValid(scan, now);
      RangeAnswer(rows, log, now, later, scan, found);
    }
    LimitedScanIsExact(Values(now), tx.writes, r, limit, Fetch(rows, found), answer.rows);
  }

  lemma AnswerIsAlone<V>(rows: Versioned<V>, log: seq<V>, readOnly: bool, tx: Tx<V>, a: Action<V>, found: set<Key>, after: Tx<V>, answer: Answer<V>, now: Versioned<V>, later: seq<V>)
    requires Consistent(rows, log) && Seen(tx, log) && log <= later && Consistent(now, later)
    requires Acts(rows, readOnly, tx, a, found, after, answer) && Validates(after, now)
    ensures Alone(Overlay(Values(now), tx.writes), readOnly, a, answer)
  {
    match a
    case Get(k) =>
      PointAnswer(rows, log, now, later, tx, k);
    case Scan(r, limit) =>
      ScanIsAlone(rows, log, readOnly, tx, r, limit, found, after, answer, now, later);
    case Put(_, _) =>
    case Delete(_) =>
    case Finish =>
    case Fail =>
  }

  lemma EarlierObservations<V>(rows: Versioned<V>, readOnly: bool, tx: Tx<V>, a: Action<V>, found: set<Key>, after: Tx<V>, answer: Answer<V>, now: Versioned<V>)
    requires Acts(rows, readOnly, tx, a, found, after, answer) && Validates(after, now)
    ensures Validates(tx, now)
  {
    assert tx.scans <= after.scans;
    forall i | 0 <= i < |tx.scans| ensures RangeValid(tx.scans[i], now) {
      assert after.scans[i] == tx.scans[i];
    }
    forall k | k in tx.points ensures PointValid(tx, now, k) {
      assert k in after.points && after.points[k] == tx.points[k];
      assert PointValid(after, now, k);
    }
  }

  lemma ExtendAlone<V>(p: Program<V>, readOnly: bool, base: Rows<V>, answers: seq<Answer<V>>, answer: Answer<V>)
    requires RunsAlone(p, readOnly, base, answers)
    requires Alone(Overlay(base, WritesOf(p, answers)), readOnly, p(answers), answer)
    ensures RunsAlone(p, readOnly, base, answers + [answer])
  {
    var longer := answers + [answer];
    forall i | 0 <= i < |longer| ensures AnsweredAlone(p, readOnly, base, longer, i) {
      assert longer[..i] == if i < |answers| then answers[..i] else answers;
      assert i < |answers| ==> AnsweredAlone(p, readOnly, base, answers, i);
    }
  }

  lemma ActStaysExplained<V(!new)>(rows: Versioned<V>, log: seq<V>, readOnly: bool, tx: Tx<V>, p: Program<V>, answers: seq<Answer<V>>, found: set<Key>, after: Tx<V>, answer: Answer<V>)
    requires Consistent(rows, log) && Seen(tx, log) && tx.writes == WritesOf(p, answers)
    requires Explained(log, tx, p, readOnly, answers)
    requires Acts(rows, readOnly, tx, p(answers), found, after, answer)
    ensures Explained(log, after, p, readOnly, answers + [answer])
    ensures Seen(after, log) && after.writes == WritesOf(p, answers + [answer])
  {
    assert (answers + [answer])[..|answers|] == answers;
    forall now: Versioned<V>, later: seq<V> | log <= later && Consistent(now, later) && Validates(after, now)
      ensures RunsAlone(p, readOnly, Values(now), answers + [answer])
    {
      EarlierObservations(rows, readOnly, tx, p(answers), found, after, answer, now);
      AnswerIsAlone(rows, log, readOnly, tx, p(answers), found, after, answer, now, later);
      ExtendAlone(p, readOnly, Values(now), answers, answer);
    }
  }

  // ── the machine ───────────────────────────────────────────────────────────

  datatype Outcome = Committed | Ambiguous | Failed | Contended
  datatype Phase<V> = Running(attempt: nat, tx: Tx<V>, answers: seq<Answer<V>>) | Settled(outcome: Outcome)
  datatype Call<!V> = Call(program: Program<V>, readOnly: bool, phase: Phase<V>)
  datatype Entry<!V> = Entry(call: nat, program: Program<V>, readOnly: bool, answers: seq<Answer<V>>)
  /** `initial` and `history` record how the rows came about. */
  datatype State<!V> = State(rows: Versioned<V>, log: seq<V>, calls: map<nat, Call<V>>, initial: Rows<V>, history: seq<Entry<V>>)

  datatype Fault = NoFault | BeforeCommit | AfterCommit

  function Fresh<V>(attempt: nat): Phase<V> {
    Running(attempt, Tx(map[], [], map[]), [])
  }

  ghost predicate Init<V>(s: State<V>) {
    Consistent(s.rows, s.log) && s.calls == map[] && s.history == [] && s.initial == Values(s.rows)
  }

  /** The writes take effect under versions never used before. */
  ghost predicate Installs<V>(rows: Versioned<V>, log: seq<V>, writes: Writes<V>, after: Versioned<V>, later: seq<V>) {
    && log <= later && Consistent(after, later)
    && Values(after) == Overlay(Values(rows), writes)
    && (forall k :: k in after && k !in writes ==> k in rows && after[k] == rows[k])
    && (forall k :: k in after && k in writes ==> after[k].0 >= |log|)
  }

  ghost predicate Invoke<V>(s: State<V>, t: State<V>, c: nat, p: Program<V>, readOnly: bool) {
    c !in s.calls && t == s.(calls := s.calls[c := Call(p, readOnly, Fresh(0))])
  }

  ghost predicate Runs<V>(s: State<V>, c: nat) {
    c in s.calls && s.calls[c].phase.Running?
  }

  function Move<V>(s: State<V>, c: nat, phase: Phase<V>): State<V>
    requires c in s.calls
  {
    s.(calls := s.calls[c := s.calls[c].(phase := phase)])
  }

  ghost predicate Act<V>(s: State<V>, t: State<V>, c: nat, found: set<Key>, after: Tx<V>, answer: Answer<V>) {
    Runs(s, c) &&
    var call := s.calls[c];
    var ph := call.phase;
    Acts(s.rows, call.readOnly, ph.tx, call.program(ph.answers), found, after, answer) &&
    t == Move(s, c, Running(ph.attempt, after, ph.answers + [answer]))
  }

  /** The operation failed, or its caller dropped it: nothing was applied. */
  ghost predicate Drop<V>(s: State<V>, t: State<V>, c: nat) {
    Runs(s, c) && t == Move(s, c, Settled(Failed))
  }

  ghost predicate Commit<V>(s: State<V>, t: State<V>, c: nat, fault: Fault) {
    Runs(s, c) &&
    var call := s.calls[c];
    var ph := call.phase;
    call.program(ph.answers).Finish? &&
    if !CommitCheck(ph.tx, s.rows) then
      t == Move(s, c, if ph.attempt + 1 < ATTEMPTS then Fresh(ph.attempt + 1) else Settled(Contended))
    else if fault.BeforeCommit? then
      t == Move(s, c, Settled(Failed))
    else
      Installs(s.rows, s.log, ph.tx.writes, t.rows, t.log) &&
      t == Move(s, c, Settled(if fault.AfterCommit? then Ambiguous else Committed)).(
        rows := t.rows, log := t.log, history := s.history + [Entry(c, call.program, call.readOnly, ph.answers)])
  }

  ghost predicate Next<V(!new)>(s: State<V>, t: State<V>) {
    || (exists c, p, readOnly :: Invoke(s, t, c, p, readOnly))
    || (exists c, found, after, answer :: Act(s, t, c, found, after, answer))
    || (exists c :: Drop(s, t, c))
    || (exists c, fault :: Commit(s, t, c, fault))
  }

  // ── the serial history ────────────────────────────────────────────────────

  /** The rows after running the history's operations one by one. */
  ghost function Serial<V>(initial: Rows<V>, history: seq<Entry<V>>): Rows<V> {
    if history == [] then initial else
      var last := history[|history| - 1];
      Overlay(Serial(initial, history[..|history| - 1]), WritesOf(last.program, last.answers))
  }

  /** Each operation of the history, run alone on what the ones before it left, is
      given these answers and then finishes. */
  ghost predicate IsSerial<V>(initial: Rows<V>, history: seq<Entry<V>>) {
    forall i :: 0 <= i < |history| ==>
      && RunsAlone(history[i].program, history[i].readOnly, Serial(initial, history[..i]), history[i].answers)
      && history[i].program(history[i].answers).Finish?
  }

  /** A call is in the history once if it took effect, and not at all otherwise. */
  ghost predicate AtMostOnce<V>(s: State<V>) {
    && (forall i, j :: 0 <= i < j < |s.history| ==> s.history[i].call != s.history[j].call)
    && (forall i :: 0 <= i < |s.history| ==> Took(s, s.history[i].call))
    && (forall c :: Took(s, c) ==> exists i :: 0 <= i < |s.history| && s.history[i].call == c)
  }

  ghost predicate Took<V>(s: State<V>, c: nat) {
    c in s.calls && s.calls[c].phase.Settled? && s.calls[c].phase.outcome in {Committed, Ambiguous}
  }

  ghost predicate CallOk<V(!new)>(s: State<V>, c: nat)
    requires c in s.calls
  {
    var call := s.calls[c];
    call.phase.Running? ==>
      var ph := call.phase;
      && ph.attempt < ATTEMPTS
      && Seen(ph.tx, s.log) && ph.tx.writes == WritesOf(call.program, ph.answers)
      && Explained(s.log, ph.tx, call.program, call.readOnly, ph.answers)
  }

  ghost predicate Inv<V(!new)>(s: State<V>) {
    && Consistent(s.rows, s.log)
    && (forall c :: c in s.calls ==> CallOk(s, c))
    && Values(s.rows) == Serial(s.initial, s.history) && IsSerial(s.initial, s.history)
    && AtMostOnce(s)
  }

  lemma FreshIsExplained<V(!new)>(log: seq<V>, p: Program<V>, readOnly: bool)
    ensures Explained(log, Tx(map[], [], map[]), p, readOnly, [])
  {
  }

  /** Observations explained under a log stay explained as it grows. */
  lemma LogGrows<V(!new)>(s: State<V>, t: State<V>, c: nat)
    requires c in s.calls && c in t.calls && s.calls[c] == t.calls[c]
    requires CallOk(s, c) && s.log <= t.log
    ensures CallOk(t, c)
  {
    if s.calls[c].phase.Running? {
      var ph := s.calls[c].phase;
      forall rows: Versioned<V>, later: seq<V> | t.log <= later && Consistent(rows, later) && Validates(ph.tx, rows)
        ensures RunsAlone(s.calls[c].program, s.calls[c].readOnly, Values(rows), ph.answers)
      {
        assert s.log <= later;
      }
    }
  }

  lemma InvokeKeeps<V(!new)>(s: State<V>, t: State<V>, c: nat, p: Program<V>, readOnly: bool)
    requires Inv(s) && Invoke(s, t, c, p, readOnly)
    ensures Inv(t)
  {
    FreshIsExplained(s.log, p, readOnly);
    forall d | d in t.calls ensures CallOk(t, d) {
      if d != c {
        LogGrows(s, t, d);
      }
    }
    SameHistory(s, t, c);
  }

  /** A step that leaves the history alone, and the fate of every other call. */
  lemma SameHistory<V>(s: State<V>, t: State<V>, c: nat)
    requires AtMostOnce(s) && s.history == t.history && !Took(s, c) && !Took(t, c)
    requires forall d :: d != c ==> (d in s.calls <==> d in t.calls) && (d in s.calls ==> s.calls[d] == t.calls[d])
    ensures AtMostOnce(t)
  {
    forall d ensures Took(s, d) <==> Took(t, d) {
    }
  }

  lemma ActKeeps<V(!new)>(s: State<V>, t: State<V>, c: nat, found: set<Key>, after: Tx<V>, answer: Answer<V>)
    requires Inv(s) && Act(s, t, c, found, after, answer)
    ensures Inv(t)
  {
    var call, ph := s.calls[c], s.calls[c].phase;
    assert CallOk(s, c);
    ActStaysExplained(s.rows, s.log, call.readOnly, ph.tx, call.program, ph.answers, found, after, answer);
    forall d | d in t.calls ensures CallOk(t, d) {
      if d != c {
        LogGrows(s, t, d);
      }
    }
    SameHistory(s, t, c);
  }

  /** A call that ends or starts over without taking effect. */
  lemma WithdrawKeeps<V(!new)>(s: State<V>, t: State<V>, c: nat, phase: Phase<V>)
    requires Inv(s) && Runs(s, c) && t == Move(s, c, phase)
    requires phase == Settled(Failed) || phase == Settled(Contended) || (exists n: nat :: n < ATTEMPTS && phase == Fresh(n))
    ensures Inv(t)
  {
    FreshIsExplained(s.log, s.calls[c].program, s.calls[c].readOnly);
    forall d | d in t.calls ensures CallOk(t, d) {
      if d != c {
        LogGrows(s, t, d);
      }
    }
    SameHistory(s, t, c);
  }

  lemma CommitKeeps<V(!new)>(s: State<V>, t: State<V>, c: nat, fault: Fault)
    requires Inv(s) && Commit(s, t, c, fault)
    ensures Inv(t)
  {
    assert CallOk(s, c);
    if CommitCheck(s.calls[c].phase.tx, s.rows) && !fault.BeforeCommit? {
      TakesEffect(s, t, c, fault);
    } else {
      WithdrawKeeps(s, t, c, t.calls[c].phase);
    }
  }

  lemma TakesEffect<V(!new)>(s: State<V>, t: State<V>, c: nat, fault: Fault)
    requires Inv(s) && Commit(s, t, c, fault) && !fault.BeforeCommit? && CommitCheck(s.calls[c].phase.tx, s.rows)
    ensures Inv(t)
  {
    CommitReadAlone(s, c);
    HistoryGrows(s, t, c);
    CountedOnce(s, t, c);
    forall d | d in t.calls ensures CallOk(t, d) {
      if d != c {
        LogGrows(s, t, d);
      }
    }
  }

  /** What a committing call was answered is what it gets alone on the rows it
      commits to, and its writes are the operation's. */
  lemma CommitReadAlone<V(!new)>(s: State<V>, c: nat)
    requires Inv(s) && Runs(s, c) && CommitCheck(s.calls[c].phase.tx, s.rows)
    ensures var call := s.calls[c];
            && RunsAlone(call.program, call.readOnly, Values(s.rows), call.phase.answers)
            && call.phase.tx.writes == WritesOf(call.program, call.phase.answers)
  {
    assert CallOk(s, c);
    CommitCheckIsFull(s.calls[c].phase.tx, s.rows);
  }

  lemma HistoryGrows<V>(s: State<V>, t: State<V>, c: nat)
    requires Values(s.rows) == Serial(s.initial, s.history) && IsSerial(s.initial, s.history)
    requires t.initial == s.initial && |t.history| == |s.history| + 1 && t.history[..|s.history|] == s.history
    requires var e := t.history[|s.history|];
             && RunsAlone(e.program, e.readOnly, Values(s.rows), e.answers)
             && e.program(e.answers).Finish?
             && Values(t.rows) == Overlay(Values(s.rows), WritesOf(e.program, e.answers))
    ensures Values(t.rows) == Serial(t.initial, t.history) && IsSerial(t.initial, t.history)
  {
    forall i | 0 <= i < |t.history|
      ensures RunsAlone(t.history[i].program, t.history[i].readOnly, Serial(t.initial, t.history[..i]), t.history[i].answers)
           && t.history[i].program(t.history[i].answers).Finish?
    {
      assert t.history[..i] == s.history[..i];
      assert i < |s.history| ==> t.history[i] == s.history[i];
      assert i == |s.history| ==> s.history[..i] == s.history;
    }
  }

  lemma CountedOnce<V>(s: State<V>, t: State<V>, c: nat)
    requires AtMostOnce(s) && Runs(s, c) && Took(t, c)
    requires |t.history| == |s.history| + 1 && t.history[..|s.history|] == s.history && t.history[|s.history|].call == c
    requires forall d :: d != c ==> (d in s.calls <==> d in t.calls) && (d in s.calls ==> s.calls[d] == t.calls[d])
    ensures AtMostOnce(t)
  {
    assert forall i :: 0 <= i < |s.history| ==> t.history[i] == s.history[i];
    forall d | Took(t, d) ensures exists i :: 0 <= i < |t.history| && t.history[i].call == d {
      if d == c {
        assert t.history[|s.history|].call == d;
      } else {
        assert Took(s, d);
        var i :| 0 <= i < |s.history| && s.history[i].call == d;
        assert t.history[i].call == d;
      }
    }
    forall i | 0 <= i < |s.history| ensures t.history[i].call != c && Took(t, t.history[i].call) {
      assert Took(s, s.history[i].call);
    }
  }

  lemma StepKeeps<V(!new)>(s: State<V>, t: State<V>)
    requires Inv(s) && Next(s, t)
    ensures Inv(t)
  {
    if c, p, readOnly :| Invoke(s, t, c, p, readOnly) {
      InvokeKeeps(s, t, c, p, readOnly);
    } else if c, found, after, answer :| Act(s, t, c, found, after, answer) {
      ActKeeps(s, t, c, found, after, answer);
    } else if c :| Drop(s, t, c) {
      WithdrawKeeps(s, t, c, Settled(Failed));
    } else {
      var c, fault :| Commit(s, t, c, fault);
      CommitKeeps(s, t, c, fault);
    }
  }

  ghost predicate IsRun<V(!new)>(states: seq<State<V>>) {
    states != [] && Init(states[0]) && forall i :: 0 <= i < |states| - 1 ==> Next(states[i], states[i + 1])
  }

  lemma RunPrefix<V(!new)>(states: seq<State<V>>)
    requires IsRun(states) && |states| > 1
    ensures IsRun(states[..|states| - 1]) && Next(states[|states| - 2], states[|states| - 1])
  {
    var n := |states| - 1;
    forall i | 0 <= i < n - 1 ensures Next(states[..n][i], states[..n][i + 1]) {
      assert Next(states[i], states[i + 1]);
    }
    assert Next(states[n - 1], states[n - 1 + 1]);
  }

  lemma {:induction false} RunKeeps<V(!new)>(states: seq<State<V>>)
    requires IsRun(states)
    ensures Inv(states[|states| - 1])
  {
    var n := |states| - 1;
    if n > 0 {
      RunPrefix(states);
      RunKeeps(states[..n]);
      assert states[..n][n - 1] == states[n - 1];
      StepKeeps(states[n - 1], states[n]);
    }
  }

  /** For every interleaving: the rows are what the committed operations leave when
      run one by one in commit order, every one of them read exactly what it reads
      running alone at its place, and a call, however often retried, is in that
      history at most once: exactly once when it committed or its acknowledgement
      was lost, never when it failed or gave up. */
  lemma Serializable<V(!new)>(states: seq<State<V>>)
    requires IsRun(states)
    ensures var s := states[|states| - 1];
            && Values(s.rows) == Serial(s.initial, s.history)
            && IsSerial(s.initial, s.history)
            && AtMostOnce(s)
  {
    RunKeeps(states);
  }
}

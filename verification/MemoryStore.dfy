/**
 The in-memory backend: one shared versioned row map, and transactions that record
 what they read and buffer what they write until their commit validates and applies.
 */
module MemoryStore {
  import opened Options
  import opened Order
  import opened Transactions
  import opened Serializability

  class MemoryBackend<V(==)> {
    var rows: Versioned<V>
    /** The next unused version. */
    var next: Version
    ghost var log: seq<V>
    const readOnly: bool

    ghost predicate Valid()
      reads this
    {
      next == |log| && Consistent(rows, log)
    }

    constructor (readOnly: bool)
      ensures Valid() && rows == map[] && this.readOnly == readOnly
    {
      this.readOnly := readOnly;
      rows, next, log := map[], 0, [];
    }

    /** Applies a validated transaction's writes, each under a new version. */
    method Install(writes: Writes<V>)
      requires Valid()
      modifies this
      ensures Valid() && Installs(old(rows), old(log), writes, rows, log)
    {
      rows, next, log := ApplyWrites(rows, next, log, writes);
    }
  }

  datatype CommitResult = Applied | Conflict | Injected(applied: bool)

  class MemoryTransaction<V(==)> {
    const backend: MemoryBackend<V>
    var points: map<Key, Option<(Version, V)>>
    var scans: seq<RangeRead>
    var writes: Writes<V>

    ghost function State(): Tx<V>
      reads this
    {
      Tx(points, scans, writes)
    }

    constructor (backend: MemoryBackend<V>)
      ensures this.backend == backend && State() == Tx(map[], [], map[])
    {
      this.backend := backend;
      points, scans, writes := map[], [], map[];
    }

    method Get(k: Key) returns (row: Option<V>)
      modifies this`points
      ensures Acts(backend.rows, backend.readOnly, old(State()), Action.Get(k), {}, State(), Row(row))
    {
      if k in writes {
        return writes[k];
      }
      if k !in points {
        points := points[k := Lookup(backend.rows, k)];
      }
      row := ReadOf(points[k]);
    }

    method Scan(r: Range, limit: nat) returns (found: Rows<V>, read: set<Key>)
      modifies this`scans
      ensures Scans(backend.rows, old(State()), r, limit, read, State(), found)
    {
      if limit == 0 || EmptyRange(r) {
        return map[], {};
      }
      var n := ReadLimit(writes, limit);
      read := TakeFirst(KeysIn(backend.rows.Keys, r), n);
      var merged := Lay(Fetch(backend.rows, read), writes, r);
      found := Leading(merged, limit);
      ScanActs(backend.rows, State(), r, limit, read, merged, found);
      scans := scans + [RangeRead(r, n, FetchVersions(backend.rows, read))];
    }

    method Put(k: Key, value: V) returns (ok: bool)
      modifies this`points, this`writes
      ensures Acts(backend.rows, backend.readOnly, old(State()), Action.Put(k, value), {}, State(), if ok then Done else Refused)
    {
      if backend.readOnly {
        return false;
      }
      var _ := Get(k);
      writes := writes[k := Some(value)];
      ok := true;
    }

    method Delete(k: Key) returns (ok: bool)
      modifies this`points, this`writes
      ensures Acts(backend.rows, backend.readOnly, old(State()), Action<V>.Delete(k), {}, State(), if ok then Done else Refused)
    {
      if backend.readOnly {
        return false;
      }
      var _ := Get(k);
      writes := writes[k := None];
      ok := true;
    }

    /** The commit's test: every point no range answers for, then every range. */
    method Check() returns (ok: bool)
      ensures ok <==> Validates(State(), backend.rows)
    {
      CommitCheckIsFull(State(), backend.rows);
      var rest := points.Keys;
      while rest != {}
        invariant rest <= points.Keys
        invariant forall k :: k in points.Keys - rest && !Ranged(State(), k) ==> PointValid(State(), backend.rows, k)
      {
        var k :| k in rest;
        rest := rest - {k};
        var before := points[k];
        var ranged := before.Some? && exists i :: 0 <= i < |scans| && k in scans[i].versions && scans[i].versions[k] == before.value.0;
        if !ranged && VersionOf(Lookup(backend.rows, k)) != VersionOf(before) {
          return false;
        }
      }
      for i := 0 to |scans|
        invariant forall j :: 0 <= j < i ==> RangeValid(scans[j], backend.rows)
      {
        var scan := scans[i];
        var keys := TakeFirst(KeysIn(backend.rows.Keys, scan.range), scan.limit);
        var current := FetchVersions(backend.rows, keys);
        assert current.Keys == keys;
        if current != scan.versions {
          if RangeValid(scan, backend.rows) {
            FirstUnique(keys, scan.versions.Keys, KeysIn(backend.rows.Keys, scan.range), scan.limit);
          }
          return false;
        }
      }
      ok := true;
    }

    method Commit(fault: Fault) returns (result: CommitResult)
      requires backend.Valid()
      modifies backend
      ensures backend.Valid()
      ensures result.Conflict? <==> !Validates(old(State()), old(backend.rows))
      ensures result.Injected? ==> fault == if result.applied then AfterCommit else BeforeCommit
      ensures result == Applied || result == Injected(true)
              ==> Installs(old(backend.rows), old(backend.log), writes, backend.rows, backend.log)
      ensures result == Conflict || result == Injected(false)
              ==> backend.rows == old(backend.rows) && backend.log == old(backend.log)
    {
      var ok := Check();
      if !ok {
        return Conflict;
      }
      if fault == BeforeCommit {
        return Injected(false);
      }
      backend.Install(writes);
      result := if fault == AfterCommit then Injected(true) else Applied;
    }
  }

  /** Lays a transaction's writes over the rows a range returned. */
  method Lay<V>(rows: Rows<V>, writes: Writes<V>, r: Range) returns (merged: Rows<V>)
    ensures merged == Overlay(rows, WritesIn(writes, r))
  {
    merged := rows;
    var rest := writes.Keys;
    while rest != {}
      invariant rest <= writes.Keys
      invariant merged == Overlay(rows, WritesIn(writes - rest, r))
    {
      ghost var done := writes - rest;
      var k :| k in rest;
      rest := rest - {k};
      assert writes - rest == done[k := writes[k]];
      WritesInOne(done, k, writes[k], r);
      if InRange(k, r) {
        OverlayOne(rows, WritesIn(done, r), k, writes[k]);
        match writes[k] {
          case Some(value) => merged := merged[k := value];
          case None => merged := merged - {k};
        }
      }
    }
    assert writes - rest == writes;
  }

  method Leading<V>(rows: Rows<V>, limit: nat) returns (found: Rows<V>)
    ensures IsFirst(found.Keys, rows.Keys, limit) && IsPart(found, rows)
  {
    var first := TakeFirst(rows.Keys, limit);
    found := map k | k in rows && k in first :: rows[k];
    assert found.Keys == first;
  }

  lemma ScanActs<V>(rows: Versioned<V>, tx: Tx<V>, r: Range, limit: nat, keys: set<Key>, merged: Rows<V>, found: Rows<V>)
    requires limit != 0 && !EmptyRange(r) && IsFirst(keys, KeysIn(rows.Keys, r), ReadLimit(tx.writes, limit))
    requires merged == Overlay(Fetch(rows, keys), WritesIn(tx.writes, r))
    requires IsFirst(found.Keys, merged.Keys, limit) && IsPart(found, merged)
    ensures Scans(rows, tx, r, limit, keys,
                  tx.(scans := tx.scans + [RangeRead(r, ReadLimit(tx.writes, limit), FetchVersions(rows, keys))]), found)
  {
  }

  lemma WritesInOne<V>(done: Writes<V>, k: Key, w: Option<V>, r: Range)
    requires k !in done
    ensures WritesIn(done[k := w], r) == if InRange(k, r) then WritesIn(done, r)[k := w] else WritesIn(done, r)
  {
  }

  /** Laying one more write over the rows. */
  lemma OverlayOne<V>(base: Rows<V>, done: Writes<V>, k: Key, w: Option<V>)
    ensures Overlay(base, done[k := w]) == if w.Some? then Overlay(base, done)[k := w.value] else Overlay(base, done) - {k}
  {
  }

  lemma ValuesOne<V>(rows: Versioned<V>, k: Key, row: (Version, V))
    ensures Values(rows[k := row]) == Values(rows)[k := row.1]
  {
  }

  lemma ValuesDrop<V>(rows: Versioned<V>, k: Key)
    ensures Values(rows - {k}) == Values(rows) - {k}
  {
  }

  method ApplyWrites<V>(rows: Versioned<V>, next: Version, ghost log: seq<V>, writes: Writes<V>)
    returns (after: Versioned<V>, unused: Version, ghost later: seq<V>)
    requires next == |log| && Consistent(rows, log)
    ensures unused == |later| && Installs(rows, log, writes, after, later)
  {
    after, unused, later := rows, next, log;
    var rest := writes.Keys;
    assert Overlay(Values(rows), writes - rest) == Values(rows);
    while rest != {}
      invariant rest <= writes.Keys && unused == |later|
      invariant Installs(rows, log, writes - rest, after, later)
    {
      ghost var done := writes - rest;
      var k :| k in rest;
      rest := rest - {k};
      assert writes - rest == done[k := writes[k]];
      match writes[k] {
        case Some(value) =>
          InstallPut(rows, log, done, k, value, after, later);
          after := after[k := (unused, value)];
          unused, later := unused + 1, later + [value];
        case None =>
          InstallDrop(rows, log, done, k, after, later);
          after := after - {k};
      }
    }
    assert writes - rest == writes;
  }

  lemma InstallPut<V>(rows0: Versioned<V>, log0: seq<V>, done: Writes<V>, k: Key, value: V, rows: Versioned<V>, log: seq<V>)
    requires Installs(rows0, log0, done, rows, log) && k !in done
    ensures Installs(rows0, log0, done[k := Some(value)], rows[k := (|log|, value)], log + [value])
  {
    OverlayOne(Values(rows0), done, k, Some(value));
    ValuesOne(rows, k, (|log|, value));
  }

  lemma InstallDrop<V>(rows0: Versioned<V>, log0: seq<V>, done: Writes<V>, k: Key, rows: Versioned<V>, log: seq<V>)
    requires Installs(rows0, log0, done, rows, log) && k !in done
    ensures Installs(rows0, log0, done[k := None], rows - {k}, log)
  {
    OverlayOne(Values(rows0), done, k, None);
    ValuesDrop(rows, k);
  }

  // ── one attempt ───────────────────────────────────────────────────────────

  /** `others(i)` is what other clients commit before the store's `i`-th read or commit. */
  type Clients<V> = nat -> Writes<V>

  ghost function AfterOthers<V>(rows: Rows<V>, others: Clients<V>, n: nat): Rows<V> {
    if n == 0 then rows else Overlay(AfterOthers(rows, others, n - 1), others(n - 1))
  }

  lemma OneMore<V>(initial: Rows<V>, others: Clients<V>, n: nat)
    ensures AfterOthers(initial, others, n + 1) == Overlay(AfterOthers(initial, others, n), others(n))
  {
  }

  /** Nobody else writes in between. */
  ghost predicate Quiet<V(!new)>(others: Clients<V>, start: nat, n: nat) {
    forall i :: start <= i < n ==> others(i) == map[]
  }

  datatype Attempt<V> = Returned(answers: seq<Answer<V>>) | Conflicted | Errored(applied: bool, answers: seq<Answer<V>>)

  predicate TakesEffect<V(!new)>(r: Attempt<V>) {
    r.Returned? || (r.Errored? && r.applied)
  }

  function Ending<V>(result: CommitResult, answers: seq<Answer<V>>): Attempt<V> {
    match result
    case Applied => Returned(answers)
    case Conflict => Conflicted
    case Injected(applied) => Errored(applied, answers)
  }

  /** The operation asks for at most `steps` reads and writes, whatever it is answered. */
  ghost predicate Halts<V(!new)>(p: Program<V>, steps: nat) {
    forall answers: seq<Answer<V>> :: |answers| >= steps ==> Ends(p, answers)
  }

  predicate Ends<V(!new)>(p: Program<V>, answers: seq<Answer<V>>) {
    p(answers).Finish? || p(answers).Fail?
  }

  method Perform<V(==)>(tx: MemoryTransaction<V>, a: Action<V>) returns (answer: Answer<V>, found: set<Key>)
    requires !a.Finish? && !a.Fail?
    modifies tx
    ensures Acts(tx.backend.rows, tx.backend.readOnly, old(tx.State()), a, found, tx.State(), answer)
  {
    found := {};
    match a {
      case Get(k) =>
        var row := tx.Get(k);
        answer := Row(row);
      case Scan(r, limit) =>
        var rows;
        rows, found := tx.Scan(r, limit);
        answer := Found(rows);
      case Put(k, v) =>
        var ok := tx.Put(k, v);
        answer := if ok then Done else Refused;
      case Delete(k) =>
        var ok := tx.Delete(k);
        answer := if ok then Done else Refused;
    }
  }

  /** What an open transaction knows, whatever other clients commit around it. */
  ghost predicate Follows<V(!new)>(log: seq<V>, tx: Tx<V>, p: Program<V>, readOnly: bool, answers: seq<Answer<V>>) {
    Seen(tx, log) && tx.writes == WritesOf(p, answers) && Explained(log, tx, p, readOnly, answers)
  }

  lemma FollowsOn<V(!new)>(log: seq<V>, later: seq<V>, tx: Tx<V>, p: Program<V>, readOnly: bool, answers: seq<Answer<V>>)
    requires Follows(log, tx, p, readOnly, answers) && log <= later
    ensures Follows(later, tx, p, readOnly, answers)
  {
    forall rows: Versioned<V>, end: seq<V> | later <= end && Consistent(rows, end) && Validates(tx, rows)
      ensures RunsAlone(p, readOnly, Values(rows), answers)
    {
      assert log <= end;
    }
  }

  /** An observation just made is valid. */
  lemma ActValidates<V>(rows: Versioned<V>, readOnly: bool, tx: Tx<V>, a: Action<V>, found: set<Key>, after: Tx<V>, answer: Answer<V>)
    requires Acts(rows, readOnly, tx, a, found, after, answer) && Validates(tx, rows)
    ensures Validates(after, rows)
  {
    if a.Scan? {
      if after != tx {
        RangeJustRead(rows, tx, RangeRead(a.range, ReadLimit(tx.writes, a.limit), FetchVersions(rows, found)), found, after);
      }
    } else if after != tx {
      PointJustRead(rows, tx, a.key, after);
    }
  }

  lemma RangeJustRead<V>(rows: Versioned<V>, tx: Tx<V>, scan: RangeRead, found: set<Key>, after: Tx<V>)
    requires Validates(tx, rows) && after.points == tx.points && after.scans == tx.scans + [scan]
    requires scan.versions == FetchVersions(rows, found) && IsFirst(found, KeysIn(rows.Keys, scan.range), scan.limit)
    ensures Validates(after, rows)
  {
    assert scan.versions.Keys == found;
    assert RangeValid(scan, rows);
    forall i | 0 <= i < |after.scans| ensures RangeValid(after.scans[i], rows) {
      assert i < |tx.scans| ==> after.scans[i] == tx.scans[i];
    }
    forall k | k in after.points ensures PointValid(after, rows, k) {
      assert PointValid(tx, rows, k);
    }
  }

  lemma PointJustRead<V>(rows: Versioned<V>, tx: Tx<V>, k: Key, after: Tx<V>)
    requires Validates(tx, rows) && after.scans == tx.scans && after.points == Observe(rows, tx, k).points
    ensures Validates(after, rows)
  {
    forall i | 0 <= i < |after.scans| ensures RangeValid(after.scans[i], rows) {
      assert RangeValid(tx.scans[i], rows);
    }
    forall j | j in after.points ensures PointValid(after, rows, j) {
      assert j in tx.points ==> PointValid(tx, rows, j);
    }
  }

  /** Writing nothing changes nothing. */
  lemma InstallNothing<V>(rows: Versioned<V>, log: seq<V>, after: Versioned<V>, later: seq<V>)
    requires Installs(rows, log, map[], after, later)
    ensures after == rows
  {
    assert Values(after).Keys == after.Keys && Values(rows).Keys == rows.Keys;
    assert Overlay(Values(rows), map[]) == Values(rows);
  }

  lemma ValidReadsAlone<V(!new)>(rows: Versioned<V>, log: seq<V>, tx: Tx<V>, p: Program<V>, readOnly: bool, answers: seq<Answer<V>>)
    requires Follows(log, tx, p, readOnly, answers) && Consistent(rows, log) && Validates(tx, rows)
    ensures RunsAlone(p, readOnly, Values(rows), answers)
  {
  }

  /** An open transaction after `n` commits of others. */
  ghost predicate Open<V(!new)>(tx: MemoryTransaction<V>, p: Program<V>, answers: seq<Answer<V>>, others: Clients<V>, start: nat, n: nat, initial: Rows<V>)
    reads tx, tx.backend
  {
    && tx.backend.Valid() && start <= n
    && Values(tx.backend.rows) == AfterOthers(initial, others, n)
    && Follows(tx.backend.log, tx.State(), p, tx.backend.readOnly, answers)
    && (Quiet(others, start, n) ==> Validates(tx.State(), tx.backend.rows))
  }

  /** Another client commits while the transaction is open. */
  method Interrupt<V(==, !new)>(tx: MemoryTransaction<V>, ghost p: Program<V>, ghost answers: seq<Answer<V>>, w: Writes<V>)
    requires tx.backend.Valid() && Follows(tx.backend.log, tx.State(), p, tx.backend.readOnly, answers)
    modifies tx.backend
    ensures tx.backend.Valid() && Follows(tx.backend.log, tx.State(), p, tx.backend.readOnly, answers)
    ensures Values(tx.backend.rows) == Overlay(old(Values(tx.backend.rows)), w)
    ensures w == map[] ==> tx.backend.rows == old(tx.backend.rows)
  {
    ghost var rows, log := tx.backend.rows, tx.backend.log;
    tx.backend.Install(w);
    if w == map[] {
      InstallNothing(rows, log, tx.backend.rows, tx.backend.log);
    }
    FollowsOn(log, tx.backend.log, tx.State(), p, tx.backend.readOnly, answers);
  }

  lemma QuietBefore<V(!new)>(others: Clients<V>, start: nat, n: nat)
    requires start <= n && Quiet(others, start, n + 1)
    ensures Quiet(others, start, n) && others(n) == map[]
  {
  }

  method OthersCommit<V(==, !new)>(tx: MemoryTransaction<V>, ghost p: Program<V>, ghost answers: seq<Answer<V>>, others: Clients<V>, ghost start: nat, n: nat, ghost initial: Rows<V>) returns (next: nat)
    requires Open(tx, p, answers, others, start, n, initial)
    modifies tx.backend
    ensures next == n + 1 && Open(tx, p, answers, others, start, next, initial)
  {
    next := n + 1;
    Interrupt(tx, p, answers, others(n));
    OneMore(initial, others, n);
    if Quiet(others, start, n + 1) {
      QuietBefore(others, start, n);
    }
  }

  /** The operation's next read or write. */
  method Proceed<V(==, !new)>(tx: MemoryTransaction<V>, p: Program<V>, answers: seq<Answer<V>>, ghost others: Clients<V>, ghost start: nat, ghost n: nat, ghost initial: Rows<V>)
    returns (more: seq<Answer<V>>)
    requires !Ends(p, answers) && Open(tx, p, answers, others, start, n, initial)
    modifies tx
    ensures |more| == |answers| + 1
    ensures Open(tx, p, more, others, start, n, initial)
  {
    ghost var before := tx.State();
    var answer, found := Perform(tx, p(answers));
    ActStaysExplained(tx.backend.rows, tx.backend.log, tx.backend.readOnly, before, p, answers, found, tx.State(), answer);
    if Validates(before, tx.backend.rows) {
      ActValidates(tx.backend.rows, tx.backend.readOnly, before, p(answers), found, tx.State(), answer);
    }
    more := answers + [answer];
  }

  /** The rows after the attempt: what the others left, with the operation's writes over
      them if it took effect, and then it read what it reads alone on what they left. */
  ghost predicate Attempted<V(!new)>(p: Program<V>, readOnly: bool, others: Rows<V>, result: Attempt<V>, rows: Rows<V>) {
    if TakesEffect(result) then
      && p(result.answers).Finish?
      && RunsAlone(p, readOnly, others, result.answers)
      && rows == Overlay(others, WritesOf(p, result.answers))
    else rows == others
  }

  /** An error is the operation's own or the commit's. */
  ghost predicate Explains<V(!new)>(p: Program<V>, fault: Fault, result: Attempt<V>) {
    result.Errored? ==> if result.applied then fault.AfterCommit? else fault.BeforeCommit? || p(result.answers).Fail?
  }

  /** Begins a transaction, runs the operation in it and commits, while other clients
      commit at every point in between. */
  method RunOnce<V(==, !new)>(backend: MemoryBackend<V>, p: Program<V>, steps: nat, others: Clients<V>, start: nat, fault: Fault, ghost initial: Rows<V>)
    returns (result: Attempt<V>, n: nat)
    requires backend.Valid() && Halts(p, steps) && Values(backend.rows) == AfterOthers(initial, others, start)
    modifies backend
    ensures backend.Valid() && n > start
    ensures Attempted(p, backend.readOnly, AfterOthers(initial, others, n), result, Values(backend.rows))
    ensures result.Conflicted? ==> !Quiet(others, start, n)
    ensures Explains(p, fault, result)
  {
    var tx := Begin(backend, p, others, start, initial);
    var answers := [];
    n := start + 1;
    while !Ends(p, answers)
      invariant tx.backend == backend && fresh(tx)
      invariant n == start + 1 + |answers| && |answers| <= steps
      invariant Open(tx, p, answers, others, start, n, initial)
      decreases steps - |answers|
    {
      answers := Proceed(tx, p, answers, others, start, n, initial);
      n := OthersCommit(tx, p, answers, others, start, n, initial);
    }
    result := Finished(tx, p, answers, fault, others, start, n, initial);
  }

  method Begin<V(==, !new)>(backend: MemoryBackend<V>, ghost p: Program<V>, others: Clients<V>, start: nat, ghost initial: Rows<V>) returns (tx: MemoryTransaction<V>)
    requires backend.Valid() && Values(backend.rows) == AfterOthers(initial, others, start)
    modifies backend
    ensures fresh(tx) && tx.backend == backend
    ensures Open(tx, p, [], others, start, start + 1, initial)
  {
    tx := new MemoryTransaction(backend);
    FreshIsExplained(backend.log, p, backend.readOnly);
    var _ := OthersCommit(tx, p, [], others, start, start, initial);
  }

  /** Commits a finished operation; a failed one is rolled back. */
  method Finished<V(==, !new)>(tx: MemoryTransaction<V>, p: Program<V>, answers: seq<Answer<V>>, fault: Fault, ghost others: Clients<V>, ghost start: nat, ghost n: nat, ghost initial: Rows<V>)
    returns (result: Attempt<V>)
    requires Ends(p, answers) && Open(tx, p, answers, others, start, n, initial)
    modifies tx.backend
    ensures tx.backend.Valid()
    ensures Attempted(p, tx.backend.readOnly, AfterOthers(initial, others, n), result, Values(tx.backend.rows))
    ensures result.Conflicted? ==> !Quiet(others, start, n)
    ensures Explains(p, fault, result)
  {
    if p(answers).Fail? {
      return Errored(false, answers);
    }
    ghost var rows, log := tx.backend.rows, tx.backend.log;
    var done := tx.Commit(fault);
    result := Ending(done, answers);
    if TakesEffect(result) {
      ValidReadsAlone(rows, log, tx.State(), p, tx.backend.readOnly, answers);
    }
  }

  // ── the retry loop ────────────────────────────────────────────────────────

  /** The store runs an operation again only after a definite conflict, at most
      `ATTEMPTS` times. However other clients interleave, only the last attempt can have
      taken effect, and it did so on the rows it read. */
  method Transact<V(==, !new)>(backend: MemoryBackend<V>, p: Program<V>, steps: nat, others: Clients<V>, faults: nat -> Fault)
    returns (result: Attempt<V>, attempts: nat, n: nat)
    requires backend.Valid() && Halts(p, steps)
    modifies backend
    ensures backend.Valid() && attempts <= 128
    ensures Attempted(p, backend.readOnly, AfterOthers(old(Values(backend.rows)), others, n), result, Values(backend.rows))
    ensures result.Conflicted? ==> attempts == 128
    ensures result.Conflicted? ==> !Quiet(others, 0, n)
    ensures result.Errored? ==> attempts > 0 && Explains(p, faults(attempts - 1), result)
  {
    ghost var initial := Values(backend.rows);
    attempts, n := 0, 0;
    while attempts < ATTEMPTS
      invariant attempts <= ATTEMPTS && backend.Valid()
      invariant Values(backend.rows) == AfterOthers(initial, others, n)
      invariant attempts > 0 ==> !Quiet(others, 0, n)
    {
      result, n := RunOnce(backend, p, steps, others, n, faults(attempts), initial);
      attempts := attempts + 1;
      if !result.Conflicted? {
        return;
      }
    }
    result := Conflicted;
  }
}

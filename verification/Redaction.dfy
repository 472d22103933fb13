/**
 Redaction of whole values and journal records: every string of a JSON value, object
 keys included, and every payload of a record is mapped; restoring undoes it.
 */
module Redaction {
  import opened Options
  import opened Secrets

  /** A JSON value; an object is its fields in the map's order. */
  datatype Json =
    | Null
    | Bool(b: bool)
    | Number(n: real)
    | String(s: string)
    | Array(items: seq<Json>)
    | Object(fields: seq<(string, Json)>)

  type Mapping = string -> Result<string>

  // ── mapping the strings of a value ────────────────────────────────────────

  /** Inserts into a map: a key already there keeps its place and gets the value. */
  function Insert(fields: seq<(string, Json)>, k: string, v: Json): seq<(string, Json)> {
    if fields == [] then [(k, v)]
    else if fields[0].0 == k then [(k, v)] + fields[1..]
    else [fields[0]] + Insert(fields[1..], k, v)
  }

  function MapItems(ghost owner: Json, items: seq<Json>, f: Mapping): (r: Result<seq<Json>>)
    requires forall i :: 0 <= i < |items| ==> items[i] < owner
    decreases owner, 0, |items|
  {
    if items == [] then Ok([]) else
      var n := |items| - 1;
      var done := MapItems(owner, items[..n], f);
      if done.Err? then done else
        var last := MapStrings(items[n], f);
        if last.Err? then Err(last.path) else Ok(done.value + [last.value])
  }

  function MapFields(ghost owner: Json, fields: seq<(string, Json)>, f: Mapping): (r: Result<seq<(string, Json)>>)
    requires forall i :: 0 <= i < |fields| ==> fields[i].1 < owner
    decreases owner, 0, |fields|
  {
    if fields == [] then Ok([]) else
      var n := |fields| - 1;
      var done := MapFields(owner, fields[..n], f);
      if done.Err? then done else
        var k := f(fields[n].0);
        if k.Err? then Err(k.path) else
          var v := MapStrings(fields[n].1, f);
          if v.Err? then Err(v.path) else Ok(Insert(done.value, k.value, v.value))
  }

  function MapStrings(v: Json, f: Mapping): Result<Json>
    decreases v, 1
  {
    match v
    case String(s) => (var r := f(s); if r.Ok? then Ok(String(r.value)) else Err(r.path))
    case Array(items) => (var r := MapItems(v, items, f); if r.Ok? then Ok(Array(r.value)) else Err(r.path))
    case Object(fields) => (var r := MapFields(v, fields, f); if r.Ok? then Ok(Object(r.value)) else Err(r.path))
    case Null => Ok(v)
    case Bool(_) => Ok(v)
    case Number(_) => Ok(v)
  }

  // ── undoing ───────────────────────────────────────────────────────────────

  /** `f` maps every string, and `g` brings every mapped string back. */
  ghost predicate Undoes(g: Mapping, f: Mapping) {
    forall s: string :: f(s).Ok? && g(f(s).value) == Ok(s)
  }

  /** Every object, at every depth, has distinct keys. */
  ghost predicate Proper(v: Json) {
    match v
    case Array(items) => forall i :: 0 <= i < |items| ==> Proper(items[i])
    case Object(fields) => DistinctKeys(fields) && forall i :: 0 <= i < |fields| ==> Proper(fields[i].1)
    case _ => true
  }

  ghost predicate DistinctKeys(fields: seq<(string, Json)>) {
    forall i, j :: 0 <= i < j < |fields| ==> fields[i].0 != fields[j].0
  }

  lemma {:induction false} InsertNew(fields: seq<(string, Json)>, k: string, v: Json)
    requires forall i :: 0 <= i < |fields| ==> fields[i].0 != k
    ensures Insert(fields, k, v) == fields + [(k, v)]
  {
    if fields != [] {
      InsertNew(fields[1..], k, v);
    }
  }

  lemma UndoText(g: Mapping, f: Mapping, a: string, b: string)
    requires Undoes(g, f) && a != b
    ensures f(a).Ok? && f(b).Ok? && f(a).value != f(b).value
  {
    assert g(f(a).value) == Ok(a) && g(f(b).value) == Ok(b);
  }

  /** Mapping item by item: each mapped item is the item's own mapping. */
  lemma {:induction false} ItemsAre(owner: Json, items: seq<Json>, f: Mapping, r: seq<Json>)
    requires forall i :: 0 <= i < |items| ==> items[i] < owner
    requires |r| == |items| && forall i :: 0 <= i < |items| ==> MapStrings(items[i], f) == Ok(r[i])
    ensures MapItems(owner, items, f) == Ok(r)
    decreases |items|
  {
    if items != [] {
      var n := |items| - 1;
      ItemsAre(owner, items[..n], f, r[..n]);
      assert r == r[..n] + [r[n]];
    }
  }

  lemma {:induction false} FieldsAre(owner: Json, fields: seq<(string, Json)>, f: Mapping, r: seq<(string, Json)>)
    requires forall i :: 0 <= i < |fields| ==> fields[i].1 < owner
    requires |r| == |fields| && DistinctKeys(r)
    requires forall i :: 0 <= i < |fields| ==> f(fields[i].0) == Ok(r[i].0) && MapStrings(fields[i].1, f) == Ok(r[i].1)
    ensures MapFields(owner, fields, f) == Ok(r)
    decreases |fields|
  {
    if fields != [] {
      var n := |fields| - 1;
      FieldsAre(owner, fields[..n], f, r[..n]);
      InsertNew(r[..n], r[n].0, r[n].1);
      assert r == r[..n] + [r[n]];
    }
  }

  /** A value's strings mapped and mapped back: the value, keys included. */
  lemma {:induction false} ValueRoundTrip(v: Json, f: Mapping, g: Mapping) returns (r: Json)
    requires Undoes(g, f) && Proper(v)
    ensures MapStrings(v, f) == Ok(r) && MapStrings(r, g) == Ok(v)
    decreases v, 1
  {
    match v
    case String(s) =>
      r := String(f(s).value);
    case Array(items) =>
      var mapped := ItemsRoundTrip(v, items, f, g);
      r := Array(mapped);
      ItemsAre(v, items, f, mapped);
      ItemsAre(r, mapped, g, items);
    case Object(fields) =>
      var mapped := FieldsRoundTrip(v, fields, f, g);
      r := Object(mapped);
      FieldsAre(v, fields, f, mapped);
      FieldsAre(r, mapped, g, fields);
    case Null =>
      r := v;
    case Bool(_) =>
      r := v;
    case Number(_) =>
      r := v;
  }

  lemma {:induction false} ItemsRoundTrip(owner: Json, items: seq<Json>, f: Mapping, g: Mapping) returns (r: seq<Json>)
    requires Undoes(g, f) && forall i :: 0 <= i < |items| ==> items[i] < owner && Proper(items[i])
    ensures |r| == |items|
    ensures forall i :: 0 <= i < |items| ==> MapStrings(items[i], f) == Ok(r[i]) && MapStrings(r[i], g) == Ok(items[i])
    decreases owner, 0, |items|
  {
    r := [];
    if items != [] {
      var n := |items| - 1;
      r := ItemsRoundTrip(owner, items[..n], f, g);
      var last := ValueRoundTrip(items[n], f, g);
      r := r + [last];
    }
  }

  lemma {:induction false} FieldsRoundTrip(owner: Json, fields: seq<(string, Json)>, f: Mapping, g: Mapping) returns (r: seq<(string, Json)>)
    requires Undoes(g, f) && DistinctKeys(fields)
    requires forall i :: 0 <= i < |fields| ==> fields[i].1 < owner && Proper(fields[i].1)
    ensures |r| == |fields| && DistinctKeys(r)
    ensures forall i :: 0 <= i < |fields| ==> f(fields[i].0) == Ok(r[i].0) && g(r[i].0) == Ok(fields[i].0)
    ensures forall i :: 0 <= i < |fields| ==> MapStrings(fields[i].1, f) == Ok(r[i].1) && MapStrings(r[i].1, g) == Ok(fields[i].1)
    decreases owner, 0, |fields|
  {
    r := [];
    if fields != [] {
      var n := |fields| - 1;
      r := FieldsRoundTrip(owner, fields[..n], f, g);
      var last := ValueRoundTrip(fields[n].1, f, g);
      var key := f(fields[n].0).value;
      KeyIsNew(fields, r, f, g, key);
      DistinctWith(r, (key, last));
      r := r + [(key, last)];
    }
  }

  /** Distinct keys are mapped to distinct keys. */
  lemma KeyIsNew(fields: seq<(string, Json)>, r: seq<(string, Json)>, f: Mapping, g: Mapping, key: string)
    requires Undoes(g, f) && DistinctKeys(fields) && |fields| == |r| + 1 && f(fields[|r|].0) == Ok(key)
    requires forall i :: 0 <= i < |r| ==> f(fields[i].0) == Ok(r[i].0)
    ensures forall i :: 0 <= i < |r| ==> r[i].0 != key
  {
    forall i | 0 <= i < |r| ensures r[i].0 != key {
      UndoText(g, f, fields[i].0, fields[|r|].0);
    }
  }

  lemma DistinctWith(r: seq<(string, Json)>, last: (string, Json))
    requires DistinctKeys(r) && forall i :: 0 <= i < |r| ==> r[i].0 != last.0
    ensures DistinctKeys(r + [last])
  {
  }

  // ── records ───────────────────────────────────────────────────────────────

  datatype Error = Error(kind: string, status: nat, title: Option<string>, detail: Option<string>, instance: Option<string>)
  datatype Status = Completed(output: Json) | Faulted(error: Error) | Cancelled | Waiting(wakeAt: int) | Interrupted(error: Error)
  datatype Outcome = Finished(output: Json, flow: string) | Failed(error: Error, fatal: bool)
  datatype TaskResult = TaskResult(context: Json, outcome: Outcome)
  datatype CallState = Pending | NotExecuted(error: Error) | Done(result: Json) | DoneError(error: Error)
  datatype Annotation = Amount(n: real) | Note(text: string)
  datatype Record =
    | Execution(version: nat, runId: string, definition: Json, input: Json, runtime: Json, startedMs: int, maxTasks: nat, maxAttempts: nat)
    | Task(startedMs: int, result: Option<TaskResult>)
    | Call(logical: string, function_: string, arguments: Json, atMostOnce: bool, state: CallState, annotations: seq<(string, Annotation)>)
    | Event(event: Json)
    | Expired(event: Json)
    | Timer(deadlineMs: int)
    | Retry(delayMs: Option<nat>)
    | Winner(output: Json)
    | End(status: Status)
    | Budget(granted: bool, spent: nat, first: Option<string>)
    | Exceeded(key: string)

  function MapOption(o: Option<string>, f: Mapping): Result<Option<string>> {
    if o.None? then Ok(None) else
      var r := f(o.value);
      if r.Ok? then Ok(Some(r.value)) else Err(r.path)
  }

  function MapError(e: Error, f: Mapping): Result<Error> {
    var kind := f(e.kind);
    if kind.Err? then Err(kind.path) else
    var title := MapOption(e.title, f);
    if title.Err? then Err(title.path) else
    var detail := MapOption(e.detail, f);
    if detail.Err? then Err(detail.path) else
    var instance := MapOption(e.instance, f);
    if instance.Err? then Err(instance.path) else
    Ok(Error(kind.value, e.status, title.value, detail.value, instance.value))
  }

  function MapStatus(s: Status, f: Mapping): Result<Status> {
    match s
    case Completed(v) => (var r := MapStrings(v, f); if r.Ok? then Ok(Completed(r.value)) else Err(r.path))
    case Faulted(e) => (var r := MapError(e, f); if r.Ok? then Ok(Faulted(r.value)) else Err(r.path))
    case _ => Ok(s)
  }

  function MapOutcome(o: Outcome, f: Mapping): Result<Outcome> {
    match o
    case Finished(v, flow) => (var r := MapStrings(v, f); if r.Ok? then Ok(Finished(r.value, flow)) else Err(r.path))
    case Failed(e, fatal) => (var r := MapError(e, f); if r.Ok? then Ok(Failed(r.value, fatal)) else Err(r.path))
  }

  function MapCallState(s: CallState, f: Mapping): Result<CallState> {
    match s
    case Pending => Ok(s)
    case NotExecuted(e) => (var r := MapError(e, f); if r.Ok? then Ok(NotExecuted(r.value)) else Err(r.path))
    case Done(v) => (var r := MapStrings(v, f); if r.Ok? then Ok(Done(r.value)) else Err(r.path))
    case DoneError(e) => (var r := MapError(e, f); if r.Ok? then Ok(DoneError(r.value)) else Err(r.path))
  }

  /** Text annotations are payloads too; numbers stay. */
  function MapAnnotations(notes: seq<(string, Annotation)>, f: Mapping): Result<seq<(string, Annotation)>> {
    if notes == [] then Ok([])
    else if notes[0].1.Amount? then
      var rest := MapAnnotations(notes[1..], f);
      if rest.Err? then rest else Ok([notes[0]] + rest.value)
    else
      var text := f(notes[0].1.text);
      if text.Err? then Err(text.path) else
      var rest := MapAnnotations(notes[1..], f);
      if rest.Err? then rest else Ok([(notes[0].0, Note(text.value))] + rest.value)
  }

  /** The record with `f` applied to every payload string. Keys, instants, counters and
      event records are not payloads. */
  function Convert(r: Record, f: Mapping): Result<Record> {
    match r
    case Execution(version, runId, definition, input, runtime, startedMs, maxTasks, maxAttempts) =>
      var d := MapStrings(definition, f);
      if d.Err? then Err(d.path) else
      var i := MapStrings(input, f);
      if i.Err? then Err(i.path) else
      var rt := MapStrings(runtime, f);
      if rt.Err? then Err(rt.path) else
      Ok(Execution(version, runId, d.value, i.value, rt.value, startedMs, maxTasks, maxAttempts))
    case Task(startedMs, result) =>
      if result.None? then Ok(r) else
      var c := MapStrings(result.value.context, f);
      if c.Err? then Err(c.path) else
      var o := MapOutcome(result.value.outcome, f);
      if o.Err? then Err(o.path) else
      Ok(Task(startedMs, Some(TaskResult(c.value, o.value))))
    case Call(logical, function_, arguments, atMostOnce, state, annotations) =>
      var a := MapStrings(arguments, f);
      if a.Err? then Err(a.path) else
      var s := MapCallState(state, f);
      if s.Err? then Err(s.path) else
      var n := MapAnnotations(annotations, f);
      if n.Err? then Err(n.path) else
      Ok(Call(logical, function_, a.value, atMostOnce, s.value, n.value))
    case Winner(output) => (var o := MapStrings(output, f); if o.Ok? then Ok(Winner(o.value)) else Err(o.path))
    case End(status) => (var s := MapStatus(status, f); if s.Ok? then Ok(End(s.value)) else Err(s.path))
    case _ => Ok(r)
  }

  ghost predicate ProperRecord(r: Record) {
    match r
    case Execution(_, _, definition, input, runtime, _, _, _) => Proper(definition) && Proper(input) && Proper(runtime)
    case Task(_, result) =>
      result.Some? ==> Proper(result.value.context) && (result.value.outcome.Finished? ==> Proper(result.value.outcome.output))
    case Call(_, _, arguments, _, state, _) => Proper(arguments) && (state.Done? ==> Proper(state.result))
    case Winner(output) => Proper(output)
    case End(status) => status.Completed? ==> Proper(status.output)
    case _ => true
  }

  lemma ErrorRoundTrip(e: Error, f: Mapping, g: Mapping)
    requires Undoes(g, f)
    ensures MapError(e, f).Ok? && MapError(MapError(e, f).value, g) == Ok(e)
  {
  }

  lemma {:induction false} AnnotationsRoundTrip(notes: seq<(string, Annotation)>, f: Mapping, g: Mapping)
    requires Undoes(g, f)
    ensures MapAnnotations(notes, f).Ok? && MapAnnotations(MapAnnotations(notes, f).value, g) == Ok(notes)
  {
    if notes != [] {
      AnnotationsRoundTrip(notes[1..], f, g);
      var first := if notes[0].1.Amount? then notes[0] else (notes[0].0, Note(f(notes[0].1.text).value));
      AnnotationsStep(first, MapAnnotations(notes[1..], f).value, notes[1..], notes[0], g);
      assert notes == [notes[0]] + notes[1..];
    }
  }

  lemma AnnotationsStep(first: (string, Annotation), mapped: seq<(string, Annotation)>, rest: seq<(string, Annotation)>, back: (string, Annotation), g: Mapping)
    requires MapAnnotations(mapped, g) == Ok(rest)
    requires if first.1.Amount? then back == first else g(first.1.text).Ok? && back == (first.0, Note(g(first.1.text).value))
    ensures MapAnnotations([first] + mapped, g) == Ok([back] + rest)
  {
    assert ([first] + mapped)[1..] == mapped;
  }

  lemma CallStateRoundTrip(s: CallState, f: Mapping, g: Mapping)
    requires Undoes(g, f) && (s.Done? ==> Proper(s.result))
    ensures MapCallState(s, f).Ok? && MapCallState(MapCallState(s, f).value, g) == Ok(s)
  {
    match s
    case Pending =>
    case NotExecuted(e) => ErrorRoundTrip(e, f, g);
    case Done(v) => var _ := ValueRoundTrip(v, f, g);
    case DoneError(e) => ErrorRoundTrip(e, f, g);
  }

  lemma OutcomeRoundTrip(o: Outcome, f: Mapping, g: Mapping)
    requires Undoes(g, f) && (o.Finished? ==> Proper(o.output))
    ensures MapOutcome(o, f).Ok? && MapOutcome(MapOutcome(o, f).value, g) == Ok(o)
  {
    match o
    case Finished(v, _) => var _ := ValueRoundTrip(v, f, g);
    case Failed(e, _) => ErrorRoundTrip(e, f, g);
  }

  lemma StatusRoundTrip(s: Status, f: Mapping, g: Mapping)
    requires Undoes(g, f) && (s.Completed? ==> Proper(s.output))
    ensures MapStatus(s, f).Ok? && MapStatus(MapStatus(s, f).value, g) == Ok(s)
  {
    match s
    case Completed(v) => var _ := ValueRoundTrip(v, f, g);
    case Faulted(e) => ErrorRoundTrip(e, f, g);
    case _ =>
  }

  lemma RecordRoundTrip(r: Record, f: Mapping, g: Mapping)
    requires Undoes(g, f) && ProperRecord(r)
    ensures Convert(r, f).Ok? && Convert(Convert(r, f).value, g) == Ok(r)
  {
    match r
    case Execution(_, _, definition, input, runtime, _, _, _) =>
      var _ := ValueRoundTrip(definition, f, g);
      var _ := ValueRoundTrip(input, f, g);
      var _ := ValueRoundTrip(runtime, f, g);
    case Task(_, result) =>
      if result.Some? {
        var _ := ValueRoundTrip(result.value.context, f, g);
        OutcomeRoundTrip(result.value.outcome, f, g);
      }
    case Call(_, _, arguments, _, state, annotations) =>
      var _ := ValueRoundTrip(arguments, f, g);
      CallStateRoundTrip(state, f, g);
      AnnotationsRoundTrip(annotations, f, g);
    case Winner(output) =>
      var _ := ValueRoundTrip(output, f, g);
    case End(status) =>
      StatusRoundTrip(status, f, g);
    case _ =>
  }

  // ── a run's secrets ───────────────────────────────────────────────────────

  function Hide(secrets: seq<Secret>): Mapping
    requires forall i :: 0 <= i < |secrets| ==> secrets[i].text != []
  {
    (s: string) => Ok(Text(secrets, s))
  }

  function Show(secrets: seq<Secret>): Mapping {
    (s: string) => Load(secrets, s)
  }

  /** Loading undoes saving for every string exactly if the table is decodable. */
  lemma ShowUndoesHide(secrets: seq<Secret>)
    requires MarkFree(secrets) && Ordered(secrets)
    ensures Decodable(secrets) <==> Undoes(Show(secrets), Hide(secrets))
  {
    RoundTripExactly(secrets);
    var f, g := Hide(secrets), Show(secrets);
    assert forall s: string :: f(s) == Ok(Text(secrets, s)) && g(s) == Load(secrets, s);
  }

  /** The value is saved and loaded as it was, keys included. */
  ghost predicate ComesBack(v: Json, f: Mapping, g: Mapping) {
    MapStrings(v, f).Ok? && MapStrings(MapStrings(v, f).value, g) == Ok(v)
  }

  ghost predicate RecordComesBack(r: Record, f: Mapping, g: Mapping) {
    Convert(r, f).Ok? && Convert(Convert(r, f).value, g) == Ok(r)
  }

  lemma ValuesUndone(f: Mapping, g: Mapping)
    requires forall v :: Proper(v) ==> ComesBack(v, f, g)
    ensures Undoes(g, f)
  {
    forall s: string ensures f(s).Ok? && g(f(s).value) == Ok(s) {
      assert ComesBack(String(s), f, g);
    }
  }

  lemma RecordsUndone(f: Mapping, g: Mapping)
    requires forall r :: ProperRecord(r) ==> RecordComesBack(r, f, g)
    ensures Undoes(g, f)
  {
    forall s: string ensures f(s).Ok? && g(f(s).value) == Ok(s) {
      assert RecordComesBack(Winner(String(s)), f, g);
    }
  }

  /** Every value comes back exactly if the table is decodable. */
  lemma ValuesComeBack(secrets: seq<Secret>)
    requires MarkFree(secrets) && Ordered(secrets)
    ensures Decodable(secrets) <==> forall v :: Proper(v) ==> ComesBack(v, Hide(secrets), Show(secrets))
  {
    ShowUndoesHide(secrets);
    var f, g := Hide(secrets), Show(secrets);
    if Undoes(g, f) {
      forall v | Proper(v) ensures ComesBack(v, f, g) {
        var _ := ValueRoundTrip(v, f, g);
      }
    } else if forall v :: Proper(v) ==> ComesBack(v, f, g) {
      ValuesUndone(f, g);
    }
  }

  /** And so does every record. */
  lemma RecordsComeBack(secrets: seq<Secret>)
    requires MarkFree(secrets) && Ordered(secrets)
    ensures Decodable(secrets) <==> forall r :: ProperRecord(r) ==> RecordComesBack(r, Hide(secrets), Show(secrets))
  {
    ShowUndoesHide(secrets);
    var f, g := Hide(secrets), Show(secrets);
    if Undoes(g, f) {
      forall r | ProperRecord(r) ensures RecordComesBack(r, f, g) {
        RecordRoundTrip(r, f, g);
      }
    } else if forall r :: ProperRecord(r) ==> RecordComesBack(r, f, g) {
      RecordsUndone(f, g);
    }
  }
}

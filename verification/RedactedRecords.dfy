/**
 What is stored of a record: every payload string of it is the redacted form of one of the
 original, payload by payload, so a stored record holds no secret.
 */
module RedactedRecords {
  import opened Options
  import opened Secrets
  import opened Redaction

  // ── the strings of a value ────────────────────────────────────────────────

  /** The string is in the value, as a key or as a string, at any depth. */
  ghost predicate Mentions(v: Json, s: string) {
    match v
    case String(t) => s == t
    case Array(items) => exists i :: 0 <= i < |items| && Mentions(items[i], s)
    case Object(fields) => exists i :: 0 <= i < |fields| && (fields[i].0 == s || Mentions(fields[i].1, s))
    case _ => false
  }

  /** `t` is what the mapping makes of some string of the value. */
  ghost predicate ComesFrom(v: Json, f: Mapping, t: string) {
    exists s :: Mentions(v, s) && f(s) == Ok(t)
  }

  ghost predicate FieldMentions(field: (string, Json), s: string) {
    field.0 == s || Mentions(field.1, s)
  }

  /** Inserting into a map brings no string but those of the new field. */
  lemma {:induction false} InsertMentions(fields: seq<(string, Json)>, k: string, v: Json, t: string)
    requires exists i :: 0 <= i < |Insert(fields, k, v)| && FieldMentions(Insert(fields, k, v)[i], t)
    ensures FieldMentions((k, v), t) || exists i :: 0 <= i < |fields| && FieldMentions(fields[i], t)
  {
    var all := Insert(fields, k, v);
    var i :| 0 <= i < |all| && FieldMentions(all[i], t);
    if fields != [] {
      if fields[0].0 == k {
        assert i > 0 ==> all[i] == fields[i];
      } else {
        var rest := Insert(fields[1..], k, v);
        assert i > 0 ==> all[i] == rest[i - 1];
        if i > 0 {
          InsertMentions(fields[1..], k, v, t);
          if j :| 0 <= j < |fields[1..]| && FieldMentions(fields[1..][j], t) {
            assert FieldMentions(fields[j + 1], t);
          }
        } else {
          assert FieldMentions(fields[0], t);
        }
      }
    }
  }

  lemma {:induction false} ItemsMention(owner: Json, items: seq<Json>, f: Mapping, r: seq<Json>, i: nat, t: string)
    requires forall j :: 0 <= j < |items| ==> items[j] < owner
    requires MapItems(owner, items, f) == Ok(r) && i < |r| && Mentions(r[i], t)
    ensures exists j :: 0 <= j < |items| && ComesFrom(items[j], f, t)
    decreases owner, 0, |items|
  {
    var n := |items| - 1;
    var done := MapItems(owner, items[..n], f).value;
    if i < |done| {
      ItemsMention(owner, items[..n], f, done, i, t);
      var j :| 0 <= j < |items[..n]| && ComesFrom(items[..n][j], f, t);
      assert ComesFrom(items[j], f, t);
    } else {
      ValueMentions(items[n], f, r[i], t);
    }
  }

  lemma {:induction false} FieldsMention(owner: Json, fields: seq<(string, Json)>, f: Mapping, r: seq<(string, Json)>, i: nat, t: string)
    requires forall j :: 0 <= j < |fields| ==> fields[j].1 < owner
    requires MapFields(owner, fields, f) == Ok(r) && i < |r| && FieldMentions(r[i], t)
    ensures exists j :: 0 <= j < |fields| && (f(fields[j].0) == Ok(t) || ComesFrom(fields[j].1, f, t))
    decreases owner, 0, |fields|
  {
    var n := |fields| - 1;
    var done := MapFields(owner, fields[..n], f).value;
    var k, v := f(fields[n].0).value, MapStrings(fields[n].1, f).value;
    InsertMentions(done, k, v, t);
    if FieldMentions((k, v), t) {
      if k != t {
        ValueMentions(fields[n].1, f, v, t);
      }
    } else {
      var m :| 0 <= m < |done| && FieldMentions(done[m], t);
      FieldsMention(owner, fields[..n], f, done, m, t);
      var j :| 0 <= j < |fields[..n]| && (f(fields[..n][j].0) == Ok(t) || ComesFrom(fields[..n][j].1, f, t));
      assert fields[..n][j] == fields[j];
    }
  }

  /** A mapped value holds only mapped strings of the original. */
  lemma {:induction false} ValueMentions(v: Json, f: Mapping, r: Json, t: string)
    requires MapStrings(v, f) == Ok(r) && Mentions(r, t)
    ensures ComesFrom(v, f, t)
    decreases v, 1
  {
    match v
    case String(s) =>
      assert Mentions(v, s);
    case Array(items) =>
      var i :| 0 <= i < |r.items| && Mentions(r.items[i], t);
      ItemsMention(v, items, f, r.items, i, t);
      var j :| 0 <= j < |items| && ComesFrom(items[j], f, t);
      var s :| Mentions(items[j], s) && f(s) == Ok(t);
      assert Mentions(v, s);
    case Object(fields) =>
      var i :| 0 <= i < |r.fields| && (r.fields[i].0 == t || Mentions(r.fields[i].1, t));
      assert FieldMentions(r.fields[i], t);
      FieldsMention(v, fields, f, r.fields, i, t);
      var j :| 0 <= j < |fields| && (f(fields[j].0) == Ok(t) || ComesFrom(fields[j].1, f, t));
      if f(fields[j].0) == Ok(t) {
        assert Mentions(v, fields[j].0);
      } else {
        var s :| Mentions(fields[j].1, s) && f(s) == Ok(t);
        assert Mentions(v, s);
      }
    case _ =>
  }

  // ── the payloads of a record ──────────────────────────────────────────────

  /** A payload: a value, or a text. */
  datatype Payload = Value_(v: Json) | Text_(s: string)

  function Texts(o: Option<string>): seq<Payload> {
    if o.Some? then [Text_(o.value)] else []
  }

  function ErrorPayloads(e: Error): seq<Payload> {
    [Text_(e.kind)] + Texts(e.title) + Texts(e.detail) + Texts(e.instance)
  }

  function NotePayloads(notes: seq<(string, Annotation)>): seq<Payload> {
    if notes == [] then []
    else (if notes[0].1.Note? then [Text_(notes[0].1.text)] else []) + NotePayloads(notes[1..])
  }

  /** Everything in a record that may hold a secret, in order. */
  function Payloads(r: Record): seq<Payload> {
    match r
    case Execution(_, _, definition, input, runtime, _, _, _) => [Value_(definition), Value_(input), Value_(runtime)]
    case Task(_, result) =>
      if result.None? then [] else
        [Value_(result.value.context)] +
        (match result.value.outcome
         case Finished(output, _) => [Value_(output)]
         case Failed(error, _) => ErrorPayloads(error))
    case Call(_, _, arguments, _, state, notes) =>
      [Value_(arguments)] +
      (match state
       case Pending => []
       case NotExecuted(error) => ErrorPayloads(error)
       case Done(result) => [Value_(result)]
       case DoneError(error) => ErrorPayloads(error)) +
      NotePayloads(notes)
    case Winner(output) => [Value_(output)]
    case End(status) =>
      (match status
       case Completed(output) => [Value_(output)]
       case Faulted(error) => ErrorPayloads(error)
       case _ => [])
    case _ => []
  }

  /** The payload as the mapping makes it. */
  ghost predicate Mapped(f: Mapping, a: Payload, b: Payload) {
    match a
    case Value_(v) => b.Value_? && MapStrings(v, f) == Ok(b.v)
    case Text_(s) => b.Text_? && f(s) == Ok(b.s)
  }

  ghost predicate AllMapped(f: Mapping, a: seq<Payload>, b: seq<Payload>) {
    |a| == |b| && forall i :: 0 <= i < |a| ==> Mapped(f, a[i], b[i])
  }

  lemma MappedJoin(f: Mapping, a: seq<Payload>, b: seq<Payload>, c: seq<Payload>, d: seq<Payload>)
    requires AllMapped(f, a, b) && AllMapped(f, c, d)
    ensures AllMapped(f, a + c, b + d)
  {
  }

  lemma ErrorMapped(e: Error, f: Mapping, r: Error)
    requires MapError(e, f) == Ok(r)
    ensures AllMapped(f, ErrorPayloads(e), ErrorPayloads(r)) && r.status == e.status
  {
    TextMapped(e.title, f, r.title);
    TextMapped(e.detail, f, r.detail);
    TextMapped(e.instance, f, r.instance);
    var kinds, others := [Text_(e.kind)], [Text_(r.kind)];
    MappedJoin(f, kinds, others, Texts(e.title), Texts(r.title));
    MappedJoin(f, kinds + Texts(e.title), others + Texts(r.title), Texts(e.detail), Texts(r.detail));
    MappedJoin(f, kinds + Texts(e.title) + Texts(e.detail), others + Texts(r.title) + Texts(r.detail), Texts(e.instance), Texts(r.instance));
  }

  lemma TextMapped(o: Option<string>, f: Mapping, r: Option<string>)
    requires MapOption(o, f) == Ok(r)
    ensures AllMapped(f, Texts(o), Texts(r))
  {
  }

  lemma {:induction false} NotesMapped(notes: seq<(string, Annotation)>, f: Mapping, r: seq<(string, Annotation)>)
    requires MapAnnotations(notes, f) == Ok(r)
    ensures AllMapped(f, NotePayloads(notes), NotePayloads(r)) && |r| == |notes|
    ensures forall i :: 0 <= i < |notes| ==> r[i].0 == notes[i].0 && (notes[i].1.Amount? ==> r[i] == notes[i])
    decreases |notes|
  {
    if notes != [] {
      var rest := MapAnnotations(notes[1..], f).value;
      NotesMapped(notes[1..], f, rest);
      assert r[1..] == rest;
      var a := if notes[0].1.Note? then [Text_(notes[0].1.text)] else [];
      var b := if r[0].1.Note? then [Text_(r[0].1.text)] else [];
      MappedJoin(f, a, b, NotePayloads(notes[1..]), NotePayloads(rest));
      forall i | 0 <= i < |notes| ensures r[i].0 == notes[i].0 && (notes[i].1.Amount? ==> r[i] == notes[i]) {
        assert i > 0 ==> r[i] == rest[i - 1] && notes[i] == notes[1..][i - 1];
      }
    }
  }

  lemma StateMapped(s: CallState, f: Mapping, r: CallState, a: seq<Payload>, b: seq<Payload>)
    requires MapCallState(s, f) == Ok(r)
    requires a == match s case Pending => [] case NotExecuted(e) => ErrorPayloads(e) case Done(v) => [Value_(v)] case DoneError(e) => ErrorPayloads(e)
    requires b == match r case Pending => [] case NotExecuted(e) => ErrorPayloads(e) case Done(v) => [Value_(v)] case DoneError(e) => ErrorPayloads(e)
    ensures AllMapped(f, a, b) && (s.Pending? <==> r.Pending?) && (s.NotExecuted? <==> r.NotExecuted?) && (s.Done? <==> r.Done?)
  {
    match s
    case NotExecuted(e) => ErrorMapped(e, f, r.error);
    case DoneError(e) => ErrorMapped(e, f, r.error);
    case _ =>
  }

  /** What is not payload stays: the kind of record, its identities, instants and numbers,
      and the events the host stored. */
  ghost predicate SameFrame(r: Record, q: Record) {
    match r
    case Execution(version, runId, _, _, _, startedMs, maxTasks, maxAttempts) =>
      q.Execution? && q.version == version && q.runId == runId && q.startedMs == startedMs && q.maxTasks == maxTasks && q.maxAttempts == maxAttempts
    case Task(startedMs, result) =>
      q.Task? && q.startedMs == startedMs && (q.result.Some? <==> result.Some?) &&
      (result.Some? ==>
         var o, p := result.value.outcome, q.result.value.outcome;
         (o.Finished? ==> p.Finished? && p.flow == o.flow) && (o.Failed? ==> p.Failed? && p.fatal == o.fatal && p.error.status == o.error.status))
    case Call(logical, function_, _, atMostOnce, state, annotations) =>
      q.Call? && q.logical == logical && q.function_ == function_ && q.atMostOnce == atMostOnce
      && (q.state.Pending? <==> state.Pending?) && (q.state.NotExecuted? <==> state.NotExecuted?) && (q.state.Done? <==> state.Done?)
      && |q.annotations| == |annotations|
      && forall i :: 0 <= i < |annotations| ==>
           q.annotations[i].0 == annotations[i].0 && (annotations[i].1.Amount? ==> q.annotations[i] == annotations[i])
    case Winner(_) => q.Winner?
    case End(status) => q.End? && (status.Completed? <==> q.status.Completed?) && (status.Faulted? <==> q.status.Faulted?)
                        && (!status.Completed? && !status.Faulted? ==> q == r)
    case _ => q == r
  }

  lemma CallMapped(r: Record, f: Mapping, q: Record)
    requires r.Call? && Convert(r, f) == Ok(q)
    ensures AllMapped(f, Payloads(r), Payloads(q)) && SameFrame(r, q)
  {
    var a := match r.state case Pending => [] case NotExecuted(e) => ErrorPayloads(e) case Done(v) => [Value_(v)] case DoneError(e) => ErrorPayloads(e);
    var b := match q.state case Pending => [] case NotExecuted(e) => ErrorPayloads(e) case Done(v) => [Value_(v)] case DoneError(e) => ErrorPayloads(e);
    StateMapped(r.state, f, q.state, a, b);
    NotesMapped(r.annotations, f, q.annotations);
    MappedJoin(f, [Value_(r.arguments)], [Value_(q.arguments)], a, b);
    MappedJoin(f, [Value_(r.arguments)] + a, [Value_(q.arguments)] + b, NotePayloads(r.annotations), NotePayloads(q.annotations));
  }

  lemma TaskMapped(r: Record, f: Mapping, q: Record)
    requires r.Task? && Convert(r, f) == Ok(q)
    ensures AllMapped(f, Payloads(r), Payloads(q)) && SameFrame(r, q)
  {
    if r.result.Some? {
      var o, p := r.result.value.outcome, q.result.value.outcome;
      if o.Failed? {
        ErrorMapped(o.error, f, p.error);
        MappedJoin(f, [Value_(r.result.value.context)], [Value_(q.result.value.context)], ErrorPayloads(o.error), ErrorPayloads(p.error));
      }
    }
  }

  /** A converted record is the record with each payload mapped, one by one. */
  lemma RecordMapped(r: Record, f: Mapping, q: Record)
    requires Convert(r, f) == Ok(q)
    ensures AllMapped(f, Payloads(r), Payloads(q)) && SameFrame(r, q)
  {
    match r
    case Task(_, _) => TaskMapped(r, f, q);
    case Call(_, _, _, _, _, _) => CallMapped(r, f, q);
    case End(status) =>
      if status.Faulted? {
        ErrorMapped(status.error, f, q.status.error);
      }
    case _ =>
  }

  // ── what is stored ────────────────────────────────────────────────────────

  ghost predicate PayloadMentions(p: Payload, s: string) {
    match p
    case Value_(v) => Mentions(v, s)
    case Text_(t) => s == t
  }

  /** Every string of a stored record's payloads is the redacted form of a string of the
      same payload. */
  lemma StoredStrings(secrets: seq<Secret>, r: Record, i: nat, t: string)
    requires MarkFree(secrets) && Convert(r, Hide(secrets)).Ok?
    requires var q := Convert(r, Hide(secrets)).value; i < |Payloads(q)| && PayloadMentions(Payloads(q)[i], t)
    ensures i < |Payloads(r)| && exists s :: PayloadMentions(Payloads(r)[i], s) && t == Text(secrets, s)
  {
    var f := Hide(secrets);
    var q := Convert(r, f).value;
    RecordMapped(r, f, q);
    assert Mapped(f, Payloads(r)[i], Payloads(q)[i]);
    match Payloads(r)[i]
    case Value_(v) =>
      ValueMentions(v, f, Payloads(q)[i].v, t);
      var s :| Mentions(v, s) && f(s) == Ok(t);
      assert PayloadMentions(Payloads(r)[i], s);
    case Text_(s) =>
      assert PayloadMentions(Payloads(r)[i], s);
  }

  /** So no payload of a stored record holds a secret, if none is left in the markers. */
  lemma RecordsHide(secrets: seq<Secret>, r: Record, i: nat, t: string, j: nat)
    requires MarkFree(secrets) && Ordered(secrets) && MarkersHide(secrets) && Convert(r, Hide(secrets)).Ok? && j < |secrets|
    requires var q := Convert(r, Hide(secrets)).value; i < |Payloads(q)| && PayloadMentions(Payloads(q)[i], t)
    ensures !Contains(t, secrets[j].text)
  {
    StoredStrings(secrets, r, i, t);
    HiddenExactly(secrets);
  }
}

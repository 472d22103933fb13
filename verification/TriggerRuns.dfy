/**
 The trigger index and the disarming of tripped definitions over every step: exact and
 complete except for a replacing firing of the very key, and exactly when then.
 */
module TriggerRuns {
  import opened Options
  import opened Order
  import opened Schedule
  import opened SchedulePromotion
  import opened ScheduleRuns
  import opened TriggerIndex

  // ── a firing up to its store ──────────────────────────────────────────────

  /** The store once the deferred slots of the firing's definition have gone first. */
  function Drained(s: Store, f: Firing, now: int): Store {
    if Candidate(f).None? then s
    else
      var m := DrainMarked(s, Candidate(f).value.name, now);
      if m.Ok? then m.s else s
  }

  /** The firing finds the trigger it expects and goes on. */
  ghost predicate Matches(w: World, s: Store, f: Firing, now: int) {
    && !s.stopped && Current(Drained(s, f, now).triggers, f.key) == f.expected && !f.ingested
    && Fire(w, s, f, now).Fires? && !Fire(w, s, f, now).fired.Turned? && !Fire(w, s, f, now).fired.Changed?
  }

  lemma FireIsChecked(w: World, s: Store, f: Firing, now: int)
    requires Fire(w, s, f, now).Fires?
    ensures TrigMoves(s, Drained(s, f, now))
    ensures Fire(w, s, f, now).s == s || Fire(w, s, f, now).s == Drained(s, f, now)
            || (Matches(w, s, f, now) && Fire(w, s, f, now) == FireChecked(w, Drained(s, f, now), f, now))
    ensures Matches(w, s, f, now) ==> Fire(w, s, f, now) == FireChecked(w, Drained(s, f, now), f, now)
  {
    var m := Drained(s, f, now);
    if Candidate(f).None? || DrainMarked(s, Candidate(f).value.name, now).Err? {
      TrigStill(s, m);
    } else {
      MarkedTrig(s, Candidate(f).value.name, now, m);
    }
    CheckedIsNeither(w, m, f, now);
  }

  lemma CheckedIsNeither(w: World, s: Store, f: Firing, now: int)
    ensures FireChecked(w, s, f, now).Fires? ==> !FireChecked(w, s, f, now).fired.Turned? && !FireChecked(w, s, f, now).fired.Changed?
    ensures f.ingested ==> FireChecked(w, s, f, now) == Fires(s, Ingested)
  {
  }

  // ── firings that do not replace ───────────────────────────────────────────

  lemma FreshKeeps(s: Store, k: string, next: Option<Trigger>, t: Store)
    requires k in s.triggers && t == PutTrigger(s, k, Some(s.triggers[k]), next)
    ensures TrigKeeps(s, t)
  {
    FreshStore(s, k, next, t);
    TripsStandStill(s, t);
  }

  lemma PlainFiring(w: World, s: Store, f: Firing, now: int, t: Store)
    requires FireChecked(w, s, f, now).Fires? && t == FireChecked(w, s, f, now).s && !Replaces(s, f)
    requires Current(s.triggers, f.key) == f.expected && f.expected.Some?
    ensures TrigKeeps(s, t)
  {
    if f.ingested {
      TrigStill(s, t);
    } else {
      FireCheckedTrig(w, s, f, now, t);
      var put := PutTrigger(s, f.key, f.expected, StoredNext(w, s, f, now));
      FreshKeeps(s, f.key, StoredNext(w, s, f, now), put);
      KeepsOn(s, put, t);
    }
  }

  /** A firing that replaces nothing keeps the index exact and disarms what it trips. */
  lemma FiringKeeps(w: World, s: Store, f: Firing, now: int, t: Store)
    requires Fire(w, s, f, now).Fires? && t == Fire(w, s, f, now).s && f.expected.Some?
    requires !Replaces(Drained(s, f, now), f)
    ensures TrigKeeps(s, t)
  {
    FireIsChecked(w, s, f, now);
    if t == s {
      TrigStill(s, t);
    } else if t != Drained(s, f, now) {
      PlainFiring(w, Drained(s, f, now), f, now, t);
      KeepsOn(s, Drained(s, f, now), t);
    }
  }

  // ── firings that replace ──────────────────────────────────────────────────

  /** All but one key: what the store of a replacing firing does not touch. */
  ghost predicate KeepsBut(s: Store, t: Store, k: string) {
    && (forall j {:trigger ExactAt(t, j)} :: j != k && ExactAt(s, j) ==> ExactAt(t, j))
    && (forall n, j :: n in s.defs && s.defs[n].tripped.None? && j in s.defs[n].triggers && n in t.defs && t.defs[n].tripped.Some? && j != k ==>
                         j !in t.triggers)
  }

  lemma ReplacingKeepsOthers(w: World, s: Store, f: Firing, now: int, t: Store)
    requires FireChecked(w, s, f, now).Fires? && t == FireChecked(w, s, f, now).s && !f.ingested
    ensures KeepsBut(s, t, f.key) && t.triggers.Keys <= s.triggers.Keys + {f.key}
  {
    var m, next := AtStore(w, s, f, now), StoredNext(w, s, f, now);
    var put := PutTrigger(m, f.key, f.expected, next);
    FireCheckedTrig(w, s, f, now, t);
    forall j | j != f.key && ExactAt(s, j) ensures ExactAt(t, j) {
      assert ExactAt(m, j);
      OtherKeys(m, f.key, f.expected, next, put, j);
      assert ExactAt(put, j);
    }
    forall n, j | n in s.defs && s.defs[n].tripped.None? && j in s.defs[n].triggers && n in t.defs && t.defs[n].tripped.Some? && j != f.key
      ensures j !in t.triggers
    {
      assert DefMoves(n, s.defs[n], m.defs[n], m.notices);
      if m.defs[n].tripped.None? {
        assert j in put.defs[n].triggers;
      } else {
        assert j !in m.triggers;
      }
    }
  }

  /** When a replacing firing keeps the index of its own key: if the cancellations tripped
      the definition, the trigger it takes to be stored and the one it stores must share
      no row; otherwise, if they re-armed the trigger, the next one must be due at that
      very instant. */
  ghost predicate StaysExact(w: World, s: Store, f: Firing, now: int)
    requires f.expected.Some?
  {
    var k, next := f.key, StoredNext(w, s, f, now);
    if GoesByTrip(s, AtStore(w, s, f, now), k) then RowsOf(k, f.expected) * RowsOf(k, next) == {}
    else
      var at := RearmAt(w, s.runs, Sorted(AsKeys(LiveOf(s.runs, k))), k, f.expected.value, now);
      f.expected.value.at.None? && at.Some? ==> next.Some? && next.value.at == at
  }

  lemma RowsOfRearmed(k: string, armed: Trigger, at: int)
    requires armed.at.None?
    ensures RowsOf(k, Some(armed.(at := Some(at)))) == RowsOf(k, Some(armed)) + {DueRow(at, k)}
    ensures DueRow(at, k) !in RowsOf(k, Some(armed))
  {
  }

  /** What the stored trigger is when the firing stores the next one. */
  lemma StoredWas(w: World, s: Store, f: Firing, now: int, m: Store)
    requires Replaces(s, f) && FireChecked(w, s, f, now).Fires? && m == AtStore(w, s, f, now)
    requires Current(s.triggers, f.key) == f.expected && f.expected.Some?
    ensures TrigMoves(s, m)
    ensures GoesByTrip(s, m, f.key) <==> f.key !in m.triggers
    ensures f.key in m.triggers ==>
              m.triggers[f.key] == Rearmed_(f.expected.value, RearmAt(w, s.runs, Sorted(AsKeys(LiveOf(s.runs, f.key))), f.key, f.expected.value, now))
  {
    var live := LiveOf(s.runs, f.key);
    var ids := Sorted(AsKeys(live));
    SortedLists(AsKeys(live));
    forall i | 0 <= i < |ids| ensures ids[i].0 in s.runs {
      assert ids[i] in ids;
    }
    TerminateAllTrig(w, s, ids, now, m);
    CancelledTrigger(w, s, ids, now, m, f.key);
    GoneByTrip(s, m, f.key);
  }

  /** The compatibility of the three cases. */
  lemma CompatibleCases(k: string, armed: Trigger, at: Option<int>, next: Option<Trigger>)
    ensures Compatible(k, None, Some(armed), next) <==> RowsOf(k, Some(armed)) * RowsOf(k, next) == {}
    ensures Compatible(k, Some(Rearmed_(armed, at)), Some(armed), next) <==>
            (armed.at.None? && at.Some? ==> next.Some? && next.value.at == at)
  {
    if armed.at.None? && at.Some? {
      RowsOfRearmed(k, armed, at.value);
      assert DueRow(at.value, k) in RowsOf(k, next) <==> next.Some? && next.value.at == at;
    }
  }

  /** Right after the store. */
  lemma StoreExactness(w: World, s: Store, f: Firing, now: int, put: Store)
    requires Replaces(s, f) && FireChecked(w, s, f, now).Fires? && ExactAt(s, f.key)
    requires Current(s.triggers, f.key) == f.expected && f.expected.Some?
    requires put == PutTrigger(AtStore(w, s, f, now), f.key, f.expected, StoredNext(w, s, f, now))
    ensures ExactAt(put, f.key) <==> StaysExact(w, s, f, now)
  {
    var k, m, next := f.key, AtStore(w, s, f, now), StoredNext(w, s, f, now);
    StoredWas(w, s, f, now, m);
    assert ExactAt(m, k);
    StoreIsExact(m, k, f.expected, next, put);
    CompatibleCases(k, f.expected.value, RearmAt(w, s.runs, Sorted(AsKeys(LiveOf(s.runs, k))), k, f.expected.value, now), next);
  }

  /** What follows the store: nothing for triggers, or the trip of the refused run's
      definition. */
  ghost predicate Followed(put: Store, t: Store, name: string) {
    || (t.triggers == put.triggers && t.index == put.index)
    || (name in put.defs && put.defs[name].tripped.None? && t.triggers == put.triggers - put.defs[name].triggers
        && t.index == ArmedIndex(put.index, put.triggers, t.triggers))
  }

  lemma TripFollows(s: Store, run: Admission, c: Definition, threshold: Count, now: int, t: Store)
    requires run.name in s.defs && s.defs[run.name].tripped.None? && c == s.defs[run.name].(faults := c.faults)
    requires t == Tripped(s, run, c, threshold, now)
    ensures Followed(s, t, run.name)
  {
    assert t.triggers == s.triggers - s.defs[run.name].triggers;
  }

  lemma ObserveFollows(s: Store, run: Admission, epoch: Option<nat>, seen: Seen, default_: Count, now: int, t: Store)
    requires t == Observe(s, run, epoch, seen, default_, now)
    ensures Followed(s, t, run.name)
  {
    if t.triggers != s.triggers || t.index != s.index {
      var c := Counted(s.defs[run.name]);
      var threshold := Effective(PolicyOf(s.defs[run.name], run.version), default_);
      TripFollows(s, run, c, threshold.value, now, t);
    }
  }

  lemma RefuseFollows(s: Store, k: string, r: Refusal, now: int, t: Store)
    requires RefuseFiring(s, k, r, now) == Ok(t)
    ensures Followed(s, t, r.admission.name)
  {
    var a := r.admission;
    var m := Refuse(s, a, r.fault, now).s;
    if a.id !in s.runs {
      ObserveFollows(Inserted(s, a, None, None, false), a, EpochOf(s.defs, a), AFault, r.fault.threshold, now, m);
    }
  }

  lemma CommitFollows(w: World, s: Store, f: Firing, now: int, put: Store, t: Store)
    requires Commit(s, f, now).Fires? && t == Commit(s, f, now).s && put == PutTrigger(s, f.key, f.expected, f.next)
    requires f.refused.Some? ==> f.refused.value.admission.name == w.owner(f.key)
    ensures Followed(put, t, w.owner(f.key))
  {
    var b := AdmitAll(put, f, f.admit).s;
    AdmitAllTrig(put, f, f.admit, b);
    if f.refused.Some? {
      RefuseFollows(b, f.key, f.refused.value, now, t);
    }
  }

  lemma ReplacingFollows(w: World, s: Store, f: Firing, now: int, put: Store, t: Store)
    requires Replaces(s, f) && FireChecked(w, s, f, now).Fires? && t == FireChecked(w, s, f, now).s
    requires Callable(w, Firing_(f, now))
    requires put == PutTrigger(AtStore(w, s, f, now), f.key, f.expected, StoredNext(w, s, f, now))
    ensures Followed(put, t, w.owner(f.key)) && StoredNext(w, s, f, now).Some?
  {
    var g, m := f.overlap.value, AtStore(w, s, f, now);
    if Capacity(m.runs, Candidate(f).value.name, g.max) {
      CommitFollows(w, m, f, now, put, t);
    }
  }

  /** A row of the key that is no row of its trigger stays through a disarming. */
  lemma ExtraStays(put: Store, t: Store, name: string, r: IndexKey)
    requires Followed(put, t, name) && r in put.index && r !in RowsOf(r.key, Current(put.triggers, r.key))
    ensures !ExactAt(t, r.key)
  {
    AllRowsAt(put.triggers, r);
    AllRowsAt(t.triggers, r);
    assert r in t.index && r !in RowsOf(r.key, Current(t.triggers, r.key));
  }

  lemma SameStays(put: Store, t: Store, k: string)
    requires t.triggers == put.triggers && t.index == put.index
    ensures ExactAt(t, k) <==> ExactAt(put, k)
  {
  }

  lemma InexactStays(w: World, s: Store, f: Firing, now: int, put: Store, t: Store)
    requires Replaces(s, f) && FireChecked(w, s, f, now).Fires? && ExactAt(s, f.key) && Wf(w, s)
    requires Current(s.triggers, f.key) == f.expected && f.expected.Some?
    requires put == PutTrigger(AtStore(w, s, f, now), f.key, f.expected, StoredNext(w, s, f, now))
    requires Followed(put, t, w.owner(f.key)) && StoredNext(w, s, f, now).Some? && !StaysExact(w, s, f, now)
    ensures !ExactAt(t, f.key)
  {
    var k, m, next := f.key, AtStore(w, s, f, now), StoredNext(w, s, f, now);
    StoredWas(w, s, f, now, m);
    StoreExactness(w, s, f, now, put);
    if GoesByTrip(s, m, k) {
      var n :| n in s.defs && s.defs[n].tripped.None? && k in s.defs[n].triggers && n in m.defs && m.defs[n].tripped.Some?;
      assert DefOk(w, n, s.defs[n]);
      SameStays(put, t, k);
    } else {
      var at := RearmAt(w, s.runs, Sorted(AsKeys(LiveOf(s.runs, k))), k, f.expected.value, now);
      RowsOfRearmed(k, f.expected.value, at.value);
      var r := DueRow(at.value, k);
      assert ExactAt(m, k) && r in m.index;
      assert r in put.index && r !in RowsOf(k, next);
      ExtraStays(put, t, w.owner(k), r);
    }
  }

  /** A replacing firing keeps the index of its key exact if and only if the condition
      on the store before it holds. */
  lemma ReplacingExact(w: World, s: Store, f: Firing, now: int, t: Store)
    requires Inv(w, s) && Callable(w, Firing_(f, now)) && Fire(w, s, f, now).Fires? && t == Fire(w, s, f, now).s
    requires Matches(w, s, f, now) && Replaces(Drained(s, f, now), f) && ExactAt(s, f.key)
    ensures ExactAt(t, f.key) <==> StaysExact(w, Drained(s, f, now), f, now)
  {
    var m := Drained(s, f, now);
    FireIsChecked(w, s, f, now);
    assert ExactAt(m, f.key);
    MarkedWf(w, s, Candidate(f).value.name, now, m);
    var put := PutTrigger(AtStore(w, m, f, now), f.key, f.expected, StoredNext(w, m, f, now));
    ReplacingFollows(w, m, f, now, put, t);
    if StaysExact(w, m, f, now) {
      StoreExactness(w, m, f, now, put);
      FireCheckedTrig(w, m, f, now, t);
    } else {
      InexactStays(w, m, f, now, put, t);
    }
  }

  // ── without refused slots ─────────────────────────────────────────────────

  /** The definition has no refused slot buffered. */
  predicate NoneRefused(s: Store, n: string) {
    forall k | k in s.queue :: s.queue[k].admission.name == n ==> s.queue[k].failure.None?
  }

  /** Then cancelling runs counts no fault for it. */
  ghost predicate Quiet(s: Store, t: Store, n: string) {
    && (n in s.defs ==> n in t.defs && t.defs[n] == s.defs[n])
    && forall k :: k in t.queue ==> k in s.queue && t.queue[k] == s.queue[k]
  }

  lemma ObserveQuiet(s: Store, run: Admission, epoch: Option<nat>, seen: Seen, default_: Count, now: int, n: string, t: Store)
    requires t == Observe(s, run, epoch, seen, default_, now) && run.name != n
    ensures Quiet(s, t, n)
  {
  }

  lemma DrainOneQuiet(s: Store, row: Key, now: int, n: string, t: Store)
    requires NoneRefused(s, n) && DrainOne(s, row, now) == Ok(t)
    ensures Quiet(s, t, n) && NoneRefused(t, n)
  {
    var k := row.1;
    if k in s.queue && t != s {
      var q, m := s.queue[k], RemoveQueue(s, k);
      if q.failure.Some? {
        RefuseQuiet(m, q.admission, q.failure.value, now, n, t);
      } else {
        AdmitQuiet(m, k, q.admission, q.rearm, Some(s.triggers[k]), n, t);
      }
      QuietOn(s, m, t, n);
    }
  }

  lemma RefuseQuiet(s: Store, a: Admission, f: Fault, now: int, n: string, t: Store)
    requires Refuse(s, a, f, now) == Ok(t) && a.name != n
    ensures Quiet(s, t, n)
  {
    if a.id !in s.runs {
      ObserveQuiet(Inserted(s, a, None, None, false), a, EpochOf(s.defs, a), AFault, f.threshold, now, n, t);
    }
  }

  lemma AdmitQuiet(s: Store, k: string, a: Admission, rearm: Option<Rearm>, next: Option<Trigger>, n: string, t: Store)
    requires AdmitFiring(s, k, a, rearm, next) == Ok(t)
    ensures Quiet(s, t, n)
  {
  }

  lemma QuietOn(s: Store, m: Store, t: Store, n: string)
    requires Quiet(s, m, n) && Quiet(m, t, n) && NoneRefused(s, n)
    ensures Quiet(s, t, n) && NoneRefused(t, n)
  {
  }

  lemma {:induction false} DrainKeysQuiet(s: Store, keys: seq<Key>, now: int, n: string, t: Store)
    requires NoneRefused(s, n) && DrainKeys(s, keys, now) == Ok(t)
    ensures Quiet(s, t, n) && NoneRefused(t, n)
    decreases |keys|
  {
    if keys != [] {
      var m := DrainOne(s, keys[0], now).s;
      DrainOneQuiet(s, keys[0], now, n, m);
      DrainKeysQuiet(m, keys[1..], now, n, t);
    }
  }

  lemma {:induction false} DrainNamesQuiet(s: Store, names: seq<Key>, now: int, n: string, t: Store)
    requires NoneRefused(s, n) && DrainNames(s, names, now) == Ok(t)
    ensures Quiet(s, t, n) && NoneRefused(t, n)
    decreases |names|
  {
    if names != [] {
      var m := Drain(s, names[0].0, now).s;
      DrainQuiet(s, names[0].0, now, n, m);
      DrainNamesQuiet(m, names[1..], now, n, t);
    }
  }

  lemma DrainQuiet(s: Store, name: string, now: int, n: string, t: Store)
    requires NoneRefused(s, n) && Drain(s, name, now) == Ok(t)
    ensures Quiet(s, t, n) && NoneRefused(t, n)
  {
    if !s.stopped {
      DrainKeysQuiet(s, Sorted(QueueRows(s, name)), now, n, t);
    }
  }

  lemma TerminateQuiet(w: World, s: Store, id: Id, now: int, n: string, t: Store)
    requires NoneRefused(s, n) && Terminate(w, s, id, now) == Ok(t)
    ensures Quiet(s, t, n) && NoneRefused(t, n)
  {
    if id in s.runs && s.runs[id].live {
      var a := s.(runs := EndRuns(w, s.runs, id));
      var b := Rearmed(a, s.runs[id], now);
      RearmedKeys(a, s.runs[id], now, b);
      DrainNamesQuiet(b, Sorted(AsKeys(EndedNames(w, s.runs, id))), now, n, t);
    }
  }

  lemma {:induction false} TerminateAllQuiet(w: World, s: Store, ids: seq<Key>, now: int, n: string, t: Store)
    requires NoneRefused(s, n) && TerminateAll(w, s, ids, now) == Ok(t)
    ensures Quiet(s, t, n) && NoneRefused(t, n)
    decreases |ids|
  {
    if ids != [] {
      var m := Terminate(w, s, ids[0].0, now).s;
      TerminateQuiet(w, s, ids[0].0, now, n, m);
      TerminateAllQuiet(w, m, ids[1..], now, n, t);
    }
  }

  /** If a live run of the trigger would re-arm it, the stored trigger is due just then. */
  ghost predicate RearmedInTime(w: World, s: Store, f: Firing, now: int) {
    var k, next := f.key, StoredNext(w, s, f, now);
    f.expected.Some? && f.expected.value.at.None? ==>
      var at := RearmAt(w, s.runs, Sorted(AsKeys(LiveOf(s.runs, k))), k, f.expected.value, now);
      at.Some? ==> next.Some? && next.value.at == at
  }

  lemma QuietStays(w: World, s: Store, f: Firing, now: int)
    requires Wf(w, s) && f.expected.Some? && NoneRefused(s, w.owner(f.key))
    ensures StaysExact(w, s, f, now) <==> RearmedInTime(w, s, f, now)
  {
    var m, k := AtStore(w, s, f, now), f.key;
    if m != s {
      TerminateAllQuiet(w, s, Sorted(AsKeys(LiveOf(s.runs, k))), now, w.owner(k), m);
    }
    forall n | n in s.defs && k in s.defs[n].triggers ensures n in m.defs && m.defs[n] == s.defs[n] {
      assert DefOk(w, n, s.defs[n]);
    }
  }

  /** With no refused slot of the definition buffered, a replacing firing keeps the index
      of its key exact if and only if its rearm is met: a matter of the stored runs. */
  lemma ReplacingQuiet(w: World, s: Store, f: Firing, now: int, t: Store)
    requires Inv(w, s) && Callable(w, Firing_(f, now)) && Fire(w, s, f, now).Fires? && t == Fire(w, s, f, now).s
    requires Matches(w, s, f, now) && Replaces(Drained(s, f, now), f) && ExactAt(s, f.key) && NoneRefused(s, w.owner(f.key))
    ensures ExactAt(t, f.key) <==> RearmedInTime(w, Drained(s, f, now), f, now)
  {
    var m := Drained(s, f, now);
    ReplacingExact(w, s, f, now, t);
    MarkedWf(w, s, Candidate(f).value.name, now, m);
    assert NoneRefused(m, w.owner(f.key)) by {
      forall k | k in m.queue ensures k in s.queue && m.queue[k] == s.queue[k] {
      }
    }
    QuietStays(w, m, f, now);
  }

  // ── the trip ──────────────────────────────────────────────────────────────

  /** The key of a replacing firing survives the trip of its definition if and only if the
      cancellations, not the firing's own refusal, tripped it. */
  lemma KeySurvives(w: World, s: Store, f: Firing, now: int, t: Store, n: string)
    requires Inv(w, s) && Callable(w, Firing_(f, now)) && Fire(w, s, f, now).Fires? && t == Fire(w, s, f, now).s
    requires Matches(w, s, f, now) && Replaces(Drained(s, f, now), f)
    requires n in Drained(s, f, now).defs && Drained(s, f, now).defs[n].tripped.None? && f.key in Drained(s, f, now).defs[n].triggers
    requires Broken(t.defs, n)
    ensures f.key in t.triggers <==> Broken(AtStore(w, Drained(s, f, now), f, now).defs, n)
  {
    var d := Drained(s, f, now);
    var m, k := AtStore(w, d, f, now), f.key;
    FireIsChecked(w, s, f, now);
    MarkedWf(w, s, Candidate(f).value.name, now, d);
    assert DefOk(w, n, d.defs[n]);
    var put := PutTrigger(m, k, f.expected, StoredNext(w, d, f, now));
    ReplacingFollows(w, d, f, now, put, t);
    FireCheckedTrig(w, d, f, now, t);
    SurvivesAfter(d, m, put, t, n, k);
  }

  lemma SurvivesAfter(d: Store, m: Store, put: Store, t: Store, n: string, k: string)
    requires TripsStand(d, m) && n in d.defs && d.defs[n].tripped.None? && k in d.defs[n].triggers
    requires put.defs == m.defs && k in put.triggers && TrigMoves(put, t) && Followed(put, t, n) && Broken(t.defs, n)
    ensures k in t.triggers <==> Broken(m.defs, n)
  {
    assert DefMoves(n, d.defs[n], m.defs[n], m.notices);
  }

  // ── every step ────────────────────────────────────────────────────────────

  /** The step is a firing of the key that cancels the runs of its trigger. */
  predicate IsReplacing(s: Store, c: Command, k: string) {
    c.Firing_? && c.f.key == k && Replaces(Drained(s, c.f, c.now), c.f)
  }

  lemma ReplacingStep(w: World, s: Store, f: Firing, now: int, t: Store)
    requires Fire(w, s, f, now).Fires? && t == Fire(w, s, f, now).s
    ensures KeepsBut(s, t, f.key)
  {
    var m := Drained(s, f, now);
    FireIsChecked(w, s, f, now);
    if t == s {
      TrigStill(s, t);
    } else if t != m {
      ReplacingKeepsOthers(w, m, f, now, t);
      ButOn(s, m, t, f.key);
    }
  }

  lemma ButOn(s: Store, m: Store, t: Store, k: string)
    requires TrigKeeps(s, m) && KeepsBut(m, t, k) && t.triggers.Keys <= m.triggers.Keys + {k}
    ensures KeepsBut(s, t, k)
  {
    forall j | j != k && ExactAt(s, j) ensures ExactAt(t, j) {
      assert ExactAt(m, j);
    }
    forall n, j | n in s.defs && s.defs[n].tripped.None? && j in s.defs[n].triggers && n in t.defs && t.defs[n].tripped.Some? && j != k
      ensures j !in t.triggers
    {
      assert DefMoves(n, s.defs[n], m.defs[n], m.notices);
    }
  }

  lemma RunTrig(w: World, s: Store, c: Command, t: Store)
    requires Effect(w, s, c) == Ok(t) && (c.Starting? || c.Finishing? || c.Cancelling? || c.Paging? || c.Stopping?)
    ensures TrigKeeps(s, t)
  {
    match c
    case Starting(a, kind, now) => StartTrig(s, a, kind, now, t);
    case Finishing(id, seen, threshold, now) =>
      var m := Observe(s, s.runs[id].admission, s.runs[id].epoch, seen, threshold, now);
      ObserveTrig(s, s.runs[id].admission, s.runs[id].epoch, seen, threshold, now, m);
      TerminateTrig(w, m, id, now, t);
      KeepsOn(s, m, t);
    case Cancelling(id, now) => TerminateTrig(w, s, id, now, t);
    case Paging(limit, now) =>
      if s.stopped {
        TrigStill(s, t);
      } else {
        PendingTrig(s, limit, now, t);
      }
    case Stopping(enabled, now) =>
      if s.stopped && !enabled {
        TrigStill(s, s.(stopped := false));
        PendingTrig(s.(stopped := false), MAX_PAGE, now, t);
        KeepsOn(s, s.(stopped := false), t);
      } else {
        TrigStill(s, t);
      }
  }

  lemma StartTrig(s: Store, a: Admission, kind: Kind, now: int, t: Store)
    requires Start(s, a, kind, now) == Ok(t)
    ensures TrigKeeps(s, t)
  {
    var m := DrainMarked(s, a.name, now).s;
    MarkedTrig(s, a.name, now, m);
    if t != m {
      InsertFrame(m, a, kind, None, None, t);
      TrigStill(m, t);
      KeepsOn(s, m, t);
    }
  }

  lemma PendingTrig(s: Store, limit: nat, now: int, t: Store)
    requires DrainPending(s, limit, now) == Ok(t)
    ensures TrigKeeps(s, t)
  {
    var names := Sorted(AsKeys(s.drain));
    MarksTrig(s, if |names| <= limit then names else names[..limit], now, t);
  }

  lemma ResumeTrig(w: World, s: Store, name: string, now: int, t: Store)
    requires Inv(w, s) && Resume(s, name, now) == Ok(t) && t != s
    ensures name in s.paused && name in s.defs && s.defs[name].tripped.Some?
    ensures KeepsExact(s, t) && TrigKeeps(Restored(s, name, s.defs[name], s.paused[name]), t)
  {
    var d, p := s.defs[name], s.paused[name];
    var armed, m := Arm(s, d.triggers, p.triggers), Restored(s, name, d, p);
    ArmIsExact(s, d.triggers, p.triggers, armed);
    SameExact(s, armed, m);
    DrainTrig(m, name, now, t);
    forall k | ExactAt(s, k) ensures ExactAt(t, k) {
      assert ExactAt(m, k);
    }
  }

  lemma CatalogExact(w: World, s: Store, c: Command, t: Store)
    requires Inv(w, s) && Effect(w, s, c) == Ok(t) && t != s
    requires c.Activating? || c.Saving? || c.Pausing? || c.Resuming? || c.Acknowledging?
    ensures KeepsExact(s, t)
  {
    match c
    case Activating(name, _, _, wanted) =>
      var m := Arm(s, DefinitionOf(s, name).triggers, wanted);
      ArmIsExact(s, DefinitionOf(s, name).triggers, wanted, m);
      SameExact(s, m, t);
    case Pausing(name, _, _) =>
      var m := Arm(s, s.defs[name].triggers, map[]);
      ArmIsExact(s, s.defs[name].triggers, map[], m);
      SameExact(s, m, t);
    case Resuming(name, now) => ResumeTrig(w, s, name, now, t);
    case Saving(_, _, _) => SameExact(s, s, t);
    case Acknowledging(_) => SameExact(s, s, t);
  }

  /** Every step keeps the index of a key exact, but for a replacing firing of that key. */
  lemma OtherExact(w: World, s: Store, c: Command, t: Store, k: string)
    requires Inv(w, s) && Callable(w, c) && t == Step(w, s, c) && ExactAt(s, k) && !IsReplacing(s, c, k)
    ensures ExactAt(t, k)
  {
    if t != s {
      if c.Firing_? {
        ReplacingStep(w, s, c.f, c.now, t);
        if !Replaces(Drained(s, c.f, c.now), c.f) {
          FiringKeeps(w, s, c.f, c.now, t);
        }
      } else if c.Starting? || c.Finishing? || c.Cancelling? || c.Paging? || c.Stopping? {
        RunTrig(w, s, c, t);
      } else {
        CatalogExact(w, s, c, t);
      }
    }
  }

  /** The step is no replacing firing of the key, or one that finds its trigger and keeps
      the index of it. */
  ghost predicate Harmless(w: World, s: Store, c: Command, k: string) {
    IsReplacing(s, c, k) && Matches(w, s, c.f, c.now) && c.f.expected.Some? ==>
      StaysExact(w, Drained(s, c.f, c.now), c.f, c.now)
  }

  /** A step keeps the index of a key exact if and only if it is harmless to it. */
  lemma StepExact(w: World, s: Store, c: Command, t: Store, k: string)
    requires Inv(w, s) && Callable(w, c) && t == Step(w, s, c) && ExactAt(s, k)
    ensures ExactAt(t, k) <==> Harmless(w, s, c, k)
  {
    if !IsReplacing(s, c, k) {
      OtherExact(w, s, c, t, k);
    } else if Matches(w, s, c.f, c.now) {
      ReplacingExact(w, s, c.f, c.now, t);
    } else if t != s {
      FireIsChecked(w, s, c.f, c.now);
      assert ExactAt(t, k);
    }
  }

  /** The triggers of a definition: those it armed, or those its pause put aside. */
  function Owned(s: Store, n: string): set<string> {
    (if n in s.defs then s.defs[n].triggers else {}) + (if n in s.paused then s.paused[n].triggers.Keys else {})
  }

  lemma ResumeDisarms(w: World, s: Store, c: Command, t: Store, n: string, k: string)
    requires Inv(w, s) && c.Resuming? && Resume(s, c.name, c.now) == Ok(t) && t != s
    requires !Broken(s.defs, n) && Broken(t.defs, n) && k in Owned(s, n)
    ensures k !in t.triggers
  {
    ResumeTrig(w, s, c.name, c.now, t);
    ResumeInv(w, s, c.name, c.now, t);
    var m := Restored(s, c.name, s.defs[c.name], s.paused[c.name]);
    RestoredRows(w, s, c.name, m);
    PausedHasNone(w, s, c.name);
    assert n in s.paused ==> PauseOk(w, n, s.paused[n], s.defs);
    assert DefOk(w, n, s.defs[n]);
    assert DefMoves(n, m.defs[n], t.defs[n], t.notices);
  }

  /** From the empty store on, the index of a key is exact as long as every step is
      harmless to it; so it always is for a trigger that does not replace. */
  lemma {:induction false} AlwaysExact(w: World, commands: seq<Command>, k: string)
    requires AllCallable(w, commands)
    requires w.policy(k).Replace? ==> forall i :: 0 <= i < |commands| ==> Harmless(w, After(w, commands[..i]), commands[i], k)
    ensures ExactAt(After(w, commands), k)
    decreases |commands|
  {
    if commands == [] {
      assert RowsOf(k, Current(EMPTY.triggers, k)) == {};
    } else {
      var last := |commands| - 1;
      var rest := commands[..last];
      assert forall i :: 0 <= i < |rest| ==> rest[i] == commands[i] && rest[..i] == commands[..i];
      AlwaysExact(w, rest, k);
      AlwaysInv(w, rest);
      if IsReplacing(After(w, rest), commands[last], k) {
        PolicyReplaces(w, After(w, rest), commands[last], k);
      }
      assert commands[..last] == rest;
      StepExact(w, After(w, rest), commands[last], After(w, commands), k);
    }
  }

  lemma PolicyReplaces(w: World, s: Store, c: Command, k: string)
    requires Callable(w, c) && IsReplacing(s, c, k)
    ensures w.policy(k).Replace?
  {
  }
}

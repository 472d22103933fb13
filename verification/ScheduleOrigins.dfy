/**
 Where the runs a drain stores come from: each is the promotion of a buffered slot, with
 the admission of the slot and its trigger key.
 */
module ScheduleOrigins {
  import opened Options
  import opened Order
  import opened Schedule
  import opened SchedulePromotion

  /** The run `x` is the promotion of the slot of `k`. A refused slot's run ended before it
      ran and belongs to no trigger. */
  ghost predicate IsPromotion(q: Slot, k: string, runs: map<Id, Run>, x: Id) {
    && x in runs && x == q.admission.id && runs[x].admission == q.admission
    && runs[x].trigger == if q.failure.Some? then None else Some(k)
  }

  ghost predicate FromSlot(s: Store, t: Store, k: string, x: Id) {
    k in s.queue && IsPromotion(s.queue[k], k, t.runs, x) && !(k in t.queue && t.queue[k] == s.queue[k])
  }

  /** Every new run is the promotion of a slot that has gone. */
  ghost predicate Promotes(s: Store, t: Store) {
    forall x :: x in t.runs && x !in s.runs ==> exists k :: FromSlot(s, t, k, x)
  }

  /** What a run was admitted as stays, and no slot comes. */
  ghost predicate Onward(s: Store, t: Store) {
    && (forall x :: x in s.runs ==> x in t.runs && t.runs[x].admission == s.runs[x].admission && t.runs[x].trigger == s.runs[x].trigger)
    && forall k :: k in t.queue ==> k in s.queue && t.queue[k] == s.queue[k]
  }

  lemma PromotesNone(s: Store, t: Store)
    requires forall x :: x in t.runs ==> x in s.runs
    ensures Promotes(s, t)
  {
  }

  lemma PromotesOn(s: Store, m: Store, t: Store)
    requires Promotes(s, m) && Promotes(m, t) && Onward(s, m) && Onward(m, t)
    ensures Promotes(s, t)
  {
    forall x | x in t.runs && x !in s.runs ensures exists k :: FromSlot(s, t, k, x) {
      if x in m.runs {
        var k :| FromSlot(s, m, k, x);
        assert FromSlot(s, t, k, x);
      } else {
        var k :| FromSlot(m, t, k, x);
        assert FromSlot(s, t, k, x);
      }
    }
  }

  lemma DrainOneFrom(w: World, s: Store, row: Key, now: int, t: Store)
    requires Wf(w, s) && DrainOne(s, row, now) == Ok(t)
    ensures Promotes(s, t) && Onward(s, t)
  {
    DrainOneWf(w, s, row, now, t);
    var k := row.1;
    if k in s.queue && t.runs != s.runs {
      var q := s.queue[k];
      var m := RemoveQueue(s, k);
      if q.failure.Some? {
        RefusedRun(m, q.admission, q.failure.value, now, t);
      } else {
        AdmittedRun(m, k, q.admission, q.rearm, Some(s.triggers[k]), t);
      }
      forall x | x in t.runs && x !in s.runs ensures FromSlot(s, t, k, x) {
      }
    }
  }

  /** The one run a refusal stores. */
  lemma RefusedRun(s: Store, a: Admission, f: Fault, now: int, t: Store)
    requires Refuse(s, a, f, now) == Ok(t)
    ensures forall x :: x in t.runs && x !in s.runs ==> x == a.id && t.runs[x].admission == a && t.runs[x].trigger.None?
    ensures t.runs != s.runs ==> a.id !in s.runs
    ensures forall k :: k in t.queue ==> k in s.queue
  {
  }

  lemma AdmittedRun(s: Store, k: string, a: Admission, rearm: Option<Rearm>, next: Option<Trigger>, t: Store)
    requires AdmitFiring(s, k, a, rearm, next) == Ok(t)
    ensures forall x :: x in t.runs && x !in s.runs ==> x == a.id && t.runs[x].admission == a && t.runs[x].trigger == Some(k)
    ensures t.queue == s.queue
  {
  }

  lemma {:induction false} DrainKeysFrom(w: World, s: Store, keys: seq<Key>, now: int, t: Store)
    requires Wf(w, s) && DrainKeys(s, keys, now) == Ok(t)
    ensures Promotes(s, t) && Onward(s, t)
    decreases |keys|
  {
    if keys == [] {
      PromotesNone(s, t);
    } else {
      var m := DrainOne(s, keys[0], now).s;
      DrainOneWf(w, s, keys[0], now, m);
      DrainOneFrom(w, s, keys[0], now, m);
      DrainKeysFrom(w, m, keys[1..], now, t);
      PromotesOn(s, m, t);
    }
  }

  lemma Deferred(s: Store, name: string, now: int, t: Store)
    requires s.stopped && Drain(s, name, now) == Ok(t)
    ensures Promotes(s, t) && Onward(s, t)
  {
    assert t == s.(drain := t.drain);
    PromotesNone(s, t);
  }

  lemma DrainFrom(w: World, s: Store, name: string, now: int, t: Store)
    requires Wf(w, s) && Drain(s, name, now) == Ok(t)
    ensures Promotes(s, t) && Onward(s, t)
  {
    if s.stopped {
      Deferred(s, name, now, t);
    } else {
      DrainKeysFrom(w, s, Sorted(QueueRows(s, name)), now, t);
    }
  }

  lemma {:induction false} DrainNamesFrom(w: World, s: Store, names: seq<Key>, now: int, t: Store)
    requires Wf(w, s) && DrainNames(s, names, now) == Ok(t)
    ensures Promotes(s, t) && Onward(s, t)
    decreases |names|
  {
    if names == [] {
      PromotesNone(s, t);
    } else {
      var m := Drain(s, names[0].0, now).s;
      DrainWf(w, s, names[0].0, now, m);
      DrainFrom(w, s, names[0].0, now, m);
      DrainNamesFrom(w, m, names[1..], now, t);
      PromotesOn(s, m, t);
    }
  }

  lemma UnmarkFrom(w: World, s: Store, name: string, now: int, t: Store)
    requires Wf(w, s) && Drain(s.(drain := s.drain - {name}), name, now) == Ok(t)
    ensures Promotes(s, t) && Onward(s, t)
  {
    var m := s.(drain := s.drain - {name});
    DrainFrom(w, m, name, now, t);
    PromotesNone(s, m);
    PromotesOn(s, m, t);
  }

  lemma MarkedFrom(w: World, s: Store, name: string, now: int, t: Store)
    requires Wf(w, s) && DrainMarked(s, name, now) == Ok(t)
    ensures Promotes(s, t) && Onward(s, t)
  {
    if name in s.drain && !s.stopped {
      UnmarkFrom(w, s, name, now, t);
    } else {
      PromotesNone(s, t);
    }
  }

  lemma {:induction false} MarksFrom(w: World, s: Store, names: seq<Key>, now: int, t: Store)
    requires Wf(w, s) && NoLost(s) && DrainMarks(s, names, now) == Ok(t)
    ensures Promotes(s, t) && Onward(s, t)
    decreases |names|
  {
    if names == [] {
      PromotesNone(s, t);
    } else {
      var m := Drain(s.(drain := s.drain - {names[0].0}), names[0].0, now).s;
      UnmarkWf(w, s, names[0].0, now, m);
      UnmarkFrom(w, s, names[0].0, now, m);
      MarksFrom(w, m, names[1..], now, t);
      PromotesOn(s, m, t);
    }
  }

  lemma TerminateFrom(w: World, s: Store, id: Id, now: int, t: Store)
    requires Wf(w, s) && Terminate(w, s, id, now) == Ok(t)
    ensures Promotes(s, t) && Onward(s, t)
  {
    if id in s.runs && s.runs[id].live {
      var b := Rearmed(s.(runs := EndRuns(w, s.runs, id)), s.runs[id], now);
      EndRearmWf(w, s, id, now, b);
      DrainNamesFrom(w, b, Sorted(AsKeys(EndedNames(w, s.runs, id))), now, t);
      PromotesNone(s, b);
      PromotesOn(s, b, t);
    } else {
      PromotesNone(s, t);
    }
  }

  lemma {:induction false} TerminateAllFrom(w: World, s: Store, ids: seq<Key>, now: int, t: Store)
    requires Wf(w, s) && NoLost(s) && TerminateAll(w, s, ids, now) == Ok(t)
    ensures Promotes(s, t) && Onward(s, t)
    decreases |ids|
  {
    if ids == [] {
      PromotesNone(s, t);
    } else {
      var m := Terminate(w, s, ids[0].0, now).s;
      TerminateWf(w, s, ids[0].0, now, m);
      TerminateFrom(w, s, ids[0].0, now, m);
      TerminateAllFrom(w, m, ids[1..], now, t);
      PromotesOn(s, m, t);
    }
  }
}

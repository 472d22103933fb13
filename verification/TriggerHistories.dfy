/**
 Two histories in which a replacing firing loses track of its trigger: the cancelled run
 re-armed it, or the cancellation promoted a refused slot that tripped the definition.
 */
module TriggerHistories {
  import opened Options
  import opened Order
  import opened Schedule
  import opened SchedulePromotion
  import opened ScheduleRuns
  import opened TriggerIndex
  import R = Runs

  // ── the setting ───────────────────────────────────────────────────────────

  /** One definition `n` with a replacing trigger `k` and a queueing trigger `q`. */
  function Setting(): World {
    World(k => "n", k => if k == "q" then Queue else Replace, k => if k == "q" then 3 else 1, (x, y) => false, true)
  }

  function Run_(id: Id): Admission {
    R.Admission(id, "n", 1, false, None, None, "")
  }

  const DORMANT := Trigger(None, ["t"], "0")
  const LATER := Trigger(Some(99), ["t"], "1")
  const SKIPPED := Trigger(None, ["t"], "2")

  /** A firing of `k` that replaces. */
  function Replacing(run: Id, next: Trigger, rearm: Option<Rearm>): Firing {
    Firing("k", Some(DORMANT), Some(next), Some(SKIPPED), [Run_(run)], None, rearm, false, Some(Guard(Replace, 1, SKIPPED)))
  }

  /** A firing of `q` that admits a run, and one whose run the host refused. */
  function Queueing(run: Id): Firing {
    Firing("q", Some(DORMANT), Some(DORMANT), Some(SKIPPED), [Run_(run)], None, None, false, Some(Guard(Queue, 3, SKIPPED)))
  }

  function QueueingRefused(run: Id): Firing {
    Firing("q", Some(DORMANT), Some(DORMANT), Some(SKIPPED), [], Some(Refusal(Run_(run), Fault("e", 1))), None, false,
           Some(Guard(Queue, 3, SKIPPED)))
  }

  function Saved(): Definition {
    NO_DEFINITION.(versions := map[1 := Version("d", Inherit)])
  }

  function Active(triggers: set<string>): Definition {
    Saved().(active := Some(1), epoch := 1, triggers := triggers)
  }

  function Live_(id: Id, trigger: Option<string>, rearm: Option<(Rearm, Trigger)>): Run {
    Run(Run_(id), "d", Some(1), trigger, rearm, true)
  }

  // ── evaluating a firing ───────────────────────────────────────────────────

  ghost predicate Unmarked(s: Store) {
    !s.stopped && s.drain == {}
  }

  lemma NoneSorted()
    ensures Sorted(AsKeys({})) == []
  {
    assert AsKeys({}) == {};
  }

  lemma OneSorted(key: Key)
    ensures Sorted({key}) == [key]
  {
    SortedLists({key});
    var list := Sorted({key});
    assert list[0] in list;
  }

  /** Nothing runs and there is room: the slot is admitted. */
  lemma FirstSlot(w: World, s: Store, f: Firing, g: Guard, a: Admission, now: int)
    requires Unmarked(s) && f.refused.None? && f.admit == [a] && f.overlap == Some(g) && !f.ingested && g.max > 0
    requires f.next.Some? && f.busy.Some? && Current(s.triggers, f.key) == f.expected && a.id !in s.runs
    requires LiveOf(s.runs, f.key) == {} && Capacity(s.runs, a.name, g.max) && !Barred(s.defs, a)
    ensures Fire(w, s, f, now) ==
            Fires(AdmitFiring(PutTrigger(s, f.key, f.expected, f.next), f.key, a, f.rearm, f.next).s, Committed)
  {
    FirstChecked(w, s, f, g, a, now);
  }

  lemma FirstChecked(w: World, s: Store, f: Firing, g: Guard, a: Admission, now: int)
    requires f.refused.None? && f.admit == [a] && f.overlap == Some(g) && !f.ingested && g.max > 0
    requires f.next.Some? && f.busy.Some? && a.id !in s.runs
    requires LiveOf(s.runs, f.key) == {} && Capacity(s.runs, a.name, g.max) && !Barred(s.defs, a) && !s.stopped
    ensures FireChecked(w, s, f, now) ==
            Fires(AdmitFiring(PutTrigger(s, f.key, f.expected, f.next), f.key, a, f.rearm, f.next).s, Committed)
  {
    NoneSorted();
    var put := PutTrigger(s, f.key, f.expected, f.next);
    var t := AdmitFiring(put, f.key, a, f.rearm, f.next);
    assert f.admit[0] == a && f.admit[1..] == [];
    assert AdmitAll(t.s, f, []) == t;
    assert AdmitAll(put, f, f.admit) == t;
  }

  lemma RunIsBusy(w: World, s: Store, f: Firing, g: Guard, a: Admission, now: int)
    requires Unmarked(s) && f.admit == [] && f.refused.Some? && f.refused.value.admission == a && f.overlap == Some(g) && !f.ingested
    requires g.policy.Queue? && g.max > 0 && f.next.Some? && f.busy.Some? && Current(s.triggers, f.key) == f.expected && a.id !in s.runs
    requires LiveOf(s.runs, f.key) != {} && Capacity(s.runs, a.name, g.max) && f.key !in s.queue
    ensures Fire(w, s, f, now) == Fires(PutTrigger(Buffer(s, f.key, SlotOf(f, g, a)), f.key, f.expected, f.next), Buffered)
  {
  }

  // ── the re-armed trigger ──────────────────────────────────────────────────

  function RearmedHistory(): seq<Command> {
    [Saving("n", 1, Version("d", Inherit)),
     Activating("n", 1, None, map["k" := DORMANT]),
     Firing_(Replacing("a", DORMANT, Some(Rearm("k", 5))), 0),
     Firing_(Replacing("b", LATER, None), 10)]
  }

  function Store2(): Store {
    EMPTY.(triggers := map["k" := DORMANT], index := {TypeRow("t", "k")}, defs := map["n" := Active({"k"})])
  }

  function Store3(): Store {
    Store2().(runs := map["a" := Live_("a", Some("k"), Some((Rearm("k", 5), DORMANT)))], last := map["k" := "a"])
  }

  lemma RowsAre()
    ensures RowsOf("k", Some(DORMANT)) == {TypeRow("t", "k")} == RowsOf("k", Some(SKIPPED))
    ensures RowsOf("q", Some(DORMANT)) == {TypeRow("t", "q")}
    ensures RowsOf("k", Some(LATER)) == {TypeRow("t", "k"), DueRow(99, "k")}
    ensures RowsOf("k", Some(DORMANT.(at := Some(15)))) == {TypeRow("t", "k"), DueRow(15, "k")}
  {
  }

  /** A first activation arms its triggers and their rows. */
  lemma ActivatedIs(w: World, wanted: map<string, Trigger>, t: Store)
    requires t == EMPTY.(triggers := wanted, index := AllRows(wanted), defs := map["n" := Active(wanted.Keys)])
    ensures Step(w, Step(w, EMPTY, Saving("n", 1, Version("d", Inherit))), Activating("n", 1, None, wanted)) == t
  {
    var s := EMPTY.(defs := map["n" := Saved()]);
    assert Step(w, EMPTY, Saving("n", 1, Version("d", Inherit))) == s;
    assert AllRows(map[]) == {} && ArmedTriggers(map[], {}, wanted) == wanted;
    ArmNothing(s, wanted);
    assert s.triggers + wanted == wanted && s.paused - {"n"} == map[];
    assert s.defs["n" := Active(wanted.Keys)] == map["n" := Active(wanted.Keys)];
    assert Activate(s, "n", 1, None, wanted) == Ok(t);
  }

  lemma RowsOfOne()
    ensures AllRows(map["k" := DORMANT]) == {TypeRow("t", "k")}
  {
    RowsAre();
    forall r: IndexKey ensures r in AllRows(map["k" := DORMANT]) <==> r == TypeRow("t", "k") {
      AllRowsAt(map["k" := DORMANT], r);
    }
  }

  lemma Admitted(w: World)
    ensures Step(w, Store2(), Firing_(Replacing("a", DORMANT, Some(Rearm("k", 5))), 0)) == Store3()
  {
    RowsAre();
    var s, f, a := Store2(), Replacing("a", DORMANT, Some(Rearm("k", 5))), Run_("a");
    assert LiveOf(s.runs, "k") == {} && LiveNamed(s.runs, "n") == {};
    FirstSlot(w, s, f, Guard(Replace, 1, SKIPPED), a, 0);
    PutSame(s, "k", DORMANT);
  }

  lemma PutSame(s: Store, k: string, g: Trigger)
    requires k in s.triggers && s.triggers[k] == g
    ensures PutTrigger(s, k, Some(g), Some(g)) == s
  {
    assert s.triggers[k := g] == s.triggers;
  }

  /** One run of the trigger lives: it is cancelled before the slot is judged. */
  lemma OneReplaced(w: World, s: Store, f: Firing, g: Guard, a: Admission, now: int, x: Id, m: Store)
    requires Unmarked(s) && f.refused.None? && f.admit == [a] && f.overlap == Some(g) && !f.ingested && g.max > 0
    requires g.policy.Replace? && f.next.Some? && f.busy.Some? && Current(s.triggers, f.key) == f.expected && a.id !in s.runs
    requires LiveOf(s.runs, f.key) == {x} && Terminate(w, s, x, now) == Ok(m)
    ensures Fire(w, s, f, now) == FireSlot(m, f, g, a, true, now)
  {
    assert AsKeys({x}) == {(x, "")};
    OneSorted((x, ""));
    var ids := [(x, "")];
    assert ids[1..] == [];
    assert TerminateAll(w, m, [], now) == Ok(m);
    assert TerminateAll(w, s, ids, now) == Ok(m);
  }

  /** There is room once the run is cancelled: the slot is admitted. */
  lemma ThenAdmitted(s: Store, f: Firing, g: Guard, a: Admission, now: int)
    requires f.refused.None? && f.admit == [a] && g.policy.Replace? && Capacity(s.runs, a.name, g.max)
    requires a.id !in s.runs && !s.stopped && !Barred(s.defs, a)
    ensures FireSlot(s, f, g, a, true, now) ==
            Fires(AdmitFiring(PutTrigger(s, f.key, f.expected, f.next), f.key, a, f.rearm, f.next).s, Committed)
  {
    var put := PutTrigger(s, f.key, f.expected, f.next);
    var t := AdmitFiring(put, f.key, a, f.rearm, f.next);
    assert f.admit[0] == a && f.admit[1..] == [];
    assert AdmitAll(t.s, f, []) == t;
    assert AdmitAll(put, f, f.admit) == t;
  }

  lemma {:induction false} NothingBuffered(s: Store, names: seq<Key>, now: int)
    requires s.queueName == {}
    ensures DrainNames(s, names, now) == Ok(s)
    decreases |names|
  {
    if names != [] {
      var rows := QueueRows(s, names[0].0);
      assert rows == {};
      assert Sorted(rows) == [];
      NothingBuffered(s, names[1..], now);
    }
  }

  /** Cancelling a run that carries a rearm makes the dormant trigger due. */
  lemma CancelRearms(w: World, s: Store, x: Id, now: int, k: string, delay: int, armed: Trigger, m: Store)
    requires x in s.runs && s.runs[x].live && s.runs[x].rearm == Some((Rearm(k, delay), armed)) && s.queueName == {}
    requires Current(s.triggers, k) == Some(armed) && armed.at.None?
    requires m == PutTrigger(s.(runs := EndRuns(w, s.runs, x)), k, Some(armed), Some(armed.(at := Some(R.Later(now, delay)))))
    ensures Terminate(w, s, x, now) == Ok(m)
  {
    NothingBuffered(m, Sorted(AsKeys(EndedNames(w, s.runs, x))), now);
  }

  lemma DueRowStays(s: Store, k: string, armed: Trigger, at: int, next: Trigger, m: Store, put: Store)
    requires armed.at.None? && next.at != Some(at)
    requires m == PutTrigger(s, k, Some(armed), Some(armed.(at := Some(at)))) && put == PutTrigger(m, k, Some(armed), Some(next))
    ensures DueRow(at, k) in put.index && DueRow(at, k) !in RowsOf(k, Some(next)) && Current(put.triggers, k) == Some(next)
  {
  }

  /** A replacing firing after which its index holds a due row the trigger does not have. */
  lemma RearmLeavesRow(w: World, s: Store, f: Firing, g: Guard, a: Admission, now: int, x: Id, delay: int, armed: Trigger, next: Trigger)
    requires Unmarked(s) && f.refused.None? && f.admit == [a] && f.overlap == Some(g) && !f.ingested && g.max > 0 && g.policy.Replace?
    requires f.expected == Some(armed) && f.next == Some(next) && f.busy.Some? && Current(s.triggers, f.key) == Some(armed)
    requires a.id !in s.runs && !Barred(s.defs, a) && s.queueName == {} && LiveOf(s.runs, f.key) == {x}
    requires s.runs[x].rearm == Some((Rearm(f.key, delay), armed)) && armed.at.None? && next.at != Some(R.Later(now, delay))
    requires LiveNamed(EndRuns(w, s.runs, x), a.name) == {}
    ensures var t := Fire(w, s, f, now);
            t.Fires? && Current(t.s.triggers, f.key) == Some(next) && DueRow(R.Later(now, delay), f.key) in t.s.index && !ExactAt(t.s, f.key)
  {
    var at := R.Later(now, delay);
    var e := s.(runs := EndRuns(w, s.runs, x));
    var m := PutTrigger(e, f.key, Some(armed), Some(armed.(at := Some(at))));
    CancelRearms(w, s, x, now, f.key, delay, armed, m);
    OneReplaced(w, s, f, g, a, now, x, m);
    ThenAdmitted(m, f, g, a, now);
    var put := PutTrigger(m, f.key, Some(armed), Some(next));
    DueRowStays(e, f.key, armed, at, next, m, put);
    AdmitFrame(put, f.key, a, f.rearm, f.next, AdmitFiring(put, f.key, a, f.rearm, f.next).s);
  }

  lemma OneKey()
    ensures map["k" := DORMANT].Keys == {"k"}
  {
  }

  /** Two commands that arm these triggers. */
  lemma Arming(w: World, h: seq<Command>, wanted: map<string, Trigger>, t: Store)
    requires |h| > 2 && h[0] == Saving("n", 1, Version("d", Inherit)) && h[1] == Activating("n", 1, None, wanted)
    requires t == EMPTY.(triggers := wanted, index := AllRows(wanted), defs := map["n" := Active(wanted.Keys)])
    ensures After(w, h[..2]) == t
  {
    ActivatedIs(w, wanted, t);
    assert h[..0] == [];
    NextFrom(w, h, 0, EMPTY, Step(w, EMPTY, h[0]));
    NextFrom(w, h, 1, Step(w, EMPTY, h[0]), t);
  }

  lemma FirstThree(w: World, h: seq<Command>)
    requires |h| == 4 && h[0] == Saving("n", 1, Version("d", Inherit)) && h[1] == Activating("n", 1, None, map["k" := DORMANT])
    requires h[2] == Firing_(Replacing("a", DORMANT, Some(Rearm("k", 5))), 0)
    ensures After(w, h[..3]) == Store3()
  {
    RowsOfOne();
    OneKey();
    Arming(w, h, map["k" := DORMANT], Store2());
    Admitted(w);
    NextFrom(w, h, 2, Store2(), Store3());
  }

  lemma RearmedCallable()
    ensures AllCallable(Setting(), RearmedHistory())
  {
    var w := Setting();
    assert Callable(w, Firing_(Replacing("a", DORMANT, Some(Rearm("k", 5))), 0));
    assert Callable(w, Firing_(Replacing("b", LATER, None), 10));
    assert Callable(w, Activating("n", 1, None, map["k" := DORMANT]));
  }

  /** The cancelled run made the trigger due at 15; the firing stores it due at 99 and
      leaves the row of 15. */
  lemma StaleRowRemains()
    ensures AllCallable(Setting(), RearmedHistory())
    ensures var s := After(Setting(), RearmedHistory());
            && Current(s.triggers, "k") == Some(LATER) && DueRow(15, "k") in s.index
            && !ExactAt(s, "k")
  {
    var w, h := Setting(), RearmedHistory();
    RearmedCallable();
    FirstThree(w, h);
    LastOfFour(w, Store3());
    NextFrom(w, h, 3, Store3(), Step(w, Store3(), h[3]));
    assert h[..4] == h;
  }

  lemma LastOfFour(w: World, s: Store)
    requires w == Setting() && s == Store3()
    ensures var t := Step(w, s, Firing_(Replacing("b", LATER, None), 10));
            Current(t.triggers, "k") == Some(LATER) && DueRow(15, "k") in t.index && !ExactAt(t, "k")
  {
    assert LiveOf(s.runs, "k") == {"a"};
    assert LiveNamed(EndRuns(w, s.runs, "a"), "n") == {};
    assert R.Later(10, 5) == 15;
    RearmLeavesRow(w, s, Replacing("b", LATER, None), Guard(Replace, 1, SKIPPED), Run_("b"), 10, "a", 5, DORMANT, LATER);
  }

  lemma Next(w: World, h: seq<Command>, i: nat)
    requires i < |h|
    ensures After(w, h[..i + 1]) == Step(w, After(w, h[..i]), h[i])
  {
    assert h[..i + 1][..i] == h[..i];
  }

  lemma NextFrom(w: World, h: seq<Command>, i: nat, s: Store, t: Store)
    requires i < |h| && After(w, h[..i]) == s && Step(w, s, h[i]) == t
    ensures After(w, h[..i + 1]) == t
  {
    Next(w, h, i);
  }

  // ── the removed trigger ───────────────────────────────────────────────────

  lemma OneRowDrained(s: Store, name: string, k: string, now: int, t: Outcome)
    requires !s.stopped && QueueRows(s, name) == {(name, k)} && DrainOne(s, (name, k), now) == t
    ensures DrainNames(s, [(name, "")], now) == t
  {
    OneSorted((name, k));
    var rows, names := [(name, k)], [(name, "")];
    assert rows[1..] == [] && names[1..] == [];
    assert t.Ok? ==> DrainKeys(t.s, [], now) == t && DrainNames(t.s, [], now) == t;
    assert DrainKeys(s, rows, now) == t;
  }

  /** Ending one run of the definition gives its one buffered slot its turn. */
  lemma EndThenDrain(w: World, s: Store, x: Id, name: string, k: string, now: int, e: Store)
    requires !s.stopped && x in s.runs && s.runs[x].live && s.runs[x].rearm.None? && EndedNames(w, s.runs, x) == {name}
    requires QueueRows(s, name) == {(name, k)} && e == s.(runs := EndRuns(w, s.runs, x))
    ensures Terminate(w, s, x, now) == DrainOne(e, (name, k), now)
  {
    assert AsKeys({name}) == {(name, "")};
    OneSorted((name, ""));
    assert QueueRows(e, name) == {(name, k)};
    OneRowDrained(e, name, k, now, DrainOne(e, (name, k), now));
  }

  /** A refused slot's turn that trips its definition. */
  lemma RefusedTrips(e: Store, name: string, k: string, q: Slot, f: Fault, d: Definition, threshold: Count, now: int, m: Store)
    requires !e.stopped && k in e.queue && e.queue[k] == q && q.failure == Some(f) && k in e.triggers && q.admission.name == name
    requires LiveOf(e.runs, k) == {} && Capacity(e.runs, name, q.ceiling) && q.admission.id !in e.runs
    requires name in e.defs && e.defs[name] == d && d.tripped.None? && d.active == Some(q.admission.version)
    requires Effective(PolicyOf(d, q.admission.version), f.threshold) == Some(threshold) && Counted(d).faults >= threshold
    requires m == Tripped(Inserted(RemoveQueue(e, k), q.admission, None, None, false), q.admission, Counted(d), threshold, now)
    ensures DrainOne(e, (name, k), now) == Ok(m)
  {
    var a, r := q.admission, RemoveQueue(e, k);
    assert EpochOf(r.defs, a) == Some(d.epoch) && MayInsert(r, a);
    var i := Inserted(r, a, None, None, false);
    assert Observes(i, a, Some(d.epoch));
    assert Observe(i, a, Some(d.epoch), AFault, f.threshold, now) == m;
    assert Refuse(r, a, f, now) == Ok(m);
  }

  /** The trigger is gone when the firing stores the one that records the skip: the rows
      the two share are missing, and the tripped definition has its trigger back. */
  lemma SharedRowsLost(m: Store, k: string, armed: Trigger, full: Trigger, r: IndexKey, t: Store)
    requires k !in m.triggers && ExactAt(m, k) && t == PutTrigger(m, k, Some(armed), Some(full))
    requires r.key == k && r in RowsOf(k, Some(armed)) && r in RowsOf(k, Some(full))
    ensures k in t.triggers && r !in t.index && !ExactAt(t, k)
  {
    assert r in m.index <==> r in RowsOf(k, Current(m.triggers, k));
  }

  /** A replacing firing whose cancellation trips its definition and which then finds no
      room. */
  lemma TripLosesRow(w: World, s: Store, f: Firing, g: Guard, a: Admission, now: int, x: Id, m: Store, r: IndexKey)
    requires Unmarked(s) && f.refused.None? && f.admit == [a] && f.overlap == Some(g) && !f.ingested && g.max > 0 && g.policy.Replace?
    requires f.expected.Some? && f.next.Some? && f.busy.Some? && Current(s.triggers, f.key) == f.expected && a.id !in s.runs
    requires LiveOf(s.runs, f.key) == {x} && Terminate(w, s, x, now) == Ok(m) && !Capacity(m.runs, a.name, g.max)
    requires f.key !in m.triggers && ExactAt(s, f.key)
    requires r.key == f.key && r in RowsOf(f.key, f.expected) && r in RowsOf(f.key, Some(g.full))
    ensures var t := Fire(w, s, f, now);
            t.Fires? && t.s.defs == m.defs && f.key in t.s.triggers && r !in t.s.index && !ExactAt(t.s, f.key)
  {
    OneReplaced(w, s, f, g, a, now, x, m);
    TerminateTrig(w, s, x, now, m);
    assert ExactAt(m, f.key);
    SharedRowsLost(m, f.key, f.expected.value, g.full, r, PutTrigger(m, f.key, f.expected, Some(g.full)));
  }

  function TrippedHistory(): seq<Command> {
    [Saving("n", 1, Version("d", Inherit)),
     Activating("n", 1, None, Both()),
     Firing_(Replacing("a", DORMANT, None), 0),
     Firing_(Queueing("b"), 1),
     Firing_(QueueingRefused("c"), 2),
     Starting(Run_("x"), Root, 3),
     Starting(Run_("y"), Root, 4),
     Cancelling("b", 5),
     Firing_(Replacing("e", LATER, None), 6)]
  }

  function Both(): map<string, Trigger> {
    map["k" := DORMANT, "q" := DORMANT]
  }

  /** The store with these runs, and the refused slot buffered or not yet. */
  function Stage(runs: map<Id, Run>, buffered: bool, last: map<string, Id>): Store {
    EMPTY.(runs := runs, triggers := Both(), index := AllRows(Both()), defs := map["n" := Active({"k", "q"})], last := last,
           queue := if buffered then map["q" := Slot(Run_("c"), None, 3, Some(Fault("e", 1)))] else map[],
           queueName := if buffered then {("n", "q")} else {})
  }

  function Fired_(id: Id, k: string): Run {
    Live_(id, Some(k), None)
  }

  function Started(id: Id): Run {
    Live_(id, None, None)
  }

  lemma StagePut(runs: map<Id, Run>, buffered: bool, last: map<string, Id>, k: string)
    requires k in Both()
    ensures PutTrigger(Stage(runs, buffered, last), k, Some(DORMANT), Some(DORMANT)) == Stage(runs, buffered, last)
  {
    assert Both()[k := DORMANT] == Both();
  }

  /** A firing that finds nothing running, on a stage. */
  lemma StageFires(w: World, runs: map<Id, Run>, last: map<string, Id>, f: Firing, g: Guard, id: Id, now: int)
    requires f.refused.None? && f.admit == [Run_(id)] && f.overlap == Some(g) && !f.ingested && g.max > 0 && f.rearm.None?
    requires f.expected == Some(DORMANT) && f.next == Some(DORMANT) && f.busy.Some? && f.key in Both() && id !in runs
    requires LiveOf(runs, f.key) == {} && Capacity(runs, "n", g.max)
    ensures Step(w, Stage(runs, false, last), Firing_(f, now)) == Stage(runs[id := Fired_(id, f.key)], false, last[f.key := id])
  {
    var s := Stage(runs, false, last);
    FirstSlot(w, s, f, g, Run_(id), now);
    StagePut(runs, false, last, f.key);
  }

  lemma StageStarts(w: World, runs: map<Id, Run>, last: map<string, Id>, id: Id, now: int)
    requires id !in runs
    ensures Step(w, Stage(runs, true, last), Starting(Run_(id), Root, now)) == Stage(runs[id := Started(id)], true, last)
  {
  }

  lemma StageBuffers(w: World, runs: map<Id, Run>, last: map<string, Id>, now: int)
    requires "c" !in runs && LiveOf(runs, "q") != {} && Capacity(runs, "n", 3)
    ensures Step(w, Stage(runs, false, last), Firing_(QueueingRefused("c"), now)) == Stage(runs, true, last)
  {
    var s := Stage(runs, false, last);
    RunIsBusy(w, s, QueueingRefused("c"), Guard(Queue, 3, SKIPPED), Run_("c"), now);
    StagePut(runs, true, last, "q");
    assert Buffer(s, "q", SlotOf(QueueingRefused("c"), Guard(Queue, 3, SKIPPED), Run_("c"))) == Stage(runs, true, last);
  }

  lemma StageWaits(w: World, runs: map<Id, Run>, last: map<string, Id>, x: Id, now: int, ended: map<Id, Run>)
    requires x in runs && runs[x].live && runs[x].rearm.None? && EndedNames(w, runs, x) == {"n"} && ended == EndRuns(w, runs, x)
    requires !Capacity(ended, "n", 3)
    ensures Step(w, Stage(runs, true, last), Cancelling(x, now)) == Stage(ended, true, last)
  {
    var s, e := Stage(runs, true, last), Stage(ended, true, last);
    assert QueueRows(s, "n") == {("n", "q")};
    EndThenDrain(w, s, x, "n", "q", now, e);
  }

  function Runs3(): map<Id, Run> {
    map["a" := Fired_("a", "k")]
  }

  function Runs4(): map<Id, Run> {
    Runs3()["b" := Fired_("b", "q")]
  }

  function Runs7(): map<Id, Run> {
    Runs4()["x" := Started("x")]["y" := Started("y")]
  }

  function Runs8(): map<Id, Run> {
    Runs7()["b" := Fired_("b", "q").(live := false)]
  }

  function Last4(): map<string, Id> {
    map["k" := "a", "q" := "b"]
  }

  lemma BothKeys()
    ensures Both().Keys == {"k", "q"} && Both() - {"k", "q"} == map[]
  {
  }

  lemma ToRuns3(w: World, h: seq<Command>)
    requires |h| == 9 && h[0] == Saving("n", 1, Version("d", Inherit)) && h[1] == Activating("n", 1, None, Both())
    requires h[2] == Firing_(Replacing("a", DORMANT, None), 0)
    ensures After(w, h[..3]) == Stage(Runs3(), false, map["k" := "a"])
  {
    BothKeys();
    Arming(w, h, Both(), Stage(map[], false, map[]));
    assert LiveOf(map[], "k") == {} && LiveNamed(map[], "n") == {};
    StageFires(w, map[], map[], Replacing("a", DORMANT, None), Guard(Replace, 1, SKIPPED), "a", 0);
    NextFrom(w, h, 2, Stage(map[], false, map[]), Stage(Runs3(), false, map["k" := "a"]));
  }

  lemma ToRuns4(w: World, h: seq<Command>)
    requires |h| == 9 && After(w, h[..3]) == Stage(Runs3(), false, map["k" := "a"]) && h[3] == Firing_(Queueing("b"), 1)
    ensures After(w, h[..4]) == Stage(Runs4(), false, Last4())
  {
    assert LiveOf(Runs3(), "q") == {} && LiveNamed(Runs3(), "n") == {"a"};
    StageFires(w, Runs3(), map["k" := "a"], Queueing("b"), Guard(Queue, 3, SKIPPED), "b", 1);
    NextFrom(w, h, 3, Stage(Runs3(), false, map["k" := "a"]), Stage(Runs4(), false, Last4()));
  }

  lemma ToBuffered(w: World, h: seq<Command>)
    requires |h| == 9 && After(w, h[..4]) == Stage(Runs4(), false, Last4()) && h[4] == Firing_(QueueingRefused("c"), 2)
    ensures After(w, h[..5]) == Stage(Runs4(), true, Last4())
  {
    assert "b" in LiveOf(Runs4(), "q") && LiveNamed(Runs4(), "n") == {"a", "b"};
    StageBuffers(w, Runs4(), Last4(), 2);
    NextFrom(w, h, 4, Stage(Runs4(), false, Last4()), Stage(Runs4(), true, Last4()));
  }

  lemma ToRuns7(w: World, h: seq<Command>)
    requires |h| == 9 && After(w, h[..4]) == Stage(Runs4(), false, Last4()) && h[4] == Firing_(QueueingRefused("c"), 2)
    requires h[5] == Starting(Run_("x"), Root, 3) && h[6] == Starting(Run_("y"), Root, 4)
    ensures After(w, h[..7]) == Stage(Runs7(), true, Last4())
  {
    ToBuffered(w, h);
    var r6 := Runs4()["x" := Started("x")];
    StageStarts(w, Runs4(), Last4(), "x", 3);
    NextFrom(w, h, 5, Stage(Runs4(), true, Last4()), Stage(r6, true, Last4()));
    StageStarts(w, r6, Last4(), "y", 4);
    NextFrom(w, h, 6, Stage(r6, true, Last4()), Stage(Runs7(), true, Last4()));
  }

  /** Where no run is below another, one run ends alone. */
  lemma EndsAlone(w: World, runs: map<Id, Run>, x: Id)
    requires (forall y, z :: !w.below(y, z)) && x in runs && runs[x].live && runs[x].admission.name == "n"
    ensures EndRuns(w, runs, x) == runs[x := runs[x].(live := false)] && EndedNames(w, runs, x) == {"n"}
  {
    assert forall y :: EndsWith(w, runs, y, x) <==> y == x;
    assert "n" in EndedNames(w, runs, x);
  }

  lemma Runs7Facts(runs: map<Id, Run>)
    requires runs == Runs7()
    ensures "b" in runs && runs["b"].live && runs["b"].admission.name == "n" && runs["b"].rearm.None?
    ensures runs["b" := runs["b"].(live := false)] == Runs8() && !Capacity(Runs8(), "n", 3)
  {
    assert LiveNamed(Runs8(), "n") == {"a", "x", "y"};
  }

  lemma ToRuns8(w: World, h: seq<Command>)
    requires |h| == 9 && After(w, h[..7]) == Stage(Runs7(), true, Last4()) && h[7] == Cancelling("b", 5)
    requires forall y, z :: !w.below(y, z)
    ensures After(w, h[..8]) == Stage(Runs8(), true, Last4())
  {
    Runs7Facts(Runs7());
    EndsAlone(w, Runs7(), "b");
    StageWaits(w, Runs7(), Last4(), "b", 5, Runs8());
    NextFrom(w, h, 7, Stage(Runs7(), true, Last4()), Stage(Runs8(), true, Last4()));
  }

  function Runs9(): map<Id, Run> {
    Runs8()["a" := Fired_("a", "k").(live := false)]
  }

  function Refused_(): Slot {
    Slot(Run_("c"), None, 3, Some(Fault("e", 1)))
  }

  /** The store once the refused slot's fault tripped the definition. */
  function Store9(s: Store): Store {
    Tripped(Inserted(RemoveQueue(s.(runs := Runs9()), "q"), Run_("c"), None, None, false), Run_("c"), Counted(Active({"k", "q"})), 1, 6)
  }

  lemma ActiveFacts(d: Definition)
    requires d == Active({"k", "q"})
    ensures d.tripped.None? && d.active == Some(1) && Effective(PolicyOf(d, 1), 1) == Some(1) && Counted(d).faults == 1
  {
  }

  lemma Runs8Facts(runs: map<Id, Run>)
    requires runs == Runs8()
    ensures "a" in runs && runs["a"].live && runs["a"].admission.name == "n" && runs["a"].rearm.None? && "c" !in runs && "e" !in runs
    ensures LiveOf(runs, "k") == {"a"} && runs["a" := runs["a"].(live := false)] == Runs9()
  {
  }

  lemma Runs9Facts(runs: map<Id, Run>)
    requires runs == Runs9()
    ensures LiveOf(runs, "q") == {} && LiveNamed(runs, "n") == {"x", "y"} && "c" !in runs
  {
  }

  /** A stage's slot has its turn after the end of a run. */
  lemma StageDrains(w: World, s: Store, runs: map<Id, Run>, last: map<string, Id>, x: Id, now: int, e: Store)
    requires s == Stage(runs, true, last) && x in runs && runs[x].live && runs[x].rearm.None? && EndedNames(w, runs, x) == {"n"}
    requires e == s.(runs := EndRuns(w, runs, x))
    ensures Terminate(w, s, x, now) == DrainOne(e, ("n", "q"), now)
  {
    assert QueueRows(s, "n") == {("n", "q")};
    EndThenDrain(w, s, x, "n", "q", now, e);
  }

  lemma StageTrips(s: Store, runs: map<Id, Run>, ended: map<Id, Run>, last: map<string, Id>, d: Definition, now: int, e: Store)
    requires s == Stage(runs, true, last) && e == s.(runs := ended) && d == Active({"k", "q"})
    requires LiveOf(ended, "q") == {} && Capacity(ended, "n", 3) && "c" !in ended
    ensures DrainOne(e, ("n", "q"), now) == Ok(Tripped(Inserted(RemoveQueue(e, "q"), Run_("c"), None, None, false), Run_("c"), Counted(d), 1, now))
  {
    ActiveFacts(d);
    RefusedTrips(e, "n", "q", Refused_(), Fault("e", 1), d, 1, now,
                 Tripped(Inserted(RemoveQueue(e, "q"), Run_("c"), None, None, false), Run_("c"), Counted(d), 1, now));
  }

  /** Cancelling `a` makes room for the refused slot, whose fault trips `n`. */
  lemma CancelTrips(w: World, s: Store, runs: map<Id, Run>)
    requires (forall y, z :: !w.below(y, z)) && runs == Runs8() && s == Stage(runs, true, Last4())
    ensures Terminate(w, s, "a", 6) == Ok(Store9(s))
  {
    Runs8Facts(runs);
    EndsAlone(w, runs, "a");
    var e := s.(runs := EndRuns(w, runs, "a"));
    StageDrains(w, s, runs, Last4(), "a", 6, e);
    Runs9Facts(EndRuns(w, runs, "a"));
    StageTrips(s, runs, EndRuns(w, runs, "a"), Last4(), Active({"k", "q"}), 6, e);
  }

  lemma AfterTrip(s: Store, m: Store)
    requires s == Stage(Runs8(), true, Last4()) && m == Store9(s)
    ensures Broken(m.defs, "n") && m.triggers == map[] && LiveNamed(m.runs, "n") == {"x", "y"}
  {
    BothKeys();
    assert m.triggers == ArmedTriggers(Both(), {"k", "q"}, map[]);
    assert m.runs == Runs9()["c" := m.runs["c"]] && !m.runs["c"].live;
  }

  lemma StageExact(runs: map<Id, Run>, buffered: bool, last: map<string, Id>)
    ensures ExactAt(Stage(runs, buffered, last), "k")
  {
    ExactIsAll(Stage(runs, buffered, last));
  }

  lemma StageShape(s: Store, runs: map<Id, Run>, last: map<string, Id>)
    requires s == Stage(runs, true, last)
    ensures Unmarked(s) && Current(s.triggers, "k") == Some(DORMANT) && s.runs == runs
  {
  }

  lemma LastOfNine(w: World, s: Store, runs: map<Id, Run>)
    requires (forall y, z :: !w.below(y, z)) && runs == Runs8() && s == Stage(runs, true, Last4())
    ensures var t := Step(w, s, Firing_(Replacing("e", LATER, None), 6));
            Broken(t.defs, "n") && "k" in t.triggers && TypeRow("t", "k") !in t.index && !ExactAt(t, "k")
  {
    var m := Store9(s);
    CancelTrips(w, s, runs);
    AfterTrip(s, m);
    Runs8Facts(runs);
    StageShape(s, runs, Last4());
    StageExact(runs, true, Last4());
    RowsAre();
    ReplacingLoses(w, s, "a", m, Replacing("e", LATER, None));
  }

  lemma ReplacingLoses(w: World, s: Store, x: Id, m: Store, f: Firing)
    requires Unmarked(s) && f == Replacing("e", LATER, None) && Current(s.triggers, "k") == Some(DORMANT) && "e" !in s.runs
    requires LiveOf(s.runs, "k") == {x} && Terminate(w, s, x, 6) == Ok(m) && LiveNamed(m.runs, "n") == {"x", "y"}
    requires "k" !in m.triggers && ExactAt(s, "k") && Broken(m.defs, "n")
    ensures var t := Step(w, s, Firing_(f, 6));
            Broken(t.defs, "n") && "k" in t.triggers && TypeRow("t", "k") !in t.index && !ExactAt(t, "k")
  {
    RowsAre();
    TripLosesRow(w, s, f, Guard(Replace, 1, SKIPPED), Run_("e"), 6, x, m, TypeRow("t", "k"));
  }

  lemma NineSteps(w: World, h: seq<Command>)
    requires (forall y, z :: !w.below(y, z)) && |h| == 9
    requires h[0] == Saving("n", 1, Version("d", Inherit)) && h[1] == Activating("n", 1, None, Both())
    requires h[2] == Firing_(Replacing("a", DORMANT, None), 0) && h[3] == Firing_(Queueing("b"), 1)
    requires h[4] == Firing_(QueueingRefused("c"), 2) && h[5] == Starting(Run_("x"), Root, 3)
    requires h[6] == Starting(Run_("y"), Root, 4) && h[7] == Cancelling("b", 5) && h[8] == Firing_(Replacing("e", LATER, None), 6)
    ensures var s := After(w, h);
            Broken(s.defs, "n") && "k" in s.triggers && TypeRow("t", "k") !in s.index && !ExactAt(s, "k")
  {
    ToRuns3(w, h);
    ToRuns4(w, h);
    ToRuns7(w, h);
    ToRuns8(w, h);
    var s := Stage(Runs8(), true, Last4());
    LastOfNine(w, s, Runs8());
    NextFrom(w, h, 8, s, Step(w, s, h[8]));
    assert h[..9] == h;
  }

  lemma TrippedCallable()
    ensures AllCallable(Setting(), TrippedHistory())
  {
    var w := Setting();
    assert Callable(w, Firing_(Replacing("a", DORMANT, None), 0)) && Callable(w, Firing_(Replacing("e", LATER, None), 6));
    assert Callable(w, Firing_(Queueing("b"), 1)) && Callable(w, Firing_(QueueingRefused("c"), 2));
    assert Callable(w, Activating("n", 1, None, Both()));
  }

  /** The definition is tripped, its replacing trigger is stored all the same, and the row
      the old and the stored trigger share is missing. */
  lemma TriggerOutlivesTrip()
    ensures AllCallable(Setting(), TrippedHistory())
    ensures var s := After(Setting(), TrippedHistory());
            Broken(s.defs, "n") && "k" in s.triggers && TypeRow("t", "k") !in s.index && !ExactAt(s, "k")
  {
    var w, h := Setting(), TrippedHistory();
    TrippedCallable();
    NineSteps(w, h);
  }
}

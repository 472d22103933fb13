/**
 Triggers, their buffered slots and the catalog: how a firing admits, buffers or skips
 a slot, when a buffered slot is promoted, and how a definition is activated, tripped,
 paused and resumed.
 */
module Schedule {
  import opened Options
  import opened Order
  import R = Runs

  type Id = R.Id
  type Admission = R.Admission

  // ── rows ──────────────────────────────────────────────────────────────────

  const MAX_COUNT := 0xffff_ffff
  type Count = n: nat | n <= MAX_COUNT

  datatype Overlap = Skip | Allow | Queue | Replace
  datatype Breaker = Inherit | Off | Threshold(n: Count)

  datatype Trigger = Trigger(at: Option<int>, types: seq<string>, state: string)
  datatype Rearm = Rearm(trigger: string, delay: int)

  /** A row of the due index or of a type's index. */
  datatype IndexKey = DueRow(at: int, key: string) | TypeRow(type_: string, key: string)

  datatype Version = Version(digest: string, breaker: Breaker)
  datatype Trip = Trip(
    manual: Option<string>, breaker: bool, version: nat, digest: string, epoch: nat, faults: Count, threshold: Count, run: Id, at: int)
  datatype Definition = Definition(
    versions: map<nat, Version>, active: Option<nat>, faults: Count, epoch: nat, tripped: Option<Trip>, triggers: set<string>)

  /** A refused run's fault and the host's default threshold. */
  datatype Fault = Fault(error: string, threshold: Count)
  datatype Slot = Slot(admission: Admission, rearm: Option<Rearm>, ceiling: nat, failure: Option<Fault>)
  datatype Paused = Paused(epoch: nat, triggers: map<string, Trigger>, queues: map<string, Slot>)

  /** A run, as far as scheduling reads it. `rearm` keeps the trigger its firing stored. */
  datatype Run = Run(
    admission: Admission, digest: string, epoch: Option<nat>, trigger: Option<string>, rearm: Option<(Rearm, Trigger)>, live: bool)

  datatype Notice = Notice(at: int, name: string, epoch: nat)

  /** `queueName` holds a row per buffered slot under its definition, `drain` the
      definitions whose drain a stop deferred, `last` the run a trigger admitted last. */
  datatype Store = Store(
    runs: map<Id, Run>, queue: map<string, Slot>, queueName: set<Key>, triggers: map<string, Trigger>, index: set<IndexKey>,
    defs: map<string, Definition>, paused: map<string, Paused>, drain: set<string>, stopped: bool,
    notices: map<Notice, Trip>, last: map<string, Id>)

  datatype Outcome = Ok(s: Store) | Err

  /** What does not change: who owns a trigger key, its policy and ceiling, which runs are
      below which, and whether firings are only of stored triggers (`armed`). */
  datatype World = World(owner: string -> string, policy: string -> Overlap, ceiling: string -> nat, below: (Id, Id) -> bool, armed: bool)

  const EMPTY := Store(map[], map[], {}, map[], {}, map[], map[], {}, false, map[], map[])
  const NO_DEFINITION := Definition(map[], None, 0, 0, None, {})

  // ── live runs ─────────────────────────────────────────────────────────────

  function LiveOf(runs: map<Id, Run>, k: string): set<Id> {
    set x | x in runs && runs[x].live && runs[x].trigger == Some(k)
  }

  function LiveNamed(runs: map<Id, Run>, name: string): set<Id> {
    set x | x in runs && runs[x].live && runs[x].admission.name == name
  }

  predicate Capacity(runs: map<Id, Run>, name: string, max: nat) {
    |LiveNamed(runs, name)| < max
  }

  // ── admission ─────────────────────────────────────────────────────────────

  function DigestOf(defs: map<string, Definition>, a: Admission): string {
    if a.name in defs && a.version in defs[a.name].versions then defs[a.name].versions[a.version].digest else ""
  }

  /** A standing trip refuses: a pause everything, an automatic one its digest and any
      version the catalog lacks. */
  predicate Barred(defs: map<string, Definition>, a: Admission) {
    && a.name in defs && defs[a.name].tripped.Some?
    && var trip := defs[a.name].tripped.value;
       trip.manual.Some? || DigestOf(defs, a) == "" || DigestOf(defs, a) == trip.digest
  }

  function EpochOf(defs: map<string, Definition>, a: Admission): Option<nat> {
    if a.name in defs && defs[a.name].active == Some(a.version) then Some(defs[a.name].epoch) else None
  }

  /** A root joins a stored run it agrees with; a child, the run of its own invocation
      if the definition is the same. */
  datatype Kind = Root | Child(linked: bool)

  predicate Joins(s: Store, a: Admission, kind: Kind)
    requires a.id in s.runs
  {
    R.Mismatch(s.runs[a.id].admission, a, kind.Child?).None? && (kind.Child? ==> kind.linked)
  }

  predicate MayInsert(s: Store, a: Admission) {
    a.id !in s.runs && !s.stopped && !Barred(s.defs, a)
  }

  function Inserted(s: Store, a: Admission, trigger: Option<string>, rearm: Option<(Rearm, Trigger)>, live: bool): Store {
    s.(runs := s.runs[a.id := Run(a, DigestOf(s.defs, a), EpochOf(s.defs, a), trigger, rearm, live)])
  }

  /** Admits a run, or joins the stored one. */
  function Insert(s: Store, a: Admission, kind: Kind, trigger: Option<string>, rearm: Option<(Rearm, Trigger)>): Outcome {
    if a.id in s.runs then (if Joins(s, a, kind) then Ok(s) else Err)
    else if MayInsert(s, a) then Ok(Inserted(s, a, trigger, rearm, true))
    else Err
  }

  function AdmitFiring(s: Store, k: string, a: Admission, rearm: Option<Rearm>, next: Option<Trigger>): Outcome {
    var attached := if rearm.Some? && next.Some? then Some((rearm.value, next.value)) else None;
    match Insert(s, a, Root, Some(k), attached)
    case Ok(t) => Ok(t.(last := t.last[k := a.id]))
    case Err => Err
  }

  // ── queues and triggers ───────────────────────────────────────────────────

  function RowsOf(k: string, t: Option<Trigger>): set<IndexKey> {
    if t.None? then {}
    else (if t.value.at.Some? then {DueRow(t.value.at.value, k)} else {}) + set ty | ty in t.value.types :: TypeRow(ty, k)
  }

  function AllRows(triggers: map<string, Trigger>): set<IndexKey> {
    set k, r | k in triggers && r in RowsOf(k, Some(triggers[k])) :: r
  }

  function Current(triggers: map<string, Trigger>, k: string): Option<Trigger> {
    if k in triggers then Some(triggers[k]) else None
  }

  function StoredIndex(index: set<IndexKey>, k: string, before: Option<Trigger>, after: Option<Trigger>): set<IndexKey> {
    (index - (RowsOf(k, before) - RowsOf(k, after))) + (RowsOf(k, after) - RowsOf(k, before))
  }

  function StoredTriggers(triggers: map<string, Trigger>, k: string, before: Option<Trigger>, after: Option<Trigger>): map<string, Trigger> {
    if after.Some? then triggers[k := after.value]
    else if before.Some? then triggers - {k}
    else triggers
  }

  /** Stores a trigger, moving its index rows from those of the trigger it is told was
      stored. */
  function PutTrigger(s: Store, k: string, before: Option<Trigger>, after: Option<Trigger>): Store {
    s.(triggers := StoredTriggers(s.triggers, k, before, after), index := StoredIndex(s.index, k, before, after))
  }

  function RemoveQueue(s: Store, k: string): Store {
    if k in s.queue then s.(queue := s.queue - {k}, queueName := s.queueName - {(s.queue[k].admission.name, k)}) else s
  }

  function Buffer(s: Store, k: string, q: Slot): Store {
    s.(queue := s.queue[k := q], queueName := s.queueName + {(q.admission.name, k)})
  }

  function ArmedTriggers(triggers: map<string, Trigger>, owned: set<string>, wanted: map<string, Trigger>): map<string, Trigger> {
    (triggers - (owned - wanted.Keys)) + wanted
  }

  function ArmedIndex(index: set<IndexKey>, before: map<string, Trigger>, after: map<string, Trigger>): set<IndexKey> {
    (index - (AllRows(before) - AllRows(after))) + (AllRows(after) - AllRows(before))
  }

  /** Replaces the triggers a definition owns, each read before it is stored, and drops
      its buffered slots. */
  function Arm(s: Store, owned: set<string>, wanted: map<string, Trigger>): Store {
    var triggers := ArmedTriggers(s.triggers, owned, wanted);
    s.(queue := s.queue - owned,
       queueName := s.queueName - (set k | k in owned && k in s.queue :: (s.queue[k].admission.name, k)),
       triggers := triggers,
       index := ArmedIndex(s.index, s.triggers, triggers))
  }

  // ── the breaker ───────────────────────────────────────────────────────────

  function Max(a: Count, b: Count): Count {
    if a < b then b else a
  }

  /** The consecutive faults that trip; none: never. */
  function Effective(b: Breaker, default_: Count): Option<Count> {
    match b
    case Inherit => Some(Max(default_, 1))
    case Off => None
    case Threshold(n) => Some(Max(n, 1))
  }

  function Counted(d: Definition): Definition {
    d.(faults := if d.faults < MAX_COUNT then d.faults + 1 else MAX_COUNT)
  }

  function PolicyOf(d: Definition, version: nat): Breaker {
    if version in d.versions then d.versions[version].breaker else Inherit
  }

  function TripOf(d: Definition, run: Admission, threshold: Count, now: int): Trip {
    Trip(None, true, run.version, if run.version in d.versions then d.versions[run.version].digest else "",
         d.epoch, d.faults, threshold, run.id, now)
  }

  /** A trip disarms the definition and stores its notice in the same commit. */
  function Tripped(s: Store, run: Admission, d: Definition, threshold: Count, now: int): Store {
    var trip := TripOf(d, run, threshold, now);
    var armed := Arm(s, d.triggers, map[]);
    armed.(defs := s.defs[run.name := d.(triggers := {}, tripped := Some(trip))],
           notices := s.notices[Notice(now, run.name, trip.epoch) := trip])
  }

  datatype Seen = AFault | ASuccess | Neither

  predicate Observes(s: Store, run: Admission, epoch: Option<nat>) {
    && run.name in s.defs
    && var d := s.defs[run.name];
       d.active == Some(run.version) && epoch == Some(d.epoch) && d.tripped.None?
  }

  /** A terminal outcome's observation: only a run admitted in the current epoch of the
      active version counts, and only while nothing has tripped. */
  function Observe(s: Store, run: Admission, epoch: Option<nat>, seen: Seen, default_: Count, now: int): Store {
    if !Observes(s, run, epoch) then s
    else
      var d := s.defs[run.name];
      match seen
      case Neither => s
      case ASuccess => if d.faults > 0 then s.(defs := s.defs[run.name := d.(faults := 0)]) else s
      case AFault =>
        var c := Counted(d);
        var threshold := Effective(PolicyOf(d, run.version), default_);
        if threshold.Some? && c.faults >= threshold.value then Tripped(s, run, c, threshold.value, now)
        else s.(defs := s.defs[run.name := c])
  }

  /** A refused run is stored as ended by its fault, which the breaker observes. */
  function Refuse(s: Store, a: Admission, f: Fault, now: int): Outcome {
    if a.id in s.runs then (if Joins(s, a, Root) then Ok(s) else Err)
    else if MayInsert(s, a) then
      Ok(Observe(Inserted(s, a, None, None, false), a, EpochOf(s.defs, a), AFault, f.threshold, now))
    else Err
  }

  // ── promotion ─────────────────────────────────────────────────────────────

  /** Promotes the buffered slot of `k` unless a run of the trigger lives or the
      definition is full. */
  function DrainOne(s: Store, row: Key, now: int): Outcome {
    var k := row.1;
    // An earlier promotion may have disarmed the definition.
    if k !in s.queue then (if row in s.queueName then Err else Ok(s))
    else
      var q := s.queue[k];
      if LiveOf(s.runs, k) != {} || !Capacity(s.runs, q.admission.name, q.ceiling) then Ok(s)
      else if k !in s.triggers then Err
      else if q.failure.Some? then Refuse(RemoveQueue(s, k), q.admission, q.failure.value, now)
      else AdmitFiring(RemoveQueue(s, k), k, q.admission, q.rearm, Some(s.triggers[k]))
  }

  function DrainKeys(s: Store, keys: seq<Key>, now: int): Outcome
    decreases |keys|
  {
    if keys == [] then Ok(s)
    else
      match DrainOne(s, keys[0], now)
      case Ok(t) => DrainKeys(t, keys[1..], now)
      case Err => Err
  }

  function QueueRows(s: Store, name: string): set<Key> {
    set r | r in s.queueName && r.0 == name
  }

  /** Promotes what it can of a definition's slots; while the store is stopped it marks
      the definition instead. */
  function Drain(s: Store, name: string, now: int): Outcome {
    if s.stopped then Ok(if QueueRows(s, name) == {} then s else s.(drain := s.drain + {name}))
    else DrainKeys(s, Sorted(QueueRows(s, name)), now)
  }

  function DrainNames(s: Store, names: seq<Key>, now: int): Outcome
    decreases |names|
  {
    if names == [] then Ok(s)
    else
      match Drain(s, names[0].0, now)
      case Ok(t) => DrainNames(t, names[1..], now)
      case Err => Err
  }

  /** Makes up for a deferred drain, ahead of a new admission. */
  function DrainMarked(s: Store, name: string, now: int): Outcome {
    if name in s.drain && !s.stopped then Drain(s.(drain := s.drain - {name}), name, now) else Ok(s)
  }

  function DrainMarks(s: Store, names: seq<Key>, now: int): Outcome
    decreases |names|
  {
    if names == [] then Ok(s)
    else
      match Drain(s.(drain := s.drain - {names[0].0}), names[0].0, now)
      case Ok(t) => DrainMarks(t, names[1..], now)
      case Err => Err
  }

  function AsKeys(names: set<string>): set<Key> {
    set n | n in names :: (n, "")
  }

  /** Drains at most `limit` marked definitions, in name order. */
  function DrainPending(s: Store, limit: nat, now: int): Outcome {
    var names := Sorted(AsKeys(s.drain));
    DrainMarks(s, if |names| <= limit then names else names[..limit], now)
  }

  // ── the end of runs ───────────────────────────────────────────────────────

  predicate EndsWith(w: World, runs: map<Id, Run>, x: Id, id: Id) {
    x in runs && runs[x].live && (x == id || w.below(x, id))
  }

  function EndRuns(w: World, runs: map<Id, Run>, id: Id): map<Id, Run> {
    map x | x in runs :: if EndsWith(w, runs, x, id) then runs[x].(live := false) else runs[x]
  }

  function EndedNames(w: World, runs: map<Id, Run>, id: Id): set<string> {
    set x | x in runs && EndsWith(w, runs, x, id) :: runs[x].admission.name
  }

  /** Re-arms the trigger a run's firing stored, if it is still that one and not due. */
  function Rearmed(s: Store, r: Run, now: int): Store {
    if r.rearm.None? then s else RearmedBy(s, r.rearm.value.0, r.rearm.value.1, now)
  }

  function RearmedBy(s: Store, rearm: Rearm, armed: Trigger, now: int): Store {
    if Current(s.triggers, rearm.trigger) == Some(armed) && armed.at.None? then
      PutTrigger(s, rearm.trigger, Some(armed), Some(armed.(at := Some(R.Later(now, rearm.delay)))))
    else s
  }

  /** A run ends with everything below it, and the definitions of what ended drain. */
  function Terminate(w: World, s: Store, id: Id, now: int): Outcome {
    if id !in s.runs || !s.runs[id].live then Ok(s)
    else
      DrainNames(Rearmed(s.(runs := EndRuns(w, s.runs, id)), s.runs[id], now), Sorted(AsKeys(EndedNames(w, s.runs, id))), now)
  }

  function TerminateAll(w: World, s: Store, ids: seq<Key>, now: int): Outcome
    decreases |ids|
  {
    if ids == [] then Ok(s)
    else
      match Terminate(w, s, ids[0].0, now)
      case Ok(t) => TerminateAll(w, t, ids[1..], now)
      case Err => Err
  }

  // ── firing ────────────────────────────────────────────────────────────────

  datatype Guard = Guard(policy: Overlap, max: nat, full: Trigger)
  datatype Refusal = Refusal(admission: Admission, fault: Fault)

  /** `ingested`: a trigger already took the event this firing consumes. */
  datatype Firing = Firing(
    key: string, expected: Option<Trigger>, next: Option<Trigger>, busy: Option<Trigger>, admit: seq<Admission>,
    refused: Option<Refusal>, rearm: Option<Rearm>, ingested: bool, overlap: Option<Guard>)

  datatype Fired = Committed | Changed | Busy | Ingested | Buffered | Full | Turned
  datatype FireOutcome = Fires(s: Store, fired: Fired) | Fails

  function Candidate(f: Firing): Option<Admission> {
    if f.admit != [] then Some(f.admit[0]) else if f.refused.Some? then Some(f.refused.value.admission) else None
  }

  function AdmitAll(s: Store, f: Firing, admit: seq<Admission>): Outcome
    decreases |admit|
  {
    if admit == [] then Ok(s)
    else
      match AdmitFiring(s, f.key, admit[0], f.rearm, f.next)
      case Ok(t) => AdmitAll(t, f, admit[1..])
      case Err => Err
  }

  /** Stores the next trigger and admits, or records the refusal of, the slot. */
  function Commit(s: Store, f: Firing, now: int): FireOutcome {
    match AdmitAll(PutTrigger(s, f.key, f.expected, f.next), f, f.admit)
    case Err => Fails
    case Ok(t) =>
      if f.refused.None? then Fires(t, Committed)
      else
        match RefuseFiring(t, f.key, f.refused.value, now)
        case Err => Fails
        case Ok(u) => Fires(u, Committed)
  }

  function RefuseFiring(s: Store, k: string, r: Refusal, now: int): Outcome {
    match Refuse(s, r.admission, r.fault, now)
    case Err => Err
    case Ok(t) => Ok(t.(last := t.last[k := r.admission.id]))
  }

  function SlotOf(f: Firing, g: Guard, a: Admission): Slot {
    Slot(a, f.rearm, g.max, if f.refused.Some? then Some(f.refused.value.fault) else None)
  }

  /** A new slot under an overlap policy, after any replaced runs were cancelled. */
  function FireSlot(s: Store, f: Firing, g: Guard, a: Admission, busy: bool, now: int): FireOutcome {
    if !Capacity(s.runs, a.name, g.max) then Fires(PutTrigger(s, f.key, f.expected, Some(g.full)), Full)
    else if busy && (g.policy.Skip? || g.policy.Queue?) then
      if g.policy.Queue? && f.key !in s.queue then
        Fires(PutTrigger(Buffer(s, f.key, SlotOf(f, g, a)), f.key, f.expected, f.next), Buffered)
      else Fires(PutTrigger(s, f.key, f.expected, f.busy), Busy)
    else Commit(s, f, now)
  }

  function FireChecked(w: World, s: Store, f: Firing, now: int): FireOutcome {
    if f.ingested then Fires(s, Ingested)
    else
      var a := Candidate(f);
      if f.overlap.Some? && a.Some? then
        var g := f.overlap.value;
        if |f.admit| > 1 || g.max == 0 || f.next.None? || f.busy.None? then Fails
        else if a.value.id in s.runs then Commit(s, f, now)
        else
          var live := LiveOf(s.runs, f.key);
          match (if g.policy.Replace? then TerminateAll(w, s, Sorted(AsKeys(live)), now) else Ok(s))
          case Err => Fails
          case Ok(t) => FireSlot(t, f, g, a.value, live != {}, now)
      else if f.busy.Some? && a.Some? && f.key in s.last && s.last[f.key] in s.runs && s.runs[s.last[f.key]].live then
        Fires(PutTrigger(s, f.key, f.expected, f.busy), Busy)
      else Commit(s, f, now)
  }

  predicate Turns(s: Store, a: Admission) {
    a.id !in s.runs && Barred(s.defs, a)
  }

  /** Moves a trigger on from the one the scheduler read; waiting slots have priority. */
  function Fire(w: World, s: Store, f: Firing, now: int): FireOutcome {
    if s.stopped then Fires(s, Changed)
    else if f.refused.Some? && f.admit != [] then Fails
    else
      var a := Candidate(f);
      var drained := a.Some? && a.value.name in s.drain;
      match (if a.Some? then DrainMarked(s, a.value.name, now) else Ok(s))
      case Err => Fails
      case Ok(t) =>
        if Current(t.triggers, f.key) != f.expected then Fires(t, Changed)
        else if drained && (Turns(t, a.value) || exists b | b in f.admit :: Turns(t, b)) then Fires(t, Turned)
        else FireChecked(w, t, f, now)
  }

  // ── the catalog ───────────────────────────────────────────────────────────

  function DefinitionOf(s: Store, name: string): Definition {
    if name in s.defs then s.defs[name] else NO_DEFINITION
  }

  /** A new version, or a new epoch of it: the count and any trip are reset. */
  function Activate(s: Store, name: string, version: nat, epoch: Option<nat>, wanted: map<string, Trigger>): Outcome {
    var d := DefinitionOf(s, name);
    if version !in d.versions then Err
    else if epoch.Some? && epoch.value != d.epoch then Ok(s)
    else
      Ok(Arm(s, d.triggers, wanted).(
           paused := s.paused - {name},
           defs := s.defs[name := d.(active := Some(version), epoch := d.epoch + 1, faults := 0, tripped := None, triggers := wanted.Keys)]))
  }

  function SaveDefinition(s: Store, name: string, version: nat, v: Version): Store {
    var d := DefinitionOf(s, name);
    if version in d.versions then s else s.(defs := s.defs[name := d.(versions := d.versions[version := v])])
  }

  function PausedOf(s: Store, d: Definition): Paused {
    Paused(d.epoch, map k | k in d.triggers && k in s.triggers :: s.triggers[k], map k | k in d.triggers && k in s.queue :: s.queue[k])
  }

  /** An operator's pause keeps the definition's triggers and slots aside, and a
      breaker's trip under it. */
  function Pause(s: Store, name: string, reason: string, now: int): Outcome {
    if name !in s.defs then Err
    else
      var d := s.defs[name];
      if d.tripped.Some? && d.tripped.value.manual.Some? then Ok(s)
      else if d.tripped.None? && d.active.None? then Err
      else
        var trip := if d.tripped.Some? then d.tripped.value.(manual := Some(reason))
                    else Trip(Some(reason), false, d.active.value, if d.active.value in d.versions then d.versions[d.active.value].digest else "",
                              d.epoch, d.faults, 0, "", now);
        Ok(Arm(s, d.triggers, map[]).(
             paused := s.paused[name := PausedOf(s, d)],
             defs := s.defs[name := d.(triggers := {}, tripped := Some(trip))]))
  }

  function Restored(s: Store, name: string, d: Definition, p: Paused): Store
    requires d.tripped.Some?
  {
    var armed := Arm(s, d.triggers, p.triggers);
    var left := if d.tripped.value.breaker then Some(d.tripped.value.(manual := None)) else None;
    armed.(queue := armed.queue + p.queues,
           queueName := armed.queueName + (set k | k in p.queues :: (name, k)),
           paused := s.paused - {name},
           defs := s.defs[name := d.(triggers := p.triggers.Keys, tripped := left)])
  }

  /** Lifts a pause only: triggers and slots come back and drain. */
  function Resume(s: Store, name: string, now: int): Outcome {
    if name !in s.defs then Err
    else
      var d := s.defs[name];
      if d.tripped.None? then Ok(s)
      else if d.tripped.value.manual.None? then Err
      else if name !in s.paused || s.paused[name].epoch != d.epoch then Err
      else if exists k | k in s.paused[name].queues :: s.paused[name].queues[k].admission.name != name then Err
      else Drain(Restored(s, name, d, s.paused[name]), name, now)
  }

  const MAX_PAGE := 1_000

  function Stop(s: Store, enabled: bool, now: int): Outcome {
    if s.stopped == enabled then Ok(s)
    else if enabled then Ok(s.(stopped := true))
    else DrainPending(s.(stopped := false), MAX_PAGE, now)
  }

  /** A start by any caller; the deferred slot goes first. */
  function Start(s: Store, a: Admission, kind: Kind, now: int): Outcome {
    match DrainMarked(s, a.name, now)
    case Err => Err
    case Ok(t) => if a.name in s.drain && !s.stopped && Turns(t, a) then Ok(t) else Insert(t, a, kind, None, None)
  }

  /** The end of a run by its owner: the breaker observes it first. */
  function Finish(w: World, s: Store, id: Id, seen: Seen, threshold: Count, now: int): Outcome {
    if id !in s.runs || !s.runs[id].live then Err
    else Terminate(w, Observe(s, s.runs[id].admission, s.runs[id].epoch, seen, threshold, now), id, now)
  }

  // ── steps ─────────────────────────────────────────────────────────────────

  datatype Command =
    | Starting(a: Admission, kind: Kind, now: int)
    | Firing_(f: Firing, now: int)
    | Finishing(id: Id, seen: Seen, threshold: Count, now: int)
    | Cancelling(id: Id, now: int)
    | Activating(name: string, version: nat, epoch: Option<nat>, wanted: map<string, Trigger>)
    | Saving(name: string, version: nat, v: Version)
    | Pausing(name: string, reason: string, now: int)
    | Resuming(name: string, now: int)
    | Stopping(enabled: bool, now: int)
    | Paging(limit: nat, now: int)
    | Acknowledging(notice: Notice)

  function Effect(w: World, s: Store, c: Command): Outcome {
    match c
    case Starting(a, kind, now) => Start(s, a, kind, now)
    case Firing_(f, now) => (match Fire(w, s, f, now) case Fires(t, _) => Ok(t) case Fails => Err)
    case Finishing(id, seen, threshold, now) => Finish(w, s, id, seen, threshold, now)
    case Cancelling(id, now) => Terminate(w, s, id, now)
    case Activating(name, version, epoch, wanted) => Activate(s, name, version, epoch, wanted)
    case Saving(name, version, v) => Ok(SaveDefinition(s, name, version, v))
    case Pausing(name, reason, now) => Pause(s, name, reason, now)
    case Resuming(name, now) => Resume(s, name, now)
    case Stopping(enabled, now) => Stop(s, enabled, now)
    case Paging(limit, now) => if s.stopped then Ok(s) else DrainPending(s, limit, now)
    case Acknowledging(notice) => Ok(s.(notices := s.notices - {notice}))
  }

  /** A failed step changes nothing. */
  function Step(w: World, s: Store, c: Command): Store {
    match Effect(w, s, c)
    case Ok(t) => t
    case Err => s
  }

  function After(w: World, commands: seq<Command>): Store
    decreases |commands|
  {
    if commands == [] then EMPTY
    else Step(w, After(w, commands[..|commands| - 1]), commands[|commands| - 1])
  }

  /** Firings act on a trigger their definition owns; one with a slot to admit acts under
      the trigger's policy and ceiling, and a queueing trigger is not dropped by its
      firing. Activations arm their own keys. */
  predicate Callable(w: World, c: Command) {
    match c
    case Firing_(f, _) =>
      && (w.armed ==> f.expected.Some?)
      && (forall a | a in f.admit :: a.name == w.owner(f.key))
      && (f.refused.Some? ==> f.refused.value.admission.name == w.owner(f.key))
      && (f.overlap.Some? ==> f.overlap.value.policy == w.policy(f.key) && f.overlap.value.max == w.ceiling(f.key))
      && (w.policy(f.key).Queue? ==> f.next.Some? && (Candidate(f).Some? ==> f.overlap.Some? && f.busy.Some?))
    case Activating(name, _, _, wanted) => forall k | k in wanted :: w.owner(k) == name
    case _ => true
  }
}

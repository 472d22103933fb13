/**
 The run rows of the store and every step that changes them: admission, claims and
 leases, journal records, the shared budget, the end of a run with its subtree, holds
 and the sweep. Mailbox fields of a row may change in any way a delivery, listen or
 expiry can change them.
 */
module Runs {
  import opened Options

  type Id = string

  const LEASE_MS := 30_000
  const MAX_INTERRUPTIONS := 10
  const MAX_ANNOTATIONS := 32
  const EXCEEDED := "exceeded"
  const MAX_TIME := 0x7fff_ffff_ffff_ffff
  const MIN_TIME := -0x8000_0000_0000_0000
  const MAX_GENERATION := 0xffff_ffff_ffff_ffff

  /** Addition of instants and delays: it saturates. */
  function Later(at: int, delay: int): int {
    var t := at + delay;
    if t > MAX_TIME then MAX_TIME else if t < MIN_TIME then MIN_TIME else t
  }

  // ── rows ──────────────────────────────────────────────────────────────────

  /** `content` is the definition text, input and the other bindings. */
  datatype Admission = Admission(
    id: Id, name: string, version: nat, pinned: bool, host: Option<string>, application: Option<string>, content: string)

  datatype Field = NameField | VersionField | HostField | LinkField

  /** What an admission under a stored id disagrees on: a root must agree on the
      definition, the version it names and the host data; a child on the definition. */
  function Mismatch(stored: Admission, a: Admission, child: bool): Option<Field> {
    if stored.name != a.name then Some(NameField)
    else if child then None
    else if a.pinned && stored.version != a.version then Some(VersionField)
    else if stored.host != a.host then Some(HostField)
    else None
  }

  datatype Link = Link(parent: Id, key: string, reference: string)
  datatype Fence = Fence(run: Id, owner: string, generation: nat)
  datatype State = Ready | Running | Waiting | Completed | Failed | Cancelled
  datatype Status =
    | Finished(output: string)
    | Faulted(error: string)
    | Cancel
    | Sleeping(until: int)
    | Interrupted(error: string)
  datatype Hold = Hold(actor: string, reason: string, note: string, at: int)
  datatype PendingWait = PendingWait(types: seq<string>, position: string, since: int, details: string)

  /** What admission fixes. */
  datatype Origin = Origin(admission: Admission, admitted: int, child: Option<Link>, root: Option<Id>, trigger: Option<string>)

  datatype Life = Life(
    state: State, fence: Option<Fence>, generation: nat, lease: Option<int>, wake: int,
    interruptions: nat, outcome: Option<Status>, ended: Option<int>, held: Option<Hold>)

  /** `seen` are the types some copy was stored for, `pending` those with a pending one. */
  datatype Mail = Mail(
    awaits: map<string, int>, listeners: map<string, seq<string>>, subscriptions: map<string, seq<string>>,
    addressed: set<string>, waits: map<string, PendingWait>, pending: set<string>, mailbox: Option<int>, seen: set<string>)

  datatype Run = Run(origin: Origin, life: Life, mail: Mail, totals: Totals, evidence: bool, budgetEnded: Option<nat>)

  type Rows = map<Id, Run>

  function IdOf(r: Run): Id {
    r.origin.admission.id
  }

  predicate Live(r: Run) {
    r.life.ended.None?
  }

  /** The root of the run's tree, whose budget it spends. */
  function RootOf(r: Run): Id {
    if r.origin.root.Some? then r.origin.root.value else IdOf(r)
  }

  function ParentOf(r: Run): Option<Id> {
    if r.origin.child.Some? then Some(r.origin.child.value.parent) else None
  }

  predicate Terminal(s: State) {
    s.Completed? || s.Failed? || s.Cancelled?
  }

  // ── journal records ───────────────────────────────────────────────────────

  datatype Num = Whole(n: int) | Decimal(text: string)
  datatype Annotation = Number(n: Num) | Text(text: string)
  /** The entries of an annotation map, in name order. */
  type Annotations = seq<(string, Annotation)>
  type Totals = map<string, Num>

  datatype CallState = Pending | NotExecuted(error: string) | Done(result: string)
  datatype Binding = Binding(logical: string, function_: string, arguments: string, atMostOnce: bool)
  datatype Record =
    | Task(started: int, result: Option<string>)
    | Call(binding: Binding, state: CallState, annotations: Annotations)
    | Event(event: string)
    | Expired(event: string)
    | Budget(granted: bool, spent: nat, first: Option<string>)
    | Exceeded(key: string)
    | Fixed(content: string)
  type Journal = map<string, Record>

  /** Only pending tasks and unanswered calls advance, and a call keeps its binding. */
  predicate MayBecome(old_: Record, new_: Record) {
    || old_ == new_
    || (old_.Task? && old_.result.None? && new_.Task? && old_.started == new_.started)
    || (old_.Call? && !old_.state.Done? && new_.Call? && old_.binding == new_.binding)
  }

  predicate IsAnswer(r: Record) {
    r.Call? && r.state.Done?
  }

  /** Sums and the size bound of a totals map are parameters. */
  datatype Policy = Policy(skew: int, add: (Num, Num) -> Option<Num>, fits: Totals -> bool)

  function AddTo(p: Policy, totals: Totals, name: string, n: Num): Totals {
    if name in totals then
      totals[name := match p.add(totals[name], n) case Some(sum) => sum case None => totals[name]]
    else if |totals| >= MAX_ANNOTATIONS || !p.fits(totals[name := n]) then totals
    else totals[name := n]
  }

  /** One answer's numbers added to the totals, in name order; texts are ignored. */
  function Accumulate(p: Policy, totals: Totals, answer: Annotations): Totals
    decreases |answer|
  {
    if answer == [] then totals
    else
      var before := Accumulate(p, totals, answer[..|answer| - 1]);
      match answer[|answer| - 1].1
      case Number(n) => AddTo(p, before, answer[|answer| - 1].0, n)
      case Text(_) => before
  }

  // ── one row ───────────────────────────────────────────────────────────────

  const EMPTY_MAIL := Mail(map[], map[], map[], {}, map[], {}, None, {})

  function Born(o: Origin, now: int): Run {
    Run(o, Life(Ready, None, 0, None, now, 0, None, None, None), EMPTY_MAIL, map[], false, None)
  }

  predicate Claimable(l: Life, now: int) {
    && l.held.None?
    && match l.state
       case Ready => l.wake <= now
       case Waiting => l.wake <= now
       case Running => l.lease.Some? && l.lease.value <= now
       case _ => false
  }

  function Claimed(r: Run, now: int, owner: string): Run {
    var l := r.life;
    r.(life := l.(
         generation := l.generation + 1,
         wake := if l.state.Running? && l.lease.Some? then l.lease.value else l.wake,
         fence := Some(Fence(IdOf(r), owner, l.generation + 1)),
         lease := Some(Later(now, LEASE_MS)),
         state := Running))
  }

  /** The application versions a worker resumes. */
  datatype Worker = Worker(version: Option<string>, accepts: seq<string>)

  predicate Admits(w: Worker, application: Option<string>) {
    application.None? || w.version.None? || application == w.version || application.value in w.accepts
  }

  /** A row at the end of its run. */
  function Ended(r: Run, status: Status, spent: nat, now: int): Run {
    r.(life := r.life.(
         state := (match status case Finished(_) => Completed case Faulted(_) => Failed case _ => Cancelled),
         outcome := Some(status), ended := Some(now), fence := None, lease := None, held := None),
       mail := r.mail.(awaits := map[], addressed := {}, listeners := map[], subscriptions := map[], waits := map[]),
       budgetEnded := Some(spent))
  }

  predicate Listened(m: Mail, t: string) {
    exists k | k in m.listeners :: t in m.listeners[k]
  }

  function Close(m: Mail, t: string): Mail {
    if Listened(m, t) then m else m.(awaits := m.awaits - {t}, addressed := m.addressed - {t})
  }

  predicate IsChildKey(k: string) {
    "child:" <= k
  }

  /** Whether a pending lifecycle notice of the type wakes the run. */
  predicate NoticeWakes(m: Mail, t: string) {
    t in m.addressed || exists k | k in m.listeners :: !IsChildKey(k) && t in m.listeners[k]
  }

  function Notified(p: Run, t: string, now: int): Run {
    if !Live(p) || t !in p.mail.awaits || t in p.mail.pending then p
    else p.(mail := p.mail.(pending := p.mail.pending + {t}, seen := p.mail.seen + {t}),
            life := p.life.(wake := if NoticeWakes(p.mail, t) then now else p.life.wake),
            evidence := true)
  }

  /** A parent's row after its child's lifecycle notification. */
  function Reported(p: Run, child: Id, status: Status, now: int): Run {
    match status
    case Interrupted(_) => p
    case Sleeping(_) => Notified(p, "waiting:" + child, now)
    case _ =>
      if "done:" + child in p.mail.seen then p
      else
        var closed := Close(p.mail, "waiting:" + child);
        var q := if "waiting:" + child in p.mail.awaits then p.(mail := closed) else p;
        Notified(q, "done:" + child, now)
  }

  /** A parent registers for its child's notices. */
  function Expects(p: Run, child: Id, now: int): Run {
    var done, waiting := "done:" + child, "waiting:" + child;
    var a1 := if done in p.mail.awaits then p.mail.awaits else p.mail.awaits[done := now];
    var a2 := if waiting in a1 then a1 else a1[waiting := now];
    p.(mail := p.mail.(awaits := a2, listeners := p.mail.listeners["child:" + child := [done]]))
  }

  function Power(n: nat): nat {
    if n == 0 then 1 else 2 * Power(n - 1)
  }

  /** The pause after the nth interruption in a row. */
  function Backoff(n: nat): nat
    requires n > 0
  {
    var ms := 2_000 * Power(if n - 1 < 20 then n - 1 else 20);
    if ms < 600_000 then ms else 600_000
  }

  // ── the store ─────────────────────────────────────────────────────────────

  datatype Db = Db(runs: Rows, records: map<Id, Journal>, budget: map<Id, nat>, stopped: bool, policy: Policy)

  function Empty(p: Policy): Db {
    Db(map[], map[], map[], false, p)
  }

  function JournalOf(db: Db, id: Id): Journal {
    if id in db.records then db.records[id] else map[]
  }

  function Spent(db: Db, root: Id): nat {
    if root in db.budget then db.budget[root] else 0
  }

  function Put(db: Db, r: Run): Db {
    db.(runs := db.runs[IdOf(r) := r])
  }

  function Write(db: Db, id: Id, k: string, r: Record): Db {
    db.(records := db.records[id := JournalOf(db, id)[k := r]])
  }

  /** The fence names the row's owner and generation, and the lease ends later than a
      skewed clock could think it is now. */
  predicate Authority(db: Db, f: Fence, now: int) {
    && f.run in db.runs
    && var l := db.runs[f.run].life;
       l.state.Running? && l.fence == Some(f) && l.lease.Some? && l.lease.value > Later(now, db.policy.skew)
  }

  predicate Checked(db: Db, f: Fence, now: int) {
    !db.stopped && Authority(db, f, now) && db.runs[f.run].life.held.None?
  }

  // ── trees ─────────────────────────────────────────────────────────────────

  /** `n` parent links lead from `x` to `y`. */
  ghost predicate Climbs(runs: Rows, x: Id, y: Id, n: nat)
    decreases n
  {
    if n == 0 then x == y
    else x in runs && ParentOf(runs[x]).Some? && Climbs(runs, ParentOf(runs[x]).value, y, n - 1)
  }

  /** `x` is `top` or one of its descendants. */
  ghost predicate Under(runs: Rows, x: Id, top: Id) {
    exists n: nat :: Climbs(runs, x, top, n)
  }

  /** What ends with `id`: the run and its live descendants. */
  ghost predicate EndsWith(runs: Rows, x: Id, id: Id) {
    x in runs && (x == id || (Live(runs[x]) && Under(runs, x, id)))
  }

  ghost function EndTree(runs: Rows, id: Id, status: Status, spent: nat, now: int): Rows {
    map x | x in runs ::
      if x == id then Ended(runs[x], status, spent, now)
      else if EndsWith(runs, x, id) then Ended(runs[x], Cancel, spent, now)
      else runs[x]
  }

  function ReportTo(runs: Rows, child: Id, status: Status, now: int): Rows
    requires child in runs
  {
    var p := ParentOf(runs[child]);
    if p.Some? && p.value in runs then runs[p.value := Reported(runs[p.value], child, status, now)] else runs
  }

  /** The rows of a run and what ends with it; a root takes its tree's budget along. */
  ghost function EndedWith(db: Db, id: Id, status: Status, now: int): (r: Db)
    requires id in db.runs
    ensures id in r.runs
  {
    db.(runs := EndTree(db.runs, id, status, Spent(db, RootOf(db.runs[id])), now),
        budget := if db.runs[id].origin.root.None? then db.budget - {id} else db.budget)
  }

  /** The end of a run: its subtree ends in the same commit, and its parent hears of it. */
  ghost function Terminate(db: Db, id: Id, status: Status, now: int): Db
    requires id in db.runs
  {
    var after := EndedWith(db, id, status, now);
    after.(runs := ReportTo(after.runs, id, status, now))
  }

  /** Holds or releases a live run and its live descendants. */
  ghost function HoldTree(runs: Rows, id: Id, hold: Option<Hold>): Rows {
    map x | x in runs ::
      if Live(runs[x]) && Under(runs, x, id) && runs[x].life.held.Some? != hold.Some?
      then runs[x].(life := runs[x].life.(held := hold))
      else runs[x]
  }

  ghost function HeldTree(db: Db, id: Id, hold: Option<Hold>): Db {
    db.(runs := HoldTree(db.runs, id, hold))
  }

  // ── steps ─────────────────────────────────────────────────────────────────

  datatype Command =
    | Admit(a: Admission, trigger: Option<string>, now: int)
    | Start(a: Admission, now: int, owner: string)
    | Refuse(a: Admission, error: string, now: int)
    | Claim(id: Id, now: int, owner: string, worker: Worker)
    | Renew(fence: Fence, now: int)
    | Release(fence: Fence, now: int)
    | Save(fence: Fence, key: string, record: Record, now: int)
    | Spend(fence: Fence, key: string, limit: nat, now: int)
    /** A listen, subscription or wait registration of the owner. `stored`: it leaves
        evidence for the sweep. */
    | Listen(fence: Fence, mail: Mail, news: Journal, stored: bool, now: int)
    /** An event arriving in, or leaving, a run's mailbox. */
    | Deliver(id: Id, mail: Mail, wake: int, news: Journal, stored: bool)
    /** `woken`: the mailbox holds a copy the run wants. */
    | Finish(fence: Fence, status: Status, woken: bool, now: int)
    | StartChild(fence: Fence, a: Admission, link: Link, now: int, owner: string)
    | Kill(id: Id, now: int)
    | SetHold(id: Id, hold: Option<Hold>)
    | Stop(enabled: bool)
    | Sweep(id: Id, now: int, kept: nat)

  /** Event records use keys no record has yet. */
  predicate NewsOk(db: Db, id: Id, news: Journal) {
    AddsTo(JournalOf(db, id), news)
  }

  predicate AddsTo(journal: Journal, news: Journal) {
    && news.Keys !! journal.Keys
    && EXCEEDED !in news
    && forall k | k in news :: news[k].Event? || news[k].Expired?
  }

  /** Callers do not use the reserved record key. */
  predicate Callable(c: Command) {
    match c
    case Save(_, k, _, _) => k != EXCEEDED
    case Spend(_, k, _, _) => k != EXCEEDED
    case _ => true
  }

  /** Whether the journal takes the record. Under a hold only a pending call may still
      get its answer. */
  predicate Saveable(journal: Journal, k: string, r: Record, held: bool) {
    && (held ==> k in journal && journal[k].Call? && journal[k].state.Pending? && r.Call? && !r.state.Pending?)
    && (r.Event? || r.Expired? || r.Budget? || r.Exceeded? ==> k in journal && journal[k] == r)
    && (k in journal ==> MayBecome(journal[k], r))
  }

  predicate MaySave(db: Db, f: Fence, k: string, r: Record, now: int) {
    !db.stopped && Authority(db, f, now) && Saveable(JournalOf(db, f.run), k, r, db.runs[f.run].life.held.Some?)
  }

  /** Whether this save completes a call. */
  predicate Completes(db: Db, id: Id, k: string, r: Record) {
    IsAnswer(r) && !(k in JournalOf(db, id) && IsAnswer(JournalOf(db, id)[k]))
  }

  function Saved(db: Db, id: Id, k: string, r: Record): Db
    requires id in db.runs
  {
    var s := db.runs[id];
    var totals := if Completes(db, id, k, r) then Accumulate(db.policy, s.totals, r.annotations) else s.totals;
    Write(db, id, k, r).(runs := db.runs[id := s.(evidence := true, totals := totals)])
  }

  /** A key already decided answers its record; a refusal reads the run's first one. */
  predicate MaySpend(db: Db, f: Fence, k: string, limit: nat, now: int) {
    && Checked(db, f, now)
    && var journal := JournalOf(db, f.run);
       && k !in journal
       && (Spent(db, RootOf(db.runs[f.run])) < limit || EXCEEDED !in journal || journal[EXCEEDED].Exceeded?)
  }

  /** The key of the run's first refusal. */
  function FirstRefused(journal: Journal, k: string): string {
    if EXCEEDED in journal && journal[EXCEEDED].Exceeded? then journal[EXCEEDED].key else k
  }

  function Decision(journal: Journal, k: string, spent: nat, limit: nat): Journal {
    if spent < limit then journal[k := Budget(true, spent + 1, None)]
    else
      var first := FirstRefused(journal, k);
      journal[EXCEEDED := Exceeded(first)][k := Budget(false, spent, Some(first))]
  }

  /** Decides a budget unit; a refusal names the run's first. */
  function Decided(db: Db, id: Id, k: string, limit: nat): Db
    requires id in db.runs
  {
    var root := RootOf(db.runs[id]);
    var spent := Spent(db, root);
    db.(runs := db.runs[id := db.runs[id].(evidence := true)],
        records := db.records[id := Decision(JournalOf(db, id), k, spent, limit)],
        budget := if spent < limit then db.budget[root := spent + 1] else db.budget)
  }

  predicate MayStartChild(db: Db, f: Fence, a: Admission, link: Link, now: int) {
    && Checked(db, f, now) && link.parent == f.run && a.id != f.run
    && (a.id in db.runs ==>
          Mismatch(db.runs[a.id].origin.admission, a, true).None? && db.runs[a.id].origin.child == Some(link))
  }

  function NewChild(p: Run, a: Admission, link: Link, now: int, owner: string): Run {
    Claimed(Born(Origin(a, now, Some(link), Some(RootOf(p)), None), now), now, owner)
  }

  /** Starting a child again repeats what it last reported. */
  function Rejoined(runs: Rows, child: Id, now: int): Rows
    requires child in runs
  {
    var c := runs[child].life;
    if c.outcome.Some? then ReportTo(runs, child, c.outcome.value, now)
    else if c.state.Waiting? then ReportTo(runs, child, Sleeping(0), now)
    else runs
  }

  function WithChild(db: Db, f: Fence, a: Admission, link: Link, now: int, owner: string): Db
    requires f.run in db.runs && link.parent == f.run
  {
    var runs := db.runs[f.run := Expects(db.runs[f.run], a.id, now)];
    if a.id in runs then db.(runs := Rejoined(runs, a.id, now))
    else db.(runs := runs[a.id := NewChild(runs[f.run], a, link, now, owner)])
  }

  /** The row of a run its owner lets go. */
  function LetGo(r: Run, status: Status, woken: bool, now: int): Run {
    var l := r.life.(fence := None, lease := None);
    match status
    case Sleeping(until) => r.(life := l.(state := Waiting, interruptions := 0, wake := if woken then now else until))
    case Interrupted(_) =>
      var n := l.interruptions + 1;
      r.(life := l.(state := Ready, interruptions := n, wake := Later(now, Backoff(n))))
    case _ => r
  }

  /** Enough interruptions in a row fault the run. */
  function Verdict(interruptions: nat, status: Status): Status {
    if status.Interrupted? && interruptions + 1 >= MAX_INTERRUPTIONS then Faulted(status.error) else status
  }

  predicate Ends(status: Status) {
    status.Finished? || status.Faulted? || status.Cancel?
  }

  function Counted(db: Db, id: Id, interruptions: nat): Db
    requires id in db.runs
  {
    db.(runs := db.runs[id := db.runs[id].(life := db.runs[id].life.(interruptions := interruptions))])
  }

  function Tries(interruptions: nat, status: Status): nat {
    if status.Interrupted? then interruptions + 1 else 0
  }

  ghost function Concludes(db: Db, id: Id, verdict: Status, interruptions: nat, now: int): Db
    requires id in db.runs
  {
    Terminate(Counted(db, id, interruptions), id, verdict, now)
  }

  function Rested(runs: Rows, id: Id, status: Status, woken: bool, now: int): Rows
    requires id in runs
  {
    ReportTo(runs[id := LetGo(runs[id], status, woken, now)], id, status, now)
  }

  /** The owner's last step: the run ends, or is let go and its parent hears it waits. */
  ghost function Finishes(db: Db, id: Id, status: Status, woken: bool, now: int): Db
    requires id in db.runs
  {
    var life := db.runs[id].life;
    var verdict := Verdict(life.interruptions, status);
    if Ends(verdict) then Concludes(db, id, verdict, Tries(life.interruptions, status), now)
    else
      db.(runs := Rested(db.runs, id, status, woken, now))
  }

  function Swept(r: Run): Run {
    r.(mail := r.mail.(pending := {}, mailbox := None, seen := {}), evidence := false)
  }

  predicate MayAdmit(db: Db, a: Admission) {
    a.id !in db.runs && !db.stopped
  }

  /** Whether the step commits a change; otherwise it is refused or joins. */
  predicate Commits(db: Db, c: Command) {
    match c
    case Admit(a, _, _) => MayAdmit(db, a)
    case Start(a, _, _) => MayAdmit(db, a)
    case Refuse(a, _, _) => MayAdmit(db, a)
    case Claim(id, now, _, worker) =>
      && !db.stopped && id in db.runs && Claimable(db.runs[id].life, now)
      && Admits(worker, db.runs[id].origin.admission.application)
      && db.runs[id].life.generation < MAX_GENERATION
    case Renew(f, now) => !db.stopped && Authority(db, f, now)
    case Release(f, now) => Authority(db, f, now)
    case Save(f, k, r, now) => MaySave(db, f, k, r, now)
    case Spend(f, k, limit, now) => MaySpend(db, f, k, limit, now)
    case Listen(f, _, news, _, now) => Checked(db, f, now) && NewsOk(db, f.run, news)
    case Deliver(id, _, _, news, _) => id in db.runs && Live(db.runs[id]) && NewsOk(db, id, news)
    case Finish(f, _, _, now) => Checked(db, f, now)
    case StartChild(f, a, link, now, _) => MayStartChild(db, f, a, link, now)
    case Kill(id, _) => id in db.runs && Live(db.runs[id])
    case SetHold(id, _) => id in db.runs && Live(db.runs[id])
    case Stop(_) => true
    case Sweep(id, now, kept) =>
      && id in db.runs && db.runs[id].life.ended.Some? && db.runs[id].evidence
      && db.runs[id].life.ended.value <= Later(now, 0 - kept)
  }

  ghost function Apply(db: Db, c: Command): Db
    requires Commits(db, c)
  {
    match c
    case Admit(a, trigger, now) => Put(db, Born(Origin(a, now, None, None, trigger), now))
    case Start(a, now, owner) => Put(db, Claimed(Born(Origin(a, now, None, None, None), now), now, owner))
    case Refuse(a, error, now) => Put(db, Refused(Born(Origin(a, now, None, None, None), now), error, now))
    case Claim(id, now, owner, _) => db.(runs := db.runs[id := Claimed(db.runs[id], now, owner)])
    case Renew(f, now) => db.(runs := db.runs[f.run := Renewed(db.runs[f.run], now)])
    case Release(f, now) => db.(runs := db.runs[f.run := Released(db.runs[f.run], now)])
    case Save(f, k, r, _) => Saved(db, f.run, k, r)
    case Spend(f, k, limit, _) => Decided(db, f.run, k, limit)
    case Listen(f, mail, news, stored, _) => WithMail(db, f.run, mail, db.runs[f.run].life.wake, news, stored)
    case Deliver(id, mail, wake, news, stored) => WithMail(db, id, mail, wake, news, stored)
    case Finish(f, status, woken, now) => Finishes(db, f.run, status, woken, now)
    case StartChild(f, a, link, now, owner) => WithChild(db, f, a, link, now, owner)
    case Kill(id, now) => Terminate(db, id, Cancel, now)
    case SetHold(id, hold) => HeldTree(db, id, hold)
    case Stop(enabled) => db.(stopped := enabled)
    case Sweep(id, _, _) => db.(runs := db.runs[id := Swept(db.runs[id])], records := db.records - {id})
  }

  /** A refused trigger run ends faulted in the write that admits it. */
  function Refused(r: Run, error: string, now: int): Run {
    r.(life := r.life.(state := Failed, outcome := Some(Faulted(error)), ended := Some(now)))
  }

  function Renewed(r: Run, now: int): Run {
    r.(life := r.life.(lease := Some(Later(now, LEASE_MS))))
  }

  function Released(r: Run, now: int): Run {
    r.(life := r.life.(state := Ready, fence := None, lease := None, wake := now))
  }

  function WithMail(db: Db, id: Id, mail: Mail, wake: int, news: Journal, stored: bool): Db
    requires id in db.runs
  {
    var r := db.runs[id];
    db.(runs := db.runs[id := r.(mail := mail, life := r.life.(wake := wake), evidence := r.evidence || stored)],
        records := db.records[id := JournalOf(db, id) + news])
  }

  ghost function Step(db: Db, c: Command): Db {
    if Commits(db, c) then Apply(db, c) else db
  }

  /** The store after a list of commands, from the empty one. */
  ghost function After(p: Policy, commands: seq<Command>): Db
    decreases |commands|
  {
    if commands == [] then Empty(p)
    else Step(After(p, commands[..|commands| - 1]), commands[|commands| - 1])
  }
}

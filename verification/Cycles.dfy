/**
 Jump cycles of a task list: where each task may continue, whether running it can
 leave an enclosing loop, and the search for the loops that can never end.
 */
module Cycles {
  import opened Options

  datatype Flow = Continue | Exit | End | Goto(name: string)
  datatype Case = Case(when: Option<string>, then_: Flow)
  type TaskList = seq<(string, Task)>
  /** A catch or a listen without tasks of its own has an empty list here. */
  datatype Kind =
    | Call(function_: string)
    | Do(tasks: TaskList)
    | For(tasks: TaskList)
    | Fork(branches: TaskList)
    | Set
    | Switch(cases: seq<Case>)
    | Try(tasks: TaskList, catchTasks: TaskList, catchThen: Option<Flow>)
    | Raise
    | Wait
    | Listen(foreach: TaskList)
    | Emit
    | Run
  datatype Task = Task(when: Option<string>, then_: Option<Flow>, kind: Kind)

  /** A step in a list of tasks: on to the task at a position, or to none of the list. */
  datatype Next = To(task: int) | Out

  // ── edges ─────────────────────────────────────────────────────────────────

  function Position(tasks: TaskList, name: string): (p: Option<nat>)
    ensures p.Some? ==> p.value < |tasks| && tasks[p.value].0 == name
    ensures p.None? ==> forall i :: 0 <= i < |tasks| ==> tasks[i].0 != name
    ensures p.Some? ==> forall i :: 0 <= i < p.value ==> tasks[i].0 != name
  {
    if tasks == [] then None
    else if tasks[0].0 == name then Some(0)
    else
      var p := Position(tasks[1..], name);
      if p.Some? then Some(p.value + 1) else None
  }

  function Follow(tasks: TaskList, i: nat, f: Flow): (n: Next)
    ensures n.To? ==> 0 <= n.task < |tasks|
  {
    match f
    case Continue => if i + 1 < |tasks| then To(i + 1) else Out
    case Goto(name) => var p := Position(tasks, name); if p.Some? then To(p.value) else Out
    case Exit => Out
    case End => Out
  }

  function Own(tasks: TaskList, i: nat): Next
    requires i < |tasks|
  {
    var t := tasks[i].1;
    Follow(tasks, i, if t.then_.Some? then t.then_.value else Continue)
  }

  function CaseEdges(tasks: TaskList, i: nat, cases: seq<Case>): (r: seq<Next>)
    ensures |r| == |cases| && forall j :: 0 <= j < |cases| ==> r[j] == Follow(tasks, i, cases[j].then_)
  {
    if cases == [] then [] else [Follow(tasks, i, cases[0].then_)] + CaseEdges(tasks, i, cases[1..])
  }

  function KindEdges(tasks: TaskList, i: nat): (r: seq<Next>)
    requires i < |tasks|
    ensures r != []
  {
    var t := tasks[i].1;
    match t.kind
    case Raise => [Out]
    case Switch(cases) =>
      CaseEdges(tasks, i, cases) + if exists j :: 0 <= j < |cases| && cases[j].when.None? then [] else [Own(tasks, i)]
    case Try(_, _, catchThen) =>
      [Own(tasks, i), if catchThen.Some? then Follow(tasks, i, catchThen.value) else Own(tasks, i)]
    case _ => [Own(tasks, i)]
  }

  function Distinct(s: seq<Next>): (r: seq<Next>)
    ensures forall n :: n in r <==> n in s
    ensures forall i, j :: 0 <= i < j < |r| ==> r[i] != r[j]
  {
    if s == [] then [] else
      var last := s[|s| - 1];
      var rest := Distinct(s[..|s| - 1]);
      if last in rest then rest else rest + [last]
  }

  /** The edges of task `i`, one for each branch and directive it can take. */
  function Successors(tasks: TaskList, i: nat): (r: seq<Next>)
    requires i < |tasks|
    ensures r != [] && forall n :: n in r && n.To? ==> 0 <= n.task < |tasks|
  {
    var out := KindEdges(tasks, i) + if tasks[i].1.when.Some? then [Follow(tasks, i, Continue)] else [];
    assert forall n :: n in out && n.To? ==> 0 <= n.task < |tasks|;
    assert out[0] in Distinct(out);
    Distinct(out)
  }

  // ── leaving from inside ───────────────────────────────────────────────────

  const DEFAULT_CATALOG := "@default"

  predicate EndsWith(s: string, suffix: string) {
    |suffix| <= |s| && s[|s| - |suffix|..] == suffix
  }

  function UpToColon(s: string): string {
    if s == [] || s[0] == ':' then [] else [s[0]] + UpToColon(s[1..])
  }

  /** The reusable function a call names: `name:version@default` is `name`. */
  function FunctionName(call: string): string {
    if EndsWith(call, DEFAULT_CATALOG) then UpToColon(call[..|call| - |DEFAULT_CATALOG|]) else call
  }

  lemma {:induction false} UpToColonIs(name: string, rest: string)
    requires ':' !in name && (rest == [] || rest[0] == ':')
    ensures UpToColon(name + rest) == name
  {
    if name == [] {
      assert name + rest == rest;
    } else {
      assert (name + rest)[1..] == name[1..] + rest && name == [name[0]] + name[1..];
      UpToColonIs(name[1..], rest);
    }
  }

  /** A call of the default catalog names its function with or without a version; any other
      call names what it says. */
  lemma FunctionNameMeans(name: string, version: string, call: string)
    requires ':' !in name
    ensures FunctionName(name + ":" + version + "@default") == name
    ensures FunctionName(name + "@default") == name
    ensures (forall rest: string :: call != rest + "@default") ==> FunctionName(call) == call
  {
    var long, short := name + ":" + version + "@default", name + "@default";
    assert |"@default"| == 8;
    assert long[..|long| - 8] == name + (":" + version) && long[|long| - 8..] == "@default";
    UpToColonIs(name, ":" + version);
    assert short[..|short| - 8] == name + [] && short[|short| - 8..] == "@default";
    UpToColonIs(name, []);
    if EndsWith(call, DEFAULT_CATALOG) {
      assert call == call[..|call| - 8] + "@default";
    }
  }

  predicate ListCanLeave(ghost owner: Task, tasks: TaskList, functions: set<string>)
    requires forall i :: 0 <= i < |tasks| ==> tasks[i].1 < owner
    decreases owner, 0
  {
    exists i :: 0 <= i < |tasks| && (tasks[i].1.then_ == Some(End) || CanLeave(tasks[i].1, functions))
  }

  /** Something nested in the task may break off every list around it: an error, a
      function called by name, or the end of the workflow. */
  predicate CanLeave(t: Task, functions: set<string>)
    decreases t, 1
  {
    match t.kind
    case Raise => true
    case Call(f) => FunctionName(f) in functions
    case Do(tasks) => ListCanLeave(t, tasks, functions)
    case For(tasks) => ListCanLeave(t, tasks, functions)
    case Fork(branches) => ListCanLeave(t, branches, functions)
    case Switch(cases) => exists j :: 0 <= j < |cases| && cases[j].then_ == End
    case Try(tasks, catchTasks, catchThen) =>
      ListCanLeave(t, tasks, functions) || catchThen == Some(End) || ListCanLeave(t, catchTasks, functions)
    case Listen(foreach) => ListCanLeave(t, foreach, functions)
    case Set => false
    case Wait => false
    case Emit => false
    case Run => false
  }

  // ── what the edges and the leaving mean ───────────────────────────────────

  /** The flow names this place: the next task, the first task of the name, or out. */
  ghost predicate Goes(tasks: TaskList, i: nat, f: Flow, n: Next) {
    match n
    case Out =>
      || f.Exit? || f.End?
      || (f.Continue? && i + 1 >= |tasks|)
      || (f.Goto? && forall k :: 0 <= k < |tasks| ==> tasks[k].0 != f.name)
    case To(j) =>
      || (f.Continue? && j == i + 1 < |tasks|)
      || (f.Goto? && 0 <= j < |tasks| && tasks[j].0 == f.name && forall k :: 0 <= k < j ==> tasks[k].0 != f.name)
  }

  ghost predicate GoesOwn(tasks: TaskList, i: nat, n: Next)
    requires i < |tasks|
  {
    Goes(tasks, i, if tasks[i].1.then_.Some? then tasks[i].1.then_.value else Continue, n)
  }

  /** How a run of the task's kind may go on: raising, through a case or none of them,
      through its catch, or by its own flow. */
  ghost predicate KindGoes(tasks: TaskList, i: nat, n: Next)
    requires i < |tasks|
  {
    var t := tasks[i].1;
    || (t.kind.Raise? && n == Out)
    || (t.kind.Switch? && exists c :: c in t.kind.cases && Goes(tasks, i, c.then_, n))
    || (t.kind.Switch? && (forall c :: c in t.kind.cases ==> c.when.Some?) && GoesOwn(tasks, i, n))
    || (t.kind.Try? && t.kind.catchThen.Some? && Goes(tasks, i, t.kind.catchThen.value, n))
    || (!t.kind.Raise? && !t.kind.Switch? && GoesOwn(tasks, i, n))
  }

  /** The task may also be skipped by its condition. */
  ghost predicate MayContinue(tasks: TaskList, i: nat, n: Next)
    requires i < |tasks|
  {
    (tasks[i].1.when.Some? && Goes(tasks, i, Continue, n)) || KindGoes(tasks, i, n)
  }

  lemma FollowGoes(tasks: TaskList, i: nat, f: Flow, n: Next)
    ensures n == Follow(tasks, i, f) <==> Goes(tasks, i, f, n)
  {
    if f.Goto? {
      var p := Position(tasks, f.name);
      if n.To? && Goes(tasks, i, f, n) && p.Some? {
        assert !(n.task < p.value) && !(p.value < n.task);
      }
    }
  }

  lemma CasesGo(tasks: TaskList, i: nat, cases: seq<Case>, n: Next)
    ensures n in CaseEdges(tasks, i, cases) <==> exists c :: c in cases && Goes(tasks, i, c.then_, n)
  {
    var edges := CaseEdges(tasks, i, cases);
    if n in edges {
      var j :| 0 <= j < |edges| && edges[j] == n;
      FollowGoes(tasks, i, cases[j].then_, n);
      assert cases[j] in cases;
    }
    if c :| c in cases && Goes(tasks, i, c.then_, n) {
      var j :| 0 <= j < |cases| && cases[j] == c;
      FollowGoes(tasks, i, c.then_, n);
      assert edges[j] == n;
    }
  }

  lemma OwnGoes(tasks: TaskList, i: nat, n: Next)
    requires i < |tasks|
    ensures n == Own(tasks, i) <==> GoesOwn(tasks, i, n)
  {
    var t := tasks[i].1;
    FollowGoes(tasks, i, if t.then_.Some? then t.then_.value else Continue, n);
  }

  lemma SwitchGoes(tasks: TaskList, i: nat, n: Next)
    requires i < |tasks| && tasks[i].1.kind.Switch?
    ensures n in KindEdges(tasks, i) <==> KindGoes(tasks, i, n)
  {
    var cases := tasks[i].1.kind.cases;
    CasesGo(tasks, i, cases, n);
    OwnGoes(tasks, i, n);
    assert (exists j :: 0 <= j < |cases| && cases[j].when.None?) <==> !(forall c :: c in cases ==> c.when.Some?);
  }

  lemma KindEdgesGo(tasks: TaskList, i: nat, n: Next)
    requires i < |tasks|
    ensures n in KindEdges(tasks, i) <==> KindGoes(tasks, i, n)
  {
    var kind := tasks[i].1.kind;
    OwnGoes(tasks, i, n);
    if kind.Switch? {
      SwitchGoes(tasks, i, n);
    } else if kind.Try? && kind.catchThen.Some? {
      FollowGoes(tasks, i, kind.catchThen.value, n);
    }
  }

  /** The edges are exactly the ways a run of the task may go on. */
  lemma SuccessorsExact(tasks: TaskList, i: nat, n: Next)
    requires i < |tasks|
    ensures n in Successors(tasks, i) <==> MayContinue(tasks, i, n)
  {
    KindEdgesGo(tasks, i, n);
    FollowGoes(tasks, i, Continue, n);
  }

  /** The lists of tasks directly inside a task. */
  function Lists(t: Task): seq<TaskList> {
    match t.kind
    case Do(tasks) => [tasks]
    case For(tasks) => [tasks]
    case Fork(branches) => [branches]
    case Try(tasks, catchTasks, _) => [tasks, catchTasks]
    case Listen(foreach) => [foreach]
    case _ => []
  }

  ghost predicate Inside(t: Task, u: Task) {
    exists l, k :: 0 <= l < |Lists(t)| && 0 <= k < |Lists(t)[l]| && Lists(t)[l][k].1 == u
  }

  /** The task itself raises, calls a known function or ends the workflow by a case or
      its catch. */
  predicate Breaks(t: Task, functions: set<string>) {
    || t.kind.Raise?
    || (t.kind.Call? && FunctionName(t.kind.function_) in functions)
    || (t.kind.Switch? && exists c | c in t.kind.cases :: c.then_ == End)
    || (t.kind.Try? && t.kind.catchThen == Some(End))
  }

  /** Each task of the chain is directly inside the one before. */
  ghost predicate Chain(p: seq<Task>) {
    forall k :: 0 < k < |p| ==> Inside(p[k - 1], p[k])
  }

  ghost predicate LeavesThrough(t: Task, functions: set<string>, p: seq<Task>) {
    && |p| > 0 && p[0] == t && Chain(p)
    && (Breaks(p[|p| - 1], functions) || (|p| > 1 && p[|p| - 1].then_ == Some(End)))
  }

  lemma ListStep(t: Task, l: nat, functions: set<string>)
    requires l < |Lists(t)| && forall i :: 0 <= i < |Lists(t)[l]| ==> Lists(t)[l][i].1 < t
    ensures ListCanLeave(t, Lists(t)[l], functions) ==>
              exists u :: Inside(t, u) && (u.then_ == Some(End) || CanLeave(u, functions))
  {
    var tasks := Lists(t)[l];
    if ListCanLeave(t, tasks, functions) {
      var k :| 0 <= k < |tasks| && (tasks[k].1.then_ == Some(End) || CanLeave(tasks[k].1, functions));
      assert Inside(t, tasks[k].1);
    }
  }

  lemma StepOut(t: Task, functions: set<string>)
    ensures CanLeave(t, functions) ==>
            Breaks(t, functions) || exists u :: Inside(t, u) && (u.then_ == Some(End) || CanLeave(u, functions))
  {
    if |Lists(t)| > 0 {
      ListStep(t, 0, functions);
    }
    if |Lists(t)| > 1 {
      ListStep(t, 1, functions);
    }
  }

  lemma StepIn(t: Task, functions: set<string>, u: Task)
    requires Inside(t, u) && (u.then_ == Some(End) || CanLeave(u, functions))
    ensures CanLeave(t, functions)
  {
    var l, k :| 0 <= l < |Lists(t)| && 0 <= k < |Lists(t)[l]| && Lists(t)[l][k].1 == u;
  }

  lemma InsideIsSmaller(t: Task, u: Task)
    requires Inside(t, u)
    ensures u < t
  {
    var l, k :| 0 <= l < |Lists(t)| && 0 <= k < |Lists(t)[l]| && Lists(t)[l][k].1 == u;
    assert Lists(t)[l][k] in Lists(t)[l];
  }

  lemma {:induction false} LeavesByChain(t: Task, functions: set<string>)
    requires CanLeave(t, functions)
    ensures exists p :: LeavesThrough(t, functions, p)
    decreases t
  {
    StepOut(t, functions);
    if Breaks(t, functions) {
      assert LeavesThrough(t, functions, [t]);
    } else {
      var u :| Inside(t, u) && (u.then_ == Some(End) || CanLeave(u, functions));
      InsideIsSmaller(t, u);
      if u.then_ == Some(End) {
        assert LeavesThrough(t, functions, [t, u]);
      } else {
        LeavesByChain(u, functions);
        var p :| LeavesThrough(u, functions, p);
        var q := [t] + p;
        forall k | 0 < k < |q| ensures Inside(q[k - 1], q[k]) {
          assert q[k] == p[k - 1] && q[k - 1] == if k == 1 then t else p[k - 2];
        }
        assert LeavesThrough(t, functions, q);
      }
    }
  }

  lemma {:induction false} ChainLeaves(t: Task, functions: set<string>, p: seq<Task>)
    requires LeavesThrough(t, functions, p)
    ensures CanLeave(t, functions)
    decreases |p|
  {
    if |p| > 1 {
      var q := p[1..];
      assert Inside(p[0], p[1]);
      forall k | 0 < k < |q| ensures Inside(q[k - 1], q[k]) {
        assert q[k - 1] == p[k] && q[k] == p[k + 1];
      }
      assert q[|q| - 1] == p[|p| - 1];
      if !(|p| == 2 && p[1].then_ == Some(End)) {
        ChainLeaves(p[1], functions, q);
      }
      StepIn(t, functions, p[1]);
    }
  }

  /** A task can leave exactly when some task nested in it, at any depth, breaks out or
      ends the workflow. */
  lemma CanLeaveExact(t: Task, functions: set<string>)
    ensures CanLeave(t, functions) <==> exists p :: LeavesThrough(t, functions, p)
  {
    if CanLeave(t, functions) {
      LeavesByChain(t, functions);
    }
    if p :| LeavesThrough(t, functions, p) {
      ChainLeaves(t, functions, p);
    }
  }

  // ── paths ─────────────────────────────────────────────────────────────────

  /** A list's jump graph: the edges of each task, and whether it can leave. */
  datatype Graph = Graph(edges: seq<seq<Next>>, leaves: seq<bool>) {
    ghost predicate Valid() {
      && |edges| == |leaves|
      && (forall i :: 0 <= i < |edges| ==> edges[i] != [])
      && forall i, n :: 0 <= i < |edges| && n in edges[i] && n.To? ==> 0 <= n.task < |edges|
    }

    ghost predicate Edge(i: int, j: int) {
      0 <= i < |edges| && To(j) in edges[i]
    }

    /** `p` lists the tasks of a walk along edges. */
    ghost predicate Walk(p: seq<int>) {
      forall k :: 0 < k < |p| ==> Edge(p[k - 1], p[k])
    }

    /** A nonempty walk leads from `i` to `j`. */
    ghost predicate Reach(i: int, j: int) {
      exists p :: Walk(p) && |p| > 1 && p[0] == i && p[|p| - 1] == j
    }

    /** The task leaves the list, or can leave it from inside. */
    ghost predicate Open(i: int) {
      0 <= i < |edges| && (Out in edges[i] || (i < |leaves| && leaves[i]))
    }
  }

  lemma EdgeReach(g: Graph, i: int, j: int)
    requires g.Edge(i, j)
    ensures g.Reach(i, j)
  {
    assert g.Walk([i, j]);
  }

  lemma ReachTransitive(g: Graph, i: int, j: int, k: int)
    requires g.Reach(i, j) && g.Reach(j, k)
    ensures g.Reach(i, k)
  {
    var p :| g.Walk(p) && |p| > 1 && p[0] == i && p[|p| - 1] == j;
    var q :| g.Walk(q) && |q| > 1 && q[0] == j && q[|q| - 1] == k;
    var r := p + q[1..];
    forall x | 0 < x < |r| ensures g.Edge(r[x - 1], r[x]) {
      if x >= |p| {
        var y := x - |p| + 1;
        assert r[x] == q[y] && r[x - 1] == q[y - 1];
      }
    }
    assert g.Walk(r);
  }

  /** The first step of a walk: an edge, then possibly more. */
  lemma ReachFirst(g: Graph, i: int, j: int) returns (k: int)
    requires g.Reach(i, j)
    ensures g.Edge(i, k) && (k == j || g.Reach(k, j))
  {
    var p :| g.Walk(p) && |p| > 1 && p[0] == i && p[|p| - 1] == j;
    k := p[1];
    assert g.Edge(p[1 - 1], p[1]);
    if |p| > 2 {
      var q := p[1..];
      forall x | 0 < x < |q| ensures g.Edge(q[x - 1], q[x]) {
        assert g.Edge(p[x + 1 - 1], p[x + 1]);
      }
      assert g.Walk(q);
    }
  }

  /** A set closed under edges keeps every walk that starts in it. */
  lemma StaysInside(g: Graph, inside: set<int>, i: int, j: int)
    requires g.Reach(i, j)
    requires forall a, b :: (a == i || a in inside) && g.Edge(a, b) ==> b in inside
    ensures j in inside
  {
    var p :| g.Walk(p) && |p| > 1 && p[0] == i && p[|p| - 1] == j;
    assert g.Edge(p[1 - 1], p[1]);
    var x := 1;
    while x < |p| - 1
      invariant 1 <= x < |p| && p[x] in inside
    {
      assert g.Edge(p[x + 1 - 1], p[x + 1]);
      x := x + 1;
    }
  }

  /** The pairs of tasks with a walk of one or more steps between them. */
  ghost function Paths(g: Graph): set<(int, int)> {
    set i, j | 0 <= i < |g.edges| && 0 <= j < |g.edges| && g.Reach(i, j) :: (i, j)
  }

  lemma PathsReach(g: Graph, i: int, j: int)
    requires g.Valid()
    ensures (i, j) in Paths(g) <==> g.Reach(i, j)
  {
    if g.Reach(i, j) {
      var k := ReachFirst(g, i, j);
      StaysInside(g, (set x | 0 <= x < |g.edges| && g.edges[x] != []), i, j);
    }
  }

  // ── reachability by worklist ──────────────────────────────────────────────

  function Targets(edges: seq<Next>): (r: seq<int>)
    ensures forall j :: j in r <==> To(j) in edges
  {
    if edges == [] then [] else
      (if edges[0].To? then [edges[0].task] else []) + Targets(edges[1..])
  }

  function Unset(row: seq<bool>): nat {
    if row == [] then 0 else (if row[0] then 0 else 1) + Unset(row[1..])
  }

  lemma {:induction false} SettingOne(row: seq<bool>, j: nat)
    requires j < |row| && !row[j]
    ensures Unset(row[j := true]) < Unset(row)
  {
    if j > 0 {
      SettingOne(row[1..], j - 1);
      assert row[j := true][1..] == row[1..][j - 1 := true];
    } else {
      assert row[j := true][1..] == row[1..];
    }
  }

  /** `row` marks only what `i` reaches, and what it does not follow yet is stacked. */
  ghost predicate Visiting(g: Graph, i: int, row: seq<bool>, stack: seq<int>) {
    |row| == |g.edges| && AllReached(g, i, row, stack) && Pushed(g, i, row, stack)
  }

  /** What is marked or stacked is reachable. */
  ghost predicate AllReached(g: Graph, i: int, row: seq<bool>, stack: seq<int>) {
    && (forall j :: j in stack ==> 0 <= j < |row| && g.Reach(i, j))
    && (forall j :: 0 <= j < |row| && row[j] ==> g.Reach(i, j))
  }

  /** The tasks after `i` and after every marked task are marked or stacked. */
  ghost predicate Pushed(g: Graph, i: int, row: seq<bool>, stack: seq<int>) {
    && (forall j :: g.Edge(i, j) ==> Listed(row, stack, j))
    && forall j, k :: 0 <= j < |row| && row[j] && g.Edge(j, k) ==> Listed(row, stack, k)
  }

  ghost predicate Listed(row: seq<bool>, stack: seq<int>, j: int) {
    0 <= j < |row| && (row[j] || j in stack)
  }

  lemma ReachedNew(g: Graph, i: int, row: seq<bool>, stack: seq<int>, rest: seq<int>, j: int, after: seq<int>)
    requires g.Valid() && |row| == |g.edges| && AllReached(g, i, row, stack) && stack == rest + [j] && 0 <= j < |row|
    requires after == rest + Targets(g.edges[j])
    ensures AllReached(g, i, row[j := true], after)
  {
    assert stack[|rest|] == j && forall k :: k in rest ==> k in stack;
    forall k | k in after ensures 0 <= k < |row| && g.Reach(i, k) {
      if k !in rest {
        EdgeReach(g, j, k);
        ReachTransitive(g, i, j, k);
      }
    }
  }

  lemma PushedNew(g: Graph, i: int, row: seq<bool>, stack: seq<int>, rest: seq<int>, j: int, after: seq<int>)
    requires g.Valid() && |row| == |g.edges| && Pushed(g, i, row, stack) && stack == rest + [j] && 0 <= j < |row|
    requires after == rest + Targets(g.edges[j])
    ensures Pushed(g, i, row[j := true], after)
  {
    forall k | Listed(row, stack, k) ensures Listed(row[j := true], after, k) {
      assert k in stack ==> k in rest || k == j;
    }
    forall k | g.Edge(j, k) ensures Listed(row[j := true], after, k) {
      assert k in Targets(g.edges[j]);
    }
  }

  lemma VisitNew(g: Graph, i: int, row: seq<bool>, stack: seq<int>, rest: seq<int>, j: int)
    requires g.Valid() && Visiting(g, i, row, stack) && stack == rest + [j] && 0 <= j < |row| && !row[j]
    ensures Visiting(g, i, row[j := true], rest + Targets(g.edges[j]))
    ensures Unset(row[j := true]) < Unset(row)
  {
    SettingOne(row, j);
    var after := rest + Targets(g.edges[j]);
    ReachedNew(g, i, row, stack, rest, j, after);
    PushedNew(g, i, row, stack, rest, j, after);
  }

  lemma VisitOld(g: Graph, i: int, row: seq<bool>, stack: seq<int>, rest: seq<int>, j: int)
    requires Visiting(g, i, row, stack) && stack == rest + [j] && 0 <= j < |row| && row[j]
    ensures Visiting(g, i, row, rest)
  {
    forall k | k in stack ensures k in rest || k == j {
    }
    assert forall k :: k in rest ==> k in stack;
  }

  lemma VisitFirst(g: Graph, i: int, row: seq<bool>)
    requires g.Valid() && 0 <= i < |g.edges| && |row| == |g.edges| && forall j :: 0 <= j < |row| ==> !row[j]
    ensures Visiting(g, i, row, Targets(g.edges[i]))
  {
    forall j | j in Targets(g.edges[i]) ensures g.Reach(i, j) {
      EdgeReach(g, i, j);
    }
  }

  lemma VisitedAll(g: Graph, i: int, row: seq<bool>, j: int)
    requires g.Valid() && Visiting(g, i, row, []) && 0 <= j < |row|
    ensures row[j] <==> g.Reach(i, j)
  {
    if g.Reach(i, j) {
      StaysInside(g, (set k | 0 <= k < |row| && row[k]), i, j);
    }
  }

  /** The tasks reachable from `i`: a stack of targets still to visit. */
  method ReachableFrom(g: Graph, i: int) returns (reach: seq<bool>)
    requires g.Valid() && 0 <= i < |g.edges|
    ensures |reach| == |g.edges| && forall j :: 0 <= j < |reach| ==> (reach[j] <==> g.Reach(i, j))
  {
    var row := new bool[|g.edges|](_ => false);
    var stack := Targets(g.edges[i]);
    VisitFirst(g, i, row[..]);
    while stack != []
      invariant Visiting(g, i, row[..], stack)
      decreases Unset(row[..]), |stack|
    {
      var j, rest := stack[|stack| - 1], stack[..|stack| - 1];
      assert j in stack && stack == rest + [j];
      ghost var before := row[..];
      if !row[j] {
        VisitNew(g, i, before, stack, rest, j);
        row[j] := true;
        assert row[..] == before[j := true];
        stack := rest + Targets(g.edges[j]);
      } else {
        VisitOld(g, i, before, stack, rest, j);
        stack := rest;
      }
    }
    reach := row[..];
    forall j | 0 <= j < |reach| ensures reach[j] <==> g.Reach(i, j) {
      VisitedAll(g, i, reach, j);
    }
  }

  // ── components and traps of a reachability relation ───────────────────────

  type Relation = set<(int, int)>

  ghost predicate Transitive(r: Relation) {
    forall i, j, k :: (i, j) in r && (j, k) in r ==> (i, k) in r
  }

  /** `i` and `j` are on a common cycle. */
  predicate Mutual(r: Relation, i: int, j: int) {
    (i, j) in r && (j, i) in r
  }

  /** Some walk (possibly of no step) from `i` gets out. */
  ghost predicate Escapes(r: Relation, open: set<int>, i: int) {
    i in open || exists j :: (i, j) in r && j in open
  }

  /** `i` is on a cycle that no walk from it leaves, for another task or for good. */
  ghost predicate Trapped(r: Relation, open: set<int>, i: int) {
    Mutual(r, i, i) && !Escapes(r, open, i) && forall j :: (i, j) in r ==> Mutual(r, i, j)
  }

  /** `c` lists, in order, the tasks on a common cycle with `i`. */
  ghost predicate IsComponent(r: Relation, c: seq<int>, i: int) {
    && (forall j :: j in c <==> Mutual(r, i, j))
    && (forall x, y :: 0 <= x < y < |c| ==> c[x] < c[y])
  }

  lemma TrappedTogether(r: Relation, open: set<int>, k: int, i: int)
    requires Transitive(r) && Mutual(r, k, i) && Trapped(r, open, i)
    ensures Trapped(r, open, k)
  {
  }

  /** What a search has found below `n`: the components of trapped tasks that start
      there, each once, in the order of their first tasks. */
  ghost predicate Found(r: Relation, open: set<int>, out: seq<seq<int>>, n: int) {
    && (forall x :: 0 <= x < |out| ==> Reported(r, open, out[x], n))
    && (forall x, y :: 0 <= x < y < |out| ==> out[x] != [] && out[y] != [] && out[x][0] < out[y][0])
    && (forall i {:trigger InComponent(out, i)} :: 0 <= i < n && Trapped(r, open, i) ==> InComponent(out, i))
  }

  ghost predicate InComponent(out: seq<seq<int>>, i: int) {
    exists x :: 0 <= x < |out| && i in out[x]
  }

  ghost predicate Reported(r: Relation, open: set<int>, c: seq<int>, n: int) {
    c != [] && c[0] < n && Trapped(r, open, c[0]) && IsComponent(r, c, c[0])
  }

  /** A task of an earlier component adds nothing. */
  lemma SeenBefore(r: Relation, open: set<int>, out: seq<seq<int>>, i: int, k: int)
    requires Transitive(r) && Found(r, open, out, i) && 0 <= k < i && Mutual(r, k, i)
    ensures Found(r, open, out, i + 1)
  {
    if Trapped(r, open, i) {
      TrappedTogether(r, open, k, i);
      assert InComponent(out, k);
      var x :| 0 <= x < |out| && k in out[x];
      assert Reported(r, open, out[x], i) && Mutual(r, out[x][0], k);
      assert i in out[x];
    }
    assert forall x :: 0 <= x < |out| ==> Reported(r, open, out[x], i) ==> Reported(r, open, out[x], i + 1);
  }

  lemma FirstOfComponent(r: Relation, c: seq<int>, i: int)
    requires IsComponent(r, c, i) && Mutual(r, i, i)
    requires forall k :: 0 <= k < i ==> !Mutual(r, k, i)
    requires forall k :: k in c ==> 0 <= k
    ensures c != [] && c[0] == i
  {
    assert i in c;
    assert Mutual(r, i, c[0]) && Mutual(r, c[0], i);
  }

  lemma FoundMore(r: Relation, open: set<int>, out: seq<seq<int>>, i: int, c: seq<int>)
    requires Found(r, open, out, i) && Reported(r, open, c, i + 1) && c[0] == i && i in c
    ensures Found(r, open, out + [c], i + 1)
  {
    var more := out + [c];
    forall x | 0 <= x < |more| ensures Reported(r, open, more[x], i + 1) && (x < |out| ==> more[x][0] < i) {
      assert x < |out| ==> Reported(r, open, out[x], i);
    }
    forall j | 0 <= j < i + 1 && Trapped(r, open, j) ensures InComponent(more, j) {
      if j < i {
        assert InComponent(out, j);
        var x :| 0 <= x < |out| && j in out[x];
        assert more[x] == out[x];
      } else {
        assert j in more[|out|];
      }
    }
  }

  lemma FoundNone(r: Relation, open: set<int>, out: seq<seq<int>>, i: int)
    requires Found(r, open, out, i) && !Trapped(r, open, i)
    ensures Found(r, open, out, i + 1)
  {
    assert forall x :: 0 <= x < |out| ==> Reported(r, open, out[x], i) ==> Reported(r, open, out[x], i + 1);
  }

  /** Two reported components share no task, so each is reported once. */
  lemma ReportedOnce(r: Relation, open: set<int>, out: seq<seq<int>>, n: int, x: nat, y: nat, i: int)
    requires Transitive(r) && Found(r, open, out, n) && x < |out| && y < |out| && i in out[x] && i in out[y]
    ensures x == y
  {
    var a, b := out[x][0], out[y][0];
    assert Reported(r, open, out[x], n) && Reported(r, open, out[y], n);
    assert Mutual(r, a, i) && Mutual(r, b, i);
    assert b in out[x] && a in out[y];
    assert a in out[x] && b in out[y];
    FirstIsLeast(out[x], b);
    FirstIsLeast(out[y], a);
  }

  lemma FirstIsLeast(c: seq<int>, i: int)
    requires i in c && forall x, y :: 0 <= x < y < |c| ==> c[x] < c[y]
    ensures c[0] <= i
  {
  }

  // ── where a walk that never gets out ends ─────────────────────────────────

  /** `i` and the tasks reachable from it. */
  ghost function Below(r: Relation, n: nat, i: int): set<int> {
    set j | 0 <= j < n && (j == i || (i, j) in r)
  }

  /** Every task that is not open has somewhere to go. */
  ghost predicate Continues(r: Relation, open: set<int>, n: nat) {
    forall i {:trigger HasNext(r, i)} :: 0 <= i < n && i !in open ==> HasNext(r, i)
  }

  ghost predicate HasNext(r: Relation, i: int) {
    exists j :: (i, j) in r
  }

  /** From a task that never escapes, some walk ends in a trap: of the tasks it
      reaches, one with the fewest tasks below. */
  lemma {:induction false} TrapExists(r: Relation, open: set<int>, n: nat, i: int) returns (s: int)
    requires Transitive(r) && Continues(r, open, n) && 0 <= i < n && !Escapes(r, open, i)
    requires forall a, b :: (a, b) in r ==> 0 <= a < n && 0 <= b < n
    ensures Trapped(r, open, s) && 0 <= s < n
    decreases |Below(r, n, i)|
  {
    if j :| (i, j) in r && (j, i) !in r {
      Narrower(r, n, i, j);
      s := TrapExists(r, open, n, j);
    } else {
      s := i;
      assert HasNext(r, i);
      var j :| (i, j) in r;
      assert (j, i) in r;
    }
  }

  lemma Narrower(r: Relation, n: nat, i: int, j: int)
    requires Transitive(r) && 0 <= i < n && (i, j) in r && (j, i) !in r
    ensures |Below(r, n, j)| < |Below(r, n, i)|
  {
    var big, small := Below(r, n, i), Below(r, n, j);
    assert small <= big && i in big - small;
    assert |big| == |small| + |big - small|;
  }

  // ── the code's test of a component ────────────────────────────────────────

  /** Some task can leave, or has more than one edge and one of them out of the
      component. */
  predicate HasExit(g: Graph, c: seq<int>)
    requires |g.edges| == |g.leaves| && forall j :: j in c ==> 0 <= j < |g.edges|
  {
    exists j | j in c :: g.leaves[j] || (|g.edges[j]| > 1 && exists n | n in g.edges[j] :: !(n.To? && n.task in c))
  }

  /** A path begins with an edge. */
  ghost predicate HasStep(g: Graph, r: Relation, i: int, j: int) {
    exists k :: g.Edge(i, k) && (k == j || (k, j) in r)
  }

  /** The facts about a graph's paths the search relies on. */
  ghost predicate ArePaths(g: Graph, r: Relation, open: set<int>) {
    && Transitive(r) && Continues(r, open, |g.edges|)
    && (forall i, j :: (i, j) in r ==> 0 <= i < |g.edges| && 0 <= j < |g.edges|)
    && (forall i, j :: g.Edge(i, j) ==> (i, j) in r)
    && (forall i, j {:trigger HasStep(g, r, i, j)} :: (i, j) in r ==> HasStep(g, r, i, j))
    && (forall i :: i in open <==> g.Open(i))
    && (forall inside {:trigger Closed(g, inside)} :: Closed(g, inside) ==> Keeps(r, inside))
  }

  /** No edge leads out of the set. */
  ghost predicate Closed(g: Graph, inside: set<int>) {
    forall i, j :: i in inside && g.Edge(i, j) ==> j in inside
  }

  /** No path leads out of the set. */
  ghost predicate Keeps(r: Relation, inside: set<int>) {
    forall i, j :: i in inside && (i, j) in r ==> j in inside
  }

  ghost function OpenTasks(g: Graph): set<int> {
    set i | 0 <= i < |g.edges| && g.Open(i)
  }

  lemma GraphPaths(g: Graph)
    requires g.Valid()
    ensures ArePaths(g, Paths(g), OpenTasks(g))
  {
    var r, open := Paths(g), OpenTasks(g);
    forall i, j ensures (i, j) in r <==> g.Reach(i, j) {
      PathsReach(g, i, j);
    }
    forall i, j, k | (i, j) in r && (j, k) in r ensures (i, k) in r {
      ReachTransitive(g, i, j, k);
    }
    forall i, j | g.Edge(i, j) ensures (i, j) in r {
      EdgeReach(g, i, j);
    }
    forall i, j | (i, j) in r ensures HasStep(g, r, i, j) {
      var k := ReachFirst(g, i, j);
    }
    forall i | 0 <= i < |g.edges| && i !in open ensures HasNext(r, i) {
      var n := g.edges[i][0];
      assert n in g.edges[i] && g.Edge(i, n.task);
    }
    forall inside, i, j | Closed(g, inside) && i in inside && (i, j) in r ensures j in inside {
      StaysInside(g, inside, i, j);
    }
  }

  /** A task on a cycle continues on it, so a single edge never leads out and the
      test for more than one edge does not decide: the component is left exactly when
      one of its tasks is open or has an edge to a task off the component. */
  lemma ExitIsExact(g: Graph, r: Relation, open: set<int>, c: seq<int>, i: int)
    requires g.Valid() && ArePaths(g, r, open) && IsComponent(r, c, i)
    requires forall j :: j in c ==> 0 <= j < |g.edges|
    ensures HasExit(g, c) <==> IsLeft(g, open, c)
  {
    if j :| j in c && (j in open || exists k :: g.Edge(j, k) && k !in c) {
      if !g.leaves[j] {
        var n :| n in g.edges[j] && !(n.To? && n.task in c);
        assert HasStep(g, r, j, i);
        var k :| g.Edge(j, k) && (k == i || (k, i) in r);
        assert Mutual(r, i, j) && (j, k) in r;
        assert k in c;
        assert |g.edges[j]| > 1 by {
          TwoEdges(g.edges[j], n, To(k));
        }
      }
      assert HasExit(g, c);
    }
    if HasExit(g, c) {
      var j :| j in c && (g.leaves[j] || (|g.edges[j]| > 1 && exists n | n in g.edges[j] :: !(n.To? && n.task in c)));
      if !g.leaves[j] {
        var n :| n in g.edges[j] && !(n.To? && n.task in c);
        assert n.Out? || g.Edge(j, n.task);
      }
    }
  }

  lemma TwoEdges(s: seq<Next>, a: Next, b: Next)
    requires a in s && b in s && a != b
    ensures |s| > 1
  {
  }

  /** Some task of the component is open, or has an edge off it. */
  ghost predicate IsLeft(g: Graph, open: set<int>, c: seq<int>) {
    exists j :: j in c && (j in open || exists k :: g.Edge(j, k) && k !in c)
  }

  lemma ClosedIsTrapped(g: Graph, r: Relation, open: set<int>, c: seq<int>, i: int)
    requires ArePaths(g, r, open) && IsComponent(r, c, i) && Mutual(r, i, i) && !IsLeft(g, open, c)
    ensures Trapped(r, open, i)
  {
    assert Closed(g, set k | k in c);
    assert i in set k | k in c;
  }

  lemma TrappedIsClosed(g: Graph, r: Relation, open: set<int>, c: seq<int>, i: int)
    requires Transitive(r) && IsComponent(r, c, i) && Trapped(r, open, i) && forall j, k :: g.Edge(j, k) ==> (j, k) in r
    ensures !IsLeft(g, open, c)
  {
    forall j, k | j in c && g.Edge(j, k) ensures k in c {
      assert (i, j) in r && (j, k) in r;
    }
  }

  /** A component without an exit is one of trapped tasks, and the other way round. */
  lemma NoExitIsTrapped(g: Graph, r: Relation, open: set<int>, c: seq<int>, i: int)
    requires g.Valid() && ArePaths(g, r, open) && IsComponent(r, c, i) && Mutual(r, i, i)
    requires forall j :: j in c ==> 0 <= j < |g.edges|
    ensures !HasExit(g, c) <==> Trapped(r, open, i)
  {
    ExitIsExact(g, r, open, c, i);
    if IsLeft(g, open, c) {
      if Trapped(r, open, i) {
        TrappedIsClosed(g, r, open, c, i);
      }
    } else {
      ClosedIsTrapped(g, r, open, c, i);
    }
  }

  // ── the search ────────────────────────────────────────────────────────────

  ghost predicate IsReach(r: Relation, reach: seq<seq<bool>>, n: nat) {
    |reach| == n && (forall i :: 0 <= i < n ==> |reach[i]| == n) &&
    forall i, j :: 0 <= i < n && 0 <= j < n ==> (reach[i][j] <==> (i, j) in r)
  }

  method Component(ghost r: Relation, reach: seq<seq<bool>>, n: nat, i: nat) returns (c: seq<int>)
    requires IsReach(r, reach, n) && i < n && Mutual(r, i, i)
    requires forall a, b :: (a, b) in r ==> 0 <= a < n && 0 <= b < n
    ensures IsComponent(r, c, i) && forall j :: j in c ==> 0 <= j < n
  {
    c := [];
    for j := 0 to n
      invariant forall k :: k in c <==> 0 <= k < j && Mutual(r, i, k)
      invariant Ascending(c, j)
    {
      var mutual := j == i || (reach[i][j] && reach[j][i]);
      assert mutual <==> Mutual(r, i, j) by {
        assert reach[i][j] <==> (i, j) in r;
        assert reach[j][i] <==> (j, i) in r;
      }
      if mutual {
        AscendingMore(c, j);
        c := c + [j];
      }
    }
  }

  /** In ascending order, below a bound. */
  ghost predicate Ascending(c: seq<int>, bound: int) {
    && (forall x :: 0 <= x < |c| ==> c[x] < bound)
    && forall x, y :: 0 <= x < y < |c| ==> c[x] < c[y]
  }

  lemma AscendingMore(c: seq<int>, j: int)
    requires Ascending(c, j)
    ensures Ascending(c + [j], j + 1)
  {
  }

  /** Tasks on a cycle with one of the first `i` tasks. */
  predicate Covered(r: Relation, i: int, j: int) {
    exists k :: 0 <= k < i && Mutual(r, k, j)
  }

  lemma CoverMore(r: Relation, i: nat, j: int)
    requires Transitive(r)
    ensures Covered(r, i + 1, j) <==> Covered(r, i, j) || Mutual(r, i, j)
    ensures Mutual(r, i, j) && Covered(r, i, i) ==> Covered(r, i, j)
    ensures !Mutual(r, i, i) ==> !Mutual(r, i, j)
  {
    if Mutual(r, i, j) && Covered(r, i, i) {
      var k :| 0 <= k < i && Mutual(r, k, i);
      assert Mutual(r, k, j);
    }
  }

  method ReachMatrix(g: Graph) returns (reach: seq<seq<bool>>)
    requires g.Valid()
    ensures IsReach(Paths(g), reach, |g.edges|)
  {
    var n := |g.edges|;
    reach := [];
    for i := 0 to n
      invariant |reach| == i && forall k :: 0 <= k < i ==> |reach[k]| == n
      invariant forall k, j :: 0 <= k < i && 0 <= j < n ==> (reach[k][j] <==> (k, j) in Paths(g))
    {
      var row := ReachableFrom(g, i);
      forall j ensures (i, j) in Paths(g) <==> g.Reach(i, j) {
        PathsReach(g, i, j);
      }
      reach := reach + [row];
    }
  }

  /** Reports a new component if nothing leaves it. */
  method Report(g: Graph, ghost r: Relation, ghost open: set<int>, out: seq<seq<int>>, c: seq<int>, i: nat) returns (more: seq<seq<int>>)
    requires g.Valid() && ArePaths(g, r, open) && Found(r, open, out, i)
    requires Mutual(r, i, i) && !Covered(r, i, i) && IsComponent(r, c, i) && forall j :: j in c ==> 0 <= j < |g.edges|
    ensures Found(r, open, more, i + 1)
  {
    FirstOfComponent(r, c, i);
    NoExitIsTrapped(g, r, open, c, i);
    if HasExit(g, c) {
      FoundNone(r, open, out, i);
      more := out;
    } else {
      FoundMore(r, open, out, i, c);
      more := out + [c];
    }
  }

  /** `seen` marks the tasks on a cycle with one of the first `i`. */
  ghost predicate Marks(r: Relation, i: int, seen: seq<bool>) {
    forall j :: 0 <= j < |seen| ==> (seen[j] <==> Covered(r, i, j))
  }

  lemma MarksSkip(r: Relation, i: nat, seen: seq<bool>)
    requires Transitive(r) && Marks(r, i, seen) && (Covered(r, i, i) || !Mutual(r, i, i))
    ensures Marks(r, i + 1, seen)
  {
    forall j | 0 <= j < |seen| ensures seen[j] <==> Covered(r, i + 1, j) {
      CoverMore(r, i, j);
    }
  }

  lemma MarksMore(r: Relation, i: nat, c: seq<int>, seen: seq<bool>, after: seq<bool>)
    requires Transitive(r) && Marks(r, i, seen) && IsComponent(r, c, i) && |after| == |seen|
    requires forall j :: 0 <= j < |seen| ==> after[j] == (seen[j] || j in c)
    ensures Marks(r, i + 1, after)
  {
    forall j | 0 <= j < |seen| ensures after[j] <==> Covered(r, i + 1, j) {
      CoverMore(r, i, j);
    }
  }

  method MarkAll(seen: array<bool>, c: seq<int>)
    requires forall j :: j in c ==> 0 <= j < seen.Length
    modifies seen
    ensures forall j :: 0 <= j < seen.Length ==> seen[..][j] == (old(seen[..])[j] || j in c)
  {
    for x := 0 to |c|
      invariant forall j :: 0 <= j < seen.Length ==> seen[j] == (old(seen[..])[j] || j in c[..x])
    {
      assert c[..x + 1] == c[..x] + [c[x]] && c[x] in c;
      seen[c[x]] := true;
    }
    assert c[..|c|] == c;
  }

  method Search(g: Graph) returns (out: seq<seq<int>>)
    requires g.Valid()
    ensures Found(Paths(g), OpenTasks(g), out, |g.edges|)
  {
    ghost var r, open := Paths(g), OpenTasks(g);
    GraphPaths(g);
    var reach := ReachMatrix(g);
    out := SearchFrom(g, reach, r, open);
  }

  lemma StartsUnmarked(r: Relation, open: set<int>, seen: seq<bool>)
    requires forall k :: 0 <= k < |seen| ==> !seen[k]
    ensures Found(r, open, [], 0) && Marks(r, 0, seen)
  {
  }

  method SearchFrom(g: Graph, reach: seq<seq<bool>>, ghost r: Relation, ghost open: set<int>) returns (out: seq<seq<int>>)
    requires g.Valid() && ArePaths(g, r, open) && IsReach(r, reach, |g.edges|)
    ensures Found(r, open, out, |g.edges|)
  {
    var n := |g.edges|;
    var seen := new bool[n](_ => false);
    out := [];
    StartsUnmarked(r, open, seen[..]);
    for i := 0 to n
      invariant Found(r, open, out, i) && Marks(r, i, seen[..])
    {
      out := SearchTask(g, reach, r, open, out, seen, i);
    }
  }

  /** One task: already seen, on a new component, or on no cycle. */
  method SearchTask(g: Graph, reach: seq<seq<bool>>, ghost r: Relation, ghost open: set<int>, out: seq<seq<int>>, seen: array<bool>, i: nat)
    returns (more: seq<seq<int>>)
    requires g.Valid() && ArePaths(g, r, open) && IsReach(r, reach, |g.edges|)
    requires i < |g.edges| == seen.Length && Found(r, open, out, i) && Marks(r, i, seen[..])
    modifies seen
    ensures Found(r, open, more, i + 1) && Marks(r, i + 1, seen[..])
  {
    assert seen[..][i] == seen[i];
    assert reach[i][i] <==> Mutual(r, i, i) by {
      assert reach[i][i] <==> (i, i) in r;
    }
    if seen[i] {
      SeenSkip(r, open, out, i, seen[..]);
      more := out;
    } else if reach[i][i] {
      more := Collect(g, reach, r, open, out, seen, i);
    } else {
      FoundNone(r, open, out, i);
      MarksSkip(r, i, seen[..]);
      more := out;
    }
  }

  lemma SeenSkip(r: Relation, open: set<int>, out: seq<seq<int>>, i: nat, seen: seq<bool>)
    requires Transitive(r) && Found(r, open, out, i) && Marks(r, i, seen) && i < |seen| && seen[i]
    ensures Found(r, open, out, i + 1) && Marks(r, i + 1, seen)
  {
    var k :| 0 <= k < i && Mutual(r, k, i);
    SeenBefore(r, open, out, i, k);
    MarksSkip(r, i, seen);
  }

  /** A new component: marked, and reported if nothing leaves it. */
  method Collect(g: Graph, reach: seq<seq<bool>>, ghost r: Relation, ghost open: set<int>, out: seq<seq<int>>, seen: array<bool>, i: nat)
    returns (more: seq<seq<int>>)
    requires g.Valid() && ArePaths(g, r, open) && IsReach(r, reach, |g.edges|)
    requires i < |g.edges| == seen.Length && Found(r, open, out, i) && Marks(r, i, seen[..])
    requires Mutual(r, i, i) && !Covered(r, i, i)
    modifies seen
    ensures Found(r, open, more, i + 1) && Marks(r, i + 1, seen[..])
  {
    var c := Component(r, reach, |g.edges|, i);
    more := Report(g, r, open, out, c, i);
    ghost var before := seen[..];
    MarkAll(seen, c);
    MarksMore(r, i, c, before, seen[..]);
  }

  // ── the result ────────────────────────────────────────────────────────────

  function GraphOf(tasks: TaskList, functions: set<string>): (g: Graph)
    ensures g.Valid() && |g.edges| == |tasks|
    ensures forall i :: 0 <= i < |tasks| ==> g.edges[i] == Successors(tasks, i) && g.leaves[i] == CanLeave(tasks[i].1, functions)
  {
    Graph(seq(|tasks|, i requires 0 <= i < |tasks| => Successors(tasks, i)),
          seq(|tasks|, i requires 0 <= i < |tasks| => CanLeave(tasks[i].1, functions)))
  }

  /** The closed cycles of a list: exactly the strongly connected components that have
      an edge back and that no walk leaves, each once; none exactly when from every
      task some path leaves the list or meets a task that can. */
  method ClosedCycles(tasks: TaskList, functions: set<string>) returns (out: seq<seq<int>>)
    ensures var g := GraphOf(tasks, functions); Found(Paths(g), OpenTasks(g), out, |tasks|)
    ensures var g := GraphOf(tasks, functions);
            out == [] <==> forall i :: 0 <= i < |tasks| ==> Escapes(Paths(g), OpenTasks(g), i)
  {
    var g := GraphOf(tasks, functions);
    out := Search(g);
    GraphPaths(g);
    EmptyMeansEscape(Paths(g), OpenTasks(g), out, |tasks|);
  }

  lemma NoneTrapped(r: Relation, open: set<int>, n: nat, i: int)
    requires Found(r, open, [], n) && 0 <= i < n
    ensures !Trapped(r, open, i)
  {
    assert !InComponent([], i);
  }

  /** Nothing is reported exactly when from every task some path gets out. */
  lemma EmptyMeansEscape(r: Relation, open: set<int>, out: seq<seq<int>>, n: nat)
    requires Transitive(r) && Continues(r, open, n) && Found(r, open, out, n)
    requires forall a, b :: (a, b) in r ==> 0 <= a < n && 0 <= b < n
    ensures out == [] <==> forall i :: 0 <= i < n ==> Escapes(r, open, i)
  {
    if out == [] {
      forall i | 0 <= i < n ensures Escapes(r, open, i) {
        if !Escapes(r, open, i) {
          var s := TrapExists(r, open, n, i);
          NoneTrapped(r, open, n, s);
        }
      }
    } else {
      assert Reported(r, open, out[0], n) && Trapped(r, open, out[0][0]);
    }
  }
}

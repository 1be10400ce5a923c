/**
 The pipeline terminates. Every move leaves less to do at one extraction depth and adds work only at greater
 depths, so no run goes on for ever; and as long as a task exists some move is possible, so every run can be
 completed.
 */
module PipelineTermination {
  import opened Basics
  import opened TaskScheduler
  import opened AnalysisRun
  import opened Unpacker
  import opened Status
  import opened StatusHistory
  import opened Pipeline
  import opened PipelineCoverage

  /** What all tasks weigh together. */
  function Total(weight: Task -> nat, tasks: seq<Task>): nat {
    if tasks == [] then 0 else weight(tasks[0]) + Total(weight, tasks[1..])
  }

  lemma {:induction false} TotalConcat(weight: Task -> nat, a: seq<Task>, b: seq<Task>)
    ensures Total(weight, a + b) == Total(weight, a) + Total(weight, b)
  {
    if a == [] {
      assert a + b == b;
    } else {
      TotalConcat(weight, a[1..], b);
      ConcatTail(a, b);
    }
  }

  lemma TotalReplace(weight: Task -> nat, tasks: seq<Task>, i: nat, put: seq<Task>)
    requires i < |tasks|
    ensures Total(weight, Replace(tasks, i, put)) == Total(weight, tasks) - weight(tasks[i]) + Total(weight, put)
  {
    var before, after := tasks[..i], tasks[i + 1..];
    TotalConcat(weight, before + put, after);
    TotalConcat(weight, before, put);
    TotalConcat(weight, before, [tasks[i]] + after);
    assert tasks == before + ([tasks[i]] + after);
    assert ([tasks[i]] + after)[1..] == after;
  }

  lemma TotalOne(weight: Task -> nat, t: Task)
    ensures Total(weight, [t]) == weight(t)
  {
    assert [t][1..] == [];
  }

  lemma TotalTwo(weight: Task -> nat, t: Task, u: Task)
    ensures Total(weight, [t, u]) == weight(t) + weight(u)
  {
    assert [t, u][1..] == [u];
    TotalOne(weight, u);
  }

  function StageWeight(s: Stage): nat {
    match s
    case Waiting(o) => 3 * |o.scheduled|
    case AtPlugin(o, _) => 3 * |o.scheduled| + 2
    case AtCollector(o, _) => 3 * |o.scheduled| + 1
    case _ => 0
  }

  lemma {:induction false} WithoutIsShorter(plugins: Plugins, plan: seq<Plugin>, failed: Plugin)
    ensures |Without(plugins, plan, failed)| <= |plan|
  {
    if plan != [] {
      WithoutIsShorter(plugins, plan[1..], failed);
    }
  }

  lemma StageLightens(plugins: Plugins, s: Stage, c: AnalysisRun.Choice)
    requires Enabled(s, c)
    ensures StageWeight(Step(plugins, s, c)) < StageWeight(s)
  {
    if s.AtCollector? && s.o.exception.Some? {
      WithoutIsShorter(plugins, s.o.scheduled, s.o.exception.value);
    }
  }

  /** A plan has at most as many entries as there are plugins. */
  lemma PlanIsBounded(cfg: Config, requested: seq<Plugin>, plan: seq<Plugin>)
    requires ValidConfig(cfg) && IsPlanFor(cfg.plugins, requested, plan)
    ensures |plan| <= |cfg.plugins|
  {
    var closure :| IsClosure(cfg.plugins, ToSet(requested), closure)
      && IsPlan(cfg.plugins, closure + ToSet(MANDATORY_PLUGINS), plan);
    LeftOutForADependency(cfg.plugins, closure + ToSet(MANDATORY_PLUGINS), plan);
    NoDupSize(plan);
    SubsetSize(ToSet(plan), cfg.plugins.Keys);
  }

  /** What is left of a planned object: an analysis that is no heavier than all plugins, and its children. */
  lemma PlannedTasks(cfg: Config, t: Task, a: Action)
    requires t.Registered? && Enables(cfg, t, a) && a.Plan?
    ensures var tasks := Fire(cfg, t, a).tasks;
            if a.plan == [] then tasks == [Holding(t.children)]
            else tasks == [Analysing(Waiting(t.o.(scheduled := a.plan))), Holding(t.children)]
                 && StageWeight(tasks[0].s) <= 3 * |cfg.plugins|
  {
    PlanIsBounded(cfg, t.o.scheduled, a.plan);
  }

  // ----- No run goes on for ever -----

  /** The work at one extraction depth; the last level counts workers that still hold children. */
  function Rank(cfg: Config, o: FileObject): nat {
    if o.depth < cfg.maxDepth then o.depth else cfg.maxDepth
  }

  /** More than the steps of one object, from the unpack queue on. */
  function ObjectCost(cfg: Config): nat {
    3 * |cfg.plugins| + 3
  }

  function ChildLevel(cfg: Config, children: seq<FileObject>, level: nat): nat {
    if children == [] then 0
    else (if Rank(cfg, children[0]) == level then ObjectCost(cfg) + 1 else 0) + ChildLevel(cfg, children[1..], level)
  }

  function TaskLevel(cfg: Config, t: Task, level: nat): nat {
    match t
    case Queued(o) => if Rank(cfg, o) == level then ObjectCost(cfg) else 0
    case Expanded(o, children) => (if Rank(cfg, o) == level then ObjectCost(cfg) - 1 else 0) + ChildLevel(cfg, children, level)
    case Registered(o, children) => (if Rank(cfg, o) == level then ObjectCost(cfg) - 2 else 0) + ChildLevel(cfg, children, level)
    case Holding(children) => (if level == cfg.maxDepth + 1 then 1 else 0) + ChildLevel(cfg, children, level)
    case Analysing(s) => if Rank(cfg, s.o) == level then StageWeight(s) else 0
  }

  function AtLevel(cfg: Config, level: nat): Task -> nat {
    t => TaskLevel(cfg, t, level)
  }

  function Level(cfg: Config, tasks: seq<Task>, level: nat): nat {
    Total(AtLevel(cfg, level), tasks)
  }

  /** Less is left at `level`, and no more on the levels before it. */
  ghost predicate Lowers(cfg: Config, before: seq<Task>, after: seq<Task>, level: nat) {
    && level <= cfg.maxDepth + 1 && Level(cfg, after, level) < Level(cfg, before, level)
    && forall l: nat :: l < level ==> Level(cfg, after, l) <= Level(cfg, before, l)
  }

  lemma {:induction false} DeeperChildren(cfg: Config, o: FileObject, children: seq<FileObject>, level: nat)
    requires forall i :: 0 <= i < |children| ==> children[i].depth == o.depth + 1
    requires o.depth < cfg.maxDepth && level <= Rank(cfg, o)
    ensures ChildLevel(cfg, children, level) == 0
  {
    if children != [] {
      DeeperChildren(cfg, o, children[1..], level);
    }
  }

  /** An extraction leaves less at the depth of the file; the children are a level deeper. */
  lemma UnpackLowers(cfg: Config, t: Task, a: Action)
    requires t.Queued? && Enables(cfg, t, a)
    ensures Lowers(cfg, [t], Fire(cfg, t, a).tasks, Rank(cfg, t.o))
  {
    forall l: nat | l <= Rank(cfg, t.o)
      ensures ChildLevel(cfg, a.children, l) == 0
    {
      if t.o.depth < cfg.maxDepth {
        DeeperChildren(cfg, t.o, a.children, l);
      }
    }
    SingleLowers(cfg, t, Fire(cfg, t, a).tasks[0], Rank(cfg, t.o));
  }

  lemma SingleLowers(cfg: Config, t: Task, u: Task, level: nat)
    requires level <= cfg.maxDepth + 1 && TaskLevel(cfg, u, level) < TaskLevel(cfg, t, level)
    requires forall l: nat :: l < level ==> TaskLevel(cfg, u, l) <= TaskLevel(cfg, t, l)
    ensures Lowers(cfg, [t], [u], level)
  {
    forall l: nat
      ensures Level(cfg, [t], l) == TaskLevel(cfg, t, l) && Level(cfg, [u], l) == TaskLevel(cfg, u, l)
    {
      TotalOne(AtLevel(cfg, l), t);
      TotalOne(AtLevel(cfg, l), u);
    }
  }

  lemma PairLowers(cfg: Config, t: Task, u: Task, v: Task, level: nat)
    requires level <= cfg.maxDepth + 1 && TaskLevel(cfg, u, level) + TaskLevel(cfg, v, level) < TaskLevel(cfg, t, level)
    requires forall l: nat :: l < level ==> TaskLevel(cfg, u, l) + TaskLevel(cfg, v, l) <= TaskLevel(cfg, t, l)
    ensures Lowers(cfg, [t], [u, v], level)
  {
    forall l: nat
      ensures Level(cfg, [t], l) == TaskLevel(cfg, t, l)
      ensures Level(cfg, [u, v], l) == TaskLevel(cfg, u, l) + TaskLevel(cfg, v, l)
    {
      TotalOne(AtLevel(cfg, l), t);
      TotalTwo(AtLevel(cfg, l), u, v);
    }
  }

  lemma PlanLowers(cfg: Config, t: Task, a: Action)
    requires t.Registered? && Enables(cfg, t, a) && a.Plan?
    ensures Lowers(cfg, [t], Fire(cfg, t, a).tasks, Rank(cfg, t.o))
  {
    PlannedTasks(cfg, t, a);
    if a.plan == [] {
      SingleLowers(cfg, t, Holding(t.children), Rank(cfg, t.o));
    } else {
      PairLowers(cfg, t, Analysing(Waiting(t.o.(scheduled := a.plan))), Holding(t.children), Rank(cfg, t.o));
    }
  }

  lemma HandLowers(cfg: Config, t: Task, a: Action) returns (level: nat)
    requires t.Holding? && Enables(cfg, t, a)
    ensures Lowers(cfg, [t], Fire(cfg, t, a).tasks, level)
  {
    if t.children == [] {
      level := cfg.maxDepth + 1;
      VanishingLowers(cfg, t, level);
    } else {
      level := Rank(cfg, t.children[0]);
      PairLowers(cfg, t, Queued(t.children[0]), Holding(t.children[1..]), level);
    }
  }

  /** Tasks that vanish leave nothing. */
  lemma VanishingLowers(cfg: Config, t: Task, level: nat)
    requires level <= cfg.maxDepth + 1 && TaskLevel(cfg, t, level) > 0
    ensures Lowers(cfg, [t], [], level)
  {
    TotalOne(AtLevel(cfg, level), t);
  }

  lemma FireLowers(cfg: Config, t: Task, a: Action) returns (level: nat)
    requires TaskOk(cfg, t) && Enables(cfg, t, a)
    ensures Lowers(cfg, [t], Fire(cfg, t, a).tasks, level)
  {
    match t
    case Queued(o) =>
      level := Rank(cfg, o);
      UnpackLowers(cfg, t, a);
    case Expanded(o, children) =>
      level := Rank(cfg, o);
      SingleLowers(cfg, t, Registered(o, children), level);
    case Registered(o, _) =>
      level := Rank(cfg, o);
      if a.Die? {
        VanishingLowers(cfg, t, level);
      } else {
        PlanLowers(cfg, t, a);
      }
    case Holding(_) =>
      level := HandLowers(cfg, t, a);
    case Analysing(s) =>
      level := Rank(cfg, s.o);
      if a.Analyse? {
        StageLightens(cfg.plugins, s, a.c);
        StepKeepsIdentity(cfg.plugins, s, a.c);
      }
      if Fire(cfg, t, a).tasks == [] {
        VanishingLowers(cfg, t, level);
      } else {
        SingleLowers(cfg, t, Fire(cfg, t, a).tasks[0], level);
      }
  }

  lemma MoveLowers(cfg: Config, st: State, m: Move) returns (level: nat)
    requires TasksOk(cfg, st.tasks) && CanMove(cfg, st, m)
    ensures Lowers(cfg, st.tasks, Moved(cfg, st, m).tasks, level)
  {
    var t, put := st.tasks[m.task], Fire(cfg, st.tasks[m.task], m.action).tasks;
    level := FireLowers(cfg, t, m.action);
    forall l: nat
      ensures Level(cfg, Moved(cfg, st, m).tasks, l) == Level(cfg, st.tasks, l) - Level(cfg, [t], l) + Level(cfg, put, l)
    {
      TotalReplace(AtLevel(cfg, l), st.tasks, m.task, put);
      TotalOne(AtLevel(cfg, l), t);
    }
  }

  /** An endless run would be a sequence of states and moves of which each one follows. */
  ghost predicate Follows(cfg: Config, states: nat -> State, moves: nat -> Move, n: nat) {
    CanMove(cfg, states(n), moves(n)) && states(n + 1) == Moved(cfg, states(n), moves(n))
  }

  ghost predicate IsEndless(cfg: Config, states: nat -> State, moves: nat -> Move) {
    Uploads(states(0)) && forall n: nat :: Follows(cfg, states, moves, n)
  }

  lemma {:induction false} EndlessIsOk(cfg: Config, states: nat -> State, moves: nat -> Move, n: nat)
    requires IsEndless(cfg, states, moves)
    ensures TasksOk(cfg, states(n).tasks)
  {
    if n == 0 {
      UploadsSatisfyInv(cfg, states(0));
    } else {
      EndlessIsOk(cfg, states, moves, n - 1);
      assert Follows(cfg, states, moves, n - 1);
      FireKeepsTaskOk(cfg, states(n - 1).tasks[moves(n - 1).task], moves(n - 1).action);
    }
  }

  ghost predicate NeverRises(f: nat -> nat, from: nat) {
    forall j: nat, k: nat :: from <= j <= k ==> f(k) <= f(j)
  }

  ghost predicate Constant(f: nat -> nat, from: nat) {
    forall k: nat :: from <= k ==> f(k) == f(from)
  }

  /** A number that never rises is constant in the end. */
  lemma {:induction false} Settles(f: nat -> nat, from: nat) returns (n: nat)
    requires NeverRises(f, from)
    ensures n >= from && Constant(f, n)
    decreases f(from)
  {
    n := from;
    if !Constant(f, from) {
      var k: nat :| from <= k && f(k) != f(from);
      n := Settles(f, k);
    }
  }

  lemma {:induction false} StepwiseNeverRises(f: nat -> nat, from: nat, j: nat, k: nat)
    requires from <= j <= k && forall i: nat :: from <= i ==> NoRise(f, i)
    ensures f(k) <= f(j)
    decreases k
  {
    if j < k {
      StepwiseNeverRises(f, from, j, k - 1);
      assert NoRise(f, k - 1);
    }
  }

  ghost predicate NoRise(f: nat -> nat, i: nat) {
    f(i + 1) <= f(i)
  }

  function LevelOf(cfg: Config, states: nat -> State, level: nat): nat -> nat {
    n => Level(cfg, states(n).tasks, level)
  }

  /** In an endless run, the work on every level would be constant in the end, one level after the other. */
  lemma {:induction false} LevelsSettle(cfg: Config, states: nat -> State, moves: nat -> Move, levels: nat) returns (n: nat)
    requires IsEndless(cfg, states, moves)
    ensures forall l: nat :: l < levels ==> Constant(LevelOf(cfg, states, l), n)
  {
    n := 0;
    if levels > 0 {
      var from := LevelsSettle(cfg, states, moves, levels - 1);
      var f := LevelOf(cfg, states, levels - 1);
      forall i: nat | from <= i
        ensures NoRise(f, i)
      {
        var level := LoweredAt(cfg, states, moves, i, levels - 1, from);
      }
      forall j: nat, k: nat | from <= j <= k
        ensures f(k) <= f(j)
      {
        StepwiseNeverRises(f, from, j, k);
      }
      n := Settles(f, from);
      forall l: nat | l < levels
        ensures Constant(LevelOf(cfg, states, l), n)
      {
        if l < levels - 1 {
          ConstantLater(LevelOf(cfg, states, l), from, n);
        }
      }
    }
  }

  lemma ConstantLater(f: nat -> nat, from: nat, n: nat)
    requires Constant(f, from) && from <= n
    ensures Constant(f, n)
  {
    assert f(n) == f(from);
  }

  /** Where the levels below are constant, the level that is lowered is not one of them. */
  lemma LoweredAt(cfg: Config, states: nat -> State, moves: nat -> Move, i: nat, levels: nat, from: nat) returns (level: nat)
    requires IsEndless(cfg, states, moves) && from <= i
    requires forall l: nat :: l < levels ==> Constant(LevelOf(cfg, states, l), from)
    ensures levels <= level <= cfg.maxDepth + 1 && NoRise(LevelOf(cfg, states, levels), i)
  {
    EndlessIsOk(cfg, states, moves, i);
    assert Follows(cfg, states, moves, i);
    forall l: nat | l < levels
      ensures Level(cfg, states(i + 1).tasks, l) == Level(cfg, states(i).tasks, l)
    {
      var f := LevelOf(cfg, states, l);
      assert f(i) == f(from) && f(i + 1) == f(from);
    }
    level := MoveLowers(cfg, states(i), moves(i));
  }

  /**
   No run from some uploads goes on for ever, however many files are extracted: some step of any endless
   sequence of states and moves is not one of the pipeline.
   */
  lemma NoEndlessRun(cfg: Config, states: nat -> State, moves: nat -> Move)
    requires Uploads(states(0))
    ensures exists n: nat :: !Follows(cfg, states, moves, n)
  {
    if IsEndless(cfg, states, moves) {
      var n := LevelsSettle(cfg, states, moves, cfg.maxDepth + 2);
      var level := LoweredAt(cfg, states, moves, n, cfg.maxDepth + 2, n);
    }
  }

  // ----- How long runs can be -----

  /** The weight of an object in the unpack queue if no extraction yields more than `files` files. */
  function UnpackWeight(cfg: Config, files: nat, depth: nat): nat
    decreases cfg.maxDepth - depth
  {
    4 + 3 * |cfg.plugins| + (if depth < cfg.maxDepth then files * (1 + UnpackWeight(cfg, files, depth + 1)) else 0)
  }

  function HoldWeight(cfg: Config, files: nat, children: seq<FileObject>): nat {
    if children == [] then 1 else 1 + UnpackWeight(cfg, files, children[0].depth) + HoldWeight(cfg, files, children[1..])
  }

  function TaskWeight(cfg: Config, files: nat, t: Task): nat {
    match t
    case Queued(o) => UnpackWeight(cfg, files, o.depth)
    case Expanded(_, children) => 2 + 3 * |cfg.plugins| + HoldWeight(cfg, files, children)
    case Registered(_, children) => 1 + 3 * |cfg.plugins| + HoldWeight(cfg, files, children)
    case Holding(children) => HoldWeight(cfg, files, children)
    case Analysing(s) => StageWeight(s)
  }

  function Weighing(cfg: Config, files: nat): Task -> nat {
    t => TaskWeight(cfg, files, t)
  }

  function Weight(cfg: Config, files: nat, tasks: seq<Task>): nat {
    Total(Weighing(cfg, files), tasks)
  }

  predicate ExtractsAtMost(a: Action, files: nat) {
    a.Unpack? ==> |a.children| <= files
  }

  /** Children of one file weigh no more than the file reserves for them. */
  lemma {:induction false} HoldWeightBound(cfg: Config, files: nat, children: seq<FileObject>, depth: nat)
    requires forall i :: 0 <= i < |children| ==> children[i].depth == depth
    ensures HoldWeight(cfg, files, children) == 1 + |children| * (1 + UnpackWeight(cfg, files, depth))
  {
    if children != [] {
      HoldWeightBound(cfg, files, children[1..], depth);
      OneMoreOf(|children| - 1, 1 + UnpackWeight(cfg, files, depth));
    }
  }

  lemma OneMoreOf(n: nat, w: nat)
    ensures (n + 1) * w == n * w + w
  {
  }

  lemma HoldWeightAtMost(cfg: Config, files: nat, children: seq<FileObject>, depth: nat)
    requires |children| <= files && forall i :: 0 <= i < |children| ==> children[i].depth == depth
    ensures HoldWeight(cfg, files, children) <= 1 + files * (1 + UnpackWeight(cfg, files, depth))
  {
    HoldWeightBound(cfg, files, children, depth);
    MultiplyBound(|children|, files, 1 + UnpackWeight(cfg, files, depth));
  }

  lemma MultiplyBound(a: nat, b: nat, c: nat)
    requires a <= b
    ensures a * c <= b * c
  {
  }

  lemma ExtractionLightens(cfg: Config, files: nat, o: FileObject, children: seq<FileObject>)
    requires IsExtraction(cfg.maxDepth, o, children) && |children| <= files
    ensures 2 + 3 * |cfg.plugins| + HoldWeight(cfg, files, children) < UnpackWeight(cfg, files, o.depth)
  {
    if o.depth < cfg.maxDepth {
      HoldWeightAtMost(cfg, files, children, o.depth + 1);
    } else {
      assert children == [];
    }
  }

  lemma PlanLightens(cfg: Config, files: nat, t: Task, a: Action)
    requires t.Registered? && Enables(cfg, t, a) && a.Plan?
    ensures Weight(cfg, files, Fire(cfg, t, a).tasks) < TaskWeight(cfg, files, t)
  {
    PlannedTasks(cfg, t, a);
    if a.plan == [] {
      TotalOne(Weighing(cfg, files), Holding(t.children));
    } else {
      TotalTwo(Weighing(cfg, files), Analysing(Waiting(t.o.(scheduled := a.plan))), Holding(t.children));
    }
  }

  /** Every step replaces a task by lighter ones. */
  lemma FireLightens(cfg: Config, files: nat, t: Task, a: Action)
    requires TaskOk(cfg, t) && Enables(cfg, t, a) && ExtractsAtMost(a, files)
    ensures Weight(cfg, files, Fire(cfg, t, a).tasks) < TaskWeight(cfg, files, t)
  {
    var tasks, w := Fire(cfg, t, a).tasks, Weighing(cfg, files);
    match t
    case Queued(o) =>
      ExtractionLightens(cfg, files, o, a.children);
      TotalOne(w, tasks[0]);
    case Expanded(_, _) =>
      TotalOne(w, tasks[0]);
    case Registered(_, _) =>
      if a.Plan? {
        PlanLightens(cfg, files, t, a);
      }
    case Holding(children) =>
      if children != [] {
        TotalTwo(w, tasks[0], tasks[1]);
      }
    case Analysing(s) =>
      if a.Analyse? {
        StageLightens(cfg.plugins, s, a.c);
      }
      if tasks != [] {
        TotalOne(w, tasks[0]);
      }
  }

  /** The length of a run and the weight of what it leaves are at most the weight of its start. */
  lemma {:induction false} RunIsBounded(cfg: Config, files: nat, st: State, moves: seq<Move>)
    requires TasksOk(cfg, st.tasks) && IsRun(cfg, st, moves)
    requires forall i :: 0 <= i < |moves| ==> ExtractsAtMost(moves[i].action, files)
    ensures |moves| + Weight(cfg, files, EndOf(cfg, st, moves).tasks) <= Weight(cfg, files, st.tasks)
    decreases |moves|
  {
    if moves != [] {
      var m, t := moves[0], st.tasks[moves[0].task];
      FireLightens(cfg, files, t, m.action);
      TotalReplace(Weighing(cfg, files), st.tasks, m.task, Fire(cfg, t, m.action).tasks);
      FireKeepsTaskOk(cfg, t, m.action);
      RunIsBounded(cfg, files, Moved(cfg, st, m), moves[1..]);
    }
  }

  // ----- Every run can be completed -----

  /** No task ever blocks: each has a next step, whatever the others do. */
  lemma TaskCanStep(cfg: Config, t: Task) returns (a: Action)
    requires TaskOk(cfg, t)
    ensures Enables(cfg, t, a) && ExtractsAtMost(a, 0)
  {
    match t
    case Queued(_) =>
      a := Unpack([]);
    case Expanded(_, _) =>
      a := Register;
    case Registered(o, _) =>
      if CanSchedule(cfg, o.scheduled) {
        var closure :| IsClosure(cfg.plugins, ToSet(o.scheduled), closure);
        var plan := PlanExists(cfg.plugins, closure + ToSet(MANDATORY_PLUGINS));
        a := Plan(plan);
      } else {
        a := Die;
      }
    case Holding(_) =>
      a := Hand;
    case Analysing(s) =>
      a := Analyse(match s case Waiting(_) => Decide(false, false, false) case AtPlugin(_, _) => Work(true) case _ => Collect);
  }

  /**
   A run from some uploads that cannot be continued has left no task, so that every uploaded firmware is
   finished and none is running, except those for which plugins were requested that cannot be scheduled.
   No run is longer than the weight of its uploads, given the greatest number of files in an extraction.
   */
  lemma PipelineTerminates(cfg: Config, st: State, moves: seq<Move>)
    requires Uploads(st) && IsRun(cfg, st, moves)
    ensures (forall m :: !CanMove(cfg, EndOf(cfg, st, moves), m)) ==>
              var t := TableOf(EndOf(cfg, st, moves));
              && EndOf(cfg, st, moves).tasks == [] && t.running.Keys <= Lost(cfg, st)
              && UploadedUids(st) - Lost(cfg, st) <= t.finished.Keys
    ensures forall files: nat :: (forall i :: 0 <= i < |moves| ==> ExtractsAtMost(moves[i].action, files)) ==>
              |moves| <= Weight(cfg, files, st.tasks)
  {
    var end := EndOf(cfg, st, moves);
    UploadsSatisfyInv(cfg, st);
    PipelineCoverage.RunKeepsInv(cfg, st, moves, UploadedUids(st), Lost(cfg, st));
    forall files: nat | forall i :: 0 <= i < |moves| ==> ExtractsAtMost(moves[i].action, files)
      ensures |moves| <= Weight(cfg, files, st.tasks)
    {
      RunIsBounded(cfg, files, st, moves);
    }
    if end.tasks == [] {
      NoFirmwareGetsStuck(cfg, st, moves);
    } else {
      var a := TaskCanStep(cfg, end.tasks[0]);
      assert CanMove(cfg, end, Move(0, a));
    }
  }

  /** Any run can be continued until no task is left. */
  lemma {:induction false} EveryRunCanFinish(cfg: Config, st: State) returns (moves: seq<Move>)
    requires TasksOk(cfg, st.tasks)
    ensures IsRun(cfg, st, moves) && EndOf(cfg, st, moves).tasks == []
    decreases Weight(cfg, 0, st.tasks)
  {
    moves := [];
    if st.tasks != [] {
      var t := st.tasks[0];
      var a := TaskCanStep(cfg, t);
      FireLightens(cfg, 0, t, a);
      TotalReplace(Weighing(cfg, 0), st.tasks, 0, Fire(cfg, t, a).tasks);
      FireKeepsTaskOk(cfg, t, a);
      moves := EveryRunCanFinish(cfg, Moved(cfg, st, Move(0, a)));
      FirstMove(cfg, st, Move(0, a), moves);
      moves := [Move(0, a)] + moves;
    }
  }

  // ----- Dependencies are met in the whole pipeline -----

  /** Plugins that others depend on run on every depth, and `file_type` depends on nothing. */
  ghost predicate DependenciesRunEverywhere(plugins: Plugins) {
    && (forall p, d :: p in plugins && d in plugins[p].dependencies && d in plugins ==> plugins[d].recursive)
    && Deps(plugins, FILE_TYPE) == {}
  }

  lemma PlannedStageIsSound(cfg: Config, o: FileObject, plan: seq<Plugin>)
    requires ValidConfig(cfg) && DependenciesRunEverywhere(cfg.plugins)
    requires IsPlanFor(cfg.plugins, o.scheduled, plan) && o.exception == None
    ensures Sound(cfg.plugins, CheckFurther(o.(scheduled := plan)))
  {
    var closure :| IsClosure(cfg.plugins, ToSet(o.scheduled), closure)
      && IsPlan(cfg.plugins, closure + ToSet(MANDATORY_PLUGINS), plan);
    var s := closure + ToSet(MANDATORY_PLUGINS);
    LeftOutForADependency(cfg.plugins, s, plan);
    forall p, d | p in plan && d in Deps(cfg.plugins, p)
      ensures RunsAt(cfg.plugins, o.depth, d)
    {
      assert p in ToSet(plan) && p in s;
      assert d in ToSet(plan);
    }
    OrderedUnlessFileTypeDepends(cfg.plugins, s, plan, o.processed.Keys);
    ReachIsOrder(cfg.plugins, {}, plan, o.processed.Keys);
    CheckFurtherSound(cfg.plugins, o.(scheduled := plan));
  }

  ghost predicate NoExceptionYet(t: Task) {
    match t
    case Queued(o) => o.exception == None
    case Expanded(o, children) => o.exception == None && forall i :: 0 <= i < |children| ==> children[i].exception == None
    case Registered(o, children) => o.exception == None && forall i :: 0 <= i < |children| ==> children[i].exception == None
    case Holding(children) => forall i :: 0 <= i < |children| ==> children[i].exception == None
    case Analysing(s) => true
  }

  ghost predicate SoundTask(cfg: Config, t: Task) {
    NoExceptionYet(t) && (t.Analysing? ==> Sound(cfg.plugins, t.s))
  }

  lemma FireKeepsSound(cfg: Config, t: Task, a: Action)
    requires DependenciesRunEverywhere(cfg.plugins)
    requires SoundTask(cfg, t) && Enables(cfg, t, a)
    ensures forall i :: 0 <= i < |Fire(cfg, t, a).tasks| ==> SoundTask(cfg, Fire(cfg, t, a).tasks[i])
  {
    match t
    case Registered(o, children) =>
      if a.Plan? {
        PlannedStageIsSound(cfg, o, a.plan);
      }
    case Analysing(s) =>
      if a.Analyse? {
        StepSound(cfg.plugins, s, a.c);
      }
    case _ =>
  }

  lemma {:induction false} RunKeepsSound(cfg: Config, st: State, moves: seq<Move>)
    requires DependenciesRunEverywhere(cfg.plugins) && IsRun(cfg, st, moves)
    requires forall i :: 0 <= i < |st.tasks| ==> SoundTask(cfg, st.tasks[i])
    ensures forall i :: 0 <= i < |EndOf(cfg, st, moves).tasks| ==> SoundTask(cfg, EndOf(cfg, st, moves).tasks[i])
    decreases |moves|
  {
    if moves != [] {
      var m := moves[0];
      FireKeepsSound(cfg, st.tasks[m.task], m.action);
      RunKeepsSound(cfg, Moved(cfg, st, m), moves[1..]);
    }
  }

  /** At every moment of every run, each object at a plugin has results for all dependencies of that plugin. */
  lemma DependenciesAlwaysMet(cfg: Config, st: State, moves: seq<Move>)
    requires DependenciesRunEverywhere(cfg.plugins)
    requires Uploads(st) && IsRun(cfg, st, moves)
    ensures forall t :: t in EndOf(cfg, st, moves).tasks && t.Analysing? ==> !Unmet(cfg.plugins, t.s)
  {
    RunKeepsSound(cfg, st, moves);
  }
}

/**
 The whole backend as one state machine: unpack, register, schedule, analyse, finish.

 A state holds the tasks that exist anywhere (in a queue, at a worker, at the scheduler, at a
 plugin, at the collector) and the reports made to the status table so far. One move lets one
 task, chosen freely, do one atomic step. Letting any task move covers every order in which queues,
 unpack workers, plugin workers, runner and collector can be interleaved.
 */
module Pipeline {
  import opened Basics
  import opened TaskScheduler
  import opened AnalysisRun
  import opened Unpacker
  import opened Status
  import opened StatusHistory

  datatype Config = Config(plugins: Plugins, maxDepth: nat)

  datatype Task =
    | Queued(o: FileObject)                               // in the unpack queue
    | Expanded(o: FileObject, children: seq<FileObject>)  // unpacked, not yet registered
    | Registered(o: FileObject, children: seq<FileObject>) // known to the status table, not yet scheduled
    | Holding(children: seq<FileObject>)                   // children a worker still has to queue
    | Analysing(s: Stage)

  datatype Action =
    | Unpack(children: seq<FileObject>)
    | Register
    | Plan(plan: seq<Plugin>)
    | Die
    | Hand
    | Analyse(c: AnalysisRun.Choice)
    | DbError

  /** What a step leaves behind: the tasks that replace the one that moved, and a report if it makes one. */
  datatype Effect = Effect(tasks: seq<Task>, report: Option<Op>)

  datatype State = State(tasks: seq<Task>, reports: seq<Op>)

  function ReportOf(o: FileObject): Report {
    Report(o.uid, o.isFirmware, {o.root}, o.included)
  }

  /** A plan the scheduler may choose for an object with the requested plugins. */
  ghost predicate IsPlanFor(plugins: Plugins, requested: seq<Plugin>, plan: seq<Plugin>) {
    exists closure ::
      && IsClosure(plugins, ToSet(requested), closure)
      && IsPlan(plugins, closure + ToSet(MANDATORY_PLUGINS), plan)
  }

  /** The requested plugins and all they depend on are loaded. */
  ghost predicate Loaded(plugins: Plugins, requested: seq<Plugin>) {
    exists closure :: IsClosure(plugins, ToSet(requested), closure)
  }

  ghost predicate ValidConfig(cfg: Config) {
    ToSet(MANDATORY_PLUGINS) <= cfg.plugins.Keys
  }

  /** Scheduling does not end in a key error. */
  ghost predicate CanSchedule(cfg: Config, requested: seq<Plugin>) {
    ValidConfig(cfg) && Loaded(cfg.plugins, requested)
  }

  // ----- Steps -----

  /** The worker that schedules an object may die of a key error, and then does not queue the children. */
  ghost predicate Enables(cfg: Config, t: Task, a: Action) {
    match t
    case Queued(o) => a.Unpack? && IsExtraction(cfg.maxDepth, o, a.children)
    case Expanded(_, _) => a.Register?
    case Registered(o, _) =>
      if CanSchedule(cfg, o.scheduled) then a.Plan? && IsPlanFor(cfg.plugins, o.scheduled, a.plan) else a.Die?
    case Holding(_) => a.Hand?
    case Analysing(s) => (a.Analyse? && Enabled(s, a.c)) || (a.DbError? && s.Waiting?)
  }

  /** An object that reaches the end is struck off the status table; any other stays under analysis, or is lost to a key error. */
  function Proceed(s: Stage): Effect {
    if s.Complete? then Effect([], Some(Remove(ReportOf(s.o))))
    else Effect(if s.Crashed? then [] else [Analysing(s)], None)
  }

  ghost function Fire(cfg: Config, t: Task, a: Action): Effect
    requires Enables(cfg, t, a)
  {
    match t
    case Queued(o) => Effect([Expanded(o.(included := o.included + ToSet(Uids(a.children))), a.children)], None)
    case Expanded(o, children) => Effect([Registered(o, children)], Some(Add(ReportOf(o))))
    case Registered(o, children) =>
      if a.Die? then Effect([], None)
      else
        var e := Proceed(CheckFurther(o.(scheduled := a.plan)));
        e.(tasks := e.tasks + [Holding(children)])
    case Holding(children) =>
      Effect(if children == [] then [] else [Queued(children[0]), Holding(children[1..])], None)
    case Analysing(s) =>
      if a.DbError? then Effect([], Some(Remove(ReportOf(s.o))))
      else Proceed(Step(cfg.plugins, s, a.c))
  }

  function Replace(tasks: seq<Task>, i: nat, put: seq<Task>): seq<Task>
    requires i < |tasks|
  {
    tasks[..i] + put + tasks[i + 1..]
  }

  datatype Move = Move(task: nat, action: Action)

  ghost predicate CanMove(cfg: Config, st: State, m: Move) {
    m.task < |st.tasks| && Enables(cfg, st.tasks[m.task], m.action)
  }

  ghost function Moved(cfg: Config, st: State, m: Move): State
    requires CanMove(cfg, st, m)
  {
    var e := Fire(cfg, st.tasks[m.task], m.action);
    State(Replace(st.tasks, m.task, e.tasks), st.reports + (if e.report.Some? then [e.report.value] else []))
  }

  ghost predicate IsRun(cfg: Config, st: State, moves: seq<Move>)
    decreases |moves|
  {
    moves == [] || (CanMove(cfg, st, moves[0]) && IsRun(cfg, Moved(cfg, st, moves[0]), moves[1..]))
  }

  ghost function EndOf(cfg: Config, st: State, moves: seq<Move>): State
    requires IsRun(cfg, st, moves)
    decreases |moves|
  {
    if moves == [] then st else EndOf(cfg, Moved(cfg, st, moves[0]), moves[1..])
  }

  ghost function TableOf(st: State): Table {
    Run(st.reports).table
  }

  // ----- Uploads and the shape of tasks -----

  ghost predicate Untouched(o: FileObject) {
    && o.included == {} && o.exception == None && o.history == []
    && (o.isFirmware ==> o.uid == o.root)
  }

  ghost predicate IsUpload(t: Task) {
    t.Queued? && t.o.isFirmware && t.o.depth == 0 && Untouched(t.o)
  }

  ghost predicate Uploads(st: State) {
    st.reports == [] && forall i :: 0 <= i < |st.tasks| ==> IsUpload(st.tasks[i])
  }

  ghost predicate ChildrenOk(children: seq<FileObject>) {
    forall i :: 0 <= i < |children| ==> Untouched(children[i])
  }

  ghost predicate FamilyOk(cfg: Config, o: FileObject, children: seq<FileObject>) {
    && ChildrenOk(children)
    && o.included == ToSet(Uids(children)) && o.uid !in o.included
    && (forall i :: 0 <= i < |children| ==> children[i].root == o.root && children[i].depth == o.depth + 1)
    && (o.isFirmware ==> o.uid == o.root)
    && (o.depth >= cfg.maxDepth ==> children == [])
  }

  ghost predicate TaskOk(cfg: Config, t: Task) {
    match t
    case Queued(o) => Untouched(o)
    case Expanded(o, children) => FamilyOk(cfg, o, children)
    case Registered(o, children) => FamilyOk(cfg, o, children)
    case Holding(children) => ChildrenOk(children)
    case Analysing(s) =>
      && !s.Complete? && !s.Crashed? && (s.Waiting? ==> s.o.scheduled != []) && AllLoaded(cfg.plugins, s.o.scheduled)
      && (s.o.isFirmware ==> s.o.uid == s.o.root) && s.o.uid !in s.o.included
  }

  ghost predicate TasksOk(cfg: Config, tasks: seq<Task>) {
    forall i :: 0 <= i < |tasks| ==> TaskOk(cfg, tasks[i])
  }

  /** An object keeps its identity and inclusions on its way through the analyses. */
  lemma StepKeepsIdentity(plugins: Plugins, s: Stage, c: AnalysisRun.Choice)
    requires Enabled(s, c)
    ensures var o, o' := s.o, Step(plugins, s, c).o;
            && o'.uid == o.uid && o'.root == o.root && o'.depth == o.depth
            && o'.isFirmware == o.isFirmware && o'.included == o.included
    ensures Step(plugins, s, c).Waiting? ==> Step(plugins, s, c).o.scheduled != []
  {
    match s
    case Waiting(o) =>
      var popped := o.(scheduled := o.scheduled[..|o.scheduled| - 1]);
      if o.scheduled[|o.scheduled| - 1] in plugins {
        StartKeepsIdentity(plugins, o.scheduled[|o.scheduled| - 1], popped, c);
      }
    case _ =>
  }

  lemma StartKeepsIdentity(plugins: Plugins, p: Plugin, o: FileObject, c: AnalysisRun.Choice)
    requires c.Decide?
    ensures var o' := StartOrSkip(plugins, p, o, c).o;
            && o'.uid == o.uid && o'.root == o.root && o'.depth == o.depth
            && o'.isFirmware == o.isFirmware && o'.included == o.included
    ensures StartOrSkip(plugins, p, o, c).Waiting? ==> StartOrSkip(plugins, p, o, c).o.scheduled != []
  {
  }

  /** Lists of loaded plugins stay so, and no key error occurs. */
  lemma StepKeepsLoaded(plugins: Plugins, s: Stage, c: AnalysisRun.Choice)
    requires Enabled(s, c) && AllLoaded(plugins, s.o.scheduled)
    ensures AllLoaded(plugins, Step(plugins, s, c).o.scheduled) && !Step(plugins, s, c).Crashed?
  {
    if s.AtCollector? && s.o.exception.Some? {
      var w := Without(plugins, s.o.scheduled, s.o.exception.value);
      WithoutFacts(plugins, s.o.scheduled, s.o.exception.value);
      assert forall q :: q in w ==> q in ToSet(w);
    } else if s.Waiting? {
      assert forall q :: q in s.o.scheduled[..|s.o.scheduled| - 1] ==> q in s.o.scheduled;
    }
  }

  lemma PlanIsLoaded(cfg: Config, requested: seq<Plugin>, plan: seq<Plugin>)
    requires ValidConfig(cfg) && IsPlanFor(cfg.plugins, requested, plan)
    ensures AllLoaded(cfg.plugins, plan)
  {
    var closure :| IsClosure(cfg.plugins, ToSet(requested), closure)
      && IsPlan(cfg.plugins, closure + ToSet(MANDATORY_PLUGINS), plan);
    LeftOutForADependency(cfg.plugins, closure + ToSet(MANDATORY_PLUGINS), plan);
    assert forall p :: p in plan ==> p in ToSet(plan);
  }

  lemma FireKeepsTaskOk(cfg: Config, t: Task, a: Action)
    requires TaskOk(cfg, t) && Enables(cfg, t, a)
    ensures TasksOk(cfg, Fire(cfg, t, a).tasks)
    ensures Fire(cfg, t, a).report.Some? ==> Proper(Fire(cfg, t, a).report.value)
  {
    match t
    case Queued(o) =>
      assert forall i :: 0 <= i < |a.children| ==> Uids(a.children)[i] == a.children[i].uid;
    case Registered(o, _) =>
      if a.Plan? {
        PlanIsLoaded(cfg, o.scheduled, a.plan);
      }
    case Analysing(s) =>
      if a.Analyse? {
        StepKeepsIdentity(cfg.plugins, s, a.c);
        StepKeepsLoaded(cfg.plugins, s, a.c);
      }
    case _ =>
  }
}

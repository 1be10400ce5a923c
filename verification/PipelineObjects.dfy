/**
 Single objects in the runs of the whole backend: what they are asked for on release, and that they are
 struck off only after every plugin of their plan has left the list. A run of the backend, seen from one
 object, is a run of that object.
 */
module PipelineObjects {
  import opened Basics
  import opened TaskScheduler
  import opened AnalysisRun
  import opened PluginAccounting
  import opened Unpacker
  import opened Status
  import opened StatusHistory
  import opened Pipeline
  import opened PipelineCoverage

  // ----- Requests are handed down -----

  /**
   `o` is upload `u`, or a file that was extracted from it at some depth. Both carry the request of the upload; an
   extracted file has no results yet.
   */
  ghost predicate Inherits(cfg: Config, o: FileObject, u: FileObject) {
    && o.root == u.uid && o.scheduled == u.scheduled && o.exception == None && o.history == []
    && (if o.isFirmware then o.uid == u.uid && o.depth == 0 && o.processed == u.processed
        else 0 < o.depth <= cfg.maxDepth && o.processed == map[])
  }

  ghost predicate IsRequested(cfg: Config, o: FileObject, uploads: set<FileObject>) {
    exists u :: u in uploads && Inherits(cfg, o, u)
  }

  /** The objects in a task that are not released yet. */
  function Unreleased(t: Task): set<FileObject> {
    match t
    case Queued(o) => {o}
    case Expanded(o, children) => {o} + ToSet(children)
    case Registered(o, children) => {o} + ToSet(children)
    case Holding(children) => ToSet(children)
    case Analysing(_) => {}
  }

  ghost predicate AllRequested(cfg: Config, t: Task, uploads: set<FileObject>) {
    forall o :: o in Unreleased(t) ==> IsRequested(cfg, o, uploads)
  }

  ghost predicate RequestsKept(cfg: Config, st: State, uploads: set<FileObject>) {
    TasksOk(cfg, st.tasks) && forall i :: 0 <= i < |st.tasks| ==> AllRequested(cfg, st.tasks[i], uploads)
  }

  lemma FireKeepsRequests(cfg: Config, t: Task, a: Action, uploads: set<FileObject>, i: nat)
    requires TaskOk(cfg, t) && AllRequested(cfg, t, uploads) && Enables(cfg, t, a) && i < |Fire(cfg, t, a).tasks|
    ensures AllRequested(cfg, Fire(cfg, t, a).tasks[i], uploads)
  {
    var t' := Fire(cfg, t, a).tasks[i];
    forall o | o in Unreleased(t')
      ensures IsRequested(cfg, o, uploads)
    {
      if t.Queued? {
        ExtractedIsRequested(cfg, t.o, a.children, o, uploads);
      } else {
        assert o in Unreleased(t);
      }
    }
  }

  lemma ExtractedIsRequested(cfg: Config, parent: FileObject, children: seq<FileObject>, o: FileObject, uploads: set<FileObject>)
    requires IsRequested(cfg, parent, uploads) && IsExtraction(cfg.maxDepth, parent, children)
    requires o in children || o == parent.(included := o.included)
    ensures IsRequested(cfg, o, uploads)
  {
    var u :| u in uploads && Inherits(cfg, parent, u);
    if o in children {
      var i :| 0 <= i < |children| && children[i] == o;
    }
    assert Inherits(cfg, o, u);
  }

  lemma MoveKeepsRequests(cfg: Config, st: State, m: Move, uploads: set<FileObject>)
    requires RequestsKept(cfg, st, uploads) && CanMove(cfg, st, m)
    ensures RequestsKept(cfg, Moved(cfg, st, m), uploads)
  {
    var e, after := Fire(cfg, st.tasks[m.task], m.action), Moved(cfg, st, m).tasks;
    FireKeepsTaskOk(cfg, st.tasks[m.task], m.action);
    forall i | 0 <= i < |after|
      ensures AllRequested(cfg, after[i], uploads)
    {
      if m.task <= i < m.task + |e.tasks| {
        FireKeepsRequests(cfg, st.tasks[m.task], m.action, uploads, i - m.task);
      } else {
        assert after[i] == st.tasks[if i < m.task then i else i - |e.tasks| + 1];
      }
    }
  }

  lemma {:induction false} RunKeepsRequests(cfg: Config, st: State, moves: seq<Move>, uploads: set<FileObject>)
    requires RequestsKept(cfg, st, uploads) && IsRun(cfg, st, moves)
    ensures RequestsKept(cfg, EndOf(cfg, st, moves), uploads)
    decreases |moves|
  {
    if moves != [] {
      MoveKeepsRequests(cfg, st, moves[0], uploads);
      RunKeepsRequests(cfg, Moved(cfg, st, moves[0]), moves[1..], uploads);
    }
  }

  function Uploaded(st: State): set<FileObject> {
    set t | t in st.tasks && t.Queued? :: t.o
  }

  lemma UploadsSatisfyRequests(cfg: Config, st: State)
    requires Uploads(st)
    ensures RequestsKept(cfg, st, Uploaded(st))
  {
    forall j | 0 <= j < |st.tasks|
      ensures AllRequested(cfg, st.tasks[j], Uploaded(st))
    {
      var t := st.tasks[j];
      assert IsUpload(t) && t in st.tasks;
      assert t.o in Uploaded(st) && Inherits(cfg, t.o, t.o);
    }
  }

  /** In every state of every run from some uploads, each object that is not released carries the request of its upload. */
  lemma RequestsAreHandedDown(cfg: Config, st: State, moves: seq<Move>, i: nat, o: FileObject)
    requires Uploads(st) && IsRun(cfg, st, moves) && i < |EndOf(cfg, st, moves).tasks|
    requires o in Unreleased(EndOf(cfg, st, moves).tasks[i])
    ensures exists u :: u in Uploaded(st) && Inherits(cfg, o, u)
  {
    UploadsSatisfyRequests(cfg, st);
    RunKeepsRequests(cfg, st, moves, Uploaded(st));
    assert IsRequested(cfg, o, Uploaded(st));
  }

  /** So each of them is released with a plan for what its upload requested and the mandatory plugins. */
  lemma ReleasedAsRequested(cfg: Config, st: State, moves: seq<Move>, i: nat, plan: seq<Plugin>)
    requires Uploads(st) && IsRun(cfg, st, moves) && CanMove(cfg, EndOf(cfg, st, moves), Move(i, Plan(plan)))
    ensures EndOf(cfg, st, moves).tasks[i].Registered?
    ensures exists u :: u in Uploaded(st) && Inherits(cfg, EndOf(cfg, st, moves).tasks[i].o, u)
                        && IsPlanFor(cfg.plugins, u.scheduled, plan)
  {
    RequestsAreHandedDown(cfg, st, moves, i, EndOf(cfg, st, moves).tasks[i].o);
  }

  /**
   A plan holds all plugins that were requested, all that these depend on, and the mandatory ones, if loaded plugins
   depend on loaded ones only and not on themselves, and mandatory ones on mandatory ones.
   */
  lemma PlanHoldsAll(cfg: Config, requested: seq<Plugin>, plan: seq<Plugin>, rank: map<Plugin, nat>)
    requires ValidConfig(cfg) && IsPlanFor(cfg.plugins, requested, plan) && Ranked(cfg.plugins, cfg.plugins.Keys, rank)
    requires forall p :: p in MANDATORY_PLUGINS ==> Deps(cfg.plugins, p) <= ToSet(MANDATORY_PLUGINS)
    ensures ToSet(requested) + ToSet(MANDATORY_PLUGINS) <= ToSet(plan) && Closed(cfg.plugins, ToSet(plan))
  {
    var closure :| IsClosure(cfg.plugins, ToSet(requested), closure)
      && IsPlan(cfg.plugins, closure + ToSet(MANDATORY_PLUGINS), plan);
    assert Closed(cfg.plugins, closure + ToSet(MANDATORY_PLUGINS));
    AcyclicIsFullyPlanned(cfg.plugins, closure + ToSet(MANDATORY_PLUGINS), plan, rank);
  }

  // ----- Following one object -----

  /** Where the task at place `i` stands after a move of another one. */
  ghost function Place(cfg: Config, st: State, m: Move, i: int): int
    requires CanMove(cfg, st, m)
  {
    if i < m.task then i else i + |Moved(cfg, st, m).tasks| - |st.tasks|
  }

  /**
   The object at place `i` is still under analysis at the end, now at place `j`: none of the moves that
   concern it gives it up or reports it, and `choices` is what they decide.
   */
  ghost predicate Follows(cfg: Config, st: State, moves: seq<Move>, i: int, j: int, choices: seq<AnalysisRun.Choice>)
    requires IsRun(cfg, st, moves)
    decreases |moves|
  {
    if moves == [] then i == j && choices == []
    else
      var m, later := moves[0], Moved(cfg, st, moves[0]);
      if m.task != i then Follows(cfg, later, moves[1..], Place(cfg, st, m, i), j, choices)
      else
        && m.action.Analyse? && later.reports == st.reports
        && choices != [] && choices[0] == m.action.c && Follows(cfg, later, moves[1..], i, j, choices[1..])
  }

  /** The task at place `i` is an object under analysis that has come to stage `s`. */
  ghost predicate IsAt(st: State, i: int, s: Stage) {
    0 <= i < |st.tasks| && st.tasks[i] == Analysing(s)
  }

  lemma OthersKeepStage(cfg: Config, st: State, m: Move, i: int, s: Stage)
    requires CanMove(cfg, st, m) && IsAt(st, i, s) && m.task != i
    ensures IsAt(Moved(cfg, st, m), Place(cfg, st, m, i), s)
  {
    var e, after := Fire(cfg, st.tasks[m.task], m.action), Moved(cfg, st, m).tasks;
    assert |after| == |st.tasks| + |e.tasks| - 1;
    if i > m.task {
      assert after[i - 1 + |e.tasks|] == st.tasks[i];
    }
  }

  /** A decision about the object itself: it stays with the stage it comes to, or is complete and struck off. */
  lemma OwnMove(cfg: Config, st: State, m: Move, s: Stage)
    requires TasksOk(cfg, st.tasks) && CanMove(cfg, st, m) && IsAt(st, m.task, s) && m.action.Analyse?
    ensures Enabled(s, m.action.c)
    ensures var next, st' := Step(cfg.plugins, s, m.action.c), Moved(cfg, st, m);
            if next.Complete? then st'.reports == st.reports + [Remove(ReportOf(s.o))]
            else st'.reports == st.reports && IsAt(st', m.task, next)
  {
    assert TaskOk(cfg, st.tasks[m.task]);
    StepKeepsIdentity(cfg.plugins, s, m.action.c);
    StepKeepsLoaded(cfg.plugins, s, m.action.c);
  }

  lemma MoveKeepsTasksOk(cfg: Config, st: State, m: Move)
    requires TasksOk(cfg, st.tasks) && CanMove(cfg, st, m)
    ensures TasksOk(cfg, Moved(cfg, st, m).tasks)
  {
    FireKeepsTaskOk(cfg, st.tasks[m.task], m.action);
  }

  /** Seen from one object, a run of the backend is a run of that object. */
  lemma {:induction false} FollowedIsRun(cfg: Config, st: State, moves: seq<Move>, i: int, j: int,
                                         choices: seq<AnalysisRun.Choice>, s: Stage)
    requires TasksOk(cfg, st.tasks) && IsRun(cfg, st, moves) && IsAt(st, i, s) && Follows(cfg, st, moves, i, j, choices)
    ensures Possible(cfg.plugins, s, choices) && IsAt(EndOf(cfg, st, moves), j, After(cfg.plugins, s, choices))
    ensures TasksOk(cfg, EndOf(cfg, st, moves).tasks)
    decreases |moves|
  {
    if moves != [] {
      var m, later := moves[0], Moved(cfg, st, moves[0]);
      MoveKeepsTasksOk(cfg, st, m);
      if m.task != i {
        OthersKeepStage(cfg, st, m, i, s);
        FollowedIsRun(cfg, later, moves[1..], Place(cfg, st, m, i), j, choices, s);
      } else {
        OwnMove(cfg, st, m, s);
        FollowedIsRun(cfg, later, moves[1..], i, j, choices[1..], Step(cfg.plugins, s, m.action.c));
      }
    }
  }


  // ----- Every released object is analysed to the end -----

  /** The object at place `i` can be followed for `k` moves, and no further only if move `k` gives it up or reports it. */
  ghost predicate IsFollowed(cfg: Config, st: State, moves: seq<Move>, i: int, k: nat, j: int, choices: seq<AnalysisRun.Choice>) {
    && k <= |moves| && IsRun(cfg, st, moves[..k]) && Follows(cfg, st, moves[..k], i, j, choices)
    && (k < |moves| ==> Leaves(cfg, EndOf(cfg, st, moves[..k]), moves[k], j))
  }

  /** The move gives the object at place `j` up on a database error, or makes a report. */
  ghost predicate Leaves(cfg: Config, st: State, m: Move, j: int) {
    CanMove(cfg, st, m) && m.task == j && (m.action.DbError? || (m.action.Analyse? && Moved(cfg, st, m).reports != st.reports))
  }

  lemma LaterPrefix(cfg: Config, st: State, moves: seq<Move>, k: nat)
    requires moves != [] && CanMove(cfg, st, moves[0]) && k < |moves|
    requires IsRun(cfg, Moved(cfg, st, moves[0]), moves[1..][..k])
    ensures moves[..k + 1][0] == moves[0] && moves[..k + 1][1..] == moves[1..][..k]
    ensures IsRun(cfg, st, moves[..k + 1])
    ensures EndOf(cfg, st, moves[..k + 1]) == EndOf(cfg, Moved(cfg, st, moves[0]), moves[1..][..k])
  {
    assert moves[..k + 1] == [moves[0]] + moves[1..][..k];
    assert moves[..k + 1][1..] == moves[1..][..k];
  }

  lemma OthersFirst(cfg: Config, st: State, moves: seq<Move>, i: int, k: nat, j: int, choices: seq<AnalysisRun.Choice>)
    requires moves != [] && CanMove(cfg, st, moves[0]) && moves[0].task != i
    requires IsFollowed(cfg, Moved(cfg, st, moves[0]), moves[1..], Place(cfg, st, moves[0], i), k, j, choices)
    ensures IsFollowed(cfg, st, moves, i, k + 1, j, choices)
  {
    LaterPrefix(cfg, st, moves, k);
  }

  lemma OwnFirst(cfg: Config, st: State, moves: seq<Move>, i: int, k: nat, j: int, choices: seq<AnalysisRun.Choice>)
    requires moves != [] && CanMove(cfg, st, moves[0]) && moves[0].task == i && moves[0].action.Analyse?
    requires Moved(cfg, st, moves[0]).reports == st.reports
    requires IsFollowed(cfg, Moved(cfg, st, moves[0]), moves[1..], i, k, j, choices)
    ensures IsFollowed(cfg, st, moves, i, k + 1, j, [moves[0].action.c] + choices)
  {
    LaterPrefix(cfg, st, moves, k);
    var longer := [moves[0].action.c] + choices;
    assert longer[1..] == choices;
  }

  /** No object is lost on the way: it can be followed to the end of the run, or to its own end. */
  lemma {:induction false} FollowedToItsEnd(cfg: Config, st: State, moves: seq<Move>, i: int, s: Stage)
    returns (k: nat, j: int, choices: seq<AnalysisRun.Choice>)
    requires TasksOk(cfg, st.tasks) && IsRun(cfg, st, moves) && IsAt(st, i, s)
    ensures IsFollowed(cfg, st, moves, i, k, j, choices)
    decreases |moves|
  {
    k, j, choices := 0, i, [];
    assert moves[..0] == [];
    if moves != [] && !Leaves(cfg, st, moves[0], i) {
      var m, later := moves[0], Moved(cfg, st, moves[0]);
      MoveKeepsTasksOk(cfg, st, m);
      if m.task != i {
        OthersKeepStage(cfg, st, m, i, s);
        k, j, choices := FollowedToItsEnd(cfg, later, moves[1..], Place(cfg, st, m, i), s);
        OthersFirst(cfg, st, moves, i, k, j, choices);
        k := k + 1;
      } else {
        OwnMove(cfg, st, m, s);
        k, j, choices := FollowedToItsEnd(cfg, later, moves[1..], i, Step(cfg.plugins, s, m.action.c));
        OwnFirst(cfg, st, moves, i, k, j, choices);
        k, choices := k + 1, [m.action.c] + choices;
      }
    }
  }

  /** The object has come to its end, after every plugin of the plan has left its list as often as it was planned. */
  ghost predicate IsAnalysed(plan: seq<Plugin>, s: Stage) {
    s.Complete? && s.o.scheduled == [] && multiset(Leavers(s.o.history)) == multiset(plan)
  }

  lemma {:induction false} RunKeepsReport(plugins: Plugins, s: Stage, choices: seq<AnalysisRun.Choice>)
    requires Possible(plugins, s, choices)
    ensures ReportOf(After(plugins, s, choices).o) == ReportOf(s.o)
    decreases |choices|
  {
    if choices != [] {
      StepKeepsIdentity(plugins, s, choices[0]);
      RunKeepsReport(plugins, Step(plugins, s, choices[0]), choices[1..]);
    }
  }

  /** An object that a decision strikes off is completely analysed. */
  lemma StruckOffIsAnalysed(cfg: Config, st: State, moves: seq<Move>, i: int, j: nat, choices: seq<AnalysisRun.Choice>,
                            s: Stage, plan: seq<Plugin>, c: AnalysisRun.Choice)
    requires TasksOk(cfg, st.tasks) && IsRun(cfg, st, moves) && IsAt(st, i, s) && Accounted(cfg.plugins, plan, s)
    requires Follows(cfg, st, moves, i, j, choices)
    requires Leaves(cfg, EndOf(cfg, st, moves), Move(j, Analyse(c)), j)
    ensures Possible(cfg.plugins, s, choices + [c]) && IsAnalysed(plan, After(cfg.plugins, s, choices + [c]))
    ensures var end := EndOf(cfg, st, moves);
            Moved(cfg, end, Move(j, Analyse(c))).reports == end.reports + [Remove(ReportOf(s.o))]
  {
    FollowedIsRun(cfg, st, moves, i, j, choices, s);
    RunKeepsReport(cfg.plugins, s, choices);
    OwnMove(cfg, EndOf(cfg, st, moves), Move(j, Analyse(c)), After(cfg.plugins, s, choices));
    AfterConcat(cfg.plugins, s, choices, [c]);
    RunAccounted(cfg.plugins, plan, s, choices + [c]);
  }

  /** What a release with a plan leaves behind: the object under analysis, or struck off if nothing is planned. */
  lemma ReleaseIs(cfg: Config, st: State, i: nat, plan: seq<Plugin>)
    requires CanMove(cfg, st, Move(i, Plan(plan)))
    ensures st.tasks[i].Registered?
    ensures var o, st' := st.tasks[i].o, Moved(cfg, st, Move(i, Plan(plan)));
            if plan == [] then st'.reports == st.reports + [Remove(ReportOf(o))]
            else st'.reports == st.reports && IsAt(st', i, Waiting(o.(scheduled := plan)))
  {
  }

  /** What becomes of an object that is followed to its end. */
  ghost predicate IsFate(cfg: Config, st: State, moves: seq<Move>, s: Stage, plan: seq<Plugin>,
                         k: nat, j: int, choices: seq<AnalysisRun.Choice>)
    requires k <= |moves| && IsRun(cfg, st, moves[..k])
  {
    var end := EndOf(cfg, st, moves[..k]);
    && Possible(cfg.plugins, s, choices) && IsAt(end, j, After(cfg.plugins, s, choices))
    && (k < |moves| && moves[k].action.Analyse? ==>
          var c := moves[k].action.c;
          && CanMove(cfg, end, moves[k]) && Moved(cfg, end, moves[k]).reports == end.reports + [Remove(ReportOf(s.o))]
          && Possible(cfg.plugins, s, choices + [c]) && IsAnalysed(plan, After(cfg.plugins, s, choices + [c])))
  }

  lemma FateOfObject(cfg: Config, st: State, moves: seq<Move>, i: nat, s: Stage, plan: seq<Plugin>)
    returns (k: nat, j: int, choices: seq<AnalysisRun.Choice>)
    requires TasksOk(cfg, st.tasks) && IsRun(cfg, st, moves) && IsAt(st, i, s) && Accounted(cfg.plugins, plan, s)
    ensures IsFollowed(cfg, st, moves, i, k, j, choices) && IsFate(cfg, st, moves, s, plan, k, j, choices)
  {
    k, j, choices := FollowedToItsEnd(cfg, st, moves, i, s);
    FollowedIsRun(cfg, st, moves[..k], i, j, choices, s);
    if k < |moves| && moves[k].action.Analyse? {
      assert moves[k] == Move(j, Analyse(moves[k].action.c));
      StruckOffIsAnalysed(cfg, st, moves[..k], i, j, choices, s, plan, moves[k].action.c);
    }
  }

  /**
   In every run from some uploads: an object that is released with a plan is one for which an upload requested the
   plugins of that plan, and it is under analysis for the rest of the run, unless the database gives it up, or it is
   struck off after all plugins of the plan have left its list, each as often as it was planned.
   */
  lemma EveryObjectIsAnalysed(cfg: Config, st: State, before: seq<Move>, i: nat, plan: seq<Plugin>, later: seq<Move>)
    returns (k: nat, j: int, choices: seq<AnalysisRun.Choice>)
    requires Uploads(st) && IsRun(cfg, st, before) && plan != []
    requires CanMove(cfg, EndOf(cfg, st, before), Move(i, Plan(plan)))
    requires IsRun(cfg, Moved(cfg, EndOf(cfg, st, before), Move(i, Plan(plan))), later)
    ensures EndOf(cfg, st, before).tasks[i].Registered?
    ensures var released := Moved(cfg, EndOf(cfg, st, before), Move(i, Plan(plan)));
            var s := Waiting(EndOf(cfg, st, before).tasks[i].o.(scheduled := plan));
            IsFollowed(cfg, released, later, i, k, j, choices) && IsFate(cfg, released, later, s, plan, k, j, choices)
  {
    var mid, release := EndOf(cfg, st, before), Move(i, Plan(plan));
    ReleaseIs(cfg, mid, i, plan);
    UploadsSatisfyRequests(cfg, st);
    RunKeepsRequests(cfg, st, before, Uploaded(st));
    assert IsRequested(cfg, mid.tasks[i].o, Uploaded(st));
    MoveKeepsTasksOk(cfg, mid, release);
    var s := Waiting(mid.tasks[i].o.(scheduled := plan));
    ReleasedIsAccounted(cfg, mid.tasks[i].o, plan);
    k, j, choices := FateOfObject(cfg, Moved(cfg, mid, release), later, i, s, plan);
  }

  lemma ReleasedIsAccounted(cfg: Config, o: FileObject, plan: seq<Plugin>)
    requires o.history == [] && o.exception == None
    ensures Accounted(cfg.plugins, plan, CheckFurther(o.(scheduled := plan)))
  {
  }

  // ----- What a finished firmware has behind it -----

  /** The object was released with a plan for the request of an upload, and the books about that plan are in order. */
  ghost predicate IsPlanned(cfg: Config, s: Stage, uploads: set<FileObject>, u: FileObject, plan: seq<Plugin>) {
    u in uploads && s.o.root == u.uid && IsPlanFor(cfg.plugins, u.scheduled, plan) && Accounted(cfg.plugins, plan, s)
  }

  ghost predicate TaskPlanned(cfg: Config, t: Task, uploads: set<FileObject>) {
    t.Analysing? ==> exists u, plan :: IsPlanned(cfg, t.s, uploads, u, plan)
  }

  ghost predicate AllPlanned(cfg: Config, tasks: seq<Task>, uploads: set<FileObject>) {
    forall i :: 0 <= i < |tasks| ==> TaskPlanned(cfg, tasks[i], uploads)
  }

  lemma ReleaseIsPlanned(cfg: Config, o: FileObject, uploads: set<FileObject>, plan: seq<Plugin>)
    requires IsRequested(cfg, o, uploads) && IsPlanFor(cfg.plugins, o.scheduled, plan)
    ensures TaskPlanned(cfg, Analysing(CheckFurther(o.(scheduled := plan))), uploads)
  {
    var u :| u in uploads && Inherits(cfg, o, u);
    assert IsPlanned(cfg, CheckFurther(o.(scheduled := plan)), uploads, u, plan);
  }

  lemma StepIsPlanned(cfg: Config, s: Stage, c: AnalysisRun.Choice, uploads: set<FileObject>)
    requires TaskPlanned(cfg, Analysing(s), uploads) && Enabled(s, c)
    ensures TaskPlanned(cfg, Analysing(Step(cfg.plugins, s, c)), uploads)
  {
    var u, plan :| IsPlanned(cfg, s, uploads, u, plan);
    StepAccounted(cfg.plugins, plan, s, c);
    StepKeepsIdentity(cfg.plugins, s, c);
    assert IsPlanned(cfg, Step(cfg.plugins, s, c), uploads, u, plan);
  }

  lemma FireKeepsPlanned(cfg: Config, t: Task, a: Action, uploads: set<FileObject>, i: nat)
    requires AllRequested(cfg, t, uploads) && TaskPlanned(cfg, t, uploads) && Enables(cfg, t, a)
    requires i < |Fire(cfg, t, a).tasks|
    ensures TaskPlanned(cfg, Fire(cfg, t, a).tasks[i], uploads)
  {
    var t' := Fire(cfg, t, a).tasks[i];
    if t'.Analysing? {
      StageIsFrom(cfg, t, a, i);
      KeepsPlanned(cfg, t, a, uploads, t'.s);
    }
  }

  lemma StageIsFrom(cfg: Config, t: Task, a: Action, i: nat)
    requires Enables(cfg, t, a) && i < |Fire(cfg, t, a).tasks| && Fire(cfg, t, a).tasks[i].Analysing?
    ensures IsStageFrom(cfg, t, a, Fire(cfg, t, a).tasks[i].s)
  {
  }

  /** The stage of an object after its release or a step. */
  ghost predicate IsStageFrom(cfg: Config, t: Task, a: Action, s: Stage) {
    || (t.Registered? && a.Plan? && IsPlanFor(cfg.plugins, t.o.scheduled, a.plan) && s == CheckFurther(t.o.(scheduled := a.plan)))
    || (t.Analysing? && a.Analyse? && Enabled(t.s, a.c) && s == Step(cfg.plugins, t.s, a.c))
  }

  lemma KeepsPlanned(cfg: Config, t: Task, a: Action, uploads: set<FileObject>, s: Stage)
    requires AllRequested(cfg, t, uploads) && TaskPlanned(cfg, t, uploads) && IsStageFrom(cfg, t, a, s)
    ensures TaskPlanned(cfg, Analysing(s), uploads)
  {
    if t.Registered? {
      assert t.o in Unreleased(t);
      ReleaseIsPlanned(cfg, t.o, uploads, a.plan);
    } else {
      StepIsPlanned(cfg, t.s, a.c, uploads);
    }
  }

  lemma MoveKeepsPlanned(cfg: Config, st: State, m: Move, uploads: set<FileObject>)
    requires RequestsKept(cfg, st, uploads) && AllPlanned(cfg, st.tasks, uploads) && CanMove(cfg, st, m)
    ensures AllPlanned(cfg, Moved(cfg, st, m).tasks, uploads)
  {
    var t, put := st.tasks[m.task], Fire(cfg, st.tasks[m.task], m.action).tasks;
    forall i | 0 <= i < |put|
      ensures TaskPlanned(cfg, put[i], uploads)
    {
      FireKeepsPlanned(cfg, t, m.action, uploads, i);
    }
    ReplacedArePlanned(cfg, st.tasks, m.task, put, uploads);
  }

  lemma ReplacedArePlanned(cfg: Config, tasks: seq<Task>, i: nat, put: seq<Task>, uploads: set<FileObject>)
    requires i < |tasks| && AllPlanned(cfg, tasks, uploads) && AllPlanned(cfg, put, uploads)
    ensures AllPlanned(cfg, Replace(tasks, i, put), uploads)
  {
    var after := Replace(tasks, i, put);
    forall j | 0 <= j < |after|
      ensures TaskPlanned(cfg, after[j], uploads)
    {
      if i <= j < i + |put| {
        assert after[j] == put[j - i];
      } else {
        assert after[j] == tasks[if j < i then j else j - |put| + 1];
      }
    }
  }

  /**
   The move strikes an object off: the database rejects it, nothing was planned for it, or it is completely analysed
   according to a plan for the request of its upload.
   */
  ghost predicate IsEarned(cfg: Config, st: State, m: Move, uploads: set<FileObject>)
    requires CanMove(cfg, st, m)
  {
    || m.action.DbError?
    || (m.action.Plan? && m.action.plan == [])
    || (m.action.Analyse? && st.tasks[m.task].Analysing? && Enabled(st.tasks[m.task].s, m.action.c)
        && EndsAsPlanned(cfg, st.tasks[m.task].s.o.root, Step(cfg.plugins, st.tasks[m.task].s, m.action.c), uploads))
  }

  /** The object has come to its end according to a plan for the request of the upload with this identifier. */
  ghost predicate EndsAsPlanned(cfg: Config, root: Uid, end: Stage, uploads: set<FileObject>) {
    exists u, plan :: u in uploads && u.uid == root && IsPlanFor(cfg.plugins, u.scheduled, plan) && IsAnalysed(plan, end)
  }

  lemma CompleteEndsAsPlanned(cfg: Config, end: Stage, uploads: set<FileObject>)
    requires TaskPlanned(cfg, Analysing(end), uploads) && end.Complete?
    ensures EndsAsPlanned(cfg, end.o.root, end, uploads)
  {
    var u, plan :| IsPlanned(cfg, end, uploads, u, plan);
    assert IsAnalysed(plan, end);
  }

  lemma RemovalIsEarned(cfg: Config, st: State, m: Move, uploads: set<FileObject>, fo: Report)
    requires TasksOk(cfg, st.tasks) && AllPlanned(cfg, st.tasks, uploads) && CanMove(cfg, st, m)
    requires Moved(cfg, st, m).reports == st.reports + [Remove(fo)]
    ensures IsEarned(cfg, st, m, uploads)
  {
    assert Moved(cfg, st, m).reports[|st.reports|] == Remove(fo);
    var t := st.tasks[m.task];
    if m.action.Analyse? {
      OwnMove(cfg, st, m, t.s);
      StepIsPlanned(cfg, t.s, m.action.c, uploads);
      StepKeepsIdentity(cfg.plugins, t.s, m.action.c);
      CompleteEndsAsPlanned(cfg, Step(cfg.plugins, t.s, m.action.c), uploads);
    }
  }

  /** Move `k` makes report number `n`, and strikes an object off that has come to its end. */
  ghost predicate IsEarnedBy(cfg: Config, st: State, moves: seq<Move>, n: nat, k: nat, uploads: set<FileObject>) {
    && k < |moves| && IsRun(cfg, st, moves[..k]) && |EndOf(cfg, st, moves[..k]).reports| == n
    && CanMove(cfg, EndOf(cfg, st, moves[..k]), moves[k]) && IsEarned(cfg, EndOf(cfg, st, moves[..k]), moves[k], uploads)
  }

  lemma ReportsGrow(cfg: Config, st: State, m: Move)
    requires CanMove(cfg, st, m)
    ensures st.reports <= Moved(cfg, st, m).reports && |Moved(cfg, st, m).reports| <= |st.reports| + 1
  {
  }

  lemma {:induction false} RunReportsGrow(cfg: Config, st: State, moves: seq<Move>)
    requires IsRun(cfg, st, moves)
    ensures st.reports <= EndOf(cfg, st, moves).reports
    decreases |moves|
  {
    if moves != [] {
      RunReportsGrow(cfg, Moved(cfg, st, moves[0]), moves[1..]);
    }
  }

  /** Every removal that was reported since was made by such a move. */
  lemma {:induction false} RemovalsAreEarned(cfg: Config, st: State, moves: seq<Move>, n: nat, uploads: set<FileObject>)
    returns (k: nat)
    requires RequestsKept(cfg, st, uploads) && AllPlanned(cfg, st.tasks, uploads) && IsRun(cfg, st, moves)
    requires |st.reports| <= n < |EndOf(cfg, st, moves).reports| && EndOf(cfg, st, moves).reports[n].Remove?
    ensures IsEarnedBy(cfg, st, moves, n, k, uploads)
    decreases |moves|
  {
    var m, later := moves[0], Moved(cfg, st, moves[0]);
    RunReportsGrow(cfg, later, moves[1..]);
    if n < |later.reports| {
      assert later.reports[n] == EndOf(cfg, st, moves).reports[n];
      RemovalIsEarned(cfg, st, m, uploads, later.reports[n].fo);
      k := 0;
      assert moves[..0] == [];
    } else {
      MoveKeepsRequests(cfg, st, m, uploads);
      MoveKeepsPlanned(cfg, st, m, uploads);
      k := RemovalsAreEarned(cfg, later, moves[1..], n, uploads);
      LaterPrefix(cfg, st, moves, k);
      k := k + 1;
    }
  }

  /**
   In every state of every run from some uploads: every file that belongs to a finished firmware through reported
   inclusions was struck off between a start and the finish by a move that gave it up on a database error, or at which
   it was completely analysed according to a plan for the request of the upload.
   */
  lemma FinishedFirmwareIsAnalysed(cfg: Config, st: State, moves: seq<Move>, root: Uid) returns (s: nat, f: nat)
    requires Uploads(st) && IsRun(cfg, st, moves)
    requires root in TableOf(EndOf(cfg, st, moves)).finished
    ensures var reports := EndOf(cfg, st, moves).reports;
            && IsStart(reports, s, root) && s < f && IsFinish(reports, f, root)
            && forall path, v :: Leads(reports, s, f, root, path, v) ==>
                 exists n, k :: s <= n < f <= |reports| && reports[n].Remove? && Concerns(reports[n].fo, root, v)
                                && IsEarnedBy(cfg, st, moves, n, k, Uploaded(st))
  {
    s, f := FinishedFirmwareIsComplete(cfg, st, moves, root);
    UploadsSatisfyRequests(cfg, st);
    var reports := EndOf(cfg, st, moves).reports;
    forall path, v | Leads(reports, s, f, root, path, v)
      ensures exists n, k :: s <= n < f <= |reports| && reports[n].Remove? && Concerns(reports[n].fo, root, v)
                             && IsEarnedBy(cfg, st, moves, n, k, Uploaded(st))
    {
      assert ReportedAnalyzed(reports, s, f, root, v);
      var n :| s <= n < f <= |reports| && reports[n].Remove? && Concerns(reports[n].fo, root, v);
      var k := RemovalsAreEarned(cfg, st, moves, n, Uploaded(st));
    }
  }

  // ----- What is extracted is reported -----

  /** That file `u` of firmware `root` includes `v` was reported, or will be when `u` is registered. */
  ghost predicate Announced(st: State, root: Uid, u: Uid, v: Uid) {
    || ReportedIncluded(st.reports, 0, |st.reports|, root, u, v)
    || exists i :: 0 <= i < |st.tasks| && Announces(st.tasks[i], root, u, v)
  }

  ghost predicate Announces(t: Task, root: Uid, u: Uid, v: Uid) {
    t.Expanded? && t.o.uid == u && t.o.root == root && v in t.o.included
  }

  lemma StillReported(st: State, st': State, root: Uid, u: Uid, v: Uid)
    requires st.reports <= st'.reports && ReportedIncluded(st.reports, 0, |st.reports|, root, u, v)
    ensures ReportedIncluded(st'.reports, 0, |st'.reports|, root, u, v)
  {
    var i :| 0 <= i < |st.reports| && TellsIncluded(st.reports[i], root, u, v);
    assert st'.reports[i] == st.reports[i];
  }

  lemma RegistrationReports(cfg: Config, st: State, m: Move, root: Uid, u: Uid, v: Uid)
    requires TasksOk(cfg, st.tasks) && CanMove(cfg, st, m) && Announces(st.tasks[m.task], root, u, v)
    ensures ReportedIncluded(Moved(cfg, st, m).reports, 0, |Moved(cfg, st, m).reports|, root, u, v)
  {
    var o, after := st.tasks[m.task].o, Moved(cfg, st, m).reports;
    assert TaskOk(cfg, st.tasks[m.task]);
    assert after[|st.reports|] == Add(ReportOf(o)) && TellsIncluded(after[|st.reports|], root, u, v);
  }

  lemma MoveKeepsAnnounced(cfg: Config, st: State, m: Move, root: Uid, u: Uid, v: Uid)
    requires TasksOk(cfg, st.tasks) && CanMove(cfg, st, m) && Announced(st, root, u, v)
    ensures Announced(Moved(cfg, st, m), root, u, v)
  {
    var e, after := Fire(cfg, st.tasks[m.task], m.action), Moved(cfg, st, m);
    if ReportedIncluded(st.reports, 0, |st.reports|, root, u, v) {
      StillReported(st, after, root, u, v);
    } else {
      var i :| 0 <= i < |st.tasks| && Announces(st.tasks[i], root, u, v);
      if i == m.task {
        RegistrationReports(cfg, st, m, root, u, v);
      } else {
        assert after.tasks[if i < m.task then i else i - 1 + |e.tasks|] == st.tasks[i];
      }
    }
  }

  lemma {:induction false} RunKeepsAnnounced(cfg: Config, st: State, moves: seq<Move>, root: Uid, u: Uid, v: Uid)
    requires TasksOk(cfg, st.tasks) && IsRun(cfg, st, moves) && Announced(st, root, u, v)
    ensures Announced(EndOf(cfg, st, moves), root, u, v)
    decreases |moves|
  {
    if moves != [] {
      MoveKeepsTasksOk(cfg, st, moves[0]);
      MoveKeepsAnnounced(cfg, st, moves[0], root, u, v);
      RunKeepsAnnounced(cfg, Moved(cfg, st, moves[0]), moves[1..], root, u, v);
    }
  }

  /** In every run that has left no task, each file that was extracted is reported as included where it was found. */
  lemma ExtractedIsReported(cfg: Config, st: State, before: seq<Move>, i: nat, children: seq<FileObject>, later: seq<Move>, v: Uid)
    requires Uploads(st) && IsRun(cfg, st, before) && v in Uids(children)
    requires CanMove(cfg, EndOf(cfg, st, before), Move(i, Unpack(children)))
    requires IsRun(cfg, Moved(cfg, EndOf(cfg, st, before), Move(i, Unpack(children))), later)
    requires EndOf(cfg, Moved(cfg, EndOf(cfg, st, before), Move(i, Unpack(children))), later).tasks == []
    ensures EndOf(cfg, st, before).tasks[i].Queued?
    ensures var o := EndOf(cfg, st, before).tasks[i].o;
            var reports := EndOf(cfg, Moved(cfg, EndOf(cfg, st, before), Move(i, Unpack(children))), later).reports;
            ReportedIncluded(reports, 0, |reports|, o.root, o.uid, v)
  {
    var mid, m := EndOf(cfg, st, before), Move(i, Unpack(children));
    var o, next := mid.tasks[i].o, Moved(cfg, mid, m);
    UploadsSatisfyRequests(cfg, st);
    RunKeepsRequests(cfg, st, before, Uploaded(st));
    MoveKeepsTasksOk(cfg, mid, m);
    assert Announces(next.tasks[i], o.root, o.uid, v);
    RunKeepsAnnounced(cfg, next, later, o.root, o.uid, v);
  }
}

/**
 Nothing is lost: every file the status table waits for is still travelling in the matching part of
 the pipeline, and every upload is on its way, running or finished.
 */
module PipelineCoverage {
  import opened Basics
  import opened TaskScheduler
  import opened AnalysisRun
  import opened Unpacker
  import opened Status
  import opened StatusHistory
  import opened Pipeline

  /** A task carries files of a firmware that are still to be unpacked, or one that is to be analysed. */
  datatype Token = ToUnpack(uid: Uid, root: Uid) | ToAnalyze(uid: Uid, root: Uid)

  function ChildTokens(children: seq<FileObject>): set<Token> {
    set c | c in children :: ToUnpack(c.uid, c.root)
  }

  function Tokens(t: Task): set<Token> {
    match t
    case Queued(o) => {ToUnpack(o.uid, o.root)}
    case Expanded(o, children) => {ToUnpack(o.uid, o.root)} + ChildTokens(children)
    case Registered(o, children) => {ToAnalyze(o.uid, o.root)} + ChildTokens(children)
    case Holding(children) => ChildTokens(children)
    case Analysing(s) => {ToAnalyze(s.o.uid, s.o.root)}
  }

  ghost predicate Carried(tasks: seq<Task>, k: Token) {
    exists i :: 0 <= i < |tasks| && k in Tokens(tasks[i])
  }

  ghost predicate EntryCovered(tasks: seq<Task>, r: Uid, p: Progress) {
    && (forall v :: v in p.toUnpack ==> Carried(tasks, ToUnpack(v, r)))
    && (forall v :: v in p.toAnalyze ==> Carried(tasks, ToAnalyze(v, r)))
  }

  /** What the firmware that are not lost wait for is carried. */
  ghost predicate Covered(st: State, lost: set<Uid>) {
    var running := TableOf(st).running;
    forall r {:trigger EntryCovered(st.tasks, r, running[r])} :: r in running && r !in lost ==> EntryCovered(st.tasks, r, running[r])
  }

  /** An object that cannot be scheduled belongs to a lost firmware. */
  ghost predicate Vouched(cfg: Config, o: FileObject, lost: set<Uid>) {
    o.root in lost || CanSchedule(cfg, o.scheduled)
  }

  ghost predicate AllVouched(cfg: Config, children: seq<FileObject>, lost: set<Uid>) {
    forall i :: 0 <= i < |children| ==> Vouched(cfg, children[i], lost)
  }

  ghost predicate TaskVouched(cfg: Config, t: Task, lost: set<Uid>) {
    match t
    case Queued(o) => Vouched(cfg, o, lost)
    case Expanded(o, children) => Vouched(cfg, o, lost) && AllVouched(cfg, children, lost)
    case Registered(o, children) => Vouched(cfg, o, lost) && AllVouched(cfg, children, lost)
    case Holding(children) => AllVouched(cfg, children, lost)
    case Analysing(_) => true
  }

  ghost predicate TasksVouched(cfg: Config, tasks: seq<Task>, lost: set<Uid>) {
    forall i :: 0 <= i < |tasks| ==> TaskVouched(cfg, tasks[i], lost)
  }

  /** The upload of firmware `r` has not been registered yet. */
  ghost predicate AwaitsRegistration(t: Task, r: Uid) {
    (t.Queued? || t.Expanded?) && t.o.isFirmware && t.o.uid == r
  }

  ghost predicate Tracked(st: State, r: Uid) {
    || (exists i :: 0 <= i < |st.tasks| && AwaitsRegistration(st.tasks[i], r))
    || r in TableOf(st).running
    || r in TableOf(st).finished
  }

  ghost predicate PipelineInv(cfg: Config, st: State, uploads: set<Uid>, lost: set<Uid>) {
    && TasksOk(cfg, st.tasks) && TasksVouched(cfg, st.tasks, lost)
    && (forall i :: 0 <= i < |st.reports| ==> Proper(st.reports[i]))
    && Covered(st, lost)
    && (forall r :: r in uploads ==> Tracked(st, r))
  }

  // ----- What a step does to the carried tokens -----

  lemma CarriedAfter(tasks: seq<Task>, i: nat, put: seq<Task>, k: Token)
    requires i < |tasks| && Carried(tasks, k)
    requires k in Tokens(tasks[i]) ==> Carried(put, k)
    ensures Carried(Replace(tasks, i, put), k)
  {
    var after := Replace(tasks, i, put);
    var j :| 0 <= j < |tasks| && k in Tokens(tasks[j]);
    if j < i {
      assert after[j] == tasks[j];
    } else if j > i {
      assert after[j - 1 + |put|] == tasks[j];
    } else {
      PutIsCarried(tasks, i, put, k);
    }
  }

  lemma PutIsCarried(tasks: seq<Task>, i: nat, put: seq<Task>, k: Token)
    requires i < |tasks| && Carried(put, k)
    ensures Carried(Replace(tasks, i, put), k)
  {
    var j :| 0 <= j < |put| && k in Tokens(put[j]);
    assert Replace(tasks, i, put)[i + j] == put[j];
  }

  lemma IncludedAreCarried(o: FileObject, children: seq<FileObject>, v: Uid)
    requires o.included == ToSet(Uids(children)) && v in o.included
    requires forall i :: 0 <= i < |children| ==> children[i].root == o.root
    ensures ToUnpack(v, o.root) in ChildTokens(children)
  {
    var i :| 0 <= i < |children| && Uids(children)[i] == v;
    assert children[i] in children;
  }

  /** A step gives up only the token its report accounts for, unless a worker dies. */
  lemma FireKeepsTokens(cfg: Config, t: Task, a: Action, k: Token)
    requires TaskOk(cfg, t) && Enables(cfg, t, a) && k in Tokens(t)
    ensures var e := Fire(cfg, t, a);
            || Carried(e.tasks, k)
            || (a.Die? && t.Registered? && k.root == t.o.root && !CanSchedule(cfg, t.o.scheduled))
            || (e.report.Some? && e.report.value.Add? && k.ToUnpack? && k.uid == e.report.value.fo.uid
                && {k.root} == e.report.value.fo.parentFirmware)
            || (e.report.Some? && e.report.value.Remove? && k.ToAnalyze? && k.uid == e.report.value.fo.uid
                && {k.root} == e.report.value.fo.parentFirmware)
  {
    var e := Fire(cfg, t, a);
    match t
    case Analysing(s) =>
      if a.Analyse? {
        StepKeepsIdentity(cfg.plugins, s, a.c);
        StepKeepsLoaded(cfg.plugins, s, a.c);
      }
      if e.tasks != [] {
        assert k in Tokens(e.tasks[0]);
      }
    case Holding(children) =>
      assert children[0] in children;
      assert k in Tokens(e.tasks[0]) || k in Tokens(e.tasks[1]) by {
        var c :| c in children && k == ToUnpack(c.uid, c.root);
        assert c == children[0] || c in children[1..];
      }
    case Registered(o, children) =>
      if !a.Die? {
        PlanKeepsTokens(cfg, t, a, k);
      }
    case Queued(o) =>
      assert k in Tokens(e.tasks[0]);
    case Expanded(o, _) =>
      assert k in Tokens(e.tasks[0]) || k == ToUnpack(o.uid, o.root);
  }

  lemma PlanKeepsTokens(cfg: Config, t: Task, a: Action, k: Token)
    requires t.Registered? && Enables(cfg, t, a) && a.Plan? && k in Tokens(t)
    ensures var e := Fire(cfg, t, a);
            Carried(e.tasks, k) || (k == ToAnalyze(t.o.uid, t.o.root) && e.report == Some(Remove(ReportOf(t.o.(scheduled := a.plan)))))
  {
    var e := Fire(cfg, t, a);
    assert e.tasks[|e.tasks| - 1] == Holding(t.children);
    if k in ChildTokens(t.children) {
      assert k in Tokens(e.tasks[|e.tasks| - 1]);
    } else if |e.tasks| == 2 {
      assert k in Tokens(e.tasks[0]);
    }
  }

  /** The report of a step, as one that concerns a single firmware. */
  lemma ReportIsLocal(cfg: Config, t: Task, a: Action)
    requires TaskOk(cfg, t) && Enables(cfg, t, a) && Fire(cfg, t, a).report.Some?
    ensures var fo := Fire(cfg, t, a).report.value.fo;
            exists root :: fo.parentFirmware == {root} && (fo.isFirmware ==> fo.uid == root)
  {
    if t.Analysing? && a.Analyse? {
      StepKeepsIdentity(cfg.plugins, t.s, a.c);
    }
    if t.Analysing? {
      assert ReportOf(t.s.o).parentFirmware == {t.s.o.root};
    } else {
      assert ReportOf(t.o).parentFirmware == {t.o.root};
    }
  }

  // ----- Coverage is kept -----

  lemma FireKeepsVouched(cfg: Config, t: Task, a: Action, lost: set<Uid>)
    requires TaskVouched(cfg, t, lost) && Enables(cfg, t, a)
    ensures TasksVouched(cfg, Fire(cfg, t, a).tasks, lost)
  {
  }

  lemma QuietKeepsCovered(cfg: Config, st: State, m: Move, lost: set<Uid>)
    requires TasksOk(cfg, st.tasks) && TasksVouched(cfg, st.tasks, lost) && Covered(st, lost) && CanMove(cfg, st, m)
    requires Fire(cfg, st.tasks[m.task], m.action).report == None
    ensures Covered(Moved(cfg, st, m), lost)
  {
    var t, e := st.tasks[m.task], Fire(cfg, st.tasks[m.task], m.action);
    assert Moved(cfg, st, m).reports == st.reports;
    forall k | Carried(st.tasks, k) && k.root !in lost
      ensures Carried(Replace(st.tasks, m.task, e.tasks), k)
    {
      assert TaskVouched(cfg, t, lost);
      if k in Tokens(t) {
        FireKeepsTokens(cfg, t, m.action, k);
      }
      CarriedAfter(st.tasks, m.task, e.tasks, k);
    }
    var running := TableOf(st).running;
    forall r | r in running && r !in lost
      ensures EntryCovered(Moved(cfg, st, m).tasks, r, running[r])
    {
      assert EntryCovered(st.tasks, r, running[r]);
    }
  }

  lemma AddKeepsCovered(cfg: Config, st: State, m: Move, lost: set<Uid>, r: Uid)
    requires TasksOk(cfg, st.tasks) && Covered(st, lost) && CanMove(cfg, st, m) && r !in lost
    requires st.tasks[m.task].Expanded?
    requires r in AddTo(TableOf(st), ReportOf(st.tasks[m.task].o)).running
    ensures EntryCovered(Moved(cfg, st, m).tasks, r, AddTo(TableOf(st), ReportOf(st.tasks[m.task].o)).running[r])
  {
    var t, e, after := st.tasks[m.task], Fire(cfg, st.tasks[m.task], m.action), Moved(cfg, st, m).tasks;
    var o, children, running := t.o, t.children, TableOf(st).running;
    assert TaskOk(cfg, t);
    assert after == Replace(st.tasks, m.task, [Registered(o, children)]);
    assert Tokens(e.tasks[0]) == {ToAnalyze(o.uid, o.root)} + ChildTokens(children);
    forall k | Carried(st.tasks, k) && k != ToUnpack(o.uid, o.root)
      ensures Carried(after, k)
    {
      if k in Tokens(t) {
        FireKeepsTokens(cfg, t, m.action, k);
        assert o.root in {o.root};
      }
      CarriedAfter(st.tasks, m.task, e.tasks, k);
    }
    forall k | k in Tokens(e.tasks[0])
      ensures Carried(after, k)
    {
      PutIsCarried(st.tasks, m.task, e.tasks, k);
    }
    forall v | v in o.included
      ensures Carried(after, ToUnpack(v, o.root))
    {
      IncludedAreCarried(o, children, v);
    }
    assert r in running ==> EntryCovered(st.tasks, r, running[r]);
  }

  lemma RemoveKeepsCovered(cfg: Config, st: State, m: Move, fo: Report, lost: set<Uid>, r: Uid)
    requires TasksOk(cfg, st.tasks) && Covered(st, lost) && CanMove(cfg, st, m) && r !in lost
    requires Fire(cfg, st.tasks[m.task], m.action).report == Some(Remove(fo))
    requires r in RemoveFrom(TableOf(st), fo).running
    ensures EntryCovered(Moved(cfg, st, m).tasks, r, RemoveFrom(TableOf(st), fo).running[r])
  {
    var t, e, after := st.tasks[m.task], Fire(cfg, st.tasks[m.task], m.action), Moved(cfg, st, m).tasks;
    var running := TableOf(st).running;
    ReportIsLocal(cfg, t, m.action);
    var root :| fo.parentFirmware == {root} && (fo.isFirmware ==> fo.uid == root);
    forall k | Carried(st.tasks, k) && k != ToAnalyze(fo.uid, root)
      ensures Carried(after, k)
    {
      if k in Tokens(t) {
        FireKeepsTokens(cfg, t, m.action, k);
        assert root in {root};
      }
      CarriedAfter(st.tasks, m.task, e.tasks, k);
    }
    assert EntryCovered(st.tasks, r, running[r]);
    assert r == root ==> r in Parents(TableOf(st), fo);
  }

  lemma MoveKeepsCovered(cfg: Config, st: State, m: Move, lost: set<Uid>)
    requires TasksOk(cfg, st.tasks) && TasksVouched(cfg, st.tasks, lost) && Covered(st, lost) && CanMove(cfg, st, m)
    ensures Covered(Moved(cfg, st, m), lost)
  {
    var t, e, st' := st.tasks[m.task], Fire(cfg, st.tasks[m.task], m.action), Moved(cfg, st, m);
    if e.report == None {
      QuietKeepsCovered(cfg, st, m, lost);
    } else {
      var op := e.report.value;
      ReportsExtend(st, op, st');
      forall r | r in TableOf(st').running && r !in lost
        ensures EntryCovered(st'.tasks, r, TableOf(st').running[r])
      {
        if op.Add? {
          AddKeepsCovered(cfg, st, m, lost, r);
        } else {
          RemoveKeepsCovered(cfg, st, m, op.fo, lost, r);
        }
      }
    }
  }

  lemma ReportsExtend(st: State, op: Op, st': State)
    requires st'.reports == st.reports + [op]
    ensures TableOf(st') == Apply(Run(st.reports), op).table
    ensures op.Add? ==> TableOf(st') == AddTo(TableOf(st), op.fo)
    ensures op.Remove? ==> TableOf(st') == RemoveFrom(TableOf(st), op.fo)
  {
    assert st'.reports[..|st'.reports| - 1] == st.reports;
  }

  // ----- Uploads are kept -----

  lemma MoveKeepsTracked(cfg: Config, st: State, m: Move, r: Uid)
    requires TasksOk(cfg, st.tasks) && CanMove(cfg, st, m) && Tracked(st, r)
    ensures Tracked(Moved(cfg, st, m), r)
  {
    var e, st' := Fire(cfg, st.tasks[m.task], m.action), Moved(cfg, st, m);
    if e.report.Some? {
      ReportsExtend(st, e.report.value, st');
    } else {
      assert st'.reports == st.reports;
    }
    if r !in TableOf(st).running && r !in TableOf(st).finished {
      var j :| 0 <= j < |st.tasks| && AwaitsRegistration(st.tasks[j], r);
      if j != m.task || st.tasks[j].Queued? {
        StillAwaits(cfg, st, m, r, j);
      }
    }
  }

  lemma StillAwaits(cfg: Config, st: State, m: Move, r: Uid, j: nat)
    requires CanMove(cfg, st, m) && j < |st.tasks| && AwaitsRegistration(st.tasks[j], r)
    requires j != m.task || st.tasks[j].Queued?
    ensures exists i :: 0 <= i < |Moved(cfg, st, m).tasks| && AwaitsRegistration(Moved(cfg, st, m).tasks[i], r)
  {
    var e, after := Fire(cfg, st.tasks[m.task], m.action), Moved(cfg, st, m).tasks;
    if j < m.task {
      assert after[j] == st.tasks[j];
    } else if j > m.task {
      assert after[j - 1 + |e.tasks|] == st.tasks[j];
    } else {
      assert after[j] == e.tasks[0];
    }
  }

  lemma MoveKeepsInv(cfg: Config, st: State, m: Move, uploads: set<Uid>, lost: set<Uid>)
    requires PipelineInv(cfg, st, uploads, lost) && CanMove(cfg, st, m)
    ensures PipelineInv(cfg, Moved(cfg, st, m), uploads, lost)
  {
    FireKeepsTaskOk(cfg, st.tasks[m.task], m.action);
    FireKeepsVouched(cfg, st.tasks[m.task], m.action, lost);
    MoveKeepsCovered(cfg, st, m, lost);
    forall r | r in uploads
      ensures Tracked(Moved(cfg, st, m), r)
    {
      MoveKeepsTracked(cfg, st, m, r);
    }
  }

  lemma {:induction false} RunKeepsInv(cfg: Config, st: State, moves: seq<Move>, uploads: set<Uid>, lost: set<Uid>)
    requires PipelineInv(cfg, st, uploads, lost) && IsRun(cfg, st, moves)
    ensures PipelineInv(cfg, EndOf(cfg, st, moves), uploads, lost)
    decreases |moves|
  {
    if moves != [] {
      MoveKeepsInv(cfg, st, moves[0], uploads, lost);
      RunKeepsInv(cfg, Moved(cfg, st, moves[0]), moves[1..], uploads, lost);
    }
  }

  function UploadedUids(st: State): set<Uid> {
    set t | t in st.tasks && t.Queued? :: t.o.uid
  }

  /** The uploads for which plugins were requested that cannot be scheduled. */
  ghost function Lost(cfg: Config, st: State): set<Uid> {
    set t | t in st.tasks && t.Queued? && !CanSchedule(cfg, t.o.scheduled) :: t.o.uid
  }

  lemma UploadsSatisfyInv(cfg: Config, st: State)
    requires Uploads(st)
    ensures PipelineInv(cfg, st, UploadedUids(st), Lost(cfg, st))
  {
    forall i | 0 <= i < |st.tasks|
      ensures TaskVouched(cfg, st.tasks[i], Lost(cfg, st))
    {
      assert IsUpload(st.tasks[i]) && st.tasks[i] in st.tasks;
    }
    assert TableOf(st) == Table(map[], map[]);
    forall r | r in UploadedUids(st)
      ensures Tracked(st, r)
    {
      var t :| t in st.tasks && t.Queued? && t.o.uid == r;
      var i :| 0 <= i < |st.tasks| && st.tasks[i] == t;
      assert AwaitsRegistration(st.tasks[i], r);
    }
  }

  /**
   No firmware gets stuck, except those of which the worker died: whenever a run from some uploads has
   left no task anywhere, no other firmware is running any more, and every other upload is reported finished.
   */
  lemma NoFirmwareGetsStuck(cfg: Config, st: State, moves: seq<Move>)
    requires Uploads(st) && IsRun(cfg, st, moves) && EndOf(cfg, st, moves).tasks == []
    ensures var t := TableOf(EndOf(cfg, st, moves));
            t.running.Keys <= Lost(cfg, st) && UploadedUids(st) - Lost(cfg, st) <= t.finished.Keys
  {
    var end := EndOf(cfg, st, moves);
    UploadsSatisfyInv(cfg, st);
    RunKeepsInv(cfg, st, moves, UploadedUids(st), Lost(cfg, st));
    StatusHistory.RunKeepsInv(end.reports);
    assert TableConsistent(TableOf(end));
    OnlyLostRun(end, UploadedUids(st), Lost(cfg, st));
  }

  lemma OnlyLostRun(end: State, uploads: set<Uid>, lost: set<Uid>)
    requires Covered(end, lost) && TableConsistent(TableOf(end)) && end.tasks == []
    requires forall r :: r in uploads ==> Tracked(end, r)
    ensures TableOf(end).running.Keys <= lost && uploads - lost <= TableOf(end).finished.Keys
  {
    if r :| r in TableOf(end).running && r !in lost {
      RunningNeedsTask(end, lost, r);
      assert false;
    }
  }

  /** A running firmware waits for a file, and that file is carried by a task. */
  lemma RunningNeedsTask(st: State, lost: set<Uid>, r: Uid)
    requires Covered(st, lost) && TableConsistent(TableOf(st)) && r in TableOf(st).running && r !in lost
    ensures st.tasks != []
  {
    var p := TableOf(st).running[r];
    assert EntryCovered(st.tasks, r, p) && Open(p);
    if p.toUnpack != {} {
      var v :| v in p.toUnpack;
      assert Carried(st.tasks, ToUnpack(v, r));
    } else {
      var v :| v in p.toAnalyze;
      assert Carried(st.tasks, ToAnalyze(v, r));
    }
  }

  /**
   In every state of every run: a firmware that is reported finished has had every file that can be
   reached from it through the reported inclusions unpacked, and analysed or given up, between its start and its end.
   */
  lemma FinishedFirmwareIsComplete(cfg: Config, st: State, moves: seq<Move>, root: Uid) returns (s: nat, f: nat)
    requires Uploads(st) && IsRun(cfg, st, moves)
    requires root in TableOf(EndOf(cfg, st, moves)).finished
    ensures var reports := EndOf(cfg, st, moves).reports;
            && IsStart(reports, s, root) && s < f && IsFinish(reports, f, root)
            && (root !in Run(reports).table.running ==> IsLastStart(reports, s, root))
            && forall path, v :: Leads(reports, s, f, root, path, v) ==>
                 ReportedUnpacked(reports, s, f, root, v) && ReportedAnalyzed(reports, s, f, root, v)
  {
    UploadsSatisfyInv(cfg, st);
    RunKeepsInv(cfg, st, moves, UploadedUids(st), Lost(cfg, st));
    s, f := FinishedMeansAllAnalyzed(EndOf(cfg, st, moves).reports, root);
  }

  // ----- Where the guarantee ends: plugins that are not loaded -----

  /** All that there is of firmware `r` are uploads that cannot be scheduled. */
  ghost predicate OnlyUnscheduled(cfg: Config, t: Task, r: Uid) {
    match t
    case Queued(o) => o.root == r ==> o.isFirmware && !CanSchedule(cfg, o.scheduled)
    case Expanded(o, _) => RootedAt(t, r) ==> o.root == r && o.isFirmware && !CanSchedule(cfg, o.scheduled)
    case Registered(o, _) => RootedAt(t, r) ==> o.root == r && o.isFirmware && !CanSchedule(cfg, o.scheduled)
    case Holding(_) => !RootedAt(t, r)
    case Analysing(_) => !RootedAt(t, r)
  }

  ghost predicate RootedAt(t: Task, r: Uid) {
    exists k :: k in Tokens(t) && k.root == r
  }

  ghost predicate NeverDone(cfg: Config, st: State, r: Uid) {
    && TasksOk(cfg, st.tasks) && r !in TableOf(st).finished
    && forall i :: 0 <= i < |st.tasks| ==> OnlyUnscheduled(cfg, st.tasks[i], r)
  }

  lemma FireKeepsUnscheduled(cfg: Config, t: Task, a: Action, r: Uid)
    requires TaskOk(cfg, t) && Enables(cfg, t, a) && OnlyUnscheduled(cfg, t, r)
    ensures forall i :: 0 <= i < |Fire(cfg, t, a).tasks| ==> OnlyUnscheduled(cfg, Fire(cfg, t, a).tasks[i], r)
  {
    var tasks := Fire(cfg, t, a).tasks;
    forall i | 0 <= i < |tasks|
      ensures OnlyUnscheduled(cfg, tasks[i], r)
    {
      if RootedAt(tasks[i], r) {
        var k :| k in Tokens(tasks[i]) && k.root == r;
        FireTokensAreOld(cfg, t, a, i, k);
        assert RootedAt(t, r);
        if t.Queued? || t.Expanded? {
          FireKeepsTaskOk(cfg, t, a);
          assert TaskOk(cfg, tasks[0]);
        }
      } else if tasks[i].Queued? {
        assert ToUnpack(tasks[i].o.uid, tasks[i].o.root) in Tokens(tasks[i]);
      }
    }
  }

  /** Nothing of such a firmware is struck off. */
  lemma NothingIsStruck(cfg: Config, t: Task, a: Action, r: Uid)
    requires TaskOk(cfg, t) && Enables(cfg, t, a) && OnlyUnscheduled(cfg, t, r)
    requires Fire(cfg, t, a).report.Some? && Fire(cfg, t, a).report.value.Remove?
    ensures var fo := Fire(cfg, t, a).report.value.fo; r !in fo.parentFirmware && (fo.isFirmware ==> fo.uid != r)
  {
    if t.Registered? {
      assert ToAnalyze(t.o.uid, t.o.root) in Tokens(t);
      assert RootedAt(t, t.o.root);
    } else {
      assert ToAnalyze(t.s.o.uid, t.s.o.root) in Tokens(t);
      assert RootedAt(t, t.s.o.root);
      if a.Analyse? {
        StepKeepsIdentity(cfg.plugins, t.s, a.c);
      }
    }
  }

  /** The tokens of new tasks are about the firmware of old ones. */
  lemma FireTokensAreOld(cfg: Config, t: Task, a: Action, i: nat, k: Token)
    requires TaskOk(cfg, t) && Enables(cfg, t, a) && i < |Fire(cfg, t, a).tasks| && k in Tokens(Fire(cfg, t, a).tasks[i])
    ensures exists l :: l in Tokens(t) && l.root == k.root
  {
    match t
    case Queued(o) =>
      assert ToUnpack(o.uid, o.root) in Tokens(t);
    case Expanded(o, children) =>
      assert ToUnpack(o.uid, o.root) in Tokens(t);
    case Registered(o, children) =>
      assert ToAnalyze(o.uid, o.root) in Tokens(t);
    case Holding(children) =>
      assert ToUnpack(children[0].uid, children[0].root) in Tokens(t) by {
        assert children[0] in children;
      }
    case Analysing(s) =>
      if a.Analyse? {
        StepKeepsIdentity(cfg.plugins, s, a.c);
        StepKeepsLoaded(cfg.plugins, s, a.c);
      }
      assert ToAnalyze(s.o.uid, s.o.root) in Tokens(t);
  }

  lemma MoveKeepsNeverDone(cfg: Config, st: State, m: Move, r: Uid)
    requires NeverDone(cfg, st, r) && CanMove(cfg, st, m)
    ensures NeverDone(cfg, Moved(cfg, st, m), r)
  {
    var t, e, st' := st.tasks[m.task], Fire(cfg, st.tasks[m.task], m.action), Moved(cfg, st, m);
    FireKeepsTaskOk(cfg, t, m.action);
    FireKeepsUnscheduled(cfg, t, m.action, r);
    if e.report.Some? {
      ReportsExtend(st, e.report.value, st');
      if e.report.value.Remove? {
        NothingIsStruck(cfg, t, m.action, r);
      }
    } else {
      assert st'.reports == st.reports;
    }
  }

  lemma {:induction false} RunKeepsNeverDone(cfg: Config, st: State, moves: seq<Move>, r: Uid)
    requires NeverDone(cfg, st, r) && IsRun(cfg, st, moves)
    ensures NeverDone(cfg, EndOf(cfg, st, moves), r)
    decreases |moves|
  {
    if moves != [] {
      MoveKeepsNeverDone(cfg, st, moves[0], r);
      RunKeepsNeverDone(cfg, Moved(cfg, st, moves[0]), moves[1..], r);
    }
  }

  /** A firmware for which a plugin was requested that cannot be scheduled never finishes, in no state of any run. */
  lemma UnscheduledNeverFinishes(cfg: Config, st: State, moves: seq<Move>, r: Uid)
    requires Uploads(st) && IsRun(cfg, st, moves)
    requires forall t :: t in st.tasks && t.o.uid == r ==> !CanSchedule(cfg, t.o.scheduled)
    ensures r !in TableOf(EndOf(cfg, st, moves)).finished
  {
    forall i | 0 <= i < |st.tasks|
      ensures OnlyUnscheduled(cfg, st.tasks[i], r)
    {
      assert IsUpload(st.tasks[i]) && st.tasks[i] in st.tasks;
    }
    RunKeepsNeverDone(cfg, st, moves, r);
  }

  // ----- Where the guarantee ends: stale inclusions -----

  /** An upload in every respect, except that it may already list included files. */
  ghost predicate IsReupload(o: FileObject) {
    o.isFirmware && o.depth == 0 && Untouched(o.(included := {}))
  }

  lemma FirstMove(cfg: Config, st: State, m: Move, more: seq<Move>)
    requires CanMove(cfg, st, m) && IsRun(cfg, Moved(cfg, st, m), more)
    ensures IsRun(cfg, st, [m] + more)
    ensures EndOf(cfg, st, [m] + more) == EndOf(cfg, Moved(cfg, st, m), more)
  {
    assert ([m] + more)[1..] == more;
  }

  /** From a state in which the only task holds no children, one move ends the run. */
  lemma LastHand(cfg: Config, reports: seq<Op>) returns (moves: seq<Move>)
    ensures IsRun(cfg, State([Holding([])], reports), moves)
    ensures EndOf(cfg, State([Holding([])], reports), moves) == State([], reports)
  {
    var st, m := State([Holding([])], reports), Move(0, Hand);
    assert Moved(cfg, st, m) == State([], reports);
    FirstMove(cfg, st, m, []);
    moves := [m] + [];
  }

  /** A run that extracts nothing from `o`, loses it at the first analysis step, and ends. */
  lemma BarrenRun(cfg: Config, o: FileObject) returns (moves: seq<Move>)
    requires CanSchedule(cfg, o.scheduled) && IsReupload(o)
    ensures var st := State([Queued(o)], []);
            && IsRun(cfg, st, moves) && EndOf(cfg, st, moves).tasks == []
            && EndOf(cfg, st, moves).reports == [Add(ReportOf(o)), Remove(ReportOf(o))]
  {
    var add, remove := Add(ReportOf(o)), Remove(ReportOf(o));
    var closure :| IsClosure(cfg.plugins, ToSet(o.scheduled), closure);
    var plan := PlanExists(cfg.plugins, closure + ToSet(MANDATORY_PLUGINS));
    assert IsPlanFor(cfg.plugins, o.scheduled, plan);
    var planned := o.(scheduled := plan);
    var st3 := State([Registered(o, [])], [add]);
    var m3 := Move(0, Plan(plan));
    moves := LastHand(cfg, [add, remove]);
    if plan == [] {
      assert Moved(cfg, st3, m3) == State([Holding([])], [add, remove]);
    } else {
      var st4 := State([Analysing(Waiting(planned)), Holding([])], [add]);
      assert Moved(cfg, st3, m3) == st4;
      assert ReportOf(planned) == ReportOf(o);
      assert Moved(cfg, st4, Move(0, DbError)) == State([Holding([])], [add, remove]);
      FirstMove(cfg, st4, Move(0, DbError), moves);
      moves := [Move(0, DbError)] + moves;
    }
    FirstMove(cfg, st3, m3, moves);
    moves := [m3] + moves;
    BarrenStart(cfg, o, moves);
    moves := [Move(0, Unpack([])), Move(0, Register)] + moves;
  }

  lemma NothingExtracted(cfg: Config, o: FileObject)
    ensures var st := State([Queued(o)], []);
            CanMove(cfg, st, Move(0, Unpack([]))) && Moved(cfg, st, Move(0, Unpack([]))) == State([Expanded(o, [])], [])
  {
    assert o.(included := o.included + ToSet(Uids([]))) == o;
  }

  lemma JustRegistered(cfg: Config, o: FileObject)
    ensures var st := State([Expanded(o, [])], []);
            CanMove(cfg, st, Move(0, Register)) && Moved(cfg, st, Move(0, Register)) == State([Registered(o, [])], [Add(ReportOf(o))])
  {
  }

  lemma BarrenStart(cfg: Config, o: FileObject, moves: seq<Move>)
    requires IsRun(cfg, State([Registered(o, [])], [Add(ReportOf(o))]), moves)
    ensures var all := [Move(0, Unpack([])), Move(0, Register)] + moves;
            var st := State([Queued(o)], []);
            IsRun(cfg, st, all)
            && EndOf(cfg, st, all) == EndOf(cfg, State([Registered(o, [])], [Add(ReportOf(o))]), moves)
  {
    var st1, st2 := State([Queued(o)], []), State([Expanded(o, [])], []);
    NothingExtracted(cfg, o);
    JustRegistered(cfg, o);
    FirstMove(cfg, st2, Move(0, Register), moves);
    FirstMove(cfg, st1, Move(0, Unpack([])), [Move(0, Register)] + moves);
    assert [Move(0, Unpack([]))] + ([Move(0, Register)] + moves) == [Move(0, Unpack([])), Move(0, Register)] + moves;
  }

  /** Every run that leaves no task has finished the firmware. */
  ghost predicate AlwaysFinishes(cfg: Config, o: FileObject) {
    forall moves :: IsRun(cfg, State([Queued(o)], []), moves) && EndOf(cfg, State([Queued(o)], []), moves).tasks == [] ==>
      o.uid in TableOf(EndOf(cfg, State([Queued(o)], []), moves)).finished
  }

  /** A run that extracts nothing from `o`, and in which the worker that schedules it dies. */
  lemma DeadRun(cfg: Config, o: FileObject) returns (moves: seq<Move>)
    requires !CanSchedule(cfg, o.scheduled)
    ensures var st := State([Queued(o)], []);
            && IsRun(cfg, st, moves) && EndOf(cfg, st, moves) == State([], [Add(ReportOf(o))])
  {
    var st3 := State([Registered(o, [])], [Add(ReportOf(o))]);
    assert Moved(cfg, st3, Move(0, Die)) == State([], [Add(ReportOf(o))]);
    FirstMove(cfg, st3, Move(0, Die), []);
    BarrenStart(cfg, o, [Move(0, Die)] + []);
    moves := [Move(0, Unpack([])), Move(0, Register)] + ([Move(0, Die)] + []);
  }

  /**
   A firmware that is put into the unpack queue always finishes exactly if the requested plugins and the
   mandatory ones can be scheduled, and it does not list included files from an earlier extraction:
   such a file is waited for, and need not be extracted again.
   */
  lemma AlwaysFinishesIffNothingStale(cfg: Config, o: FileObject)
    requires IsReupload(o)
    ensures AlwaysFinishes(cfg, o) <==> CanSchedule(cfg, o.scheduled) && o.included == {}
  {
    var st := State([Queued(o)], []);
    if !CanSchedule(cfg, o.scheduled) {
      var moves := DeadRun(cfg, o);
      ReportsExtend(State([], []), Add(ReportOf(o)), State([], [Add(ReportOf(o))]));
    } else if o.included == {} {
      assert o == o.(included := {});
      assert Uploads(st);
      forall moves | IsRun(cfg, st, moves) && EndOf(cfg, st, moves).tasks == []
        ensures o.uid in TableOf(EndOf(cfg, st, moves)).finished
      {
        NoFirmwareGetsStuck(cfg, st, moves);
        assert Queued(o) in st.tasks;
        assert o.uid in UploadedUids(st) && Lost(cfg, st) == {};
      }
    } else {
      var moves := BarrenRun(cfg, o);
      StaleFileIsAwaited(o);
    }
  }

  lemma StaleFileIsAwaited(o: FileObject)
    requires o.isFirmware && o.included != {}
    ensures o.uid !in Run([Add(ReportOf(o)), Remove(ReportOf(o))]).table.finished
  {
    var add, remove := Add(ReportOf(o)), Remove(ReportOf(o));
    ReportsExtend(State([], []), add, State([], [add]));
    ReportsExtend(State([], [add]), remove, State([], [add, remove]));
    var t1 := Run([add]).table;
    assert t1.running[o.uid] == Status.Started(o.uid, o.included);
    var v :| v in o.included;
    assert v in WithoutFile(t1.running[o.uid], o.uid).toUnpack;
  }
}

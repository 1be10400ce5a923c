/**
 The queues of the scheduler against the backend as a state machine: what each method of the class does to the queues
 and to the status table is a move of one object in module Pipeline.
 */
module SchedulerMoves {
  import opened Basics
  import opened TaskScheduler
  import opened AnalysisRun
  import opened Status
  import opened StatusHistory
  import opened Pipeline
  import opened Scheduler

  /** How often an object in stage `s` is in the queues. */
  function Copies(q: Queues, s: Stage): nat {
    match s
    case Waiting(o) => multiset(q.process)[o]
    case AtPlugin(o, p) => if p in q.incoming then multiset(q.incoming[p])[o] else 0
    case AtCollector(o, p) => if p in q.outgoing then multiset(q.outgoing[p])[o] else 0
    case _ => 0
  }

  function One(b: bool): nat {
    if b then 1 else 0
  }

  function Reported(t: Table, report: Option<Op>): Table {
    match report
    case Some(Add(fo)) => AddTo(t, fo)
    case Some(Remove(fo)) => RemoveFrom(t, fo)
    case _ => t
  }

  /** An object in stage `s` is taken from the queues, and what its move leaves behind is put into them and reported. */
  ghost predicate IsMove(cfg: Config, q: Queues, t: Table, s: Stage, a: Action, q': Queues, t': Table) {
    && Copies(q, s) > 0 && Enables(cfg, Analysing(s), a)
    && var e := Fire(cfg, Analysing(s), a);
       && (forall x :: Copies(q', x) + One(x == s) == Copies(q, x) + One(Analysing(x) in e.tasks))
       && t' == Reported(t, e.report)
  }

  /** The queues without the object that is taken. */
  ghost predicate IsTaken(q: Queues, s: Stage, rest: Queues) {
    Copies(q, s) > 0 && forall x :: Copies(rest, x) + One(x == s) == Copies(q, x)
  }

  lemma HeadIsTaken(list: seq<FileObject>, x: FileObject)
    requires list != []
    ensures list[0] in multiset(list) && multiset(list[1..])[x] + One(x == list[0]) == multiset(list)[x]
  {
    assert list == [list[0]] + list[1..];
  }

  lemma PutAdds(q: Queues, s: Stage, x: Stage)
    ensures Copies(Put(q, s), x) == Copies(q, x) + One(x == s && !s.Complete? && !s.Crashed?)
  {
    match s
    case Waiting(o) => assert multiset(q.process + [o]) == multiset(q.process) + multiset{o};
    case AtPlugin(o, p) =>
      var before := if p in q.incoming then q.incoming[p] else [];
      assert multiset(before + [o]) == multiset(before) + multiset{o};
    case AtCollector(o, p) =>
      var before := if p in q.outgoing then q.outgoing[p] else [];
      assert multiset(before + [o]) == multiset(before) + multiset{o};
    case _ =>
  }

  /** Taking an object, deciding, and putting it where its next stage is, is a move. */
  lemma DecisionIsMove(cfg: Config, q: Queues, t: Table, s: Stage, c: AnalysisRun.Choice, rest: Queues)
    requires IsTaken(q, s, rest) && Enabled(s, c)
    ensures var next := Step(cfg.plugins, s, c);
            IsMove(cfg, q, t, s, Analyse(c), Put(rest, next), TableAfter(t, next))
  {
    var next := Step(cfg.plugins, s, c);
    var e := Fire(cfg, Analysing(s), Analyse(c));
    forall x
      ensures Copies(Put(rest, next), x) + One(x == s) == Copies(q, x) + One(Analysing(x) in e.tasks)
    {
      PutAdds(rest, next, x);
    }
  }

  /** `ProcessNextAnalysisTask`, if the database takes the object. */
  lemma NextTaskIsMove(cfg: Config, q: Queues, t: Table, c: AnalysisRun.Choice)
    requires q.process != [] && q.process[0].scheduled != [] && c.Decide?
    ensures var next := Next(cfg.plugins, q.process[0], c);
            IsMove(cfg, q, t, Waiting(q.process[0]), Analyse(c), Put(q.(process := q.process[1..]), next), TableAfter(t, next))
  {
    var s, rest := Waiting(q.process[0]), q.(process := q.process[1..]);
    forall x
      ensures Copies(rest, x) + One(x == s) == Copies(q, x)
    {
      if x.Waiting? {
        HeadIsTaken(q.process, x.o);
      }
    }
    HeadIsTaken(q.process, q.process[0]);
    DecisionIsMove(cfg, q, t, s, c, rest);
  }

  /** `ProcessNextAnalysisTask`, if the database rejects the object. */
  lemma GivingUpIsMove(cfg: Config, q: Queues, t: Table)
    requires q.process != []
    ensures IsMove(cfg, q, t, Waiting(q.process[0]), DbError, q.(process := q.process[1..]), RemoveFrom(t, ReportOf(q.process[0])))
  {
    var s, rest := Waiting(q.process[0]), q.(process := q.process[1..]);
    forall x
      ensures Copies(rest, x) + One(x == s) == Copies(q, x)
    {
      if x.Waiting? {
        HeadIsTaken(q.process, x.o);
      }
    }
    HeadIsTaken(q.process, q.process[0]);
  }

  /** `WorkOnNext`, whether the worker succeeds or fails. */
  lemma WorkIsMove(cfg: Config, q: Queues, t: Table, p: Plugin, success: bool)
    requires p in q.incoming && q.incoming[p] != []
    ensures var fo := q.incoming[p][0];
            IsMove(cfg, q, t, AtPlugin(fo, p), Analyse(Work(success)),
                   Put(q.(incoming := q.incoming[p := q.incoming[p][1..]]), AtCollector(Worker(p, fo, success), p)), t)
  {
    var s, rest := AtPlugin(q.incoming[p][0], p), q.(incoming := q.incoming[p := q.incoming[p][1..]]);
    forall x
      ensures Copies(rest, x) + One(x == s) == Copies(q, x)
    {
      if x.AtPlugin? && x.p == p {
        HeadIsTaken(q.incoming[p], x.o);
      }
    }
    HeadIsTaken(q.incoming[p], q.incoming[p][0]);
    DecisionIsMove(cfg, q, t, s, Work(success), rest);
  }

  /** `CollectFrom`, with or without a failure. */
  lemma CollectionIsMove(cfg: Config, q: Queues, t: Table, p: Plugin)
    requires p in q.outgoing && q.outgoing[p] != []
    ensures var fo := q.outgoing[p][0];
            IsMove(cfg, q, t, AtCollector(fo, p), Analyse(Collect),
                   Put(q.(outgoing := q.outgoing[p := q.outgoing[p][1..]]), Collected(cfg.plugins, p, fo)),
                   TableAfter(t, Collected(cfg.plugins, p, fo)))
  {
    var s, rest := AtCollector(q.outgoing[p][0], p), q.(outgoing := q.outgoing[p := q.outgoing[p][1..]]);
    forall x
      ensures Copies(rest, x) + One(x == s) == Copies(q, x)
    {
      if x.AtCollector? && x.p == p {
        HeadIsTaken(q.outgoing[p], x.o);
      }
    }
    HeadIsTaken(q.outgoing[p], q.outgoing[p][0]);
    DecisionIsMove(cfg, q, t, s, Collect, rest);
  }
}

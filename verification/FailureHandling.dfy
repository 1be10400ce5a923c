/**
 What a failed analysis leads to (src/analysis/PluginBase.py, src/scheduler/task_scheduler.py), from the decision of
 the worker on: the plugin and its direct dependents get failed results, and no direct dependent runs any more.
 */
module FailureHandling {
  import opened Basics
  import opened TaskScheduler
  import opened AnalysisRun
  import opened PluginAccounting

  /** An exception is only there between the worker and the collector. */
  ghost predicate ExceptionOk(s: Stage) {
    && (s.Waiting? || s.AtPlugin? || s.Complete? ==> s.o.exception == None)
    && (s.AtCollector? && s.o.exception.Some? ==> s.o.exception.value == s.p && s.p in s.o.processed)
  }

  lemma StepKeepsExceptionOk(plugins: Plugins, s: Stage, c: Choice)
    requires ExceptionOk(s) && Enabled(s, c)
    ensures ExceptionOk(Step(plugins, s, c))
  {
  }

  lemma {:induction false} RunKeepsExceptionOk(plugins: Plugins, s: Stage, choices: seq<Choice>)
    requires ExceptionOk(s) && Possible(plugins, s, choices)
    ensures ExceptionOk(After(plugins, s, choices))
    decreases |choices|
  {
    if choices != [] {
      StepKeepsExceptionOk(plugins, s, choices[0]);
      RunKeepsExceptionOk(plugins, Step(plugins, s, choices[0]), choices[1..]);
    }
  }

  // ----- What stays true once a plugin has failed -----

  /** The result of `q` is a failed one, and `q` will not be run any more. */
  ghost predicate StaysFailed(s: Stage, q: Plugin) {
    && q in s.o.processed && s.o.processed[q] == Failed
    && q !in s.o.scheduled && (s.AtPlugin? ==> s.p != q)
  }

  /** No plugin that depends on `p` is listed, or was started since the history had `n` events. */
  ghost predicate NoDependents(plugins: Plugins, s: Stage, p: Plugin, n: nat) {
    && (forall q :: q in s.o.scheduled ==> p !in Deps(plugins, q))
    && (forall i :: n <= i < |s.o.history| ==> !IsStart(plugins, s.o.history[i], p))
  }

  /** The event is the start of a plugin that depends on `p`. */
  ghost predicate IsStart(plugins: Plugins, e: Event, p: Plugin) {
    e.Left? && e.how == Started && p in Deps(plugins, e.plugin)
  }

  lemma StepKeepsFailed(plugins: Plugins, s: Stage, c: Choice, q: Plugin)
    requires StaysFailed(s, q) && Enabled(s, c)
    ensures StaysFailed(Step(plugins, s, c), q)
  {
    match s
    case Waiting(o) => NextPops(plugins, o, c);
    case AtPlugin(_, _) =>
    case AtCollector(o, _) =>
      if o.exception.Some? {
        WithoutFacts(plugins, o.scheduled, o.exception.value);
        var w := Without(plugins, o.scheduled, o.exception.value);
        assert q in w <==> q in ToSet(w);
      }
  }

  lemma StepKeepsNoDependents(plugins: Plugins, s: Stage, c: Choice, p: Plugin, n: nat)
    requires NoDependents(plugins, s, p, n) && Enabled(s, c)
    ensures NoDependents(plugins, Step(plugins, s, c), p, n)
  {
    match s
    case Waiting(o) => NextPops(plugins, o, c);
    case AtPlugin(_, _) =>
    case AtCollector(o, _) =>
      if o.exception.Some? {
        WithoutFacts(plugins, o.scheduled, o.exception.value);
        var w := Without(plugins, o.scheduled, o.exception.value);
        assert forall q :: q in w <==> q in ToSet(w);
      }
  }

  lemma {:induction false} RunKeepsFailed(plugins: Plugins, s: Stage, choices: seq<Choice>, q: Plugin)
    requires StaysFailed(s, q) && Possible(plugins, s, choices)
    ensures StaysFailed(After(plugins, s, choices), q)
    decreases |choices|
  {
    if choices != [] {
      StepKeepsFailed(plugins, s, choices[0], q);
      RunKeepsFailed(plugins, Step(plugins, s, choices[0]), choices[1..], q);
    }
  }

  lemma {:induction false} RunKeepsNoDependents(plugins: Plugins, s: Stage, choices: seq<Choice>, p: Plugin, n: nat)
    requires NoDependents(plugins, s, p, n) && Possible(plugins, s, choices)
    ensures NoDependents(plugins, After(plugins, s, choices), p, n)
    decreases |choices|
  {
    if choices != [] {
      StepKeepsNoDependents(plugins, s, choices[0], p, n);
      RunKeepsNoDependents(plugins, Step(plugins, s, choices[0]), choices[1..], p, n);
    }
  }

  // ----- The decision of the worker -----

  /** Work and collection, from the stage at the plugin on. */
  lemma WorkThenCollect(plugins: Plugins, s: Stage, choices: seq<Choice>, success: bool, later: seq<Choice>)
    returns (at: Stage, next: Stage)
    requires Possible(plugins, s, choices + ([Work(success), Collect] + later))
    ensures Possible(plugins, s, choices) && at == After(plugins, s, choices) && at.AtPlugin?
    ensures next == Step(plugins, Step(plugins, at, Work(success)), Collect) && Possible(plugins, next, later)
    ensures After(plugins, s, choices + ([Work(success), Collect] + later)) == After(plugins, next, later)
  {
    AfterConcat(plugins, s, choices, [Work(success), Collect] + later);
    at := After(plugins, s, choices);
    AfterConcat(plugins, at, [Work(success), Collect], later);
    assert [Work(success), Collect][1..] == [Collect];
    next := Step(plugins, Step(plugins, at, Work(success)), Collect);
  }

  /** A successful analysis leaves a finished result and changes nothing else. */
  lemma SuccessIsKept(plugins: Plugins, o: FileObject, choices: seq<Choice>)
    requires o.exception == None && Possible(plugins, CheckFurther(o), choices + ([Work(true), Collect] + []))
    ensures Possible(plugins, CheckFurther(o), choices) && After(plugins, CheckFurther(o), choices).AtPlugin?
    ensures var at := After(plugins, CheckFurther(o), choices);
            After(plugins, CheckFurther(o), choices + ([Work(true), Collect] + []))
            == CheckFurther(at.o.(processed := at.o.processed[at.p := Finished]))
  {
    var at, next := WorkThenCollect(plugins, CheckFurther(o), choices, true, []);
    RunKeepsExceptionOk(plugins, CheckFurther(o), choices);
  }

  /** What the collector makes of the object that a worker has failed on. */
  lemma CollectedAfterFailure(plugins: Plugins, at: Stage, next: Stage)
    requires at.AtPlugin? && at.o.exception == None && AllLoaded(plugins, at.o.scheduled)
    requires next == Step(plugins, Step(plugins, at, Work(false)), Collect)
    ensures NoDependents(plugins, next, at.p, |at.o.history|) && !next.AtPlugin? && !next.Crashed?
    ensures at.p in next.o.processed && next.o.processed[at.p] == Failed
    ensures forall q :: q in at.o.scheduled && at.p in Deps(plugins, q) ==> StaysFailed(next, q)
    ensures at.p !in at.o.scheduled ==> StaysFailed(next, at.p)
  {
    var o := Worker(at.p, at.o, false);
    var w, d := Without(plugins, o.scheduled, at.p), Dependents(plugins, o.scheduled, at.p);
    WithoutFacts(plugins, o.scheduled, at.p);
    assert forall q :: (q in w <==> q in ToSet(w)) && (q in d <==> q in ToSet(d));
    forall i | |at.o.history| <= i < |next.o.history|
      ensures !IsStart(plugins, next.o.history[i], at.p)
    {
      if i > |at.o.history| {
        assert next.o.history[i] == Unscheduling(d)[i - |at.o.history| - 1];
      }
    }
  }

  /**
   A worker fails on an object, in whatever run. Once the collector has taken the object, no plugin that depends
   on the failed one is listed, and none is started any more; it and its dependents that were listed have failed
   results, the former until it is run again because it was listed once more. While a plugin that is not loaded
   is listed, the run ends in a key error instead.
   */
  lemma FailedWorkIsHandled(plugins: Plugins, o: FileObject, choices: seq<Choice>, later: seq<Choice>) returns (at: Stage)
    requires o.exception == None && Possible(plugins, CheckFurther(o), choices + ([Work(false), Collect] + later))
    ensures Possible(plugins, CheckFurther(o), choices) && at == After(plugins, CheckFurther(o), choices) && at.AtPlugin?
    ensures var end := After(plugins, CheckFurther(o), choices + ([Work(false), Collect] + later));
            if !AllLoaded(plugins, at.o.scheduled) then later == [] && end.Crashed?
            else
              && (forall q :: q in end.o.scheduled ==> at.p !in Deps(plugins, q))
              && (forall i :: |at.o.history| <= i < |end.o.history| ==> !IsStart(plugins, end.o.history[i], at.p))
              && (forall q :: q in at.o.scheduled && at.p in Deps(plugins, q) ==>
                    q in end.o.processed && end.o.processed[q] == Failed)
              && (later == [] || at.p !in at.o.scheduled ==> at.p in end.o.processed && end.o.processed[at.p] == Failed)
  {
    var next;
    at, next := WorkThenCollect(plugins, CheckFurther(o), choices, false, later);
    RunKeepsExceptionOk(plugins, CheckFurther(o), choices);
    if AllLoaded(plugins, at.o.scheduled) {
      CollectedAfterFailure(plugins, at, next);
      RunKeepsNoDependents(plugins, next, later, at.p, |at.o.history|);
      forall q | StaysFailed(next, q)
        ensures StaysFailed(After(plugins, next, later), q)
      {
        RunKeepsFailed(plugins, next, later, q);
      }
    }
  }
}

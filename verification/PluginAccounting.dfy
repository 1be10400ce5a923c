/**
 Accounting over a run: what becomes of every plugin that was scheduled for an object.
 */
module PluginAccounting {
  import opened Basics
  import opened TaskScheduler
  import opened AnalysisRun

  /** The plugins that left the list, in the order they left. */
  function Leavers(h: seq<Event>): seq<Plugin> {
    if h == [] then []
    else
      var last := |h| - 1;
      Leavers(h[..last]) + (if h[last].Left? then [h[last].plugin] else [])
  }

  /** No direct dependent of a plugin is started after that plugin failed. */
  ghost predicate NoStartAfterFailure(plugins: Plugins, h: seq<Event>) {
    forall i, j :: 0 <= i < j < |h| && h[i].Failure? && h[j].Left? && h[j].how == Started ==>
      h[i].plugin !in Deps(plugins, h[j].plugin)
  }

  ghost predicate NoDependentScheduled(plugins: Plugins, o: FileObject) {
    forall i, q :: 0 <= i < |o.history| && o.history[i].Failure? && q in o.scheduled ==>
      o.history[i].plugin !in Deps(plugins, q)
  }

  /**
   The result that belongs to a way of leaving is the one stored for the plugin. A plugin that was planned more
   than once can leave in several ways.
   */
  ghost predicate ResultsFit(planned: seq<Plugin>, o: FileObject) {
    forall i :: 0 <= i < |o.history| && o.history[i].Left? ==> ResultFits(planned, o, o.history[i])
  }

  ghost predicate ResultFits(planned: seq<Plugin>, o: FileObject, e: Event)
    requires e.Left?
  {
    && (e.how == Unscheduled ==> e.plugin in o.processed && o.processed[e.plugin] == Failed)
    && (e.how == Blacklisted && multiset(planned)[e.plugin] == 1 ==>
          e.plugin in o.processed && o.processed[e.plugin] == Skipped)
  }

  /** Plugin `p` has not left in a way that fixes its result. */
  ghost predicate ResultOpen(planned: seq<Plugin>, o: FileObject, p: Plugin) {
    forall i :: 0 <= i < |o.history| && o.history[i].Left? && o.history[i].plugin == p ==>
      o.history[i].how != Unscheduled && (o.history[i].how == Blacklisted ==> multiset(planned)[p] != 1)
  }

  /** A plugin is unscheduled because one it depends on failed. */
  ghost predicate HasCause(plugins: Plugins, h: seq<Event>, j: int) {
    0 <= j < |h| && exists i :: 0 <= i < j && h[i].Failure? && h[i].plugin in Deps(plugins, h[j].plugin)
  }

  ghost predicate CausesKnown(plugins: Plugins, h: seq<Event>) {
    forall j :: 0 <= j < |h| && h[j].Left? && h[j].how == Unscheduled ==> HasCause(plugins, h, j)
  }

  /** Each planned plugin is still scheduled or has left, as often as it was planned. */
  ghost predicate Balanced(planned: seq<Plugin>, scheduled: seq<Plugin>, left: seq<Plugin>) {
    multiset(planned) == multiset(scheduled) + multiset(left)
  }

  ghost predicate Accounted(plugins: Plugins, planned: seq<Plugin>, s: Stage) {
    var o := s.o;
    && Balanced(planned, o.scheduled, Leavers(o.history))
    && NoStartAfterFailure(plugins, o.history) && NoDependentScheduled(plugins, o)
    && CausesKnown(plugins, o.history) && ResultsFit(planned, o)
    && (s.AtPlugin? || s.AtCollector? ==> ResultOpen(planned, o, s.p))
    && (s.AtCollector? ==> o.exception == None || (o.exception == Some(s.p) && s.p in o.processed))
    && (s.AtCollector? || s.Crashed? || o.exception == None)
    && (s.Complete? ==> o.scheduled == [])
    && (s.Waiting? ==> o.scheduled != [])
  }

  lemma {:induction false} LeaversAppend(h: seq<Event>, more: seq<Event>)
    ensures Leavers(h + more) == Leavers(h) + Leavers(more)
    decreases |more|
  {
    if more == [] {
      assert h + more == h;
    } else {
      var last := |more| - 1;
      LeaversAppend(h, more[..last]);
      assert (h + more)[..|h + more| - 1] == h + more[..last];
    }
  }

  lemma {:induction false} LeaversUnscheduling(ps: seq<Plugin>)
    ensures Leavers(Unscheduling(ps)) == ps
  {
    if ps != [] {
      var last := |ps| - 1;
      LeaversUnscheduling(ps[..last]);
      assert Unscheduling(ps)[..last] == Unscheduling(ps[..last]);
    }
  }

  lemma {:induction false} LeftIsLeaver(h: seq<Event>, i: nat)
    requires i < |h| && h[i].Left?
    ensures h[i].plugin in Leavers(h)
  {
    var last := |h| - 1;
    if i < last {
      LeftIsLeaver(h[..last], i);
    }
  }

  lemma LogLeavers(h: seq<Event>, p: Plugin, how: How)
    ensures Leavers(h + [Left(p, how)]) == Leavers(h) + [p]
  {
    assert (h + [Left(p, how)])[..|h|] == h;
  }

  /** A plugin that is still listed was not unscheduled, and left before only if it was planned more than once. */
  lemma ListedIsOpen(plugins: Plugins, planned: seq<Plugin>, o: FileObject, i: nat)
    requires Balanced(planned, o.scheduled, Leavers(o.history)) && NoDependentScheduled(plugins, o)
    requires CausesKnown(plugins, o.history) && i < |o.history| && o.history[i].Left? && o.history[i].plugin in o.scheduled
    ensures o.history[i].how != Unscheduled && multiset(planned)[o.history[i].plugin] >= 2
  {
    LeftIsLeaver(o.history, i);
    var p := o.history[i].plugin;
    assert p in multiset(o.scheduled) && p in multiset(Leavers(o.history));
    assert o.history[i].how == Unscheduled ==> HasCause(plugins, o.history, i);
  }

  /** The last plugin on the list leaves. */
  lemma PopBalanced(planned: seq<Plugin>, scheduled: seq<Plugin>, left: seq<Plugin>, rest: seq<Plugin>, p: Plugin)
    requires Balanced(planned, scheduled, left) && scheduled == rest + [p]
    ensures Balanced(planned, rest, left + [p])
  {
  }

  /** It leaves with a result that fits. */
  lemma PopResults(plugins: Plugins, planned: seq<Plugin>, o: FileObject, o': FileObject, p: Plugin, how: How)
    requires Accounted(plugins, planned, Waiting(o)) && how != Unscheduled && p in o.scheduled
    requires o'.history == o.history + [Left(p, how)]
    requires forall q :: q in o.processed && q != p ==> q in o'.processed && o'.processed[q] == o.processed[q]
    requires how == Blacklisted ==> p in o'.processed && o'.processed[p] == Skipped
    ensures ResultsFit(planned, o') && (how == Started ==> ResultOpen(planned, o', p))
  {
    var h := o.history;
    forall i | 0 <= i < |o'.history| && o'.history[i].Left?
      ensures ResultFits(planned, o', o'.history[i])
      ensures how == Started && o'.history[i].plugin == p ==>
                o'.history[i].how != Unscheduled && (o'.history[i].how == Blacklisted ==> multiset(planned)[p] != 1)
    {
      if i < |h| {
        assert o'.history[i] == h[i] && ResultFits(planned, o, h[i]);
        if h[i].plugin == p {
          ListedIsOpen(plugins, planned, o, i);
        }
      }
    }
  }

  lemma PopCauses(plugins: Plugins, h: seq<Event>, p: Plugin, how: How)
    requires CausesKnown(plugins, h) && how != Unscheduled
    ensures CausesKnown(plugins, h + [Left(p, how)])
  {
    var h' := h + [Left(p, how)];
    forall j | 0 <= j < |h'| && h'[j].Left? && h'[j].how == Unscheduled
      ensures HasCause(plugins, h', j)
    {
      assert h'[j] == h[j] && HasCause(plugins, h, j);
      var i :| 0 <= i < j && h[i].Failure? && h[i].plugin in Deps(plugins, h[j].plugin);
      assert h'[i] == h[i];
    }
  }

  lemma PopOrder(plugins: Plugins, o: FileObject, o': FileObject, p: Plugin, how: How)
    requires NoStartAfterFailure(plugins, o.history) && NoDependentScheduled(plugins, o) && p in o.scheduled
    requires o'.history == o.history + [Left(p, how)] && forall q :: q in o'.scheduled ==> q in o.scheduled
    ensures NoStartAfterFailure(plugins, o'.history) && NoDependentScheduled(plugins, o')
  {
    assert forall i :: 0 <= i < |o.history| ==> o'.history[i] == o.history[i];
  }

  /** Popping a plugin and logging how it left keeps the books, whatever its result. */
  lemma PopAccounted(plugins: Plugins, planned: seq<Plugin>, o: FileObject, how: How, s: Stage)
    requires Accounted(plugins, planned, Waiting(o)) && how != Unscheduled && Pops(o, how, s)
    ensures Accounted(plugins, planned, s)
  {
    var last := |o.scheduled| - 1;
    var p := o.scheduled[last];
    LogLeavers(o.history, p, how);
    PopBalanced(planned, o.scheduled, Leavers(o.history), o.scheduled[..last], p);
    PopResults(plugins, planned, o, s.o, p, how);
    PopOrder(plugins, o, s.o, p, how);
    PopCauses(plugins, o.history, p, how);
  }

  function WayOut(plugins: Plugins, p: Plugin, c: Choice): How
    requires c.Decide?
  {
    if p !in plugins then NotAvailable
    else if c.upToDate then UpToDate
    else if p !in MANDATORY_PLUGINS && c.mimeRestricted && c.blacklisted then Blacklisted
    else Started
  }

  /** Whatever is decided, the last plugin is popped and logged, and no other result is changed. */
  ghost predicate Pops(o: FileObject, how: How, s: Stage)
    requires o.scheduled != []
  {
    var last := |o.scheduled| - 1;
    var p := o.scheduled[last];
    && s.o == o.(scheduled := o.scheduled[..last], processed := s.o.processed, history := o.history + [Left(p, how)])
    && (forall q :: q in o.processed && q != p ==> q in s.o.processed && s.o.processed[q] == o.processed[q])
    && (how == Blacklisted ==> p in s.o.processed && s.o.processed[p] == Skipped)
    && (s.AtPlugin? || s.AtCollector? ==> s.p == p && how == Started)
    && (s.Complete? || s.Waiting? ==> s == CheckFurther(s.o))
  }

  lemma NextPops(plugins: Plugins, o: FileObject, c: Choice)
    requires o.scheduled != [] && c.Decide?
    ensures Pops(o, WayOut(plugins, o.scheduled[|o.scheduled| - 1], c), Next(plugins, o, c))
  {
  }

  lemma NextAccounted(plugins: Plugins, planned: seq<Plugin>, o: FileObject, c: Choice)
    requires Accounted(plugins, planned, Waiting(o)) && c.Decide?
    ensures Accounted(plugins, planned, Next(plugins, o, c))
  {
    NextPops(plugins, o, c);
    PopAccounted(plugins, planned, o, WayOut(plugins, o.scheduled[|o.scheduled| - 1], c), Next(plugins, o, c));
  }

  lemma WorkerAccounted(plugins: Plugins, planned: seq<Plugin>, o: FileObject, p: Plugin, success: bool)
    requires Accounted(plugins, planned, AtPlugin(o, p))
    ensures Accounted(plugins, planned, AtCollector(Worker(p, o, success), p))
  {
    var o' := Worker(p, o, success);
    forall i | 0 <= i < |o.history| && o.history[i].Left?
      ensures ResultFits(planned, o', o.history[i])
    {
      assert ResultFits(planned, o, o.history[i]);
    }
  }

  lemma FailureAccounted(plugins: Plugins, planned: seq<Plugin>, o: FileObject, p: Plugin)
    requires Accounted(plugins, planned, AtCollector(o, p)) && o.exception == Some(p)
    ensures Accounted(plugins, planned, CheckFurther(Rescheduled(plugins, o)))
  {
    FailureLeavers(plugins, o, p);
    WithoutKeepsCount(plugins, o.scheduled, p);
    FailureOrder(plugins, o, p);
    FailureCauses(plugins, o, p);
    FailureResults(plugins, planned, o, p);
  }

  lemma FailureLeavers(plugins: Plugins, o: FileObject, p: Plugin)
    requires o.exception == Some(p)
    ensures Leavers(Rescheduled(plugins, o).history) == Leavers(o.history) + Dependents(plugins, o.scheduled, p)
  {
    var h, dropped := o.history, Dependents(plugins, o.scheduled, p);
    LeaversAppend(h + [Failure(p)], Unscheduling(dropped));
    LeaversUnscheduling(dropped);
    assert (h + [Failure(p)])[..|h|] == h;
  }

  lemma FailureOrder(plugins: Plugins, o: FileObject, p: Plugin)
    requires NoStartAfterFailure(plugins, o.history) && NoDependentScheduled(plugins, o) && o.exception == Some(p)
    ensures var o' := Rescheduled(plugins, o);
            NoStartAfterFailure(plugins, o'.history) && NoDependentScheduled(plugins, o')
  {
    var o', h, dropped := Rescheduled(plugins, o), o.history, Dependents(plugins, o.scheduled, p);
    WithoutFacts(plugins, o.scheduled, p);
    assert forall i :: 0 <= i < |h| ==> o'.history[i] == h[i];
    assert o'.history[|h|] == Failure(p);
    forall i | |h| < i < |o'.history|
      ensures o'.history[i].Left? && o'.history[i].how == Unscheduled
    {
      assert o'.history[i] == Unscheduling(dropped)[i - |h| - 1];
    }
    forall q | q in o'.scheduled
      ensures q in o.scheduled && p !in Deps(plugins, q)
    {
      assert q in ToSet(o'.scheduled);
    }
  }

  lemma FailureCauses(plugins: Plugins, o: FileObject, p: Plugin)
    requires CausesKnown(plugins, o.history) && o.exception == Some(p)
    ensures CausesKnown(plugins, Rescheduled(plugins, o).history)
  {
    var h, h', dropped := o.history, Rescheduled(plugins, o).history, Dependents(plugins, o.scheduled, p);
    WithoutFacts(plugins, o.scheduled, p);
    assert forall i :: 0 <= i < |h| ==> h'[i] == h[i];
    assert h'[|h|] == Failure(p);
    forall j | 0 <= j < |h'| && h'[j].Left? && h'[j].how == Unscheduled
      ensures HasCause(plugins, h', j)
    {
      if j < |h| {
        assert HasCause(plugins, h, j);
        var i :| 0 <= i < j && h[i].Failure? && h[i].plugin in Deps(plugins, h[j].plugin);
        assert h'[i] == h[i];
      } else {
        assert h'[j] == Unscheduling(dropped)[j - |h| - 1] && h'[j].plugin == dropped[j - |h| - 1];
        assert h'[j].plugin in ToSet(dropped);
      }
    }
  }

  lemma FailureResults(plugins: Plugins, planned: seq<Plugin>, o: FileObject, p: Plugin)
    requires Accounted(plugins, planned, AtCollector(o, p)) && o.exception == Some(p)
    ensures ResultsFit(planned, Rescheduled(plugins, o))
  {
    var o', h, dropped := Rescheduled(plugins, o), o.history, Dependents(plugins, o.scheduled, p);
    WithoutFacts(plugins, o.scheduled, p);
    forall i | 0 <= i < |o'.history| && o'.history[i].Left?
      ensures ResultFits(planned, o', o'.history[i])
    {
      if i < |h| {
        assert o'.history[i] == h[i] && ResultFits(planned, o, h[i]);
        if h[i].plugin in dropped {
          assert h[i].plugin in ToSet(dropped);
          ListedIsOpen(plugins, planned, o, i);
        }
      } else {
        assert o'.history[i] == Unscheduling(dropped)[i - |h| - 1];
      }
    }
  }

  lemma StepAccounted(plugins: Plugins, planned: seq<Plugin>, s: Stage, c: Choice)
    requires Accounted(plugins, planned, s) && Enabled(s, c)
    ensures Accounted(plugins, planned, Step(plugins, s, c))
  {
    match s
    case Waiting(o) => NextAccounted(plugins, planned, o, c);
    case AtPlugin(o, p) => WorkerAccounted(plugins, planned, o, p, c.success);
    case AtCollector(o, p) =>
      if p in o.processed && o.exception.Some? && AllLoaded(plugins, o.scheduled) {
        FailureAccounted(plugins, planned, o, p);
      }
  }

  lemma {:induction false} RunAccounted(plugins: Plugins, planned: seq<Plugin>, s: Stage, choices: seq<Choice>)
    requires Accounted(plugins, planned, s) && Possible(plugins, s, choices)
    ensures Accounted(plugins, planned, After(plugins, s, choices))
    decreases |choices|
  {
    if choices != [] {
      StepAccounted(plugins, planned, s, choices[0]);
      RunAccounted(plugins, planned, Step(plugins, s, choices[0]), choices[1..]);
    }
  }

  /** A list without repetitions holds nothing twice. */
  lemma NoDupCounts(xs: seq<Plugin>)
    ensures NoDup(xs) <==> forall x :: multiset(xs)[x] <= 1
  {
    forall x
      ensures NoDup(xs) ==> multiset(xs)[x] <= 1
    {
      if NoDup(xs) && x in xs {
        var i :| 0 <= i < |xs| && xs[i] == x;
        assert xs == xs[..i] + [x] + xs[i + 1..];
        assert x !in xs[..i] && x !in xs[i + 1..];
      }
    }
    if i, j :| 0 <= i < j < |xs| && xs[i] == xs[j] {
      var later := xs[i + 1..];
      assert xs == xs[..i] + ([xs[i]] + later);
      assert later[j - i - 1] == xs[i] && xs[i] in multiset(later);
      assert multiset(xs) == multiset(xs[..i]) + (multiset{xs[i]} + multiset(later));
      assert multiset(xs)[xs[i]] >= 2;
    }
  }

  /**
   Over every run of an object, whatever its list: each plugin leaves at most as often as it was scheduled, and
   on completion exactly as often. A plugin that was unscheduled carries a failed result, and a blacklisted one
   that was scheduled once a skipped result; no direct dependent of a failed plugin is started after the failure.
   */
  lemma EveryPluginLeavesOnce(plugins: Plugins, o: FileObject, choices: seq<Choice>)
    requires o.history == [] && o.exception == None && Possible(plugins, CheckFurther(o), choices)
    ensures var s := After(plugins, CheckFurther(o), choices);
            && multiset(o.scheduled) == multiset(s.o.scheduled) + multiset(Leavers(s.o.history))
            && (s.Complete? ==> multiset(Leavers(s.o.history)) == multiset(o.scheduled))
            && (NoDup(o.scheduled) ==> NoDup(Leavers(s.o.history)))
            && ResultsFit(o.scheduled, s.o) && NoStartAfterFailure(plugins, s.o.history)
  {
    RunAccounted(plugins, o.scheduled, CheckFurther(o), choices);
    var s := After(plugins, CheckFurther(o), choices);
    NoDupCounts(o.scheduled);
    NoDupCounts(Leavers(s.o.history));
    forall x | NoDup(o.scheduled)
      ensures multiset(Leavers(s.o.history))[x] <= 1
    {
      assert multiset(o.scheduled)[x] == multiset(s.o.scheduled)[x] + multiset(Leavers(s.o.history))[x];
    }
  }

  /** Starting every plugin, with success, completes an object. */
  lemma {:induction false} CompletingRun(plugins: Plugins, o: FileObject) returns (choices: seq<Choice>)
    requires o.exception == None
    ensures Possible(plugins, CheckFurther(o), choices) && After(plugins, CheckFurther(o), choices).Complete?
    decreases |o.scheduled|
  {
    choices := [];
    if o.scheduled != [] {
      var c := Decide(false, false, false);
      var s := Step(plugins, Waiting(o), c);
      if s.AtPlugin? {
        var t := Step(plugins, s, Work(true));
        choices := CompletingRun(plugins, t.o);
        FirstStep(plugins, t, Collect, choices);
        FirstStep(plugins, s, Work(true), [Collect] + choices);
        choices := [Work(true)] + ([Collect] + choices);
      } else if s.AtCollector? {
        choices := CompletingRun(plugins, s.o);
        FirstStep(plugins, s, Collect, choices);
        choices := [Collect] + choices;
      } else {
        choices := CompletingRun(plugins, s.o);
      }
      FirstStep(plugins, Waiting(o), c, choices);
      choices := [c] + choices;
    }
  }

  ghost predicate NeverTwice(plugins: Plugins, o: FileObject) {
    forall choices :: Possible(plugins, CheckFurther(o), choices) ==> NoDup(Leavers(After(plugins, CheckFurther(o), choices).o.history))
  }

  /** So no plugin leaves twice in any run, and none is started twice, exactly if none is listed twice. */
  lemma NeverTwiceIff(plugins: Plugins, o: FileObject)
    requires o.history == [] && o.exception == None
    ensures NeverTwice(plugins, o) <==> NoDup(o.scheduled)
  {
    if NoDup(o.scheduled) {
      forall choices | Possible(plugins, CheckFurther(o), choices)
        ensures NoDup(Leavers(After(plugins, CheckFurther(o), choices).o.history))
      {
        EveryPluginLeavesOnce(plugins, o, choices);
      }
    } else {
      var choices := CompletingRun(plugins, o);
      EveryPluginLeavesOnce(plugins, o, choices);
      NoDupCounts(o.scheduled);
      NoDupCounts(Leavers(After(plugins, CheckFurther(o), choices).o.history));
    }
  }
}

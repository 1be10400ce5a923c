/**
 The scheduler as it runs: queues that are filled and emptied in place (src/scheduler/analysis.py,
 src/analysis/PluginBase.py). Each method is one station; what it must do to an object is the
 station's function of module `AnalysisRun`, on which the run theorems rest.
 */
module Scheduler {
  import opened Basics
  import opened TaskScheduler
  import opened AnalysisRun
  import opened Status
  import opened Pipeline

  datatype Queues = Queues(process: seq<FileObject>, incoming: map<Plugin, seq<FileObject>>, outgoing: map<Plugin, seq<FileObject>>)

  function Appended(queues: map<Plugin, seq<FileObject>>, p: Plugin, o: FileObject): map<Plugin, seq<FileObject>> {
    queues[p := (if p in queues then queues[p] else []) + [o]]
  }

  /** Where an object is put to be in a stage; one that is complete, or lost to a key error, is put nowhere. */
  function Put(q: Queues, s: Stage): Queues {
    match s
    case Waiting(o) => q.(process := q.process + [o])
    case AtPlugin(o, p) => q.(incoming := Appended(q.incoming, p, o))
    case AtCollector(o, p) => q.(outgoing := Appended(q.outgoing, p, o))
    case _ => q
  }

  /** A complete object is struck off the status table. */
  function TableAfter(t: Table, s: Stage): Table {
    if s.Complete? then RemoveFrom(t, ReportOf(s.o)) else t
  }

  /** What becomes of `o` when the plugins in `todo` have been looked at after those in `kept` stayed. */
  ghost function DropFrom(plugins: Plugins, failed: Plugin, o: FileObject, kept: seq<Plugin>, todo: seq<Plugin>): FileObject
    decreases |todo|
  {
    if todo == [] then o.(scheduled := kept)
    else if failed in Deps(plugins, todo[0]) then
      DropFrom(plugins, failed,
               o.(scheduled := kept + todo[1..], processed := o.processed[todo[0] := Failed],
                  history := o.history + [Left(todo[0], Unscheduled)]),
               kept, todo[1..])
    else DropFrom(plugins, failed, o, kept + [todo[0]], todo[1..])
  }

  /** The object after the plugins in `dropped` were unscheduled, with the list that is left. */
  ghost function Dropped(o: FileObject, left: seq<Plugin>, dropped: seq<Plugin>): FileObject {
    o.(scheduled := left, processed := o.processed + AllFailed(dropped), history := o.history + Unscheduling(dropped))
  }

  lemma DroppedNone(o: FileObject, left: seq<Plugin>)
    ensures Dropped(o, left, []) == o.(scheduled := left)
  {
    assert o.processed + AllFailed([]) == o.processed;
    assert o.history + Unscheduling([]) == o.history;
  }

  lemma FailedMore(processed: map<Plugin, Outcome>, p: Plugin, more: seq<Plugin>)
    ensures processed[p := Failed] + AllFailed(more) == processed + AllFailed([p] + more)
  {
    assert forall q :: q in [p] + more <==> q == p || q in more;
  }

  lemma UnschedulingMore(h: seq<Event>, p: Plugin, more: seq<Plugin>)
    ensures (h + [Left(p, Unscheduled)]) + Unscheduling(more) == h + Unscheduling([p] + more)
  {
    assert [Left(p, Unscheduled)] + Unscheduling(more) == Unscheduling([p] + more);
  }

  lemma DroppedMore(o: FileObject, list: seq<Plugin>, left: seq<Plugin>, p: Plugin, more: seq<Plugin>)
    ensures var o' := o.(scheduled := list, processed := o.processed[p := Failed], history := o.history + [Left(p, Unscheduled)]);
            Dropped(o', left, more) == Dropped(o, left, [p] + more)
  {
    FailedMore(o.processed, p, more);
    UnschedulingMore(o.history, p, more);
  }

  lemma {:induction false} DropsDependents(plugins: Plugins, failed: Plugin, o: FileObject, kept: seq<Plugin>, todo: seq<Plugin>)
    ensures DropFrom(plugins, failed, o, kept, todo)
         == Dropped(o, kept + Without(plugins, todo, failed), Dependents(plugins, todo, failed))
    decreases |todo|
  {
    var w := Without(plugins, todo, failed);
    if todo == [] {
      DroppedNone(o, kept);
      assert kept + w == kept;
    } else if failed in Deps(plugins, todo[0]) {
      DropsDependents(plugins, failed,
                      o.(scheduled := kept + todo[1..], processed := o.processed[todo[0] := Failed],
                         history := o.history + [Left(todo[0], Unscheduled)]), kept, todo[1..]);
      DroppedMore(o, kept + todo[1..], kept + w, todo[0], Dependents(plugins, todo[1..], failed));
    } else {
      DropsDependents(plugins, failed, o, kept + [todo[0]], todo[1..]);
      assert (kept + [todo[0]]) + Without(plugins, todo[1..], failed) == kept + w;
    }
  }

  class AnalysisScheduler {
    const plugins: Plugins
    const status: AnalysisStatus
    var processQueue: seq<FileObject>
    var inQueues: map<Plugin, seq<FileObject>>
    var outQueues: map<Plugin, seq<FileObject>>

    ghost predicate Valid()
      reads this, status
    {
      status.Valid() && inQueues.Keys == outQueues.Keys == plugins.Keys
    }

    ghost function View(): Queues
      reads this
    {
      Queues(processQueue, inQueues, outQueues)
    }

    constructor (plugins: Plugins)
      ensures Valid() && fresh(status) && this.plugins == plugins
      ensures processQueue == [] && forall p :: p in plugins ==> inQueues[p] == outQueues[p] == []
    {
      this.plugins := plugins;
      status := new AnalysisStatus();
      processQueue := [];
      inQueues := map p | p in plugins :: [];
      outQueues := map p | p in plugins :: [];
    }

    method CheckFurtherProcessOrComplete(fo: FileObject)
      requires Valid()
      modifies this, status
      ensures Valid()
      ensures View() == Put(old(View()), CheckFurther(fo))
      ensures status.View() == TableAfter(old(status.View()), CheckFurther(fo))
    {
      if fo.scheduled == [] {
        status.RemoveFromCurrentAnalyses(ReportOf(fo));
      } else {
        processQueue := processQueue + [fo];
      }
    }

    /** `add_job` of a loaded plugin. */
    method AddJob(p: Plugin, fo: FileObject)
      requires Valid() && p in plugins
      modifies this
      ensures Valid() && View() == Put(old(View()), AnalysisRun.AddJob(plugins, p, fo))
    {
      if Deps(plugins, p) <= fo.processed.Keys {
        if plugins[p].recursive || fo.depth == 0 {
          inQueues := inQueues[p := inQueues[p] + [fo]];
          return;
        }
      }
      outQueues := outQueues[p := outQueues[p] + [fo]];
    }

    /** A key error means that the process dies and the object is lost. */
    method StartOrSkipAnalysis(p: Plugin, fo: FileObject, c: Choice) returns (keyError: bool)
      requires Valid() && p in plugins && c.Decide?
      modifies this, status
      ensures Valid() && keyError == StartOrSkip(plugins, p, fo, c).Crashed?
      ensures View() == Put(old(View()), StartOrSkip(plugins, p, fo, c))
      ensures status.View() == TableAfter(old(status.View()), StartOrSkip(plugins, p, fo, c))
    {
      var o := fo;
      keyError := false;
      if c.upToDate {
        if !AllLoaded(plugins, o.scheduled) {
          return true;
        }
        if p in RemainingDependencies(plugins, ToSet(o.scheduled)) {
          o := o.(processed := o.processed[p := FromDb]);
        }
        CheckFurtherProcessOrComplete(Log(o, Left(p, UpToDate)));
        return;
      }
      if p !in MANDATORY_PLUGINS && c.mimeRestricted {
        if FILE_TYPE !in o.processed {
          o := o.(processed := o.processed[FILE_TYPE := FromDb]);
        }
        if c.blacklisted {
          o := o.(processed := o.processed[p := Skipped]);
          CheckFurtherProcessOrComplete(Log(o, Left(p, Blacklisted)));
          return;
        }
      }
      AddJob(p, Log(o, Left(p, Started)));
    }

    /**
     The task runner takes the next object. If the database cannot take it the object is given up;
     otherwise its next plugin is popped and skipped or started.
     */
    method ProcessNextAnalysisTask(dbTakesIt: bool, c: Choice) returns (keyError: bool)
      requires Valid() && c.Decide?
      requires processQueue != [] && processQueue[0].scheduled != []
      modifies this, status
      ensures Valid() && keyError == (dbTakesIt && Next(plugins, old(processQueue[0]), c).Crashed?)
      ensures var fo := old(processQueue[0]); var rest := old(View()).(process := old(processQueue)[1..]);
              && View() == (if dbTakesIt then Put(rest, Next(plugins, fo, c)) else rest)
              && status.View() == (if dbTakesIt then TableAfter(old(status.View()), Next(plugins, fo, c))
                                   else RemoveFrom(old(status.View()), ReportOf(fo)))
    {
      var fo := processQueue[0];
      processQueue := processQueue[1..];
      keyError := false;
      if !dbTakesIt {
        status.RemoveFromCurrentAnalyses(ReportOf(fo));
        return;
      }
      var last := |fo.scheduled| - 1;
      var p := fo.scheduled[last];
      fo := fo.(scheduled := fo.scheduled[..last]);
      if p !in plugins {
        CheckFurtherProcessOrComplete(Log(fo, Left(p, NotAvailable)));
      } else {
        keyError := StartOrSkipAnalysis(p, fo, c);
      }
    }

    /** A plugin worker takes the next object and hands it over with a result or an exception. */
    method WorkOnNext(p: Plugin, success: bool)
      requires Valid() && p in plugins && inQueues[p] != []
      modifies this
      ensures Valid() && status.View() == old(status.View())
      ensures var fo := old(inQueues[p][0]);
              View() == Put(old(View()).(incoming := old(inQueues)[p := old(inQueues[p])[1..]]),
                            AtCollector(Worker(p, fo, success), p))
    {
      var fo := inQueues[p][0];
      inQueues := inQueues[p := inQueues[p][1..]];
      fo := fo.(processed := fo.processed[p := Finished]);
      if !success {
        fo := fo.(exception := Some(p));
      }
      outQueues := outQueues[p := outQueues[p] + [fo]];
    }

    /** The loop that unschedules the direct dependents of a failed plugin; a listed plugin that is not loaded is a key error. */
    method RescheduleFailedAnalysisTask(fo: FileObject) returns (result: Option<FileObject>)
      requires fo.exception.Some?
      ensures result == if AllLoaded(plugins, fo.scheduled) then Some(Rescheduled(plugins, fo)) else None
    {
      var failed := fo.exception.value;
      var r := fo.(processed := fo.processed[failed := Failed], history := fo.history + [Failure(failed)]);
      var todo := fo.scheduled;
      ghost var kept: seq<Plugin>, goal := [], DropFrom(plugins, failed, r, [], todo);
      DropsDependents(plugins, failed, r, [], todo);
      while todo != []
        invariant r.scheduled == kept + todo && forall x :: x in kept ==> failed !in Deps(plugins, x)
        invariant DropFrom(plugins, failed, r, kept, todo) == goal
        invariant AllLoaded(plugins, todo) <==> AllLoaded(plugins, fo.scheduled)
        decreases |todo|
      {
        assert forall p :: p in todo <==> p == todo[0] || p in todo[1..];
        if todo[0] !in plugins {
          return None;
        }
        assert kept + todo == (kept + [todo[0]]) + todo[1..];
        if failed in Deps(plugins, todo[0]) {
          RemoveBetween(kept, todo);
          r := r.(scheduled := RemoveFirst(r.scheduled, todo[0]));
          r := r.(processed := r.processed[todo[0] := Failed], history := r.history + [Left(todo[0], Unscheduled)]);
        } else {
          kept := kept + [todo[0]];
        }
        todo := todo[1..];
      }
      assert kept + [] == kept;
      r := r.(exception := None);
      assert r == Rescheduled(plugins, fo);
      result := Some(r);
    }

    lemma {:induction false} RemoveBetween(kept: seq<Plugin>, todo: seq<Plugin>)
      requires todo != [] && todo[0] !in kept
      ensures todo[0] in kept + todo
      ensures RemoveFirst(kept + todo, todo[0]) == kept + todo[1..]
    {
      assert (kept + todo)[|kept|] == todo[0];
      if kept == [] {
        assert kept + todo == todo;
      } else {
        assert (kept + todo)[1..] == kept[1..] + todo;
        RemoveBetween(kept[1..], todo);
        assert kept + todo[1..] == [kept[0]] + (kept[1..] + todo[1..]);
      }
    }

    /** The collector takes an object from the out-queue of a plugin. */
    method CollectFrom(p: Plugin) returns (keyError: bool)
      requires Valid() && p in plugins && outQueues[p] != []
      modifies this, status
      ensures Valid() && keyError == Collected(plugins, p, old(outQueues[p][0])).Crashed?
      ensures var fo := old(outQueues[p][0]);
              && View() == Put(old(View()).(outgoing := old(outQueues)[p := old(outQueues[p])[1..]]), Collected(plugins, p, fo))
              && status.View() == TableAfter(old(status.View()), Collected(plugins, p, fo))
    {
      var fo := outQueues[p][0];
      outQueues := outQueues[p := outQueues[p][1..]];
      if p in fo.processed && fo.exception.Some? {
        var rescheduled := RescheduleFailedAnalysisTask(fo);
        if rescheduled.None? {
          return true;
        }
        fo := rescheduled.value;
      }
      keyError := false;
      CheckFurtherProcessOrComplete(fo);
    }

    /**
     The entry point for freshly unpacked objects: register, schedule, release. A request that leads
     to a plugin that is not loaded raises a key error after the object was registered.
     */
    method StartAnalysisOfObject(fo: FileObject) returns (keyError: bool)
      requires Valid()
      requires fo.isFirmware ==> fo.uid !in fo.included
      modifies this, status
      ensures Valid()
      ensures !keyError ==> exists plan ::
        && IsPlanFor(plugins, fo.scheduled, plan)
        && View() == Put(old(View()), CheckFurther(fo.(scheduled := plan)))
        && status.View() == TableAfter(AddTo(old(status.View()), ReportOf(fo)), CheckFurther(fo.(scheduled := plan)))
      ensures keyError <==> !(Loaded(plugins, fo.scheduled) && ToSet(MANDATORY_PLUGINS) <= plugins.Keys)
      ensures keyError ==> View() == old(View()) && status.View() == AddTo(old(status.View()), ReportOf(fo))
    {
      status.AddToCurrentAnalyses(ReportOf(fo));
      var plan := ScheduleAnalysisTasks(plugins, fo.scheduled, true);
      if plan.None? {
        return true;
      }
      keyError := false;
      assert IsPlanFor(plugins, fo.scheduled, plan.value);
      CheckFurtherProcessOrComplete(fo.(scheduled := plan.value));
    }

    /** The entry point for a single file without context: the status table is not told. */
    method UpdateAnalysisOfSingleObject(fo: FileObject) returns (keyError: bool)
      requires Valid()
      modifies this, status
      ensures Valid()
      ensures !keyError ==> exists closure, plan ::
        && IsClosure(plugins, ToSet(fo.scheduled), closure) && IsPlan(plugins, closure, plan)
        && View() == Put(old(View()), CheckFurther(fo.(scheduled := plan)))
        && status.View() == TableAfter(old(status.View()), CheckFurther(fo.(scheduled := plan)))
      ensures keyError <==> !Loaded(plugins, fo.scheduled)
      ensures keyError ==> View() == old(View()) && status.View() == old(status.View())
    {
      var plan := ScheduleAnalysisTasks(plugins, fo.scheduled, false);
      if plan.None? {
        return true;
      }
      keyError := false;
      ghost var closure :| IsClosure(plugins, ToSet(fo.scheduled), closure) && IsPlan(plugins, closure + {}, plan.value);
      assert closure + {} == closure;
      CheckFurtherProcessOrComplete(fo.(scheduled := plan.value));
    }
  }

  /**
   Over all runs that `UpdateAnalysisOfSingleObject` starts, dependencies are met exactly if nothing
   that `file_type` needs is missing, and every dependency has a stored result or runs at the depth of
   the file.
   */
  lemma SingleObjectDependenciesMetIff(plugins: Plugins, fo: FileObject, closure: set<Plugin>, plan: seq<Plugin>)
    requires IsClosure(plugins, ToSet(fo.scheduled), closure) && IsPlan(plugins, closure, plan) && fo.exception == None
    ensures AlwaysMet(plugins, fo.(scheduled := plan))
       <==> (FILE_TYPE !in plan || Deps(plugins, FILE_TYPE) <= fo.processed.Keys)
            && DependenciesRun(plugins, fo.depth, plan, fo.processed.Keys)
  {
    PlannedDependenciesMetIff(plugins, closure, fo.(scheduled := plan));
  }

  /** The same for the runs that `StartAnalysisOfObject` starts. */
  lemma StartedDependenciesMetIff(plugins: Plugins, fo: FileObject, plan: seq<Plugin>)
    requires IsPlanFor(plugins, fo.scheduled, plan) && ToSet(MANDATORY_PLUGINS) <= plugins.Keys && fo.exception == None
    ensures AlwaysMet(plugins, fo.(scheduled := plan))
       <==> (FILE_TYPE !in plan || Deps(plugins, FILE_TYPE) <= fo.processed.Keys)
            && DependenciesRun(plugins, fo.depth, plan, fo.processed.Keys)
  {
    var closure :| IsClosure(plugins, ToSet(fo.scheduled), closure)
      && IsPlan(plugins, closure + ToSet(MANDATORY_PLUGINS), plan);
    PlannedDependenciesMetIff(plugins, closure + ToSet(MANDATORY_PLUGINS), fo.(scheduled := plan));
  }
}

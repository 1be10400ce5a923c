/**
 The way of one file object through its analyses (src/scheduler/analysis.py, src/analysis/PluginBase.py).

 An object is pickled whenever it is put into a queue, so each station works on its own copy: a
 file object is a value here, and a station is a function from one stage of its way to the next.
 Whatever the stations learn from outside (database, configuration, the worker process) is a choice.
 */
module AnalysisRun {
  import opened Basics
  import opened TaskScheduler

  /** What `processed_analysis` holds for a plugin. */
  datatype Outcome = Finished | FromDb | Skipped | Failed

  /** How a plugin left the list of scheduled plugins. */
  datatype How = UpToDate | Blacklisted | Started | Unscheduled | NotAvailable

  datatype Event = Left(plugin: Plugin, how: How) | Failure(plugin: Plugin)

  /**
   The fields of a file object the pipeline reads and writes. `history` is not in the source: it
   records what happened to each plugin and is never read.
   */
  datatype FileObject = FileObject(
    uid: Uid,
    root: Uid,
    isFirmware: bool,
    depth: nat,
    included: set<Uid>,
    scheduled: seq<Plugin>,
    processed: map<Plugin, Outcome>,
    exception: Option<Plugin>,
    history: seq<Event>)

  /** `Waiting` in the process queue, at a plugin, in its out-queue, done, or lost to a key error. */
  datatype Stage =
    | Waiting(o: FileObject)
    | AtPlugin(o: FileObject, p: Plugin)
    | AtCollector(o: FileObject, p: Plugin)
    | Complete(o: FileObject)
    | Crashed(o: FileObject)

  datatype Choice =
    | Decide(upToDate: bool, mimeRestricted: bool, blacklisted: bool)
    | Work(success: bool)
    | Collect

  function Log(o: FileObject, e: Event): FileObject {
    o.(history := o.history + [e])
  }

  // ----- The stations -----

  function CheckFurther(o: FileObject): Stage {
    if o.scheduled == [] then Complete(o) else Waiting(o)
  }

  /** `_process_next_analysis_task` after the database has taken the object. */
  function Next(plugins: Plugins, o: FileObject, c: Choice): Stage
    requires o.scheduled != [] && c.Decide?
  {
    var p := o.scheduled[|o.scheduled| - 1];
    var popped := o.(scheduled := o.scheduled[..|o.scheduled| - 1]);
    if p !in plugins then CheckFurther(Log(popped, Left(p, NotAvailable)))
    else StartOrSkip(plugins, p, popped, c)
  }

  /** Otherwise looking up the dependencies of a listed plugin raises a key error. */
  predicate AllLoaded(plugins: Plugins, list: seq<Plugin>) {
    forall p :: p in list ==> p in plugins
  }

  function StartOrSkip(plugins: Plugins, p: Plugin, o: FileObject, c: Choice): Stage
    requires c.Decide?
  {
    if c.upToDate && !AllLoaded(plugins, o.scheduled) then Crashed(Log(o, Left(p, UpToDate)))
    else if c.upToDate then
      var kept := if p in RemainingDependencies(plugins, ToSet(o.scheduled)) then o.(processed := o.processed[p := FromDb]) else o;
      CheckFurther(Log(kept, Left(p, UpToDate)))
    else if p !in MANDATORY_PLUGINS && c.mimeRestricted then
      var typed := if FILE_TYPE in o.processed then o else o.(processed := o.processed[FILE_TYPE := FromDb]);
      if c.blacklisted then CheckFurther(Log(typed.(processed := typed.processed[p := Skipped]), Left(p, Blacklisted)))
      else AddJob(plugins, p, Log(typed, Left(p, Started)))
    else AddJob(plugins, p, Log(o, Left(p, Started)))
  }

  function AddJob(plugins: Plugins, p: Plugin, o: FileObject): Stage {
    if Deps(plugins, p) <= o.processed.Keys && RunsAt(plugins, o.depth, p)
    then AtPlugin(o, p) else AtCollector(o, p)
  }

  function Worker(p: Plugin, o: FileObject, success: bool): FileObject {
    o.(processed := o.processed[p := Finished], exception := if success then o.exception else Some(p))
  }

  function Collected(plugins: Plugins, p: Plugin, o: FileObject): Stage {
    if !(p in o.processed && o.exception.Some?) then CheckFurther(o)
    else if AllLoaded(plugins, o.scheduled) then CheckFurther(Rescheduled(plugins, o))
    else Crashed(o)
  }

  function Without(plugins: Plugins, plan: seq<Plugin>, failed: Plugin): seq<Plugin> {
    if plan == [] then []
    else if failed in Deps(plugins, plan[0]) then Without(plugins, plan[1..], failed)
    else [plan[0]] + Without(plugins, plan[1..], failed)
  }

  function Dependents(plugins: Plugins, plan: seq<Plugin>, failed: Plugin): seq<Plugin> {
    if plan == [] then []
    else if failed in Deps(plugins, plan[0]) then [plan[0]] + Dependents(plugins, plan[1..], failed)
    else Dependents(plugins, plan[1..], failed)
  }

  function AllFailed(ps: seq<Plugin>): map<Plugin, Outcome> {
    map p | p in ps :: Failed
  }

  function Unscheduling(ps: seq<Plugin>): seq<Event> {
    seq(|ps|, i requires 0 <= i < |ps| => Left(ps[i], Unscheduled))
  }

  /** `reschedule_failed_analysis_task`: the failed plugin and its direct dependents get failed results. */
  function Rescheduled(plugins: Plugins, o: FileObject): FileObject
    requires o.exception.Some?
  {
    var failed := o.exception.value;
    var dropped := Dependents(plugins, o.scheduled, failed);
    o.(scheduled := Without(plugins, o.scheduled, failed),
       processed := o.processed[failed := Failed] + AllFailed(dropped),
       exception := None,
       history := o.history + [Failure(failed)] + Unscheduling(dropped))
  }

  // ----- Runs -----

  predicate Enabled(s: Stage, c: Choice) {
    match s
    case Waiting(o) => o.scheduled != [] && c.Decide?
    case AtPlugin(_, _) => c.Work?
    case AtCollector(_, _) => c.Collect?
    case _ => false
  }

  function Step(plugins: Plugins, s: Stage, c: Choice): Stage
    requires Enabled(s, c)
  {
    match s
    case Waiting(o) => Next(plugins, o, c)
    case AtPlugin(o, p) => AtCollector(Worker(p, o, c.success), p)
    case AtCollector(o, p) => Collected(plugins, p, o)
  }

  /** `choices` can be taken one after the other from `s`. */
  predicate Possible(plugins: Plugins, s: Stage, choices: seq<Choice>)
    decreases |choices|
  {
    choices == [] || (Enabled(s, choices[0]) && Possible(plugins, Step(plugins, s, choices[0]), choices[1..]))
  }

  function After(plugins: Plugins, s: Stage, choices: seq<Choice>): Stage
    requires Possible(plugins, s, choices)
    decreases |choices|
  {
    if choices == [] then s else After(plugins, Step(plugins, s, choices[0]), choices[1..])
  }

  /** A run can be taken in two parts. */
  lemma {:induction false} AfterConcat(plugins: Plugins, s: Stage, a: seq<Choice>, b: seq<Choice>)
    ensures Possible(plugins, s, a + b) <==> Possible(plugins, s, a) && Possible(plugins, After(plugins, s, a), b)
    ensures Possible(plugins, s, a + b) ==> After(plugins, s, a + b) == After(plugins, After(plugins, s, a), b)
    decreases |a|
  {
    if a == [] {
      assert a + b == b;
    } else {
      ConcatTail(a, b);
      if Enabled(s, a[0]) {
        AfterConcat(plugins, Step(plugins, s, a[0]), a[1..], b);
      }
    }
  }

  // ----- Dependencies are met -----

  /** The object was handed to plugin `p` although a dependency of `p` has no result. */
  ghost predicate Unmet(plugins: Plugins, s: Stage) {
    (s.AtPlugin? || s.AtCollector?) && !(Deps(plugins, s.p) <= s.o.processed.Keys)
  }

  /** A plugin that runs on every extraction depth, or an object of depth 0. */
  predicate RunsAt(plugins: Plugins, depth: nat, p: Plugin) {
    (p in plugins && plugins[p].recursive) || depth == 0
  }

  /** Every dependency of a plugin in `plan` has a result in `have`, or runs on this depth. */
  ghost predicate DependenciesRun(plugins: Plugins, depth: nat, plan: seq<Plugin>, have: set<Plugin>) {
    forall p, d :: p in plan && d in Deps(plugins, p) ==> d in have || RunsAt(plugins, depth, d)
  }

  /** A plugin that is not loaded stands in front of the last `d`. */
  predicate UnknownBefore(plugins: Plugins, d: Plugin, list: seq<Plugin>) {
    list != [] && ((list[0] !in plugins && d in list[1..]) || UnknownBefore(plugins, d, list[1..]))
  }

  lemma {:induction false} UnknownSnoc(plugins: Plugins, d: Plugin, list: seq<Plugin>, p: Plugin)
    ensures UnknownBefore(plugins, d, list) ==> UnknownBefore(plugins, d, list + [p])
    ensures p != d && UnknownBefore(plugins, d, list + [p]) ==> UnknownBefore(plugins, d, list)
    ensures AllLoaded(plugins, list) ==> !UnknownBefore(plugins, d, list + [p])
    ensures p == d && !UnknownBefore(plugins, d, list + [p]) ==> AllLoaded(plugins, list)
  {
    if list == [] {
      assert (list + [p])[1..] == [];
    } else {
      ConcatTail(list, [p]);
      UnknownSnoc(plugins, d, list[1..], p);
      assert forall q :: q in list <==> q == list[0] || q in list[1..];
    }
  }

  lemma {:induction false} NoneUnknown(plugins: Plugins, d: Plugin, list: seq<Plugin>)
    requires AllLoaded(plugins, list)
    ensures !UnknownBefore(plugins, d, list)
  {
    if list != [] {
      NoneUnknown(plugins, d, list[1..]);
    }
  }

  /**
   The plugin in front of `rest`, behind `before`, can rely on `d`: it is loaded and popped earlier, and its result
   cannot be passed over. That happens to an up-to-date plugin that stands in the list once more, unless the
   lookup that would show it fails on a plugin that is not loaded.
   */
  predicate Supplies(plugins: Plugins, before: set<Plugin>, d: Plugin, rest: seq<Plugin>) {
    && d in plugins && d in rest
    && (d !in before || !(before <= plugins.Keys) || UnknownBefore(plugins, d, rest))
  }

  /** Every dependency of a loaded plugin in `list` is in `met` or in reach. */
  ghost predicate InReach(plugins: Plugins, before: set<Plugin>, list: seq<Plugin>, met: set<Plugin>)
    decreases |list|
  {
    list == []
    || ((forall d :: d in Deps(plugins, list[0]) ==> d in met || Supplies(plugins, before + {list[0]}, d, list[1..]))
        && InReach(plugins, before + {list[0]}, list[1..], met))
  }

  /** Lists without repetitions, and of loaded plugins only, just have to be in order. */
  lemma {:induction false} ReachIsOrder(plugins: Plugins, before: set<Plugin>, list: seq<Plugin>, met: set<Plugin>)
    requires NoDup(list) && AllLoaded(plugins, list) && before !! ToSet(list)
    ensures InReach(plugins, before, list, met) <==> InOrder(plugins, list, met)
    decreases |list|
  {
    if list != [] {
      SplitHead(list);
      assert list[0] in ToSet(list);
      ReachIsOrder(plugins, before + {list[0]}, list[1..], met);
      assert forall d :: d in list[1..] <==> d in ToSet(list[1..]);
    }
  }

  lemma {:induction false} ReachMore(plugins: Plugins, before: set<Plugin>, list: seq<Plugin>, met: set<Plugin>, more: set<Plugin>)
    requires InReach(plugins, before, list, met) && met <= more
    ensures InReach(plugins, before, list, more)
    decreases |list|
  {
    if list != [] {
      ReachMore(plugins, before + {list[0]}, list[1..], met, more);
    }
  }

  /** What is popped next has its dependencies met; the rest stays in reach once it is done, or if it is not loaded. */
  lemma {:induction false} ReachPop(plugins: Plugins, before: set<Plugin>, rest: seq<Plugin>, p: Plugin, met: set<Plugin>)
    requires InReach(plugins, before, rest + [p], met)
    ensures Deps(plugins, p) <= met && InReach(plugins, before, rest, met + {p})
    ensures p !in plugins ==> InReach(plugins, before, rest, met)
    decreases |rest|
  {
    if rest == [] {
      assert (rest + [p])[1..] == [];
    } else {
      ConcatTail(rest, [p]);
      ReachPop(plugins, before + {rest[0]}, rest[1..], p, met);
      forall d | d in Deps(plugins, rest[0]) && d !in met && d != p
        ensures Supplies(plugins, before + {rest[0]}, d, rest[1..])
      {
        UnknownSnoc(plugins, d, rest[1..], p);
      }
    }
  }

  /** Among loaded plugins, it stays so without a result of one that stands in the list again, or that nothing needs. */
  lemma {:induction false} ReachSkip(plugins: Plugins, before: set<Plugin>, rest: seq<Plugin>, p: Plugin, met: set<Plugin>)
    requires InReach(plugins, before, rest + [p], met) && before <= plugins.Keys && AllLoaded(plugins, rest)
    requires p in before || p in rest || forall q :: q in rest ==> p !in Deps(plugins, q)
    ensures InReach(plugins, before, rest, met)
    decreases |rest|
  {
    if rest != [] {
      ConcatTail(rest, [p]);
      assert forall q :: q in rest <==> q == rest[0] || q in rest[1..];
      ReachSkip(plugins, before + {rest[0]}, rest[1..], p, met);
      forall d | d in Deps(plugins, rest[0]) && d !in met
        ensures Supplies(plugins, before + {rest[0]}, d, rest[1..])
      {
        UnknownSnoc(plugins, d, rest[1..], p);
      }
    }
  }

  lemma {:induction false} ReachDrop(plugins: Plugins, before: set<Plugin>, list: seq<Plugin>, met: set<Plugin>, p: Plugin)
    requires InReach(plugins, before, list, met + {p})
    requires forall q :: q in list ==> p !in Deps(plugins, q)
    ensures InReach(plugins, before, list, met)
    decreases |list|
  {
    if list != [] {
      ReachDrop(plugins, before + {list[0]}, list[1..], met, p);
      assert list[0] in list;
    }
  }

  /** The plugins that stay are in reach given results for the unscheduled ones. */
  lemma {:induction false} ReachWithout(plugins: Plugins, before: set<Plugin>, fewer: set<Plugin>, list: seq<Plugin>,
                                        failed: Plugin, met: set<Plugin>)
    requires InReach(plugins, before, list, met) && fewer <= before <= plugins.Keys && AllLoaded(plugins, list)
    ensures InReach(plugins, fewer, Without(plugins, list, failed), met + ToSet(Dependents(plugins, list, failed)))
    decreases |list|
  {
    if list != [] {
      var x, rest := list[0], list[1..];
      var w, d := Without(plugins, rest, failed), Dependents(plugins, rest, failed);
      WithoutFacts(plugins, rest, failed);
      if failed in Deps(plugins, x) {
        ReachWithout(plugins, before + {x}, fewer, rest, failed, met);
        assert ToSet([x] + d) == {x} + ToSet(d);
        ReachMore(plugins, fewer, w, met + ToSet(d), met + ToSet([x] + d));
      } else {
        ReachWithout(plugins, before + {x}, fewer + {x}, rest, failed, met);
        assert forall q :: q in rest ==> q in w || q in ToSet(d) by {
          assert forall q :: q in rest ==> q in ToSet(w) || q in ToSet(d);
        }
        assert ([x] + w)[1..] == w;
        forall e | e in Deps(plugins, x) && e !in met
          ensures e in ToSet(d) || Supplies(plugins, fewer + {x}, e, w)
        {
          NoneUnknown(plugins, e, rest);
        }
      }
    }
  }

  /** The list is in reach, given the results so far and the plugin the object is at. */
  ghost predicate Sound(plugins: Plugins, s: Stage) {
    s.Crashed? || IsSound(plugins, s)
  }

  ghost predicate IsSound(plugins: Plugins, s: Stage) {
    var o := s.o;
    && DependenciesRun(plugins, o.depth, o.scheduled, o.processed.Keys)
    && (s.Waiting? ==> o.scheduled != [])
    && (s.Waiting? || s.AtPlugin? || s.Complete? ==> o.exception == None)
    && (s.Waiting? || s.Complete? ==> InReach(plugins, {}, o.scheduled, o.processed.Keys))
    && (s.AtPlugin? || s.AtCollector? ==>
          InReach(plugins, {}, o.scheduled, o.processed.Keys + {s.p}) && !Unmet(plugins, s))
    && (s.AtPlugin? ==> RunsAt(plugins, o.depth, s.p))
    && (s.AtCollector? ==>
          && (o.exception == None || (o.exception == Some(s.p) && s.p in o.processed))
          && (s.p in o.processed || !RunsAt(plugins, o.depth, s.p)))
  }

  /** The list splits into the plugins that keep their place and those that depend on the failed one. */
  lemma {:induction false} WithoutFacts(plugins: Plugins, plan: seq<Plugin>, failed: Plugin)
    ensures ToSet(Without(plugins, plan, failed)) == set p | p in plan && failed !in Deps(plugins, p)
    ensures ToSet(Dependents(plugins, plan, failed)) == set p | p in plan && failed in Deps(plugins, p)
    ensures NoDup(plan) ==> NoDup(Without(plugins, plan, failed))
  {
    if plan != [] {
      var x, rest := plan[0], plan[1..];
      WithoutFacts(plugins, rest, failed);
      assert plan == [x] + rest;
      var w, d := Without(plugins, rest, failed), Dependents(plugins, rest, failed);
      assert forall p :: p in plan <==> p == x || p in rest;
      if failed in Deps(plugins, x) {
        assert ToSet([x] + d) == {x} + ToSet(d);
      } else {
        assert ToSet([x] + w) == {x} + ToSet(w);
        if NoDup(plan) {
          SplitHead(plan);
          assert x !in ToSet(w);
          NoDupConcat([x], w);
        }
      }
    }
  }

  lemma {:induction false} WithoutKeepsCount(plugins: Plugins, plan: seq<Plugin>, failed: Plugin)
    ensures multiset(plan) == multiset(Without(plugins, plan, failed)) + multiset(Dependents(plugins, plan, failed))
  {
    if plan != [] {
      WithoutKeepsCount(plugins, plan[1..], failed);
      assert plan == [plan[0]] + plan[1..];
    }
  }

  /** A waiting or completed object is sound if its list is. */
  lemma CheckFurtherSound(plugins: Plugins, o: FileObject)
    requires DependenciesRun(plugins, o.depth, o.scheduled, o.processed.Keys) && o.exception == None
    requires InReach(plugins, {}, o.scheduled, o.processed.Keys)
    ensures Sound(plugins, CheckFurther(o))
  {
  }

  /** An up-to-date plugin was popped; its result is fetched if a plugin that is still scheduled depends on it. */
  lemma SkipSound(plugins: Plugins, o: FileObject, p: Plugin, c: Choice)
    requires Popped(plugins, o, p) && c.Decide? && c.upToDate
    requires InReach(plugins, {}, o.scheduled + [p], o.processed.Keys)
    ensures Sound(plugins, StartOrSkip(plugins, p, o, c))
  {
    if !AllLoaded(plugins, o.scheduled) {
    } else if p in RemainingDependencies(plugins, ToSet(o.scheduled)) {
      assert o.processed[p := FromDb].Keys == o.processed.Keys + {p};
    } else {
      forall q | q in o.scheduled
        ensures p in o.scheduled || p !in Deps(plugins, q)
      {
        assert q in ToSet(o.scheduled);
      }
      ReachSkip(plugins, {}, o.scheduled, p, o.processed.Keys);
    }
  }

  /** A plugin was popped from a sound list and all its dependencies have results. */
  ghost predicate Popped(plugins: Plugins, o: FileObject, p: Plugin) {
    && DependenciesRun(plugins, o.depth, o.scheduled, o.processed.Keys) && o.exception == None
    && InReach(plugins, {}, o.scheduled, o.processed.Keys + {p}) && Deps(plugins, p) <= o.processed.Keys
  }

  lemma AddJobSound(plugins: Plugins, o: FileObject, p: Plugin)
    requires Popped(plugins, o, p)
    ensures Sound(plugins, AddJob(plugins, p, Log(o, Left(p, Started))))
  {
  }

  lemma StartSound(plugins: Plugins, o: FileObject, p: Plugin, c: Choice)
    requires Popped(plugins, o, p) && c.Decide? && !c.upToDate
    ensures Sound(plugins, StartOrSkip(plugins, p, o, c))
  {
    AddJobSound(plugins, o, p);
    if p !in MANDATORY_PLUGINS && c.mimeRestricted {
      var typed := if FILE_TYPE in o.processed then o else o.(processed := o.processed[FILE_TYPE := FromDb]);
      ReachMore(plugins, {}, o.scheduled, o.processed.Keys + {p}, typed.processed.Keys + {p});
      if c.blacklisted {
        assert typed.processed[p := Skipped].Keys == typed.processed.Keys + {p};
        CheckFurtherSound(plugins, Log(typed.(processed := typed.processed[p := Skipped]), Left(p, Blacklisted)));
      } else {
        AddJobSound(plugins, typed, p);
      }
    }
  }

  lemma PopSound(plugins: Plugins, o: FileObject, rest: seq<Plugin>, p: Plugin)
    requires Sound(plugins, Waiting(o)) && o.scheduled == rest + [p]
    ensures Popped(plugins, o.(scheduled := rest), p)
  {
    ReachPop(plugins, {}, rest, p, o.processed.Keys);
    assert forall q :: q in rest ==> q in o.scheduled;
  }

  lemma NextSound(plugins: Plugins, o: FileObject, c: Choice)
    requires Sound(plugins, Waiting(o)) && c.Decide?
    ensures Sound(plugins, Next(plugins, o, c))
  {
    var last := |o.scheduled| - 1;
    var p, popped := o.scheduled[last], o.(scheduled := o.scheduled[..last]);
    assert o.scheduled == popped.scheduled + [p];
    PopSound(plugins, o, popped.scheduled, p);
    if p !in plugins {
      ReachPop(plugins, {}, popped.scheduled, p, o.processed.Keys);
      CheckFurtherSound(plugins, Log(popped, Left(p, NotAvailable)));
    } else if c.upToDate {
      SkipSound(plugins, popped, p, c);
    } else {
      StartSound(plugins, popped, p, c);
    }
  }

  lemma WorkerSound(plugins: Plugins, o: FileObject, p: Plugin, success: bool)
    requires Sound(plugins, AtPlugin(o, p))
    ensures Sound(plugins, AtCollector(Worker(p, o, success), p))
  {
    assert o.processed[p := Finished].Keys == o.processed.Keys + {p};
    assert o.processed.Keys + {p} + {p} == o.processed.Keys + {p};
  }

  lemma CollectedSound(plugins: Plugins, o: FileObject, p: Plugin)
    requires Sound(plugins, AtCollector(o, p))
    ensures Sound(plugins, Collected(plugins, p, o))
  {
    if p in o.processed && o.exception.Some? && !AllLoaded(plugins, o.scheduled) {
    } else if p in o.processed && o.exception.Some? {
      var o' := Rescheduled(plugins, o);
      var dropped := Dependents(plugins, o.scheduled, p);
      WithoutFacts(plugins, o.scheduled, p);
      ReachWithout(plugins, {}, {}, o.scheduled, p, o.processed.Keys + {p});
      assert o'.processed.Keys == o.processed.Keys + {p} + ToSet(dropped);
      assert forall q :: q in o'.scheduled <==> q in ToSet(o'.scheduled);
    } else if p in o.processed {
      assert o.processed.Keys + {p} == o.processed.Keys;
    } else {
      ReachDrop(plugins, {}, o.scheduled, o.processed.Keys, p);
    }
  }

  lemma StepSound(plugins: Plugins, s: Stage, c: Choice)
    requires Sound(plugins, s) && Enabled(s, c)
    ensures Sound(plugins, Step(plugins, s, c))
  {
    match s
    case Waiting(o) => NextSound(plugins, o, c);
    case AtPlugin(o, p) => WorkerSound(plugins, o, p, c.success);
    case AtCollector(o, p) => CollectedSound(plugins, o, p);
  }

  lemma {:induction false} RunSound(plugins: Plugins, s: Stage, choices: seq<Choice>)
    requires Sound(plugins, s) && Possible(plugins, s, choices)
    ensures Sound(plugins, After(plugins, s, choices))
    decreases |choices|
  {
    if choices != [] {
      StepSound(plugins, s, choices[0]);
      RunSound(plugins, Step(plugins, s, choices[0]), choices[1..]);
    }
  }

  // ----- Key errors -----

  /** No loaded plugin is popped before one that is not. */
  predicate UnknownLast(plugins: Plugins, list: seq<Plugin>) {
    forall i, j :: 0 <= i < j < |list| && list[j] in plugins ==> list[i] in plugins
  }

  ghost predicate NeverCrashes(plugins: Plugins, o: FileObject) {
    forall choices :: Possible(plugins, CheckFurther(o), choices) ==> !After(plugins, CheckFurther(o), choices).Crashed?
  }

  ghost predicate CannotCrash(plugins: Plugins, s: Stage) {
    match s
    case Waiting(o) => o.scheduled != [] && UnknownLast(plugins, o.scheduled)
    case AtPlugin(o, _) => AllLoaded(plugins, o.scheduled)
    case AtCollector(o, _) => AllLoaded(plugins, o.scheduled)
    case Complete(_) => true
    case Crashed(_) => false
  }

  lemma StepCannotCrash(plugins: Plugins, s: Stage, c: Choice)
    requires CannotCrash(plugins, s) && Enabled(s, c)
    ensures CannotCrash(plugins, Step(plugins, s, c))
  {
    match s
    case Waiting(o) =>
      var last := |o.scheduled| - 1;
      var rest := o.scheduled[..last];
      if o.scheduled[last] in plugins {
        assert AllLoaded(plugins, rest);
      }
    case AtCollector(o, p) =>
      if o.exception.Some? {
        WithoutFacts(plugins, o.scheduled, o.exception.value);
        var w := Without(plugins, o.scheduled, o.exception.value);
        assert forall q :: q in w ==> q in ToSet(w);
        assert AllLoaded(plugins, w) && UnknownLast(plugins, w);
      }
    case AtPlugin(_, _) =>
  }

  lemma {:induction false} RunCannotCrash(plugins: Plugins, s: Stage, choices: seq<Choice>)
    requires CannotCrash(plugins, s) && Possible(plugins, s, choices)
    ensures CannotCrash(plugins, After(plugins, s, choices))
    decreases |choices|
  {
    if choices != [] {
      StepCannotCrash(plugins, s, choices[0]);
      RunCannotCrash(plugins, Step(plugins, s, choices[0]), choices[1..]);
    }
  }

  /** Skipping the first loaded plugin that is popped is a key error if one that is not loaded is still listed. */
  lemma {:induction false} CrashingRun(plugins: Plugins, o: FileObject, i: nat, j: nat) returns (choices: seq<Choice>)
    requires i < j < |o.scheduled| && o.scheduled[i] !in plugins && o.scheduled[j] in plugins
    ensures Possible(plugins, Waiting(o), choices) && After(plugins, Waiting(o), choices).Crashed?
    decreases |o.scheduled|
  {
    var last := |o.scheduled| - 1;
    var c := Decide(true, false, false);
    var s := Step(plugins, Waiting(o), c);
    choices := [];
    if o.scheduled[last] in plugins {
      assert o.scheduled[i] in o.scheduled[..last];
    } else {
      choices := CrashingRun(plugins, s.o, i, j);
    }
    FirstStep(plugins, Waiting(o), c, choices);
    choices := [c] + choices;
  }

  /** An object is safe from key errors in all of its runs exactly if plugins that are not loaded are popped first. */
  lemma NeverCrashesIff(plugins: Plugins, o: FileObject)
    ensures NeverCrashes(plugins, o) <==> UnknownLast(plugins, o.scheduled)
  {
    if UnknownLast(plugins, o.scheduled) {
      forall choices | Possible(plugins, CheckFurther(o), choices)
        ensures !After(plugins, CheckFurther(o), choices).Crashed?
      {
        RunCannotCrash(plugins, CheckFurther(o), choices);
      }
    } else {
      var i, j :| 0 <= i < j < |o.scheduled| && o.scheduled[j] in plugins && o.scheduled[i] !in plugins;
      var choices := CrashingRun(plugins, o, i, j);
      assert CheckFurther(o) == Waiting(o);
    }
  }

  // ----- Dependencies met in all runs -----

  /** No run from `o` ever hands it to a plugin whose dependencies have no results. */
  ghost predicate AlwaysMet(plugins: Plugins, o: FileObject) {
    forall choices :: Possible(plugins, CheckFurther(o), choices) ==> !Unmet(plugins, After(plugins, CheckFurther(o), choices))
  }

  lemma FirstStep(plugins: Plugins, s: Stage, c: Choice, more: seq<Choice>)
    requires Enabled(s, c) && Possible(plugins, Step(plugins, s, c), more)
    ensures Possible(plugins, s, [c] + more)
    ensures After(plugins, s, [c] + more) == After(plugins, Step(plugins, s, c), more)
  {
    assert ([c] + more)[1..] == more;
  }

  /** A dependency that may have no result when a plugin needs it. */
  lemma {:induction false} OutOfReach(plugins: Plugins, before: set<Plugin>, list: seq<Plugin>, met: set<Plugin>)
    returns (k: nat, d: Plugin)
    requires !InReach(plugins, before, list, met)
    ensures k < |list| && d in Deps(plugins, list[k]) && d !in met
    ensures !Supplies(plugins, before + ToSet(list[..k + 1]), d, list[k + 1..])
    decreases |list|
  {
    if x :| x in Deps(plugins, list[0]) && x !in met && !Supplies(plugins, before + {list[0]}, x, list[1..]) {
      k, d := 0, x;
      assert list[..1] == [list[0]] && ToSet([list[0]]) == {list[0]};
    } else {
      k, d := OutOfReach(plugins, before + {list[0]}, list[1..], met);
      assert list[1..][k + 1..] == list[k + 2..];
      assert list[..k + 2] == [list[0]] + list[1..][..k + 1];
      assert before + {list[0]} + ToSet(list[1..][..k + 1]) == before + ToSet(list[..k + 2]);
      k := k + 1;
    }
  }

  /** Plugin number `k` needs `d`, which has no result and need not get one before, or does not run. */
  ghost predicate Lacks(plugins: Plugins, o: FileObject, k: nat, d: Plugin) {
    && k < |o.scheduled| && d in Deps(plugins, o.scheduled[k]) && d !in o.processed
    && (!Supplies(plugins, ToSet(o.scheduled[..k + 1]), d, o.scheduled[k + 1..]) || !RunsAt(plugins, o.depth, d))
  }

  /** `d` is on top, and can be skipped without a result and without a key error. */
  ghost predicate CanPassOver(plugins: Plugins, o: FileObject, k: nat, d: Plugin) {
    && o.scheduled != [] && o.scheduled[|o.scheduled| - 1] == d && k < |o.scheduled| - 1
    && !Supplies(plugins, ToSet(o.scheduled[..k + 1]), d, o.scheduled[k + 1..]) && d in plugins
  }

  /** Skipping `d` and starting all others, with success, ends at a plugin without its dependencies. */
  lemma {:induction false} PlainRun(plugins: Plugins, o: FileObject, k: nat, d: Plugin) returns (choices: seq<Choice>)
    requires o.exception == None && Lacks(plugins, o, k, d)
    ensures Possible(plugins, Waiting(o), choices) && Unmet(plugins, After(plugins, Waiting(o), choices))
    decreases |o.scheduled|
  {
    var last := |o.scheduled| - 1;
    var p := o.scheduled[last];
    var c := Decide(CanPassOver(plugins, o, k, d), false, false);
    var s1 := Step(plugins, Waiting(o), c);
    choices := [];
    if p !in plugins || c.upToDate {
      PlainSkip(plugins, o, k, d, c);
      choices := PlainRun(plugins, s1.o, k, d);
    } else if !Unmet(plugins, s1) {
      PlainStep(plugins, o, k, d, c);
      if s1.AtPlugin? {
        var s2 := Step(plugins, s1, Work(true));
        choices := PlainRun(plugins, Step(plugins, s2, Collect).o, k, d);
        FirstStep(plugins, s2, Collect, choices);
        FirstStep(plugins, s1, Work(true), [Collect] + choices);
        choices := [Work(true)] + ([Collect] + choices);
      } else {
        choices := PlainRun(plugins, Step(plugins, s1, Collect).o, k, d);
        FirstStep(plugins, s1, Collect, choices);
        choices := [Collect] + choices;
      }
    }
    FirstStep(plugins, Waiting(o), c, choices);
    choices := [c] + choices;
  }

  /** What does not supply `d` does not do so without its last plugin. */
  lemma SuppliesLess(plugins: Plugins, list: seq<Plugin>, k: nat, d: Plugin)
    requires k + 1 < |list| && !Supplies(plugins, ToSet(list[..k + 1]), d, list[k + 1..])
    ensures var shorter := list[..|list| - 1];
            !Supplies(plugins, ToSet(shorter[..k + 1]), d, shorter[k + 1..])
    ensures d in plugins && list[|list| - 1] == d ==> AllLoaded(plugins, list[..|list| - 1]) && d in list[..k + 1]
  {
    var shorter, p := list[..|list| - 1], list[|list| - 1];
    assert shorter[..k + 1] == list[..k + 1];
    assert list[k + 1..] == shorter[k + 1..] + [p];
    UnknownSnoc(plugins, d, shorter[k + 1..], p);
    if d in plugins && p == d {
      forall q | q in shorter
        ensures q in plugins
      {
        assert shorter == shorter[..k + 1] + shorter[k + 1..];
        assert q in ToSet(shorter[..k + 1]) || q in shorter[k + 1..];
      }
      assert d in ToSet(list[..k + 1]);
    }
  }

  /** Passing over a plugin that is not loaded, or is up to date and stands in the list once more, changes nothing else. */
  lemma PlainSkip(plugins: Plugins, o: FileObject, k: nat, d: Plugin, c: Choice)
    requires o.exception == None && Lacks(plugins, o, k, d) && c.Decide?
    requires o.scheduled[|o.scheduled| - 1] !in plugins || (c.upToDate && CanPassOver(plugins, o, k, d))
    ensures var next := Step(plugins, Waiting(o), c);
            next == Waiting(next.o) && Lacks(plugins, next.o, k, d)
            && next.o.exception == None && |next.o.scheduled| < |o.scheduled|
  {
    var last := |o.scheduled| - 1;
    var rest := o.scheduled[..last];
    assert k < last;
    if !Supplies(plugins, ToSet(o.scheduled[..k + 1]), d, o.scheduled[k + 1..]) {
      SuppliesLess(plugins, o.scheduled, k, d);
    }
    if o.scheduled[last] in plugins {
      assert rest[..k + 1] == o.scheduled[..k + 1];
      assert d in rest && d in ToSet(rest);
    }
  }

  /** Unless it meets a plugin without its dependencies, one such start leaves everything else as it was. */
  lemma PlainStep(plugins: Plugins, o: FileObject, k: nat, d: Plugin, c: Choice)
    requires o.exception == None && Lacks(plugins, o, k, d) && o.scheduled[|o.scheduled| - 1] in plugins
    requires c == Decide(false, false, false) && !Unmet(plugins, Step(plugins, Waiting(o), c))
    requires !CanPassOver(plugins, o, k, d)
    ensures var s1 := Step(plugins, Waiting(o), c);
            var s2 := if s1.AtPlugin? then Step(plugins, s1, Work(true)) else s1;
            (s1.AtPlugin? || s1.AtCollector?) && s2.AtCollector?
            && var next := Step(plugins, s2, Collect);
               next == Waiting(next.o) && Lacks(plugins, next.o, k, d)
               && next.o.exception == None && |next.o.scheduled| < |o.scheduled|
  {
    assert k < |o.scheduled| - 1;
    if !Supplies(plugins, ToSet(o.scheduled[..k + 1]), d, o.scheduled[k + 1..]) {
      SuppliesLess(plugins, o.scheduled, k, d);
    }
  }

  /**
   In every run of an object, whatever mix of skips, successes and failures and whatever results it
   brings along, each plugin is handed the object only after all its dependencies have results:
   exactly if they are in reach on its list, and no scheduled plugin depends on one that has no
   result and does not run at this depth.
   */
  lemma DependenciesMetIff(plugins: Plugins, o: FileObject)
    requires o.exception == None
    ensures AlwaysMet(plugins, o)
       <==> InReach(plugins, {}, o.scheduled, o.processed.Keys)
            && DependenciesRun(plugins, o.depth, o.scheduled, o.processed.Keys)
  {
    if !InReach(plugins, {}, o.scheduled, o.processed.Keys) {
      var k, d := OutOfReach(plugins, {}, o.scheduled, o.processed.Keys);
      LackIsReached(plugins, o, k, d);
    } else if !DependenciesRun(plugins, o.depth, o.scheduled, o.processed.Keys) {
      var q, d :| q in o.scheduled && d in Deps(plugins, q) && d !in o.processed && !RunsAt(plugins, o.depth, d);
      var k :| 0 <= k < |o.scheduled| && o.scheduled[k] == q;
      LackIsReached(plugins, o, k, d);
    } else {
      CheckFurtherSound(plugins, o);
      forall choices | Possible(plugins, CheckFurther(o), choices)
        ensures !Unmet(plugins, After(plugins, CheckFurther(o), choices))
      {
        RunSound(plugins, CheckFurther(o), choices);
      }
    }
  }

  lemma LackIsReached(plugins: Plugins, o: FileObject, k: nat, d: Plugin)
    requires o.exception == None && Lacks(plugins, o, k, d)
    ensures !AlwaysMet(plugins, o)
  {
    var choices := PlainRun(plugins, o, k, d);
    assert CheckFurther(o) == Waiting(o);
    assert Possible(plugins, CheckFurther(o), choices);
  }

  /**
   The same for an object as the entry points release it, with a plan for loaded plugins. The object
   may come from the database with results of earlier analyses.
   */
  lemma PlannedDependenciesMetIff(plugins: Plugins, s: set<Plugin>, o: FileObject)
    requires s <= plugins.Keys && IsPlan(plugins, s, o.scheduled) && o.exception == None
    ensures AlwaysMet(plugins, o)
       <==> (FILE_TYPE !in o.scheduled || Deps(plugins, FILE_TYPE) <= o.processed.Keys)
            && DependenciesRun(plugins, o.depth, o.scheduled, o.processed.Keys)
  {
    LeftOutForADependency(plugins, s, o.scheduled);
    OrderedUnlessFileTypeDepends(plugins, s, o.scheduled, o.processed.Keys);
    ReachIsOrder(plugins, {}, o.scheduled, o.processed.Keys);
    DependenciesMetIff(plugins, o);
  }

  /**
   `update_analysis_of_object_and_children` releases the outermost file with a list that was never
   scheduled: dependencies are met in all of its runs exactly if they are in reach on that list. For
   loaded plugins without repetitions that means that the list happens to be in order.
   */
  lemma UnscheduledListMustBeInOrder(plugins: Plugins, o: FileObject)
    requires o.exception == None && o.depth == 0
    ensures AlwaysMet(plugins, o) <==> InReach(plugins, {}, o.scheduled, o.processed.Keys)
    ensures NoDup(o.scheduled) && AllLoaded(plugins, o.scheduled) ==>
              (AlwaysMet(plugins, o) <==> InOrder(plugins, o.scheduled, o.processed.Keys))
  {
    DependenciesMetIff(plugins, o);
    if NoDup(o.scheduled) && AllLoaded(plugins, o.scheduled) {
      ReachIsOrder(plugins, {}, o.scheduled, o.processed.Keys);
    }
  }
}

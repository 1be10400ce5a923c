/**
 Dependency closure and dependency-preserving shuffle (src/scheduler/task_scheduler.py).

 A plan is a list of plugins that is consumed from its end. It is in order when every dependency of
 a plugin is met already or stands nearer the end than the plugin itself.
 */
module TaskScheduler {
  import opened Basics

  type Plugin = string

  datatype PluginInfo = PluginInfo(dependencies: set<Plugin>, recursive: bool)

  type Plugins = map<Plugin, PluginInfo>

  const FILE_TYPE: Plugin := "file_type"
  const MANDATORY_PLUGINS: seq<Plugin> := [FILE_TYPE, "file_hashes"]

  function Deps(plugins: Plugins, p: Plugin): set<Plugin> {
    if p in plugins then plugins[p].dependencies else {}
  }

  // ----- Dependency closure -----

  ghost predicate Closed(plugins: Plugins, s: set<Plugin>) {
    forall p :: p in s ==> Deps(plugins, p) <= s
  }

  /** The dependencies of `s` that are missing from `s`. */
  function RemainingDependencies(plugins: Plugins, s: set<Plugin>): set<Plugin> {
    (set p, d | p in s && d in Deps(plugins, p) :: d) - s
  }

  /**
   The loop that adds missing dependencies. It fails with a key error exactly when following
   dependencies from the given plugins leads to a plugin that is not loaded; otherwise it returns
   the least dependency-closed superset. It terminates on every dependency graph, cyclic or not.
   */
  method AddDependenciesRecursively(plugins: Plugins, scheduled: seq<Plugin>) returns (r: Option<seq<Plugin>>)
    ensures r.Some? ==>
      && NoDup(r.value) && ToSet(scheduled) <= ToSet(r.value) <= plugins.Keys && Closed(plugins, ToSet(r.value))
      && forall c :: ToSet(scheduled) <= c && Closed(plugins, c) ==> ToSet(r.value) <= c
    ensures r.None? ==> forall c :: ToSet(scheduled) <= c && Closed(plugins, c) ==> !(c <= plugins.Keys)
  {
    var s := ToSet(scheduled);
    ghost var universe := s + set p, d | p in plugins && d in plugins[p].dependencies :: d;
    while true
      invariant ToSet(scheduled) <= s <= universe
      invariant forall c :: ToSet(scheduled) <= c && Closed(plugins, c) ==> s <= c
      decreases universe - s
    {
      if !(s <= plugins.Keys) {
        return None;
      }
      var new_ := RemainingDependencies(plugins, s);
      if new_ == {} {
        assert Closed(plugins, s) by {
          forall p, d | p in s && d in Deps(plugins, p)
            ensures d in s
          {
            assert d !in RemainingDependencies(plugins, s);
          }
        }
        break;
      }
      ghost var x :| x in new_;
      assert x in universe - s && x !in universe - (s + new_);
      s := s + new_;
    }
    var list := SetToList(s);
    r := Some(list);
  }

  // ----- Plans -----

  /** Every dependency of a plugin in `plan` is in `met` or stands nearer the end than the plugin. */
  ghost predicate InOrder(plugins: Plugins, plan: seq<Plugin>, met: set<Plugin>) {
    plan == [] || (Deps(plugins, plan[0]) <= ToSet(plan[1..]) + met && InOrder(plugins, plan[1..], met))
  }

  /** `rank` strictly decreases along the dependencies of `t`, which all stay inside `t`. */
  ghost predicate Ranked(plugins: Plugins, t: set<Plugin>, rank: map<Plugin, nat>) {
    t <= rank.Keys && forall p, d :: p in t && d in Deps(plugins, p) ==> d in t && rank[d] < rank[p]
  }

  /** `p` belongs to a part of `s` that contains all its dependencies and has no cycle. */
  ghost predicate Schedulable(plugins: Plugins, s: set<Plugin>, p: Plugin) {
    exists t, rank :: t <= s && p in t && Ranked(plugins, t, rank)
  }

  /** What `_smart_shuffle` returns for the plugins in `s`; the order it leaves open is arbitrary. */
  ghost predicate IsPlan(plugins: Plugins, s: set<Plugin>, plan: seq<Plugin>) {
    && NoDup(plan)
    && (forall p :: p in plan <==> Schedulable(plugins, s, p))
    && (FILE_TYPE !in plan ==> InOrder(plugins, plan, {}))
    && (FILE_TYPE in plan ==> plan[|plan| - 1] == FILE_TYPE && InOrder(plugins, plan[..|plan| - 1], {FILE_TYPE}))
  }

  lemma {:induction false} InOrderPrepend(plugins: Plugins, front: seq<Plugin>, plan: seq<Plugin>, met: set<Plugin>)
    requires InOrder(plugins, plan, met)
    requires forall p :: p in front ==> Deps(plugins, p) <= ToSet(plan)
    ensures InOrder(plugins, front + plan, met)
  {
    if front == [] {
      assert front + plan == plan;
    } else {
      InOrderPrepend(plugins, front[1..], plan, met);
      assert (front + plan)[1..] == front[1..] + plan;
      assert ToSet(plan) <= ToSet(front[1..] + plan);
      assert front[0] in front;
    }
  }

  /** The plugin that is popped next has all its dependencies met; the rest stays in order once it is done. */
  lemma {:induction false} InOrderPop(plugins: Plugins, plan: seq<Plugin>, met: set<Plugin>)
    requires InOrder(plugins, plan, met) && plan != []
    ensures Deps(plugins, plan[|plan| - 1]) <= met
    ensures InOrder(plugins, plan[..|plan| - 1], met + {plan[|plan| - 1]})
  {
    var last := |plan| - 1;
    if last == 0 {
      assert ToSet(plan[1..]) == {};
    } else {
      InOrderPop(plugins, plan[1..], met);
      assert plan[1..][..last - 1] == plan[..last][1..];
      assert plan[1..][last - 1] == plan[last];
      assert ToSet(plan[1..]) == ToSet(plan[1..last]) + {plan[last]} by {
        assert plan[1..] == plan[1..last] + [plan[last]];
      }
    }
  }

  lemma {:induction false} InOrderMore(plugins: Plugins, plan: seq<Plugin>, met: set<Plugin>, more: set<Plugin>)
    requires InOrder(plugins, plan, met) && met <= more
    ensures InOrder(plugins, plan, more)
  {
    if plan != [] {
      InOrderMore(plugins, plan[1..], met, more);
    }
  }

  /** Without one plugin, the others are in order given its result. */
  lemma {:induction false} InOrderBeside(plugins: Plugins, plan: seq<Plugin>, x: Plugin)
    requires InOrder(plugins, plan, {}) && NoDup(plan) && x in plan
    ensures InOrder(plugins, RemoveFirst(plan, x), {x})
  {
    SplitHead(plan);
    if plan[0] == x {
      InOrderMore(plugins, plan[1..], {}, {x});
    } else {
      InOrderBeside(plugins, plan[1..], x);
      RemoveFirstFromNoDup(plan[1..], x);
    }
  }

  /** The converse of popping: a plugin with its dependencies met can be put at the end. */
  lemma {:induction false} InOrderPush(plugins: Plugins, plan: seq<Plugin>, x: Plugin, met: set<Plugin>)
    requires InOrder(plugins, plan, met + {x}) && Deps(plugins, x) <= met
    ensures InOrder(plugins, plan + [x], met)
  {
    if plan == [] {
      assert plan + [x] == [x] && [x][1..] == [];
    } else {
      InOrderPush(plugins, plan[1..], x, met);
      assert (plan + [x])[1..] == plan[1..] + [x];
      assert ToSet(plan[1..]) + {x} == ToSet(plan[1..] + [x]);
    }
  }

  // ----- The shuffle -----

  function MovedFileType(plan: seq<Plugin>): seq<Plugin> {
    if FILE_TYPE in plan && plan[|plan| - 1] != FILE_TYPE then RemoveFirst(plan, FILE_TYPE) + [FILE_TYPE] else plan
  }

  /** The plugins of `remaining` whose dependencies have all been scheduled. */
  function MetDependencies(plugins: Plugins, remaining: set<Plugin>, scheduled: seq<Plugin>): set<Plugin> {
    set p | p in remaining && Deps(plugins, p) <= ToSet(scheduled)
  }

  /** The state of the shuffle after some rounds. */
  ghost predicate Partial(plugins: Plugins, s: set<Plugin>, plan: seq<Plugin>, rank: map<Plugin, nat>) {
    NoDup(plan) && ToSet(plan) <= s && Ranked(plugins, ToSet(plan), rank) && InOrder(plugins, plan, {})
  }

  /** One round: plugins with met dependencies are put in front, in any order. */
  lemma NextRound(plugins: Plugins, s: set<Plugin>, plan: seq<Plugin>, rank: map<Plugin, nat>,
                  front: seq<Plugin>, round: nat)
    returns (rank': map<Plugin, nat>)
    requires Partial(plugins, s, plan, rank) && NoDup(front)
    requires ToSet(front) <= MetDependencies(plugins, s - ToSet(plan), plan)
    requires forall p :: p in plan ==> p in rank && rank[p] < round
    ensures Partial(plugins, s, front + plan, rank')
    ensures forall p :: p in front + plan ==> p in rank' && rank'[p] < round + 1
  {
    rank' := map p | p in ToSet(front + plan) :: if p in plan then rank[p] else round;
    NoDupConcat(front, plan);
    InOrderPrepend(plugins, front, plan, {}) by {
      assert forall p :: p in front ==> p in ToSet(front);
    }
    RankedLater(plugins, ToSet(plan), rank, ToSet(front), round, rank');
  }

  lemma RankedLater(plugins: Plugins, t: set<Plugin>, rank: map<Plugin, nat>, more: set<Plugin>, round: nat,
                    rank': map<Plugin, nat>)
    requires Ranked(plugins, t, rank) && forall p :: p in t ==> rank[p] < round
    requires forall p :: p in more ==> Deps(plugins, p) <= t && p !in t
    requires rank' == map p | p in more + t :: if p in t then rank[p] else round
    ensures Ranked(plugins, more + t, rank')
  {
  }

  /** When no plugin can be added, the plan holds every schedulable plugin. */
  lemma {:induction false} NothingLeft(plugins: Plugins, s: set<Plugin>, plan: seq<Plugin>,
                                       t: set<Plugin>, rank: map<Plugin, nat>, p: Plugin)
    requires MetDependencies(plugins, s - ToSet(plan), plan) == {}
    requires t <= s && Ranked(plugins, t, rank) && p in t
    ensures p in plan
    decreases rank[p]
  {
    forall d | d in Deps(plugins, p)
      ensures d in plan
    {
      NothingLeft(plugins, s, plan, t, rank, d);
    }
    assert p !in MetDependencies(plugins, s - ToSet(plan), plan);
  }

  lemma FinishedPlan(plugins: Plugins, s: set<Plugin>, plan: seq<Plugin>, rank: map<Plugin, nat>)
    requires Partial(plugins, s, plan, rank)
    requires MetDependencies(plugins, s - ToSet(plan), plan) == {}
    ensures IsPlan(plugins, s, MovedFileType(plan))
  {
    forall p
      ensures p in plan <==> Schedulable(plugins, s, p)
    {
      if p in plan {
        assert p in ToSet(plan) && ToSet(plan) <= s && Ranked(plugins, ToSet(plan), rank);
      }
      if Schedulable(plugins, s, p) {
        var t, r :| t <= s && p in t && Ranked(plugins, t, r);
        NothingLeft(plugins, s, plan, t, r, p);
      }
    }
    var moved := MovedFileType(plan);
    if moved != plan {
      RemoveFirstFromNoDup(plan, FILE_TYPE);
      var rest := RemoveFirst(plan, FILE_TYPE);
      assert forall p :: p in rest <==> p in ToSet(rest);
      assert ToSet(moved) == ToSet(plan);
      assert forall p :: p in moved <==> p in ToSet(moved);
      InOrderBeside(plugins, plan, FILE_TYPE);
      assert moved[..|moved| - 1] == rest;
    } else if FILE_TYPE in plan {
      InOrderPop(plugins, plan, {});
      assert {} + {FILE_TYPE} == {FILE_TYPE};
    }
  }

  /** `sample(xs, len(xs))`: some permutation of a set of plugins. */
  method Shuffled(s: set<Plugin>) returns (xs: seq<Plugin>)
    ensures NoDup(xs) && ToSet(xs) == s
  {
    xs := SetToList(s);
  }

  /**
   The dependency-preserving shuffle. It fails exactly on plugins that are not loaded, terminates
   on cyclic dependencies, and returns a plan for exactly the plugins whose dependencies lie
   recursively within the list and are not caught in a cycle.
   */
  method SmartShuffle(plugins: Plugins, pluginList: seq<Plugin>) returns (r: Option<seq<Plugin>>)
    ensures r.None? <==> !(ToSet(pluginList) <= plugins.Keys)
    ensures r.Some? ==> IsPlan(plugins, ToSet(pluginList), r.value)
  {
    var scheduled: seq<Plugin> := [];
    var remaining := ToSet(pluginList);
    if !(remaining <= plugins.Keys) {
      return None;
    }
    ghost var s := remaining;
    ghost var rank: map<Plugin, nat>, round: nat := map[], 0;
    while remaining != {}
      invariant remaining == s - ToSet(scheduled)
      invariant Partial(plugins, s, scheduled, rank)
      invariant forall p :: p in scheduled ==> p in rank && rank[p] < round
      decreases remaining
    {
      var next := MetDependencies(plugins, remaining, scheduled);
      if next == {} {
        break;
      }
      var front := Shuffled(next);
      rank := NextRound(plugins, s, scheduled, rank, front, round);
      assert ToSet(front + scheduled) == next + ToSet(scheduled);
      scheduled, remaining, round := front + scheduled, remaining - next, round + 1;
    }
    FinishedPlan(plugins, s, scheduled, rank);
    if FILE_TYPE in scheduled && scheduled[|scheduled| - 1] != FILE_TYPE {
      scheduled := RemoveFirst(scheduled, FILE_TYPE) + [FILE_TYPE];
    }
    r := Some(scheduled);
  }

  /** The same rounds, one plugin at a time. */
  lemma Greedy(plugins: Plugins, s: set<Plugin>) returns (scheduled: seq<Plugin>, rank: map<Plugin, nat>)
    ensures Partial(plugins, s, scheduled, rank)
    ensures MetDependencies(plugins, s - ToSet(scheduled), scheduled) == {}
  {
    scheduled, rank := [], map[];
    var round: nat := 0;
    while MetDependencies(plugins, s - ToSet(scheduled), scheduled) != {}
      invariant Partial(plugins, s, scheduled, rank)
      invariant forall p :: p in scheduled ==> p in rank && rank[p] < round
      decreases s - ToSet(scheduled)
    {
      var p :| p in MetDependencies(plugins, s - ToSet(scheduled), scheduled);
      assert ToSet([p]) == {p};
      rank := NextRound(plugins, s, scheduled, rank, [p], round);
      assert ToSet([p] + scheduled) == {p} + ToSet(scheduled);
      scheduled, round := [p] + scheduled, round + 1;
    }
  }

  /** A plan always exists: whatever the dependencies, the shuffle has a possible result. */
  lemma PlanExists(plugins: Plugins, s: set<Plugin>) returns (plan: seq<Plugin>)
    ensures IsPlan(plugins, s, plan)
  {
    var scheduled, rank := Greedy(plugins, s);
    FinishedPlan(plugins, s, scheduled, rank);
    plan := MovedFileType(scheduled);
  }

  /**
   Popping a plan from its end meets dependencies first exactly when `file_type`, which is forced
   to the end, is not in the plan or needs nothing that has no result yet.
   */
  lemma OrderedUnlessFileTypeDepends(plugins: Plugins, s: set<Plugin>, plan: seq<Plugin>, met: set<Plugin>)
    requires IsPlan(plugins, s, plan)
    ensures InOrder(plugins, plan, met) <==> FILE_TYPE !in plan || Deps(plugins, FILE_TYPE) <= met
  {
    if FILE_TYPE !in plan {
      InOrderMore(plugins, plan, {}, met);
    } else if Deps(plugins, FILE_TYPE) <= met {
      var front := plan[..|plan| - 1];
      InOrderMore(plugins, front, {FILE_TYPE}, met + {FILE_TYPE});
      InOrderPush(plugins, front, FILE_TYPE, met);
      assert plan == front + [FILE_TYPE];
    } else if InOrder(plugins, plan, met) {
      InOrderPop(plugins, plan, met);
    }
  }

  /** Among plugins that are closed under dependencies and free of cycles, nothing is left out. */
  lemma AcyclicIsFullyPlanned(plugins: Plugins, s: set<Plugin>, plan: seq<Plugin>, rank: map<Plugin, nat>)
    requires IsPlan(plugins, s, plan) && Ranked(plugins, s, rank)
    ensures ToSet(plan) == s
  {
    forall p | p in s
      ensures p in plan
    {
      assert s <= s && p in s && Ranked(plugins, s, rank);
    }
    forall p | p in plan
      ensures p in s
    {
      assert Schedulable(plugins, s, p);
    }
  }

  /**
   The planned plugins contain their own dependencies, and a plugin of the list is left out exactly
   if some dependency of it is left out or not in the list at all.
   */
  lemma LeftOutForADependency(plugins: Plugins, s: set<Plugin>, plan: seq<Plugin>)
    requires IsPlan(plugins, s, plan)
    ensures ToSet(plan) <= s
    ensures forall p :: p in s ==> (p in plan <==> Deps(plugins, p) <= ToSet(plan))
  {
    var scheduled, rank := Greedy(plugins, s);
    assert ToSet(scheduled) <= s && Ranked(plugins, ToSet(scheduled), rank);
    forall p
      ensures p in plan <==> p in scheduled
    {
      if Schedulable(plugins, s, p) {
        var t, r :| t <= s && p in t && Ranked(plugins, t, r);
        NothingLeft(plugins, s, scheduled, t, r, p);
      }
      if p in scheduled {
        assert p in ToSet(scheduled);
        assert Schedulable(plugins, s, p);
      }
    }
    assert ToSet(plan) == ToSet(scheduled);
    forall p | p in s
      ensures p in scheduled <==> Deps(plugins, p) <= ToSet(scheduled)
    {
      assert p !in MetDependencies(plugins, s - ToSet(scheduled), scheduled);
    }
  }

  // ----- Scheduling a file object -----

  /**
   `schedule_analysis_tasks`: closes the requested plugins under dependencies, adds the mandatory
   ones on request, and shuffles.
   */
  method ScheduleAnalysisTasks(plugins: Plugins, requested: seq<Plugin>, mandatory: bool) returns (r: Option<seq<Plugin>>)
    ensures r.Some? ==> exists closure ::
              && IsClosure(plugins, ToSet(requested), closure)
              && IsPlan(plugins, closure + (if mandatory then ToSet(MANDATORY_PLUGINS) else {}), r.value)
    ensures r.Some? && mandatory ==> ToSet(MANDATORY_PLUGINS) <= plugins.Keys
    ensures r.None? ==>
              || (mandatory && !(ToSet(MANDATORY_PLUGINS) <= plugins.Keys))
              || forall c :: ToSet(requested) <= c && Closed(plugins, c) ==> !(c <= plugins.Keys)
  {
    var closed := AddDependenciesRecursively(plugins, requested);
    if closed.None? {
      return None;
    }
    var all := if mandatory then closed.value + MANDATORY_PLUGINS else closed.value;
    assert ToSet(all) == ToSet(closed.value) + (if mandatory then ToSet(MANDATORY_PLUGINS) else {});
    r := SmartShuffle(plugins, all);
    assert IsClosure(plugins, ToSet(requested), ToSet(closed.value));
  }

  ghost predicate IsClosure(plugins: Plugins, s: set<Plugin>, closure: set<Plugin>) {
    s <= closure <= plugins.Keys && Closed(plugins, closure)
    && forall c :: s <= c && Closed(plugins, c) ==> closure <= c
  }

  /** There is at most one least closed superset. */
  lemma ClosureIsUnique(plugins: Plugins, s: set<Plugin>, a: set<Plugin>, b: set<Plugin>)
    requires IsClosure(plugins, s, a) && IsClosure(plugins, s, b)
    ensures a == b
  {
    assert a <= b && b <= a;
  }
}

/**
 Why an object has the results it has: every result that was not there before comes from a decision of the run.
 */
module PluginResults {
  import opened Basics
  import opened TaskScheduler
  import opened AnalysisRun
  import opened PluginAccounting
  import opened FailureHandling

  ghost predicate HasLeft(h: seq<Event>, p: Plugin, how: How) {
    exists i :: 0 <= i < |h| && h[i] == Left(p, how)
  }

  ghost predicate HasFailed(h: seq<Event>, p: Plugin) {
    exists i :: 0 <= i < |h| && h[i] == Failure(p)
  }

  /** What the run decided about a plugin fits its result. The result of `file_type` may be loaded if there was none. */
  ghost predicate HasReason(before: map<Plugin, Outcome>, o: FileObject, p: Plugin)
    requires p in o.processed
  {
    match o.processed[p]
    case Finished => HasLeft(o.history, p, Started)
    case FromDb => HasLeft(o.history, p, UpToDate) || (p == FILE_TYPE && p !in before)
    case Skipped => HasLeft(o.history, p, Blacklisted)
    case Failed => HasFailed(o.history, p) || HasLeft(o.history, p, Unscheduled)
  }

  /** Results that were there before may stay. */
  ghost predicate IsExplained(before: map<Plugin, Outcome>, o: FileObject, p: Plugin) {
    p in o.processed ==> (p in before && o.processed[p] == before[p]) || HasReason(before, o, p)
  }

  /** Mandatory plugins are never skipped for the type of a file, and only plugins that are not loaded are passed over. */
  ghost predicate FitsPlugin(plugins: Plugins, e: Event) {
    e.Left? ==>
      && (e.how == Blacklisted ==> e.plugin !in MANDATORY_PLUGINS)
      && (e.how == NotAvailable ==> e.plugin !in plugins)
      && (e.how in {UpToDate, Blacklisted, Started} ==> e.plugin in plugins)
  }

  ghost predicate Explained(plugins: Plugins, before: map<Plugin, Outcome>, s: Stage) {
    && (forall p :: IsExplained(before, s.o, p)) && before.Keys <= s.o.processed.Keys
    && (forall i :: 0 <= i < |s.o.history| ==> FitsPlugin(plugins, s.o.history[i]))
    && (s.AtPlugin? || s.AtCollector? ==> HasLeft(s.o.history, s.p, Started))
  }

  lemma LongerHistory(h: seq<Event>, more: seq<Event>)
    ensures forall p, how :: HasLeft(h, p, how) ==> HasLeft(h + more, p, how)
    ensures forall p :: HasFailed(h, p) ==> HasFailed(h + more, p)
  {
    assert forall i :: 0 <= i < |h| ==> (h + more)[i] == h[i];
  }

  lemma NowLeft(h: seq<Event>, p: Plugin, how: How)
    ensures HasLeft(h + [Left(p, how)], p, how)
  {
    assert (h + [Left(p, how)])[|h|] == Left(p, how);
  }

  /** How the results may change when a plugin leaves the list. */
  ghost predicate Decided(o: FileObject, o': FileObject, p: Plugin, how: How) {
    && o.processed.Keys <= o'.processed.Keys
    && forall q :: q in o'.processed ==>
         || (q in o.processed && o'.processed[q] == o.processed[q])
         || (q == p && how == UpToDate && o'.processed[q] == FromDb)
         || (q == p && how == Blacklisted && o'.processed[q] == Skipped)
         || (q == FILE_TYPE && q !in o.processed && o'.processed[q] == FromDb)
  }

  lemma NextDecides(plugins: Plugins, o: FileObject, c: Choice)
    requires o.scheduled != [] && c.Decide?
    ensures var p := o.scheduled[|o.scheduled| - 1];
            Decided(o, Next(plugins, o, c).o, p, WayOut(plugins, p, c)) && FitsPlugin(plugins, Left(p, WayOut(plugins, p, c)))
  {
  }

  lemma NextExplained(plugins: Plugins, before: map<Plugin, Outcome>, o: FileObject, c: Choice)
    requires Explained(plugins, before, Waiting(o)) && o.scheduled != [] && c.Decide?
    ensures Explained(plugins, before, Next(plugins, o, c))
  {
    var p := o.scheduled[|o.scheduled| - 1];
    var how, s := WayOut(plugins, p, c), Next(plugins, o, c);
    NextPops(plugins, o, c);
    NextDecides(plugins, o, c);
    LongerHistory(o.history, [Left(p, how)]);
    NowLeft(o.history, p, how);
    forall q
      ensures IsExplained(before, s.o, q)
    {
      assert IsExplained(before, o, q);
    }
  }

  lemma WorkerExplained(plugins: Plugins, before: map<Plugin, Outcome>, o: FileObject, p: Plugin, success: bool)
    requires Explained(plugins, before, AtPlugin(o, p))
    ensures Explained(plugins, before, AtCollector(Worker(p, o, success), p))
  {
    forall q
      ensures IsExplained(before, Worker(p, o, success), q)
    {
      assert IsExplained(before, o, q);
    }
  }

  lemma FailureExplained(plugins: Plugins, before: map<Plugin, Outcome>, o: FileObject, p: Plugin)
    requires Explained(plugins, before, AtCollector(o, p)) && o.exception == Some(p)
    ensures Explained(plugins, before, CheckFurther(Rescheduled(plugins, o)))
  {
    var o', h, d := Rescheduled(plugins, o), o.history, Dependents(plugins, o.scheduled, p);
    LongerHistory(h, [Failure(p)] + Unscheduling(d));
    assert o'.history == h + ([Failure(p)] + Unscheduling(d));
    assert o'.history[|h|] == Failure(p);
    forall q | q in d
      ensures HasLeft(o'.history, q, Unscheduled)
    {
      var i :| 0 <= i < |d| && d[i] == q;
      assert o'.history[|h| + 1 + i] == Unscheduling(d)[i];
    }
    forall q
      ensures IsExplained(before, o', q)
    {
      assert IsExplained(before, o, q);
    }
    forall i | 0 <= i < |o'.history|
      ensures FitsPlugin(plugins, o'.history[i])
    {
      if i < |h| {
        assert o'.history[i] == h[i];
      } else if i > |h| {
        assert o'.history[i] == Unscheduling(d)[i - |h| - 1];
      }
    }
  }

  lemma StepExplained(plugins: Plugins, before: map<Plugin, Outcome>, s: Stage, c: Choice)
    requires Explained(plugins, before, s) && ExceptionOk(s) && Enabled(s, c)
    ensures Explained(plugins, before, Step(plugins, s, c))
  {
    match s
    case Waiting(o) => NextExplained(plugins, before, o, c);
    case AtPlugin(o, p) => WorkerExplained(plugins, before, o, p, c.success);
    case AtCollector(o, p) =>
      if o.exception.Some? {
        FailureExplained(plugins, before, o, p);
      }
  }

  lemma {:induction false} RunExplained(plugins: Plugins, before: map<Plugin, Outcome>, s: Stage, choices: seq<Choice>)
    requires Explained(plugins, before, s) && ExceptionOk(s) && Possible(plugins, s, choices)
    ensures Explained(plugins, before, After(plugins, s, choices))
    decreases |choices|
  {
    if choices != [] {
      StepExplained(plugins, before, s, choices[0]);
      StepKeepsExceptionOk(plugins, s, choices[0]);
      RunExplained(plugins, before, Step(plugins, s, choices[0]), choices[1..]);
    }
  }

  /**
   In every run of an object, each result is one that it brought along or that a decision of the run explains: it is
   finished if the plugin was started, failed if the plugin failed or was unscheduled, skipped if its file type was
   blacklisted, and from the database if it was up to date. No result that it brought along gets lost.
   */
  lemma EveryResultHasAReason(plugins: Plugins, o: FileObject, choices: seq<Choice>)
    requires o.history == [] && o.exception == None && Possible(plugins, CheckFurther(o), choices)
    ensures var end := After(plugins, CheckFurther(o), choices).o;
            && o.processed.Keys <= end.processed.Keys
            && (forall p :: p in end.processed ==>
                  (p in o.processed && end.processed[p] == o.processed[p]) || HasReason(o.processed, end, p))
            && (forall i :: 0 <= i < |end.history| ==> FitsPlugin(plugins, end.history[i]))
  {
    RunExplained(plugins, o.processed, CheckFurther(o), choices);
    var end := After(plugins, CheckFurther(o), choices).o;
    forall p | p in end.processed
      ensures (p in o.processed && end.processed[p] == o.processed[p]) || HasReason(o.processed, end, p)
    {
      assert IsExplained(o.processed, end, p);
    }
  }

  /** A plugin with restrictions on file types runs only on objects that have a result of `file_type`. */
  lemma RestrictedNeedsFileType(plugins: Plugins, o: FileObject, c: Choice)
    requires o.scheduled != [] && c.Decide? && c.mimeRestricted && !c.upToDate
    requires o.scheduled[|o.scheduled| - 1] in plugins && o.scheduled[|o.scheduled| - 1] !in MANDATORY_PLUGINS
    ensures FILE_TYPE in Next(plugins, o, c).o.processed
  {
  }

  /** A plugin that is started gets to work exactly if its dependencies have results and it runs at this depth. */
  lemma WorksWhere(plugins: Plugins, o: FileObject, c: Choice)
    requires o.scheduled != [] && c.Decide? && !c.upToDate && !c.blacklisted && o.scheduled[|o.scheduled| - 1] in plugins
    ensures var p, s := o.scheduled[|o.scheduled| - 1], Next(plugins, o, c);
            && (s.AtPlugin? || s.AtCollector?) && s.p == p
            && (s.AtPlugin? <==> plugins[p].dependencies <= s.o.processed.Keys && (plugins[p].recursive || o.depth == 0))
  {
  }

  ghost predicate DepthOk(plugins: Plugins, depth: nat, s: Stage) {
    s.o.depth == depth && (s.AtPlugin? ==> s.p in plugins && (plugins[s.p].recursive || depth == 0))
  }

  /** So in no run of an extracted file a plugin works that is for firmware only. */
  lemma {:induction false} DepthIsRespected(plugins: Plugins, s: Stage, choices: seq<Choice>)
    requires DepthOk(plugins, s.o.depth, s) && Possible(plugins, s, choices)
    ensures DepthOk(plugins, s.o.depth, After(plugins, s, choices))
    decreases |choices|
  {
    if choices != [] {
      if s.Waiting? {
        NextPops(plugins, s.o, choices[0]);
      }
      DepthIsRespected(plugins, Step(plugins, s, choices[0]), choices[1..]);
    }
  }
}

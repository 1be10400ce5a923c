# FACT core: verified model

This project models the parts of the Firmware Analysis and Comparison Tool whose guarantees hold over
whole runs or whole data structures, and proves those guarantees. `dafny verify dfyconfig.toml` checks
everything.

## What is modelled

**The pipeline.** A firmware is unpacked down to a depth limit. Every extracted object gets a list of
analysis plugins, ordered by their dependencies, and travels from the unpack queue through the process
queue, a plugin's in-queue and out-queue and the collector, while a table counts the files of each running
firmware.

- `AnalysisStatus.dfy`, `StatusHistory.dfy`, `StatusUpdate.dfy`: the table, as a class with the original's loops,
  and what it says after any sequence of reports, or after an update.
- `TaskScheduler.dfy`: dependency closure and dependency-preserving shuffle.
- `AnalysisRun.dfy`, `PluginAccounting.dfy`, `FailureHandling.dfy`, `PluginResults.dfy`: the journey of one object
  as a state machine whose choices (skips, blacklists, failures) are arbitrary; what becomes of its plugins, what a
  failure leads to, and where its results come from.
- `AnalysisScheduler.dfy`, `SchedulerMoves.dfy`: the scheduler class with its queues, whose methods are moves of the
  machine below.
- `Unpacker.dfy`: from extracted files to child objects.
- `Pipeline.dfy`, `PipelineCoverage.dfy`, `PipelineTermination.dfy`, `PipelineObjects.dfy`: all objects together. A
  state is a list of tasks; any task may take the next step, so every interleaving of workers, queues and processes is
  a run. Seen from one object, it is a run of that object.

**Deletion.** `Inclusion.dfy`, `FirmwareDeletion.dfy`, `DeletionAgreement.dfy`: `delete_firmware` chooses
binaries by virtual-path roots, the database cascades away entries without parents; both are related to
reachability in the inclusion graph. `UnpackingLocks.dfy` is the lock protocol that guards the files.

**Data structures against something simpler.** `ChunkQueue.dfy` (the chunking queue against plain queues),
`FileTree.dfy`, `FileTreeData.dfy` and `FileTreeNode.dfy` (tree values, what they show, and the objects that are
merged in place), `VirtualFilePath.dfy` (merging against an ordered override), `QueryConversion.dfy`,
`QueryMeaning.dfy`, `QueryOptions.dfy` and `QueryCount.dfy` (search dictionaries, which building a query changes,
against joins under three-valued logic and the meaning of each option), `DurationStats.dfy` and `StatsMeaning.dfy`
(ring buffer against a list, and its statistics), `CveUpdate.dfy` (table updates against row counts),
`DeviceTree.dfy` and `DeviceTreeFormat.dfy` (the scanner against the unique greedy list of positions, and the parser
against what was written; Devicetree Specification, sections 5.2 and 5.4). `Strings.dfy` and `Basics.dfy` hold shared
vocabulary.

Reading files, running extractors and plugins, MIME and version checks, the database, random shuffling and
time are parameters or arbitrary choices of the model.

## What turned out not to hold

Each of these is stated with the condition under which the code does what it promises, or with an input
that shows the failure.

- `file_type` is moved to the popped end of a plan whatever it depends on. The plan is in order for an object
  exactly if `file_type` is absent or what it depends on has results already
  (`TaskScheduler.OrderedUnlessFileTypeDepends`).
- Non-recursive plugins below depth 0 yield no result, so plugins that depend on them can find their
  dependencies unmet. For any object, list and stored results it is stated exactly when dependencies are met in
  all runs (`AnalysisRun.DependenciesMetIff`), and so for the objects that the entry points release with a plan
  (`Scheduler.StartedDependenciesMetIff`, `Scheduler.SingleObjectDependenciesMetIff`).
- An update of a firmware and its files releases the firmware with a list that was never scheduled; its
  dependencies are met exactly if the list is in order already. A plugin that stands in such a list twice can be
  missed even so, because the result of an up-to-date plugin is not fetched while it is still scheduled
  (`AnalysisRun.UnscheduledListMustBeInOrder`), and it can leave the list twice
  (`PluginAccounting.NeverTwiceIff`).
- While a plugin that is not loaded is still listed, an up-to-date skip or a failure looks up its dependencies
  and raises a key error. No run does exactly if the plugins that are not loaded are popped first, that is, if no
  loaded plugin stands behind one of them on the list (`AnalysisRun.NeverCrashesIff`). A plan holds none
  of them.
- A request that names a plugin that is not loaded, or depends on one, fails after the object was registered in
  the status table (`Scheduler.AnalysisScheduler.StartAnalysisOfObject`). The firmware stays in the table: it is
  finished in no state of any run (`PipelineCoverage.UnscheduledNeverFinishes`), while all others finish
  (`PipelineCoverage.NoFirmwareGetsStuck`).
- A firmware that is unpacked again still lists the files of an earlier extraction (a `PUT` request for the
  unpacker, src/web_interface/rest/rest_firmware.py:189-205). If one of them does not come up again, the
  firmware never finishes: it always finishes exactly if it lists none and its plugins can be scheduled
  (`PipelineCoverage.AlwaysFinishesIffNothingStale`).
- A deleted firmware that is itself contained in another file: erased binaries and removed entries agree
  exactly if the firmware has no parent or each of its children has another one
  (`DeletionAgreement.DeletionAgreesIff`). With one file in a firmware in a firmware, deleting the inner firmware
  removes the entry of the file and keeps its binary (`DeletionAgreement.DeletedInsideAnother`).
- Applying an update of virtual file paths twice reorders lists stored for a new root unless paths with the
  same base stand together (`VirtualFilePath.UpdateAgainIff`, `VirtualFilePath.SecondUpdateReorders`).
- The virtual path of an extracted file names its parent exactly if the name of the file has one part between
  separators, or the last part but one is the parent's identifier (`VirtualFilePath.ChildNamesParentIff`). The
  names of extracted files start with a slash (src/helperFunctions/fileSystem.py:37), so a file `a|b` at the top is
  attributed to a parent `/a` (`VirtualFilePath.SeparatorInFileName`).
- `$or` searches find every file that is not a firmware if a firmware column is compared with None, and no
  file without analyses if an analysis key is present (`QueryMeaning.OrSearchFinds`). Searches for results
  of two plugins find nothing, because one joined row shows one analysis (`QueryMeaning.AndSearchFinds`).
  The empty search is not inverted (`QueryMeaning.InvertedPartitionsIff`).
- Building a query serialises option values of JSON keys in the dictionary it is given, and the matches of a
  search are counted with a second query built from the same dictionary
  (src/web_interface/components/database_routes.py:45-51, src/web_interface/components/database_routes.py:64-66).
  Search and count agree on every database exactly if no filter compares with a value that was serialised (so
  each deciding option is `$exists`, or does not stand before every `$in` and `$like`), or if the search is a
  conjunction about several plugins, which finds nothing (`QueryCount.CountAgreesIff`). For
  `{'processed_analysis.plugin.list': {'$contains': 'a'}}` a file is found and the count is 0
  (`QueryCount.FoundButNotCounted`).
- The lock protocol does not keep every needed file: an object in analysis releases the lock that another object
  of the same file relies on (`UnpackingLocks.LockOfAnotherObject`), or inserts its entry again after entry and
  file were deleted (`UnpackingLocks.EntryWithoutFile`); both runs start from nothing. The states from which no
  run loses a needed file, as long as these two things do not happen, are exactly those of the protocol's
  invariant (`UnpackingLocks.StaysSafeIff`), and the steps that lead out of them are known exactly
  (`UnpackingLocks.StepStaysSafeIff`).
- CVE updates: without summaries in the update, an identifier can end in both tables
  (`CveUpdate.DisjointIff`, `CveUpdate.SummaryBecomesFeed`); a stored summary whose year the feed table does not
  know is lost when an update mentions it (`CveUpdate.NothingDisappearsIff`), and that all years are known does not
  survive an update (`CveUpdate.TwoUpdatesLoseASummary`).
- `dump_device_trees` raises a TypeError exactly if it stops at a magic with less than 37 bytes left: nine
  header fields need 33 bytes after the magic (`DeviceTree.DumpDeviceTrees`). A buffer that is nothing but a magic
  will do (`DeviceTree.MagicAloneFails`).

As the FIXME in src/analysis/PluginBase.py:99-100 says, a failed or skipped plugin counts as processed. This
holds in the model as well: plugins that depend on a failed one only indirectly still run.

## Model

| member | source | states |
|---|---|---|
| `Status.CountersOrdered` | src/scheduler/analysis_status.py:56-62 | analyzed <= unpacked <= total in every consistent entry, and all three are equal exactly if nothing is left to unpack or analyse |
| `Status.AddKeepsConsistent` | src/scheduler/analysis_status.py:35-62 | registering any report keeps total = to unpack + unpacked and unpacked = to analyse + analysed in every entry, both lists disjoint, and finishes nothing |
| `Status.RemoveKeepsConsistent` | src/scheduler/analysis_status.py:76-92 | striking off any report keeps every entry consistent; an entry leaves the running table exactly when its counters meet, and is recorded with that total |
| `Status.UpdateKeepsConsistent` | src/scheduler/analysis_status.py:24-33 | the update of a firmware with known children starts a consistent entry |
| `Status.BookedInOrder` | src/scheduler/analysis_status.py:51-62 | booking a file on its running firmware one after the other, in any order, is booking it on all of them |
| `Status.StruckInOrder` | src/scheduler/analysis_status.py:79-92 | striking a file off its running firmware one after the other, in any order, is striking it off all of them |
| `Status.AnalysisStatus.AddToCurrentAnalyses` | src/scheduler/analysis_status.py:35-43 | a firmware starts a new entry, another file is booked on every running firmware it belongs to; the table is otherwise unchanged |
| `Status.AnalysisStatus.UpdateCurrentAnalysis` | src/scheduler/analysis_status.py:45-62 | the loop over the running parents, without duplicates in either list |
| `Status.AnalysisStatus.BookFile` | src/scheduler/analysis_status.py:52-61 | files not seen yet are added to the ones to unpack and counted, and the file itself moves to the ones to analyse if it was awaited |
| `Status.AnalysisStatus.RemoveFromCurrentAnalyses` | src/scheduler/analysis_status.py:76-94 | a file is struck off each running firmware that waits for it; entries with both lists empty move to the finished ones |
| `Status.AnalysisStatus.StrikeFile` | src/scheduler/analysis_status.py:80-92 | one iteration: a file that is not awaited changes nothing |
| `Status.AnalysisStatus.AddUpdateToCurrentAnalyses` | src/scheduler/analysis_status.py:24-33 | the entry of the firmware counts itself and all included files as unpacked, none as analysed |
| `StatusHistory.RunKeepsInv` | src/scheduler/analysis_status.py:24-94 | after any sequence of uploads, updates and reports every table entry is consistent and unfinished, everything the record of a running firmware includes is awaited or reported, and a finished firmware has nothing left |
| `StatusHistory.RecordIsFounded` | src/scheduler/analysis_status.py:24-94 | what the record of a running firmware holds was reported since its last start; what the record of a finished one holds was reported between one of its starts, the last one unless it is running again, and its finish |
| `StatusHistory.FinishedMeansAllAnalyzed` | src/scheduler/analysis_status.py:24-94 | when a firmware has finished, it did so after a start, its last one unless it is running again, and every file reachable from it through inclusions reported in between was, in that time, reported unpacked (or known to be by an update) and reported analysed or given up |
| `StatusUpdate.StrikeIsProgress` | src/scheduler/analysis_status.py:76-94 | striking a file off an update that nothing was registered for since takes it out of those left, and finishes the update with the last one |
| `StatusUpdate.UpdateFinishesIff` | src/scheduler/analysis_status.py:24-33 | after an update with known files, whatever is reported about other firmware: while some file was not struck off it is running, with exactly those left in analysis and none to unpack; once all were, in any order, it has finished with all files counted |
| `TaskScheduler.AddDependenciesRecursively` | src/scheduler/task_scheduler.py:54-66 | the least dependency-closed superset; it fails exactly if no closed superset consists of loaded plugins |
| `TaskScheduler.ClosureIsUnique` | src/scheduler/task_scheduler.py:54-61 | there is only one least closed superset |
| `TaskScheduler.SmartShuffle` | src/scheduler/task_scheduler.py:24-52 | terminates on every dependency graph, fails exactly on plugins that are not loaded, and returns a plan: each schedulable plugin once, in dependency order before `file_type` is moved |
| `TaskScheduler.NextRound` | src/scheduler/task_scheduler.py:29-36 | putting plugins with met dependencies in front, in any order, extends a partial plan |
| `TaskScheduler.NothingLeft` | src/scheduler/task_scheduler.py:30-34 | when no plugin can be added any more, every plugin that can be scheduled at all is in the plan |
| `TaskScheduler.PlanExists` | src/scheduler/task_scheduler.py:24-42 | every set of plugins has a plan |
| `TaskScheduler.InOrderPop` | src/scheduler/task_scheduler.py:24-42 | the plugin popped next has its dependencies met, and the rest stays in order once it is done |
| `TaskScheduler.OrderedUnlessFileTypeDepends` | src/scheduler/task_scheduler.py:38-42 | popping a plan meets dependencies first exactly if `file_type` is absent or all it depends on has results |
| `TaskScheduler.AcyclicIsFullyPlanned` | src/scheduler/task_scheduler.py:24-37 | a closed set of plugins without cycles is planned completely |
| `TaskScheduler.LeftOutForADependency` | src/scheduler/task_scheduler.py:29-34 | a plugin is left out exactly if one of its dependencies is left out or not in the list |
| `TaskScheduler.ScheduleAnalysisTasks` | src/scheduler/task_scheduler.py:18-22 | a plan for the least closed superset of the request, with the mandatory plugins on demand; a key error exactly if a needed plugin is not loaded |
| `AnalysisRun.StepSound` | src/scheduler/analysis.py:263-302 | each step of an object with any list and any results keeps: every dependency of a listed plugin is processed or in reach |
| `AnalysisRun.RunSound` | src/scheduler/analysis.py:263-302 | the same after any number of steps |
| `AnalysisRun.SkipSound` | src/scheduler/analysis.py:282-290 | an up-to-date skip keeps this although the result is only fetched if a listed plugin depends on it and it is not listed itself, unless the skip ends in a key error |
| `AnalysisRun.StartSound` | src/scheduler/analysis.py:291-302 | a blacklist skip and a start keep it |
| `AnalysisRun.CollectedSound` | src/scheduler/analysis.py:428-433 | collecting a result, or unscheduling the dependents of a failed plugin, keeps it, unless that ends in a key error |
| `AnalysisRun.WorkerSound` | src/analysis/PluginBase.py:201-211 | a worker leaves a result entry for its plugin whether it succeeds or fails |
| `AnalysisRun.WithoutFacts` | src/scheduler/task_scheduler.py:71-73 | unscheduling removes exactly the direct dependents of the failed plugin |
| `AnalysisRun.ReachWithout` | src/scheduler/task_scheduler.py:68-80 | the plugins that stay have their dependencies in reach given results for the unscheduled ones |
| `AnalysisRun.DependenciesMetIff` | src/analysis/PluginBase.py:90-104 | in every run of an object, with whatever list and stored results, until it is over or stopped by a key error, each plugin finds its dependencies processed exactly if they are in reach on the list, and have a result or run at the depth of the object |
| `AnalysisRun.ReachIsOrder` | src/scheduler/task_scheduler.py:24-42 | for loaded plugins without repetitions, that means that the list is in order |
| `AnalysisRun.PlannedDependenciesMetIff` | src/scheduler/task_scheduler.py:24-42 | for a plan: exactly if `file_type` needs nothing without a result, and every dependency has a result or runs at the depth of the object |
| `Scheduler.StartedDependenciesMetIff` | src/scheduler/analysis.py:155-164 | the same for every object that is started |
| `Scheduler.SingleObjectDependenciesMetIff` | src/scheduler/analysis.py:166-174 | the same for every object that is updated on its own, with all results it has in the database |
| `AnalysisRun.UnscheduledListMustBeInOrder` | src/scheduler/analysis.py:153 | the outermost file of an update, whose list is not scheduled, has its dependencies met in all runs exactly if they are in reach on that list; without repetitions and unknown plugins, if it is in order |
| `AnalysisRun.NeverCrashesIff` | src/scheduler/task_scheduler.py:63-72 | no run of an object ends in a key error exactly if every plugin on its list that is not loaded stands behind all loaded ones |
| `PluginAccounting.StepAccounted` | src/scheduler/analysis.py:263-302 | each step keeps the books for any list: what was planned is what is listed plus what left, each plugin as often as it was planned |
| `PluginAccounting.FailureOrder` | src/scheduler/task_scheduler.py:68-80 | after a failure no direct dependent of the failed plugin is started |
| `PluginAccounting.FailureResults` | src/scheduler/task_scheduler.py:70-79 | the failed plugin and the unscheduled ones carry failed results |
| `PluginAccounting.RunAccounted` | src/scheduler/analysis.py:418-442 | the books are kept over every run |
| `PluginAccounting.EveryPluginLeavesOnce` | src/scheduler/analysis.py:274-302 | over every run of any list, each plugin is still listed or has left (skipped, blacklisted, started or unscheduled) as often as it was planned; on completion all have left; without repetitions none leaves twice, results fit the ways they left, and nothing is started after a dependency failed |
| `PluginAccounting.NeverTwiceIff` | src/scheduler/analysis.py:274-302 | no plugin leaves the list twice in any run exactly if the list has no repetition |
| `FailureHandling.FailedWorkIsHandled` | src/analysis/PluginBase.py:195-199 | in any run in which a worker fails on an object: once collected, no plugin that depends on the failed one is listed, none is started later in the run, and the failed plugin and its listed dependents have failed results; a key error instead while a plugin that is not loaded is listed |
| `FailureHandling.CollectedAfterFailure` | src/scheduler/task_scheduler.py:68-80 | what the collector makes of an object on which a worker has failed |
| `FailureHandling.SuccessIsKept` | src/analysis/PluginBase.py:174-183 | a successful worker leaves a finished result and changes nothing else |
| `PluginResults.EveryResultHasAReason` | src/scheduler/analysis.py:281-302 | in any run each result was brought along or fits how its plugin left the list: finished if started, failed if it failed or was unscheduled, skipped if blacklisted, from the database if up to date (or loaded, for `file_type`); none gets lost, and no mandatory plugin is blacklisted |
| `PluginResults.RestrictedNeedsFileType` | src/scheduler/analysis.py:375-387 | a plugin with restrictions on file types is decided upon with a result of `file_type` |
| `PluginResults.WorksWhere` | src/analysis/PluginBase.py:90-104 | a plugin that is started gets to work exactly if its dependencies have results, and it is recursive or the object has depth 0 |
| `PluginResults.DepthIsRespected` | src/analysis/PluginBase.py:103-104 | in no run of an extracted file a plugin works that is not recursive |
| `Scheduler.DropsDependents` | src/scheduler/task_scheduler.py:71-79 | the loop over a copy of the list has the effect of unscheduling all direct dependents |
| `Scheduler.AnalysisScheduler.CheckFurtherProcessOrComplete` | src/scheduler/analysis.py:437-442 | an object with nothing scheduled is struck off the status table, any other one is queued again |
| `Scheduler.AnalysisScheduler.AddJob` | src/analysis/PluginBase.py:90-96 | an object goes to the in-queue of the plugin, or to its out-queue if dependencies are missing or the depth is excluded |
| `Scheduler.AnalysisScheduler.StartOrSkipAnalysis` | src/scheduler/analysis.py:281-302 | the three branches on queues and status table; a key error exactly if the result is up to date and a listed plugin is not loaded |
| `Scheduler.AnalysisScheduler.ProcessNextAnalysisTask` | src/scheduler/analysis.py:263-279 | an object that the database rejects is given up and struck off; otherwise its next plugin is popped, and an unavailable one is passed over; a key error exactly if the step of the object ends in one |
| `Scheduler.AnalysisScheduler.WorkOnNext` | src/analysis/PluginBase.py:160-211 | the next object of an in-queue reaches the out-queue with a result or an exception |
| `Scheduler.AnalysisScheduler.RescheduleFailedAnalysisTask` | src/scheduler/task_scheduler.py:68-80 | the in-place loop computes the rescheduled object; a key error exactly if a listed plugin is not loaded |
| `Scheduler.AnalysisScheduler.CollectFrom` | src/scheduler/analysis.py:421-433 | the collector takes one object from an out-queue and passes it on; a key error exactly if its plugin failed and a listed plugin is not loaded |
| `Scheduler.AnalysisScheduler.StartAnalysisOfObject` | src/scheduler/analysis.py:155-164 | the object is registered, then released with a plan; a key error exactly if a requested, needed or mandatory plugin is not loaded, and then the object stays registered |
| `Scheduler.AnalysisScheduler.UpdateAnalysisOfSingleObject` | src/scheduler/analysis.py:166-174 | the object is released with a plan for the closure of its list, or nothing happens and there is a key error, exactly if a needed plugin is not loaded; the status table is not told unless the plan is empty |
| `SchedulerMoves.NextTaskIsMove` | src/scheduler/analysis.py:263-302 | processing the next object of the queue is a move of the backend: one object is taken, and put where its next stage is, or reported |
| `SchedulerMoves.GivingUpIsMove` | src/scheduler/analysis.py:266-271 | so is giving an object up that the database rejects |
| `SchedulerMoves.WorkIsMove` | src/analysis/PluginBase.py:160-211 | so is the work of a plugin, whether it succeeds or fails |
| `SchedulerMoves.CollectionIsMove` | src/scheduler/analysis.py:421-442 | so is the collection of a result, with or without a failure |
| `Unpacker.GenerateAndStoreFileObjects` | src/unpacker/unpack.py:92-112 | one entry per distinct non-empty file, in order of appearance, with all its paths in order; exactly these files are locked and stored |
| `Unpacker.PathsInOrder` | src/unpacker/unpack.py:102-111 | the paths of a file are those of all its non-empty occurrences, each once and in order |
| `Unpacker.RemoveDuplicates` | src/unpacker/unpack.py:114-118 | the parent is dropped from its own extraction, all other files stay |
| `Unpacker.AddIncludedFiles` | src/unpacker/unpack.py:88-90 | one child per identifier, as the object hands it down, and the object includes them all |
| `Unpacker.Unpack` | src/unpacker/unpack.py:26-53 | no children at the depth limit or after an extractor error, otherwise one per distinct non-empty file, one level deeper with the inherited schedule, and the parent includes them; all children are locked and stored |
| `Pipeline.FireKeepsTaskOk` | src/scheduler/unpacking_scheduler.py:69-81 | every step of a task yields well-formed tasks and reports |
| `PipelineCoverage.FireKeepsTokens` | src/scheduler/unpacking_scheduler.py:69-81 | a step loses no file that a firmware waits for, except the one it reports, and those of a worker that dies of a key error |
| `PipelineCoverage.MoveKeepsCovered` | src/scheduler/analysis_status.py:51-92 | every file that a firmware waits for is carried by a task in the matching stage, before and after each move, unless the firmware is lost to a key error |
| `PipelineCoverage.MoveKeepsInv` | src/scheduler/analysis.py:263-302 | each move of any task keeps the invariant of the pipeline |
| `PipelineCoverage.RunKeepsInv` | src/scheduler/analysis.py:263-302 | every interleaving keeps the invariant of the pipeline |
| `PipelineCoverage.NoFirmwareGetsStuck` | src/scheduler/analysis.py:155-164 | once no task is left, no firmware is running and every uploaded one has finished, except those for which plugins were requested that cannot be scheduled |
| `PipelineCoverage.UnscheduledNeverFinishes` | src/scheduler/analysis.py:155-164 | such a firmware is not finished in any state of any run |
| `PipelineCoverage.FinishedFirmwareIsComplete` | src/scheduler/analysis_status.py:76-94 | in every state of every run, a finished firmware has a start and a finish such that all files reachable from it through inclusions reported in between were in that time reported unpacked, and analysed or given up |
| `PipelineCoverage.AlwaysFinishesIffNothingStale` | src/scheduler/analysis_status.py:64-74 | an upload finishes in every run exactly if all requested, needed and mandatory plugins are loaded and it lists no included files beforehand |
| `PipelineCoverage.StaleFileIsAwaited` | src/scheduler/analysis_status.py:64-74 | a listed file that does not come up keeps the firmware running |
| `PipelineObjects.RequestsAreHandedDown` | src/objects/file.py:195-199 | in every state of every run, each object that is not released is an upload or was extracted from one at an allowed depth, carries exactly the request of the upload, and if extracted has no results |
| `PipelineObjects.ReleasedAsRequested` | src/scheduler/analysis.py:155-164 | so every object is released with a plan for what its upload requested and the mandatory plugins |
| `PipelineObjects.PlanHoldsAll` | src/scheduler/task_scheduler.py:18-61 | a plan holds all requested plugins, all they depend on, and the mandatory ones, if loaded plugins depend on loaded ones only and not on themselves, and mandatory ones on mandatory ones |
| `PipelineObjects.FollowedIsRun` | src/scheduler/analysis.py:263-302 | the moves that concern one object, wherever it stands among the tasks, are a run of that object |
| `PipelineObjects.FollowedToItsEnd` | src/scheduler/analysis.py:437-442 | no object gets lost: it can be followed to the end of the run, or to the move that gives it up or reports it |
| `PipelineObjects.StruckOffIsAnalysed` | src/scheduler/analysis.py:431-442 | an object that a decision strikes off has an empty list, and each plugin of its plan has left it as often as planned |
| `PipelineObjects.EveryObjectIsAnalysed` | src/scheduler/analysis.py:431-442 | in every run from some uploads, an object released with a plan is under analysis for the rest of the run, given up on a database error, or struck off after each plugin of the plan has left its list as often as planned |
| `PipelineObjects.RemovalsAreEarned` | src/scheduler/analysis.py:263-302 | every report that strikes an object off is made by a move that gives it up on a database error, releases it with an empty plan, or completes its analysis according to a plan for the request of its upload |
| `PipelineObjects.FinishedFirmwareIsAnalysed` | src/scheduler/analysis_status.py:76-94 | in every state of every run, each file reachable from a finished firmware through reported inclusions was struck off in this way between a start and the finish |
| `PipelineObjects.ExtractedIsReported` | src/scheduler/unpacking_scheduler.py:69-81 | in every run that has left no task, each file that was extracted is reported as included where it was found |
| `PipelineTermination.ExtractionLightens` | src/unpacker/unpack.py:33-53 | an object weighs more than its analysis and all its children, given how many files an extraction yields at most |
| `PipelineTermination.FireLightens` | src/scheduler/unpacking_scheduler.py:69-81 | every step replaces a task by lighter ones |
| `PipelineTermination.RunIsBounded` | src/scheduler/unpacking_scheduler.py:69-81 | the length of a run and the weight of what is left are at most the weight of the start |
| `PipelineTermination.FireLowers` | src/scheduler/unpacking_scheduler.py:69-81 | every step leaves less to do at one extraction depth and adds work only at greater depths, however many files are extracted |
| `PipelineTermination.NoEndlessRun` | src/scheduler/unpacking_scheduler.py:63-81 | no run from some uploads goes on for ever, without any bound on the number of extracted files |
| `PipelineTermination.TaskCanStep` | src/scheduler/analysis.py:254-279 | no task ever blocks |
| `PipelineTermination.PipelineTerminates` | src/scheduler/unpacking_scheduler.py:63-81 | a run that cannot be continued has left nothing and finished every upload that can be scheduled; its length is bounded by the weight of the uploads for the largest extraction in it |
| `PipelineTermination.EveryRunCanFinish` | src/scheduler/analysis.py:254-279 | every run can be continued until nothing is left |
| `PipelineTermination.DependenciesAlwaysMet` | src/analysis/PluginBase.py:90-104 | at every moment of every run, an object at a plugin has results for its dependencies, if dependencies run at all depths and `file_type` has none |
| `FirmwareDeletion.Database.RemoveVirtualPathEntries` | src/storage/db_interface_admin.py:51-79 | whatever the order and repetition of visits, files below that have other roots lose the deleted root, and the others are collected |
| `FirmwareDeletion.Database.DeleteObject` | src/storage/db_interface_admin.py:19-23 | the entry, its relations and everything the cascade reaches are gone; a missing entry changes nothing |
| `FirmwareDeletion.Database.DeleteFileOrphans` | src/storage/schema.py:174-186 | deleting orphans one after the other, in any order, keeps exactly what a firmware reaches |
| `FirmwareDeletion.Database.DeleteFirmware` | src/storage/db_interface_admin.py:25-41 | the collected binaries and the resulting database; nothing happens for an unknown firmware |
| `FirmwareDeletion.StrippedTwice` | src/storage/db_interface_admin.py:66-78 | visiting files again makes no difference |
| `FirmwareDeletion.OrphanIsNotNeeded` | src/storage/schema.py:182-186 | deleting an orphan leaves everything that a firmware reaches reached |
| `FirmwareDeletion.NoOrphanMeansReached` | src/storage/schema.py:182-186 | in an acyclic database without orphans, every entry is reached by a firmware |
| `DeletionAgreement.CollectedAre` | src/storage/db_interface_admin.py:70-78 | collected are exactly the files below the root that no other firmware reaches |
| `DeletionAgreement.StayingAre` | src/storage/schema.py:174-186 | the entries that stay are those a remaining firmware reaches without the deleted root |
| `DeletionAgreement.StayingIsUnchanged` | src/storage/db_interface_admin.py:51-79 | whatever stays keeps its paths in other firmware and its relations to what stays |
| `DeletionAgreement.ErasedMeansRemoved` | src/storage/db_interface_admin.py:25-41 | a binary is only erased if its entry is removed |
| `DeletionAgreement.DeletionAgreesIff` | src/storage/db_interface_admin.py:25-41 | erased binaries are the removed entries exactly if the firmware has no parent or each of its children has another one |
| `DeletionAgreement.DeletedInsideAnother` | src/storage/db_interface_admin.py:25-41 | a sound database in which deleting an inner firmware removes the entry of its file but does not erase the binary |
| `DeletionAgreement.DeletionKeepsSound` | src/storage/db_interface_admin.py:25-41 | after deleting a firmware without parents, roots name exactly the firmware that reach a file, and no orphan is left |
| `DeletionAgreement.DeleteAndCheck` | src/storage/db_interface_admin.py:25-41 | the same on the class, ready for the next deletion |
| `UnpackingLocks.UnpackingLockManager.SetUnpackingLock` | src/storage/unpacking_locks.py:12-13 | the lock is set, other locks are unchanged |
| `UnpackingLocks.UnpackingLockManager.ReleaseUnpackingLock` | src/storage/unpacking_locks.py:18-22 | the lock is not set afterwards, whether or not it was |
| `UnpackingLocks.InterComBackEndDeleteFile.PostProcessing` | src/intercom/back_end_binding.py:225-240 | the files on disk after the checks of a task, one after the other |
| `UnpackingLocks.TaskDeletes` | src/intercom/back_end_binding.py:225-240 | a task deletes exactly its files that are neither in the database nor locked |
| `UnpackingLocks.StepKeepsInvIff` | src/scheduler/analysis.py:264-273 | a step keeps the lock invariant of a file exactly if it releases no lock another object relies on and inserts no entry without a file |
| `UnpackingLocks.CarefulRunIsSafe` | src/unpacker/unpack.py:107-108 | along runs in which no lock another object relies on is released and no deleted entry is inserted by a later analysis round, a file in the database, or extracted and locked, is on disk |
| `UnpackingLocks.StaysSafeIff` | src/unpacker/unpack.py:107-108 | all such runs from a state keep the file exactly if the state satisfies the invariant: from any other state one of them loses it |
| `UnpackingLocks.StepStaysSafeIff` | src/scheduler/analysis.py:264-273 | a step leaves a file safe for good exactly if it releases no lock another object relies on and inserts no entry without a file |
| `UnpackingLocks.OneObjectIsCareful` | src/unpacker/unpack.py:106-111 | runs with one object per file at a time in which no deleted entry is inserted again are of this kind |
| `UnpackingLocks.OneObjectIsSafe` | src/unpacker/unpack.py:106-111 | so they keep needed files |
| `UnpackingLocks.LockOfAnotherObject` | src/scheduler/analysis.py:273 | a run from the empty state, without reinsertion, in which an object in analysis releases the lock of another one, whose file is then deleted before its entry is inserted |
| `UnpackingLocks.EntryWithoutFile` | src/storage/db_interface_backend.py:24-34 | a run from the empty state, with one object per file, in which an object in analysis inserts its deleted entry again after its file is gone |
| `ChunkQueue.MetaKeyRoundTrip` | src/storage/redis_interface.py:42-49 | the chunk keys can be read back from the meta key |
| `ChunkQueue.DecimalInjective` | src/storage/redis_interface.py:51-55 | different numbers make different chunk keys |
| `ChunkQueue.ChunkKeyCount` | src/storage/redis_interface.py:51-55 | there are as many chunk keys as numbers to draw from, 10,000 for a new interface |
| `ChunkQueue.ChunksCover` | src/storage/redis_interface.py:44-46 | ceil-many slices cover the value, and one less does not |
| `ChunkQueue.ChunkIsNext` | src/storage/redis_interface.py:46 | each slice goes on where the one before ended |
| `ChunkQueue.PushKeepsValid` | src/storage/redis_interface.py:33-34 | after a put, live entries own disjoint stored chunks, and every chunk belongs to a live entry |
| `ChunkQueue.PopKeepsValid` | src/storage/redis_interface.py:36-37 | the same after a get |
| `ChunkQueue.PushAppends` | src/storage/redis_interface.py:33-34 | a put changes what the queues hold by one value at the end of one queue |
| `ChunkQueue.PopTakes` | src/storage/redis_interface.py:36-37 | a get takes the first value of one queue and leaves all others |
| `ChunkQueue.DrainedHasNoChunks` | src/storage/redis_interface.py:64-77 | once all queues are drained, no chunk is left |
| `ChunkQueue.DrainedIsEmpty` | src/storage/redis_interface.py:64-77 | the lists are gone exactly if the queues hold nothing, and then no key is left at all |
| `ChunkQueue.RedisInterface.GetNewChunkKey` | src/storage/redis_interface.py:51-55 | any unused chunk key |
| `ChunkQueue.RedisInterface.StoreChunks` | src/storage/redis_interface.py:42-49 | the value is stored completely under fresh distinct keys, which the meta key lists |
| `ChunkQueue.RedisInterface.CombineChunks` | src/storage/redis_interface.py:64-77 | the chunks are joined in order and deleted |
| `ChunkQueue.RedisInterface.QueuePut` | src/storage/redis_interface.py:33-34 | the queue has the value at its end and uses up as many keys as it has chunks |
| `ChunkQueue.RedisInterface.QueueGet` | src/storage/redis_interface.py:36-37 | the first value, unchanged, or nothing from an empty queue; its keys are free again |
| `ChunkQueue.RunOperations` | src/storage/redis_interface.py:33-77 | any sequence of puts and gets yields what plain first-in-first-out queues yield, if chunk keys suffice along the way; afterwards the queues hold what the plain ones hold, and the database is empty once those are drained |
| `FileTree.MergePaths` | src/web_interface/file_tree/file_tree_node.py:61-72 | a merged node has exactly the paths of both |
| `FileTree.MergeData` | src/web_interface/file_tree/file_tree_node.py:61-72 | a path of both keeps the data of the node that was there first |
| `FileTree.AddPaths` | src/web_interface/file_tree/file_tree_node.py:74-84 | adding a node adds exactly its paths |
| `FileTree.AddData` | src/web_interface/file_tree/file_tree_node.py:74-84 | and only fills in data where there was no node |
| `FileTree.AddAllPaths` | src/web_interface/file_tree/file_tree_node.py:74-84 | the paths of a tree are those of the nodes that were added |
| `FileTree.AddAllData` | src/web_interface/file_tree/file_tree_node.py:74-84 | the first node with a path decides the data shown for it |
| `FileTree.AddWellFormed` | src/web_interface/file_tree/file_tree_node.py:102-109 | each identifier occurs at most once among siblings |
| `FileTree.AddKeepsFlags` | src/web_interface/file_tree/file_tree_node.py:82-84 | nodes with children are marked as having some |
| `FileTree.ShapeFromPaths` | src/web_interface/file_tree/file_tree_node.py:61-84 | two trees with the same paths have the same shape |
| `FileTree.OrderDoesNotMatter` | src/web_interface/file_tree/file_tree_node.py:61-84 | the shape depends neither on the order of insertion nor on repetitions |
| `FileTree.CreatedPaths` | src/web_interface/file_tree/file_tree.py:242-262 | the node for a virtual path has exactly the prefixes of that path |
| `FileTree.TreeIsUnionOfPaths` | src/web_interface/components/ajax_routes.py:35-45 | the tree of a level has exactly the prefixes of the paths of its files |
| `FileTree.TreeIsOk` | src/web_interface/components/ajax_routes.py:35-45 | and siblings with distinct identifiers, and correct marks |
| `FileTreeData.CreatedShows` | src/web_interface/file_tree/file_tree.py:236-262 | the node for a virtual path shows the file at its end, and directories on the way |
| `FileTreeData.FilesAreLeaves` | src/web_interface/file_tree/file_tree.py:236-262 | the path of a file ends where no path of a file goes on |
| `FileTreeData.TreeShowsFiles` | src/web_interface/components/ajax_routes.py:35-45 | at the path of each file the tree of a level shows the data of the first file with that path, and whether it includes files |
| `FileTreeData.TreeShowsDirectories` | src/web_interface/components/ajax_routes.py:35-45 | and a directory at every other path |
| `FileTreeNodes.FileTreeNode.constructor` | src/web_interface/file_tree/file_tree_node.py:20-39 | a node without children |
| `FileTreeNodes.FileTreeNode.AddChildNode` | src/web_interface/file_tree/file_tree_node.py:74-84 | in place, the tree becomes the tree with the node added |
| `FileTreeNodes.FileTreeNode.MergeNode` | src/web_interface/file_tree/file_tree_node.py:61-72 | the child with the same identifier takes over the children of the node; terminates on the height of the node |
| `FileTreeNodes.FileTreeNode.MergeChildren` | src/web_interface/file_tree/file_tree_node.py:68-72 | the loop, in any order of the children |
| `FileTreeNodes.AddOneMore` | src/web_interface/file_tree/file_tree_node.py:68-72 | children can be merged one after the other, in any order |
| `FileTreeNodes.CreateNode` | src/web_interface/file_tree/file_tree.py:242-262 | the recursion over a virtual path builds the node for it |
| `FileTreeNodes.GenerateFileTree` | src/web_interface/components/ajax_routes.py:35-45 | the tree of a level, built in place, is the one whose paths are given above |
| `VirtualFilePath.ElementsOfJoin` | src/helperFunctions/virtual_file_path.py:10-15 | splitting undoes joining |
| `VirtualFilePath.ElementsOfBase` | src/helperFunctions/virtual_file_path.py:18-19 | the base has the elements of the path without the last one, whatever empty parts it has |
| `VirtualFilePath.BaseAndTop` | src/helperFunctions/virtual_file_path.py:18-23 | base and top joined have the elements of the path |
| `VirtualFilePath.ParentIsTopOfBase` | src/helperFunctions/virtual_file_path.py:49-74 | the parent in a path is the top of its base and one of its identifiers; there is none exactly if the base is empty |
| `VirtualFilePath.ElementsOfChild` | src/unpacker/unpack.py:97-100 | the path of an extracted file has the containers of its parent, the parent, and the parts of its name |
| `VirtualFilePath.ChildNamesParent` | src/unpacker/unpack.py:97-100 | so it names its parent, if its name holds no separator |
| `VirtualFilePath.ChildNamesParentIff` | src/helperFunctions/virtual_file_path.py:49-61 | it names its parent exactly if its name has one part, or the last part but one is the identifier of the parent |
| `VirtualFilePath.SeparatorInFileName` | src/helperFunctions/virtual_file_path.py:49-61 | the file name `a|b` makes `a` the parent |
| `VirtualFilePath.UidsOfChild` | src/helperFunctions/virtual_file_path.py:64-74 | the identifiers in the path of an extracted file are the containers of its parent and the parent |
| `VirtualFilePath.ParentUids` | src/helperFunctions/virtual_file_path.py:49-61 | exactly the parents that some path names |
| `VirtualFilePath.SplitByBase` | src/helperFunctions/virtual_file_path.py:38-46 | the loop computes the grouping |
| `VirtualFilePath.GroupIsGrouped` | src/helperFunctions/virtual_file_path.py:38-46 | one entry per base with the paths of that base in order |
| `VirtualFilePath.GroupFlatten` | src/helperFunctions/virtual_file_path.py:35 | flattening and grouping again returns the same dictionary |
| `VirtualFilePath.OverrideAssociative` | src/helperFunctions/virtual_file_path.py:33-34 | overriding ordered dictionaries is associative |
| `VirtualFilePath.MergeVfpLists` | src/helperFunctions/virtual_file_path.py:26-35 | the loop computes the merged list |
| `VirtualFilePath.MergeByBase` | src/helperFunctions/virtual_file_path.py:26-35 | per base, the newer paths replace the older ones if there are any |
| `VirtualFilePath.MergeBases` | src/helperFunctions/virtual_file_path.py:33-35 | known bases keep their places and new ones follow in order |
| `VirtualFilePath.MergeAssociative` | src/helperFunctions/virtual_file_path.py:26-35 | merging is associative as lists |
| `VirtualFilePath.MergeAgain` | src/helperFunctions/virtual_file_path.py:26-35 | merging the newer list again changes nothing |
| `VirtualFilePath.GroupedListIff` | src/helperFunctions/virtual_file_path.py:35-46 | grouping leaves a list as it is exactly if paths with the same base stand together |
| `VirtualFilePath.UpdateVirtualFilePath` | src/helperFunctions/virtual_file_path.py:77-94 | the loop merges the lists of common roots and takes over the others |
| `VirtualFilePath.UpdateAssociative` | src/helperFunctions/virtual_file_path.py:77-94 | updates can be combined before they are applied |
| `VirtualFilePath.UpdateAgainIff` | src/helperFunctions/virtual_file_path.py:77-94 | applying an update again changes nothing exactly if its lists for new roots have paths with the same base together |
| `VirtualFilePath.SecondUpdateReorders` | src/helperFunctions/virtual_file_path.py:92-93 | a list of three paths that the second update reorders |
| `QueryConversion.BuildFromConditions` | src/storage/query_conversion.py:75-109 | fails exactly on an unsupported option, which metadata columns of an analysis never are; the joins follow from the kinds of keys, and there is one filter per known key; the options of JSON keys are left serialised |
| `QueryConversion.AddFilters` | src/storage/query_conversion.py:80-102 | the loop that appends one filter per key and changes the options in place |
| `QueryConversion.BuildQueryFromDict` | src/storage/query_conversion.py:55-109 | the same for nested dictionaries: `$or` hides everything beside it, `_id` stands for `uid` |
| `QueryConversion.LookupRewritten` | src/storage/query_conversion.py:182-187 | serialised are exactly the options before the first `$in` or `$like` |
| `QueryConversion.SecondFilter` | src/storage/query_conversion.py:171-190 | from the changed condition a filter can be built exactly if it could before, and it is the same one exactly if what it compares with was not serialised |
| `QueryConversion.EffectiveLeft` | src/storage/query_conversion.py:68-73 | what a dictionary that was used stands for, and that it is empty exactly if it was |
| `QueryMeaning.ConjunctionIff` | src/storage/query_conversion.py:106-107 | under three-valued logic, AND is true exactly if every filter is |
| `QueryMeaning.DisjunctionIff` | src/storage/query_conversion.py:104-105 | under three-valued logic, OR is true exactly if some filter is |
| `QueryMeaning.FilterHolds` | src/storage/query_conversion.py:116-133 | on a joined row a filter says what its condition says, except IS NULL on a firmware that is not there |
| `QueryMeaning.OrSearchFinds` | src/storage/query_conversion.py:87-105 | a disjunction finds exactly the files with a true condition, besides the two exceptions named above |
| `QueryMeaning.AndSearchFinds` | src/storage/query_conversion.py:75-107 | a conjunction finds exactly the files with all conditions true, if its analysis keys are about one plugin, and nothing otherwise |
| `QueryMeaning.UnknownKeysFindAll` | src/storage/query_conversion.py:112-113 | keys of no table restrict nothing |
| `QueryOptions.ColumnOptionMeans` | src/storage/query_conversion.py:116-133 | a condition with options is true exactly if there is a value that meets the first of $exists, $regex, $like, $in, $lt (less), $gt (greater) and $contains that is there |
| `QueryOptions.NoOptionFails` | src/storage/query_conversion.py:133 | it fails exactly if none of them is |
| `QueryOptions.PlainMeans` | src/storage/query_conversion.py:117-118 | a value without options is compared for equality |
| `QueryOptions.ArrayMeans` | src/storage/query_conversion.py:152-164 | an array contains a value, overlaps a list, or matches a regular expression, which comes first |
| `QueryOptions.JsonOptionMeans` | src/storage/query_conversion.py:171-190 | on a JSON value, $in and $like are about its text, and all others but $exists about the serialised value |
| `QueryOptions.ValueMeans` | src/storage/query_conversion.py:75-102 | values are looked for in the two array columns and compared with all others |
| `QueryOptions.NoneMeans` | src/storage/query_conversion.py:188-190 | None stands for JSON's null in a result, and for a column without a value elsewhere |
| `QueryOptions.MetadataOptionsMean` | src/storage/query_conversion.py:143-147 | options for other metadata of an analysis are a value like any other |
| `QueryOptions.IdIsUid` | src/storage/query_conversion.py:71-73 | `_id` stands for the identifier, and all other conditions stay |
| `QueryOptions.ColumnSearchFinds` | src/storage/query_conversion.py:116-133 | a search by one column finds exactly the files whose value meets the option that is looked at first |
| `QueryMeaning.QueryParentFirmware` | src/storage/query_conversion.py:33-52 | the statement around the subquery, and the dictionary it leaves |
| `QueryMeaning.ParentsOfFound` | src/storage/query_conversion.py:33-52 | a search for parent firmware finds those that a found file belongs to, or, inverted, the others |
| `QueryMeaning.BuildGenericSearchQuery` | src/storage/query_conversion.py:23-30 | the statement for a search, and the dictionary it leaves; the empty one returns all firmware |
| `QueryMeaning.TotalMatchesQuery` | src/storage/db_interface_frontend.py:233-242 | the statement that is counted |
| `QueryMeaning.BrowseDatabase` | src/web_interface/components/database_routes.py:45-66 | the statement for the list, and the one for the count built from the dictionary that the list has left behind; there is a count exactly if there is a list |
| `QueryCount.CountAgreesIff` | src/web_interface/components/database_routes.py:45-66 | a search and its count agree for all databases and operators exactly if no filter compares with a value that the first build serialised, or if the search is a conjunction about several plugins |
| `QueryCount.FoundButNotCounted` | src/storage/query_conversion.py:182-190 | a search for a list that contains a value finds a file that is not counted |
| `QueryMeaning.InvertedPartitionsIff` | src/storage/query_conversion.py:45-48 | a search for parent firmware and its inversion cover all firmware, and are disjoint exactly if the search is not empty or there is no firmware; the counts add up |
| `DurationStats.NextPosition` | src/analysis/PluginBase.py:188-191 | the index wraps to 0 at the limit |
| `DurationStats.PositionIsModulo` | src/analysis/PluginBase.py:188-191 | after n updates the index is n mod the limit |
| `DurationStats.NewestIsSuffix` | src/analysis/PluginBase.py:185-193 | the newest durations are the last ones of the list of all, as many as the ring holds |
| `DurationStats.RingUpdate` | src/analysis/PluginBase.py:185-193 | writing at the index keeps the ring in line with the list of all durations |
| `DurationStats.RingIsPermutation` | src/statistic/analysis_stats.py:12-15 | the used part holds exactly the newest durations |
| `DurationStats.RingHasSameStats` | src/statistic/analysis_stats.py:16-23 | minimum, maximum, mean, median, variance and count of the ring are those of the newest durations |
| `DurationStats.SortedIsOrdered` | src/statistic/analysis_stats.py:19-20 | the median is taken from the same durations in ascending order |
| `StatsMeaning.ExtremesAre` | src/statistic/analysis_stats.py:17-18 | minimum and maximum are durations, and none lies outside |
| `StatsMeaning.MeanIs` | src/statistic/analysis_stats.py:19 | the distances from the mean, and from no other value, add up to zero, and it lies between minimum and maximum |
| `StatsMeaning.MedianIs` | src/statistic/analysis_stats.py:20 | the median stands in the middle of any ascending order of the durations, or halfway between the two there |
| `StatsMeaning.VarianceIs` | src/statistic/analysis_stats.py:21 | the variance is not negative, and zero exactly if all durations are the same |
| `DurationStats.AnalysisPlugin.UpdateDurationStats` | src/analysis/PluginBase.py:185-193 | count, index and array agree with the list after each update |
| `DurationStats.AnalysisPlugin.GetPluginStats` | src/statistic/analysis_stats.py:10-25 | the statistics of the newest durations, none before the first |
| `CveUpdate.SetupCveFeedsTable` | src/plugins/analysis/cve_lookup/internal/setup_repository.py:189-216 | exactly one row content per affected product of each entry, with the year from the identifier |
| `CveUpdate.SetupCveSummaryTable` | src/plugins/analysis/cve_lookup/internal/setup_repository.py:176-186 | exactly the rows of the summary entries |
| `CveUpdate.CveDatabase.UpdateCveFeeds` | src/plugins/analysis/cve_lookup/internal/setup_repository.py:143-146 | the feed table as row counts |
| `CveUpdate.CveDatabase.UpdateCveSummaries` | src/plugins/analysis/cve_lookup/internal/setup_repository.py:149-159 | both tables as row counts, also when there was no summary table |
| `CveUpdate.CveDatabase.UpdateCveRepository` | src/plugins/analysis/cve_lookup/internal/setup_repository.py:126-140 | an update for the given entries and those that an interrupted update left in temporary tables, or an error and no change if nothing was imported before; used temporary tables are gone |
| `CveUpdate.YearsKept` | src/plugins/analysis/cve_lookup/internal/setup_repository.py:143-146 | replacing feed rows neither adds nor removes a year |
| `CveUpdate.YearsStayOk` | src/plugins/analysis/cve_lookup/internal/setup_repository.py:126-159 | an update keeps every row's year in line with its identifier |
| `CveUpdate.DisjointIff` | src/plugins/analysis/cve_lookup/internal/setup_repository.py:135-138 | the tables stay disjoint exactly if the update holds summaries or moves no stored summary to the feeds |
| `CveUpdate.SummaryBecomesFeed` | src/plugins/analysis/cve_lookup/internal/setup_repository.py:135-138 | an update without summaries after which a CVE of 2019 is in both tables, whatever its number and that of another one |
| `CveUpdate.OthersKeepTheirRows` | src/plugins/analysis/cve_lookup/internal/setup_repository.py:126-159 | identifiers absent from the update keep their rows |
| `CveUpdate.UpdatedRowsAreNew` | src/plugins/analysis/cve_lookup/internal/setup_repository.py:126-159 | updated identifiers of known years have exactly the new rows, each once, and with summaries in one table only |
| `CveUpdate.NothingDisappearsIff` | src/plugins/analysis/cve_lookup/internal/setup_repository.py:126-159 | no stored identifier disappears exactly if the update holds no summaries or mentions no stored summary of an unknown year |
| `CveUpdate.KnownYearsAreEnough` | src/plugins/analysis/cve_lookup/internal/setup_repository.py:149-159 | nothing disappears if all summary years are in the feed table |
| `CveUpdate.TwoUpdatesLoseASummary` | src/plugins/analysis/cve_lookup/internal/setup_repository.py:149-159 | two updates after which a stored identifier is gone |
| `DeviceTree.DropIsSlice` | src/plugins/analysis/device_tree/internal/device_tree_utils.py:96 | dropping bytes is Python's slice `raw[n:]`, empty beyond the end |
| `DeviceTree.Find` | src/plugins/analysis/device_tree/internal/device_tree_utils.py:94-95 | the first position of a pattern |
| `DeviceTree.ParseDtbHeader` | src/plugins/analysis/device_tree/internal/device_tree_utils.py:64-65 | nine fields can be read exactly if 37 bytes are left |
| `DeviceTree.AcceptedSizes` | src/plugins/analysis/device_tree/internal/device_tree_utils.py:68-75 | an accepted header has blocks within the tree and a tree within the buffer |
| `DeviceTree.ScanIsScan` | src/plugins/analysis/device_tree/internal/device_tree_utils.py:54-61 | each position found is the first one since the scan went on, and none is left at the end |
| `DeviceTree.ScanIsUnique` | src/plugins/analysis/device_tree/internal/device_tree_utils.py:94-106 | there is only one such list of positions |
| `DeviceTree.ScanPosition` | src/plugins/analysis/device_tree/internal/device_tree_utils.py:94-106 | positions hold the pattern and keep their distance |
| `DeviceTree.ScanCovers` | src/plugins/analysis/device_tree/internal/device_tree_utils.py:104-106 | a pattern that was passed over lies in what was skipped |
| `DeviceTree.StructureBlock.Advance` | src/plugins/analysis/device_tree/internal/device_tree_utils.py:54-61 | each round consumes at least 12 bytes or empties the buffer, for arbitrary length fields |
| `DeviceTree.StructureBlock.Iterate` | src/plugins/analysis/device_tree/internal/device_tree_utils.py:54-61 | the iteration terminates, yields all properties and uses the block up |
| `DeviceTree.PropertiesAreScanned` | src/plugins/analysis/device_tree/internal/device_tree_utils.py:54-61 | the properties are those at the positions of the scan of the whole block |
| `DeviceTree.GetModelOrDescription` | src/plugins/analysis/device_tree/internal/device_tree_utils.py:130-137 | the last model and the first description that is not empty |
| `DeviceTree.AnalyzeDeviceTree` | src/plugins/analysis/device_tree/internal/device_tree_utils.py:111-127 | a report, none for illegal headers or a failing compiler, or a TypeError |
| `DeviceTree.DumpDeviceTrees` | src/plugins/analysis/device_tree/internal/device_tree_utils.py:90-108 | a TypeError exactly if less than 37 bytes are left at a position of the scan; otherwise exactly the trees that the analysis accepts at the positions of the scan, in order of their offsets in the original buffer, at least a header apart |
| `DeviceTree.DumpLoop` | src/plugins/analysis/device_tree/internal/device_tree_utils.py:90-108 | the loop over a shrinking buffer terminates, with offsets in the original one |
| `DeviceTree.DumpIsUnique` | src/plugins/analysis/device_tree/internal/device_tree_utils.py:90-108 | there is only one such list of trees |
| `DeviceTree.DumpFromPositions` | src/plugins/analysis/device_tree/internal/device_tree_utils.py:94-106 | the loop stops exactly at the positions of the scan of the original buffer, and returns what it finds at them |
| `DeviceTree.FailsIffCutOff` | src/plugins/analysis/device_tree/internal/device_tree_utils.py:64-65 | it raises a TypeError exactly if one of them has less than 37 bytes left |
| `DeviceTree.MagicAloneFails` | src/plugins/analysis/device_tree/internal/device_tree_utils.py:64-65 | a buffer that holds nothing but a magic raises a TypeError |
| `DeviceTree.ReportedAtMagics` | src/plugins/analysis/device_tree/internal/device_tree_utils.py:99-106 | each report is for a real magic, at least a header behind the one before |
| `DeviceTree.NoMagicSkipped` | src/plugins/analysis/device_tree/internal/device_tree_utils.py:104-106 | a magic at which it does not stop lies in the header of one at which it does |
| `DeviceTree.ReportedTreeFits` | src/plugins/analysis/device_tree/internal/device_tree_utils.py:68-75 | a reported tree lies in the buffer, and the compiler returns its text, which is not empty |
| `DeviceTreeFormat.HeaderRoundTrip` | src/plugins/analysis/device_tree/internal/device_tree_utils.py:20-29 | a header of any nine 32-bit numbers, written in the order of the specification with the most significant byte first, is read with exactly these fields, whatever follows |
| `DeviceTreeFormat.PropertiesRoundTrip` | src/plugins/analysis/device_tree/internal/device_tree_utils.py:33-61 | the properties of a structure block are read as they were written, whatever their values contain and whatever stands between them, if the marker of a property does not occur there |
| `DeviceTreeFormat.StripIs` | src/plugins/analysis/device_tree/internal/device_tree_utils.py:41 | only zeros are cut off a value, and all of them at either end |
| `DeviceTreeFormat.ModelIsLast` | src/plugins/analysis/device_tree/internal/device_tree_utils.py:130-134 | the model is the value of the last property with that name |
| `DeviceTreeFormat.DescriptionIsFirst` | src/plugins/analysis/device_tree/internal/device_tree_utils.py:135-136 | the description is the value of the first property with that name that is not empty |
| `DeviceTreeFormat.NameIsStored` | src/plugins/analysis/device_tree/internal/device_tree_utils.py:119 | a name is found by the first position at which it occurs, if no later one has the same position |
| `DeviceTreeFormat.StoredIsName` | src/plugins/analysis/device_tree/internal/device_tree_utils.py:119 | nothing else is found |
| `DeviceTreeFormat.LegalIsAccepted` | src/plugins/analysis/device_tree/internal/device_tree_utils.py:68-75 | a header with a legal version, offsets and sizes is accepted |
| `DeviceTreeFormat.TreeRoundTrip` | src/plugins/analysis/device_tree/internal/device_tree_utils.py:111-127 | a device tree that was written with these properties and names, and that the compiler accepts, is reported with its header and the model and description among its properties |

## Left out

- Processes, pipes, signals, timeouts, restarts of workers, shutdown and throttling: a job succeeds or fails at will, and a queue is a list of tasks from which any task may be taken.
- First-in-first-out order of the queues between stages: the pipeline properties hold for every order.
- The start time, duration and `hid` of status entries, `get_current_analyses_stats` and `clear_recently_finished` (src/scheduler/analysis_status.py:96-128).
- Version comparison, MIME lookup and blacklists (src/scheduler/analysis.py:310-409): arbitrary answers, including a lookup that loads the `file_type` result; a crash inside them is not modelled.
- The loop of `update_analysis_of_object_and_children` over the children in the database (src/scheduler/analysis.py:148-152); its status operation and the list of its root are modelled.
- PipelineCoverage.NoFirmwareGetsStuck: for runs that start from uploads, without new ones in between.
- Inherited `scheduled_analysis` lists are values: the original shares the list between parent and children until the scheduler replaces it.
- FirmwareDeletion.Database.DeleteFirmware: the count of removed path entries is not modelled, and the depth function is only there for the proof that the recursion ends, which needs an acyclic inclusion graph.
- UnpackingLocks.EntryWithoutFile: the check that rejects an entry all of whose roots or parents are gone (src/storage/db_interface_backend.py:48-55) is not modelled, so that after `delete_firmware` one of them has to be in the database again before the file is inserted.
- UnpackingLocks.CarefulRunIsSafe: about extracted files; an uploaded firmware is stored without a lock (src/intercom/back_end_binding.py:108). A check of the deletion task is one step.
- `set` and `get` of the Redis interface without queues, `dumps` and `loads`; values that look like a meta key are excluded, as serialised values never do.
- Order of children in a file tree, file trees for file objects without a root path, the filter by parent and the conversion for the web interface.
- Dictionaries of virtual paths are updated as values; the original changes the older one in place and returns it.
- Paths into JSON results (a path is one column), type coercion, and keys that name internal attributes of the entry classes; operators are parameters that may yield NULL. A dictionary is a value: a build returns what it has become, and two conditions do not share one.
- Paging and order of search results, and errors of the database while a query runs.
- Unsynchronised updates of the duration statistics, single precision and formatting; the variance stands for the standard deviation, its root.
- The CPE table, downloads and `import_cve`.
- Decoding of device tree strings to text; the device tree compiler is a parameter.

# Blix: verified algorithms and state machines

A Dafny model of the parts of Blix that are algorithms or state machines rather than
plumbing around a language model, with proofs of what they promise:

- **Graph search** (`MemoryGraph`, `PathSearch`, `HopSearch`, `GraphQueries`): the keyed edge
  store, the enumeration of simple paths, the three depth-bounded breadth-first loops and the
  queries built on them.
- **Task graphs and the agent loop** (`Tasks`, `TaskRuntime`, `Topology`, `Layers`,
  `AgentStates`, `Executor`, `ExecutorProperties`, `ExecutorHistory`): failure propagation,
  layering by dependency depth, and the think / execute / observe / reflect loop with retries.
- **Damped confidence propagation** (`Reals`, `Propagation`, `PropagationProperties`,
  `PropagationPaths`, `BeliefGraphs`).
- **Truth maintenance** (`TruthLedger`, `Truth`): supersession of records and the
  contradiction resolver.
- **Tracked state over time** (`Text`, `Timeline`, `TimelineProperties`, `StateTracker`,
  `TemporalGraph`): snapshots, the transition log, and the temporal graph driven by the same
  assignments.
- **The background queue** (`Background`, `BackgroundProperties`, `BackgroundRetries`,
  `BackgroundCalls`, `BackgroundProcessor`): a bounded queue, workers, retries and a durable
  overflow file, as interleaved atomic steps.
- **Learned scoring weights** (`Scoring`, `Descent`, `Weights`): the score, coordinate descent on
  the ranking loss, and fitting with random restarts.
- **Index and arithmetic cores** (`EmbeddingIndex`, `EmbeddingStore`, `Calibration`,
  `CalibrationReports`, `Profile`).

`Common` holds optional values, facts about sequences, and the stable sort.

Code that changes state is modelled by classes and methods with loops; each is proved against
a function on values, and the properties of whole runs are lemmas about those functions.
Floating-point numbers are reals, timestamps are integers passed in, and tools, verification,
encoders and classification are arbitrary functions or arguments.

## Where the code and its documentation differ

The model follows the code. These differences are stated as lemmas or contracts:

- `infer_transitive` with a depth below one still looks one hop ahead: it goes further than its
  depth exactly when an edge leaves the start (`GraphQueries.LooksAheadIff`).
- Edge keys join three texts with a colon, so two different edges can be merged
  (`MemoryGraphs.KeysCanCollide`). A key is safe from every other edge exactly if no relation name
  stands between two colons in its source id (with a colon after it) or its target id (with a
  colon before it) (`MemoryGraphs.KeyIdentifiesIff`).
- `merge` of an id with itself makes the record supersede itself, while `replace` of an id by
  itself is harmless (`TruthLedger.SoundKeepsIff`, `Truth.SameIdBreaksOnlyMerge`).
- `resolve(id, SUPERSEDED)` keeps supersession sound only if the pointer stored earlier already
  leads away from the record (`TruthLedger.SoundKeepsIff`, `TruthLedger.ResolveCanBreak`).
- A background processor, durable or not, can lose one kind of task: a failed one whose retry finds
  the queue full. Some run does so exactly if the queue is bounded and a second thread is there to
  fill it (`BackgroundRetries.RefusedIff`, `BackgroundRetries.MayRefuseIff`).
- A rebuild whose texts cannot be encoded keeps the old rows but drops the queued ones, and
  `remove` does not see queued rows (`EmbeddingIndex.FollowsListIff`, `EmbeddingIndex.QueueDeparts`).
- The last calibration bucket also takes the cases beyond its label
  (`Calibration.LabelledIff`, `Calibration.LabelCanMiss`).
- `fit` does not compare with the weights in use, so it can make them worse, even with the default
  step and a start that the sampler returns (`Weights.FitCanBeWorse`). It does not if some start is
  no worse (`Weights.FitNoWorseIf`), and where no start has a step to take this is exact
  (`Weights.FitNoWorseIff`). Since the descent moves every weight by whole thirds of the step
  (`Descent.DescendAligned`), starts off that grid never reach the best weights: from such starts
  `fit` is never worse, whatever the weights in use, exactly if the winners lead by the same amount
  in all four components (`Weights.FitNeverWorseIff`).
- `best_weights` is never set (`Weights.BestWeightsNeverReported`).
- A list field of the profile can receive the same new item twice in one call
  (`Profiles.RepeatsInOneCall`): it stays without repeats exactly if every addition that comes twice
  is empty or in the list already (`Profiles.DistinctIff`).
- The cost model counts a retried call twice (`ExecutorProperties.HeadsKeep`), and
  `ExecutorConfig.max_task_retries` is never read: the bound is that of the reflection loop.

## Model

| member | source | states |
|---|---|---|
| MemoryGraphs.MemoryGraph.AddEdge | core/memory_graph.py:189-205 | the store gains the edge, or the edge stored under its key is merged with it in place; keys stay unique |
| MemoryGraphs.Select | core/memory_graph.py:207-221 | exactly the stored edges that pass every given filter, none twice |
| MemoryGraphs.StoreHoldsJoins | core/memory_graph.py:189-205 | after any run of additions every key added has one edge, with the best confidence and all sources of its additions |
| MemoryGraphs.KeyIdentifies | core/memory_graph.py:81-83 | without colons in source id and relation, the key identifies the triple |
| MemoryGraphs.KeyIdentifiesIff | core/memory_graph.py:44-83 | among edges whose relations are colon-free kinds, an edge shares its key with no other triple exactly if its ids cannot be split again at a kind between colons |
| MemoryGraphs.KeysCanCollide | core/memory_graph.py:81-83 | with a colon inside an id two different edges share a key and are merged |
| PathSearch.RenderInjective | core/graph_reasoner.py:106-112 | a reported path determines the edges it was made of |
| PathSearch.ProductConcat | core/graph_reasoner.py:106-112 | the confidence of a path is the product over its edges, however the path is cut in two |
| PathSearch.TreeSound | core/graph_reasoner.py:92-113 | everything the search reports below a partial path is a simple path to the target within the depth |
| PathSearch.TreeComplete | core/graph_reasoner.py:92-113 | every simple path within the depth that extends a partial path is reported below it |
| PathSearch.TreeOnce | core/graph_reasoner.py:92-113 | no path is reported twice |
| PathSearch.GraphReasoner.Explore | core/graph_reasoner.py:90-113 | the queue loop terminates and reports exactly the leaves of the search tree |
| PathSearch.GraphReasoner.FindPaths | core/graph_reasoner.py:78-115 | exactly the simple paths of at most max_depth hops, each once, with the product of its confidences, ordered by confidence and then length; nothing for an unknown source |
| HopSearch.DistanceUnique | core/graph_reasoner.py:171-181 | a node has at most one hop distance |
| HopSearch.Finished | core/graph_reasoner.py:173-181 | when the queue is empty, the recorded numbers are the exact hop distances of exactly the nodes within the depth |
| HopSearch.RunExact | core/graph_reasoner.py:171-181 | the loop, run from any state that keeps its invariant, ends with the exact distances, discovered nearest first |
| HopSearch.HopDistances | core/graph_reasoner.py:171-181 | exactly the nodes within the depth, each with its shortest hop distance |
| GraphQueries.ShortestWalk | core/graph_reasoner.py:117-122 | a node at distance k ends a walk of k hops without repeated nodes |
| GraphQueries.DistanceIsShortestSimplePath | core/graph_reasoner.py:117-122 | hop distance is the least number of hops of a simple path |
| GraphQueries.FirstShortestIsBest | core/graph_reasoner.py:122-122 | the first shortest path of the sorted list is the most confident of the shortest |
| GraphQueries.ShortestPath | core/graph_reasoner.py:117-122 | a path of fewest hops, most confident among those, if there is one of at most four hops; its length is the hop distance |
| GraphQueries.RelatedEntities | core/graph_reasoner.py:200-224 | exactly the known nodes within the depth, except the start, each once with its hop distance, nearest first |
| GraphQueries.BestIsProximity | core/graph_reasoner.py:184-192 | the score accumulated over the discovered nodes is the best decay power over hop distances alone |
| Reals.PowerAdds | core/graph_reasoner.py:184-192 | the decay over so many hops and then so many more is the product of both, and over one hop the decay itself |
| GraphQueries.RankMemories | core/graph_reasoner.py:151-195 | each memory once, with the proximity of the nearest node that an edge mentioning it touches, best first |
| GraphQueries.CognitiveQueryEngine.InferTransitive | core/cognitive_query_engine.py:354-401 | nothing for an unknown start or relation; otherwise the labels of exactly the nodes reachable over usable edges within the depth, which counts as one if lower, each label once, in the order of the distance of its first node |
| GraphQueries.UsableAre | core/cognitive_query_engine.py:382-387 | the edges followed are those of the relation, of at least the minimum confidence, that lead to a known node |
| GraphQueries.LooksAheadIff | core/cognitive_query_engine.py:380-401 | the search goes further than its depth exactly if the depth is below one and an edge leaves the start |
| GraphQueries.LooksAhead | core/cognitive_query_engine.py:380-401 | it happens with depth zero and one edge |
| Tasks.FirstReadyIsFirst | agents/types.py:163-174 | no task before the one chosen is ready |
| Tasks.TaskGraph.ReadyTasks | agents/types.py:163-169 | exactly the pending tasks whose dependencies are completed, in order |
| Tasks.TaskGraph.NextTask | agents/types.py:171-174 | the first ready task, or none |
| Tasks.TaskGraph.IsComplete | agents/types.py:180-183 | whether every task is completed or skipped |
| Tasks.TaskGraph.HasFailures | agents/types.py:185-187 | whether some task failed |
| Tasks.TaskGraph.AddTask | agents/types.py:154-155 | the task is appended; the graph is without repeated ids after the call exactly if it was before and the id is new |
| Tasks.CountUpdate | agents/types.py:196-200 | changing one task moves it from one status count to another |
| TaskRuntimes.StableIsPropagated | agents/task_runtime.py:113-123 | once a pass finds nothing, exactly the tasks that reach a failed or blocked one through pending ones are blocked |
| TaskRuntimes.PropagationIsFinal | agents/task_runtime.py:99-129 | after propagation nothing is left to block |
| TaskRuntimes.DirectDependentIsBlocked | agents/task_runtime.py:113-123 | a pending task that depends on a failed or blocked one ends blocked, with its error kept or else a note, and is otherwise unchanged |
| TaskRuntimes.OnlyPendingIsBlocked | agents/task_runtime.py:116-119 | a task that is not pending is left alone |
| TaskRuntimes.PropagationOnce | agents/task_runtime.py:99-129 | a second propagation changes nothing |
| TaskRuntimes.DoomIgnoresOrder | agents/task_runtime.py:116-123 | the tasks to block do not depend on the order of the list |
| TaskRuntimes.SettledPropagates | agents/task_runtime.py:114-123 | scanning until stable reaches the least fixpoint |
| TaskRuntimes.TaskRuntime.PropagateFailures | agents/task_runtime.py:99-129 | blocks exactly the doomed tasks and returns the drop in pending tasks |
| TaskRuntimes.TaskRuntime.Scan | agents/task_runtime.py:115-123 | one pass, in which the set of failed and blocked ids grows while it is used |
| TaskRuntimes.TaskRuntime.NextBatch | agents/task_runtime.py:77-88 | after propagation, the first max_parallel ready tasks, none depending on another; the statistics follow |
| TaskRuntimes.BatchIsFirstReady | agents/task_runtime.py:77-88 | a batch is as long as there are ready tasks, up to max_parallel, and lists them from the first on |
| Topology.LevelIsLongestChain | agents/task_runtime.py:158-167 | the newcomers of a level are the ids whose longest dependency chain has exactly that many steps inside the graph |
| Topology.CycleNeverPlaced | agents/task_runtime.py:158-163 | an id on a cycle is never placed |
| Topology.ClosedSetHasCycle | agents/task_runtime.py:160-163 | a set of ids each depending on another of the set contains a cycle |
| Topology.StalledCoversIff | agents/task_runtime.py:158-167 | a stall has placed everything exactly if nothing dangles and nothing is cyclic |
| Layers.TopologicalBatches | agents/task_runtime.py:148-169 | the batches are the levels in dictionary order, each id once, complete up to a stall |
| Layers.KeyOrderGrows | agents/task_runtime.py:154-154 | the dictionary lists ids in the order in which they first occur |
| Layers.PickConcat | agents/task_runtime.py:159-167 | each batch keeps that order |
| Layers.BatchIsDepth | agents/task_runtime.py:158-167 | a task is in batch k exactly if its longest dependency chain has k steps |
| Layers.DependenciesEarlier | agents/task_runtime.py:159-165 | every dependency of a placed task is in a strictly earlier batch |
| Layers.PlacedIffSound | agents/task_runtime.py:158-167 | all tasks are placed exactly if there is no cycle and no dangling dependency |
| AgentStates.AddOnce | agents/state.py:97-104 | the id is listed afterwards, nothing else changes, and a list without repeats stays so |
| AgentStates.AgentState.RecordCompletion | agents/state.py:97-100 | the id is added once to the completed ids, and nothing else changes |
| AgentStates.AgentState.RecordFailure | agents/state.py:102-107 | the id is added once to the failed ids, the failure record is appended, and nothing else changes |
| AgentStates.AgentState.RecordObservation | agents/state.py:93-95 | the observation is appended and its call counted |
| AgentStates.AgentState.RecordReliability | agents/state.py:166-170 | the tool's successes or failures rise by one |
| Executors.TakeStep | agents/executor.py:217-364 | one turn of the loop is one attempt at the first ready task, with its status and error text, history entry, failure record, counters and agent state |
| Executors.RunLoop | agents/executor.py:217-364 | the loop ends in the state the loop function gives, for the reason it gives |
| Executors.Execute | agents/executor.py:171-371 | counters, steps, success flag and agent state of a whole run |
| ExecutorProperties.InitialHead | agents/executor.py:217-217 | the head invariant holds at the start of a run |
| ExecutorProperties.LoopKeeps | agents/executor.py:217-364 | if the head invariant holds at the start it holds at the end: no task is in progress, attempted tasks have completed dependencies, counters equal status counts, reliability totals equal history entries per tool, failure records equal skips, and steps are history entries plus skips |
| ExecutorProperties.HeadIsLimitedRun | agents/executor.py:217-228 | the state at the head after n steps is the one in which the loop ends under the step limit n |
| ExecutorProperties.HeadsKeep | agents/executor.py:217-364 | the head invariant holds at every head of every run |
| ExecutorProperties.StepsBounded | agents/executor.py:217-228 | for any step limit the loop takes at most n * max(1, max_retries) steps before it stops by itself |
| ExecutorProperties.LoopShape | agents/executor.py:217-228 | tasks keep ids and dependencies, and the loop ends for the reason it gives |
| ExecutorProperties.StuckRunLeavesOnlyStarved | agents/executor.py:221-228 | a run stopped for lack of a ready task on a sound graph leaves pending only tasks that depend on a failed or skipped one |
| ExecutorProperties.UntroubledRunFinishes | agents/executor.py:217-371 | with steps to spare, a run on a sound graph without failures and skips completes every task |
| ExecutorHistory.EntriesFollow | agents/reflection_loop.py:155-173 | in every run, entry by entry: a success that verification lets stand, of at least the threshold, is accepted; otherwise, while the attempt is below max_retries, it is accepted only unrefuted, without a retry suggested and above 0.1, and else retried; from max_retries on it is given up; quality, tool and note are those of the step's answer |
| ExecutorHistory.CompletionIsEarned | agents/executor.py:317-340 | a completed task was accepted last, on such an answer |
| ExecutorHistory.FailureIsEarned | agents/executor.py:300-332 | a failed task has had at least max_retries attempts, the last without a good answer, and its error names that number and the note of that step |
| ExecutorHistory.GoodAnswersComplete | agents/executor.py:217-371 | if the first n answers are good, a sound graph of n tasks is completed in exactly n steps, with success true |
| ExecutorHistory.BooksAreKept | agents/executor.py:217-364 | the history lists exactly the steps with a tool, in order and under the titles of their tasks, and there is one failure record, with title, tool and error text, for each entry that gives up |
| ExecutorHistory.DecimalReads | agents/executor.py:302-302 | the number of attempts can be read back from the error text |
| Propagation.AppliedAt | causality/belief_dependency_graph.py:198-201 | where no node is changed twice, each changed confidence is clamped once and all others stay |
| Reals.ClampIsNearest | causality/belief_dependency_graph.py:200-200 | clamping moves a confidence to the nearest number in [0, 1] |
| Propagation.RippleOnce | causality/belief_dependency_graph.py:181-209 | each node is changed at most once and never a visited one |
| PropagationProperties.TraversalShape | causality/belief_dependency_graph.py:172-214 | never the source, at most five hops in rising order, every delta, before clamping, within the size of the first times damping to the power of hops less one |
| PropagationPaths.EveryChangeIsTransmitted | causality/belief_dependency_graph.py:172-209 | every change at hop h has a path of h stored edges from the source, one to five, and is the delta times their strengths times damping to the power h-1, negated exactly if an odd number of them weakens |
| PropagationPaths.DirectDependentsChange | causality/belief_dependency_graph.py:185-206 | a delta of at least 0.01 changes every known dependent of the source but itself, at hop one, over the first edge to it |
| PropagationPaths.LoudChangesSpread | causality/belief_dependency_graph.py:187-209 | a change short of five hops that is at least 0.01 after damping reaches every known dependent of its node |
| PropagationPaths.ConfidencesAfter | causality/belief_dependency_graph.py:197-201 | afterwards every confidence is the old one, or the old one moved along such a path and clamped |
| PropagationPaths.DependentAfter | causality/belief_dependency_graph.py:197-201 | a known dependent of the source moves with the delta if the first edge to it supports and against it if that edge weakens, by the strength of the edge |
| PropagationProperties.RippleReversed | causality/belief_dependency_graph.py:185-209 | the opposite delta takes the same way and changes the same nodes by the opposite amounts |
| PropagationProperties.UndoIff | causality/belief_dependency_graph.py:172-214 | propagating a delta and then its opposite restores all confidences exactly if each single change does |
| PropagationProperties.UndoUnlessClamped | causality/belief_dependency_graph.py:172-214 | for deltas of at most one, the undo works exactly if nothing was clamped |
| PropagationProperties.AppliedStaysUnit | causality/belief_dependency_graph.py:199-200 | confidences stay in [0, 1] |
| BeliefGraphs.LoopIsTraversal | causality/belief_dependency_graph.py:181-209 | the queue loop makes exactly the changes of the traversal, in its order |
| BeliefGraphs.RenderedAt | causality/belief_dependency_graph.py:203-207 | a result reports the values before and after the whole propagation |
| BeliefGraphs.ReportsAreMild | causality/belief_dependency_graph.py:172-214 | a confidence reported at hop h, one to five, changed by at most the size of the delta times damping to the power h-1, and the source is not reported |
| BeliefGraphs.BeliefDependencyGraph.AddDependency | causality/belief_dependency_graph.py:148-158 | strength clamped, edge replaced or appended under its id |
| BeliefGraphs.EdgeIdTells | causality/belief_dependency_graph.py:148-158 | of the edges out of one belief the id tells relation and target apart |
| BeliefGraphs.PutReplaces | causality/belief_dependency_graph.py:148-158 | an edge between the same beliefs in the same relation is replaced where it stands |
| BeliefGraphs.PutAppends | causality/belief_dependency_graph.py:148-158 | without an edge of its id the new edge comes last |
| BeliefGraphs.PutKeepsDistinct | causality/belief_dependency_graph.py:148-158 | no two edges ever have the same id |
| BeliefGraphs.BeliefDependencyGraph.Propagate | causality/belief_dependency_graph.py:172-214 | confidences and results are those of the traversal |
| BeliefGraphs.PrincipleGraph.Propagate | causality/principle_graph.py:153-186 | what the belief version does on the same edges, all supporting |
| TruthLedger.RepointKeeps | core/truth_manager.py:175-188 | superseding one record by one that is not superseded keeps all chains of supersession finite |
| TruthLedger.SinkKeeps | core/truth_manager.py:219-224 | superseding by hand is sound if the stored pointer leads to an end without coming back |
| TruthLedger.SinkNeeds | core/truth_manager.py:219-224 | and only then |
| TruthLedger.SoundKeepsIff | core/truth_manager.py:157-249 | each operation keeps every chain ending at a registered record that is not superseded exactly if a condition on its arguments holds |
| TruthLedger.ResolveCanBreak | core/truth_manager.py:219-224 | a lone record resolved to superseded has no end to its chain |
| TruthLedger.PlainRunsEnd | core/truth_manager.py:175-239 | after any run of such operations every chain ends |
| TruthLedger.NoCycle | core/truth_manager.py:175-210 | then no record supersedes itself, however many records lie between |
| TruthLedger.HistoryKept | core/truth_manager.py:245-249 | histories only grow, no status changes without an entry, and the last entry is the status |
| TruthLedger.ReplaceOutcome | core/truth_manager.py:175-188 | the old record is superseded by the new one, which is active, each with one more history entry and the note |
| TruthLedger.MergeOutcome | core/truth_manager.py:190-210 | the given id survives, or else the first; the other of the two is superseded by and merged into it |
| TruthLedger.ConflictOutcome | core/truth_manager.py:226-233 | both records are conflicting, with their pointers as before |
| TruthLedger.AssignOutcome | core/truth_manager.py:212-239 | archiving, ending and resolving assign archived, historical and the given status, with pointers as before |
| Truth.TruthManager.Ensure | core/truth_manager.py:157-162 | registers an unknown id with the given status and leaves everything else alone |
| Truth.TruthManager.SetStatus | core/truth_manager.py:245-249 | changes one record's status and appends to its history |
| Truth.TruthManager.Replace | core/truth_manager.py:175-188 | the book after the call is that of the operation on values |
| Truth.TruthManager.Merge | core/truth_manager.py:190-210 | the same for merging, with the survivor returned |
| Truth.TruthManager.MarkConflicting | core/truth_manager.py:226-233 | the same for marking two records |
| Truth.TruthManager.Archive | core/truth_manager.py:212-217 | the same for archiving |
| Truth.TruthManager.MarkHistorical | core/truth_manager.py:235-239 | the same for marking historical |
| Truth.TruthManager.Resolve | core/truth_manager.py:219-224 | the same for assigning a status |
| Truth.CompareEvidence | core/contradiction_resolver.py:257-284 | a claim wins exactly if it has more sources and more confidence |
| Truth.EvidenceIsImpartial | core/contradiction_resolver.py:278-284 | swapping the claims swaps the winner |
| Truth.WeighIsImpartial | core/contradiction_resolver.py:286-319 | and leaves the same book |
| Truth.ContradictionResolver.Resolve | core/contradiction_resolver.py:184-251 | the truth operations of each case, and the ruling returned |
| Truth.ContradictionResolver.TryResolveConflict | core/contradiction_resolver.py:286-319 | a replacement in favour of the dominating claim, or nothing |
| Truth.SettledAsClassified | core/contradiction_resolver.py:209-251 | of two distinct records the first survives a merge; a replacement keeps the one named newer, or else the first if it is at least as confident and the second if it is more; parallel truths stay as they are; a conflict marks both |
| Truth.WeighedByEvidence | core/contradiction_resolver.py:257-319 | more sources and more confidence put a claim in force and supersede the other; short of both nothing changes |
| Truth.OthersUntouched | core/contradiction_resolver.py:209-251 | no other record changes |
| Truth.RunsEnd | core/contradiction_resolver.py:184-319 | over any run of resolver calls and truth operations supersession never cycles and ends at a registered record that is not superseded |
| Truth.SameIdBreaksOnlyMerge | core/contradiction_resolver.py:209-216 | for two claims under one id only a merge breaks the chains |
| Text.OrderOfStripping | core/state_transition.py:262-263 | lowering before or after stripping comes to the same |
| Text.NormTwice | graph/temporal_graph.py:150-151 | normalising twice changes nothing more |
| Text.LowerMergesCase | core/state_transition.py:262-263 | two texts are lowered to the same exactly if they differ at most in the case of letters |
| Text.LowerHasNoCapitals | core/state_transition.py:262-263 | a lowered text has no capitals |
| Text.StripDrops | core/state_transition.py:262-263 | stripping drops white space at both ends and leaves none there |
| TimelineProperties.RunCoupled | core/state_transition.py:166-221 | after any run with non-decreasing times each key's snapshots adjoin in log order with only the last active, and its log chains |
| TimelineProperties.NeverTwoAtOnce | core/state_tracker.py:84-94 | two snapshots of a key never cover the same time, and one at most is active |
| TimelineProperties.AtTimeReplaysLog | core/state_tracker.py:237-246 | at_time gives the value of the last transition logged at or before the time, or nothing |
| TimelineProperties.CurrentEndsLog | core/state_tracker.py:219-230 | the current value is that of the last transition |
| TimelineProperties.ReinforcingKeepsCoupled | core/state_transition.py:189-199 | reasserting a value changes no interval and logs nothing |
| Timeline.ConfirmedGrows | core/state_transition.py:189-199 | each confirmation adds the increment to the confidence until it is one, and lists its source once |
| TimelineProperties.AtTimeIsLastAssigned | core/state_tracker.py:237-246 | at_time gives, up to normalisation, the last value assigned by then |
| Timeline.NewestIsLatest | core/state_tracker.py:219-246 | the snapshot chosen is picked and none picked starts later; none is chosen exactly if none is picked; of those with the same start the first is chosen |
| TemporalGraphs.GraphTellsAssignments | graph/temporal_graph.py:153-216 | what the graph shows at a time is the last target assigned by then |
| TemporalGraphs.GraphAgreesWithTracker | graph/temporal_graph.py:153-216 | driven by the same assignments, all relations of a key covering a time share the normalised value of at_time, and there is one exactly if at_time finds a snapshot |
| TemporalGraphs.FoundAsShown | graph/temporal_graph.py:207-216 | the same of the edges a point-in-time query returns |
| TemporalGraphs.TemporalGraph.CloseOthers | graph/temporal_graph.py:173-181 | closes exactly the active edges with the same source and relation but another target |
| TemporalGraphs.TemporalGraph.AddRelation | graph/temporal_graph.py:153-192 | the edges after the call are those of the operation on values |
| TemporalGraphs.TemporalGraph.RelationsAtTime | graph/temporal_graph.py:207-216 | exactly the edges of the label, and relation if given, that cover the time |
| StateTrackers.StateTracker.Record | core/state_tracker.py:168-199 | appends a normalised snapshot and closes nothing |
| StateTrackers.StateTracker.CloseActive | core/state_tracker.py:201-213 | closes exactly the active snapshots of the key and returns them in order |
| StateTrackers.StateTracker.Current | core/state_tracker.py:219-230 | an active snapshot of the key such that none starts later, or None exactly if none is active |
| StateTrackers.StateTracker.AtTime | core/state_tracker.py:237-246 | a covering snapshot of the key such that none starts later, or None exactly if none covers the time |
| StateTrackers.StateTransitionEngine.Transit | core/state_transition.py:166-221 | snapshots and log after the call are those of the operation on values |
| Background.GainKept | core/background_processor.py:163-318 | whatever is added up over all tasks in all places changes only by a submission or a further attempt |
| Background.LockStays | core/background_processor.py:223-253 | the overflow lock belongs to the one draining thread, and the file stays what that thread has read |
| BackgroundProperties.OnePlaceStays | core/background_processor.py:163-318 | every submitted task stays in exactly one place |
| BackgroundProperties.TriesStay | core/background_processor.py:297-299 | a task's attempt counter is the number of handler calls made for it |
| BackgroundProperties.HandlerCallsBounded | core/background_processor.py:48-66 | no handler is called for a task more often than its max_attempts, or once if that is less |
| BackgroundProperties.AttemptsAreUsed | core/background_processor.py:65-66 | in any run a task given up has used its max_attempts, and one queued again has attempts left |
| BackgroundProperties.CallsCountedStays | core/background_processor.py:299-304 | processed and failed account for every handler call that has ended |
| BackgroundProperties.SpillsCountedStays | core/background_processor.py:179-183 | overflowed counts the spilled tasks, but for submitters still to count |
| BackgroundProperties.WithinCapacityStays | core/background_processor.py:175-190 | the queue stays within its bound and a durable processor drops no submission |
| BackgroundProperties.InvAlways | core/background_processor.py:163-318 | all this holds after every interleaving of submitters, workers and drains |
| BackgroundProperties.NothingLost | core/background_processor.py:163-318 | with an overflow file no interleaving loses or duplicates a task, or calls a handler more often than the task's max_attempts, three for a task submitted here |
| BackgroundProperties.QuietMeansEnded | core/background_processor.py:163-318 | when all is idle and empty, every task ended in exactly one way |
| BackgroundProperties.QueuedOnce | core/background_processor.py:210-257 | a queued task is queued once and is neither in the file nor carried nor ended |
| BackgroundRetries.RefusedIff | core/background_processor.py:313-318 | a step gives up a task with attempts left exactly if it is its retry and the queue is full |
| BackgroundRetries.MayRefuseIff | core/background_processor.py:163-318 | from a start, some run gives up such a task exactly if the capacity is not zero and there are at least two threads |
| BackgroundProcessors.BackgroundProcessor.Submit | core/background_processor.py:163-208 | an undisturbed call: queued, spilled or dropped, as its atomic steps say |
| BackgroundProcessors.BackgroundProcessor.WorkOnce | core/background_processor.py:274-318 | an undisturbed turn of the worker loop: what becomes of the front task and the counters |
| BackgroundProcessors.BackgroundProcessor.DrainOverflow | core/background_processor.py:210-257 | an undisturbed drain requeues in file order what fits, keeps the rest in order, and removes an empty file |
| EmbeddingIndex.HitsAre | core/embedding_store.py:361-365 | a hit is a row at its similarity, at or above the threshold, and conversely |
| EmbeddingIndex.DotSplits | core/embedding_store.py:361-361 | the dot product adds up over the coordinates |
| EmbeddingIndex.SentenceSimilarity | core/embedding_store.py:334-361 | with a sentence encoder a row's similarity is the dot product of its vector and the query's |
| EmbeddingIndex.FittedSimilarity | core/embedding_store.py:180-213 | with TF-IDF rows and query are compared in one fit of all of them, which takes two texts |
| EmbeddingIndex.HitsInListOrder | core/embedding_store.py:361-365 | hits are collected in the order of their rows |
| EmbeddingIndex.ScanIsBest | core/embedding_store.py:361-367 | the most similar rows first; nothing cut off is more similar than what is returned; ties in list order |
| EmbeddingIndex.FollowsListIff | core/embedding_store.py:276-403 | an operation does to the index what it does to a list exactly unless it removes a queued row or rebuilds in vain |
| EmbeddingIndex.QueueDeparts | core/embedding_store.py:303-403 | with TF-IDF a first text cannot be removed, and rebuilding from one text loses both |
| EmbeddingIndex.SbertIsPlainList | core/embedding_store.py:234-249 | with a sentence encoder the index is the plain list of its operations |
| EmbeddingIndex.SearchForgetsHistory | core/embedding_store.py:322-372 | indexes with the same rows answer alike, however they came about |
| EmbeddingStores.EmbeddingStore.FlushPending | core/embedding_store.py:221-270 | queued rows are committed if all rows can be encoded; ids, corpus and matrix rows stay together |
| EmbeddingStores.EmbeddingStore.Add | core/embedding_store.py:276-301 | the row is queued and flushed; the first position of the id is returned if it went in |
| EmbeddingStores.EmbeddingStore.Remove | core/embedding_store.py:303-320 | drops the first committed row of the id from ids, corpus and matrix |
| EmbeddingStores.EmbeddingStore.Compare | core/embedding_store.py:334-359 | matrix times query is the similarity of every committed row, after refitting in TF-IDF mode |
| EmbeddingStores.EmbeddingStore.Search | core/embedding_store.py:322-372 | flushes, then answers exactly as a scan of the committed list |
| EmbeddingStores.EmbeddingStore.Rebuild | core/embedding_store.py:374-403 | replaces the rows if they can be encoded; drops the queue in any case |
| Calibration.FillPartitions | evaluation/confidence_metrics.py:71-75 | the buckets together hold every case once |
| Calibration.FillSorts | evaluation/confidence_metrics.py:73-75 | a case is in a bucket exactly if the bucket has its index |
| Calibration.BucketCountIsNearest | evaluation/confidence_metrics.py:71-71 | the number of buckets is one, or the whole number nearest to one divided by the size |
| Calibration.EvenBuckets | evaluation/confidence_metrics.py:71-71 | a size of 1/m gives m buckets |
| Calibration.EvenlyLabelled | evaluation/confidence_metrics.py:71-81 | then every case below one lies within the label of its bucket, and a case at one is in the last bucket |
| CalibrationReports.ReportedIff | evaluation/confidence_metrics.py:71-88 | for a size of 1/m exactly the intervals from i/m to (i+1)/m that hold a case are reported, each with its bounds, the number and mean confidence of its cases and the share of correct ones |
| Calibration.LabelledIff | evaluation/confidence_metrics.py:71-81 | a case lies within its bucket's label exactly if it is below the end of the last bucket |
| Calibration.LabelCanMiss | evaluation/confidence_metrics.py:71-81 | with size 0.3 a confidence of 0.95 is counted in a bucket labelled up to 0.9 |
| Calibration.SamplesAddUp | evaluation/confidence_metrics.py:77-88 | the sample counts add up to the number of cases |
| Calibration.CauchySchwarz | evaluation/confidence_metrics.py:51-60 | the square of the summed gaps is at most the number of cases times the summed squares |
| CalibrationReports.ErrorIsNetGaps | evaluation/confidence_metrics.py:97-102 | for such a size the calibration error is, per case, the sum over the intervals of the gap between the confidences and the number of correct cases |
| CalibrationReports.BrierVanishesIff | evaluation/confidence_metrics.py:51-60 | the Brier score is zero exactly if every case is certain and right |
| CalibrationReports.GuessingScoresAQuarter | evaluation/confidence_metrics.py:52-56 | always claiming one half scores a quarter |
| Calibration.CalibrationErrorSquared | evaluation/confidence_metrics.py:51-102 | before rounding, the square of the calibration error is at most the Brier score |
| Calibration.ReportedErrorSquared | evaluation/confidence_metrics.py:51-102 | as reported to four digits the same holds up to half a unit of the last digit on either side |
| Calibration.CalibrationBuckets | evaluation/confidence_metrics.py:62-88 | one result for every bucket that is not empty, with all cases counted |
| Calibration.ExpectedCalibrationError | evaluation/confidence_metrics.py:90-102 | the weighted mean gap rounded to four digits, zero without cases, bounded by the reported Brier score |
| Scoring.ScoreIsConvex | core/memory_scorer.py:116-153 | on the simplex the score lies between the least and the greatest component and the last clamp changes nothing |
| Scoring.PureScores | core/memory_scorer.py:140-143 | with all weight on one component the score is that component: relevance and importance clamped, or one half if missing, the recency, and the share of accesses, at most one |
| Scoring.ScoreIsWeightedMean | core/memory_scorer.py:145-151 | on the simplex a score is the weighted mean of the four pure scores |
| Scoring.LossIsLinear | core/weight_learner.py:217-244 | between simplex weights the ranking loss is linear: the number of known pairs less the weighted lead of the winners |
| Descent.Perturb | core/weight_learner.py:374-398 | the shifted weights, still on the simplex, or nothing if one leaves [0, 1]; normalising changes nothing |
| Descent.QuietPassIff | core/weight_learner.py:200-214 | a pass changes nothing exactly at a local optimum |
| Descent.PassOrder | core/weight_learner.py:199-212 | the coordinates are tried in the order relevance, importance, recency, frequency |
| Descent.ImprovesIff | core/weight_learner.py:203-212 | a step lowers the loss exactly if it stays in range and goes along the slope of the winners' lead |
| Descent.LocallyBestIff | core/weight_learner.py:200-214 | weights are a local optimum exactly if every step along a slope of the winners' lead leaves the range |
| Descent.EarlyStopIsLocallyBest | core/weight_learner.py:200-215 | stopping before the last pass means no valid single step lowers the loss |
| Descent.DescendStays | core/weight_learner.py:190-215 | the descent ends no better than it started exactly if the start was a local optimum |
| Descent.DescendAligned | core/weight_learner.py:190-215 | a descent moves every weight by a whole number of thirds of the step |
| Weights.PairwiseWeightLearner.CoordinateDescent | core/weight_learner.py:190-215 | on the simplex, never above the starting loss, locally best if stopped early |
| Weights.PairwiseWeightLearner.OnePass | core/weight_learner.py:201-212 | the tracked loss is the loss of the current weights, and improving means changing |
| Weights.FittedIsBest | core/weight_learner.py:169-181 | the fitted weights are no worse than any restart or any restart's start |
| Weights.RandomWeights | core/weight_learner.py:350-358 | sampled weights lie on the simplex |
| Weights.SampleIsCuts | core/weight_learner.py:350-358 | draws that cut off pieces of at least 0.05 give these pieces as weights, in whatever order they come |
| Weights.SampleHasFloor | core/weight_learner.py:355-357 | no sampled weight is below 0.05 / 1.2 |
| Weights.FitNoWorseIf | core/weight_learner.py:169-181 | fitting is no worse than the weights in use if some start is no worse |
| Weights.FitNoWorseIff | core/weight_learner.py:169-181 | where no start has a step along the winners' lead to take, fitting is no worse exactly if some start is no worse |
| Weights.FitFallsShort | core/weight_learner.py:169-181 | where every start has a weight off the leading component that the descent's step cannot bring to zero, fitting replaces the best weights by worse ones |
| Weights.FitNeverWorseIff | core/weight_learner.py:169-181 | from starts off the descent's grid, fitting is never worse than the weights in use exactly if the winners' lead is the same in all components |
| Weights.FitCanBeWorse | core/weight_learner.py:169-181 | it is worse for three pairs, the default step and a start the sampler returns, however many passes are made |
| Weights.PairwiseWeightLearner.Fit | core/weight_learner.py:145-188 | with fewer than three feedback pairs nothing changes; otherwise the scorer gets the best restart from the sampled starts and the log its negated loss |
| Weights.BestWeightsNeverReported | core/weight_learner.py:69-75 | the log never reports best weights |
| Weights.LogKeepsFits | core/weight_learner.py:69-75 | the log keeps the weights and the metric of every fit |
| Profiles.RunsSound | core/profile_evolver.py:123-217 | after any run of updates the audit trail replays to the profile, old values and confidences are truthful, no earlier entry of a scalar is surer than its stored confidence, and the version counts the updates that returned True |
| Profiles.ScalarStepSound | core/profile_evolver.py:151-170 | a scalar step keeps the trail truthful |
| Profiles.ListStepSound | core/profile_evolver.py:172-188 | a list step keeps the trail truthful |
| Profiles.NewItemsAre | core/profile_evolver.py:176-176 | the new items are the additions that are not empty and not in the list |
| Profiles.DistinctIff | core/profile_evolver.py:172-188 | a list without repeats stays so exactly if every addition that comes twice is empty or in the list already |
| Profiles.RepeatsInOneCall | core/profile_evolver.py:172-188 | one call can repeat an item |
| Profiles.PreparedIsSteps | core/profile_evolver.py:189-210 | preparing the five fields one after the other comes to the steps of the update |
| Profiles.InForceIff | core/profile_evolver.py:151-170 | with a confidence in [0, 1] a proposed name or education is in force afterwards exactly if the field was empty, the update is no less sure than the stored confidence, or the text is the old one; else the old text stays |
| Profiles.ScalarStays | core/profile_evolver.py:151-170 | without a proposal the field stays, and its confidence changes only with its text |
| Profiles.RefusedWasLessSure | core/profile_evolver.py:151-170 | in any run a valid proposal that is not in force after its update was less sure than the last entry of its field |
| Profiles.ListsAfter | core/profile_evolver.py:172-188 | with a confidence in [0, 1] every list is extended by its new items |
| Profiles.NewItemsConcat | core/profile_evolver.py:176-176 | new items keep the order of the additions |
| Profiles.ChangesIff | core/profile_evolver.py:195-217 | with a confidence in [0, 1] an update returns True exactly if it leaves another profile; with any other it changes nothing |
| Profiles.ProfileEvolver.Update | core/profile_evolver.py:123-217 | all changes of a call take effect together, or none if an audit entry rejects the confidence |

## Left out

- Persistence, logging, clocks and id generation: files are not modelled, except the overflow file; timestamps and ids are passed in.
- Language-model calls, prompts, regular-expression heuristics and parsing: classification is any of the four cases it can return (`NONE` is never returned, so the branch of `resolve` that handles it is unreachable), a reflection note is any text, and labels are looked up before a query starts.
- Floating-point rounding: confidences, scores and losses are reals; of the reported metrics only the Brier score and the calibration error are rounded.
- Encoders: a sentence encoder is any total function with vectors of one length, TF-IDF any function of all texts that may fail; switching between the two on one index is not modelled.
- Replanner, plan critic, milestone tracker, working memory and verification reports.
- The wall clock during a fit: an entry carries its recency; the random numbers of the sampled starts are arguments.
- Crashes in the middle of a drain or of a write, I/O errors other than an unreadable overflow file, and the start and stop of threads.
- MemoryTask objects are values in the background processor: each has one holder at a time, so sharing is not modelled.
- Beliefs and principles are a map from id to confidence instead of stored objects.
- Manual unblocking of tasks, centrality, entity aliases, multi-valued temporal relations beyond the flag, histories sorted for display, simple ratio metrics and the event bus: each is a single lookup, filter or sum.
- Executors.TakeStep: the quality in a history entry is not rounded to three digits, the retry hint and the confidence estimate are left out, and so is what the replanner would do with a failed task.
- Executors.Execute: the result is without the output text, the duration and the replan count.
- GraphQueries.CognitiveQueryEngine.InferTransitive: the reasoning trace beside the answer is left out, and the start is given by id, not by label.
- BackgroundProcessors.BackgroundProcessor.Submit: describes one undisturbed call; what other threads do in between is covered by the lemmas over all interleavings, not by this contract.
- BackgroundProcessors.BackgroundProcessor.WorkOnce: the same; the stop sentinel is not modelled.
- BackgroundProcessors.BackgroundProcessor.DrainOverflow: the same; a failing write of the remaining lines is not modelled.
- EmbeddingStores.EmbeddingStore.FlushPending: a sentence encoding that fails is left out, since the sentence encoder is total.
- EmbeddingStores.EmbeddingStore.Search: assumes one encoder mode over the life of the index, so the dimension check never fails.
- EmbeddingStores.EmbeddingStore.Rebuild: without the fallback from a sentence encoder to TF-IDF.
- Text.OrderOfStripping: `lower` and `strip` are those of ASCII letters and white space.
- Text.NormTwice: the same.

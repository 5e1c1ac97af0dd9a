# flowgraph: verified model

A Dafny model of the concurrent core of flowgraph, with proofs: the Pregel engine and its two
coordinators, graph validation and the sequential executor, the buffered and the persistent channel,
the deep-merge reducer and the join points of parallel branches. `dafny verify dfyconfig.toml`
checks everything.

Concurrent parts are state machines over atomic steps. An interleaving is a script of enabled
actions, and a theorem about the protocol is about every script. The code that the steps stand for is
modelled beside the machine as classes and methods with the loops of the original. The scheduler, the
critical sections of the channel and of the join points, and the collection loops of both engines are
proved against the machine, step by step; the collection loops also as folds over the results that any
interleaving delivers. What a step or an operation decides is stated a second time in plain conditions
and quantifiers, apart from the functions that the machine and the code share (the members whose names
end in `Means`, `Decides` or `Table`). Vertex programs are one uninterpreted deterministic function;
they may write into the map they are given, return it or return another one. State maps are addresses
in a store in the machine (`Superstep`), where checkpoints are maps of their own, and heap objects in
`Recovery`.

| module | models |
|---|---|
| `Wrappers`, `Sequences` | options, results, distinct elements |
| `PregelModel`, `Messages` | vertices, state maps, messages, the aggregator and its combiners |
| `Superstep` | scheduling, stealing, execution and collection as a protocol, for both engines |
| `Conservation`, `RetryBounds`, `Confluence`, `RetryOrder` | what one superstep guarantees, retries included, and the mail that breaks it |
| `EngineRun`, `ShortestPathRun` | whole runs, checkpoints and rollback, agreement of the two engines |
| `Coordinator`, `CacheOptimizer`, `Recovery` | the loops of the engines, the scheduler and the checkpoint manager |
| `ShortestPath` | the vertex programs under an adversarial network, and combiner transparency |
| `GraphValidation`, `Executor` | cycle detection, graph validation, the step loop |
| `ChannelModel`, `BufferedChannel`, `PersistentChannel` | the two channels |
| `Reducers`, `JoinPoints` | deep merge, join points |

Where code and comments disagree the model follows the code:

- `cleanupOldCheckpoints` keeps eleven checkpoints, not the ten of its comment (`Recovery.WindowSize`).
- The "deep copies" of checkpoints are one level deep; a nil state comes back as an empty map.
- `NoCombiner` is described as passing all messages through; `GetMessages` has no case for it and delivers only
  the first of several (`Messages.NoCombinerDrops`).
- The aggregator is cleared at the end of the superstep in which messages are sent, so they are seen
  only by retries of that superstep, and a halted vertex never wakes up
  (`EngineRun.RunIsIndependentIteration`, `ShortestPathRun.DistancesNeverTravel`).
- A persistent channel that is closed does not hand out what it still holds. An unreadable index is
  rebuilt from the message files, and the channel is open again. A missing index is not: the channel
  starts empty at id 0 although the files are there, and the next message overwrites one of them
  (`PersistentChannel.LostIndexOverwrites`). A message larger than the size limit is accepted and evicted
  at once when evicting.
- `wait_all` counts completions, repeated ones included, and compares them with the number of expected
  branches.
- A recorded step has its output as input, because the state is replaced first; nodes after the entry
  node are placeholders; the identifier of the entry node may differ from its key.

## Model

| member | source | states |
|---|---|---|
| Conservation.StepConserves | internal/core/pregel/engine.go:157-238 | every step of a superstep keeps each vertex in exactly one place (unscheduled, queued, running, sending, in the result channel, or collected) and every queue within its capacity |
| Conservation.RunConserves | internal/core/pregel/engine.go:157-238 | the same in every state of every interleaving |
| Conservation.Accounting | internal/core/pregel/engine.go:164-185 | scheduled vertices = collected + in flight, so never more outstanding than the result channel can hold |
| Conservation.SendNeverBlocks | internal/core/pregel/scheduler.go:124-134 | a worker that has finished a task can always deliver its result |
| Conservation.Progress | internal/core/pregel/scheduler.go:71-134 | deadlock freedom: an unfinished superstep has an enabled step in every reachable state, even when scheduling has met a full queue |
| Conservation.StepDecreases | internal/core/pregel/engine.go:171-185 | every step lowers a measure built from the stages left and the remaining retries, although a retry takes `collected` back |
| Conservation.SuperstepTerminates | internal/core/pregel/engine.go:157-190 | no interleaving of a superstep is longer than 6 steps a vertex plus 5 for each allowed retry |
| Conservation.Completable | internal/core/pregel/engine.go:157-190 | from every reachable state some interleaving completes the superstep |
| Conservation.MaximalRunsFinish | internal/core/pregel/engine.go:157-190 | an interleaving that cannot go on has completed the superstep |
| RetryBounds.BackoffClosedForm | internal/core/pregel/recovery.go:38-42 | back-off over n retries of a vertex is BackoffMs * (2^n - 1), and 0 when BackoffMs <= 0 |
| RetryBounds.StepRetryInv | internal/core/pregel/engine.go:204-229 | every step keeps the link between retry counters, runs and back-off of each vertex |
| RetryBounds.RetriesAreBounded | internal/core/pregel/recovery.go:29-45 | from counters at zero, a vertex runs at most max(MaxRetries,0)+1 times and sleeps at most BackoffMs*(2^MaxRetries-1); a successful superstep leaves all counters at zero again |
| RetryBounds.AllDone | internal/core/pregel/engine.go:171-189 | a finished superstep without errors has collected every active vertex exactly once and left no task or result behind |
| Superstep.RunTaskMeans | internal/core/pregel/scheduler.go:124-134 | a call of a program changes, of the maps that were there, only its argument, which holds what it wrote; its result refers to the argument or to a new map with what was returned, and carries its messages, halt flag and error |
| Confluence.SentToPermutation | internal/core/pregel/engine.go:232-235 | the multiset of messages queued for a target does not depend on the order of arrival |
| Confluence.SentByMeans | internal/core/pregel/engine.go:231-235 | what a result adds to the queue of a target are its messages to that target, in order, each with step + 1 and its own sender and value |
| Confluence.ExecuteMatches | internal/core/pregel/scheduler.go:124-134 | a program that writes its argument map in place, or returns a new one, changes the state of no other vertex when no live map is shared |
| Confluence.StepConf | internal/core/pregel/engine.go:157-238 | every step keeps states, active flags, references, queued messages, batches and the attempts still to come equal to what the start of the superstep determines, when nobody writes to a retried vertex that heeds its mail |
| Confluence.SuperstepConfluence | internal/core/pregel/engine.go:157-238 | any starting inbox, any interleaving, both engines, any retries: when no result applied in the superstep writes to another vertex that is retried and whose later attempts could do something else with more mail, the superstep succeeds iff no active vertex fails all its attempts, and then states, active flags and per-target message multisets are those of the last attempts, each made on the map that the failed one before it left |
| Confluence.EveryInterleavingAgrees | internal/core/pregel/scheduler.go:71-134 | under the same condition two interleavings, scheduled in any two orders, agree on success, on every state and active flag and on every queue as a multiset |
| Confluence.BlindUndisturbed | internal/core/pregel/engine.go:204-220 | so whatever mail goes around, the condition holds when the programs of retried vertices make nothing of their messages |
| RetryOrder.MailComesLate | internal/core/pregel/engine.go:204-220 | a concrete interleaving with a retry in which the superstep fails |
| RetryOrder.MailComesEarly | internal/core/pregel/engine.go:204-220 | another interleaving of the same superstep that succeeds, because the retry is handed messages sent in the meantime |
| RetryOrder.RetriesBreakConfluence | internal/core/pregel/engine.go:204-220 | the condition on mail cannot be dropped: an engine in which one vertex writes to another that is retried and heeds it fails or succeeds with the order of results |
| EngineRun.StepMatches | internal/core/pregel/engine.go:123-147 | one `runStep` that is not cancelled advances every vertex by one iteration of its own program on an empty inbox, retries included; it fails iff one of those iterations fails all its attempts; nobody writes to a vertex that is tried again and heeds it |
| EngineRun.RunMatches | internal/core/pregel/engine.go:91-104 | under the same condition a run, cancelled or not, ends with every vertex where its own iteration is after MaxSupersteps and `Halted` set iff all have halted, or stops at the first step where an iteration fails or at one that was cancelled, with the contents of that step |
| EngineRun.RunIsIndependentIteration | internal/core/pregel/engine.go:91-147 | whole-run refinement: when no iteration before MaxSupersteps fails all its attempts and nobody writes to a vertex that is tried again and heeds it, for every interleaving of every superstep, each final state is the iteration of `Compute` with no messages until it halts, and `Halted` is set iff MaxSupersteps > 0 and all vertices have halted |
| EngineRun.RunCompletes | internal/core/pregel/engine.go:91-147 | from every engine, whatever its programs do, some interleavings of the supersteps take the uncancelled run to its end, so the theorems about runs are about runs that exist |
| EngineRun.EnginesAgree | internal/core/pregel/cache_optimizer.go:62-101 | with MaxRetries <= 0 the cache-optimized and the standard engine succeed or fail at the same superstep, with equal `Halted`, equal states on success and equal contents after a failure, whatever their interleavings, partitions and batches |
| EngineRun.CheckpointUntouched | internal/core/pregel/engine.go:129-139 | at every point of every interleaving the checkpoint saved at the start is there, no task, worker, result or vertex holds one of its maps, and they hold what the vertices held at the start |
| EngineRun.StepWindow | internal/core/pregel/recovery.go:76-79 | from the moment it begins, at every point of every interleaving and after a rollback, superstep s holds exactly the checkpoints max(0,s-10)..s, if the one before left its window |
| EngineRun.CheckpointsOfRun | internal/core/pregel/engine.go:91-147 | a run that began without checkpoints holds after n supersteps, however they ended, exactly the checkpoints k with k < n <= k + 11 |
| EngineRun.RollbackRestores | internal/core/pregel/engine.go:133-139 | at whatever point a superstep is given up, loading its checkpoint gives every vertex the contents it had at the start, in maps shared with nothing; the contents are read from the saved maps as they are then |
| EngineRun.RestoredMeans | internal/core/pregel/recovery.go:90-101 | a live state comes back with its contents, a nil one as an empty map |
| EngineRun.StragglersCannotReach | internal/core/pregel/scheduler.go:85-134 | no step of a worker that is still busy changes a restored map or the vertex states |
| EngineRun.RollbackIsFinal | internal/core/pregel/engine.go:133-139 | for a failure or an abort at any point and any later steps of straggling workers, the contents are those of the start of the superstep: saved by copy, out of reach of every task, and loaded by a second copy |
| Recovery.WindowStep | internal/core/pregel/recovery.go:76-79 | saving step s+1 turns the retained window of s into that of s+1 |
| Recovery.RetainedWindow | internal/core/pregel/recovery.go:106-116 | the retained steps after steps 0..s are exactly the k with k <= s <= k + 10, so the checkpoint of the current step always exists |
| Recovery.CopyStates | internal/core/pregel/recovery.go:66-74 | the copy loops give fresh maps with the same entries; a nil state becomes an empty map |
| Recovery.CheckpointManager.SaveCheckpoint | internal/core/pregel/recovery.go:61-80 | on the heap: fresh one-level copies under the new step, other checkpoints untouched; with more than ten, exactly those at most ten steps behind kept |
| Recovery.CheckpointManager.CleanupOldCheckpoints | internal/core/pregel/recovery.go:106-116 | exactly the checkpoints at most ten steps behind survive |
| Recovery.CheckpointManager.LoadCheckpoint | internal/core/pregel/recovery.go:82-104 | a second copy, in objects that share nothing with the checkpoint |
| Recovery.FailingStep | internal/core/pregel/engine.go:129-139 | save, arbitrary in-place writes, load, more in-place writes: the restored states still have the contents of the start |
| Coordinator.CollectHandles | internal/core/pregel/engine.go:171-185 | one round of the collection loop is the protocol step `Collect` |
| Coordinator.LedgerFollowsArrivals | internal/core/pregel/engine.go:171-238 | over any interleaving, what the coordinator has recorded is the fold of its handler over the results in order of arrival |
| Coordinator.Coordinator.HandleError | internal/core/pregel/recovery.go:29-45 | retries iff attempt < MaxRetries, after sleeping BackoffMs * 2^attempt, otherwise wraps the error with vertex and attempt without sleeping |
| Coordinator.Coordinator.HandleVertexResult | internal/core/pregel/engine.go:204-238 | the method on the engine fields does what the protocol step does: a success replaces reference, active flag and retry counter and appends its messages to the queues of their targets; a failure counts one more attempt and returns the task, or, with MaxRetries attempts made, returns the error with vertex and attempt and changes nothing |
| Coordinator.Coordinator.CollectResults | internal/core/pregel/engine.go:168-189 | the loop handles exactly the results it needs until all expected vertices are done, or times out having used all that came |
| Coordinator.Coordinator.GetActiveVertices | internal/core/pregel/engine.go:248-259 | every active vertex exactly once |
| Coordinator.Coordinator.HasActiveVertices | internal/core/pregel/engine.go:261-271 | true iff some vertex is active |
| Coordinator.WorkStealingScheduler.constructor | internal/core/pregel/scheduler.go:42-69 | at least one worker and a positive queue capacity whatever the arguments, with the defaults of the source |
| Coordinator.WorkStealingScheduler.NextSlot | internal/core/pregel/scheduler.go:71-74 | the counter and the slot are those of the protocol step that places a task |
| Coordinator.RoundRobin | internal/core/pregel/scheduler.go:71-74 | of any consecutive tasks, as many as there are queues, exactly one goes to each queue |
| Coordinator.WorkStealingScheduler.TrySend | internal/core/pregel/scheduler.go:74-74 | appends the task to its queue iff the queue is below capacity; this is the protocol step `Enqueue` with its guard |
| Coordinator.WorkStealingScheduler.TryReceive | internal/core/pregel/scheduler.go:92-93 | takes the oldest task of the queue iff there is one; this is the protocol step `Take` of this worker with its guard |
| Coordinator.WorkStealingScheduler.StealWork | internal/core/pregel/scheduler.go:109-122 | takes from the first other queue from which this worker can `Take`, as that step does; finds nothing iff all other queues are empty; running the task is the step `Finish` |
| Coordinator.WorkStealingScheduler.FindTask | internal/core/pregel/scheduler.go:88-107 | one turn of an idle worker takes from its own queue when that has a task, otherwise from another one, and finds nothing iff all queues are empty |
| CacheOptimizer.DealtExactly | internal/core/pregel/cache_optimizer.go:131-157 | each vertex is in the partition that its index selects and in no other |
| CacheOptimizer.CacheOptimizedEngine.constructor | internal/core/pregel/cache_optimizer.go:105-160 | the blocks of each partition together hold exactly the vertices dealt to it |
| CacheOptimizer.CacheOptimizedEngine.GetVertexPartition | internal/core/pregel/cache_optimizer.go:337-348 | the search over blocks finds the partition the vertex was dealt to, or 0 for an unknown vertex |
| CacheOptimizer.CacheOptimizedEngine.GroupActive | internal/core/pregel/cache_optimizer.go:172-181 | grouping by partition schedules each active vertex exactly once, with the vertices of a partition together |
| CacheOptimizer.CacheOptimizedEngine.GroupUpdates | internal/core/pregel/cache_optimizer.go:306-311 | regrouping a batch loses and duplicates no result, and every result lies under the partition of its vertex |
| CacheOptimizer.CacheOptimizedEngine.ProcessBatch | internal/core/pregel/cache_optimizer.go:304-334 | fails iff the batch holds an error, and then with one of its errors, having applied only error-free results of the batch; otherwise the result is that of applying the batch in order of arrival |
| Superstep.GatherMeans | internal/core/pregel/cache_optimizer.go:280-298 | a result waits while fewer than 32 have gathered and vertices are still to come; otherwise the batch is settled: applied and emptied, or kept with its errors |
| CacheOptimizer.CacheOptimizedEngine.CollectResults | internal/core/pregel/cache_optimizer.go:271-301 | the loop is the fold of the protocol's `Gather` over the results it uses, up to success, timeout or the first failing batch, whose error it returns and of which it may have applied some error-free results |
| CacheOptimizer.GatheringFollowsArrivals | internal/core/pregel/cache_optimizer.go:271-301 | over any interleaving of the cache-optimized engine, what has been collected, applied and gathered is that same fold over the results in order of arrival |
| CacheOptimizer.BatchesCompose | internal/core/pregel/cache_optimizer.go:288-293 | applying two batches is applying their concatenation |
| CacheOptimizer.BatchPermutation | internal/core/pregel/cache_optimizer.go:314-331 | the order of partitions and of results within them does not matter |
| Messages.BestIndex | internal/core/pregel/message.go:139-156 | a winner has a numeric value below the sentinel 1000000 (above -1000000 for the maximum) |
| Messages.BestIndexIsFirstMinimum | internal/core/pregel/message.go:142-156 | the winner is the first message with the least numeric value below the sentinel, and there is none iff no value is below it; for the maximum with the signs turned |
| Messages.SumCombine | internal/core/pregel/message.go:107-129 | the loop computes the specified combination, addressed like the first message |
| Messages.MinCombine | internal/core/pregel/message.go:134-168 | the loop computes the specified combination, with its fallback to the first message |
| Messages.MaxCombine | internal/core/pregel/message.go:170-206 | the same for the maximum |
| Messages.ListCombine | internal/core/pregel/message.go:212-230 | the loop collects all values, in order, addressed like the first message |
| Messages.NoCombinerDrops | internal/core/pregel/message.go:232-242 | with `NoCombiner` as combiner the whole queue is delivered iff it holds at most one message; otherwise only the first is |
| Messages.DeliveredWhole | internal/core/pregel/message.go:42-51 | without a combiner, or with at most one message, the queue is handed over as it is; otherwise exactly one message is |
| Messages.DeliveredMin | internal/core/pregel/message.go:134-168 | delivered with `MinCombiner`: the first message with the least numeric value below 1000000, or the first message if there is none |
| Messages.DeliveredMax | internal/core/pregel/message.go:173-206 | delivered with `MaxCombiner`: the first message with the greatest numeric value above -1000000, or the first message if there is none |
| Messages.DeliveredList | internal/core/pregel/message.go:212-230 | delivered with `ListCombiner`: every value in order, with sender, target and step of the first message |
| Messages.DeliveredSum | internal/core/pregel/message.go:107-129 | delivered with `SumCombiner`: a float64 with sender, target and step of the first message |
| Messages.MessageAggregator.AddMessage | internal/core/pregel/message.go:36-40 | a message joins the end of the queue of its target; the other queues stay |
| Messages.MessageAggregator.GetMessages | internal/core/pregel/message.go:42-51 | for each of the five combiners and for none: the whole queue without a combiner or with at most one message, otherwise one combined message |
| Messages.MessageAggregator.Clear | internal/core/pregel/message.go:53-57 | no message remains |
| ShortestPath.MinDistanceIsMin | internal/core/pregel/vertex.go:161-171 | the least of the current distance and the float64 payloads, attained |
| ShortestPath.FindMinDistance | internal/core/pregel/vertex.go:161-171 | the loop computes that minimum |
| ShortestPath.CreatePropagationMessages | internal/core/pregel/vertex.go:174-188 | exactly one message over each edge, carrying distance plus weight |
| ShortestPath.ComputeVertex | internal/core/pregel/vertex.go:190-220 | the method returns the specified state and messages; it halts iff no float64 message is below the starting distance, unless the vertex is the source at distance 0 without messages; the new state says so and keeps the edges |
| ShortestPath.StartMeans | internal/core/pregel/vertex.go:150-158 | the starting distance is the stored decimal, or 1000000 without one; the source turns 1000000 into 0 |
| ShortestPath.ComputeMeans | internal/core/pregel/vertex.go:190-220 | halt flag, changed flag, kept edges and new distance by quantifiers over the messages |
| ShortestPath.ExtendWalk | internal/core/pregel/vertex.go:178-184 | a walk length plus an edge weight is a walk length |
| ShortestPath.RunSound | internal/core/pregel/vertex.go:190-220 | any sequence of calls with messages dropped, delayed, duplicated or reordered keeps every stored distance infinite or the length of a real walk, and never raises one |
| ShortestPath.DistancesAreWalks | internal/core/pregel/vertex.go:150-220 | from infinite or absent distances: stored distances are 1000000 or walk lengths, emitted values are walk lengths to their target, distances never increase |
| ShortestPath.RunComplete | internal/core/pregel/vertex.go:190-220 | delivered messages are accounted for and finite distances have been announced to every neighbour |
| ShortestPath.WalkBoundsDistance | internal/core/pregel/vertex.go:190-220 | once all that was sent is delivered, no walk is shorter than the stored distance |
| ShortestPath.QuiescentDistancesAreShortest | internal/core/pregel/vertex.go:190-220 | then every stored distance is the length of a shortest walk among those that stay below 1000000 |
| ShortestPath.MinCombinerTransparent | internal/core/pregel/message.go:134-168 | for every inbox, whatever its payloads: `Compute` gives the same result on the min-combined inbox iff at most one message is there; or some numeric value is below the sentinel and no int value is less than the starting distance and all float64 values; or none is below the sentinel and no float64 value is less than both the starting distance and a float64 first message |
| ShortestPath.MinCombinerTransparentBelowSentinel | internal/core/pregel/vertex.go:190-220 | from a stored distance of at most 1000000: iff at most one message is there or no int value is less than the starting distance and all float64 values |
| ShortestPath.IntegersShowThrough | internal/core/pregel/message.go:142-156 | the failing input: int 5 and float64 10 at distance 20 give 5 when combined and 10 when not, because `Compute` skips ints |
| ShortestPath.SumIncomingRank | internal/core/pregel/vertex.go:87-95 | the loop sums the float64 payloads only |
| ShortestPath.SumSplits | internal/core/pregel/message.go:112-121 | the combiner sums float64 and int payloads |
| ShortestPath.SumCombinerTransparent | internal/core/pregel/message.go:42-51 | for every inbox, whatever its payloads: the rank sum is the same on what the aggregator delivers with `SumCombiner` iff at most one message is there or the int payloads sum to zero |
| ShortestPath.IntegersAreCounted | internal/core/pregel/message.go:112-121 | the failing input: int 5 and float64 1 give 6 when combined and 1 when not, because the rank sum skips ints |
| ShortestPathRun.AloneKeepsDistance | internal/core/pregel/vertex.go:190-220 | without messages the source announces 0 for ever and every other vertex halts at once with its distance |
| ShortestPathRun.DistancesNeverTravel | internal/core/pregel/engine.go:145-145 | inside `Run` shortest-path messages never arrive: every final distance is the starting one, and the run halts iff no source starts at 0 |
| GraphValidation.SuccessorsAreArcs | pkg/validation/graph.go:85-88 | the successors of a node are exactly the targets of its edges |
| GraphValidation.Adjacency | pkg/validation/graph.go:85-88 | the adjacency map lists those successors |
| GraphValidation.CycleSearch.Dfs | pkg/validation/graph.go:89-104 | finding a back edge proves a cycle; otherwise the finished nodes stay in topological order and the node is among them; the white nodes decrease |
| GraphValidation.CloseCycle | pkg/validation/graph.go:93-95 | the gray path from a node to the top of the stack, closed by an edge back, is a cycle |
| GraphValidation.TopologicalIsAcyclic | pkg/validation/graph.go:102-103 | if all nodes are finished in topological order there is no cycle |
| GraphValidation.HasCycle | pkg/validation/graph.go:78-113 | true iff the graph has a directed cycle, in whatever order nodes are visited |
| GraphValidation.AcceptedEdges | pkg/validation/graph.go:43-61 | the edge loop accepts iff all edges are non-nil and valid, join existing nodes, and no two are equal after the default type is filled in |
| GraphValidation.NodeFaultMeans | internal/core/graph/node.go:49-63 | which of five faults of a node is reported, and that there is none iff identifier, name, type and, for a conditional node, its configuration are there |
| GraphValidation.BasicFaultMeans | pkg/validation/graph.go:23-26 | which fault of name and entry point is reported, and when there is none |
| GraphValidation.EdgeFaultMeans | internal/core/graph/edge.go:34-48 | which of seven faults of an edge is reported, in their order |
| GraphValidation.NormalizeMeans | internal/core/graph/edge.go:44-46 | only an empty type is filled in, with "default", and only on an edge between two different names |
| GraphValidation.WellFormedMeans | pkg/validation/graph.go:18-62 | the shape checks as one condition: names, entry, every node, every edge, and no two edges with the same ends, condition and type, an empty type counting as "default" |
| GraphValidation.NormalizeKeepsArcs | pkg/validation/graph.go:47-49 | filling in the default edge type changes no arc |
| GraphValidation.ValidateCoreGraph | pkg/validation/graph.go:18-75 | accepts iff the graph is well formed and, when asked, acyclic; which fault is reported, down to the first bad edge; that edges before it have been normalized and the rest, or all on an earlier fault, are untouched |
| Executor.GetNextNodes | internal/app/usecases/evaluator.go:39-67 | the placeholders of the targets of exactly the edges that pass, in edge order |
| Executor.ConditionTable | internal/app/usecases/evaluator.go:70-109 | which state lets which condition through: "never" none; empty and "always" all; "success", "failure", "has_error" and "no_error" by the status and the error of the state; any other all |
| Executor.NextEdges | internal/app/usecases/evaluator.go:39-67 | the positions of the edges whose targets are listed are exactly those of the edges that pass |
| Executor.FirstEnabledIsFirst | internal/app/usecases/evaluator.go:42-64 | the edge a run follows is the first enabled one, and there is none iff no edge is enabled |
| Executor.RunSequentialStep | internal/app/usecases/executor.go:261-310 | a failing node changes nothing; otherwise the recorded step, the new state and the next node |
| Executor.ExecuteGraph | internal/app/usecases/executor.go:230-251 | the steps form a trace numbered 1..n, CurrentStep advances by n <= limit, and the run ends at a node without enabled edge, at the limit, or at a failing node |
| Executor.TraceIsPath | internal/app/usecases/executor.go:239-249 | the nodes of a trace are a path of the graph |
| Executor.TraceFollows | internal/app/usecases/executor.go:239-249 | each step of a run leads on by the first edge that its recorded output lets through, by that table; where the run ends for want of an edge, none passes |
| Executor.AcyclicPathIsSimple | pkg/validation/graph.go:68-72 | on an acyclic graph no path repeats a node |
| Executor.AcyclicRun | internal/app/usecases/executor.go:230-251 | on an acyclic graph a run visits a simple path, takes at most the number of nodes steps, and with a limit of at least the number of nodes stops only at a node with no enabled edge |
| Executor.Execute | internal/app/usecases/executor.go:230-310 | rejects exactly the graphs that validation rejects, then the run: each step follows the first edge that passes; it ends at the limit (100 by default), at a node with no passing edge, or at a node that fails on the state so far; simple paths when cycles were checked |
| BufferedChannel.StepWaitsRightly | internal/core/channel/buffered.go:71-148 | every critical section, wait, wake-up, timeout, close and clear keeps: who remembers the current notify channel waits for something that has not happened |
| BufferedChannel.NoLostWakeup | internal/core/channel/buffered.go:71-148 | in every reachable state with any number of callers, a stuck sender means a full open buffer, a stuck receiver an empty open buffer, the two never both, and nobody is stuck after `Close` |
| BufferedChannel.PossibleMeansAwake | internal/core/channel/buffered.go:99-107 | a caller whose operation has become possible is not asleep, and its next attempt returns |
| BufferedChannel.SendDecides | internal/core/channel/buffered.go:73-88 | a sender at an open channel with room is served and its message ends buffer and log; at a closed one it gets ErrChannelClosed; at a full one it waits and nothing changes |
| BufferedChannel.ReceiveDecides | internal/core/channel/buffered.go:116-131 | a receiver at a non-empty buffer gets its first message, closed or not; at an empty one ErrChannelClosed or a wait |
| BufferedChannel.ClosedIsReported | internal/core/channel/buffered.go:73-131 | a critical section reports ErrChannelClosed iff the channel is closed and, for a receiver, empty |
| BufferedChannel.CallsBegin | internal/core/channel/buffered.go:65-69 | a message with an empty name never reaches the channel; what `Close` and `Clear` change |
| BufferedChannel.StepsOfACall | internal/core/channel/buffered.go:90-107 | from lock to select to wake-up: which step each phase allows, and that only a waiting call ends with a timeout or a cancellation, which is its error |
| ChannelModel.ValidateMeans | internal/core/channel/channel.go:50-64 | valid iff id, type, source and target are not empty; the first empty one is reported |
| BufferedChannel.StepLogged | internal/core/channel/buffered.go:65-149 | every step keeps the logs: accepted = taken + buffer, and each success names a place of its own |
| BufferedChannel.BoundedFifo | internal/core/channel/buffered.go:65-191 | under any interleaving departures are a prefix of arrivals, the k-th receipt gets the k-th message, every successful sender has a place that holds its own message, no two share one, and the length never exceeds the capacity |
| BufferedChannel.ClosedDrains | internal/core/channel/buffered.go:113-163 | after `Close` nothing is accepted, the rest leaves in order, and a receiver gets ErrChannelClosed iff the buffer is empty |
| BufferedChannel.Channel.SendOnce | internal/core/channel/buffered.go:73-88 | one pass of the loop is the critical section of the protocol: ErrClosed when closed, Delivered with the message appended when there is room, otherwise Retry holding the notify channel of its generation |
| BufferedChannel.Channel.ReceiveOnce | internal/core/channel/buffered.go:116-131 | the same for receiving: the first message when there is one, closed or not; otherwise ErrClosed or Retry |
| BufferedChannel.Channel.SignalAll | internal/core/channel/buffered.go:207-215 | replaces the notify channel, then closes the old one |
| BufferedChannel.Channel.Close | internal/core/channel/buffered.go:152-163 | closing again does nothing |
| BufferedChannel.Channel.Clear | internal/core/channel/buffered.go:185-191 | drops the buffer and wakes everybody |
| BufferedChannel.Channel.WakeGuard | internal/core/channel/buffered.go:207-215 | a remembered notify channel is closed iff the protocol step `Wake` is enabled |
| PersistentChannel.MatchesMeans | internal/core/channel/persistent.go:382-394 | records matching the files: ids are distinct, every record has its file with its message, every file its record |
| PersistentChannel.TotalIsOfTheFiles | internal/core/channel/persistent.go:366-374 | the total size depends on the files only, not on the order in which records list them |
| PersistentChannel.SizeOnDiskIsTotal | internal/core/channel/persistent.go:366-374 | the size added up while loading equals the one counted incrementally |
| PersistentChannel.SizeOnDiskMeans | internal/core/channel/persistent.go:366-374 | sizes at load add up record by record: the size of the file, or nothing when it is missing |
| PersistentChannel.LongestSuffix | internal/core/channel/persistent.go:436-464 | what retention keeps is the longest suffix within the count, size and age limits |
| PersistentChannel.DroppedForAReason | internal/core/channel/persistent.go:436-464 | with the youngest dropped message kept, the count, the size or the age limit that is switched on would be exceeded |
| PersistentChannel.SentIsLive | internal/core/channel/persistent.go:161-169 | after a successful send the message is live iff it meets the limits alone: one larger than the size limit is accepted and evicted at once |
| PersistentChannel.SendJustEnough | internal/core/channel/persistent.go:129-169 | evicting before and after the write, by count and by age, together drops no more than needed |
| PersistentChannel.TickJustEnough | internal/core/channel/persistent.go:489-495 | the three loops of a cleanup tick together drop no more than needed |
| PersistentChannel.Channel.RemoveOldest | internal/core/channel/persistent.go:467-478 | removes the first record with its file and its size and saves the index |
| PersistentChannel.Channel.EnforceMaxMessages | internal/core/channel/persistent.go:436-443 | just enough for the count limit |
| PersistentChannel.Channel.EnforceMaxAge | internal/core/channel/persistent.go:446-457 | just enough for the age limit: afterwards no live message is too old |
| PersistentChannel.Channel.EvictUntilUnderSize | internal/core/channel/persistent.go:460-464 | just enough for the size limit |
| PersistentChannel.Channel.CleanupTick | internal/core/channel/persistent.go:489-495 | keeps index, files and size in agreement and the longest suffix within the limits: afterwards no more than MaxMessages, none of MaxAge or older, and at most MaxSize bytes when evicting |
| PersistentChannel.Channel.Send | internal/core/channel/persistent.go:114-180 | which sends are refused, with which error, and that they change nothing; otherwise a new id that no live message has (a file has it only if it is left over from before a lost index), the log extended by the message, the longest suffix within the limits live, each limit met, and size < maxSize + one message when rejecting |
| PersistentChannel.Channel.Receive | internal/core/channel/persistent.go:183-224 | a closed channel refuses even with messages left; otherwise the oldest live message and its file go |
| PersistentChannel.Channel.Close | internal/core/channel/persistent.go:227-238 | closed in memory and in the saved index |
| PersistentChannel.Channel.Cleanup | internal/core/channel/persistent.go:241-258 | no record and no file of one, size 0, ids start again, saved so; files that no record names stay as they are |
| PersistentChannel.Channel.RecoverIndex | internal/core/channel/persistent.go:502-538 | whatever the listing order: one record a file, the right size, the largest id, open |
| PersistentChannel.Channel.LoadIndex | internal/core/channel/persistent.go:339-379 | what is loaded with a saved, a missing and an unreadable index; a missing or unreadable one, or a saved one that names existing files once each, gives a channel in good order |
| PersistentChannel.Channel.constructor | internal/core/channel/persistent.go:61-102 | the size limit in bytes, 100 MB by default, and the loaded state |
| PersistentChannel.Reopen | internal/core/channel/persistent.go:339-379 | opening the directory of a channel in good order gives the same messages, up to order and creation time, and so the same size, iff the index is intact, or unreadable and every message file was a live message, or missing and the channel was empty; an intact index also restores next id and closed flag, an unreadable one loses no message, a missing one leaves every file without a record |
| PersistentChannel.LostIndexOverwrites | internal/core/channel/persistent.go:340-346 | the failing input: a channel with one message whose index is missing reopens empty, and its next message overwrites the file of the first |
| Reducers.MergeValues | internal/core/channel/reducers.go:111-135 | the recursive method computes the merge |
| Reducers.Reduce | internal/core/channel/reducers.go:88-108 | so does the top-level loop |
| Reducers.Idempotent | internal/core/channel/reducers.go:111-135 | a + a = a |
| Reducers.Absorbing | internal/core/channel/reducers.go:111-135 | (a + b) + b = a + b |
| Reducers.MergeAt | internal/core/channel/reducers.go:120-134 | path by path: the update wins, merged into what was there; elsewhere the current value survives unless a non-map of the update is in the way |
| Reducers.CoversMeansReplaces | internal/core/channel/reducers.go:114-134 | merging is replacing iff the update covers the current value |
| Reducers.AssociativeExactlyWhen | internal/core/channel/reducers.go:111-135 | (a + b) + c = a + (b + c) iff wherever a map, a non-map and a map meet at a path the last covers the first |
| JoinPoints.StepInv | internal/app/usecases/branch_manager.go:328-446 | every critical section of a completion, every handler run and the timeout keep the invariant that ties status, counts, handler runs and callers on the way |
| JoinPoints.MarkMeans | internal/app/usecases/branch_manager.go:328-370 | the first critical section in full: status, results and error of the branch, and whether a join, no join or a missing branch comes next |
| JoinPoints.ArriveMeans | internal/app/usecases/branch_manager.go:372-392 | the second: the completion is appended with its results, and the caller goes on to close iff the count asked for by the strategy is reached |
| JoinPoints.CloseMeans | internal/app/usecases/branch_manager.go:416-432 | the third: only a waiting join becomes "completed", and only its caller goes on to a handler |
| JoinPoints.HandleMeans | internal/app/usecases/branch_manager.go:427-430 | the handler is given the join as it is, and its error is what the completion returns |
| JoinPoints.ExpireMeans | internal/app/usecases/branch_manager.go:435-446 | a timeout runs once and decides only a waiting join |
| JoinPoints.CallerMoves | internal/app/usecases/branch_manager.go:328-432 | in every reachable state a completion that has not returned can move, and it returns after at most four steps of its own |
| JoinPoints.AnyTime | internal/app/usecases/branch_manager.go:302-375 | completions, changes of the branch table, new joins and pending timeouts are possible in every reachable state, so the results hold for every such arrival |
| JoinPoints.DecidedOnce | internal/app/usecases/branch_manager.go:415-446 | over all interleavings a join leaves "waiting" at most once and its handler runs at most once; a completed join has at least one completion under wait_any and wait_first, and as many as branches are expected otherwise |
| JoinPoints.HandlersSeeTheirJoin | internal/app/usecases/branch_manager.go:427-430 | a handler starts on a completed join with that many completions and the results of everybody who had arrived; the results are the live map, and later completions only add to it |
| JoinPoints.NobodyIsForgotten | internal/app/usecases/branch_manager.go:383-389 | with no completion on the way, a waiting join has had no completion or, under strategies other than wait_any and wait_first, fewer than the expected ones; a completed one has had enough and has run its handler once, a timed-out one never |
| JoinPoints.DecisionIsFinal | internal/app/usecases/branch_manager.go:417-420 | a status other than "waiting" never changes again and completions only add up |
| JoinPoints.BranchManager.CreateJoinPoint | internal/app/usecases/branch_manager.go:302-325 | a new waiting join point beside the others: the protocol step |
| JoinPoints.BranchManager.MarkBranch | internal/app/usecases/branch_manager.go:334-363 | the first critical section is the protocol step: the branch record, the missing branch, and whether there is a join to go on to |
| JoinPoints.BranchManager.EvaluateJoinCondition | internal/app/usecases/branch_manager.go:395-412 | wait_any and wait_first: some completion; every other strategy: at least as many completions as expected branches |
| JoinPoints.BranchManager.ProcessBranchCompletion | internal/app/usecases/branch_manager.go:372-392 | the second critical section is the protocol step: completion appended, condition tested, missing join reported |
| JoinPoints.BranchManager.CompleteJoinPoint | internal/app/usecases/branch_manager.go:416-432 | the third critical section is the protocol step: only the first caller closes the join and goes on to the handler |
| JoinPoints.BranchManager.HandleJoinTimeout | internal/app/usecases/branch_manager.go:439-445 | the protocol step of a timeout: it decides only a waiting join |

## Left out

- Cross-superstep delivery, reactivation of halted vertices, convergence inside `Run`: the engine does not provide them.
- Wall clocks, sleeps, contexts and timeouts: cancellation and timeout are steps that may happen at any point; age limits use a clock that never goes back.
- Floating point is real arithmetic; int64 counters, file sizes and the shift in the back-off do not overflow.
- Vertex programs that are not deterministic, and vertices whose initial states share one live map: the theorems about results assume neither.
- Cancelled runs stop at any superstep; `EngineRun.RunMatches` says with what contents, not at which superstep.
- `ActiveVertices` after a failed superstep is not described; states are restored, active flags are not.
- A failing batch of the cache-optimized engine may have written some of its results before the error: `CollectResults` says so; the protocol applies none of them, which the rollback makes invisible.
- Confluence.SuperstepConfluence: assumes that nobody writes to a retried vertex that heeds its mail, because otherwise the outcome may depend on the order of results (`RetryOrder.RetriesBreakConfluence`).
- EngineRun.RunIsIndependentIteration: assumes that no iteration fails all its attempts and nobody writes to a vertex that is tried again and heeds it; `EngineRun.RunMatches` covers failing programs.
- The retry loops of `Send` and `Receive` of the buffered channel appear as phases of the protocol, one pass of the loop as a method.
- Order after recovery of a persistent channel: the files are listed by name, so only the set of messages is claimed.
- Failing file operations, crashes between the removal of a file and the saving of the index, unreadable or foreign files in the directory (those without a message), JSON itself.
- Metrics, stream events and handlers, statistics, and the unused `processPartition` and `flushMessageBuffer`.
- CacheOptimizer.CacheOptimizedEngine.constructor: does not state how a partition is cut into blocks (blocks can outgrow 8); only exact coverage, because nothing else depends on it.
- Which branches a join waits for: the code compares counts, not identities.
- Branch conditions, branch creation and cleanup: in the join protocol the branch table may change in any way between two steps.
- Reducers other than deep merge, the in-memory channel and saver, resuming from a checkpoint, serialization, encryption, SQL adapters, HTTP and servers: library wrappers or easy members.

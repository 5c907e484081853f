# Verified model of the workflow engine

This project models, in Dafny 4.11, the parts of the system whose correctness is hardest to see by
reading: the workflow graph on both sides of the wire, the durable interpreter that executes it, the
worker pool and its shutdown, and four self-contained algorithms of the front end. `dafny verify
dfyconfig.toml` checks all of it.

## What is modelled

**The graph and its loop edges** (`Graphs`, `DepthFirst`). A depth-first search with an explicit stack
and three colours decides which edges close loops; the canvas and the back end use the same one. The
loop is proved to compute a small-step specification, the specification to finish the nodes as the textbook
recursion does, and to return a minimal feedback edge set. The rest of the system leans on that: layering ends because the forward edges are acyclic, and
so does the interpreter's wait within one iteration.

**The durable interpreter** (`Interpreter`, `Walk`, `FlowRun`, `RunMachine`, `RunDriver`, `RunHistory`,
`Reads`, `LoopFree`, `Mishaps`, `Retries`, `Races`). A run is a frozen graph and a table of node rows keyed by node and iteration. What
may run next is derived from the rows alone; the breadth-first walk is proved to find exactly that. A drive
reads the rows once and carries them; decisions, timeouts, replays and kills write to the stored ones
meanwhile, and the process may die between any two durable writes, each of which is a step of its own. The
driver's loops are methods over the stored fields whose every write is such a step. Failures, crashes and
everybody else's writes come from arbitrary functions, and node results from an arbitrary `world`, which is
no more than the record of what one history's nodes returned: two histories have two. Main results, over
every history from the seeded run: a run marked completed has executed exactly what its results call for if
and only if no row failed, none has led into a trigger, and nothing can run in the stored rows; the last
holds whenever nobody wrote during the drive; nothing speculative is executed. `Reads` lets a result depend
on what the node reads: the latest results of its ancestors in the rows its batch was computed from. Two
histories of the same nodes and answers that complete a run correctly then converge to one table if and only
if there is no race between them; on a graph without loops there never is one.

**Validation, ops and edits** (`Validator`, `LoopOrder`, `WorkflowOps`, `Edits`, `Canvas`). The server's
validator, the list of edit operations both sides speak, the canvas's editing rules and the engine that
applies them in place, on any graph the server may have stored. Main results: over every run of edits the
canvas keeps a routing node on every cycle if there was one on each; the server takes a graph in every order of its nodes exactly when every edge on a cycle leaves a
routing node; replaying the ops the canvas emits gives the live graph exactly when no deletion hit a node
with edges.

**Layout** (`Ranks`, `Sweeps`, `Layout`, `Routes`, `View`). Longest-path layering by a queue, eight stable
median sweeps and the order they end in, exact coordinates, orthogonal routes, the pan and zoom arithmetic,
and what fitting shows.

**The pool and the shutdown** (`Pool`, `Lifecycle`, `Leftovers`, `Completion`). The pool's critical
sections as methods, and every interleaving of two ticker loops, four workers, any number of requests,
conversations, whose turns drive runs by their tools, and pieces of work started aside, and the ordered
shutdown as a state machine whose steps are those sections. Main results: at most one thread walks a run;
no wake-up is lost; the database is never touched after it is closed exactly when the loops had returned,
the requests had been answered, the conversations were quiet and nothing started aside was left; what
cancel-all misses; when the idle check can be believed; the shutdown can always finish.

**Front-end algorithms** (`LineDiff`, `Navigation`, `SidebarFilter`, `Highlight`). The line diff is optimal
and rebuilds both texts; navigation is independent of the order in which panels load; the filter's three
passes agree with the subtree reading; the highlighter loses no text.

## Where the code and its documentation differ

The model follows the code. Each difference is a lemma with a concrete input, beside the exact condition
under which the code does what is promised.

- The validator's loop rule depends on the order in which nodes are declared: one graph, with a decision
  on its cycle, is accepted in one listing and refused in another (`LoopOrder.AcceptanceDependsOnOrder`).
  It does not exactly when every edge on a cycle leaves a routing node (`LoopOrder.PassesInEveryListing`).
- The canvas emits a node deletion followed by deletions of its edges; the server removes those edges
  itself and refuses the list (`Edits.ConnectedDeletionRefused`, `Edits.RunReplays`).
- A drive completes its run by what it carries: an approval decided after the drive has read or parked it
  is not followed, and the run is completed all the same (`Mishaps.StaleDriveCompletes`). Completion is
  right exactly when nothing can run in the stored rows either, no row failed and none has led into a
  trigger (`RunHistory.CompletedRun`).
- A crash between the two writes of a node failure leaves a run that the next drive completes
  (`Mishaps.CrashedFailureLooksComplete`).
- An edge into a trigger node is valid but never executed (`Mishaps.StrayTriggerLooksComplete`).
- Advancing again after a crash is said to converge to the same state. It does on a graph without loops
  (`LoopFree.AllHistoriesConverge`). With one, an input may refer to an ancestor whose only path takes a loop
  edge, so that no join waits for it; whether its result is seen then depends on where a crash falls
  (`Races.CrashChangesTheResult`). Histories converge exactly when there is no race between what their nodes
  read (`Reads.HistoriesConverge`).
- One approval decision settles every parked iteration of its node (`Retries.OneDecisionForTwo`); it agrees
  with the run exactly when the run gives that answer at each of them (`RunHistory.DecisionFollows`).
- A drive that falls back to inline after the pool has stopped is said to be covered by the earlier
  cancel-all; it is not, and can outlive the database (`Lifecycle.LateSweepWalksAfterClose`).
- A cancelled walk is said not to be walked again, but the context asked about is its caller's, which
  cancel-all does not reach; queued jobs start afresh too, and a walk registers its own context only after
  it has read its run. A chat turn, which nobody waits for before cancel-all, drives runs by its tools
  afterwards (`Leftovers.TurnOutlivesCancelAll`). When cancel-all is final is `Leftovers.CancelAllIsFinal`.
- Everything is said to be stopped before the database is closed; a re-index, the embedding worker or a
  webhook's fan-out runs in a goroutine of its own that nobody waits for
  (`Lifecycle.AsideOutlivesDatabase`). When the database is left alone is `Lifecycle.UntouchedAfterClose`.
- The queue is said to hold one job a run at most; a request or a chat turn that drives a queued run breaks
  this, and with it the idle check before the shutdown cancels (`Leftovers.OvertakenJob`). Nothing else does
  (`Leftovers.DeduplicatedUnlessOvertaken`).

## Model

| member | source | states |
|---|---|---|
| DepthFirst.BackIsMinimalFeedbackSet | demo/core/primitives/graph-canvas.js:35-48 | the loop edges are a feedback set, and a minimal one: without them the graph is acyclic, and putting any single one back makes it cyclic again |
| DepthFirst.BackClosesCycle | backend/internal/domain/workflow/graph.go:237-299 | each loop edge closes a cycle made of itself and forward edges only |
| DepthFirst.BackEmptyIffAcyclic | backend/internal/domain/workflow/graph.go:237-299 | the classifier finds nothing exactly when the graph is acyclic |
| DepthFirst.ForwardRanked | demo/core/primitives/graph-canvas.js:35-48 | the finishing order of the search ranks the nodes so that every forward edge leads strictly down |
| DepthFirst.BackWithinEdges | backend/internal/domain/workflow/graph.go:237-299 | what it returns are edges of the graph |
| DepthFirst.FirstListedIsEntered | backend/internal/domain/workflow/graph.go:237-299 | an edge on a cycle is a loop edge whenever the node it leads to is listed first |
| DepthFirst.EnteredIffOnCycle | backend/internal/domain/workflow/graph.go:237-299 | the order of the roots: an edge into a node that no node listed before it reaches is a loop edge exactly when it is on a cycle |
| DepthFirst.ExploreIsPostOrder | backend/internal/domain/workflow/graph.go:249-299 | the stack search finishes the nodes in the order of the textbook recursion: roots in declaration order, the edges of a node in declaration order, each node after all it leads to that was not seen |
| DepthFirst.BackIsUnfinished | backend/internal/domain/workflow/graph.go:237-299 | so the loop edges are exactly the edges into a node that does not finish, in that order, before the one they leave |
| DepthFirst.BuildOut | demo/core/primitives/graph-canvas.js:36-37 | the adjacency table lists each node's out-edges in declaration order |
| DepthFirst.Turn | demo/core/primitives/graph-canvas.js:40-45 | one turn of the explicit-stack loop: the cursor moves, a grey target is a loop edge, a white one is entered, an exhausted node turns black |
| DepthFirst.ExploreFrom | demo/core/primitives/graph-canvas.js:38-46 | the stack loop from one root ends and does what the recursive search does |
| DepthFirst.BackEdges | demo/core/primitives/graph-canvas.js:35-48 | the whole classifier returns exactly the sequence the specification search finds, in its order |
| Interpreter.Progress | backend/internal/app/scheduler/walk.go:152-240 | no deadlock: if something in play has no row and every recorded row is completed, something is ready, or the run has been led into a trigger |
| Interpreter.ReadyMeans | backend/internal/app/scheduler/walk.go:242-272 | a key without a row can run exactly when everything in play that leads into it has completed and at least one of those has taken its edge |
| Interpreter.CommittedMono | backend/internal/app/scheduler/walk.go:131-150 | what the recorded decisions commit the run to is never taken back by later rows |
| Interpreter.CommittedIsReached | backend/internal/app/scheduler/walk.go:152-204 | what is committed is in play |
| Interpreter.CommittedIsDestined | backend/internal/app/scheduler/walk.go:131-206 | whatever a sound table has committed to is called for by the results its nodes have |
| Interpreter.CompletedIsAccurate | backend/internal/app/scheduler/advance.go:156-172 | of a table at rest: the completed rows are exactly the keys the results call for if and only if no row failed and no completed row has led into a trigger, both of which the table shows |
| Interpreter.AccurateIffClosed | backend/internal/app/scheduler/advance.go:156-172 | of any table without a pending approval, at rest or not: it is complete and correct if and only if no row failed and every edge taken has led to a row |
| Interpreter.ClosedIffQuiescent | backend/internal/app/scheduler/walk.go:152-240 | every edge taken has led to a row exactly when nothing can run and nothing has been led into a trigger |
| Interpreter.NoEdgeNoStrayTrigger | backend/internal/app/scheduler/walk.go:208-214 | a graph without edges into triggers leads nothing into one |
| Interpreter.Determinate | backend/internal/app/scheduler/advance.go:26-129 | two tables that are accurate for the same results and have completed rows only are the same table |
| Interpreter.OverflowIsDestined | backend/internal/app/scheduler/walk.go:175-200 | the iteration cap fires only when the decisions really call for an iteration beyond it, and then no complete table exists |
| Interpreter.ForwardDeepens | backend/internal/domain/workflow/graph.go:237-299 | forward edges lead to nodes finished earlier, so the wait within one iteration is well founded |
| Walk.OrderIsCanonical | backend/internal/app/scheduler/walk.go:221-230 | the ready list is a function of the ready set: sorting by declaration index and iteration leaves one order |
| Walk.InsertKeeps | backend/internal/app/scheduler/walk.go:221-230 | inserting into the ready list keeps it sorted and adds just that key |
| Walk.FrontierDone | backend/internal/app/scheduler/walk.go:175-204 | when the queue is empty, what has been found is all that is in play |
| Walk.Walker.constructor | backend/internal/app/scheduler/walk.go:46-79 | the index of one advance: its adjacency table and its loop edges agree with the graph |
| Walk.Walker.Seeds | backend/internal/app/scheduler/walk.go:157-169 | the pass starts from the trigger nodes that hold a row at iteration 0, and from nothing else |
| Walk.Walker.Expand | backend/internal/app/scheduler/walk.go:175-204 | following the open edges of one key finds its open targets, or reports the loop beyond the cap |
| Walk.Walker.InPlay | backend/internal/app/scheduler/walk.go:152-204 | the breadth-first pass ends with exactly the keys in play, or reports a loop that exceeds the cap |
| Walk.Walker.Incoming | backend/internal/app/scheduler/walk.go:242-268 | whether one edge into a key is live, and whether it still waits for its source |
| Walk.Walker.PredecessorsSatisfied | backend/internal/app/scheduler/walk.go:242-272 | true exactly when some incoming edge is live and every live one has a completed source |
| Walk.Walker.ComputeReady | backend/internal/app/scheduler/walk.go:152-240 | returns exactly the ready keys, each within the cap, by declaration of their nodes and then by iteration, or a node whose loop exceeds the cap |
| FlowRun.InsertOnce | backend/internal/infra/store/flowrun/flowrun.go:270-281 | record-once: an existing row of the same node and iteration wins |
| FlowRun.ParkReadiesNothing | backend/internal/app/scheduler/advance.go:124-128 | parking changes nothing about what is in play, so a batch of approvals readies nothing |
| FlowRun.ParkedLeavesNothing | backend/internal/app/scheduler/advance.go:124-128 | yielding after a batch in which everything parked leaves nothing runnable behind |
| FlowRun.RecordKeepsSound | backend/internal/app/scheduler/dispatch.go:104-124 | recording a key that was ready at the start of its batch keeps the table sound although other rows came in between |
| FlowRun.ClearedRunsAgain | backend/internal/app/scheduler/run.go:451-466 | after a replay has cleared the failed rows a failed key can run again exactly when it could if it alone had no row |
| FlowRun.NodeRow | backend/internal/app/scheduler/dispatch.go:26-100 | a row completes unless the execution failed, its kind is unknown or it is an approval; an approval that does not fail parks; a completed row holds the result the node has |
| RunMachine.SeededSteady | backend/internal/app/scheduler/run.go:40-63 | a run starts with its trigger completed at iteration 0, and sound |
| RunMachine.RecordIsFresh | backend/internal/app/scheduler/advance.go:94-123 | with one drive at a time the key about to be recorded has no row, carried or stored: the uniqueness constraint never refuses a row and the re-read for a lost race is never needed |
| RunMachine.StepKeeps | backend/internal/app/scheduler/advance.go:26-172 | each durable write of the drive, of a decision, a timeout, a replay or a kill, and each crash, keeps the stored table sound, the carried one an earlier state of it, and a settling drive without anything ready in what it carries |
| RunMachine.RunKeeps | backend/internal/app/scheduler/advance.go:26-172 | so does every history of such steps |
| RunMachine.TerminalStays | backend/internal/infra/store/flowrun/flowrun.go:236-264 | what a run has settled as is changed by nothing but the reopening of a replay |
| RunDriver.Run.constructor | backend/internal/app/scheduler/run.go:40-63 | a run starts seeded, with no step taken |
| RunDriver.Run.Advance | backend/internal/app/scheduler/advance.go:26-129 | a drive ends, whatever others write between its store accesses; all it and they write are steps of the machine in order, it stops early only where it dies, and how it ended is its last step; if nobody else wrote and it completed its run, nothing is left that can run |
| RunDriver.Run.ReadRows | backend/internal/app/scheduler/advance.go:53-67 | the rows are read once, after the header |
| RunDriver.Run.RunTurn | backend/internal/app/scheduler/advance.go:68-128 | one turn: a loop beyond the cap fails the run, an empty ready list is idle, anything else is one batch, and a turn that advanced has added a row |
| RunDriver.Run.RunBatch | backend/internal/app/scheduler/advance.go:94-127 | a batch records its keys in order, each row carried on with; a failed row ends it with the header, and it advances when some row completed |
| RunDriver.Run.RunNext | backend/internal/app/scheduler/advance.go:96-117 | one node of a batch: it dies, fails its run, or leaves a row to carry |
| RunDriver.Run.StoreRow | backend/internal/app/scheduler/dispatch.go:104-124 | the row of a node is stored under the uniqueness constraint and carried |
| RunDriver.Run.FailRunHeader | backend/internal/app/scheduler/dispatch.go:129-144 | the header write after a failed row, which a run that has settled since does not take |
| RunDriver.Run.Finalize | backend/internal/app/scheduler/advance.go:156-172 | the stored rows are read again; with a parked row the run waits, without one it is marked completed, if it is still running |
| RunDriver.Run.DecideApproval | backend/internal/app/scheduler/run.go:369-381 | first decision wins: it takes effect exactly when it is yes or no and some row of the node is still parked, on all of its parked iterations |
| RunDriver.Run.TimeoutFails | backend/internal/app/scheduler/run.go:425-442 | a timeout that fails its run settles the parked row, then a running header; a crash between leaves the header |
| RunDriver.Run.Replay | backend/internal/app/scheduler/run.go:451-466 | of failed runs only: afterwards no row is failed, exactly the failed rows are gone and every other is as it was, and then the header is reopened; a crash between leaves the header |
| RunDriver.Run.ReopenForReplay | backend/internal/infra/store/flowrun/flowrun.go:248-264 | the header is looked at again and, if still failed, reopened by an unconditional write |
| RunDriver.Run.Kill | backend/internal/app/scheduler/kill.go:85-110 | a run that was running when listed is marked cancelled and then its parked rows failed; a crash between leaves the rows |
| RunDriver.Run.CancelHeader | backend/internal/infra/store/flowrun/flowrun.go:236-246 | a run that has settled since it was listed keeps its state |
| RunDriver.Run.CancelParkedNodes | backend/internal/infra/store/flowrun/flowrun.go:355-362 | parked rows, and no others, are failed, whatever the header says |
| RunDriver.Run.DeleteFailedNodes | backend/internal/infra/store/flowrun/flowrun.go:370-376 | afterwards no row is failed; exactly the failed rows are gone and every other is as it was |
| RunHistory.StepFollows | backend/internal/app/scheduler/run.go:369-381 | a step keeps every recorded result the run's own if and only if it is not a decision that disagrees with it |
| RunHistory.DecisionFollows | backend/internal/infra/store/flowrun/flowrun.go:303-321 | a decision agrees with the run's results if and only if they give that decision at every parked iteration, since the update is keyed by node alone |
| RunHistory.CompletedRun | backend/internal/app/scheduler/advance.go:156-172 | after every history that marks the run completed: it has executed exactly what the results it recorded call for if and only if no row failed, none has led into a trigger, and nothing can run in the stored rows |
| RunHistory.MissedIsOvertaken | backend/internal/app/scheduler/advance.go:53-67 | something can run when the drive has found nothing only if a row it carries has been settled or cleared behind its back |
| RunHistory.QuietDriveFinishes | backend/internal/app/scheduler/advance.go:26-172 | a drive during which nobody else writes leaves nothing that can run when it completes its run |
| RunHistory.PartialIsPartOfFinal | backend/internal/app/scheduler/run.go:344-361 | what any history has completed at any point is, with the same result, in the table of every correct history of that run, each history with results of its own, if and only if no key that both have completed came out differently |
| RunHistory.RecordedStaysInPlay | backend/internal/app/scheduler/walk.go:131-206 | nothing speculative executes: nothing that happens later cuts off a recorded row |
| Reads.StepExplains | backend/internal/app/scheduler/walk.go:274-313 | a row completes in one of two ways: an execution, with what its node makes of the rows its batch was computed from, or a decision |
| Reads.ScopeHolds | backend/internal/app/scheduler/walk.go:274-313 | what a node reads: of each of its ancestors the result of the last iteration up to its own that has completed, and the empty map where none has |
| Reads.PayloadIsRead | backend/internal/app/scheduler/walk.go:274-313 | every execution, at whatever iteration, reads the payload the run was started with |
| Reads.ResultOf | backend/internal/app/scheduler/walk.go:274-313 | after every history of one logic each completed row holds the payload, the answer to its approval, or what its node makes of the scope it read |
| Reads.ReadOfFacts | backend/internal/app/scheduler/advance.go:94-123 | what an execution read is an earlier state of the final table in which its key was ready |
| Reads.FirstDifference | backend/internal/app/scheduler/advance.go:15-20 | two complete tables that differ anywhere have a first difference: the result of a key that is in both, with everything that should come before it the same |
| Reads.HistoriesConverge | backend/internal/app/scheduler/advance.go:15-20 | two histories of one logic, in any interleaving of drives, crashes, replays and decisions and each with results of its own, that both complete the run correctly leave the very same table if and only if there is no race: no node that makes something else of what it read in the one than in the other although everything before it is the same |
| Reads.RaceIsUntimely | backend/internal/app/scheduler/walk.go:274-313 | in a race one of the two executions has read too little or too much: not exactly what is visible to it and should come before it |
| Reads.TimelyHistoriesConverge | backend/internal/app/scheduler/advance.go:15-20 | so histories in which every execution reads exactly that converge |
| LoopFree.StepKeepsJoined | backend/internal/app/scheduler/walk.go:234-272 | without loops every step keeps that whatever has a row has waited for all that is ever live into it |
| LoopFree.Awaited | backend/internal/app/scheduler/walk.go:234-272 | while something in play has not completed, nothing behind it is ready |
| LoopFree.ReadsAll | backend/internal/app/scheduler/walk.go:274-313 | without loops an execution has read every row any of its ancestors ever completes |
| LoopFree.FailedRunsAgain | backend/internal/app/scheduler/run.go:451-466 | on a graph without loops, in every history, a replay makes every failed key ready again |
| LoopFree.NothingIsWasted | backend/internal/app/scheduler/run.go:344-361 | on a graph without loops what any history of the logic has completed at any point is, with the same result, in the table of every correct one |
| LoopFree.AllHistoriesConverge | backend/internal/app/scheduler/advance.go:15-20 | on a graph without loops two histories of the same logic that both complete the run correctly always leave the very same table |
| Races.RacedAccepted | backend/internal/domain/workflow/graph.go:27-100 | the graph of the two histories below is accepted |
| Races.CrashChangesTheResult | backend/internal/app/scheduler/advance.go:15-20 | with a loop this fails: two histories of the same nodes, one of them with a crash, both complete the run correctly, and an action has seen the result of an ancestor in the one and not in the other |
| Races.NothingJoinsLate | backend/internal/app/scheduler/walk.go:234-272 | and not because a join came late: in none of their tables has a key with a row a source it did not wait for |
| Mishaps.LineAccepted | backend/internal/domain/workflow/graph.go:27-100 | the graphs of the three histories below are accepted |
| Mishaps.StaleDriveCompletes | backend/internal/app/scheduler/advance.go:53-67 | an approval decided while the drive that parked it is under way: the run is completed, the node the decision leads to can run, and no drive will begin again |
| Mishaps.CrashedFailureLooksComplete | backend/internal/app/scheduler/dispatch.go:129-144 | a crash between the failed row and the header makes the next drive complete the run |
| Mishaps.StrayTriggerLooksComplete | backend/internal/app/scheduler/walk.go:208-214 | an edge into a trigger is taken, never executed, and the run completes |
| Retries.RetriedAccepted | backend/internal/domain/workflow/graph.go:27-100 | the graph of the history below is accepted |
| Retries.OneDecisionForTwo | backend/internal/infra/store/flowrun/flowrun.go:303-321 | an undisturbed history parks one approval at two iterations; when the run answers them differently, every decision contradicts it |
| Validator.ValidateGraph | backend/internal/domain/workflow/graph.go:27-100 | no error exactly for the graphs that meet every check |
| Validator.IndexNodes | backend/internal/domain/workflow/graph.go:32-57 | the node pass: unique ids, well-formed nodes, at least one trigger |
| Validator.RefNamesOneKind | backend/internal/domain/workflow/graph.go:139-160 | a reference fits one kind of node only |
| Validator.ShapeMeans | backend/internal/domain/workflow/graph.go:108-160 | the shape checks together: a reference that fits the kind, and no blank wiring into an action |
| Validator.PortsDecide | backend/internal/domain/workflow/graph.go:164-186 | the ports fit what decides them: an edge of an approval is taken by a yes or a no, one of a control by naming its port and never by naming none, the others always |
| Validator.CheckEdges | backend/internal/domain/workflow/graph.go:59-83 | the edge pass: unique ids, known endpoints, no self-loop, a port where one is due |
| Validator.Sweep | backend/internal/domain/workflow/graph.go:188-219 | the reachability pass finds exactly the nodes a trigger leads to |
| Validator.CheckReachability | backend/internal/domain/workflow/graph.go:188-219 | no error exactly when every node is reached from a trigger |
| Validator.CheckLoops | backend/internal/domain/workflow/graph.go:90-99 | no error exactly when every loop edge leaves a control or approval node |
| Validator.AcceptedLoopsGuarded | backend/internal/domain/workflow/graph.go:90-99 | in an accepted graph every cycle passes through a control or approval node |
| Validator.LoopsGuardedMeans | backend/internal/domain/workflow/graph.go:90-99 | guarded loops: a routing node on every directed cycle |
| LoopOrder.AcceptanceDependsOnOrder | backend/internal/domain/workflow/graph.go:237-299 | the converse is false: two listings of one graph, both with a decision on the cycle, of which the loop check takes one and refuses the other |
| LoopOrder.PassesInEveryListing | backend/internal/domain/workflow/graph.go:90-99 | the loop check passes in every order of the nodes if and only if every edge on a cycle leaves a control or approval node |
| LoopOrder.AcceptedInEveryListing | backend/internal/domain/workflow/graph.go:27-100 | an accepted graph is accepted in every order of its nodes if and only if that holds |
| LoopOrder.RelistedGuarded | backend/internal/domain/workflow/graph.go:90-99 | whether there is a decision on every cycle does not depend on the order |
| LoopOrder.OneListingAccepted | backend/internal/domain/workflow/graph.go:27-100 | the graph of that counterexample is accepted in one listing and refused in the other |
| WorkflowOps.WireRoundTrip | demo/core/primitives/graph-canvas.js:66-71 | the wire form of a node or edge decodes to what it was made from, but for a node's notes, which the canvas does not send |
| WorkflowOps.ApplyOps | backend/internal/domain/workflow/ops.go:82-95 | the op loop applies the ops in order on a copy, the header op and patches that clear a field included, and stops at the first error, stray keys and bodies that do not decode among them |
| WorkflowOps.OpTaken | backend/internal/domain/workflow/ops.go:128-277 | when an op is taken: what is added must be new and named, what is changed or deleted must be there, and the header op always is |
| WorkflowOps.OpChanges | backend/internal/domain/workflow/ops.go:128-277 | what a taken op changes: the header op nothing, an addition the end of the list, an update the one node or edge in its place, a deletion only ever takes away |
| WorkflowOps.PatchMeans | backend/internal/domain/workflow/ops.go:279-340 | a patch that puts every field makes the node or edge another one under its own id, one that names none leaves it alone, one that clears all leaves the id |
| WorkflowOps.ApplyConcat | backend/internal/domain/workflow/ops.go:82-95 | two op lists in a row: the second starts from what the first leaves, with its positions shifted |
| WorkflowOps.ApplyShift | backend/internal/domain/workflow/ops.go:82-95 | the outcome does not depend on where the list starts counting |
| Edits.IsBackMeansNewCycle | demo/core/primitives/graph-canvas.js:49-58 | a new edge is called a loop edge exactly when adding it closes a cycle through it |
| Edits.VerdictMeans | demo/core/primitives/graph-canvas.js:55-64 | when an edge is granted and why it is refused, and its port: from a control it is called a retry exactly when it closes a cycle and is the next branch otherwise; an approval says yes before it says no |
| Edits.DigitsMean | demo/core/primitives/graph-canvas.js:60 | branch numbers and the numbers of fresh ids are decimal, without leading zeros |
| Edits.GrantedKeepsGuarded | demo/core/primitives/graph-canvas.js:55-64 | an edge the editor grants keeps a routing node on every cycle |
| Edits.PerformKeeps | demo/core/primitives/graph-canvas.js:199-207 | on every well-formed graph an edit keeps unique ids and no dangling edge, keeps a routing node on every cycle if there was one, and, if the graph met them, the port, parallel-edge and approval-port rules |
| Edits.RunKeeps | demo/core/primitives/graph-canvas.js:199-207 | so does every run of edits |
| Edits.ApprovalHasTwoExits | demo/core/primitives/graph-canvas.js:60-63 | an approval never has three out-edges |
| Edits.HealthyAcceptance | backend/internal/domain/workflow/graph.go:27-100 | an edited graph is accepted exactly when it has a trigger, every node is reached and the listing passes the loop check |
| Edits.HealthyInEveryListing | backend/internal/domain/workflow/graph.go:27-100 | and in every order of its nodes exactly when it has a trigger, every node is reached and every edge on a cycle leaves a control or approval node |
| Edits.ServerCascades | backend/internal/domain/workflow/ops.go:194-215 | deleting a node on the server already removes its edges |
| Edits.DropNodeReplays | demo/core/primitives/graph-canvas.js:202-207 | on every well-formed graph the ops emitted for a node deletion are taken exactly when the node had no edges, since the edge deletions that follow it find their edges gone |
| Edits.PerformReplays | demo/core/primitives/graph-canvas.js:66-71 | on every well-formed graph the ops of an edit, replayed, succeed exactly when the edit is replayable and then give the live graph |
| Edits.RunReplays | demo/core/primitives/graph-canvas.js:66-71 | from every well-formed graph, replaying all ops of a run succeeds exactly when no step deleted a node with edges, and then gives the graph on the canvas |
| Edits.ConnectedDeletionRefused | backend/internal/domain/workflow/ops.go:254-267 | the smallest refused case |
| Canvas.Reachable | demo/core/primitives/graph-canvas.js:49-54 | the queue search ends and answers exactly whether a path of at least one edge exists |
| Canvas.ValidateEdge | demo/core/primitives/graph-canvas.js:55-64 | the verdict: refusal and its reason, or the port and whether the edge closes a loop |
| Canvas.UniqueId | demo/core/primitives/graph-canvas.js:201 | a fresh id within one more candidate than there are nodes |
| Canvas.CandidatesDistinct | demo/core/primitives/graph-canvas.js:201 | no two candidates coincide |
| Canvas.KindsNamedApart | demo/core/primitives/graph-canvas.js:201 | nodes of different kinds are never given the same name |
| Canvas.TakenBound | demo/core/primitives/graph-canvas.js:201 | so at most as many candidates as nodes can be taken |
| Canvas.CountPorts | demo/core/primitives/graph-canvas.js:60 | the number the next control port is named by |
| Canvas.Engine.constructor | demo/core/primitives/graph-canvas.js:116-118 | the engine starts on any graph with unique ids and no dangling edge, with nothing emitted |
| Canvas.Engine.AddNode | demo/core/primitives/graph-canvas.js:200 | adds a fresh node where it was dropped and emits its op; the op log still replays to the live graph |
| Canvas.Engine.AddEdge | demo/core/primitives/graph-canvas.js:199 | adds an edge exactly when the verdict grants it, with the granted port |
| Canvas.Engine.DeleteNodeAndEdges | demo/core/primitives/graph-canvas.js:202-207 | removes a node and its edges and emits the deletions |
| Canvas.Engine.DeleteEdgeOnly | demo/core/primitives/graph-canvas.js:202-207 | removes one edge and emits its deletion |
| Canvas.Engine.DeleteSelected | demo/core/primitives/graph-canvas.js:202-207 | deletes what is selected in edit mode, and nothing otherwise |
| Canvas.Engine.EndDrag | demo/core/primitives/graph-canvas.js:190-192 | a drag that moved records the rounded position, one that did not emits nothing |
| Canvas.DroppedIsDragged | demo/core/primitives/graph-canvas.js:190-200 | a node dropped at a point is what one dropped elsewhere becomes by being dragged there |
| Ranks.AssignRanks | demo/core/primitives/graph-canvas.js:97-104 | the queue dequeues every node, so the null-rank fallback is never used, and the ranks it leaves are the longest-path ranks |
| Ranks.RanksAreLongest | demo/core/primitives/graph-canvas.js:103 | a rank is the length of the longest forward path ending at the node |
| Ranks.TightIsLongest | demo/core/primitives/graph-canvas.js:103 | ranks that every edge climbs and some edge attains are longest-path lengths |
| Ranks.AllDequeued | demo/core/primitives/graph-canvas.js:102-103 | no node can be left waiting, because the forward edges are acyclic |
| Ranks.InDegrees | demo/core/primitives/graph-canvas.js:98-100 | counts the forward edges into each node |
| Ranks.StartQueue | demo/core/primitives/graph-canvas.js:101 | the queue starts with the nodes nothing leads to |
| Ranks.RelaxFrom | demo/core/primitives/graph-canvas.js:103 | relaxing a dequeued node's edges queues each target when its last edge is relaxed |
| Ranks.ForwardIsWithout | demo/core/primitives/graph-canvas.js:98 | the edges kept are those the classifier did not return |
| Sweeps.MedianIsMiddle | demo/core/primitives/graph-canvas.js:108 | of a node's placed neighbours fewer than half stand before its median and at most half after it |
| Sweeps.KeysAreMedians | demo/core/primitives/graph-canvas.js:108-109 | each node is sorted by its own median |
| Sweeps.SortByIsStable | demo/core/primitives/graph-canvas.js:109 | the sort is by median and keeps the order of equal medians |
| Sweeps.PassesSameNodes | demo/core/primitives/graph-canvas.js:109 | no sweep moves a node to another layer |
| Sweeps.SweepsStayInStep | demo/core/primitives/graph-canvas.js:107-109 | positions stay the indices in the layers, so each median is taken of where the neighbours are then |
| Sweeps.SweepSorts | demo/core/primitives/graph-canvas.js:109 | a sweep leaves its layer ordered by the medians of where the neighbours were, nodes of one median in the order they had, and no other layer touched |
| Sweeps.PassesUntangle | demo/core/primitives/graph-canvas.js:107-109 | after each pass, in every layer, of two nodes with placed neighbours in its direction the one placed first has the smaller median or the same: predecessors after a pass downwards, successors after one upwards |
| Sweeps.SweepOne | demo/core/primitives/graph-canvas.js:109 | the layer returned is ordered by the medians over the positions given, stably, and holds the same nodes; no other layer changes |
| Sweeps.RunPass | demo/core/primitives/graph-canvas.js:109 | a pass sweeps every layer once, downwards by predecessors or upwards by successors, each on what the one before left |
| Sweeps.RunSweeps | demo/core/primitives/graph-canvas.js:107-109 | eight alternating passes from declaration order |
| Layout.BuildLayers | demo/core/primitives/graph-canvas.js:105-106 | one layer a rank up to the highest, each in declaration order |
| Layout.LayerInOrder | demo/core/primitives/graph-canvas.js:105-106 | a layer keeps the order of declaration |
| Layout.Neighbours | demo/core/primitives/graph-canvas.js:98-100 | predecessor and successor lists over the forward edges, in edge order |
| Layout.TailsAreHeads | demo/core/primitives/graph-canvas.js:98-100 | the successors are the targets of the node's edges in edge order, the predecessors the successors with every edge turned round |
| Layout.SlotUnique | demo/core/primitives/graph-canvas.js:106-109 | each slot belongs to the layer of its node's rank, and a node has one slot only |
| Layout.PlaceLayers | demo/core/primitives/graph-canvas.js:111 | every node gets the coordinates of its slot |
| Layout.SlotsApart | demo/core/primitives/graph-canvas.js:110-111 | two slots are at least a node and a gap apart along one axis |
| Layout.LayerCentred | demo/core/primitives/graph-canvas.js:110-111 | across the main axis the nodes of a layer follow one another step by step, with as much room before the first as the widest layer leaves after the last |
| Layout.LayoutGraph | demo/core/primitives/graph-canvas.js:97-112 | the whole layout, in both directions: longest-path ranks, node rectangles pairwise a gap apart and none before the padding, and, in every layer, of two nodes with successors the one placed first has the smaller median of its successors' places, or the same |
| Layout.UpwardBySuccessors | demo/core/primitives/graph-canvas.js:107-109 | what any number of passes achieves whose last goes upwards: the layers hold their nodes, ordered by where their successors stand |
| Layout.ForwardGoesForward | demo/core/primitives/graph-canvas.js:103-111 | a forward edge ends a full node and gap further along the main axis |
| Routes.RouteIsOrthogonal | demo/core/primitives/graph-canvas.js:79-94 | facing sides are opposite, so the mixed-corner branch is dead and every segment runs along an axis |
| Routes.RouteJoins | demo/core/primitives/graph-canvas.js:74-94 | the route leaves one node from the middle of a side straight outwards and enters the other likewise, the side is the one the line between the centers leaves through, and the way back is the same route |
| Routes.SpanIsLength | demo/core/primitives/graph-canvas.js:87 | on the routes drawn for forward edges the length is the sum of the two distances along the axes |
| Routes.PointAtMid | demo/core/primitives/graph-canvas.js:87 | the label point lies on the route, half its length along, whatever its segments, for any length that grows in proportion along a segment |
| View.ThereAndBack | demo/core/primitives/graph-canvas.js:128 | screen-to-graph and graph-to-screen are inverse |
| View.ZoomKeepsPoint | demo/core/primitives/graph-canvas.js:182 | a zoom keeps the graph point under the cursor, clamped or not |
| View.ZoomAllKeepsPoint | demo/core/primitives/graph-canvas.js:182 | so does any sequence of zooms at one cursor |
| View.RescaleUndone | demo/core/primitives/graph-canvas.js:182 | zooming by a factor and its inverse restores the scale exactly when the first step was not clamped, or started at the opposite bound |
| View.FitShowsAll | demo/core/primitives/graph-canvas.js:187 | fitting shows exactly the nodes that stick out of the fitted area by no more than the slack on each side; when the scale asked for is not below the floor these are the nodes not too far left or above, so all of a drawing without negative coordinates |
| View.AreaShown | demo/core/primitives/graph-canvas.js:187 | the fitted area is inside the margins exactly when the scale it asks for is not below the floor, and below the ceiling it then fills the window along some axis |
| View.FitShowsLoops | demo/core/primitives/graph-canvas.js:122-127 | and the loop edges between nodes without negative coordinates are shown with them |
| View.FarIsTight | demo/core/primitives/graph-canvas.js:122 | the area fitted is no wider and no higher than its rightmost and its lowest node ask for |
| View.Viewport.Wheel | demo/core/primitives/graph-canvas.js:182 | the wheel keeps the scale in range and the graph point under the cursor |
| View.Viewport.ZoomBy | demo/core/primitives/graph-canvas.js:223 | the zoom buttons do the same about the middle of the window |
| View.Viewport.Pan | demo/core/primitives/graph-canvas.js:183-185 | the graph point grabbed follows the pointer |
| View.Viewport.FitTo | demo/core/primitives/graph-canvas.js:187 | the area is computed anew from where the nodes stand and centred at a scale in range, with its floor, its ceiling and its fallback for a scale of nothing |
| LineDiff.FillTable | demo/core/primitives/version-diff.js:10-11 | the bottom-up table holds the recurrence at every pair of suffixes |
| LineDiff.DiffLines | demo/core/primitives/version-diff.js:8-15 | the greedy walk and the two trailing loops produce the specified rows |
| LineDiff.LcsIsUpperBound | demo/core/primitives/version-diff.js:11 | no common subsequence is longer than the table says: taking an equal head is never a loss |
| LineDiff.LcsIsAttained | demo/core/primitives/version-diff.js:12-14 | what the diff shares is a common subsequence of that length |
| LineDiff.DiffIsScript | demo/core/primitives/version-diff.js:8-15 | dropping added rows gives the old lines, dropping deleted ones the new |
| LineDiff.DiffIsOptimal | demo/core/primitives/version-diff.js:8-15 | no script from the old lines to the new has fewer additions and deletions |
| LineDiff.NumberRows | demo/core/primitives/version-diff.js:62-71 | rows not deleted are numbered 1 up in the order of the new lines, and the counters are right |
| LineDiff.JoinSplit | demo/core/primitives/version-diff.js:9 | splitting at line breaks loses nothing |
| LineDiff.SplitJoin | demo/core/primitives/version-diff.js:9 | and lines without breaks are what splitting their joined text gives back |
| LineDiff.LinesHaveNoBreak | demo/core/primitives/version-diff.js:9 | no line contains a line break |
| LineDiff.RowsRebuildTexts | demo/core/primitives/version-diff.js:58-71 | the rows rebuild both texts, the first version included |
| LineDiff.FirstVersionPlain | demo/core/primitives/version-diff.js:62-64 | a first version is shown without additions or deletions |
| Pool.Service.StartPool | backend/internal/app/scheduler/pool.go:46-65 | the first call on a new service opens an empty queue and leaves the guard the lifecycle boots with; a call on a started pool changes nothing |
| Pool.Service.EnqueueAdvance | backend/internal/app/scheduler/pool.go:127-147 | the locked section of an enqueue: drive inline, fold into the walk under way, already queued, or to be sent |
| Pool.Service.SendJob | backend/internal/app/scheduler/pool.go:162-171 | a send to a closed queue drops the job and clears its slot |
| Pool.Service.TakeJob | backend/internal/app/scheduler/pool.go:56-63 | a worker takes the oldest job |
| Pool.Service.EnterDrive | backend/internal/app/scheduler/pool.go:187-196 | the first locked section of a drive |
| Pool.Service.ExitWalk | backend/internal/app/scheduler/pool.go:198-219 | the locked section that ends a walk or asks for one more |
| Pool.Service.StopPool | backend/internal/app/scheduler/pool.go:75-87 | closes the queue and clears the started flag; a second call changes nothing |
| Lifecycle.StepKeepsSingleFlight | backend/internal/app/scheduler/pool.go:187-220 | in every interleaving of loops, workers, requests, chat turns and the shutdown at most one thread walks a run, and the guard knows which |
| Lifecycle.StepKeepsApart | backend/internal/app/scheduler/pool.go:127-147 | in every interleaving a run being walked has no slot set: what is signalled to it folds into the walk |
| Lifecycle.StepKeepsRemembered | backend/internal/app/scheduler/pool.go:127-220 | in every interleaving each signal is on its way to a walk that begins after it, or was given up on |
| Lifecycle.NoSignalLost | backend/internal/app/scheduler/pool.go:119-220 | when nothing is moving, a signal left unanswered was dropped, and that needs a closed queue or a request whose context died |
| Lifecycle.StepKeepsOrdered | backend/internal/bootstrap/build.go:406-462 | each done channel is closed once if its loop returned and never otherwise, and a wait that was not cut short has done its work |
| Lifecycle.RunKeepsSound | backend/internal/bootstrap/build.go:311-462 | all of this holds after every schedule from boot |
| Lifecycle.UntouchedAfterClose | backend/internal/bootstrap/build.go:406-462 | the database is not touched after its close, in any continuation, exactly when both loops had returned, all requests were answered, no conversation had a turn under way or waiting and no work started aside was left; if no wait was cut short, exactly when the last holds |
| Lifecycle.AsideOutlivesDatabase | backend/internal/app/search/service.go:197-215 | the schedule on which it fails although nothing was cut short: a re-index started aside, which nobody waits for, is at work over a closed database |
| Lifecycle.LateSweepWalksAfterClose | backend/internal/app/scheduler/pool.go:67-74 | the schedule on which it fails: a sweep that overran the grace drives a run inline under a context no cancel-all has seen, after the close |
| Leftovers.CancelAllIsFinal | backend/internal/app/scheduler/kill.go:54-74 | after cancel-all, in any continuation, no node runs under a live context again exactly when both loops had returned, all requests were answered, no conversation had a turn under way or waiting, nothing was queued, held or about to register, and no cancelled walk owed another; if no wait was cut short, all but the conversations is sure of the first three |
| Leftovers.TurnOutlivesCancelAll | backend/internal/app/chat/runner.go:116-144 | the schedule on which it fails although nothing was cut short or left in the pool: a chat turn, which is waited for only later, drives a run by one of its tools |
| Leftovers.OpeningWalks | backend/internal/app/scheduler/advance.go:27-37 | a walk that has been admitted but has not registered its context is out of cancel-all's reach |
| Leftovers.PendingWalksAgain | backend/internal/app/scheduler/pool.go:198-219 | a pending signal makes a cancelled walk go round again, because the context asked about is its caller's |
| Leftovers.StepDeduplicates | backend/internal/app/scheduler/pool.go:127-196 | one job a run, and a slot set exactly when there is one: every step keeps that, except a request or a chat turn that drives a run with its slot set, which always breaks it |
| Leftovers.DeduplicatedUnlessOvertaken | backend/internal/app/scheduler/pool.go:127-196 | so it holds throughout a schedule, until the queue closes, exactly when no request or turn in it overtakes a job |
| Leftovers.WalkedHasNoJob | backend/internal/app/scheduler/pool.go:127-196 | without overtaking, a run being walked has no job, queued or held |
| Leftovers.IdleMeansDrained | backend/internal/app/scheduler/pool.go:97-117 | without overtaking, a pool that looks idle has no job queued or held, and is idle exactly when no request and no turn is about to drive |
| Leftovers.OvertakenJob | backend/internal/app/scheduler/pool.go:187-196 | a request that drives a queued run leaves its job behind: the pool looks idle with a job in its queue, and the run can be queued twice |
| Completion.ShutdownCanFinish | backend/internal/bootstrap/build.go:406-462 | the shutdown cannot get stuck: from every reachable state some schedule closes the database |
| Completion.WorkersCanReturn | backend/internal/app/scheduler/pool.go:75-87 | the wait for the workers can end: each of their steps leaves less to do |
| Completion.ChatsCanReturn | backend/internal/app/chat/chat.go:494-506 | so can the wait for the conversations, whatever their turns are at when they are cancelled |
| Navigation.Switch | demo/core/app.js:98-111 | the bell toggle recurses at most once, because the ocean it goes back to is never the bell |
| Navigation.SwitchKeepsCoherent | demo/core/app.js:98-111 | pressing keeps the coherence of tokens, highlight and panels |
| Navigation.PressLeads | demo/core/app.js:98-111 | where a press leads: to the axis pressed, and from the bell pressed again back to the ocean left for it, loading that |
| Navigation.BellTwice | demo/core/app.js:101-106 | the bell pressed twice leaves ocean and highlight as they were |
| Navigation.ArriveKeepsCoherent | demo/core/app.js:104-115 | so does any load coming back |
| Navigation.EventsKeepCoherent | demo/core/app.js:92-116 | in every interleaving writes to rail and sea carry strictly increasing tokens, the highlight is the current axis, and with nothing pending the rail, and off the bell the sea, belong to it |
| Navigation.LoadOrderIsInvisible | demo/core/app.js:92-116 | the order in which loads come back cannot be seen: the same presses end with the same rail, highlight and, off the bell, sea |
| Navigation.BellStrandsTheSea | demo/core/app.js:101-106 | under the bell the sea may be an older ocean than the one to go back to |
| Navigation.Controller.constructor | demo/core/app.js:92 | nothing current, nothing shown, the first screen to go back to |
| Navigation.Controller.SwitchOcean | demo/core/app.js:98-111 | the part of a switch before its first wait: token, current, highlight and the load it starts |
| Navigation.Controller.Begin | demo/core/app.js:98-111 | the same, the toggle's recursion included, which ends after one level |
| Navigation.Controller.Resume | demo/core/app.js:104-116 | the part after the wait, dropped if the token has moved |
| SidebarFilter.OnScreenIffHit | demo/core/primitives/sidebar-list.js:195-208 | with a query, a row is on screen, everything around it displayed and unfolded, exactly when some row of its subtree matches |
| SidebarFilter.ChainIsAncestry | demo/core/primitives/sidebar-list.js:201-202 | the climb from a row finds exactly the rows that parent links lead to |
| SidebarFilter.HitIsMatchInside | demo/core/primitives/sidebar-list.js:195-205 | a row is displayed exactly when it or some row inside it, by parent links, contains the query |
| SidebarFilter.ParentShown | demo/core/primitives/sidebar-list.js:199-205 | with a query the row around a displayed row is displayed and unfolded: no match sits in a hidden block |
| SidebarFilter.OnScreenByParent | demo/core/primitives/sidebar-list.js:57-62 | a row is on screen when it is displayed and the row around it is on screen and unfolded, or, at the top, its type and section are |
| SidebarFilter.MatchesMeans | demo/core/primitives/sidebar-list.js:197-198 | a row matches exactly when its text contains the query |
| SidebarFilter.DisplayedByLastQuery | demo/core/primitives/sidebar-list.js:195-208 | what is displayed depends on the last query alone |
| SidebarFilter.Sidebar.constructor | demo/core/primitives/sidebar-list.js:65-83 | the list starts with whatever rendering has folded and displayed |
| SidebarFilter.Sidebar.ApplyFilter | demo/core/primitives/sidebar-list.js:195-208 | the three passes agree with the subtree reading, for rows, types and sections, displayed and unfolded; with a query every displayed row has the row around it displayed and unfolded |
| SidebarFilter.Sidebar.ShowMatches | demo/core/primitives/sidebar-list.js:198 | the first pass: each row by its own text |
| SidebarFilter.Sidebar.Climb | demo/core/primitives/sidebar-list.js:201-202 | the climb displays and unfolds exactly the rows the match is nested in |
| SidebarFilter.Sidebar.ShowAncestors | demo/core/primitives/sidebar-list.js:199-205 | the second pass displays and unfolds exactly the rows with a match below them, and unfolds their types and sections |
| SidebarFilter.Sidebar.HideEmptyTypes | demo/core/primitives/sidebar-list.js:206 | a type is displayed exactly when it contains a match |
| SidebarFilter.Sidebar.HideEmptySections | demo/core/primitives/sidebar-list.js:207 | a section is displayed exactly when it contains a match |
| Highlight.EscapeRoundTrip | demo/core/base.js:48-52 | escaping is undone by decoding |
| Highlight.EscapeHidesBrackets | demo/core/base.js:48-52 | escaped text has no angle bracket and no quote |
| Highlight.Next | demo/core/primitives/code-editor.js:20 | the leftmost match: nothing matches before it, without it nothing matches at all, and it is never empty, so the loop ends |
| Highlight.KindMeans | demo/core/primitives/code-editor.js:9 | which alternative matches is decided by the first characters |
| Highlight.CommentMeans | demo/core/primitives/code-editor.js:9 | a comment goes to the end of its line or to its first closing mark |
| Highlight.QuotedMeans | demo/core/primitives/code-editor.js:9 | a text goes exactly to its first quote that is not escaped |
| Highlight.ArgumentMeans | demo/core/primitives/code-editor.js:9 | a placeholder goes to its first brace, or over the digits of an argument |
| Highlight.NumberMeans | demo/core/primitives/code-editor.js:9 | a number is digits with at most one point between, and takes its fraction whenever that ends as a word does |
| Highlight.NameMeans | demo/core/primitives/code-editor.js:9 | a name goes over all it can |
| Highlight.StyleMeans | demo/core/primitives/code-editor.js:20-33 | which class a token gets, by its first characters, and for names by the keywords and the parenthesis that follows |
| Highlight.HighlightCode | demo/core/primitives/code-editor.js:16-35 | the loop over the matches prints the specified markup |
| Highlight.MarkupShowsCode | demo/core/primitives/code-editor.js:16-35 | without its tags the markup is the escaped code, and its only tags are flat, closed spans |
| Highlight.HighlightLosesNothing | demo/core/primitives/code-editor.js:16-35 | what a browser shows is the code itself |
| Highlight.MarkupColours | demo/core/primitives/code-editor.js:16-35 | every character of a token is shown in the token's class, and every other in none |

## Left out

- RunDriver.Run.Advance: input expressions, pinned references and the entities behind them are not modelled beyond what they can read, and a result keeps only its string-valued fields.
- Reads.ResultOf: a node is a function of its key and the scope it reads, the same in both histories; one that returns something else when executed again after a crash is covered only by the statements without a logic (`RunHistory.CompletedRun`, `RunHistory.PartialIsPartOfFinal`). The answers of people are given by key.
- Reads.RaceIsUntimely: one way; an execution that has read too little or too much may make the same of it.
- RunDriver.Run.RunBatch: other errors of the store, which end a drive without recording anything, are not told apart from a crash; the re-read after a lost race is left out because `RunMachine.RecordIsFresh` shows it is never reached.
- RunDriver.Run.Kill: one run; the list of a workflow's running runs, and the workflow's own state, are not modelled.
- FlowRun.NodeRow: the text of an error and the rendered approval form are not part of a row.
- Interpreter.Determinate: needs the two tables to follow the same results; what holds of histories with results of their own is `Reads.HistoriesConverge`.
- RunHistory.MissedIsOvertaken: one way; a row settled behind the drive's back need not lead to anything that can run.
- Lifecycle.StepKeepsSingleFlight: boot's own recovery enqueues before serving and is not a thread of its own; parallel tool calls of one chat turn are taken one after another; what a request or a turn does besides driving runs is not modelled, nor are the trigger listeners and the index worker, which drive no run and are joined without a bound before the close, and the processes stopped after them.
- Pool.Service.StartPool: opening the pool again after it has stopped, which the program never does, is taken to open an empty queue.
- Lifecycle.StepKeepsOrdered: clearing the started flag and closing the queue are one step; a send in between is the same as one just before, an inline drive the same as one just after.
- Completion.ShutdownCanFinish: some schedule finishes; that every fair schedule does depends on walks ending, which no bound in the code ensures.
- Validator.ValidateGraph: which check failed first is modelled, the wording of its message is not.
- WorkflowOps.ApplyOps: decoding of JSON is not modelled; an op arrives decoded, or as one that does not decode. What the header op does to the workflow's header is the header's, not the graph's.
- WorkflowOps.WireRoundTrip: a node's notes, which the canvas does not send, come back empty; a node the canvas makes has none.
- Edits.RunKeeps: changing a node's kind or an edge's port in the inspector is not re-validated by the code and is not among the edits.
- Canvas.Engine.AddEdge: the random part of an edge id is a parameter required to be fresh.
- Layout.LayoutGraph: coordinates are real numbers, and sorting by a comparator is the stable sort the language standard prescribes.
- Routes.RouteIsOrthogonal: the rounding of corners is not modelled.
- Routes.PointAtMid: the length of a segment is a parameter, of which only its growth along a segment is used; the square root it is computed by for slanted ones is not modelled.
- View.FitShowsAll: where the corners of forward routes stand, which may leave the fitted area by a stub's length, is not modelled.
- View.Viewport.Wheel: the zoom factor is a parameter; the exponential it comes from is not modelled.
- LineDiff.DiffLines: conversion of absent values to empty text happens before.
- SidebarFilter.Sidebar.ApplyFilter: the rows' texts and the query are already lower-cased and trimmed; the rendered tree is given by its parent pointers.
- Highlight.HighlightCode: the tokenizer's regular expression is written out alternative by alternative, with the give-backs it can make; text is a sequence of characters, not of UTF-16 units.
- Navigation.Controller.SwitchOcean: the right island and the head, the loading of scripts and their failures are not modelled; the manifest is required to name a first screen that is not the bell.
- Firings, claims, overlap policies, stores, triggers, agents, search, documents, and chat beyond its driving of runs: services around the interpreter whose claims are local to one query or call.
- Drawing, pointer events, styles, the remaining primitives and the demo data: presentation.
- The ancestors query of the workflow domain: reachability once more, in the other direction.

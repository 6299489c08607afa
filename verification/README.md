# Corridor admission, orders and command acknowledgement, verified

A Dafny model of the parts of the workspace that decide who may drive where, with proofs of
what they promise.

**Corridor admission.** `DirectionArbiter` admits robots to one-lane corridor blocks. It
reserves the block and the holding bay behind it together, serves a direction in batches, and
fails closed. `RobotTracker` turns telemetry into entries, exits and faults; `TaskGate` splits a
job into route steps and forwards a step once the arbiter admits it. The classes of
`DirectionArbiter.dfy` and `TaskGate.dfy` keep the fields, queues and loops of the program and are
proved to compute the functions of `ArbiterSpec.dfy`, `ArbiterSteps.dfy` and `GateSpec.dfy`. Every
public operation runs under one lock, so a run is a sequence of these steps, including the ones
that raise. About runs:

| file | what it proves |
|---|---|
| `ArbiterSafety`, `ArbiterRuns` | the safety invariant, kept by every call |
| `ArbiterChecks` | when exactly the runtime checks pass |
| `ArbiterProgress` | what one reconciliation does, and that it leaves nothing to do |
| `ArbiterService` | who is served: by age over all blocks of a domain, each when its turn comes; which way an idle domain turns |
| `ArbiterAccount` | the account of every operation: who is where, what is granted, what waits, and what is answered |
| `ArbiterOrder`, `ArbiterWakeups`, `ArbiterGaps` | work conservation; no missed wake-up, and exactly when one is missed |
| `ArbiterGuarantees` | fail-closed, batch closure, alternation, conservation of requests |
| `ArbiterRaising` | what an operation that raises leaves behind |
| `ArbiterLegal` | the runtime checks never fire, in any run of legal calls |
| `CorridorRegistry` | what the loader accepts is what all this relies on |
| `GateRuns`, `GateHistory` | the whole system as runs of the arbiter; what is forwarded, when, in which order |
| `GateAnswers` | every answer of gate and tracker, from what the caller could see before the call |
| `TrackerAgreement` | tracker and arbiter agree about who is inside |
| `ArbiterScene`, `GateProgress`, `DeadlockFreedom` | undisturbed operation never comes to a standstill |
| `Examples`, `TrackerExamples` | short runs into the states in which an expectation fails |

**Orders.** `ShortestPath.dfy` is the search over the navigation graph with its lazy heap,
`Orders.dfy` the graph and the order built from a path, `RobotProgress.dfy` the receiving side:
validation, and the node and edge states of a robot as it drives (VDA 5050 version 2.0.0, sections
6.6.1 and 6.6.2). The three are connected: a path found in the graph of the lanes is shortest, the
order built for it names real lanes, and the receiver accepts it.

**Commands.** `CommandAck.dfy` is the acknowledgement machine of the fleet adapter, with the
record of sends and acknowledgements that the theorems speak about as ghost state.
`CommandProgress.dfy` says what one pump comes to: when a command is sent, what acknowledges it,
and when it is due again.

**Logs and messages.** `LogStore.dfy` is the log store with its trimmed index and its cache;
`MessageSerializer.dfy`, `MessageFormat.dfy` and `FieldNames.dfy` are the wire format of orders and the
two name maps.

Some expectations one could have of the program do not hold. In each case the code is modelled
as it is, one lemma says exactly when the expectation is met, and another shows an input with which
it is not: `OccupyWakesExactly` and `CancelWakesExactly` (a wake-up can be missed),
`OccupyKeepsBoundExactly` (a bay sighting can overfill a bay that others have reserved),
`ExitAcceptedExactly` and `NextAgreesExactly` (an exit separates tracker and arbiter if its bay is
full, or if any bay at all is overfilled), `AnswersDisagreeExactly` (by
docs/direction_arbiter_guide.md:21 a faulted block stays blocked, but `request` tells a robot
already admitted to it that it may go), `StepAlternatesExactly` (an earlier domain can take a
shared bay), `OrderDuringArrivalDerails`, `FastIsSlowExactly`, `NamesRoundTripExactly` and
`OrderRoundTripExactly`.

Whether a robot may be sent a command is asked once per pump: `PumpServesEight` shows that behind a
cancellation even a faulty robot is sent what is next.

An overfilled bay is more than a broken bound: every exit, every entry on a grant and every grant then
raises. `PreludeWithinExactly` says when a bay is overfilled, `StepUncheckedExactly` when an operation
raises, `RoundGoesThroughExactly` when its reconciliations go through nevertheless, and
`StepKeepsOrderExactly` which raising operations leave the domains in order; all of them on the state
before the reconciliations. `RaisingLeavesBatchOpen` is one that does not.

Clock readings, geometry, the answers of the upstream server, the results of sends, the iteration
order of sets and the snapshots of the robot API are inputs of the operations; the theorems hold
for all of them.

## Model

| member | source | states |
|---|---|---|
| DirectionArbiters.DirectionArbiter.RequestEntry | traffic_control/direction_arbiter.py:46-112 | the new state and the answer are those of the request rules: admit if already admitted or inside, block on a fault, otherwise queue, close the batch, reconcile or grant at once |
| DirectionArbiters.DirectionArbiter.RobotEntered | traffic_control/direction_arbiter.py:114-135 | an entry needs a grant or an occupancy; the reservation becomes an occupancy, the source bay is given up, and all domains are reconciled in order |
| DirectionArbiters.DirectionArbiter.RobotExited | traffic_control/direction_arbiter.py:137-155 | occupancy, reservation and grant are gone, the robot moves from reserved to occupant of the granted bay, and the block's own domain is reconciled |
| DirectionArbiters.DirectionArbiter.OccupyHoldingBay | traffic_control/direction_arbiter.py:157-165 | refused exactly if the robot is new to a bay whose occupants fill it; otherwise it is an occupant of this bay and of no other |
| DirectionArbiters.DirectionArbiter.ReleaseHoldingBay | traffic_control/direction_arbiter.py:167-173 | both kinds of bay place are given up, then all domains are reconciled |
| DirectionArbiters.DirectionArbiter.AskDecision | traffic_control/direction_arbiter.py:175-182 | blocked on a fault, admitted if granted or inside, waiting otherwise; nothing changes |
| DirectionArbiters.DirectionArbiter.CancelRequests | traffic_control/direction_arbiter.py:184-211 | nothing happens and the answer is no if the robot is inside a target; otherwise exactly its queue entries, grants and bay places at the targets are gone, the affected domains are reconciled, and the answer tells whether there was one |
| DirectionArbiters.DirectionArbiter.ReportFault | traffic_control/direction_arbiter.py:213-229 | the first block the robot occupies is faulted; a robot outside every block is cancelled everywhere |
| DirectionArbiters.DirectionArbiter.ReportUnexpectedOccupancy | traffic_control/direction_arbiter.py:231-245 | the robot becomes an occupant in the domain's direction and the block is faulted |
| DirectionArbiters.DirectionArbiter.ResetAll | traffic_control/direction_arbiter.py:247-266 | back to the initial state, unless somebody is inside and the reset is not forced |
| DirectionArbiters.DirectionArbiter.FindWaiting | traffic_control/direction_arbiter.py:310-315 | some queue of the block holds a request of the robot |
| DirectionArbiters.DirectionArbiter.EnqueueRequest | traffic_control/direction_arbiter.py:317-320 | the request is last in its queue unless the robot is already in it |
| DirectionArbiters.DirectionArbiter.ResourcesAvailable | traffic_control/direction_arbiter.py:322-335 | block healthy, below capacity and used one way only, and room in the destination bay not counting the robot itself |
| DirectionArbiters.DirectionArbiter.GrantRequest | traffic_control/direction_arbiter.py:337-363 | block reservation, bay reservation and grant appear together, and the answer tells whether the runtime check holds |
| DirectionArbiters.DirectionArbiter.DomainBusy | traffic_control/direction_arbiter.py:365-370 | some block of the domain is occupied or reserved |
| DirectionArbiters.DirectionArbiter.DomainFaulted | traffic_control/direction_arbiter.py:372-376 | some block of the domain is faulted |
| DirectionArbiters.DirectionArbiter.WaitingIn | traffic_control/direction_arbiter.py:378-383 | the waiting requests of all blocks of the domain, in order of age, each exactly as often as it waits in front of its block |
| DirectionArbiters.DirectionArbiter.PickDirection | traffic_control/direction_arbiter.py:393-412 | the direction an idle domain takes next, or none |
| DirectionArbiters.DirectionArbiter.ReconcileDomain | traffic_control/direction_arbiter.py:385-430 | the loop that picks a direction, grants in order of age and closes the batch computes exactly the reconciliation the theorems below are about |
| DirectionArbiters.DirectionArbiter.AssertInvariants | traffic_control/direction_arbiter.py:432-444 | the runtime check: no block used both ways and no bay over capacity |
| ArbiterSpec.SortIsStable | traffic_control/direction_arbiter.py:378-383 | waiting requests are taken by age, none is lost or doubled, and equals keep their order |
| ArbiterSpec.CollectedItems | traffic_control/direction_arbiter.py:378-383 | what waits in a domain is exactly what waits in front of its blocks |
| ArbiterSpec.DomainQueue | traffic_control/direction_arbiter.py:378-383 | the queue of a domain is in order of age and holds what waits in front of its blocks as often as it waits there |
| ArbiterService.NextIsServed | traffic_control/direction_arbiter.py:385-430 | in a healthy domain with an open batch, or in an idle one that takes a direction up, the oldest request of that direction among those that can go, over all blocks, is admitted; among equals the one further ahead in its queue or at the earlier block |
| ArbiterService.ServedExactly | traffic_control/direction_arbiter.py:414-425 | a request is admitted if and only if it is available when its turn comes, that is, when of those ahead of it all have been looked at and of those behind it none has been admitted |
| ArbiterService.TurnsExactly | traffic_control/direction_arbiter.py:393-412 | an idle domain takes a direction up if and only if somebody can go that way and nobody the other way, or both can and its closed batch went the other way, or, without a closed batch, the first to ask wants to go this way |
| ArbiterService.BatchClosedExactly | traffic_control/direction_arbiter.py:393-430 | after a reconciliation the batch is closed if and only if somebody waits the other way, or it was closed and the domain has not drained |
| ArbiterService.AvailableExactly | traffic_control/direction_arbiter.py:322-335 | a newcomer is available if and only if admitting it leaves a healthy block used one way and within its capacity, and a bay within its capacity |
| ArbiterService.NobodyJumpsTheQueue | traffic_control/direction_arbiter.py:317-320 | in no operation does anybody get ahead of somebody in a queue, except of a request that arrives in it |
| ArbiterService.EnqueueOnce | traffic_control/direction_arbiter.py:317-320 | a queue never holds a robot twice |
| ArbiterAccount.StepBlocks | traffic_control/direction_arbiter.py:46-266 | after any operation, whatever is reconciled: exactly which robot is in which block in which direction, and which blocks are faulted |
| ArbiterAccount.StepRecords | traffic_control/direction_arbiter.py:46-266 | a grant ends if and only if this operation ends it, a new one goes to somebody who waited or asks; a request waits if and only if it waited or has just been made and was neither withdrawn nor admitted |
| ArbiterAccount.StepBays | traffic_control/direction_arbiter.py:46-266 | who is in which bay, and for whom a place is kept: exactly those who had it and have not given it up, and those newly admitted towards it |
| ArbiterAccount.StartsFresh | traffic_control/direction_arbiter.py:32-44 | what the arbiter starts with, and what a reset restores |
| ArbiterAccount.StepReplies | traffic_control/direction_arbiter.py:46-266 | what every operation answers if no runtime check fails, including which exceptions it raises |
| ArbiterAccount.RequestAnswersExactly | traffic_control/direction_arbiter.py:46-112 | ADMIT exactly to those who may pass afterwards, otherwise BLOCKED exactly if the block was faulted; a robot that may pass already, or a faulted block, changes nothing |
| ArbiterRuns.StepKeepsCore | traffic_control/direction_arbiter.py:46-266 | every operation, also one that raises, keeps: grants are exactly the reserved and occupying pairs, nobody queued twice or queued while admitted, capacities, one direction per domain |
| ArbiterGuarantees.RunKeepsCore | traffic_control/direction_arbiter.py:46-266 | the same over whole runs of any calls in any order |
| ArbiterProgress.PassExhausts | traffic_control/direction_arbiter.py:418-425 | availability only shrinks in a greedy pass: what it looked at and left waiting cannot be granted afterwards |
| ArbiterProgress.PassGrants | traffic_control/direction_arbiter.py:393-425 | choosing a direction always grants somebody |
| ArbiterProgress.ReconcileSettles | traffic_control/direction_arbiter.py:385-430 | a reconciliation only turns waiting requests into grants, loses none, leaves other domains alone, and ends settled: busy exactly if it has a direction, nothing grantable left unless the batch is closed |
| ArbiterProgress.EachMoves | traffic_control/direction_arbiter.py:129-130 | a round over several domains, in any order, only moves requests of healthy domains |
| ArbiterChecks.RoundGoesThroughExactly | traffic_control/direction_arbiter.py:385-444 | a round of reconciliations goes through if and only if no bay is over its capacity before it, or no domain it visits can grant anything |
| ArbiterChecks.RoundSettlesVisited | traffic_control/direction_arbiter.py:209-210 | a round that goes through settles each healthy domain it visits and keeps the settled others settled, in any order |
| ArbiterOrder.StepKeepsOrder | traffic_control/direction_arbiter.py:85-109 | after every operation whose reconciliations go through, a healthy domain is busy exactly if it has a direction, and a waiter the other way has closed the batch |
| ArbiterRaising.StepKeepsOrderExactly | traffic_control/direction_arbiter.py:46-266 | any operation keeps this order if and only if its reconciliations go through, or nobody waits against the grant that raises and no domain that the round has not reached is out of order |
| ArbiterRaising.RaisingReconcile | traffic_control/direction_arbiter.py:345-430 | what a raising domain is left with: its direction, an open batch, and the queue of the other direction |
| ArbiterRaising.RaisingRoundSettles | traffic_control/direction_arbiter.py:385-430 | a raising round has settled the domains before the raising one, and unsettles no other domain |
| Examples.RaisingLeavesBatchOpen | traffic_control/direction_arbiter.py:167-173 | a state with an overfilled bay in which a release raises and leaves a batch open against a waiter |
| Examples.JammedIsReached | traffic_control/direction_arbiter.py:46-173 | a run from the empty corridor into that state |
| ArbiterWakeups.SettledIsFixpoint | traffic_control/direction_arbiter.py:385-430 | reconciling a settled domain changes nothing |
| ArbiterWakeups.ReconcileIdempotent | traffic_control/direction_arbiter.py:385-430 | after a reconciliation that went through, a second one changes nothing |
| ArbiterWakeups.FullVisitSettles | traffic_control/direction_arbiter.py:129-130 | a round over all domains, in whatever order, that goes through settles every healthy domain |
| ArbiterWakeups.StepWakesEveryone | traffic_control/direction_arbiter.py:129-210 | after an entry, a bay release, an all-block cancel or the fault of a robot outside every block, if its reconciliations go through, no healthy domain has a missed wake-up, even if there were some before |
| ArbiterWakeups.StepKeepsSettled | traffic_control/direction_arbiter.py:46-266 | every operation whose reconciliations go through keeps all healthy domains settled, unless it frees a bay that another domain waits for |
| ArbiterGaps.OccupyWakesExactly | traffic_control/direction_arbiter.py:157-165 | a bay sighting misses a wake-up if and only if it frees the one place that an otherwise ready request is short of |
| ArbiterGaps.SightingMissesOne | traffic_control/direction_arbiter.py:157-165 | a concrete state in which it does |
| Examples.OneBehindIsReached | traffic_control/direction_arbiter.py:46-165 | a run from the empty corridor into that state |
| ArbiterGaps.CancelWakesExactly | traffic_control/direction_arbiter.py:184-211 | a single-block cancel misses a wake-up only if the withdrawn grant holds the one place that a ready request of another domain is short of; and if nobody in its own domain waits for that bay, it misses one if and only if it does |
| ArbiterGaps.CancelWakesByOutcome | traffic_control/direction_arbiter.py:184-211 | in general it misses one if and only if, besides, its own domain does not take the place over |
| ArbiterGaps.PlaceIsNotTaken | traffic_control/direction_arbiter.py:184-211 | a domain in which nobody waits for the bay never takes the place over |
| ArbiterGaps.CancelMissesOne | traffic_control/direction_arbiter.py:184-211 | a concrete state with a shared bay in which it does |
| Examples.AtJunctionIsReached | traffic_control/direction_arbiter.py:46-112 | a run from the empty corridor into that state |
| ArbiterGaps.QuietHomeLeavesPlace | traffic_control/direction_arbiter.py:184-211 | with nobody waiting in its own domain, a single-block cancel always leaves the freed place and no runtime check fails |
| ArbiterGaps.AnswersDisagreeExactly | traffic_control/direction_arbiter.py:69-72 | request and the decision asked for afterwards differ if and only if the block is faulted and the robot is admitted to it or inside |
| Examples.StrayHearsTwoAnswers | traffic_control/direction_arbiter.py:69-72 | a run after which they do |
| ArbiterGuarantees.StepRespectsClosure | traffic_control/direction_arbiter.py:418-430 | a closed batch admits nobody and keeps its direction until the domain has drained |
| ArbiterGuarantees.ReconcileAlternates | traffic_control/direction_arbiter.py:404-430 | a drained domain with a closed batch turns to a grantable waiter of the other direction and admits one |
| ArbiterGuarantees.EmptiedIsVisited | traffic_control/direction_arbiter.py:129-210 | an operation that empties a domain with its batch closed comes to that domain |
| ArbiterGuarantees.StepAlternatesExactly | traffic_control/direction_arbiter.py:129-210 | and turns it around if and only if the round gets that far and somebody waiting the other way can go at that moment; one who waits that way is then admitted |
| ArbiterGuarantees.StepAlternatesAtOnceExactly | traffic_control/direction_arbiter.py:129-210 | if nobody in the domains that come first waits for a bay wanted the other way, it turns around if and only if the round gets that far and somebody could go when the domain was emptied |
| Examples.EarlierDomainTakesTheBay | traffic_control/direction_arbiter.py:184-210 | a run after which an earlier domain takes the shared bay, and the drained domain rests |
| ArbiterWakeups.EachLeavesBay | traffic_control/direction_arbiter.py:322-345 | reconciling domains in which nobody waits for a bay leaves the bay alone |
| ArbiterGuarantees.StepFailsClosed | traffic_control/direction_arbiter.py:213-245 | until a reset, any operation leaves a faulted block faulted and without new reservations, freezes the direction of its domain and grants none of its waiters |
| ArbiterGuarantees.RunFailsClosed | traffic_control/direction_arbiter.py:213-266 | over whole runs up to the next accepted reset: the block stays faulted without new reservations, its domain keeps its direction, and whoever waits in the domain goes on waiting unless some operation gives the request up |
| ArbiterGuarantees.StepConservesRequests | traffic_control/direction_arbiter.py:184-211 | no grant and no waiting request disappears except by the operation that gives it up |
| ArbiterChecks.ChecksPassExactly | traffic_control/direction_arbiter.py:432-444 | the runtime check holds if and only if every bay is within its capacity |
| ArbiterChecks.StepUncheckedExactly | traffic_control/direction_arbiter.py:46-266 | an operation raises no assertion error if and only if every bay is within its capacity before it reconciles, or it runs no check itself and visits no domain that can grant anything |
| ArbiterChecks.MovementUncheckedExactly | traffic_control/direction_arbiter.py:114-155 | an exit, or an entry on a grant, raises one if and only if some bay, whichever, is over its capacity once the robot has moved |
| ArbiterChecks.PreludeWithinExactly | traffic_control/direction_arbiter.py:46-266 | a first bay is overfilled if and only if a sighting or an exit finds neither a place kept for the robot nor a free one |
| ArbiterGuarantees.RoomyRunsStayOrderly | traffic_control/direction_arbiter.py:46-444 | in every run in which that never happens, whatever the callers do otherwise, no runtime check fails, no bay is over its capacity, and the domains stay orderly |
| ArbiterLegal.StepLegal | traffic_control/direction_arbiter.py:322-363 | in a legal call the runtime check holds, every bay stays within capacity counting occupants and reservations, and every live grant keeps its destination reserved |
| ArbiterLegal.LegalRunsFromTheStart | traffic_control/direction_arbiter.py:432-444 | the runtime checks never fire in any run of legal calls from the initial state |
| ArbiterLegal.LegalRunsAreSafe | traffic_control/direction_arbiter.py:432-444 | nor from any state that satisfies the invariants |
| ArbiterLegal.OccupyKeepsBoundExactly | traffic_control/direction_arbiter.py:157-165 | a bay sighting keeps a bay within capacity if and only if the robot was counted in it or there was room for one more |
| Examples.SightingOverfills | traffic_control/direction_arbiter.py:157-165 | a concrete sighting that is accepted and overfills a bay |
| Examples.OverfilledIsReached | traffic_control/direction_arbiter.py:46-165 | a run from the empty corridor into that state |
| ArbiterScene.StepKeepsBacked | traffic_control/direction_arbiter.py:137-147 | in every run a bay place is reserved only for a live grant to it |
| ArbiterScene.RequestAdmitsOnlyAsker | traffic_control/direction_arbiter.py:46-112 | in a settled state a request admits nobody but its own robot |
| CorridorRegistries.LoadRegistry | traffic_control/corridor_registry.py:27-136 | a configuration is accepted exactly if it breaks no rule; what is loaded is exactly what was configured, is well formed, and every step crosses its block from end to end |
| CorridorRegistries.LoadBays | traffic_control/corridor_registry.py:45-54 | accepted exactly if every capacity is positive; the bays as configured |
| CorridorRegistries.LoadBlocks | traffic_control/corridor_registry.py:56-81 | accepted exactly if ids are new, both ends known and capacities positive; the blocks and domains as configured |
| CorridorRegistries.LoadRoute | traffic_control/corridor_registry.py:83-135 | accepted exactly if there is a step and each runs between the ends of its block to the node of its destination bay; a missing source is filled in |
| CorridorRegistries.ConfigAcceptedExactly | traffic_control/corridor_registry.py:27-136 | a configuration is accepted if and only if what it describes is well formed, and every route has a step and only steps that can be completed to cross their block from end to end |
| CorridorRegistries.StepAcceptedExactly | traffic_control/corridor_registry.py:83-135 | which route steps are accepted: those that can be so completed, where only a missing source may be filled in |
| CorridorRegistries.LoadedAlike | traffic_control/corridor_registry.py:27-136 | bays and blocks leave no choice of what is loaded |
| CorridorRegistries.LoadedWellFormed | traffic_control/corridor_registry.py:45-81 | the checks give what the arbiter takes for granted |
| CorridorRegistries.BlockForEdges | traffic_control/corridor_registry.py:162-173 | a block is found exactly if the reported edges touch it and no other block |
| TaskGates.RobotTracker.IngestState | traffic_control/robot_tracker.py:47-120 | which arbiter calls a report makes, in which order, and what is remembered; a call that raises leaves the old telemetry in place |
| TaskGates.RobotTracker.Cross | traffic_control/robot_tracker.py:65-85 | a new block is entered, or reported as unexpected if there is no grant; a block is left only on sight of a bay |
| TaskGates.RobotTracker.ExpireStaleRobots | traffic_control/robot_tracker.py:140-153 | every robot silent inside a block is marked and reported as a fault, once; ExpiryAnswers says which these are |
| GateAnswers.SafeNodeExactly | traffic_control/robot_tracker.py:122-130 | the node a robot safely stands at: that of its bay or, in no bay, its last node if that belongs to one; none inside a block or unheard of |
| GateAnswers.ArrivedExactly | traffic_control/robot_tracker.py:132-138 | arrived if and only if it stands there and is not driving |
| GateAnswers.ExpiryAnswers | traffic_control/robot_tracker.py:140-153 | marked afterwards are exactly the robots that were, and those last heard of inside a block more than the timeout ago; newly faulted are exactly the blocks these are in, for each the first configured; without such a robot nothing changes |
| GateAnswers.ReportAnswers | traffic_control/robot_tracker.py:47-120 | a report is at most two calls of the arbiter, which ones is decided by where it shows the robot; afterwards the telemetry holds the time, node and motion reported, the block shown or, without a bay in sight, the old one, and the bay |
| TrackerAgreement.TrackerAgrees | traffic_control/robot_tracker.py:65-120 | in every run in which each exit fits and no reset is forced while somebody is tracked inside, a robot the tracker has in a block is an occupant of it |
| TrackerAgreement.NextAgreesExactly | traffic_control/robot_tracker.py:47-153 | these are exactly the steps that keep the agreement |
| TrackerAgreement.OccupancyEnds | traffic_control/robot_tracker.py:71-92 | occupancy ends only by a reset or on sight of the robot in a bay and outside every block |
| TrackerAgreement.QuietOccupants | traffic_control/direction_arbiter.py:114-245 | no other operation ends an occupancy |
| TrackerAgreement.ExitAcceptedExactly | traffic_control/robot_tracker.py:82-95 | the outcome of every exit report: accepted exactly if the bay counts the robot or has room, and no bay at all is over its capacity once the robot has left; otherwise which error it raises, with the robot out of the block for the arbiter and in it for the tracker |
| TrackerAgreement.ReportAgreesExactly | traffic_control/robot_tracker.py:47-120 | agreement survives a report if and only if the exit it shows, if any, fits in that sense |
| TrackerExamples.GrantedExitDisagrees | traffic_control/robot_tracker.py:82-95 | a run of the whole system after which an exit into the granted bay raises because of another bay, and the two disagree |
| TrackerExamples.FullBayDisagrees | traffic_control/robot_tracker.py:82-95 | a run of the whole system after which an exit without a grant into a full bay does the same |
| TrackerAgreement.ResetAgreesExactly | traffic_control/task_gate.py:191-198 | agreement survives a reset if and only if it is not forced or nobody is tracked inside |
| TrackerAgreement.TimeoutsFault | traffic_control/robot_tracker.py:140-153 | a telemetry timeout faults a block the robot occupies; it never cancels a request |
| TaskGates.TaskGate.SubmitTask | traffic_control/task_gate.py:80-133 | refused away from a safe node or with an open job, bypassed without a route if so configured, otherwise a new job whose first step is attempted; SubmitAnswers says which answer when |
| TaskGates.TaskGate.TickAll | traffic_control/task_gate.py:135-168 | stale robots first, then every job once, in order: arrived jobs move on or complete, waiting ones are attempted |
| TaskGates.TaskGate.AdvanceJob | traffic_control/task_gate.py:139-168 | one job's part of a tick |
| TaskGates.TaskGate.AttemptCurrentStep | traffic_control/task_gate.py:219-246 | the current step is requested and, if admitted, forwarded |
| TaskGates.TaskGate.ForwardCurrentStep | traffic_control/task_gate.py:248-318 | each outcome of the upstream server, its record and the status it leads to; a definite rejection gives the grant back |
| TaskGates.TaskGate.CancelTask | traffic_control/task_gate.py:170-189 | a job that is not finished is cancelled, together with the request of its current step |
| TaskGates.TaskGate.ResetTasks | traffic_control/task_gate.py:191-198 | an accepted reset cancels every job that is not finished |
| TaskGates.TaskGate.HasOpenJob | traffic_control/task_gate.py:320-329 | the robot has a job that is not finished |
| TaskGates.TaskGate.FindRoute | traffic_control/corridor_registry.py:138-142 | the first route with this start and goal |
| GateAnswers.SubmitAnswers | traffic_control/task_gate.py:80-133 | bypassed if and only if the gate is disabled, or the robot stands at a safe node from which no route leads to the goal and that is configured to bypass; taken on if and only if it is enabled, the robot stands where a first route starts and has no open job, and then answered as the attempt at its first step; otherwise refused, with nothing changed |
| GateAnswers.UnsafeIsRefused | traffic_control/task_gate.py:92-96 | a robot inside a block or never heard of is refused, and nothing changes |
| GateAnswers.AttemptAnswers | traffic_control/task_gate.py:219-318 | a step is sent on if and only if the robot holds a grant for the block or is inside it, now or after asking; the answer, the status of the job, the record and what becomes of the grant are then as the server decides; otherwise it is refused at a faulted block and held at a healthy one |
| GateAnswers.TurnAnswers | traffic_control/task_gate.py:139-168 | a job with the server moves on if and only if its robot stands at the goal of the step and is not driving; a waiting one or one to be sent again makes an attempt; others rest |
| GateAnswers.TickAnswers | traffic_control/task_gate.py:135-168 | a tick is the expiry and then the turn of every job, in the order of submission, unless one of them raises |
| GateAnswers.CancelAnswers | traffic_control/task_gate.py:170-189 | which jobs can be cancelled, when the answer is yes, and that the request is given back |
| GateAnswers.ResetAnswers | traffic_control/task_gate.py:191-198 | a reset goes ahead if and only if it is forced or nobody is in any block; then the arbiter starts afresh, jobs that are not complete are cancelled, and telemetry stays |
| GateAnswers.AnswersApply | traffic_control/task_gate.py:80-198 | what these theorems assume holds in every reachable state of the system |
| GateRuns.NextLeads | traffic_control/task_gate.py:80-198 | every operation of gate and tracker is a run of the arbiter, so all arbiter theorems hold of the whole system |
| GateRuns.SystemKeepsCore | traffic_control/task_gate.py:80-198 | the arbiter's safety invariant in every reachable state of the whole system |
| GateHistory.NextRecorded | traffic_control/task_gate.py:80-318 | every operation, also one that raises, keeps log and jobs consistent |
| GateHistory.GateKeepsItsPromise | traffic_control/task_gate.py:113-329 | over all runs: every forward happened while the robot was admitted to or in the block; steps not definitely rejected go out once, in order, with the goals of the route; a completed job sent all of them; no robot has two open jobs |
| GateHistory.DeliveredInOrder | traffic_control/task_gate.py:248-318 | the delivered steps of one job are in increasing order |
| GateProgress.TickGood | traffic_control/task_gate.py:135-168 | in undisturbed operation a tick raises nothing and every open job is then on its way or waits without a grant |
| GateProgress.SubmitGood | traffic_control/task_gate.py:80-133 | a submission keeps undisturbed operation |
| GateProgress.ReportGood | traffic_control/robot_tracker.py:47-120 | a truthful report keeps it and never raises |
| DeadlockFreedom.NextGood | traffic_control/task_gate.py:135-168 | each step of undisturbed operation keeps its invariant |
| DeadlockFreedom.BayIsFull | traffic_control/direction_arbiter.py:322-335 | with no grant anywhere, only a full destination bay holds a request back |
| DeadlockFreedom.HeldBackBySomeone | traffic_control/direction_arbiter.py:322-335 | at a standstill whoever is held back wants a narrow bay in which another robot stands |
| DeadlockFreedom.NoDeadlock | traffic_control/task_gate.py:135-168 | after every tick of an undisturbed run, for any number of robots and any sound layout (see below) in which every block has an end bay with room for the fleet, some job is active or all are complete |
| ShortestPaths.DirectedGraph.AddEdge | rmf_platform-main/src/rmf_vda5050_fleet_adapter/vda5050_fleet_adapter/usecase/graph_utils.py:23-26 | the arc is appended to the start's list, and both ends are known |
| ShortestPaths.DirectedGraph.ComputePath | rmf_platform-main/src/rmf_vda5050_fleet_adapter/vda5050_fleet_adapter/usecase/graph_utils.py:50-73 | a path that is returned is a shortest one, and none is returned exactly if the goal cannot be reached; the loops end |
| ShortestPaths.DirectedGraph.Relax | rmf_platform-main/src/rmf_vda5050_fleet_adapter/vda5050_fleet_adapter/usecase/graph_utils.py:67-72 | relaxing all arcs of a node keeps the books of the search |
| ShortestPaths.DirectedGraph.TracePath | rmf_platform-main/src/rmf_vda5050_fleet_adapter/vda5050_fleet_adapter/usecase/graph_utils.py:62-66 | the chain of predecessors ends at the start without repeating a node, also with arcs of weight zero, and is a walk as long as the recorded cost |
| ShortestPaths.SkipOutdated | rmf_platform-main/src/rmf_vda5050_fleet_adapter/vda5050_fleet_adapter/usecase/graph_utils.py:60-61 | dropping an outdated heap entry loses nothing |
| ShortestPaths.Settle | rmf_platform-main/src/rmf_vda5050_fleet_adapter/vda5050_fleet_adapter/usecase/graph_utils.py:59-67 | the cheapest current entry can be settled for good |
| ShortestPaths.Lowered | rmf_platform-main/src/rmf_vda5050_fleet_adapter/vda5050_fleet_adapter/usecase/graph_utils.py:67-72 | a lowered cost never concerns a settled node |
| ShortestPaths.NoShorterWalk | rmf_platform-main/src/rmf_vda5050_fleet_adapter/vda5050_fleet_adapter/usecase/graph_utils.py:50-73 | no walk that leaves the settled nodes is cheaper than the cheapest entry |
| ShortestPaths.GoalIsOptimal | rmf_platform-main/src/rmf_vda5050_fleet_adapter/vda5050_fleet_adapter/usecase/graph_utils.py:62-66 | when the goal surfaces its path is a shortest one |
| ShortestPaths.NothingLeft | rmf_platform-main/src/rmf_vda5050_fleet_adapter/vda5050_fleet_adapter/usecase/graph_utils.py:58-73 | when the heap is empty the goal cannot be reached |
| Orders.BuildGraph | rmf_platform-main/src/rmf_vda5050_fleet_adapter/vda5050_fleet_adapter/usecase/graph_utils.py:36-47 | exactly the lanes between known nodes are arcs, weighted with the distance of their ends |
| Orders.LanesAreArcs | rmf_platform-main/src/rmf_vda5050_fleet_adapter/vda5050_fleet_adapter/usecase/graph_utils.py:36-47 | every lane between known nodes is an arc at the distance of its ends, and every arc is one |
| Orders.FindEdge | rmf_platform-main/src/rmf_vda5050_fleet_adapter/vda5050_fleet_adapter/usecase/graph_utils.py:123-129 | the first lane between the two nodes, or a made-up name |
| Orders.EdgeForNamesLane | rmf_platform-main/src/rmf_vda5050_fleet_adapter/vda5050_fleet_adapter/usecase/graph_utils.py:123-129 | the name is a lane's if and only if there is a lane, and then it is that of the first lane with these ends; otherwise it is made up from them |
| Orders.BuildOrder | rmf_platform-main/src/rmf_vda5050_fleet_adapter/vda5050_fleet_adapter/usecase/graph_utils.py:132-195 | refused exactly for an empty path, a base index outside it or an unknown node; otherwise the sequence numbers, names, ends and releases of every node and edge |
| Orders.BuiltOrderIsSound | rmf_platform-main/src/rmf_vda5050_fleet_adapter/vda5050_fleet_adapter/usecase/graph_utils.py:36-195 | an order built for a shortest path names a real lane on every edge, joins up from start to goal, and its released part is a prefix |
| Orders.PathIsKnown | rmf_platform-main/src/rmf_vda5050_fleet_adapter/vda5050_fleet_adapter/usecase/graph_utils.py:36-73 | a path of the graph never fails to build |
| RobotProgress.OrderManager.ProcessOrder | rmf_dev_tool-main/vda5050_robot_simulator/vda5050_simulator/order_manager.py:35-148 | an order is taken exactly if it can be parsed and is acceptable; otherwise there is exactly one error, of the right level, and neither the manager nor any field of the robot changes; consecutive accepted orders with one id have increasing update ids |
| RobotProgress.OrderManager.ValidateSequence | rmf_dev_tool-main/vda5050_robot_simulator/vda5050_simulator/order_manager.py:118-148 | nodes are numbered first, first + 2, ... and edges between them |
| RobotProgress.OrderManager.ValidateStitching | rmf_dev_tool-main/vda5050_robot_simulator/vda5050_simulator/order_manager.py:150-172 | an update starts at the last node or at the last released one of the published states, if there is one |
| RobotProgress.LastBaseExactly | rmf_dev_tool-main/vda5050_robot_simulator/vda5050_simulator/order_manager.py:158-163 | the end of the base is the node of the last released state; there is none exactly if no state is released |
| RobotProgress.OrderManager.CancelOrder | rmf_dev_tool-main/vda5050_robot_simulator/vda5050_simulator/order_manager.py:204-206 | the current order is forgotten |
| RobotProgress.RefusedExactly | rmf_dev_tool-main/vda5050_robot_simulator/vda5050_simulator/order_manager.py:35-172 | which usable orders are refused, and that an unusable one always is |
| RobotProgress.BuiltOrderIsAccepted | rmf_dev_tool-main/vda5050_robot_simulator/vda5050_simulator/order_manager.py:63-148 | every built order is accepted as a new order, whatever the receiver was doing |
| RobotProgress.LeadingPassed | rmf_dev_tool-main/vda5050_robot_simulator/vda5050_simulator/robot.py:473-497 | the longest leading run of released nodes that count as passed, never the last node |
| RobotProgress.StraightLine | rmf_dev_tool-main/vda5050_robot_simulator/vda5050_simulator/robot.py:380-497 | on a straight line the skipped nodes are exactly the released ones behind the robot that lead the order |
| RobotProgress.StandingStill | rmf_dev_tool-main/vda5050_robot_simulator/vda5050_simulator/robot.py:442-497 | a robot that is past no node skips exactly the leading released nodes it still stands at |
| RobotProgress.Robot.ApplyOrder | rmf_dev_tool-main/vda5050_robot_simulator/vda5050_simulator/robot.py:619-720 | the order is taken over without the nodes that lie behind the robot |
| RobotProgress.Robot.CancelOrder | rmf_dev_tool-main/vda5050_robot_simulator/vda5050_simulator/robot.py:722-737 | nothing is published any more and the robot stops |
| RobotProgress.Robot.NavigationTick | rmf_dev_tool-main/vda5050_robot_simulator/vda5050_simulator/robot.py:739-855 | when exactly a node counts as reached, and what the robot does otherwise |
| RobotProgress.Robot.BeginArrival | rmf_dev_tool-main/vda5050_robot_simulator/vda5050_simulator/robot.py:1000-1016 | the node and the edge before it disappear from the published states |
| RobotProgress.Robot.FinishArrival | rmf_dev_tool-main/vda5050_robot_simulator/vda5050_simulator/robot.py:1018-1045 | on to the next node; the order ends with its last base node |
| RobotProgress.AppliedOnTrack | rmf_dev_tool-main/vda5050_robot_simulator/vda5050_simulator/robot.py:650-712 | taking an order, whatever was passed, publishes the suffixes from the current indices; every node behind was released |
| RobotProgress.ArrivingAtNode | rmf_dev_tool-main/vda5050_robot_simulator/vda5050_simulator/robot.py:999-1011 | filtering by sequence number drops exactly one node and one edge |
| RobotProgress.DriveDropsPrefix | rmf_dev_tool-main/vda5050_robot_simulator/vda5050_simulator/robot.py:787-1026 | after any number of arrivals the published states are the suffixes from there; at the end of a released order they are empty |
| RobotProgress.ProgressExactly | rmf_dev_tool-main/vda5050_robot_simulator/vda5050_simulator/robot.py:473-1045 | while an order is driven, what is published is the suffix from the current indices, less the node of a running arrival, if and only if the order was not taken during an arrival |
| RobotProgress.OrderDuringArrivalDerails | rmf_dev_tool-main/vda5050_robot_simulator/vda5050_simulator/robot.py:1018-1026 | an order taken during a blocking action always spoils this: the robot then skips a node it still publishes |
| RobotProgress.FreshOrderIsSpoilt | rmf_dev_tool-main/vda5050_robot_simulator/vda5050_simulator/robot.py:1018-1026 | a concrete order of two nodes with which it does |
| CommandAck.CommandAckHsm.EnqueueCommand | rmf_platform-main/src/rmf_vda5050_fleet_adapter/vda5050_fleet_adapter/usecase/command_ack_hsm.py:186-193 | appended, then pumped |
| CommandAck.CommandAckHsm.PumpQueue | rmf_platform-main/src/rmf_vda5050_fleet_adapter/vda5050_fleet_adapter/usecase/command_ack_hsm.py:195-324 | the loop computes the pump of the theorems below, and ends |
| CommandAck.CommandAckHsm.PumpRound | rmf_platform-main/src/rmf_vda5050_fleet_adapter/vda5050_fleet_adapter/usecase/command_ack_hsm.py:206-324 | one turn: activate, send or wait |
| CommandAck.CommandAckHsm.SendActive | rmf_platform-main/src/rmf_vda5050_fleet_adapter/vda5050_fleet_adapter/usecase/command_ack_hsm.py:217-274 | what is sent when, and what each result leads to |
| CommandAck.CommandAckHsm.AwaitActive | rmf_platform-main/src/rmf_vda5050_fleet_adapter/vda5050_fleet_adapter/usecase/command_ack_hsm.py:276-324 | which evidence acknowledges a command, and when it is sent again; PumpAnswers says so of the pump |
| CommandAck.CommandAckHsm.CancelPendingCommands | rmf_platform-main/src/rmf_vda5050_fleet_adapter/vda5050_fleet_adapter/usecase/command_ack_hsm.py:326-337 | queue and active command are dropped |
| CommandAck.PumpKeepsLine | rmf_platform-main/src/rmf_vda5050_fleet_adapter/vda5050_fleet_adapter/usecase/command_ack_hsm.py:195-324 | a pump only moves commands along acknowledged, active, queued |
| CommandAck.EnqueueExtendsLine | rmf_platform-main/src/rmf_vda5050_fleet_adapter/vda5050_fleet_adapter/usecase/command_ack_hsm.py:186-193 | an enqueue adds one command at the end |
| CommandAck.QueueKeepsItsPromise | rmf_platform-main/src/rmf_vda5050_fleet_adapter/vda5050_fleet_adapter/usecase/command_ack_hsm.py:186-337 | over any run of calls: the commands since the last cancellation are acknowledged, active and queued ones in order; each acknowledgement has its evidence, and unforced sends of one command keep their distance |
| CommandAck.PumpConsistent | rmf_platform-main/src/rmf_vda5050_fleet_adapter/vda5050_fleet_adapter/usecase/command_ack_hsm.py:195-324 | the record of sends and acknowledgements stays consistent |
| CommandAck.ConditionsAreMet | rmf_platform-main/src/rmf_vda5050_fleet_adapter/vda5050_fleet_adapter/usecase/command_ack_hsm.py:95-146 | with command states supported, a guarded command is acknowledged only by a snapshot from at or after its latest send that satisfies the guard, or, if it is a cancellation that may settle, after the delay with enough fresh states and, where that is asked for, standing still |
| CommandAck.ShowsExactly | rmf_platform-main/src/rmf_vda5050_fleet_adapter/vda5050_fleet_adapter/usecase/command_ack_hsm.py:95-146 | what a report has to show for each kind of condition, field by field |
| CommandProgress.PumpAnswers | rmf_platform-main/src/rmf_vda5050_fleet_adapter/vda5050_fleet_adapter/usecase/command_ack_hsm.py:195-324 | what one pump comes to for the command at the head, in every case: left alone, sent, acknowledged and by what, blocked, or kept and perhaps due again |
| CommandProgress.EvidenceAcknowledges | rmf_platform-main/src/rmf_vda5050_fleet_adapter/vda5050_fleet_adapter/usecase/command_ack_hsm.py:280-286 | a command that has been sent is acknowledged by the first pump whose report shows what it waits for |
| CommandProgress.DueIsSent | rmf_platform-main/src/rmf_vda5050_fleet_adapter/vda5050_fleet_adapter/usecase/command_ack_hsm.py:217-229 | an unsent command at the head that is due is sent in this pump, before anything else |
| CommandProgress.PumpServesEight | rmf_platform-main/src/rmf_vda5050_fleet_adapter/vda5050_fleet_adapter/usecase/command_ack_hsm.py:206-324 | one pump serves up to eight commands; whether the robot may be sent them is asked for the first one only |
| CommandProgress.EmptyPump | rmf_platform-main/src/rmf_vda5050_fleet_adapter/vda5050_fleet_adapter/usecase/command_ack_hsm.py:195-213 | without a command a pump only learns the state of the robot |
| CommandProgress.IdleWhenDone | rmf_platform-main/src/rmf_vda5050_fleet_adapter/vda5050_fleet_adapter/usecase/command_ack_hsm.py:206-214 | a pump that ends with nothing at hand shows the idle state |
| CommandProgress.StateIsShown | rmf_platform-main/src/rmf_vda5050_fleet_adapter/vda5050_fleet_adapter/usecase/command_ack_hsm.py:466-485 | the state shown while a command stays at hand |
| LogStores.LogStore.AppendEntry | rmf_dev_tool-main/vda5050_gui/vda5050_gui.py:437-445 | the entry is part of history, index and cache; exactly the outdated batch, if any, is dropped |
| LogStores.LogStore.TrimOldEntries | rmf_dev_tool-main/vda5050_gui/vda5050_gui.py:447-468 | the outdated entries at the front go, if there are at least as many as a batch |
| LogStores.LogStore.GetSnapshots | rmf_dev_tool-main/vda5050_gui/vda5050_gui.py:488-544 | for the last position the cache, for earlier ones the scan; in both cases the vehicles heard of, each with its last order, instant actions, state and connection |
| LogStores.PositionsAreExact | rmf_dev_tool-main/vda5050_gui/vda5050_gui.py:439-444 | the index is increasing and holds exactly the positions of order entries |
| LogStores.ShiftIsReindex | rmf_dev_tool-main/vda5050_gui/vda5050_gui.py:459-466 | shifting the index after a trim is the same as indexing what is left |
| LogStores.CacheIsLatest | rmf_dev_tool-main/vda5050_gui/vda5050_gui.py:413-435 | the cache holds for each vehicle and kind what a search back finds |
| LogStores.SnapshotsExactly | rmf_dev_tool-main/vda5050_gui/vda5050_gui.py:488-544 | which vehicles are shown, and what each field of a snapshot holds |
| LogStores.LatestExactly | rmf_dev_tool-main/vda5050_gui/vda5050_gui.py:504-519 | a search back finds the data of the last entry of the kind about the vehicle, and nothing exactly if there is none |
| LogStores.TrimmedExactly | rmf_dev_tool-main/vda5050_gui/vda5050_gui.py:447-468 | entries go if and only if two hundred at the front are outdated, and then all outdated ones there |
| LogStores.FastIsSlowExactly | rmf_dev_tool-main/vda5050_gui/vda5050_gui.py:488-544 | what the store shows for its last entry is what a scan of its entries shows, if and only if every dropped kind of data has been refreshed since; in particular if nothing was trimmed |
| LogStores.BatchIsForgotten | rmf_dev_tool-main/vda5050_gui/vda5050_gui.py:447-544 | a concrete history with which it is not |
| FieldNames.NamesRoundTripExactly | rmf_platform-main/src/rmf_vda5050_fleet_adapter/vda5050_fleet_adapter/infra/mqtt/message_serializer.py:46-70 | an ASCII field name survives the way to its protocol key and back if and only if it has no capitals and is not the one name that collides with a special case |
| FieldNames.CollidingNameChanges | rmf_platform-main/src/rmf_vda5050_fleet_adapter/vda5050_fleet_adapter/infra/mqtt/message_serializer.py:46-70 | what becomes of that name |
| FieldNames.SpecialNames | rmf_platform-main/src/rmf_vda5050_fleet_adapter/vda5050_fleet_adapter/infra/mqtt/message_serializer.py:46-70 | the specially treated names, both ways |
| MessageFormat.OrderIsInFormat | rmf_platform-main/src/rmf_vda5050_fleet_adapter/vda5050_fleet_adapter/infra/mqtt/message_serializer.py:73-105 | every field of a printed order, its nodes, edges and actions, under its name; optional ones are missing exactly if there is no value |
| MessageFormat.MissingFieldsOfOrder | rmf_platform-main/src/rmf_vda5050_fleet_adapter/vda5050_fleet_adapter/infra/mqtt/message_serializer.py:124-226 | what an order is read as without its optional fields, and that it is refused without its ids |
| MessageFormat.MissingFieldsOfParts | rmf_platform-main/src/rmf_vda5050_fleet_adapter/vda5050_fleet_adapter/infra/mqtt/message_serializer.py:137-215 | nodes, edges, actions and parameters are refused without what they need; a control point has weight one by default |
| MessageFormat.MinimalParts | rmf_platform-main/src/rmf_vda5050_fleet_adapter/vda5050_fleet_adapter/infra/mqtt/message_serializer.py:141-181 | what nodes, actions and corridors with their required fields only are read as |
| MessageFormat.MinimalEdge | rmf_platform-main/src/rmf_vda5050_fleet_adapter/vda5050_fleet_adapter/infra/mqtt/message_serializer.py:198-215 | what an edge with its required fields only is read as |
| MessageFormat.NullIsMissing | rmf_platform-main/src/rmf_vda5050_fleet_adapter/vda5050_fleet_adapter/infra/mqtt/message_serializer.py:154-214 | an optional field that is null reads as a missing one |
| MessageFormat.TimeIsUniversal | rmf_platform-main/src/rmf_vda5050_fleet_adapter/vda5050_fleet_adapter/infra/mqtt/message_serializer.py:124-134 | a time is read as universal time |
| MessageFormat.BlockingWords | rmf_platform-main/src/rmf_vda5050_fleet_adapter/vda5050_fleet_adapter/infra/mqtt/message_serializer.py:141-151 | the words of the blocking types, and that a word is read exactly as the type it is printed for |
| MessageSerializer.ValueReturnsExactly | rmf_platform-main/src/rmf_vda5050_fleet_adapter/vda5050_fleet_adapter/infra/mqtt/message_serializer.py:73-94 | a parameter value comes back unchanged if and only if no tuple, enumeration member or time is part of it |
| MessageSerializer.OrderReturns | rmf_platform-main/src/rmf_vda5050_fleet_adapter/vda5050_fleet_adapter/infra/mqtt/message_serializer.py:87-226 | a printed order can be read if and only if every action parameter has a value; what is read is the order with plain values, without descriptions and with its time cut to milliseconds |
| MessageSerializer.OrderRoundTripExactly | rmf_platform-main/src/rmf_vda5050_fleet_adapter/vda5050_fleet_adapter/infra/mqtt/message_serializer.py:73-226 | the order comes back unchanged if and only if, beyond that, its values are plain, it has no descriptions and a UTC time in whole milliseconds |
| MessageSerializer.DescriptionIsLost | rmf_platform-main/src/rmf_vda5050_fleet_adapter/vda5050_fleet_adapter/infra/mqtt/message_serializer.py:163-226 | a concrete order that does not |
| MessageSerializer.SecondTripIsExact | rmf_platform-main/src/rmf_vda5050_fleet_adapter/vda5050_fleet_adapter/infra/mqtt/message_serializer.py:73-226 | an order that was read survives every further trip if and only if no enumeration member without a value was read as none |

## Left out

- Identifiers are integers, since the modelled code only compares them. An empty string, which the program treats as absent in a few places (fault reason, source bay, block id of a cancellation), is therefore not representable; absent values are `None`.
- `_robot_states` of the arbiter, which no decision reads, `snapshot()`, `status()`, the text of a fault reason, and all logging.
- Threads: each operation is one atomic step under its lock. A submission looks up the robot's place just before it takes the lock; the model takes both as one step. Timers, HTTP, MQTT, the web application, YAML and file loading are not part of this model.
- Geometry: which block or bay contains a position, and which nodes count as passed or reached, are inputs. Speeds, headings, rotation, battery and obstacles appear only as the conditions of `NavigationTick`.
- Times, costs and coordinates are integers or reals; rounding of floating point is not modelled. The distance between two nodes is an arbitrary function that is never negative.
- Job and command objects are values held in fields, so aliasing of a job handed out to a caller is not captured. Jobs are numbered in the order of submission instead of by random ids.
- Requests that match no managed route are passed on to the upstream server; the model has the verdict but no record of them.
- `from_dict`: the alternative spellings of the configuration (groups, settings), defaults of missing entries and exceptions for entries of the wrong type. The two edge sets of a block are one set, since they are only used as a union.
- DirectionArbiters.DirectionArbiter.CancelRequests: the order in which a set of domains is visited is chosen freely; the order found is returned as a ghost result.
- DeadlockFreedom.NoDeadlock: assumes what an undisturbed run is (no fault, cancellation, reset or rejected forward, no silent robot, each crossing observed inside the block, truthful positions), every block with an end bay that has room for the fleet, and nobody parked in a bay that has not. A sound layout goes beyond what the loader checks: the ends of a block differ, no two bays have the same node, each step of a route starts where the one before it ended, and a route starts at the node of its first bay. Chains with two adjacent narrow bays can come to a standstill and are excluded by the room for the fleet.
- ArbiterLegal.LegalRunsFromTheStart: legal calls are those of the tracker and the gate in normal use (one outstanding request per robot, destinations at the end of the block, no release of a bay under a live grant, bay sightings only where the bay counts the robot or has room); the two ends of a block differ, which the loader does not check.
- ArbiterGaps.CancelWakesExactly: whether the domain of the cancelled request takes the place over, when somebody there waits for the same bay, depends on its whole reconciliation; `CancelWakesByOutcome` then reads it off the state after the call.
- ArbiterWakeups.StepKeepsSettled: speaks of operations whose reconciliations go through, and so does `StepWakesEveryone`. For one that raises, `RaisingRoundSettles` says which domains are settled; whether the raising domain and those not reached happen to be settled is left open. `StepKeepsSettled` asks that the operation frees no bay another domain waits for; `OccupyWakesExactly` and `CancelWakesExactly` say when that matters.
- Starvation: a steady stream of one direction can keep a shared bay reserved, so nothing beyond alternation is claimed.
- CommandAck: callbacks do not re-enter the machine, log lines are left out, and command-specific payloads are opaque.
- Robot actions: only that an arrival lasts until the actions of the node are over. Action states, edge actions and instant actions are not part of this model, nor is the comparison of map ids during a map download.
- LogStore: position trails, the set of vehicle ids, loading a file and the change markers it computes. The retention limit is an input, and a snapshot stands for the data it is filled from.
- MessageSerializer: payloads stand for the values of their JSON text, and a payload whose entries have the wrong type is refused where the program would carry the entry along. Fields are enumerated: that the keys printed through `_snake_to_camel` are the literal keys read back holds by construction and is not proved. Parameter values that are dictionaries hold JSON values, and none is a dataclass. State, connection and instant-action messages are not part of this model.
- FieldNames: names are read as ASCII; lower-casing of other letters is not modelled.

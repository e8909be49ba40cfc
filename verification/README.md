# A verified model of the load-balancing simulators

Two discrete-event simulators share one code base: `lb` routes tasks from client balancers to servers, `ms` sends
requests through a graph of microservices. This project models the scheduling and dispatch protocols of both in Dafny
and proves what they are built to guarantee, over every run: any topology that the simulators wire, any arrivals, any
service times, any routing choice, and any order in which messages of one instant are delivered.

## How the model is built

Each object whose handlers change its fields is a class (`LoadBalancer`, `Server`, `Replica`, `DownstreamBalancer`,
`ReplicaBalancer`, `IntentQueue`, `AmphiQueueServerSidecar`, `CandidatePool`, `OccupancyAccumulator`, `PathBuilder`, the
audits). `IntentQueue` is the part of a replica that queues and answers pull intents. Every method of the first seven is
proved equal to a function from the old state to the new state and the messages sent; runs are defined with
those functions, and the properties are proved of the runs. The audits, the path check and the candidate pool are proved
directly against declarative statements.

- `Domain`, `Sums`: tasks and messages; sums over sequences, in which every conservation law is stated.
- `Occupancy`, `Balancers`, `Servers`: the accumulator, the client balancer and the server of `lb`.
- `Clusters`: the whole `lb` simulation as one state machine. One handler is one step. Channels are bags. A scheduled
  event may fire when it is the earliest and no message of an earlier instant is on its way. Time is a natural number of
  nanoseconds. The routing policy is an arbitrary position in the balancer's list.
- `Wiring`, `Flows`, `Expresses`, `Accounting`, `Slots`, `Claims`, `Disciplines`, `Timing`, `Jobs`, `Little`, `Progress`: one
  invariant, or one measure, each; `Runs` states the results for whole runs of all modes.
- `PullAudit`, `AuditedRuns`: the pull audit, what it accepts, and why it accepts every run.
- `Services`, `Waiting`, `Deadlines`, `Timers`, `Promises`, `Confusions`: the real-time bound on waiting under a delay
  threshold, and the promise of the delay estimate.
- `Bounce`, `Endless`: where work shedding stops time, and when runs are bounded.
- `CallGraphs`, `Replicas`, `Traversal`, `CallRuns`, `CallTrees`, `CallEnds`, `CallCompletions`: the cycle check, the
  replica, and the microservice machine as a traversal of the call tree that every request completes.
- `PullBounds`, `JbsqAudit`: slots of replicas, the JBSQ bound and its audit.
- `Sidecars`, `SidecarRuns`: the shared intent queue and its replicas.
- `Edf`, `Downstreams`, `QueueReplays`, `QueueAudit`: queues by deadline, the balancer that callers share, replays of
  queues from a trace, and the balancer's audit.
- `ReplicaPulls`, `ReplicaPullRuns`, `ReplicaPullSafety`, `ReplicaPullAudit`, `ReplicaPullLogs`, `ReplicaPullResults`: the
  AmphiQueue protocol between replicas, bound, first come, first served and by deadline; its invariants; its audit; and
  the results for whole runs. Calls may be posted at any time, and messages arrive in any order.
- `Prequal`, `Subsets`: the candidate pool, and deterministic subsetting.

## Results worth knowing before reading on

- Work shedding can stop time. A full server whose oldest service has run longer than the threshold returns a task in the
  instant it comes, and its balancer sends it out again in the same instant. If all servers of the balancer are like
  that, no later event is ever reached: `Bounce.TrappedForever`, reached by two requests in `Bounce.TinyTrap`.
  `docs/work-shedding.md:83` says that tasks may be re-routed several times before they complete; in this state they
  are re-routed for ever. Exactly when a server returns a task at once is `Bounce.ReturnedAtOnce`.
- Exactly when runs are bounded is `Endless.BoundedIffNoShedding`: if and only if no push balancer can choose a server
  that sheds. Only shedding makes a run long (`Runs.LongOnlyByShedding`), and a run that does end has completed
  everything, with shedding too (`Runs.StuckMeansComplete`).
- The waiting bound needs two assumptions, because servers file timers under a task's start and running services under
  the time they started. Two tasks in one queue must not share a start, and services that started together must be
  equally long. Both follow from what is known before a run (`Promises.ClearStart`): requests have different starts, and
  each push server has one slot or all requests are equally long. `Confusions.RecordsConfused` is a run that misses the
  bound when services can be confused, `Confusions.TimersConfused` shows what happens to timers; `Services.RightRecordIff`
  says exactly when the record that a completion removes is the right one.
- A replica tells its sidecar of an arrival in two messages. If an intent comes between them the sidecar can pull for a
  replica that is full: `SidecarRuns.SplitArrival` says exactly when the replica then has more than its slots, whatever
  replicas the sidecar owns and whatever intents wait; `SidecarRuns.SplitArrivalOverbooks` gives the
  smallest case. With the two taken together no replica is ever overbooked (`SidecarRuns.NeverOverbooked`).
- The call-graph loader accepts an edge to the user's own node, which no microservice has. A request whose call tree
  contains it is served up to there and then lost, exactly once; all others complete, exactly once
  (`CallCompletions.StuckMeansCompleted`).
- The bound validation of the microservice audit refuses runs that are in order: it wants each drained intent to be the
  only one of its balancer and request, but a request that calls two services from one replica makes two.
  `ReplicaPullResults.BoundAudit` says that it accepts a completed bound run exactly if no balancer has announced two calls
  for one request; `ReplicaPullResults.TwoServicesCalled` gives a run that starts with two, and
  `ReplicaPullResults.TwoCallsAreRefused` says that no continuation is accepted.

## Model

| member | source | states |
|---|---|---|
| Occupancy.OccupancyAccumulator.Record | src/occupancy.rs:11-18 | recording a level never changes the area measured up to now, whatever the level |
| Occupancy.OccupancyAccumulator.Finalize | src/occupancy.rs:20-36 | the average times the observation window is the whole area; zero for an empty window |
| Balancers.LoadBalancer.HandleInput | src/load_balancer.rs:209-248 | the new state and everything sent, for centralized, AmphiQueue and push dispatch |
| Balancers.LoadBalancer.HandlePull | src/load_balancer.rs:250-339 | the new state and everything sent; refuses exactly where the program aborts on a pull |
| Balancers.LoadBalancer.HandleRelease | src/load_balancer.rs:341-343 | one inflight count falls, stopping at zero |
| Balancers.LoadBalancer.DispatchAllWaiting | src/load_balancer.rs:166-176 | the loop over waiting servers equals its recursive description |
| Balancers.LoadBalancer.DispatchToServer | src/load_balancer.rs:151-164 | one more in flight, and one task sent with its owner, origin and dispatch time stamped |
| Balancers.LoadBalancer.SendPullIntent | src/load_balancer.rs:186-205 | one more intent counted for the chosen server, sent and recorded |
| Balancers.LoadBalancer.RemoveTaskForPull | src/load_balancer.rs:178-184 | takes out the first task with the identifier, or nothing |
| Servers.Server.HandleInput | src/server.rs:434-455 | the new state and everything sent and scheduled when a task comes, in each dispatch mode |
| Servers.Server.HandleComplete | src/server.rs:546-592 | the new state and everything sent and scheduled when a service ends |
| Servers.Server.HandlePullIntent | src/server.rs:466-481 | the intent joins the queue, and at most one is answered |
| Servers.Server.HandleRequestPull | src/server.rs:483-493 | one pull, only in centralized mode with a free slot |
| Servers.Server.HandleEvictTimer | src/server.rs:529-536 | the timer's task leaves the queue for the express balancer if it is still there |
| Servers.Server.HandleShedTimer | src/server.rs:538-544 | the timer's task is released and returned if it is still there |
| Servers.Server.ApplyEnqueueEviction | src/server.rs:271-306 | every eviction policy's decision on the newest task |
| Servers.Server.ApplyWorkShedding | src/server.rs:344-359 | shed at once, guard with a timer, or leave |
| Servers.Server.StartService | src/server.rs:394-411 | a service recorded and its end scheduled, the task's timers cancelled |
| Servers.Server.DrainTaskQueue | src/server.rs:413-419 | the loop that fills free slots from the queue |
| Servers.Server.DrainPullIntents | src/server.rs:495-527 | at most one intent answered, only while a slot is unreserved |
| Servers.Server.RemoveService | src/server.rs:421-429 | removes the first record with the start time |
| Wiring.NextKeepsWellFormed | src/lb_simulate.rs:614-760 | no handler sends anything where the simulators have not wired it |
| Flows.InputFlow | src/load_balancer.rs:209-248 | a task that enters a balancer is queued or sent once, and no other task is lost or doubled |
| Flows.PullFlow | src/load_balancer.rs:250-339 | a pull moves one queued task or none |
| Flows.ServerInputFlow | src/server.rs:434-455 | a task that enters a server starts, waits, is evicted or is shed: exactly one of these |
| Flows.CompleteFlow | src/server.rs:546-592 | a completion frees its own task and keeps all others |
| Flows.TimerFlow | src/server.rs:529-544 | a timer moves at most the one task it is for |
| Flows.InputOutstanding | src/load_balancer.rs:151-164 | a balancer's inflight count rises by exactly the tasks it sends |
| Accounting.NextKeepsExact | src/load_balancer.rs:151-164 | in every mode a client's inflight count for a server is its tasks there still in the system, express servers included, plus releases on the way |
| Expresses.NextKeepsExact | src/server.rs:561-572 | the express balancer's count for a server is the tasks on their way there, the services there, and the server's releases on the way, in every mode |
| Accounting.ReleaseNeverSaturates | src/load_balancer.rs:341-343 | no release ever meets a count of zero, at a client balancer or at the express balancer |
| Accounting.ReleasedOnce | src/server.rs:561-572 | a completion releases its owner's count for its origin once, from an express server too |
| Slots.NextKeepsSlots | src/server.rs:434-592 | no server exceeds its concurrency, no pull token is lost or forged, and work or intents wait only while every slot is taken |
| Slots.InitialPullSlots | src/sim_util.rs:14-28 | an initial pull always finds a free slot, so the guard never drops a token |
| Slots.ReservationHeld | src/server.rs:440-442 | a pulled task finds its reservation, so the saturating subtraction is exact |
| Slots.IntentsReserve | src/server.rs:495-527 | one pull for one reservation, and intents remain only at a server without a free slot |
| Claims.NextKeepsClaims | src/load_balancer.rs:186-205 | each queued request is claimed exactly once by an intent or pull; unbound queues are as long as their claims; intent loads count claims per server |
| Claims.PullFindsTask | src/load_balancer.rs:250-329 | a pull finds a task, in bound mode the one it names, and a positive intent load |
| Claims.NextNeverAborts | src/load_balancer.rs:253-312 | no step reaches a fatal pull abort |
| Disciplines.InputInOrder | src/load_balancer.rs:166-176 | a centralized balancer sends oldest tasks to longest-waiting servers and stops only without tasks or servers |
| Disciplines.PullInOrder | src/load_balancer.rs:331-338 | a centralized pull takes the head of the queue, or waits its turn |
| Disciplines.DispatchInArrivalOrder | src/load_balancer.rs:253-338 | a first-come balancer dispatches tasks in the order of their arrival numbers, without a gap |
| Disciplines.NextKeepsDiscipline | src/load_balancer.rs:209-339 | never queued tasks and waiting servers together; first-come queues hold consecutive numbers |
| Timing.NextKeepsTimely | src/server.rs:394-411 | nothing is scheduled in the past |
| Timing.NextWork | src/server.rs:555-559 | work is done only while time passes: no handler adds to it or loses any |
| Timing.NextKeepsUtilised | src/lb_simulate.rs:302-308 | a server's busy time and running services fit in its slots times the time elapsed |
| Jobs.NextKeepsTotal | src/server.rs:333-392 | no step loses, doubles or reassigns a job, through eviction and shedding |
| Little.InputGap | src/load_balancer.rs:209-235 | a task that comes adds no waiting time to the measured area |
| Little.PullGap | src/load_balancer.rs:250-339 | a task taken from anywhere in the queue carries its waiting time along |
| Little.NextKeepsLittle | src/load_balancer.rs:105-114 | the queue-length integral is the waiting time of the dispatched and of the queued tasks, at all times |
| Progress.NextShrinks | src/server.rs:434-592 | every step strictly reduces what remains to be done, but for four units for each task that it sheds |
| Progress.NextUnshed | src/server.rs:344-359 | where no push balancer can choose a server that sheds, nothing is ever shed |
| Progress.SomethingCanHappen | src/server.rs:434-592 | while anything is in transit or scheduled some handler can run |
| Progress.EndsSettled | src/load_balancer.rs:166-176 | when nothing is left in transit or scheduled, every queue, slot, reservation and counter is empty |
| Runs.EveryRunIsSafe | src/load_balancer.rs:250-329 | all invariants in every state of every run, of all modes together |
| Runs.EveryRunConservesJobs | src/lb_simulate.rs:240-276 | jobs in the system and jobs done are the jobs that were to arrive, each still with its client |
| Runs.LongOnlyByShedding | src/server.rs:372-392 | any run takes at most eleven handlers for each request, two for each initial pull, and four for each time a task is shed |
| Runs.EveryRunIsBounded | src/server.rs:434-592 | where no push balancer can choose a server that sheds, the last part is nothing |
| Endless.OneMoreStep | src/server.rs:344-359 | a balancer that keeps choosing a jammed server sends a task to and fro for ever, without passage of time |
| Endless.BoundedIffNoShedding | docs/work-shedding.md:83 | the runs of every simulation of a topology are bounded if and only if no push balancer of it can choose a server that sheds |
| Runs.StuckMeansComplete | src/server.rs:434-592 | a run that cannot continue has completed every job for its own client and left nothing occupied |
| Runs.DoneCount | src/server.rs:546-560 | as many tasks done as arrived, each served without interruption for its duration |
| Runs.LittleIdentity | src/lb_simulate.rs:399-413 | at the end the integral of a pull-mode client is the sum of dispatch minus start over its tasks |
| Runs.UtilisationAtMostOne | src/lb_simulate.rs:547-557 | busy time is at most concurrency times the time observed |
| PullAudit.LbPullAudit.ValidateCommon | src/lb_pull_audit.rs:157-322 | accepts exactly the complete traces in which every length, every drain and every count obeys the declared law |
| PullAudit.LbPullAudit.ValidateBound | src/lb_pull_audit.rs:324-381 | accepts exactly those in which besides each pull takes the pending task its intent names |
| PullAudit.LbPullAudit.ValidateNoBind | src/lb_pull_audit.rs:383-447 | accepts exactly those in which besides each pull takes the oldest pending task, and some intent is mismatched |
| PullAudit.ReplayEvent | src/lb_pull_audit.rs:172-278 | one event is accepted exactly when it obeys the law given the events before it |
| PullAudit.AcceptedDrainsInOrder | src/lb_pull_audit.rs:213-256 | an accepted trace drains each server's intents exactly in the order they were queued |
| PullAudit.AcceptedPullsEachOnce | src/lb_pull_audit.rs:324-381 | an accepted bound trace pulls exactly the enqueued tasks, each as often as enqueued |
| PullAudit.AcceptedPullsInOrder | src/lb_pull_audit.rs:383-447 | an accepted unbound trace pulls each balancer's tasks exactly in the order they were enqueued |
| AuditedRuns.NextKeepsLog | src/server.rs:466-527 | every handler records only what the laws allow, and the trace leaves open exactly what the cluster holds |
| AuditedRuns.CommonAudit | src/lb_pull_audit.rs:157-322 | the common validation accepts every completed run with an AmphiQueue client |
| AuditedRuns.BoundAudit | src/lb_pull_audit.rs:324-381 | the bound validation accepts every completed bound run |
| AuditedRuns.NoBindAudit | src/lb_pull_audit.rs:383-447 | every completed unbound run passes the first-come replay, and is accepted exactly if it shows a mismatch |
| Services.NextKeepsServices | src/server.rs:394-429 | the record of running services is exactly the scheduled completions, if services that start together are alike |
| Services.RightRecordIff | src/server.rs:421-429 | the right record is removed exactly when the first one with the start time is the completed service's |
| Services.OneSlotUnambiguous | src/server.rs:421-429 | with one slot that is always so |
| Waiting.EstimateMeans | src/server.rs:105-120 | the estimate is within the threshold exactly if one slot, from the first to be free, would serve the queue in time |
| Waiting.InputAdmits | src/server.rs:271-359 | at a full server a task leaves at once, waits on track, or waits with a timer at the threshold |
| Waiting.CompleteTakesHead | src/server.rs:413-419 | a completion at a full server starts exactly the task at the head |
| Waiting.HeadMakesWay | src/server.rs:413-419 | the tasks behind a starting head stay on track |
| Waiting.RemovalBringsForward | src/server.rs:122-125 | taking any task out keeps the others on track |
| Timers.NextTimersOk | src/server.rs:361-392 | a scheduled timer is always one that its server keeps for a task still in its queue, at most one for a task |
| Deadlines.ClearRunBound | src/server.rs:271-306 | in a run whose queued starts differ and whose services that start together are alike, no task is in a queue longer than the threshold, and each one that left it left in time |
| Promises.ClearThroughout | src/server.rs:421-429 | such is every run whose requests have different starts, if each push server has one slot or all requests are equally long |
| Promises.WaitingBound | src/server.rs:271-306 | so in every such run each task left its queue, served, evicted or shed, within the threshold, and none is in one longer |
| Deadlines.EstimateIsKept | src/server.rs:105-120 | one step leaves a task on track, starts it in time to finish within the bound, or is its own timer |
| Promises.EstimateIsAPromise | src/server.rs:105-120 | a task admitted with an estimate within `d` is, in every later state of the run, on track and without a timer, or being served to end within `d`, or done within `d` |
| Promises.EstimateKept | src/server.rs:105-120 | the same from assumptions on the start of the run alone |
| Confusions.RecordsConfused | src/server.rs:421-429 | a run of four requests at one server in which a task starts 97 after it came, with a threshold of 10 |
| Confusions.TimersConfused | src/server.rs:361-370 | four handler calls after which a waiting task has lost its timer to another with the same start |
| Bounce.ReturnedAtOnce | src/server.rs:344-359 | a task comes straight back exactly if the server is full and its oldest service exceeds the threshold, and nothing else changes |
| Bounce.TrappedForever | docs/work-shedding.md:83 | once all servers of a balancer are like that, whatever handler runs next, time stands still |
| Bounce.TinyTrap | docs/work-shedding.md:83 | two requests reach that state in four steps |
| CallGraphs.PathBuilder.BuildPath | src/microservice/callgraph.rs:331-353 | succeeds exactly if the visit does; then the stack is as before and the path has grown by the visit |
| CallGraphs.AcceptsIffAcyclic | src/microservice/callgraph.rs:331-353 | an entry point is accepted exactly if no walk from it along its API's edges repeats an endpoint |
| CallGraphs.CheckEntrypoints | src/microservice/callgraph.rs:151-155 | the graph is accepted exactly if no entry point reaches a cycle of its API |
| CallGraphs.PreorderUnfolds | src/microservice/callgraph.rs:331-353 | what the check leaves in the path is the preorder of the call tree: the endpoint, then its children's trees in order |
| Replicas.Replica.HandleInput | src/microservice/replica.rs:518-629 | the new state and everything sent when a request or a return comes |
| Replicas.Replica.HandleComplete | src/microservice/replica.rs:687-738 | the new state and everything sent when a service ends |
| Replicas.Replica.HandleRequestPull | src/microservice/replica.rs:631-641 | one pull, if there is room |
| Replicas.Replica.AdvanceRequest | src/microservice/replica.rs:411-513 | on to the next child, back to the caller, or out; lost at an unknown endpoint |
| Replicas.Replica.ResumeRequest | src/microservice/replica.rs:391-409 | releases what the return carries and moves on |
| Replicas.Replica.DrainLocalQueue | src/microservice/replica.rs:371-389 | resumes returned requests and starts at most one service |
| Replicas.Replica.SendJbsqPullsUntilFull | src/microservice/replica.rs:200-210 | the refill loop ends, and equals its recursive description |
| Replicas.Replica.EnqueueWork | src/microservice/replica.rs:296-314 | at the end, or at the place by deadline |
| Replicas.EnqueueIsEdf | src/microservice/replica.rs:302-313 | a replica's queue by deadline is the abstract one without its arrival numbers |
| Traversal.ServingTakesHead | src/microservice/replica.rs:728-731 | serving takes exactly the endpoint off what the request has left |
| Traversal.CallKeepsList | src/microservice/replica.rs:414-448 | going to a child leaves the list of endpoints still to serve as it is |
| Traversal.ReturnKeepsList | src/microservice/replica.rs:450-490 | going back to the caller leaves it as it is |
| CallRuns.NextKeepsPlaces | src/microservice/replica.rs:371-513 | every step keeps every request in exactly as many places as before |
| CallTrees.NextOnPlan | src/microservice/replica.rs:391-513 | what a request has been served at and what it has left are together its call tree in preorder, at all times |
| CallTrees.ExactlyOnePlace | src/microservice/hop.rs:60-78 | a request is in exactly one place at any time |
| CallTrees.CompletedMeansTraversed | src/microservice/replica.rs:492-513 | a completed request was served at exactly its call tree in preorder, reports the sum of its service times, and completed once |
| CallTrees.CompletedIffOwned | src/microservice/hop.rs:126-132 | of the requests that have left, the completed ones have call trees of known endpoints only, the lost ones have not |
| CallCompletions.NextAlive | src/microservice/replica.rs:165-210 | a JBSQ replica never runs out of initial pulls, pulls on the way and requests held, all together |
| CallCompletions.SomethingCanHappen | src/microservice/replica.rs:391-513 | while anything is to come, on its way, with a balancer or running, some step can be taken |
| CallCompletions.StuckMeansOver | src/microservice/replica.rs:687-738 | a run that cannot go on has left nothing to come, with a balancer, on its way, running or queued |
| CallCompletions.StuckMeansCompleted | src/microservice/replica.rs:492-513 | then each request has completed exactly once if its call tree has only known endpoints, and has been lost exactly once if not |
| CallEnds.EveryRunEnds | src/microservice/callgraph.rs:331-353 | a run takes at most six steps for each endpoint in its call trees, one for each request and one for each initial pull |
| PullBounds.NextKeepsSlots | src/microservice/replica.rs:518-641 | slots, tokens and the JBSQ bound are kept by every step, whatever balancers choose |
| PullBounds.JbsqBound | src/microservice/replica.rs:157-172 | held requests and outstanding pulls are at most `n`; services at most the slots; work waits only while all are taken |
| PullBounds.JbsqRefilled | src/microservice/replica.rs:734-737 | after every completion they are exactly `n` |
| JbsqAudit.MsJbsqAudit.Validate | src/ms_jbsq_audit.rs:88-156 | accepts exactly the non-empty traces without an event over the bound |
| JbsqAudit.EveryRunIsLawful | src/ms_jbsq_audit.rs:86-88 | no run records an event that the audit rejects |
| Sidecars.AmphiQueueServerSidecar.HandlePullIntent | src/microservice/sidecar.rs:223-249 | the new state and the pulls sent when an intent comes |
| Sidecars.AmphiQueueServerSidecar.HandleCapacityEvent | src/microservice/sidecar.rs:251-266 | the new state and the pulls sent when a replica reports |
| Sidecars.AmphiQueueServerSidecar.SelectReplica | src/microservice/sidecar.rs:122-134 | the least occupied replica, the first among equals |
| SidecarRuns.NextSafe | src/microservice/sidecar.rs:137-196 | whatever reports are late, running services and requests on the way never exceed a replica's slots |
| SidecarRuns.NextBusy | src/microservice/sidecar.rs:181-196 | intents are left waiting only if the sidecar sees every replica full |
| SidecarRuns.NeverOverbooked | src/microservice/sidecar.rs:115-120 | both, in every state of every run |
| SidecarRuns.SplitArrival | src/microservice/replica.rs:583-592 | an intent between the two reports of an arrival overbooks the replica exactly if its requests, and what the replicas before it leave over as far as the stale view has room, exceed its slots |
| SidecarRuns.SplitArrivalOverbooks | src/microservice/replica.rs:583-592 | a replica of one slot is then sent a second request |
| Edf.EdfInsertIndex | src/scheduling.rs:15-27 | the scan finds the place before the first strictly later deadline |
| Edf.QueueIsSorted | src/scheduling.rs:12-14 | after any inserts and pops the queue is sorted by deadline, first come first among equals |
| Edf.QueueRefines | src/scheduling.rs:12-14 | each insert and pop is one of the specified set: a pop takes the least pending entry |
| Edf.SortedIsUnique | src/scheduling.rs:12-14 | the order determines the queue |
| Downstreams.DownstreamBalancer.HandleOutbound | src/microservice/balancer.rs:877-969 | the new state and everything sent when a call comes |
| Downstreams.DownstreamBalancer.HandlePull | src/microservice/balancer.rs:971-1010 | the new state and everything sent when a server pulls |
| Downstreams.OutboundGood | src/microservice/balancer.rs:807-832 | counts per caller stay exact, the queue in order, and no server waits beside a call |
| Downstreams.PullGood | src/microservice/balancer.rs:971-1010 | the same for a pull, which takes a call with the earliest deadline |
| QueueAudit.ValidateQueueDiscipline | src/ms_centralized_audit.rs:337-406 | accepts exactly the traces whose dispatches take the replayed heads and leave nothing, with the coverage it asks for |
| QueueAudit.AcceptedDispatchIsEarliest | src/ms_centralized_audit.rs:332-335 | an accepted dispatch is of the pending call with the earliest deadline, the first among equals |
| QueueAudit.EveryRunReplays | src/microservice/balancer.rs:862-1010 | whatever calls and pulls come, the balancer's trace replays to its queue |
| QueueReplays.TakenAndQueued | src/amphiqueue_audit.rs:427-481 | whatever the discipline, what was taken and what is queued are what came, each as often |
| QueueReplays.EveryTakeIsLeast | src/amphiqueue_audit.rs:483-554 | in a trace that replays by deadline every item taken is the pending one with the earliest deadline, the first among equals |
| ReplicaPulls.ReplicaBalancer.HandleOutbound | src/microservice/balancer.rs:510-568 | the new state and everything sent when a call comes, under the AmphiQueue protocol |
| ReplicaPulls.ReplicaBalancer.HandlePull | src/microservice/balancer.rs:611-693 | the new state and everything sent; refuses exactly where the program aborts on a pull |
| ReplicaPulls.ReplicaBalancer.SendPullIntent | src/microservice/balancer.rs:330-382 | one intent to the picked server, whose announced load rises by one |
| ReplicaPulls.IntentQueue.ReceivePullIntent | src/microservice/replica.rs:643-671 | the new state and the pull sent when an intent comes, in arrival order or by deadline |
| ReplicaPulls.IntentQueue.DrainPullIntents | src/microservice/replica.rs:237-272 | one pull for the first intent, if a slot is neither taken nor promised |
| ReplicaPulls.IntentQueue.ReceiveCall | src/microservice/replica.rs:572-595 | a pulled call takes the slot promised for it, or gives it up if its endpoint has no service time |
| ReplicaPulls.IntentQueue.CompleteService | src/microservice/replica.rs:706-726 | the freed slot goes to the first intent |
| ReplicaPullSafety.NextClaims | src/microservice/balancer.rs:330-382 | a call makes one claim, an answered pull settles one, no other step changes any |
| ReplicaPullSafety.NextBalanced | src/microservice/balancer.rs:611-665 | queued calls and their claims stay equal: request by request when bound, in number when not |
| ReplicaPullSafety.NextLoadExact | src/microservice/balancer.rs:322-328 | the announced load at a server stays the number of intents and pulls out for it |
| ReplicaPullSafety.NextSlots | src/microservice/replica.rs:237-272 | services and promised slots stay exact and within the slots; intents wait only at full servers |
| ReplicaPullLogs.NextLogged | src/microservice/balancer.rs:668-679 | whatever happens next, the trace obeys the length law and replays to the queues really held |
| ReplicaPullAudit.ValidateCommon | src/amphiqueue_audit.rs:274-424 | accepts exactly the complete traces in which every length and every free slot is as the law says |
| ReplicaPullAudit.ValidateIntents | src/amphiqueue_audit.rs:427-554 | accepts exactly the traces in which every drain takes the oldest intent, or the one with the earliest deadline |
| ReplicaPullAudit.ValidateCalls | src/amphiqueue_audit.rs:775-865 | accepts exactly those whose pulls take the replayed heads, leave nothing, and show a mismatch |
| ReplicaPullAudit.ValidateBound | src/amphiqueue_audit.rs:556-670 | accepts exactly those whose pulls take the pending calls they name, one for each drained intent |
| ReplicaPullAudit.ValidateNoBind | src/amphiqueue_audit.rs:867-877 | all parts of the unbound validations, by the disciplines of intents and calls |
| ReplicaPullAudit.AcceptedDrains | src/amphiqueue_audit.rs:427-481 | an accepted trace drains exactly the queued intents of each server, and first come, first served in their order |
| ReplicaPullAudit.AcceptedDrainIsEarliest | src/amphiqueue_audit.rs:494-554 | an accepted `edf+` trace never drains past an intent with an earlier deadline |
| ReplicaPullAudit.AcceptedFulfils | src/amphiqueue_audit.rs:672-764 | an accepted trace fulfils exactly the announced calls of each queue, and first come, first served in their order |
| ReplicaPullAudit.AcceptedFulfilIsEarliest | src/amphiqueue_audit.rs:775-865 | an accepted EDF trace never pulls past a call with an earlier deadline |
| ReplicaPullResults.EveryPullIsAnswered | src/microservice/balancer.rs:616-660 | no pull aborts in any run, bound, first come, first served or by deadline |
| ReplicaPullResults.EveryRunIsSafe | src/microservice/replica.rs:237-272 | in every state of every run services and promises fit the slots, and every announced load is exact |
| ReplicaPullResults.EveryRunEnds | src/microservice/replica.rs:643-726 | a run handles at most four messages and services for each announced call |
| ReplicaPullResults.BusyUnlessStranded | src/microservice/replica.rs:344-352 | a step leaves intents waiting beside a free slot exactly if it drops a call without a service time where intents wait |
| ReplicaPullResults.SettledIffBusy | src/microservice/replica.rs:643-726 | a run that cannot go on has left nothing behind exactly if no intents wait beside a free slot |
| ReplicaPullResults.StuckMeansSettled | src/microservice/replica.rs:643-726 | so it has if calls were dropped at most where no intents waited |
| ReplicaPullResults.StuckMeansServed | src/microservice/replica.rs:643-726 | if none was dropped it has served every announced call |
| ReplicaPullResults.BoundAudit | src/amphiqueue_audit.rs:632-667 | the bound validation accepts a completed bound run exactly if no balancer has announced two calls for one request |
| ReplicaPullResults.NoBindAudit | src/amphiqueue_audit.rs:672-877 | the unbound validations accept a completed run of their discipline exactly if it shows a mismatch |
| ReplicaPullResults.EveryRunPassesItsAudit | src/amphiqueue_audit.rs:274-424 | both for every run that cannot go on; the common validation accepts it as soon as a call was announced |
| ReplicaPullResults.TwoCallsAreRefused | src/amphiqueue_audit.rs:644-660 | however a bound run with two calls of one balancer for one request goes on, it is refused |
| ReplicaPullResults.TwoServicesCalled | src/amphiqueue_audit.rs:644-660 | two calls of one request, to two services, start such a run |
| Prequal.CandidatePool.RemoveWorst | src/prequal.rs:69-81 | removes the highest load, the oldest among equals |
| Prequal.CandidatePool.SelectBest | src/prequal.rs:83-95 | picks the least load, the oldest among equals |
| Prequal.CandidatePool.AfterDispatch | src/prequal.rs:97-108 | one more use counted, and the candidate removed when used up |
| Prequal.CandidatePool.IngestReply | src/prequal.rs:110-130 | a reply replaces the server's previous one at the newest end, or the oldest |
| Prequal.CandidatePool.ApplyRemove | src/prequal.rs:138-145 | removals and debt are what was owed; a whole removal stays owed only if the pool has run empty |
| Prequal.ApplyProbe | src/prequal.rs:147-156 | probes and debt are what was owed, with less than one probe left |
| Prequal.ServeRequest | src/load_balancer.rs:128-148 | for one request the pool pays its removals, is asked for the best candidate, counts the use, and pays its probes |
| Prequal.DebtsBalance | src/prequal.rs:138-156 | in every run removals and debt are 0.3 for each request, and the probes paid for are the whole part of 1.5 for each |
| Prequal.OwedOnlyWhenEmpty | src/prequal.rs:138-145 | a whole removal stays owed after a request only if that request has emptied the pool and was sent outside it |
| Prequal.ReplyUsedAtMost | src/prequal.rs:97-108 | until a server replies again the pool chooses it for at most `B_REUSE` requests |
| Prequal.SampleProbeTargets | src/prequal.rs:158-171 | distinct servers outside the pool, as many as asked or as there are |
| Prequal.PoolStaysCurrent | src/load_balancer.rs:128-148 | in every run the pool has distinct servers, at most its capacity, in the order of their replies, none used up |
| Subsets.DisjointInRound | src/subset.rs:47-62 | clients of one round never share a server |
| Subsets.AssignedSubset | src/subset.rs:23-45 | every client gets as many servers as its subset size says, all of the pool and no two the same |
| Subsets.CoversIffDivides | src/subset.rs:47-62 | any round reaches every server exactly if `k` divides their number |
| Subsets.Balanced | src/subset.rs:47-62 | then each server has as many clients as there are full rounds, or one more |
| Subsets.CentralizedPartition | src/policy.rs:407-447 | under the validated conditions every server has exactly one balancer and every balancer the same number of clients |

## Left out

- Random sampling, seeds and statistics: service times, arrivals, routing choices and shuffles are arbitrary inputs.
- Clocks and floating point: time is a natural number; averages, rates and debts are exact reals.
- Unsigned 32-bit wrap-around and `saturating_add`: counters are unbounded, and the proofs show that no count modelled here is lowered at zero.
- Mailbox capacity, and the branches for events that cannot be scheduled.
- Prequal and `corr` dispatch inside the `lb` machine: the candidate pool is modelled on its own, the `corr` policy not at all.
- The load numbers that a routing policy sees: the policy is an arbitrary choice, so every policy is covered.
- The AmphiQueue protocol between replicas is a machine of its own, in which calls are posted from outside at any time; that the call-tree machine posts them is not part of it. With a shared sidecar only the sidecar's side is modelled.
- The in-flight counts of a replica's balancer, which the AmphiQueue protocol writes but never reads, and its queue-length statistics.
- Prequal and push dispatch of a replica's balancer: the call-tree machine lets it choose any replica.
- The response times that returns carry, and the per-visit statistics: a return carries a release exactly if a push balancer has named one.
- Missing return ports: a replica can always reach the callers of its requests.
- `src/microservice/simulate.rs`: the microservice machine takes any replicas, and calls go to any replica of their microservice; entry microservices are not pulled from.
- Reading the call-graph file: the loader's checks on nodes and edges are side conditions, its cycle check is modelled.
- Error messages: a validation that fails answers `false`.
- Promises.WaitingBound: the assumptions of `Promises.ClearStart` are enough, and `Confusions` shows runs that break them and the bound; a run that breaks them may still keep it.
- Little.NextKeepsLittle: for topologies without express lane and shedding, where a task is dispatched once.
- Endless.BoundedIffNoShedding: the long runs are of a simulation whose initial pulls, if the topology has servers that pull, come after its requests.
- SidecarRuns.NextSafe: takes the two reports of an arrival together; `SidecarRuns.SplitArrival` shows what happens otherwise.
- ReplicaPullResults.StuckMeansServed: for runs in which every call has a service time at its server, since a call that is dropped is not served; `ReplicaPullResults.BusyUnlessStranded` says what a drop leaves behind.

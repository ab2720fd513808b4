# Verification of the edge placement simulator and its realtime control plane

A Dafny model of the repository's hardest parts, with proofs. `dafny verify dfyconfig.toml`
checks everything.

## What is modelled

**The discrete-event lifecycle engine** (`simulator/engine.py`). `EngineModel.dfy` gives the
state (clock, heap, servers, replica objects, the per-service index, pending migrations,
emergency boots, meters, metrics) and each handler as a function of it. `Engine.dfy` has the
class `SimulationEngine`, whose methods carry these steps out on its fields, loops included, each
proved equal to its function of the old state (the table lists only those that say more); `Run`
terminates and records a history. A history
(`EnginePrime.IsHistory`) is any sequence of steps from `prime`, whatever the algorithm answers
within its contract, which may differ from step to step as with counters of its own: a selected
replica is READY and has room, `None` only when all are full (`EngineRouting.dfy` derives this from
what the `select_replica`s do), and a migration step moves a service hosted nowhere else to another
ACTIVE server that passes `can_host` (`Migration.dfy` derives this from `migration_decision`).
The number of servers, services and requests, the tables, the distance function and the delays
are parameters; of the delays only the order startup < graceful < grace < boot and
boot + startup < interval is used. `EngineInvariants.Core` is the invariant that links heap,
objects, index and meters; `EngineRuns` and `EnginePrime` prove it for every state of every
history, and the main results below rest on it. What single steps compute is told once more from
the states before and after them, without the functions that compute it: power (`EnginePower`),
response times (`EngineResponse`), servers switched (`EngineDecisions`), replicas placed and told
to leave (`EngineScaling`, where a tick decides at most once on each service, as the loop over the
services does), the life of a replica (`EngineReplicas`) and the start (`EngineStart`). A replica
event carries in the model, beside its (server, service) key, the object it was scheduled for: this
`owner` is history only, no handler reads it, and it is what "meets the incarnation it was
scheduled for" means.

**The replica queue** (`ReplicaQueues.dfy`), **reservations over Redis** (`Reservations.dfy`, all
interleavings of single commands), **realtime request accounting** (`RealtimeAccounting.dfy`),
**initial placement** (`GreedyCover.dfy`), **the demand medoid** (`Medoid.dfy`), **replica
selection** (`ReplicaSelection.dfy`), **VOILA's counters** (`Voila.dfy`), **HPA** (`Hpa.dfy`) and
**migration decisions** (`Migration.dfy`).

Floating-point numbers are exact reals. Time comes from events or is a parameter.

## Results that are conditions

Two promises of the code do not hold unconditionally. For both the exact condition is proved.

- Zero downtime across a drain: a service keeps a READY replica over a tick if and only if the
  drain does not orphan it (`EngineService.TickReadiness`): it is READY only on the drained host,
  and that host is not its only one, because a copy that is itself leaving counts as a host.
  `EngineDowntime` gives a run from `prime` in which this happens, with the delays and service 15
  of common/config.py. `EngineBacklog` gives a condition on the tables alone under which it never
  happens: a full queue, cold starts included, and a startup fit into the decision interval;
  services 1 to 13 meet it.
- Exactly-once accounting: no request is recorded twice if and only if no completion report
  arrives after its request was reaped and then pruned (`RealtimeAccounting.ExactlyOnceIff`);
  reports within the prune horizon never do.

## Model

| member | source | states |
|---|---|---|
| Settings.SourceDelaysAreGood | common/config.py:171-203 | the delay constants have the order on which the lifecycle relies |
| Settings.EffectiveAtMostRaw | common/models.py:103-115 | the rounded effective demand of a service on any host is at most its raw MIPS |
| Settings.EffectiveIsNearest | common/models.py:103-115 | the effective demand is the integer nearest to raw MIPS times the host's core speed over the reference speed, ties to even |
| Settings.ExecTime | common/config.py:72-77 | execution times are positive for every known service and host |
| Settings.ExecTimeDoesTheTask | common/config.py:72-77 | in one execution the host, at its speed, works off the task length |
| Settings.ColdStartBounds | common/config.py:81-102 | the cold-start window is three executions and at most 10 s, the penalty the least of a fifth of the deadline, half an execution and 0.5 s |
| Settings.PenaltyAtMostHalf | common/config.py:92-102 | the cold-start penalty is positive and at most half an execution |
| ReplicaQueues.PendingIsTheFuture | common/models.py:56-60 | after popping, the deque is exactly the departures still in the future |
| ReplicaQueues.PoppingIsUnobservable | common/models.py:56-60 | reading the occupancy early never changes a later reading |
| ReplicaQueues.AdmissionRefinesTheLine | common/models.py:62-77 | one admission: deque and plain FIFO queue decide alike with the same start and finish |
| ReplicaQueues.DequeRefinesFifo | common/models.py:56-77 | for any nondecreasing arrivals the deque accepts the same jobs with the same times as a plain FIFO single-server queue |
| ReplicaQueues.WaitBound | common/models.py:62-77 | an accepted job waits at most one longest service per job found, hence at most capacity - 1 of them |
| ReplicaQueues.StreamWaitBound | common/models.py:62-77 | from an empty queue, after any stream, no accepted job waits more than (capacity - 1) times one and a half executions |
| ReplicaQueues.StreamEstimate | algorithms/ppo/ppo_algorithm.py:251-262 | after any stream, whatever its cold starts, if the jobs still in the system carry no penalty the estimate occupancy times execution time is at least the wait and exceeds it by less than one execution |
| ReplicaQueues.EstimateAfterWindow | algorithms/ppo/ppo_algorithm.py:251-262 | in particular once every job accepted within the cold-start window has left |
| ReplicaQueues.ReadingBeforeAdmission | common/models.py:56-77 | reading the occupancy right before an admission, as ranking does, changes neither its outcome nor the deque it leaves |
| ReplicaQueues.AdmittedBacklog | common/models.py:62-77 | the last departure stays within one longest service per place in the queue from now |
| ReplicaQueues.ReplicaQueue.QueueOccupancy | common/models.py:56-60 | pops the departed jobs and counts the rest |
| ReplicaQueues.ReplicaQueue.TryAdmit | common/models.py:62-77 | admits or rejects as the queue function says and updates the deque and `available_at` so |
| ReplicaQueues.ReplicaQueue.IsIdle | common/models.py:79-80 | true exactly when no departure is in the future |
| Engine.SimulationEngine.UsedCpu | common/models.py:107-115 | the sum of effective demands of the hosted replicas, in any order |
| EngineClock.CpuSumIsDemand | common/models.py:107-115 | that sum is the sum over any listing of the services, each once |
| Engine.SimulationEngine.StartServerDrain | simulator/engine.py:181-239 | aborts with emergency boots when a sole-hosted service stays behind, else marks, migrates, retires and schedules |
| Engine.SimulationEngine.AdvanceEnergyTo | simulator/engine.py:88-96 | every server's meters are read with the power and load since their last reading, then the clock moves |
| Engine.SimulationEngine.PopEarliest | simulator/engine.py:878-884 | the event popped is least by time, then by sequence number |
| Engine.SimulationEngine.Step | simulator/engine.py:878-904 | stops beyond the cutoff, otherwise makes one step of a history |
| Engine.ModestDecides | algorithms/base.py:83-124 | an algorithm that decides nothing and routes to the first replica with room meets the contract `Run` asks for |
| Engine.SimulationEngine.Run | simulator/engine.py:855-861 | always terminates, after a history whose remaining events are all beyond the cutoff |
| EngineBoot.StartBootKeeps | simulator/engine.py:146-158 | booting, normal or emergency, keeps the invariant |
| EnginePlace.PlaceKeeps | simulator/engine.py:255-277 | placing keeps the invariant and leaves exactly one ready event due |
| EngineRetire.RetireKeeps | simulator/engine.py:304-313 | telling a replica to leave keeps the invariant, also when a termination was already due |
| EngineReady.HandleReadyKeeps | simulator/engine.py:283-302 | completing a migration keeps the invariant and every other READY source covered |
| EngineGone.HandleGoneKeeps | simulator/engine.py:315-326 | terminating the owner keeps the invariant, other due terminations included |
| EngineServers.TurnedOffKeeps | simulator/engine.py:246-252 | turning off keeps the invariant: nothing is hosted, no migration is left pending |
| EngineServers.RearmKeeps | simulator/engine.py:241-245 | another grace period stays within the bound of the drain |
| EngineHandlers.HandleBootDoneKeeps | simulator/engine.py:161-179 | boot completion leaves exactly one ready event per hosted replica |
| EngineHandlers.HandleRoutedKeeps | simulator/engine.py:360-447 | every future departure has a resync in the heap |
| EngineTick.RescueAllKeeps | simulator/engine.py:125-158 | emergency boots keep the invariant and only boot servers that were OFF |
| EngineDrain.KeptFit | simulator/engine.py:187-199 | the kept steps are a sub-list that fits each target jointly in raw MIPS |
| EngineDrain.KeptIffFits | simulator/engine.py:187-199 | a step is kept iff its target's free capacity, less the raw MIPS of the steps kept before it on that target, is at least its own raw MIPS |
| EngineDrain.AllKept | simulator/engine.py:187-199 | if on every target the raw MIPS of all steps fit, all are kept |
| EngineDrain.KeptStepIsHosted | simulator/engine.py:221-230 | a step that passed the reservation check passes `can_host` when its turn comes, earlier steps on the same target included |
| EngineDrain.DrainKeeps | simulator/engine.py:181-239 | a whole drain keeps the invariant |
| EngineDrain.HandleTickKeeps | simulator/engine.py:823-853 | a whole tick keeps the invariant up to the next tick |
| EngineDecisions.RescuedIffRoom | simulator/engine.py:125-143 | an emergency pick is taken iff its service is not being rescued, its server was off and has room beside the picks taken before; exactly the takers boot |
| EngineDecisions.ServersAtATick | simulator/engine.py:573-617 | over a tick of any run an OFF server begins to boot iff a TURN_ON names it out of cooldown or an aborted drain's pick is taken on it; an ACTIVE one begins to drain iff a TURN_OFF names it, the gates are passed and no service is left behind; no other is switched; counters, times and the event pushed are exact |
| EngineDecisions.ServersBetweenTicks | simulator/engine.py:161-252 | over any other step a server is switched only by its own boot event, one boot delay after the boot began, and by its own drain event, to OFF iff no copy on it is alive |
| EngineScaling.VictimLeavesIff | simulator/engine.py:734-751 | over a tick of any run the victim of a SCALE_DOWN is leaving afterwards iff the tick's drain tells it to, or the service is out of cooldown, another copy remains READY and the victim is old enough |
| EngineScaling.PlacedUnlessNoRoom | simulator/engine.py:717-733 | over a tick of any run a SCALE_UP out of cooldown onto an ACTIVE server places a starting copy unless the slot is taken or there is no room |
| EngineRuns.HandleKeeps | simulator/engine.py:886-903 | every handler keeps the invariant when called on an event that was legitimate |
| EngineRuns.StepKeeps | simulator/engine.py:878-904 | every step keeps the invariant |
| EngineStart.PrimeSetsUp | simulator/engine.py:863-876 | the start is the earliest row and the cutoff a fixed time after the latest; one arrival per row, the first tick at the start; exactly the chosen servers boot; each service is on its home where there is room |
| EnginePrime.PrimeEstablishes | simulator/engine.py:863-876 | `prime` establishes the invariant |
| EnginePrime.InvAlways | simulator/engine.py:855-904 | the invariant holds in every state of every run |
| EngineLifecycle.HeapMatchesServers | simulator/engine.py:146-179 | exactly one boot event per BOOTING and one drain event per DRAINING server, none for others, and OFF hosts nothing |
| EngineLifecycle.HeapMatchesReplicas | simulator/engine.py:255-313 | exactly one ready event per replica starting on an ACTIVE server, and a termination event for each leaving one |
| EngineLifecycle.EventMeetsOwner | simulator/engine.py:241-326 | every event meets the object it was scheduled for; a termination finds that replica with an empty queue, or an empty slot |
| EngineLifecycle.StaleTerminationIsNoOp | simulator/engine.py:315-319 | a termination that finds its slot empty changes nothing |
| EngineLifecycle.TimeMovesForward | simulator/engine.py:878-884 | the clock never runs backwards |
| EngineLifecycle.IndexAndCapacityAgree | simulator/engine.py:255-277 | the per-service index lists exactly the hosted replicas, each once, and used CPU never exceeds capacity |
| EngineLifecycle.ActiveForever | simulator/engine.py:601-617 | once some server is ACTIVE there is always one |
| EngineLifecycle.ActiveStintLasts | simulator/engine.py:161-179 | every ACTIVE stint, emergency boots included, lasts at least the minimum active duration |
| EngineLifecycle.DrainIsBounded | simulator/engine.py:241-252 | DRAINING lasts at most startup plus graceful, or the longest accepted backlog, plus one grace period |
| EngineLifecycle.DrainEnds | simulator/engine.py:187-252 | the same along a whole run, counted from the state in which the drain began |
| EngineLifecycle.EveryKeptMigrationIsPlaced | simulator/engine.py:221-230 | after a drain begins, each kept step's destination is starting on its target and recorded as pending |
| EngineReplicas.LifeAlways | simulator/engine.py:255-302 | in every state of every run each replica has its service's queue length and its host's execution time, and notes the time of the step in which it became READY |
| EngineReplicas.LeavesGracefully | simulator/engine.py:304-313 | over any step of any run a replica that begins to leave has its termination due after the graceful delay, or with its last departure if later |
| EngineRouting.TryingMeetsContract | simulator/engine.py:360-378 | trying the READY replicas in any order that leaves out only full ones returns one with room, or none only if all are full |
| EngineRouting.RoutingDecidesByRoom | simulator/engine.py:360-424 | whatever that order, the lost-race branch is unreachable; completed iff some READY replica has room, queue-full iff all are full, no-replica iff there is none |
| EngineRouting.SelectReplica | algorithms/base.py:83-124 | on the engine's state the shared selection tries such an order and returns the least full of the READY replicas with room within 5 km of the nearest READY one, else the nearest with room |
| EngineRouting.SelectByLatency | algorithms/ppo/ppo_algorithm.py:250-270 | so does PPO's, and it returns the least estimated latency among those with room |
| EngineRouting.EstimateMeetsResponse | algorithms/ppo/ppo_algorithm.py:257-261 | of a replica without cold starts in its queue the estimate, with routing and its own cold start, is at least the response that follows and less than one execution above it; of an idle one it is that response |
| EngineResponse.RequestsAreSent | simulator/engine.py:329-358 | in every run every request under way comes from the arrival of one row, and reaches the dispatcher one round trip after that row's time |
| EngineResponse.ResponseIsFromArrivalToFinish | simulator/engine.py:402-437 | in every run the response of every completed request is the end of its job less the time of its row plus the network there and back, the job ending one execution and the cold-start penalty after those accepted before; it is late iff that exceeds the deadline |
| EngineLedger.HandleBalances | simulator/engine.py:125-326 | no handler disturbs counters against hosted replicas or energy against charges |
| EngineAccounts.AccountsAlways | simulator/engine.py:88-96 | in every state of every run: boots minus shutdowns are the servers not OFF, creates minus deletes the hosted replicas, and energy is boots, creations and the integral of power |
| EngineIntegral.WindowedUtilizationIsAverage | simulator/engine.py:498-505 | in every run capacity times elapsed time times windowed utilisation is any Riemann sum of the load since the state in which the window began |
| EngineAccounts.WindowAlways | simulator/engine.py:842-844 | the utilisation window began in an earlier state with that state's busy time |
| EngineAccounts.WindowedUtilizationInUnit | simulator/engine.py:498-505 | windowed utilisation lies in [0, 1] |
| EnginePower.EnergyOverAStep | common/models.py:151-165 | over any step of any run energy, boots and pod creations apart, grows by 0 while OFF, by idle power while BOOTING, and while ACTIVE or DRAINING by idle power plus the busy share of capacity times the rest to full power; CPU-seconds grow by the busy MIPS |
| EnginePower.BootCosts | simulator/engine.py:146-179 | in every run a whole boot takes one boot delay and costs one boot and idle power for that long, besides pod creations |
| EngineEnergy.PowerIsSteady | common/models.py:151-165 | power and load are constant until the next event |
| EngineEnergy.PowerIntegral | simulator/engine.py:88-96 | every tagged Riemann sum of power up to the next event equals the engine's one reading |
| EngineEnergy.ExtraSyncUnobservable | simulator/engine.py:88-96 | reading the meters once more in between changes nothing |
| EngineIntegral.EnergyIsAnyRiemannSum | simulator/engine.py:88-96 | over every run energy is boots, creations and any tagged Riemann sum of instantaneous power over the whole run |
| EngineIntegral.SyncsChangeNothing | simulator/engine.py:878-884 | any number of further readings before any event of any run leaves the state it is handled in as it is |
| EngineTraffic.RequestsAreConserved | simulator/engine.py:329-449 | in every state of every run: rows are still to come, under way or finalised, and metrics tally the finalised ones |
| EngineTraffic.EndOfRun | simulator/engine.py:875-882 | at the end all rows have arrived; all are finalised iff none is under way, as always when the cutoff exceeds any routing delay |
| EngineTraffic.ViolationsAreRejectionsAndLate | common/metrics.py:52-71 | violations are rejections plus late completions |
| EngineTermination.StepDecreases | simulator/engine.py:878-904 | each step decreases (ticks left, boots under way, weight of the other events) |
| EngineService.StepHandover | simulator/engine.py:283-302 | between ticks a READY replica stays READY until the very event that makes its successor READY |
| EngineService.TickReadiness | simulator/engine.py:181-239 | over a tick a service keeps a READY replica iff the drain does not orphan it |
| EngineService.StepReadiness | simulator/engine.py:823-853 | the same for every step of a run |
| EngineService.ServiceStaysUp | simulator/engine.py:181-326 | in every run a service that is READY stays so up to the first step that orphans it |
| EngineService.OthersReadySuffice | simulator/engine.py:202-208 | no orphan if every other hosted copy is READY when the drain starts |
| EngineService.ScalingReadiness | simulator/engine.py:734-751 | scaling never takes the last READY replica |
| EngineDowntime.ZeroDowntimeIsNotUnconditional | simulator/engine.py:202-208 | a concrete run from `prime` whose last tick leaves a READY service without a READY replica |
| EngineBacklog.BacklogAlways | common/models.py:62-77 | in every state of every run accepted work is done within the longest full queue of the tables |
| EngineBacklog.DrainEndsInConstantTime | simulator/engine.py:187-252 | in every run DRAINING lasts at most startup, the longer of graceful delay and longest queue, and one grace period |
| EngineBacklog.NobodyIsOrphaned | simulator/engine.py:202-215 | if a startup and the longest queue fit into the decision interval, no drain of any run orphans a READY service |
| EngineBacklog.ServiceStaysUpForever | simulator/engine.py:181-326 | under that condition a service that is READY stays so to the end of the run |
| EngineBacklog.SourceQueuesAreShort | common/config.py:38-51 | services 1 to 13 on the source's hosts and delays meet the condition |
| Migration.MigrationDecision | algorithms/greedy/greedy_algorithm.py:95-115 | one step for exactly the sole-hosted services that some other ACTIVE server can take, to the best such server; meets the drain's contract |
| Migration.UnmigratedHasNoTarget | simulator/engine.py:187-215 | the services a drain cannot move are exactly those with a live copy only there that no other ACTIVE server can take, or whose target has, after the steps kept before on it, less free than their raw MIPS |
| Migration.DrainBegins | simulator/engine.py:181-239 | the drain of an ACTIVE host begins, and the host is DRAINING, iff every such service has a target and its step fits |
| Migration.RoomyDrainBegins | simulator/engine.py:181-239 | so it begins when each has a target and on every server the raw MIPS of all steps fit |
| Reservations.CommandKeeps | k8s_adapter/redis_state.py:114-171 | every command of every process keeps counter, limit and once-only accounts |
| Reservations.ProtocolIsSafe | k8s_adapter/redis_state.py:114-171 | in all interleavings the counter is exact and never negative, held reservations never exceed the queue length, none is released twice |
| Reservations.QuiescentIsExact | k8s_adapter/worker_service/app.py:94-106 | with nobody mid-operation the counter is the number of reservations, each granted one still held or released exactly once |
| Reservations.PositiveWhenChecking | k8s_adapter/redis_state.py:134-138 | the guard before a decrement never fails |
| Reservations.ReplicaKeys.TryReserveQueueSlot | k8s_adapter/redis_state.py:114-131 | succeeds exactly when there is room; a failed attempt changes nothing |
| Reservations.ReplicaKeys.ReleaseQueueSlot | k8s_adapter/redis_state.py:134-138 | after a removal, exactly one unit is given back |
| Reservations.ReplicaKeys.ReleaseAfterProcessing | k8s_adapter/worker_service/app.py:94-106 | the worker gives its unit back exactly if it removed the member |
| Reservations.ReplicaKeys.SweepExpired | k8s_adapter/redis_state.py:143-171 | removes exactly the expired reservations and gives back as many units |
| RealtimeAccounting.OperationKeeps | k8s_adapter/realtime_dispatcher.py:829-933 | every operation keeps the accounts, in any order |
| RealtimeAccounting.ExactlyOnceIff | k8s_adapter/realtime_dispatcher.py:892-933 | routed = completed + lost + awaited and nothing is counted twice iff no report came after reap and prune |
| RealtimeAccounting.PromptReportsAreCountedOnce | k8s_adapter/realtime_dispatcher.py:1062-1077 | reports within the prune horizon are never counted twice |
| RealtimeAccounting.LateReportIsCountedTwice | k8s_adapter/realtime_dispatcher.py:1062-1077 | for every maximal age a history in which a later report is |
| RealtimeAccounting.RealtimeEngine.RouteRequest | k8s_adapter/realtime_dispatcher.py:829-872 | awaited when routed, recorded when rejected |
| RealtimeAccounting.RealtimeEngine.RecordExternalCompletion | k8s_adapter/realtime_dispatcher.py:892-933 | recorded unless remembered as reaped, no longer awaited either way |
| RealtimeAccounting.RealtimeEngine.ReapLostRequests | k8s_adapter/realtime_dispatcher.py:1042-1060 | exactly the stale requests are recorded as lost and remembered |
| RealtimeAccounting.RealtimeEngine.PruneReapedIds | k8s_adapter/realtime_dispatcher.py:1069-1077 | exactly the ids reaped more than the horizon ago are forgotten |
| GreedyCover.GreedyBound | algorithms/base.py:55-67 | if k servers cover all n points, after t rounds k^t times the uncovered count is at most (k-1)^t times n |
| GreedyCover.CoveredAfter | algorithms/base.py:55-67 | once k^t exceeds (k-1)^t n nothing is uncovered |
| GreedyCover.CoverGreedily | algorithms/base.py:54-67 | the loop terminates with distinct servers, each the best next one and the first such in the dictionary, covering every coverable point |
| GreedyCover.TopUp | algorithms/base.py:71-79 | appends in order, only while the capacity is short, until it suffices or none is left |
| GreedyCover.InitialPlacement | algorithms/base.py:43-81 | distinct servers, greedy part first, the rest by distance, with enough capacity or all servers |
| GreedyCover.PlaceInitially | algorithms/base.py:43-81 | the same over servers and base stations, with the greedy bound against every covering team; the top-up takes first the servers nearest to the cover (the first server, if nothing is covered), and stops as soon as the capacity suffices |
| Medoid.FindMedoid | simulator/engine.py:515-523 | the first recent position of least total distance |
| Medoid.MedoidWithinTwice | simulator/engine.py:515-523 | for any metric its cost is at most twice that of every point of the space |
| ReplicaSelection.Rank | algorithms/base.py:101-118 | a permutation of all candidates: near pool by occupancy ratio, then the others by distance |
| ReplicaSelection.TryInOrder | algorithms/base.py:121-124 | each candidate is tried at most once, in order, up to the first that succeeds; exactly one new reservation on that one, none otherwise |
| ReplicaSelection.SelectReplica | algorithms/base.py:83-124 | tries the ranking of all candidates so |
| ReplicaSelection.RoomDecides | algorithms/base.py:97-124 | tried by room, any ranking that leaves out only full candidates finds one with room iff there is one |
| ReplicaSelection.DefaultChoice | algorithms/base.py:97-124 | when attempts succeed by room, what `select_replica` returns is the least ratio among those near with room, else the nearest with room, and None iff all are full |
| ReplicaSelection.SelectByDefault | algorithms/base.py:83-124 | the whole selection on one reading of the queues returns that choice |
| ReplicaSelection.SelectByLatency | algorithms/ppo/ppo_algorithm.py:250-270 | the least estimated latency among those with room, and None iff all are full |
| Voila.ViolationsMean | algorithms/voila/voila_algorithm.py:44-67 | capacity violations are queues over four fifths full or rejections, proximity violations some requests too far without these, low load queues under one fifth full |
| Voila.CountersAreHistory | algorithms/voila/voila_algorithm.py:69-97 | the three counters are functions of the ticks and decisions so far |
| Voila.DecisionByHistory | algorithms/voila/voila_algorithm.py:44-97 | SCALE_DOWN and SCALE_UP exactly when the history says so |
| Voila.ScaleDownNeedsPatience | algorithms/voila/voila_algorithm.py:92-95 | a SCALE_DOWN follows two violation-free ticks without one |
| Voila.ProximityNeedsTwo | algorithms/voila/voila_algorithm.py:74-82 | a proximity SCALE_UP needs two violating ticks in a row |
| Voila.VoilaAlgorithm.ScaleDecision | algorithms/voila/voila_algorithm.py:44-97 | updates one service's counters and no other's, and answers as the step function |
| Hpa.DesiredIsLeast | algorithms/hpa/hpa_algorithm.py:18-29 | the number wanted is the least, at least one, whose queues the queued requests fill to at most 70%, and more than the current one while requests are rejected |
| Hpa.ScaleDecision | algorithms/hpa/hpa_algorithm.py:18-36 | up iff the replicas there are do not suffice in this sense, down iff one fewer would |
| Hpa.DesiredIsWorth | algorithms/hpa/hpa_algorithm.py:18-29 | under constant load without rejections the number wanted does not depend on the current number |
| Hpa.WorthIsLeast | algorithms/hpa/hpa_algorithm.py:18-29 | it is the least n >= 1 with load <= 0.7 n queue_len |
| Hpa.Converges | algorithms/hpa/hpa_algorithm.py:31-36 | the decisions on the snapshots, applied, reach that number in as many steps as it is away, and stay |

## Left out

- Engine.SimulationEngine.HandleDecisionTick: does not model the decision inputs (tick counters, rolling rejection rates, snapshots): an algorithm may decide anything within its contract. The gate `bypass_sustain_gate` is open by default and modelled as open.
- Engine.SimulationEngine.HandleArrival, HandleRouted: tick counters and recent positions are decision inputs, too.
- SLA feasibility in `can_host`: off by default.
- Engine.SimulationEngine.TriggerEmergencyBoot: which OFF server is nearest is a parameter (`picks`); a run may also pick none where the code would pick one.
- Engine.SimulationEngine.Prime: the chosen servers and the home of each service are parameters; `GreedyCover.dfy` models how the servers are chosen.
- Engine.SimulationEngine.PopEarliest: a search for the least event instead of `heapq`'s array; only the order of popping is modelled.
- EngineRouting.SelectReplica: the popping of deques by ranking is not written back; `ReplicaQueues.PoppingIsUnobservable` and `ReadingBeforeAdmission` say why it need not be.
- Iteration over dictionaries: the order is a parameter or any order.
- Provision and placement choices of the algorithms (which server to turn on or off, where to scale up), PPO training, networks, masks and the ILP solver.
- Vivaldi coordinates of VOILA's `select_replica`, haversine distances: an abstract distance function, and abstract keys for sorting; VOILA's order of trying is one of those `EngineRouting.RoutingDecidesByRoom` covers.
- Realtime server drain and replica deletion, `remove_replica` with reservations left, a worker call without a request id, a Redis outage: there counter and reservations may disagree.
- RealtimeAccounting.ExactlyOnceIff: a request that was rejected is not reported, and request ids are unique, as the simulator of base stations ensures.
- HTTP, Kubernetes, logging, CSV files, averages and percentiles of the metrics.

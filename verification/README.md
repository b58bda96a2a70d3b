# The EC2 virtual kubelet, modelled and verified

This project models the stateful parts of the EC2 provider for virtual kubelets and of its sample
agent, and proves what they keep over every interleaving or every sequence of operations.

| part | files | shape of the model |
|---|---|---|
| gRPC health service of the agent | `WatchProtocol`, `WatchTheorems`, `HealthService` | a labelled transition system of atomic steps, and a class whose methods are proved to produce only such steps, whatever the `Watch` calls do in between |
| health monitoring of a pod | `HealthMonitor`, `MonitorProtocol`, `MonitorTheorems`, `MonitorConversation`, `MonitorShutdown`, `HandlerFolding` | classes for a monitor and its handler, and a transition system of the goroutines with their program counters, the unbuffered channel, the wait group and the cancellation |
| warm pool | `Cloud`, `WarmPool`, `PoolDepth`, `PoolManager` | EC2 as an object holding instances (run state, tags, address) whose calls may fail, the index as four maps, and the manager as a class with the loops of the program |
| pod lifecycle | `Allocation`, `AllocationSteps`, `Lifecycle`, `AllocationRuns`, `Compute`, `Provider` | the invariants that say who owns which instance, every outcome of creating a pod, what each operation with each outcome keeps, whole runs, and the compute manager and the provider as classes |
| pod cache | `Pods`, `PodCache`, `PodStore` | pods as shared objects, the cache as a class, and its refinement of a map from namespace and name |
| user data | `UserData` | the JSON string encoding of section 7 of RFC 8259 with the HTML escapes, three textual replacements, and a reader |

How the pieces hang together:

* A **run** of a transition system is a sequence of events each of which is enabled where it
  occurs. What an outside observer sees (messages on a stream, results handled, statuses notified)
  is a function of that sequence, so the theorems compare observations with histories and do not
  merely restate an invariant of the state.
* Every **method that changes state** is tied to a function or relation on values: the health
  server to `WatchProtocol.Run`, the pool manager to `Indexed` and `DepthChecked`, the cache to
  `PodCache.Perform`, and pod creation to `Lifecycle.After`. The theorems are about those.
* **Failure of EC2 and of the agents** is not under the program's control. `Cloud.Ec2.faults` and
  `Ec2Provider.agentFaults` count the calls that failed, so that a method cannot report a failure
  without one having occurred, and "provided EC2 does as it is told" is the statement that the count has
  not moved.
* `Allocation.Good` is the whole-system invariant: the live instances are the disjoint union of the
  ready, the provisioning and the cached pods' instances, one per pod, and the tags agree with that.
  `Allocation.Exclusive` is the weaker one that survives any failure of EC2: no two pods share an
  instance, and the pool neither offers nor will reclaim a pod's instance.
* A step of `AllocationRuns` is an operation with any of its outcomes: refreshes of a partial page or
  with failed retaggings, depth checks whose launches or terminations fail or that have no subnets,
  every ending of a creation, updates and deletes with any annotation. For each invariant there is a
  predicate on the operation (`Lossless`, `TakesOwn`) that says exactly when it is kept.

## Where the code departs from what is promised

* `health.proto` says that `Watch` sends a new message whenever the status changes. The setter
  drains a slot it finds full, so changes are coalesced. `ChangesAreDeliveredOrMissed` says exactly
  which ones are lost, and `ChangeThereAndBackIsMissed` is a concrete run that loses two.
* A state refresh follows the next-page token of a response variable that its loop body shadows, so
  it reads one page. The index is sure to be complete if and only if the filtered instances fit on
  one page (`IndexIsCompleteIffOnePage`); a refresh loses track of instances if and only if its page
  or its retagging misses one of the pool's (`RefreshConservesIffNothingMissed`);
  `ShortPageLosesInstance` is a system of two instances in which a page of one does.
* Taking an instance out of the pool and tagging it for the pod are two steps. With the refresh, the
  pop and the attempt to tag taken as one, exclusive assignment holds whatever EC2 refuses to do
  (`ExclusiveAssignment`, `DepthChecksSpareAssigned`). With another refresh between the pop and the
  tag it survives if and only if that refresh does not list the instance
  (`RefreshInWindowKeepsExclusiveIffUnlisted`), which every complete one does; then the next pod may get
  the instance too (`RefreshInWindowAssignsTwice`) or a depth check terminate it
  (`DepthCheckInWindowKillsPod`).
* Several failures of EC2 lose an instance for good or until the next refresh: a pod's tag that cannot
  be written, a launched instance without an address, a failed application whose instance cannot be
  terminated, a depth check whose excess cannot be terminated. `StepConservesIffLossless` and
  `ConservationOverRuns` give the exact list; `RefreshRecoversLostInstance` says what a refresh repairs.
* A warm-pool configuration without subnets launches nothing, yet, unless preparing the launch fails
  each time, an entry with an empty instance id is filed as provisioning (`CreateWarmEC2`), and
  conservation is lost exactly then (`DepthCheckConservesIffLossless`).
* The send of a watch monitor ignores cancellation, so stopping a pod's monitoring can hang: exactly
  if, when it is cancelled, one of its monitors is receiving or at its send (`StopCanHangIffAtRisk`).
  `StopCanHang` is such a run. Sharing the handler with other pods, as all pods the provider creates
  do, helps only while another receiver stays on the channel (`StayingReceiverPreventsHang`):
  `SharedStopCanHang` is a run in which the other pod still listens at the cancellation and leaves
  before the send. The deadlock then lasts until some pod starts to listen (`DeadlockLasts`).
* Where the handler is shared, as by all pods the provider creates, other pods' receivers handle this
  pod's results, in an order of their own, and can do so even after its stop has returned
  (`StopCanBeFollowedByReport`).
* `WarmPoolDesign.md` notes that several configurations make the pool constantly create and
  terminate instances. `MaintenancePass` and `RepeatedPassChurns` give the exact numbers, and the
  pool is left alone if and only if all desired counts agree.
* Cache keys join namespace and name with a hyphen; `KeysCollideIffOverlap` says which pods collide.
* The user-data replacements also hit backslashes that belong to the text;
  `UserDataSurvivesIffClean` says for which settings the document survives and
  `LiteralEscapeLosesUserData` shows one for which it does not.
* A pod that still names a running instance re-uses it, whoever owns it by now.
  `ReuseBreaksConservation` and `CreateKeepsExclusiveIff` say what that does, and when it is harmless.
  Deleting a pod terminates the instance named by the pod object passed in, not by the cached one
  (`DeleteConservesIffAnnotationKept`).

## Model

| member | source | states |
|---|---|---|
| `WatchProtocol.RunIsSound` | examples/vkvmagent/health_svc.go:67-164 | in every reachable state the registry, the lock holder's remaining work, the shutdown flag and every call's view of its service are consistent |
| `WatchTheorems.ViewAgreesWithStatusMap` | examples/vkvmagent/health_svc.go:67-136 | whenever the lock is free, the full slot or else the last value taken of every registered call is its service's current status, or SERVICE_UNKNOWN if it was never set |
| `WatchTheorems.StreamIsOrderedAndChanging` | examples/vkvmagent/health_svc.go:91-108 | the messages of a stream are found at increasing positions of the status history since registration, and no two consecutive ones are equal |
| `WatchTheorems.QuietMeansUpToDate` | examples/vkvmagent/health_svc.go:91-108 | a call with nothing left to do and no refill owed to it has sent something, and the last message sent is the current status |
| `WatchTheorems.CallBecomesQuiet` | examples/vkvmagent/health_svc.go:91-108 | over any continuation without a change of the status, a failed send or the end of the context, whatever all others do: a connected call takes at most as many steps as its backlog, has one to take until it is quiet, and then its client knows the current status |
| `WatchTheorems.EndedCallsOnlyLeave` | examples/vkvmagent/health_svc.go:84-108 | after the end of its context or a failed send a call takes and sends nothing in any continuation, and until its deferred removal has run that is possible whenever the mutex is free; until then it can always notice the end of its context or finish its send |
| `WatchTheorems.HolderNeverBlocks` | examples/vkvmagent/health_svc.go:124-136 | the slot is empty when the setter puts, the lock holder always has a step, and no step of a watch call takes it away |
| `WatchTheorems.HolderFinishes` | examples/vkvmagent/health_svc.go:124-164 | every step of the lock holder shrinks a well-founded measure that nobody else's step touches, so the lock is released |
| `WatchTheorems.RegistryIsRegisteredCalls` | examples/vkvmagent/health_svc.go:79-89 | a service's registry is exactly the set of calls on it that have registered and not run their deferred removal |
| `WatchTheorems.ShutdownIsSticky` | examples/vkvmagent/health_svc.go:113-150 | after a shutdown and until a resume, all known services are NOT_SERVING and no set changes or adds one, over any continuation |
| `WatchTheorems.BulkSetProgress` | examples/vkvmagent/health_svc.go:143-164 | half-way through a shutdown or resume the services already visited carry its status and no service was added or lost |
| `WatchTheorems.BulkSetReachesAll` | examples/vkvmagent/health_svc.go:143-164 | when the lock is released a resume has made every known service SERVING, a shutdown every one NOT_SERVING |
| `WatchTheorems.KnownServicesOnlyGrow` | examples/vkvmagent/health_svc.go:113-164 | the set of known services never shrinks over any continuation of any run |
| `WatchTheorems.ChangesAreDeliveredOrMissed` | api/grpc/health/v1/health.proto:47-62 | for a quiet call, the status changes since registration are the messages sent plus the changes thrown away by draining; all are delivered if and only if none was thrown away |
| `WatchTheorems.ChangeThereAndBackIsMissed` | examples/vkvmagent/health_svc.go:127-134 | a run in which a client never hears of two changes |
| `HealthService.HealthServer.constructor` | examples/vkvmagent/health_svc.go:47-52 | a new server knows the service "" as SERVING and is the initial state of the protocol |
| `HealthService.HealthServer.Check` | examples/vkvmagent/health_svc.go:55-64 | found exactly if known, with the current status; NOT_SERVING for all after a shutdown |
| `HealthService.HealthServer.WatchRegister` | examples/vkvmagent/health_svc.go:67-89 | is exactly one registration step with the current status in the slot; all views agree afterwards |
| `HealthService.HealthServer.WatchTurn` | examples/vkvmagent/health_svc.go:91-108 | one turn of the loop is steps of that call only, touches no other call, delivers a message exactly when a send succeeds, sends a taken status exactly if it differs from the last one, and leaves the loop exactly when the context has ended or the send failed |
| `HealthService.HealthServer.WatchDeregister` | examples/vkvmagent/health_svc.go:84-88 | the deferred removal leaves the call in no registry |
| `HealthService.HealthServer.Refill` | examples/vkvmagent/health_svc.go:126-135 | drain and put, with watch calls moving before and in between, never block and serve exactly the one call |
| `HealthService.HealthServer.SetServingStatusLocked` | examples/vkvmagent/health_svc.go:124-136 | writes exactly one entry and has refilled every registered call when it is done |
| `HealthService.HealthServer.SetServingStatus` | examples/vkvmagent/health_svc.go:113-122 | sets exactly that service, or nothing after a shutdown; all views agree afterwards |
| `HealthService.HealthServer.Shutdown` | examples/vkvmagent/health_svc.go:143-150 | every known service NOT_SERVING, the same services known, flag set, all views agree |
| `HealthService.HealthServer.Resume` | examples/vkvmagent/health_svc.go:157-164 | every known service SERVING, the same services known, flag cleared, all views agree |
| `HealthMonitor.TallyIsFunctionOfHistory` | internal/health/monitor.go:98-117 | for any history and threshold: the counter is the length of the trailing run of failures; unhealthy iff that reaches the threshold (one, if it is smaller), else healthy iff anything ever succeeded |
| `HealthMonitor.TrailingRunIsUnique` | internal/health/monitor.go:373-406 | a history has only one such run length, so the history determines the counter |
| `HealthMonitor.Monitor.NewCheckResult` | internal/health/monitor.go:98-117 | extends the history by one result and leaves counter and state as that history determines them |
| `HealthMonitor.Monitor.IncrementFailures` | internal/health/monitor.go:388-406 | counts one more and turns unhealthy exactly from the threshold on |
| `HealthMonitor.Monitor.ResetFailures` | internal/health/monitor.go:373-385 | zero failures, healthy |
| `HealthMonitor.Monitor.CheckLoop` | internal/health/monitor.go:336-370 | sends every result but the last in order, keeps the count of the trailing failures and ends unknown and not monitoring |
| `HealthMonitor.CheckHandler.HandleCheckResult` | internal/health/handler.go:70-127 | dereferences nil exactly for a nil pod status; a reported status gives the pod its phase, reason and containers, not its addresses, and notifies once; without one nothing changes |
| `HealthMonitor.LastReportWins` | internal/health/handler.go:100-126 | after any sequence of results the pod has its own addresses and the phase, reason and containers of the last status reported, or is unchanged if there was none |
| `MonitorTheorems.RunIsSound` | internal/health/monitor.go:171-370 | every goroutine is at a place its loop can reach, and flags, wait group and cancellation are consistent, in every reachable state |
| `MonitorTheorems.WaitGroupCountsLiveGoroutines` | internal/health/health.go:116-134 | the wait group is the number of goroutines begun by the start that still live, in every reachable state |
| `MonitorTheorems.StopIsQuiescent` | internal/health/health.go:137-149 | once the stop has returned, every monitor is unknown and not monitoring and no goroutine of the pod has a step left; nothing else can happen to the pod either, unless other pods share the handler: then only what their receivers already hold can still reach it |
| `MonitorTheorems.AtMostOneLateResult` | internal/health/monitor.go:185-331 | a watch monitor hands over at most one result after cancellation |
| `MonitorConversation.NextOwnEvent` | internal/health/monitor.go:171-370 | in every run, exactly which steps a monitor can take next, told from its last event, the stream it connected to last and its last result: what each kind of stream leads to, what a failed receive leads to, when it sleeps, reconnects or exits |
| `MonitorConversation.FailureIsProduced` | internal/health/monitor.go:209-250 | the next step after a failed receive is a failed result or, once cancelled, the exit; a result that comes directly after the start of a receive is not a failed one |
| `MonitorConversation.FailureReconnects` | internal/health/monitor.go:240-243 | after a failed receive the loop has connected again before it receives again or produces a result that is not a failure |
| `MonitorConversation.FlagsAreToldByEvents` | internal/health/health.go:116-149 | a monitor is monitoring from its start to its exit and unknown after it, its goroutine has ended with the wait-group decrement, and a handler of the pod's own is receiving from the receiver's start to its exit |
| `MonitorShutdown.StepShrinks` | internal/health/monitor.go:185-331 | after cancellation every step of the pod's own goroutines shrinks a measure that only a result of another pod can raise, by one |
| `MonitorShutdown.ShutdownIsBounded` | internal/health/health.go:137-149 | the number of steps after cancellation is bounded by that measure plus the results of other pods taken meanwhile |
| `MonitorShutdown.StandstillIsEndOrDeadlock` | internal/health/health.go:137-149 | after cancellation no goroutine can move if and only if all have ended or all that remain are at their send with nobody listening at the moment; while another receiver listens and goroutines are left, one can move |
| `MonitorShutdown.StopCanHangIffAtRisk` | internal/health/health.go:137-149 | some continuation of a cancelled pod of watch monitors deadlocks if and only if at that moment one of them is receiving or at its send, whether or not other pods share the handler |
| `MonitorShutdown.DeadlockLasts` | internal/health/health.go:137-149 | nothing but another pod starting to listen ends the deadlock, so nothing at all if the handler is not shared |
| `MonitorShutdown.StayingReceiverPreventsHang` | internal/health/health.go:137-149 | over any continuation in which another receiver stays on the channel, a goroutine can move as long as any is left |
| `MonitorShutdown.StopCanHang` | internal/health/monitor.go:323-323 | a run into that deadlock |
| `MonitorShutdown.SharedStopCanHang` | internal/health/monitor.go:307-307 | a run into it in which another pod shares the handler and still listens when this one is cancelled |
| `MonitorShutdown.StopCanBeFollowedByReport` | internal/health/handler.go:54-65 | a run in which a shared handler changes the pod and notifies after the stop has returned |
| `HandlerFolding.ResultsAreHandledInOrder` | internal/health/handler.go:54-65 | with one receiver, what a monitor produced is what was handled, in order, plus at most one in the receiver's hand and one at the sender |
| `HandlerFolding.EveryResultIsHandledOnce` | internal/health/handler.go:54-65 | with any number of receivers, each result of a watch monitor was handled as often as it was produced, except where it is in a receiver's hand or at its sender |
| `HandlerFolding.TallyFollowsResults` | internal/health/monitor.go:98-117 | under every interleaving a monitor's counter, even after its end, and until then its state are those of its result history |
| `HandlerFolding.StatusIsFoldOfHandled` | internal/health/handler.go:100-126 | with any number of receivers, the pod's status and the notifications are folds over the results handled so far, in handling order |
| `HandlerFolding.NotifiedOncePerReport` | internal/health/handler.go:115-119 | the notifications are, one by one and in order, the reported statuses with the pod's own addresses |
| `HandlerFolding.PodShowsLastReport` | internal/health/handler.go:100-126 | under every interleaving and with any number of receivers the pod keeps its addresses and shows phase, reason and containers of the last handled report; one notification per report, with that report |
| `Cloud.StatusIsTheTag` | internal/ec2provider/warmpool.go:361-385 | an instance shows a status exactly when that is the value of its status tag |
| `WarmPool.PopulatedTags` | internal/ec2provider/warmpool.go:146-195 | every reason writes node, cluster and the status that goes with it, and only the one for a pod also the pod's name, namespace and uid |
| `WarmPool.RetaggedInstance` | internal/ec2provider/warmpool.go:146-222 | a retagged instance has exactly those tags changed, keeps the tags it was launched with, its run state and its address, and no other instance changes |
| `WarmPool.RefreshRebuildsIndex` | internal/ec2provider/warmpool.go:331-394 | from any earlier state: four disjoint maps, keys equal to instance ids, holding exactly the live filtered instances under the tag they now have; only failed retaggings are absent |
| `WarmPool.IndexEntries` | internal/ec2provider/warmpool.go:371-383 | an entry of any of the four maps is the id and the address of a listed instance |
| `WarmPool.OtherInstancesAreLeftAlone` | internal/ec2provider/warmpool.go:344-358 | a refresh neither changes nor files an instance that is dead or tagged for another node or cluster; all others are what a complete page lists |
| `WarmPool.SecondRefreshChangesNothing` | internal/ec2provider/warmpool.go:331-394 | refreshing again changes neither tags nor index |
| `WarmPool.IndexIsCompleteIffOnePage` | internal/ec2provider/warmpool.go:348-358 | the index misses nothing, whichever page is answered, if and only if the filtered instances fit on one page (or none has a status) |
| `WarmPool.RefreshedInstance` | internal/ec2provider/warmpool.go:363-374 | what a refresh does to one instance: a running one tagged as provisioning becomes ready and keeps its other tags, run state and address; any other is unchanged |
| `PoolDepth.DepthCheckConverges` | internal/ec2provider/warmpool.go:290-324 | ends at the desired count, or zero if negative, less the failed launches, and never both launches and lets go |
| `PoolDepth.SurplusIsReleased` | internal/ec2provider/warmpool.go:300-320 | a depth check that finds too many lets go exactly the excess, each id once, ready ones first, keeping the other entries; in EC2 exactly those die, if the call succeeds |
| `PoolDepth.ShortageIsLaunched` | internal/ec2provider/warmpool.go:296-299 | a depth check that finds too few launches the difference, failures included: fresh, pending, tagged for this pool as provisioning and filed so; nothing else changes |
| `PoolDepth.ChurnBalance` | internal/ec2provider/warmpool.go:104-107 | launches minus terminations of a pass is the change of depth, which ends at the last desired count |
| `PoolDepth.QuietPass` | internal/ec2provider/warmpool.go:104-107 | a pass does nothing iff every desired count is the depth it started from |
| `PoolDepth.RepeatedPassChurns` | docs/rfcs/implemented/WarmPoolDesign.md:90 | a repeated pass launches as many as it terminates, and nothing if and only if all desired counts are equal |
| `PoolDepth.FillIsMaximum` | internal/ec2provider/warmpool.go:128-144 | the start-up fill reaches the maximum of the depth found and all desired counts |
| `PoolManager.Pop` | internal/ec2provider/warmpool.go:454-468 | removes one entry and returns it |
| `PoolManager.WarmPoolManager.FileInstance` | internal/ec2provider/warmpool.go:361-385 | the loop over an instance's tags retags it if it has come up and files it once, under the map of the tag it then has |
| `PoolManager.WarmPoolManager.CheckEC2TagsForState` | internal/ec2provider/warmpool.go:331-394 | the refresh loop yields the index of the one page it reads, a page short of something only if full, whatever the index was; an EC2 fault for each retagging that failed or if nothing was listed |
| `PoolManager.WarmPoolManager.CreateWarmEC2` | internal/ec2provider/warmpool.go:197-285 | one fresh pending instance with the pool's tags filed as provisioning, or nothing and a fault; without subnets an entry with an empty id |
| `PoolManager.WarmPoolManager.Launch` | internal/ec2provider/warmpool.go:297-299 | launches and failures add up to the count asked for and old instances and entries are untouched; without subnets nothing is launched and the empty entry is filed unless every attempt fails |
| `PoolManager.WarmPoolManager.Release` | internal/ec2provider/warmpool.go:301-313 | the remaining entries and the distinct released ids partition the old ones, ready ones going first, and as many as asked for or available |
| `PoolManager.WarmPoolManager.CheckWarmPoolDepth` | internal/ec2provider/warmpool.go:290-324 | a depth check launches the shortfall, or lets the excess go and terminates exactly it if the call succeeds |
| `PoolManager.WarmPoolManager.MaintenancePass` | internal/ec2provider/warmpool.go:104-107 | for non-negative counts, subnets and no failed launch: ends at the last count, with launches and entries let go the sums of rises and falls along the list; those let go are terminated unless a call fails; idle passes change nothing |
| `PoolManager.WarmPoolManager.InitialWarmPoolCreation` | internal/ec2provider/warmpool.go:128-144 | unless a launch fails, the depth ends at the fill of the discovered depth, launching exactly the difference |
| `PoolManager.WarmPoolManager.GetWarmPoolInstanceIfExist` | internal/ec2provider/warmpool.go:403-417 | refreshes, then hands out some ready instance and removes it, exactly if there is one |
| `PoolManager.WarmPoolManager.UpdateEC2Tags` | internal/ec2provider/warmpool.go:211-222 | writes the tags of the given reason on that instance or, on a fault, nothing |
| `Allocation.RefreshConservesIff` | internal/ec2provider/warmpool.go:331-394 | a complete refresh keeps a conserved system conserved if and only if no pod's instance is still tagged for the pool |
| `Allocation.RefreshConservesIffNothingMissed` | internal/ec2provider/warmpool.go:331-394 | any refresh of a good system, with any page and any failed retaggings, keeps it conserved if and only if every instance of the pool is listed and none that came up failed to be retagged |
| `Allocation.RefreshEstablishesGoodIff` | internal/ec2provider/ec2provider.go:480-501 | whatever index and pods it starts from, as after a restart, a complete refresh establishes the whole invariant if and only if the pods hold, one each, the live instances outside the pool |
| `Allocation.RefreshKeepsGood` | internal/ec2provider/warmpool.go:331-394 | a refresh that misses nothing keeps the whole invariant |
| `Allocation.RefreshKeepsExclusive` | internal/ec2provider/warmpool.go:331-394 | a refresh with any page and any failed retaggings keeps the pods' instances apart and out of the pool |
| `Allocation.ShortPageLosesInstance` | internal/ec2provider/warmpool.go:348-358 | two ready instances, pages of one: a refresh that loses one |
| `AllocationSteps.DepthCheckConservesIffLossless` | internal/ec2provider/warmpool.go:290-324 | a depth check of a good system, with any outcome, keeps it conserved if and only if what it lets go is terminated, or, when it launches, there are subnets or every attempt fails beforehand |
| `AllocationSteps.DepthCheckSparesPods` | internal/ec2provider/warmpool.go:300-315 | whatever its outcome and whatever was lost before, no depth check terminates or touches an instance of a pod |
| `AllocationRuns.StepKeepsGood` | internal/ec2provider/ec2provider.go:131-261 | every create, update, delete, refresh, depth check and boot that is lossless keeps the whole invariant |
| `AllocationRuns.StepConservesIffLossless` | internal/ec2provider/ec2provider.go:131-261 | every operation with every outcome keeps a good system conserved if and only if it is lossless |
| `AllocationRuns.ConservationOverRuns` | internal/ec2provider/ec2provider.go:131-261 | over every serial run, whatever EC2 refuses: conserved so far if and only if every operation so far was lossless |
| `AllocationRuns.StepKeepsExclusiveIff` | internal/ec2provider/compute.go:64-82 | every operation with every outcome keeps the pods' instances known to EC2, apart and out of the pool if and only if it gives a pod none but a known one that is nobody else's |
| `AllocationRuns.ExclusiveOverRuns` | internal/ec2provider/compute.go:64-82 | over every run, the pods' instances have stayed known and apart if and only if no operation gave a pod an unknown one or somebody else's |
| `AllocationRuns.OwnedUntilDead` | internal/ec2provider/compute.go:64-82 | in any run that keeps annotations and gives a pod none but a known instance that is nobody else's, whatever EC2 refuses, an instance stays with its pod until it is dead and does not come back |
| `AllocationRuns.ExclusiveAssignment` | internal/ec2provider/compute.go:64-82 | no such run gives one instance to two pods, at the same or at different times |
| `AllocationRuns.DepthChecksSpareAssigned` | internal/ec2provider/warmpool.go:300-315 | no depth check of such a run terminates or touches an instance assigned to a pod |
| `AllocationRuns.RefreshInWindowAssignsTwice` | internal/ec2provider/compute.go:67-75 | any refresh between pop and tag that lists the instance puts it back into the pool, where the next pod gets it too |
| `AllocationRuns.RefreshInWindowKeepsExclusiveIffUnlisted` | internal/ec2provider/compute.go:67-75 | pop, any refresh, tag as three steps: the pods' instances are apart if and only if the refresh did not list the popped one |
| `AllocationRuns.DepthCheckInWindowKillsPod` | internal/ec2provider/warmpool.go:300-315 | after such a refresh, a depth check that wants no instances terminates the pod's if the call succeeds |
| `AllocationRuns.UpdateConservesIffAnnotationKept` | internal/ec2provider/podcache.go:80-91 | an update keeps conservation if and only if it keeps the instance-id annotation |
| `AllocationRuns.DeleteConservesIffAnnotationKept` | internal/ec2provider/compute.go:169-178 | so does a delete |
| `AllocationRuns.ReuseBreaksConservation` | internal/ec2provider/compute.go:55-59 | re-using a live instance for an uncached pod always gives it a second owner |
| `Lifecycle.CreateConservesIffLossless` | internal/ec2provider/ec2provider.go:131-188 | for every ending of a creation, after any refresh: conservation survives if and only if the ending is one of those listed as clean and the refresh missed nothing |
| `Lifecycle.InstanceComesFrom` | internal/ec2provider/compute.go:53-92 | a pod's instance is the running one its annotation names, or one of the pool's that is live, tagged for this node and cluster and ready or already running, or, exactly if no pool is configured, one EC2 did not have before |
| `Lifecycle.LosslessCreationKeepsGood` | internal/ec2provider/ec2provider.go:131-188 | and then the whole invariant does |
| `Lifecycle.CreateKeepsExclusiveIff` | internal/ec2provider/compute.go:53-92 | for every ending: the pods' instances stay apart if and only if the pod does not end up with a re-used instance of somebody else or one launched with the pool's own tags; never lost by taking one from the pool |
| `Lifecycle.UndisturbedCreationKeepsGood` | internal/ec2provider/ec2provider.go:131-188 | if EC2 does as it is told, one page holds everything and the pod names no running instance, a creation keeps the whole invariant, even if its application cannot be launched |
| `Lifecycle.CompleteRefreshAbsorbs` | internal/ec2provider/warmpool.go:331-394 | a complete refresh ends where it would have ended without any earlier incomplete one |
| `Lifecycle.RefreshRecoversLostInstance` | internal/ec2provider/compute.go:75-80 | if the pod's tag cannot be written the instance is lost, but only until the next complete refresh, which ends where a refresh instead of the creation would have |
| `Lifecycle.DeleteUndoesCreate` | internal/ec2provider/ec2provider.go:206-261 | creating and deleting a pod restores the cached pods, and the live instances less the one taken from the pool |
| `ComputeManagement.ComputeManager.PodHasInstance` | internal/ec2provider/compute.go:94-125 | says yes only, and without a fault exactly, if the annotated instance is running |
| `ComputeManagement.ComputeManager.GetCompute` | internal/ec2provider/compute.go:53-92 | how looking for an instance can end, when, and what it does to cloud, tags, pool and annotation; fails only on a fault or an empty pool; the address returned and put on the pod is the instance's own, or the pod's old one for a re-used instance; one from the pool names the pod in its tags |
| `ComputeManagement.ComputeManager.CreateCompute` | internal/ec2provider/compute.go:133-167 | a fresh running instance noted on the pod together with its address; or none; or one that got no address, is noted, and lives on |
| `ComputeManagement.ComputeManager.DeleteCompute` | internal/ec2provider/compute.go:169-178 | the annotated instance dies and no other changes; no annotation or an unknown instance is no error; an error means a fault and no effect |
| `Provider.Ec2Provider.LaunchApplication` | internal/ec2provider/ec2provider.go:331-367 | a failed launch forgets the pod and its instance dies, unless that fails too; no other instance changes |
| `Provider.Ec2Provider.CreatePod` | internal/ec2provider/ec2provider.go:131-188 | the whole effect, ending by ending: cloud, pool and cache as `After` says; podIP and hostIP are the instance's address, or the old one if it is re-used, and nothing else of the status changes; the instance ends tagged in use, and for this pod if it is from the pool; monitoring starts and the pod is reported exactly on success; a failed application's instance is dead; a pod whose in-use tag fails stays cached without monitoring; without faults it fails only on an empty pool |
| `Provider.Ec2Provider.UpdatePod` | internal/ec2provider/ec2provider.go:190-204 | replaces the cached object and keeps its monitoring; an error without effect if uncached |
| `Provider.Ec2Provider.DeletePod` | internal/ec2provider/ec2provider.go:206-261 | panics exactly for an uncached pod or one whose monitoring never started; otherwise monitoring is stopped, and on success the annotated instance dies and no other changes, the pod is forgotten and reported once as Succeeded, deleted, with no container ready and all ended by request; an error leaves it cached |
| `Provider.Ec2Provider.NotifyPodDelete` | internal/ec2provider/ec2provider.go:463-478 | the pod is Succeeded for the reason ProviderPodDeleted, has as many containers with the same names, none ready and all ended by request, keeps its addresses, and is reported once like that |
| `Provider.DeletedStatusPrevails` | internal/ec2provider/ec2provider.go:241-256 | whatever the first of the two status updates of a deletion says, the pod ends Succeeded for the reason ProviderPodDeleted, its containers not ready and ended by request |
| `Provider.Ec2Provider.PopulateCache` | internal/ec2provider/ec2provider.go:480-501 | takes over the cache with every pod monitored and every annotation kept |
| `PodCache.KeysCollideIffOverlap` | internal/utils/pod.go:33-35 | two pods share a cache key if and only if they are the same or one namespace continues the other after a hyphen and the names make up for it |
| `PodCache.HyphenFreeKeysAreDistinct` | internal/utils/pod.go:33-35 | on hyphen-free namespaces the key is injective |
| `PodCache.GetReturnsLatest` | internal/ec2provider/podcache.go:66-109 | after any operations none of which touches another pod with the same key, a get returns the latest undeleted pod of that namespace and name |
| `PodCache.LastTouchDecides` | internal/ec2provider/podcache.go:66-109 | what is cached under a key is decided by the last operation concerning it: a set or listing leaves that pod, a delete none, an update its pod if there was one |
| `PodCache.HyphenFreeCacheIsFaithful` | internal/ec2provider/podcache.go:66-109 | hence the cache refines a map from namespace and name if namespaces have no hyphens |
| `PodCache.PodsInterfereIffOverlap` | internal/utils/pod.go:33-35 | caching one pod hides another if and only if they overlap at a hyphen |
| `PodCache.HyphenatedNamespacesCollide` | internal/utils/pod.go:33-35 | ("a-b", "c") and ("a", "b-c") share a key |
| `PodStore.Cache.Set` | internal/ec2provider/podcache.go:73-77 | the cache's contents change as `Perform` says |
| `PodStore.Cache.UpdatePod` | internal/ec2provider/podcache.go:80-91 | replaces the pod inside the entry and keeps entry and monitoring; an error without effect if there is none |
| `PodStore.Cache.Delete` | internal/ec2provider/podcache.go:94-98 | the cache's contents change as `Perform` says |
| `PodStore.InfoTellsThePod` | internal/ec2provider/podcache.go:100-109 | the contents of the cache tell the namespace, name, uid, annotation and status of each pod |
| `PodStore.Cache.Rehydrate` | internal/ec2provider/podcache.go:101-107 | caches a fresh copy with the same namespace, name, uid, annotation and status, without a monitor, and touches no other entry |
| `PodStore.Cache.PopulateFrom` | internal/ec2provider/podcache.go:100-109 | loads copies of all listed pods; of those with the same key the last one listed is cached |
| `PodStore.Cache.GetPodList` | internal/ec2provider/podcache.go:52-63 | every cached pod, each entry once |
| `PodStore.PodMonitor.Stop` | internal/health/health.go:137-149 | panics exactly if monitoring was never started, since only starting provides the cancel function |
| `UserData.ReadEscaped` | internal/awsutils/ec2_client_utils.go:117-120 | the JSON encoding of any text, whichever HTML-sensitive characters are left plain, reads back as that text |
| `UserData.EncodingIsJson` | internal/awsutils/ec2_client_utils.go:117-120 | the encoding has no control character and no line separator, and of the HTML-sensitive characters only those to be left plain |
| `UserData.OrdinaryTextIsKept` | internal/awsutils/ec2_client_utils.go:117-120 | a text of ordinary characters is encoded as itself, except that `<`, `>` and `&` become their escapes unless left plain |
| `UserData.UnescapeKeepsTextIffClean` | internal/awsutils/ec2_client_utils.go:144-149 | the three replacements keep an encoded string's meaning if and only if the text contains none of the three escapes literally; otherwise no reader accepts the result |
| `UserData.DocumentSurvivesIffClean` | internal/awsutils/ec2_client_utils.go:117-121 | the same for a document of any number of string fields |
| `UserData.UserDataSurvivesIffClean` | internal/awsutils/ec2_client_utils.go:110-121 | the agent reads back the three settings if and only if none contains an escape literally, and otherwise reads nothing |
| `UserData.CleanDocument` | internal/awsutils/ec2_client_utils.go:27-31 | for settings without a literal escape, the document character by character: the three settings under the three field names, as JSON strings with the HTML escapes undone |
| `UserData.LiteralEscapeLosesUserData` | internal/awsutils/ec2_client_utils.go:110-121 | a setting with which the agent reads nothing |

## Left out

- AWS SDK, S3 and Kubernetes clients: EC2 is an object whose calls succeed or fail arbitrarily; ids are fresh, tag keys unique per instance, and an instance dies only by being terminated.
- gRPC dialing, back-off, keep-alive, TLS and the bootstrap examples: library plumbing.
- Time: tickers, sleeps and time-outs are steps that may happen at any moment; fairness is not assumed but stated as measures and enabled steps.
- Memory-level data races, such as the state struct overwritten together with its own mutex, or the unlocked map write of a cache update: the steps are atomic.
- Metrics, logging, the status loop, configuration loading, the ENI node and unused code (`recreatePod`, `handlePodStatusUpdate`, `ReplaceCompute`, `RemoveFrom*`): no hard property.
- Base64 and the JSON encoder as such: only the string escaping that the replacements meet is modelled.
- Surrogate pairs and invalid UTF-8 in user data: a text is a sequence of Unicode characters outside the surrogates, and the reader refuses surrogate escapes, which the encoder never produces for such texts.
- Reservations of a describe response: they are flattened into one list per page. A page is short only if it holds at least `pageSize` instances; EC2 could also end one early.
- A nil annotation map on a pod: writing the instance id to it would panic; annotations here are present.
- Creating the EC2 client and the S3 request inside the compute functions: their failures count as failures of the EC2 call they precede.
- HealthService.HealthServer.WatchTurn: the stream itself is the parameter that says whether a send succeeds.
- HealthMonitor.CheckHandler.HandleCheckResult: the state and the subject of the monitor only select log lines and do not appear.
- MonitorTheorems.RunIsSound: starting a monitor, which raises the wait group and then begins the goroutine, is one step; results with a nil pod status, on which the handler would crash, are not produced in the protocol; handling a result is one step, although receivers of different pods may write the same status without a lock.
- PodStore.PodMonitor.Stop: that it may never return is the subject of `MonitorShutdown` and not repeated here.
- AllocationRuns.ConservationOverRuns: operations are serial, each one step; creating a pod that is already cached is not one of them, and the tags a pod asks for must not make its own instance look like one of the pool's.
- AllocationRuns.ExclusiveAssignment: updates and deletes bring the annotation the cached pod has, and no pod is created with somebody else's instance; what happens otherwise is in the lemmas with an if-and-only-if.
- Provider.Ec2Provider.DeletePod: whether the agent terminates the application makes no difference to the outcome and is not represented.

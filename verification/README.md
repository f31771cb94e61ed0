# A verified model of Servermore's control plane

Servermore is a small serverless platform. A *commander* keeps a routing cache of function
instances, refreshed by heartbeats from *runners*; a *router* answers "which instance, on
which runner" from that cache, or orders a cold start. On a runner, callers of an instance
elect one of themselves to start a worker over a bounded queue, an idle timer shuts the
instance down, and concurrent starts and downloads of one function share a single flight.

This project models that logic in Dafny and proves what it promises:

- **Routing cache.** The seven redundant tables, edited in place by loops that take map keys
  in any order and delete while iterating, represent one abstract map
  `instance -> (runner, queue, function)` as long as nothing moves away from an empty name,
  and exactly then. Tables and abstract cache determine each other, so
  no iteration order can show. Loads are conserved and heartbeats are idempotent; which
  runners are known, with which metrics, and where and for which function an instance is
  listed with which queue length is exactly what the history of updates says.
- **Polling.** A poll's result does not depend on the completion order of its per-runner
  tasks *if and only if* the answers are pairwise compatible: no id is reported twice, and no
  reported id that another polled runner currently owns has a known function. (An id with no
  function may change hands in any order.)
- **Routing.** A route is warm exactly when an instance is under its threshold, else it
  orders a start on a least loaded runner, else there is none. Under interleaving, an evicted
  runner stays out of every later route until something names it again, and a route whose
  reads see a steady cache ends in a right answer. Whatever interleaves, an answer is right
  for the cache of its first read and the cache of its second one.
- **Instances.** In every interleaving the queue is first in first out, no request is lost
  or given to the guest twice, every answered caller has the reply to its own request, and
  before the shutdown tick the `opened` flag is set exactly while one goroutine is
  responsible. There are never more than two workers or committed callers at once, and never
  more than *slots*: goroutines that serve or may come to, a clear flag, a shutdown that has
  yet to clear it. A second server, and a request that overtakes another, can still appear
  exactly in the states the model describes by such counts. A heartbeat's report made before
  any reset after the tick holds for the grace period less the largest delay between a timer
  reset and the store of its end, and not longer; one made after such a reset may fail at
  once. Before the tick, panics and stranded requests come only from a worker that goes idle.
- **Single flight, broadcast, storage, retries.** One start or download in flight for each
  path, every follower gets its leader's result exactly once, submitting never blocks; stored
  filenames decode uniquely, uploads never replace bytes of another hash, and a stored file
  is there exactly if no failed upload has removed it since it was last opened; the retry
  loops keep exact bounds.

## How the model is built

`InMemoryCache`, `CommanderService`, `MultiConsumer` and `Channel` are classes whose methods
update their fields, as in the source; a Go map is a field of type `map` that methods
reassign. A loop over a Go map picks any remaining key. The dropping loop of a heartbeat
walks the live set of the runner, which is the set the source's local variable aliases.

Concurrent code is a state machine: goroutines are program counters over a shared state, and
a step is one lock section, atomic operation, channel operation, database query or remote
call. `Next` is total (a step that is not enabled changes nothing), so a run is any sequence
of steps and theorems range over all of them. A failed runtime assertion or a send on a
closed channel leads to a terminal `crashed` state. What clocks, the network, the database,
guests and operating system answer are parameters of the steps and methods.

| file | source | content |
|---|---|---|
| Prelude.dfy | | options, sums over sets, reordering |
| CacheSpec.dfy, CacheLaws.dfy | pkg/caching | the abstract cache and its laws |
| CacheTables.dfy, InMemoryCache.dfy | pkg/caching/in_memory.go | the seven tables and the class |
| NaiveRouter.dfy | pkg/routing/naive.go | the router |
| CommanderService.dfy | pkg/commander/service.go | operations one at a time |
| CommanderSteps.dfy | pkg/commander/service.go | operations interleaved |
| InstanceProtocol.dfy, InstanceQueue.dfy | pkg/runner/instances.go, pkg/runner/grpc.go | one instance: election, queue, replies |
| InstanceSlots.dfy, InstanceOrder.dfy | pkg/runner/instances.go, pkg/runner/grpc.go | how many can serve at once, when requests can overtake |
| InstanceGrace.dfy, InstanceIdle.dfy, InstanceRuns.dfy | pkg/runner/instances.go, pkg/runner/grpc.go | its shutdown, its idle worker, runs that break a promise |
| MultiConsumer.dfy, SingleFlight.dfy | pkg/runner/instances.go, pkg/runner/grpc.go | broadcast and single flight |
| FuncStorage.dfy, Uploads.dfy | pkg/commander/func_storage.go, pkg/commander/service.go | stored functions |
| Retry.dfy | pkg/commander/db.go, pkg/runner/runtime.go | retry loops |

Findings where the code promises less than one might read into it:

- `ResetTimer` arms the shutdown timer even when it returns false. Between the tick and the
  assertion that follows, the next caller's reset succeeds, so a second worker can be started
  beside the first, and the guest may get requests out of order
  (`InstanceRuns.TwoWorkersOvertake`). `InstanceSlots.SecondServerIff` and
  `InstanceOrder.OrderBreaksIff` say of every state whether that can still happen. While the
  instance is registered a second server can appear as long as two slots are left; before the
  tick they always are.
- `ResetTimer` and `Submit` start the timer first and store its end a moment later, so the
  stored end may be later than the timer. `InstanceGrace.PromiseIff` says exactly what that
  costs. A reset after the tick also makes the next heartbeat list an instance whose shutdown
  has begun (`InstanceGrace.LateReport`); `InstanceGrace.ReportHonouredIff` says that no other
  report fails.
- A heartbeat captured before an instance was prepared drops it
  (`CacheLaws.FreshInstanceSurvivesIff`).
- A worker may go idle with requests queued, and a caller that lost the election to it may
  then fail the assertion that the queue is open (`InstanceIdle.IdleFirstStrandsAndPanics`).
  `InstanceIdle.IdleFailsIff` is the exact guard if no caller swaps the flag after the idle
  timer fires; if one may, no state is safe (`InstanceIdle.IdleNeverSafe`). Before the tick
  the next caller is elected (`InstanceQueue.NextCallerIsElected`).
- The result channel is unbuffered: a caller that leaves while its reply is on the way holds
  the worker up for good (`InstanceOrder.LeavingHoldsUp`).
- A failing upload of bytes that are already stored under the same name deletes the stored
  file (`Uploads.FailedRewriteLosesFile`, `Uploads.FailedOpenRemoves`), and when the removal fails too, a broken file stays
  (`Uploads.StoredBytesKeepTheirHash`).
- The cache reads `""` as "absent": an instance that moves away from an empty runner address
  or function id stays in its set or list (`CacheTables.LeftBehindIff`,
  `CacheTables.LeftListedIff`). An update is exact if and only if it moves nothing away from
  such a name. The commander only passes ids that parse as numbers and addresses that answered
  a heartbeat.

## Model

| member | source | states |
|---|---|---|
| InMemoryCaching.InMemoryCache.constructor | pkg/caching/in_memory.go:32-42 | the new tables represent the empty cache |
| InMemoryCaching.InMemoryCache.FunctionIdInstances | pkg/caching/in_memory.go:47-62 | returns exactly the instances listed for the function, with their queue lengths; empty when there are none |
| InMemoryCaching.InMemoryCache.RunnerAddressOfInstance | pkg/caching/in_memory.go:159-171 | returns the runner of a cached instance, and an error exactly for an unknown one |
| InMemoryCaching.InMemoryCache.RequestsPerRunner | pkg/caching/in_memory.go:191-198 | returns each known runner with the sum of the queue lengths of its instances |
| InMemoryCaching.InMemoryCache.StatsPerRunner | pkg/caching/in_memory.go:201-208 | returns the metrics the abstract cache holds, which CacheLaws.MetricsIff ties to the last heartbeat of each runner |
| InMemoryCaching.InMemoryCache.CachedInstancesCount | pkg/caching/in_memory.go:211-216 | returns the number of cached instances |
| InMemoryCaching.InMemoryCache.SetInstance | pkg/caching/in_memory.go:65-103 | the instance is moved to the given function, runner and queue length; the tables keep representing a cache iff nothing is moved away from an empty name |
| InMemoryCaching.InMemoryCache.UpsertRunnerHeartbeat | pkg/caching/in_memory.go:106-156 | in any iteration order the tables end up representing the cache in which the runner has exactly the reported instances, functions kept, unreported ones gone; iff no reported instance is moved away from the runner "" |
| InMemoryCaching.InMemoryCache.TakeReported | pkg/caching/in_memory.go:120-142 | the reporting loop moves every reported instance to the runner and keeps its function; only the runner's own total may be stale; instances of the runner "" stay in its set |
| InMemoryCaching.InMemoryCache.DropUnreported | pkg/caching/in_memory.go:144-149 | the dropping loop over the live set removes exactly the runner's instances that were not reported, and no reported one from any set |
| InMemoryCaching.InMemoryCache.RemoveRunner | pkg/caching/in_memory.go:174-188 | the runner, its instances and its metrics are gone, everything else stays |
| InMemoryCaching.InMemoryCache.RecomputeRunnerRequests | pkg/caching/in_memory.go:296-308 | the runner's total becomes the sum over its instance set, or disappears with the set |
| InMemoryCaching.InMemoryCache.RemoveInstance | pkg/caching/in_memory.go:258-273 | the instance leaves all tables, its runner's total is recomputed |
| InMemoryCaching.Replay | pkg/caching/in_memory.go:65-188 | any sequence of updates, each clean for the cache it finds, leaves tables that represent the abstract result of that sequence |
| InMemoryCaching.TotalsAddUp | pkg/caching/in_memory.go:296-308 | the cached totals over all runners sum to the queue lengths over all instances |
| CacheTables.PlacedRepresents | pkg/caching/in_memory.go:73-100 | the table edits of SetInstance follow the abstract update if it moves nothing away from an empty name, and represent no cache otherwise |
| CacheTables.TakenRepresents | pkg/caching/in_memory.go:124-141 | one reported instance: the table edits follow the abstract move, also between runners, unless it leaves the runner ""; then they represent no cache |
| CacheTables.RemovedRepresents | pkg/caching/in_memory.go:258-294 | removing an instance keeps all tables in agreement and leaves no empty function entry |
| CacheTables.RepresentationUnique | pkg/caching/in_memory.go:14-29 | tables that represent the same cache are equal, and tables represent at most one cache |
| CacheTables.LeftBehindIff | pkg/caching/in_memory.go:80-82 | for all tables: placed on a runner and then on another, an instance is still in the first one's set iff that name is empty |
| CacheTables.LeftListedIff | pkg/caching/in_memory.go:76-78 | the same for the lists of two functions |
| CacheLaws.LoadIsConserved | pkg/caching/in_memory.go:296-308 | in every reachable cache the runner loads sum to the queue lengths of all instances |
| CacheLaws.HeartbeatIdempotent | pkg/caching/in_memory.go:106-156 | the same heartbeat twice equals once |
| CacheLaws.HeartbeatLoad | pkg/caching/in_memory.go:144-152 | after a heartbeat the runner's instances and load are exactly the reported ones |
| CacheLaws.FreshInstanceSurvivesIff | pkg/caching/in_memory.go:144-149 | a freshly set instance stays listed through a heartbeat iff the heartbeat is another runner's or reports it |
| CacheLaws.ListedIff | pkg/caching/in_memory.go:121-149 | over every run an instance is listed for f iff its last SetInstance was for f and nothing has dropped it since |
| CacheLaws.PlacedIff | pkg/caching/in_memory.go:65-188 | over every run an instance is on a runner with a queue length iff the last update that set or reported it said so and nothing has dropped it since |
| CacheLaws.MetricsIff | pkg/caching/in_memory.go:153 | over every run a runner's metrics are those of its last heartbeat, and there are none iff there was none since its last eviction |
| CacheLaws.KnownIff | pkg/caching/in_memory.go:65-188 | over every run a runner is known iff an update has named it since its last eviction |
| CacheLaws.ReportedAgainStaysUnlisted | pkg/caching/in_memory.go:134-141 | an id reported again after being dropped counts for its runner but is listed for no function until a new SetInstance |
| CacheLaws.EveryOrderAgrees | pkg/commander/service.go:81-89 | compatible poll answers give the same cache in every completion order |
| CacheLaws.PollOrderIrrelevantIff | pkg/commander/service.go:81-89 | the completion order is irrelevant iff the answers are pairwise compatible |
| CacheLaws.PollOutcome | pkg/commander/service.go:100-161 | after a poll in any order a silent runner is gone; one that answered has its metrics, only reported instances, and all of those no other runner reported |
| NaiveRouting.PickHealthyInstance | pkg/routing/naive.go:56-76 | finds an instance under the threshold iff there is one, and looks up its runner |
| NaiveRouting.PickLeastLoadedRunner | pkg/routing/naive.go:80-98 | a named result is a least loaded runner under the threshold; an empty one means there is none, or that the least loaded one has an empty name; the MaxInt seed hides none |
| NaiveRouting.Route | pkg/routing/naive.go:25-54 | warm iff some instance is under its threshold, else a start on a least loaded runner, else no runner; the address lookup never fails on a steady cache; only a least loaded runner with an empty name is taken for none |
| NaiveRouting.AnswersExclusive | pkg/routing/naive.go:25-54 | for one cache all right answers are of one kind, and prepare orders have equal load |
| NaiveRouting.WarmAfterSet | pkg/commander/service.go:332-336 | after an instance is set with queue 0 and a positive threshold, every route for its function is warm |
| Commander.CommanderService.RegisterRunner | pkg/commander/service.go:245-264 | a known address keeps its id; a new one is stored iff it answers a heartbeat and the insert succeeds |
| Commander.CommanderService.PersistNewRunner | pkg/commander/service.go:341-374 | stores the address after a heartbeat, or returns the row that is already there |
| Commander.CommanderService.PollRunnerHeartbeat | pkg/commander/service.go:100-161 | a silent runner is out of the cache with its instances and metrics; one that answers has exactly the reported instances, queues and metrics, functions kept; all else is unchanged |
| Commander.CommanderService.RunPollTasks | pkg/commander/service.go:81-89 | every stored runner gets exactly one action, in some order |
| Commander.CommanderService.PollRunnerHeartbeats | pkg/commander/service.go:71-96 | each silent runner is gone and each other has its metrics, only reported instances and all that nobody else reported; with compatible answers the cache is that of any listing of them; a failed read changes nothing |
| Commander.CommanderService.PrepareInstance | pkg/commander/service.go:293-337 | succeeds iff the id parses, the function exists and the runner replies; then the cache maps the new instance to function and runner with queue 0, otherwise it is unchanged |
| Commander.CommanderService.RouteFunction | pkg/commander/service.go:266-291 | a returned pair is the cache's own mapping for the function; warm answers leave the cache alone, a cold start is on a least loaded runner, errors change nothing |
| Commander.RouteTwice | pkg/commander/service.go:266-337 | after a successful route, cold or warm, the next one for the function is warm and changes nothing |
| Commander.ParseShow | pkg/commander/service.go:297-303 | the decimal rendering of an id is read back, within the 64-bit range and not beyond |
| Commander.ParseIntIff | pkg/commander/service.go:297-303 | exactly the optionally signed decimal numbers of 64 bits are read, each with its value |
| CommanderSteps.RunKeepsInv | pkg/commander/service.go:71-374 | in every interleaving cached runners are stored, and ids and addresses determine each other |
| CommanderSteps.StoredOnceAnswered | pkg/commander/service.go:341-374 | every stored address answered the heartbeat of a registration earlier in the run |
| CommanderSteps.UnansweredFails | pkg/commander/service.go:358-360 | a registration whose heartbeat is not answered fails and stores nothing |
| CommanderSteps.KnownKeepsId | pkg/commander/queries.sql:14-17 | a known address keeps its id at the lookup and at the insert |
| CommanderSteps.RegistrationRun | pkg/commander/service.go:245-264 | an answered registration of a new address stores it under the next id |
| CommanderSteps.AsAsked | pkg/commander/service.go:245-291 | registrations, poll tasks and routes are for the address, runner and function they were started with |
| CommanderSteps.CacheIsUpdated | pkg/commander/service.go:100-180 | however requests interleave, the cache is what the poll answers, evictions and prepared instances make of the empty one, in their order |
| CommanderSteps.SameAddressSameId | pkg/commander/queries.sql:14-17 | concurrent registrations return the same id iff they are for the same address |
| CommanderSteps.EvictedStaysOut | pkg/commander/service.go:163-180 | once a runner is out of the cache, no route that starts later answers with it until a heartbeat or SetInstance names it |
| CommanderSteps.AfterEviction | pkg/commander/service.go:121-131 | the same, from the eviction of a runner that failed its poll |
| CommanderSteps.RouteOnSteadyCache | pkg/routing/naive.go:25-76 | a route whose separate reads see the same cache ends in a right answer for it, whatever else interleaves |
| CommanderSteps.AnswerIsReadFrom | pkg/routing/naive.go:25-98 | in every interleaving a warm instance was under its threshold at the first read and owned by the answered runner at the second; a cold start is on a runner least loaded at the second read, with no instance under its threshold at the first |
| CommanderSteps.ColdWasPrepared | pkg/commander/service.go:293-337 | a cold start answers with the instance that the chosen runner prepared for that route |
| CommanderSteps.WarmRun | pkg/routing/naive.go:56-76 | a route with an instance under its threshold answers with it and its runner |
| CommanderSteps.ColdRun | pkg/commander/service.go:266-337 | a route without one orders a start on a least loaded runner and caches what it prepares with queue 0 |
| CommanderSteps.RouteFails | pkg/routing/naive.go:45-50 | a route fails when all runners are overloaded, the prepare call fails or the picked instance has gone |
| InstanceProtocol.ResponsibleKept | pkg/runner/grpc.go:309-385 | every step keeps: before the tick at most one goroutine is responsible, and the flag is set iff one is |
| InstanceProtocol.PositionsKept | pkg/runner/instances.go:56-73 | every step keeps what each goroutine's position says about the tick, the timer, the flag and the queue |
| InstanceProtocol.PanicIff | pkg/runner/instances.go:56-73 | a step panics iff the flag is clear at the check, the reset had failed, or the queue is closed at the send |
| InstanceProtocol.DoomedIff | pkg/runner/instances.go:56-60 | a caller stands at a failed reset iff some reset of the run came after the tick; only then is the timer active again |
| InstanceProtocol.OneCommittedStep | pkg/runner/instances.go:57 | a step ends the rule of one worker or committed caller iff it is an elected caller's successful reset beside another one |
| InstanceProtocol.SecondElectionIsLate | pkg/runner/instances.go:207-211 | such a reset needs a received tick and an earlier reset that failed |
| InstanceSlots.SlotsStep | pkg/runner/instances.go:191-217 | no step of any goroutine makes a slot |
| InstanceSlots.TwoSlots | pkg/runner/instances.go:191-217 | in every run at most two slots are left, before the tick exactly two |
| InstanceSlots.OneServer | pkg/runner/instances.go:191-217 | in every run: before the tick the flag is set iff exactly one goroutine is responsible; workers and committed callers never outnumber the slots of any earlier state, so there are at most two; with no reset after the tick at most one |
| InstanceSlots.SecondServerIff | pkg/runner/instances.go:56-73 | for every state reached: a second worker or committed caller can still appear iff two slots are left and, once the instance has left the registry, two are committed or the callers present can set the flag and see to an active timer |
| InstanceSlots.NextCallerIsElected | pkg/runner/grpc.go:320-322 | when nobody is responsible before the tick, the next caller to swap the flag is elected |
| InstanceQueue.NothingLost | pkg/runner/grpc.go:358-378 | in every run the calls taken and the queue concatenate to the calls sent, each from another caller, at most 100 queued; each call taken was invoked once or is in one worker's hand |
| InstanceOrder.SendsBelowHundred | pkg/runner/instances.go:147 | a send goes through with fewer than 100 requests queued and waits at 100 |
| InstanceOrder.HundredQueued | pkg/runner/instances.go:18 | a run with 100 requests queued |
| InstanceOrder.NothingLostOrReordered | pkg/runner/grpc.go:358-378 | invoked calls, the call in hand and the queue concatenate to the calls sent: with no reset after the tick, and in every continuation of an ordered run from a state that cannot upset the order |
| InstanceOrder.OrderBreaksIff | pkg/runner/grpc.go:354-382 | for every ordered run: requests can still overtake iff, with the queue open, two slots are left that no reply to a departed caller holds up and the queue has room or somebody drains it; with the queue closed, iff two goroutines can take requests and two are left |
| InstanceOrder.OneSlotKeepsOrder | pkg/runner/grpc.go:354-382 | with fewer than two slots left that condition is false |
| InstanceOrder.AtMostTwoInHand | pkg/runner/grpc.go:358-368 | in every run never more requests in hand than slots at any earlier state, so at most two |
| InstanceQueue.AnsweredOnce | pkg/runner/grpc.go:374-378 | in every run an answered caller has the reply the guest gave to the request it came with, which was invoked exactly once |
| InstanceQueue.RequestAsGiven | pkg/runner/instances.go:62-73 | a caller's request is the one it came with |
| InstanceQueue.ReplyOfGuest | pkg/runner/grpc.go:366-378 | every reply on record is what the guest gave when a worker invoked it with that call |
| InstanceOrder.LeavingHoldsUp | pkg/runner/grpc.go:374-378 | a caller that leaves while its reply is on the way holds the worker up in every continuation |
| InstanceQueue.RearmNeverFails | pkg/runner/grpc.go:380-382 | the branch for a failed reset of the worker's idle timer is never taken |
| InstanceRuns.TwoWorkersOvertake | pkg/runner/instances.go:56-73 | a run in which two workers hold a request at once and the guest gets the later one first |
| InstanceIdle.SafeWithoutIdling | pkg/runner/instances.go:62-73 | in every run without an idle worker, before the tick nothing panics and a queued request has somebody responsible |
| InstanceIdle.OnlyCheckPanics | pkg/runner/instances.go:66 | before the tick the check of the flag is the only assertion that can fail |
| InstanceIdle.WorkerLeaves | pkg/runner/grpc.go:350-362 | a waiting worker leaves on cancellation, and with the flag cleared when idle or when the closed queue is empty |
| InstanceIdle.LeavesOnlySo | pkg/runner/grpc.go:350-384 | in every run a worker leaves in no other way |
| InstanceIdle.IdleFailsIff | pkg/runner/grpc.go:354-356 | going idle before the tick can panic or strand a request, with no further swap, iff a request is queued or a caller that lost the election stands between its swap and its send |
| InstanceIdle.IdleNeverSafe | pkg/runner/grpc.go:354-356 | if callers may still swap, from every state a worker that goes idle can make one panic |
| InstanceIdle.IdleFirstStrandsAndPanics | pkg/runner/grpc.go:354-356 | a concrete run in which a request is queued with nobody responsible, and then the assertion on the open queue fails |
| InstanceGrace.ReportedStays | pkg/runner/instances.go:162-174 | a reported instance stays registered for the grace period less the recording delay, if no caller has reset the timer after the tick |
| InstanceGrace.QueueDepths | pkg/runner/instances.go:162-174 | a heartbeat lists exactly the instances that will not end within the grace period, each with the length of its queue |
| InstanceGrace.PromiseIff | pkg/runner/instances.go:56-60 | the window for which every report made before any reset after the tick holds is exactly the grace period less the largest recording delay |
| InstanceGrace.ReportHonouredIff | pkg/runner/instances.go:162-174 | within that window a single report is certain to hold iff no reset has come after the tick, iff there has been no tick |
| InstanceGrace.LateReport | pkg/runner/instances.go:56-60 | a run in which the instance is reported after its tick and unregistered at once |
| InstanceGrace.ShutdownInOrder | pkg/runner/instances.go:207-217 | over every run: ticked, closed and unregistered hold exactly after the operation that brings them about, each after the one before |
| InstanceGrace.OncePerRun | pkg/runner/instances.go:207-217 | of two shutdown operations in a run the earlier in the code comes first, and no operation is performed twice |
| InstanceGrace.OperationsAct | pkg/runner/instances.go:207-217 | the close finds the queue open, the removal finds it closed and the instance registered, the runtime stop finds it removed |
| InstanceGrace.RemovedIsUnknown | pkg/runner/instances.go:191-198 | after the removal no lookup finds the instance |
| InstanceGrace.TimerStep | pkg/runner/instances.go:57 | the timer is active after a step iff the step resets it, or it was active and the step is neither the tick nor the stop |
| InstanceGrace.TimerHistory | pkg/runner/instances.go:211 | the timer stays active until the tick or the stop, and after either it is active again only by a reset |
| Broadcast.MultiConsumer.AddSub | pkg/runner/instances.go:276-287 | a late subscriber finds the result in a closed channel, an early one is remembered with an empty one |
| Broadcast.MultiConsumer.SubmitResult | pkg/runner/instances.go:289-299 | every remembered subscriber gets the result once, in a closed channel, and no send blocks |
| SingleFlight.OneInFlight | pkg/runner/instances.go:113-131 | in every run at most one start, or one download, is in progress for each path |
| SingleFlight.ResultOfWork | pkg/runner/grpc.go:239-272 | every result a leader holds or submits is the one its own work ended with |
| SingleFlight.PublishedWork | pkg/runner/grpc.go:239-272 | only ids of successful work are registered or in place |
| SingleFlight.PathAsCalled | pkg/runner/grpc.go:239-272 | everybody works for the path it called for |
| SingleFlight.FollowerGetsLeadersResult | pkg/runner/grpc.go:239-272 | a follower's result is the one its leader's work for the path ended with, and a successful one was registered or in place before |
| SingleFlight.CallerClaims | pkg/runner/instances.go:113-125 | a caller leads iff the path is unclaimed, else it joins the one who claimed it |
| SingleFlight.LeaderSubmits | pkg/runner/grpc.go:180-206 | a leader, successful or not, gives up the path and submits its result |
| SingleFlight.FollowerSubscribes | pkg/runner/instances.go:276-287 | one that joins subscribes, before the result is known or after |
| SingleFlight.FollowerReceives | pkg/runner/grpc.go:187-193 | a follower of a leader that has submitted receives the result |
| SingleFlight.FollowerGivesUp | pkg/runner/grpc.go:184-186 | only a follower of a download may give up |
| SingleFlight.ResultIsWaiting | pkg/runner/instances.go:276-299 | a follower that still waits when its leader has submitted finds exactly that result |
| SingleFlight.SubmitNeverBlocks | pkg/runner/grpc.go:204-206 | submitting finds every subscriber's channel empty and open, also of followers that gave up |
| FuncStorage.DecodeFilename | pkg/commander/func_storage.go:49-58 | a stored filename decodes to exactly the sanitised name and the hash |
| FuncStorage.FilenameInjective | pkg/commander/func_storage.go:49-58 | two uploads share a filename iff they share sanitised name and hash |
| FuncStorage.FilenameParts | pkg/commander/func_storage.go:49-58 | a stored filename is the base name, a dash, 64 hexadecimal digits and the extension |
| FuncStorage.HexDigits | pkg/commander/func_storage.go:53 | each byte is two upper-case hexadecimal digits |
| FuncStorage.NameCharIff | pkg/commander/func_storage.go:61 | the characters of the pattern, one by one |
| FuncStorage.FilenameIsOneElement | pkg/commander/func_storage.go:39 | a stored filename is a single path element |
| FuncStorage.SanitizedParts | pkg/commander/func_storage.go:60-72 | every sanitised name matches the pattern and splits at its one dot |
| FuncStorage.SanitizeTakesLastElement | pkg/commander/func_storage.go:65-72 | only the last path element is kept, and only if it matches the pattern |
| FuncStorage.SanitizeDropsSlash | pkg/commander/func_storage.go:65-72 | a trailing separator does not matter |
| FuncStorage.SanitizeIdempotent | pkg/commander/func_storage.go:65-72 | sanitising twice equals once |
| Uploads.StoredBytesKeepTheirHash | pkg/commander/service.go:204-227 | however uploads interleave and fail, a stored function's complete file has the hash of its row; otherwise it is being written, left by a broken write, or mixed from two uploads with that same hash |
| Uploads.RowsNeverChange | pkg/commander/queries.sql:1-3 | a stored function's row never changes |
| Uploads.RowIsUploaded | pkg/commander/service.go:218-227 | every row is the name and the hash of an upload whose bytes were written in full |
| Uploads.StoredIsRefused | pkg/commander/service.go:208-215 | an upload not yet checked when its hash is stored is refused by the check, and none of its steps touches a file or a row |
| Uploads.InsertOutcome | pkg/commander/queries.sql:1-3 | the first insert of a hash stores name and path, every later one is refused |
| Uploads.SpoiledUntilRenewed | pkg/server/files.go:15-22 | a file that a broken or a different write has spoiled is whole again only after an open with no writer at work |
| Uploads.WriterContributes | pkg/server/files.go:15-22 | what an upload writes goes into its file, and a write that breaks off spoils it |
| Uploads.PresentIff | pkg/server/files.go:15-32 | over every run a file is there iff some upload opened it and none has removed it since |
| Uploads.StoredFilePresentIff | pkg/server/files.go:15-32 | every stored function's file has been opened, and it is there iff no failed upload has removed it since it was last opened |
| Uploads.FilesStayWithoutFailures | pkg/commander/service.go:218-227 | in runs without failed opens and writes no stored file is missing |
| Uploads.FailedRewriteLosesFile | pkg/server/files.go:15-22 | wherever an upload passed the check before the same name and hash were stored, its failure to write removes the stored file |
| Uploads.FailedOpenRemoves | pkg/server/files.go:15-32 | an open that fails is followed by a removal too; a removal that fails leaves the file |
| Uploads.RewriteArises | pkg/commander/service.go:204-227 | that situation is reached for every name and content |
| Retry.WithRetry | pkg/commander/db.go:170-201 | at most 20 attempts and 1045 ms of backoff, both reached when every answer is busy; the first answer other than busy decides |
| Retry.StartWithRetry | pkg/runner/runtime.go:185-216 | at most 10 process starts and 450 ms of sleep, both reached when every start is busy |
| Retry.WaitForHeartbeat | pkg/runner/runtime.go:150-183 | the first heartbeat that is answered, whose caller has gone or whose backoff outlasts the 5 s timer decides, at exactly the time that attempts and backoffs add up to; at most 32 heartbeats, exactly 32 when they all fail at once |

## Left out

- Test-only setters of the cache (pkg/caching/in_memory.go:218-249): outside the `RoutingCache` interface, and they break its cross-table agreement on purpose.
- Overflow of the cached totals: totals are unbounded integers; reaching 2^63 takes over two thousand million instances.
- Goroutine code of pkg/runner/instances.go and pkg/runner/grpc.go is modelled on values, one step for each atomic operation, and not as objects updated in place: aliasing of `*instanceState` between goroutines appears as one shared state.
- Timing of the worker's idle timer (pkg/runner/grpc.go:343): the idle branch may be taken whenever the worker selects, which allows more runs than five seconds of silence would.
- Progress: that a queued request is eventually answered is not promised by the code (the result channel is unbuffered and its caller may have left).
- After the tick, that a process does not panic is not promised by the code (the assertions at pkg/runner/instances.go:59 and 66 and the send on the closed queue can fail); properties are about states up to a panic.
- Only one download ever for each path: the file check precedes the claim (pkg/runner/grpc.go:162, 180), so only "one in flight" holds.
- Collision resistance of SHA-256: the hash is any function from bytes to 32 bytes, and a mixture of two uploads with the same hash is one of the listed outcomes.
- InMemoryCaching.Replay: what the tables mean after an update that was not clean is not described, only that no cache is represented right after it.
- gRPC and HTTP clients and servers, middleware, logging, tracing, metrics and request metadata: plumbing over other libraries.
- Process spawning, ports, signals and the byte-level file work of a download: a download publishes its file atomically or fails.
- SQLite, migrations and generated queries: the database is two tables with unique hash and unique address.
- The gateway, the load tester, containers and documentation: forwarding, user interface and deployment.
- CommanderSteps.RunKeepsInv: the lookup of the function row and the parsing of its id inside a cold start are folded into the outcome of the prepare step, because they touch no shared state.
- Retry.WithRetry: when the context is done and the wait elapses at the same moment, which of the two wins is a parameter.

# Resonate: the durable promise protocol, verified

A Dafny model of the Resonate Rust SDK: the in-memory durable promise/task
server, and the worker protocol that runs workflows on top of it.

`dafny verify dfyconfig.toml` checks the whole project.

## What is modelled

**The server** (`network.rs`). `Protocol.dfy` has the entities, the requests and
the replies; `Requests.dfy` says what each request and each clock tick does to
the server as a value; `Settlement.dfy` defines the one thing half of them have
in common, a batch of promises settling together. `ServerState.dfy` is the
server itself: a class with the source's maps, timer vectors and outgoing
buffer, one method per operation, the five phases of the tick as loops. Each
method is proved to do to the abstract server exactly what the function says,
for every order in which a vector or a hash set may be walked.

What the server promises is then proved about those functions, and lifted from
one step to whole runs of arbitrary requests and ticks (`Runs.dfy`):

| file | result |
|---|---|
| `Invariant.dfy` | the global invariant, and exactly which requests break it |
| `Progress.dfy`, `Runs.dfy` | settlement is final; one lease per version; stale fences are refused |
| `Observable.dfy` | what each request expires, stores, sends and answers, field by field |
| `Tasks.dfy` | every transition of a task, and a tick in one table |
| `Replies.dfy` | replies show the state they leave; what an error changes, exactly |
| `Wakeups.dfy` | no lost wakeup |
| `Notifications.dfy` | every subscriber is told, and told the truth |
| `Expiry.dfy` | lazy expiry agrees with the tick; a tick is complete |
| `Dispatch.dfy` | execute messages are exact |
| `Timestamps.dfy` | timestamps tell what settled a promise, and when |
| `Redirects.dfy` | the redirect loop terminates |
| `Leases.dfy` | heartbeats half a lease apart keep the lease |

**The worker.** `Workflows.dfy` has workflows as interaction trees and their
direct evaluation. `Replay.dfy` is durable execution itself: any number of
attempts as small-step machines, each with a cache of its own, that may crash or
lose the lease anywhere. `Contexts.dfy` is structured concurrency, with the context as a class and the
flush as a loop. `Core.dfy` is the execute/suspend/redirect loop, as a class that
talks to the server while everybody else does. `Cache.dfy` is the effects cache,
`Sequencing.dfy` the creation sequencer, `Ids.dfy` the id scheme, and
`Subscriptions.dfy` the handle protocol between a client and the server.

Concurrency is modelled as interleaving: a run is a sequence of steps, each
taken by anyone. Clocks, message delays, crashes, user functions, what remote
calls answer and what a hash returns are all parameters of the statements.

## What the code does not promise

Some of what one would expect is false of the code. In each case the model keeps
the code's behaviour and a lemma says exactly when the expectation holds.

- The server accepts `promise.settle` with the state `pending`, and
  `task.fulfill` through a promise that is not the task's own. These two, and no
  other requests, break the global invariant (`Invariant.ApplyKeepsInvExactly`).
  The SDK's types rule both out; every other result assumes so (`WellFormed`).
- `task.suspend` skips awaited ids that do not exist, so an accepted suspend
  awaits everything it names exactly when all of it exists
  (`Wakeups.SuspendAwaitsAllExactly`), and a task suspended on nothing sleeps
  until its own promise settles (`Wakeups.UnwaitedTaskSleeps`).
- A malformed request (one that lacks a worker, an address or a task id, and is
  refused with an `Err`) still expires what it touches, and the unblock messages
  that queues are thrown away. What a client waits for stays covered exactly when
  the event is not a malformed request that touches it while it is overdue
  (`Subscriptions.CoveredExactly`, `Subscriptions.RefusedSettlesExactly`), and any
  overdue promise can be lost that way (`Subscriptions.RefusalSwallows`). Where
  nobody sends malformed requests nothing is lost (`Subscriptions.NobodyMalformed`).
- A watch channel without receivers refuses what is sent, so a settled record is
  heard exactly when a handle is still listening (`Subscriptions.HeardExactly`). The
  next refresh repairs both kinds of loss (`Subscriptions.RefreshRepairs`).
- A failed request does no more than lazy expiry, except a heartbeat that names a
  live lease of its worker, due to move, ahead of its first malformed reference
  (`Replies.ErrorsChangeNothingExactly`, `Replies.HeartbeatFailsHalfWay`).
- A leaf whose promise is settled can run again: by an attempt that has lost the
  lease and whose cache still has it pending, and by no other
  (`Replay.LeafRerunsExactly`, `Replay.StaleAttemptReruns`), which cannot settle it.
- A worker that has lost the lease can reject the whole workflow. Its next create or
  settle is refused, the refusal surfaces as the result of its user code, and the
  unfenced fulfil that follows is accepted whenever somebody else holds the task
  (`Core.RefusedFenceRejects`, `Replay.RefusalRejects`). A workflow finishes with its
  direct value if and only if that does not happen (`Replay.DurableExactly`), and with
  the refusal otherwise (`Replay.ExecutionIsDurable`).
- An error never reads back from storage as itself: it returns as an application
  error quoting the original's text. So a local result survives replay exactly
  when it is a value (`Workflows.ReplaysExactly`, `Replay.CrashShows`); the
  durability theorem is about workflows whose leaves and nested workflows
  complete with values.
- An awaited child whose background creation failed hands the error to user code
  and drops its todos; if user code carries on, the parent is fulfilled although
  something is still pending (`Contexts.AwaitedChildSwallows`); for every tree, exactly
  the calls below such children are forgotten
  (`Contexts.AwaitedChildrenSwallowExactly`). The worker releases
  the task exactly when a background creation failed, or the stored value of a
  spawned run does not decode, here or through spawned children only, to any depth
  (`Contexts.DecisionIsExact`).
- `task.release`, `task.fulfill`, `task.suspend` and `task.acquire` do not look at
  the lease version, only `task.fence` and `task.heartbeat` do. No fencing is
  claimed for the others. A release or a suspend by a worker that has lost the lease
  takes the task from whoever holds it: where the results below say that nobody holds
  the task afterwards, that may be how.
- The comment in `core.rs` says that fulfilling a task whose promise is already
  settled "just transitions the task to its terminal state". Against this server
  the task is already over and the request is refused
  (`Core.FulfilSettledIsRefused`).

## Model

| member | source | states |
|---|---|---|
| `Protocol.SaturatingAdd` | resonate/src/network.rs:1031 | exact unless it would leave the 64-bit range, where it stays at the bound |
| `ServerStates.ServerState.constructor` | resonate/src/network.rs:170-179 | a new server stands for the empty server |
| `ServerStates.ServerState.SetPTimeout` | resonate/src/network.rs:1316-1325 | the id has one promise timer, at the given time; all other timers stay, in any vector order |
| `ServerStates.ServerState.DelPTimeout` | resonate/src/network.rs:1327-1329 | the id has no promise timer; all others stay |
| `ServerStates.ServerState.SetTTimeout` | resonate/src/network.rs:1331-1342 | the id has one task timer, of the given kind and time; all others stay |
| `ServerStates.ServerState.DelTTimeout` | resonate/src/network.rs:1344-1346 | the id has no task timer; all others stay |
| `ServerStates.ServerState.SendExecuteMessage` | resonate/src/network.rs:1348-1371 | afterwards the buffer holds exactly one execute message for the task, the new one; no other message changes |
| `ServerStates.ServerState.EnqueueSettle` | resonate/src/network.rs:1181-1222 | the task of the promise ends (or is made, ended, if a target has none), its timer goes, and it awaits nothing any more |
| `ServerStates.ServerState.ResumeAwaiters` | resonate/src/network.rs:1224-1264 | every suspended awaiter is pending under its next version with a retry timer and one message, every live one has the promise among its resumes, in whatever order the set is walked |
| `ServerStates.ServerState.NotifySubscribers` | resonate/src/network.rs:1266-1289 | one unblock message with the record per subscriber, and no subscriber left |
| `ServerStates.ServerState.TryAutoTimeout` | resonate/src/network.rs:1157-1179 | an overdue pending promise is settled at its deadline with everything that follows; anything else is left alone |
| `ServerStates.ServerState.GetPromise` | resonate/src/network.rs:364-380 | the record if there is one, otherwise not found; an empty id is refused |
| `ServerStates.ServerState.CreatePromise` | resonate/src/network.rs:382-487 | idempotent; born settled when already expired; otherwise pending, with task, timers and message (deferred by the delay tag) when it has a target |
| `ServerStates.ServerState.SettlePromise` | resonate/src/network.rs:489-528 | first settle wins and has all its consequences; later ones answer the record |
| `ServerStates.ServerState.RegisterListener` | resonate/src/network.rs:530-553 | a pending promise gains the subscriber; a settled one answers its record |
| `ServerStates.ServerState.CreateTask` | resonate/src/network.rs:559-706 | all five cases: lend a pending task, report a finished one, conflict, born expired, born acquired |
| `ServerStates.ServerState.AcquireTask` | resonate/src/network.rs:708-749 | only a pending task is lent; its resumes are forgotten and a lease timer replaces the retry timer |
| `ServerStates.ServerState.ReleaseTask` | resonate/src/network.rs:751-785 | an acquired task is pending under the next version and dispatched again |
| `ServerStates.ServerState.FulfillTask` | resonate/src/network.rs:787-854 | the action's promise is settled if pending, the task ended, and the promise's awaiters and subscribers told; task id and promise id kept apart as in the source |
| `ServerStates.ServerState.FenceTask` | resonate/src/network.rs:856-913 | the inner create or settle happens exactly when the lease is held under that version |
| `ServerStates.ServerState.SuspendTask` | resonate/src/network.rs:915-1009 | redirected when there are resumes or something awaited has settled, registered with every pending awaited promise in both of the latter cases |
| `ServerStates.ServerState.Heartbeat` | resonate/src/network.rs:1011-1038 | renews every matching lease up to the first malformed reference |
| `ServerStates.ServerState.Apply` | resonate/src/network.rs:181-261 | clears the buffer, expires what the request touches in order, then handles it |
| `ServerStates.ServerState.CollectDuePromises` | resonate/src/network.rs:269-277 | exactly the due pending promises, once each |
| `ServerStates.ServerState.CollectDueTasks` | resonate/src/network.rs:278-297 | exactly the expired leases with their versions and exactly the due retries, once each |
| `ServerStates.ServerState.Tick` | resonate/src/network.rs:263-358 | the five phases in loops come to three simultaneous batches: settle, release, retry |
| `ServerStates.TicksAlike` | resonate/src/network.rs:263-358 | the order of vectors, buffer and hash sets makes no difference to a tick |
| `Settlement.FulfillStep` | resonate/src/network.rs:313-316 | ending tasks one promise at a time is ending them together |
| `Settlement.AnnounceStep` | resonate/src/network.rs:317-321 | waking and notifying one promise at a time, in any order, is doing it together |
| `Requests.ReleaseStep` | resonate/src/network.rs:323-342 | releasing leases one at a time is releasing them together |
| `Requests.RetryStep` | resonate/src/network.rs:344-357 | retrying tasks one at a time is retrying them together |
| `Invariant.SettleIs` | resonate/src/network.rs:1181-1289 | what a batch of promises settling leaves behind, promise by promise and task by task |
| `Invariant.SettleCalls` | resonate/src/network.rs:1224-1264 | the messages a settling batch adds: one per woken task with an address, under its next version |
| `Invariant.SettleKeepsInv` | resonate/src/network.rs:297-321 | a settling batch restores the invariant it breaks on the way |
| `Invariant.ApplyKeepsInvExactly` | resonate/src/network.rs:181-261 | a request keeps the global invariant if and only if it is not one of the two the server should refuse |
| `Invariant.TickKeepsInv` | resonate/src/network.rs:263-358 | a tick keeps the global invariant: timers exact, every task has its promise and ends with it, settled promises have no one left to tell, only live tasks await |
| `Observable.LazyExpiryExactly` | resonate/src/network.rs:181-261 | before a request is handled exactly the overdue promises it names end, each by its deadline, and no other record changes |
| `Observable.NoReplyShowsOverdue` | resonate/src/network.rs:364-380 | no reply ever shows the promise asked about as pending when it is overdue |
| `Observable.CreateDispatches` | resonate/src/network.rs:382-487 | a fresh create stores exactly what was asked; with a target it comes with a pending task, and either its execute message goes out at once with the retry half a minute ahead, or, delayed, nothing goes out and the retry stands at that moment |
| `Observable.FencedCreateDispatches` | resonate/src/network.rs:856-913 | through a fence the same if and only if the lease is held under that version and its promise is not overdue; otherwise a conflict, and nothing is created |
| `Observable.ExpiredCreateIsSilent` | resonate/src/network.rs:404-421 | a create past its deadline stores a promise ended by it, with its task over, and sends nothing |
| `Observable.CreateTwice` | resonate/src/network.rs:390-395 | a create of what is there changes nothing and answers, as a get does, the record |
| `Observable.SettleTakesEffect` | resonate/src/network.rs:489-528 | a settle of a pending promise takes effect as asked; of one that is overdue, or has settled, it answers what the deadline or the first settle left |
| `Observable.FencedSettleTakesEffect` | resonate/src/network.rs:856-913 | through a fence the same if and only if the lease is held under that version; otherwise a conflict, and the promise stays as it is |
| `Observable.ListenerJoins` | resonate/src/network.rs:530-553 | a listener is added to a pending promise and to nothing else, and told the record |
| `Observable.PreloadsAreExact` | resonate/src/network.rs:1291-1306 | every preload holds exactly the other promises on the branch of the task's promise, as the reply leaves them |
| `Observable.FulfilGrantedExactly` | resonate/src/network.rs:787-854 | a fulfil is accepted if and only if somebody holds the task and its promise is not overdue |
| `Observable.SuspendGrantedExactly` | resonate/src/network.rs:915-1009 | a suspend is accepted if and only if, besides, the task has no resumes and nothing named has settled or is overdue; otherwise redirected |
| `Observable.RefusedExactly` | resonate/src/network.rs:181-261 | refused if and only if a field it needs is missing, not found if and only if it lacks nothing and what it is for is not there |
| `Tasks.AcquireIs` | resonate/src/network.rs:708-749 | an acquire gets the task if and only if it is pending and its promise not overdue: under the same version, without resumes, for the ttl asked for and at least a millisecond |
| `Tasks.CreateExistingIs` | resonate/src/network.rs:573-612 | a create of a task that is there lends it when pending, reports it when over, and otherwise conflicts |
| `Tasks.CreateLends` | resonate/src/network.rs:623-706 | a create of a new task stores the promise as asked and lends the task at once, sending nothing |
| `Tasks.CreateExpiredTaskIs` | resonate/src/network.rs:632-664 | a create of a new task past its deadline stores promise and task as over, lends and sends nothing |
| `Tasks.ReleaseIs` | resonate/src/network.rs:751-785 | a held task is pending under the next version with its resumes, called again, and everything else stays; any other release conflicts |
| `Tasks.SuspendIs` | resonate/src/network.rs:915-1009 | a suspend that nothing has stirred parks the task on every pending promise it names and adds it to no other; a redirected one keeps its lease, forgets its resumes, and joins those promises only if it had none; a task not held conflicts |
| `Tasks.HeartbeatIs` | resonate/src/network.rs:1011-1038 | a lease timer is set to a whole ttl from now if and only if a reference ahead of the first malformed one names that lease of that worker; nothing else changes |
| `Tasks.TickIsExact` | resonate/src/network.rs:263-358 | what the five phases together do to a task: ended with its promise, woken by what it awaits, an expired lease taken, a due retry called again, or left, with its resumes, timer and message in each case |
| `Tasks.TickIsExactForPromises` | resonate/src/network.rs:297-321 | a targeted promise past its deadline ends by it and lets go of everyone; any other keeps its record, its subscribers, and its awaiters that have not ended |
| `Runs.ReachableInv` | resonate/src/network.rs:1938-1946 | every state of every run from the empty server satisfies it |
| `Progress.ApplyAdvances` | resonate/src/network.rs:181-261 | a request never changes a settled record, never lowers a version, and within a version only moves a task forward |
| `Progress.TickAdvances` | resonate/src/network.rs:263-358 | nor does a tick |
| `Runs.SettlementIsFinal` | resonate/src/network.rs:507-516 | a promise settled at one point of a run is the same promise at every later point |
| `Runs.OneLeasePerVersion` | resonate/src/network.rs:573-612 | in any run at most one create or acquire is answered acquired for a given task and version |
| `Runs.LeaseLeft` | resonate/src/network.rs:324-342 | a lease held once and not any more is gone for good |
| `Runs.StaleFenceRefused` | resonate/src/network.rs:871-877 | from then on every fence under that version conflicts and does no more than lazy expiry |
| `Replies.RepliesAreCurrent` | resonate/src/network.rs:1291-1306 | every record, task and preload snapshot in a reply is the server's once the request is done |
| `Replies.ErrorsChangeNothingExactly` | resonate/src/network.rs:181-261 | a failed, unfound or conflicting request does no more than lazy expiry if and only if it is not a heartbeat that names a live lease, due to move, ahead of its first malformed reference |
| `Replies.BeatsAt` | resonate/src/network.rs:1011-1038 | a heartbeat, refused or not, sets exactly the timers of the leases it names ahead of the first malformed reference, and no other |
| `Replies.HeartbeatFailsHalfWay` | resonate/src/network.rs:1019-1033 | any lease whose timer is not there yet is moved by a heartbeat that fails |
| `Wakeups.NoLostWakeup` | resonate/src/network.rs:1224-1264 | after any step a suspended task still awaits the promise, or is pending at the next version, dispatched, with its cause recorded, or is finished |
| `Wakeups.SuspendedTasksAwait` | resonate/src/network.rs:915-1009 | in every reachable state a suspended task awaits every existing promise its last suspend named, and all are pending |
| `Wakeups.NoLostWakeupInRuns` | resonate/src/network.rs:1224-1264 | the very event that settles such a promise wakes the task under the next version with it among the resumes and dispatches it to its address, or finishes the task |
| `Wakeups.SuspendAwaitsAllExactly` | resonate/src/network.rs:983-985 | an accepted suspend awaits all it named if and only if all of it exists |
| `Wakeups.UnwaitedTaskSleeps` | resonate/src/network.rs:1224-1264 | settling leaves a suspended task as it is if and only if it awaits none of the batch and does not own one |
| `Notifications.SubscribersAreTold` | resonate/src/network.rs:1266-1289 | whichever step settles a promise sends its record to every subscriber, and only settled current records are ever sent |
| `Notifications.UnblocksAreExact` | resonate/src/network.rs:1266-1289 | a step sends exactly one unblock message to each address subscribed to a promise it settles, with the record it leaves, and no other |
| `Expiry.SettleInTwoBatches` | resonate/src/network.rs:297-321 | settling in two batches is settling in one, but for versions of tasks that end on the way |
| `Expiry.LazyExpiryAgreesWithTick` | resonate/src/network.rs:1157-1179 | lazy expiry and then a tick reach the same promises, timers and unfinished tasks as the tick alone |
| `Expiry.TickLeavesNothingDue` | resonate/src/network.rs:263-358 | after a tick no targeted promise is overdue, no lease expired, no retry due |
| `Expiry.TickTwice` | resonate/src/network.rs:263-358 | a second tick at the same time finds nothing to do |
| `Expiry.DueRetriesAreSent` | resonate/src/network.rs:344-357 | every due retry whose promise is not due is dispatched under its current version and stays pending |
| `Dispatch.ExecuteMessagesExact` | resonate/src/network.rs:1348-1371 | a step leaves at most one execute message per task, to its address, under its current version, and never for a task somebody holds |
| `Timestamps.RecordsAreTimely` | resonate/src/network.rs:404-421 | in every reachable state every settled record has one of the two shapes below, and every pending one lies between its creation and its deadline |
| `Timestamps.StepTellsHow` | resonate/src/network.rs:507-516 | the step that settles a promise writes what it was: a request for that promise writes the state and value it asks for and the present moment, not before creation and strictly before the deadline; a tick, lazy expiry or a creation past its deadline writes the deadline, a null value, and resolved for a timer, timed out for anything else |
| `Timestamps.TimestampsTellHow` | resonate/src/network.rs:195-238 | over a whole run: every settled promise was settled by one of its events, and at the end its record still says which kind of event, when, and with what state and value |
| `Redirects.HandleEdits` | resonate/src/network.rs:915-1009 | all that a request which settles nothing can do to any task |
| `Redirects.UnsettledAtPassStart` | resonate/src/core.rs:276-377 | what the worker saw pending since its last redirect had not settled when that pass began |
| `Redirects.RedirectsAreBounded` | resonate/src/core.rs:276-377 | in any run, whatever others do, the worker's own redirects never outnumber the promises that settled since the acquire, given that it suspends on what it saw pending since its last redirect |
| `Redirects.RedirectExactly` | resonate/src/network.rs:937-995 | a suspend is redirected if and only if something has resumed the task or something it names has settled |
| `Leases.HeartbeatsKeepTheLease` | resonate/src/network.rs:1011-1038 | heartbeats applied at most half a ttl apart keep the lease over any run in which nobody gives it up and the promise stays pending |
| `Leases.TickKeepsLeaseExactly` | resonate/src/network.rs:278-288 | a tick takes an acquired task away if and only if its lease timer is due |
| `Leases.GrantStartsTenure` | resonate/src/network.rs:573-612 | every create or acquire that is granted starts a lease under the version replied, for the ttl asked for (an acquire's raised to at least one) |
| `Leases.GrantedLeaseIsKept` | resonate/src/resonate.rs:185 | from grant to any later point: on-time heartbeats keep a lease of at least a millisecond, whoever else does what short of giving it up |
| `Ids.DecodeEncode` | resonate/src/ids.rs:49-64 | an id gives back its root and its path, and its origin is the root |
| `Ids.OriginRecoveredExactly` | resonate/src/ids.rs:62-64 | the origin of an id below a root is the root if and only if the root holds no colon |
| `Ids.DecimalReadsBack` | resonate/src/context.rs:137-140 | sequence numbers read back from their digits |
| `Ids.IdsAreUnique` | resonate/src/context.rs:451-456 | two operations under any roots, nested and detached to any depth, with one id are one operation, or two ids hashed on the way collide |
| `Ids.DetachedIsNeverNumbered` | resonate/src/context.rs:451-456 | a detached id is never a numbered one, whatever the hash |
| `Ids.ContextsFollowCalls` | resonate/src/context.rs:577-596 | the ids contexts mint, whoever builds the context, are those the uniqueness result speaks of |
| `Ids.MintedIsAccepted` | resonate/src/test_utils.rs:727-764 | every create request minted below a validated root meets the server's origin, branch and parent rules |
| `Ids.BranchesFollowContexts` | resonate/src/context.rs:190-219 | a local run stays on its context's branch, remote and detached calls start their own; the parent is the context, or the origin for a detached call; the origin is the root |
| `Ids.NumeralParses` | resonate/src/network.rs:455-458 | a signed numeral is read as its number if it fits 64 bits, and not at all if it does not |
| `Sequencing.StepKeepsValid` | resonate/src/sequencing.rs:118-149 | every step of every slot keeps slots linked, requests in order and gated on success |
| `Sequencing.CreationsFollowClaims` | resonate/src/sequencing.rs:47-51 | in every interleaving requests go out in claim order on a prefix of the slots, each after its predecessor succeeded |
| `Sequencing.NothingAfterALoss` | resonate/src/sequencing.rs:118-149 | after a failure or a drop no later slot ever sends a request |
| `Sequencing.PhasesTellExactly` | resonate/src/sequencing.rs:118-149 | over any run a slot is created if and only if the server said yes to its request, failed if and only if it said no or the slot gave up, dropped if and only if its task was |
| `Sequencing.LowestCanMove` | resonate/src/sequencing.rs:118-149 | the lowest slot in flight can always proceed, abort or finish by itself |
| `Sequencing.OthersCannotSend` | resonate/src/sequencing.rs:118-149 | a slot with one in flight before it can send nothing; it can abort if and only if it waits and the slot just before it is lost |
| `Sequencing.RunsAreBounded` | resonate/src/sequencing.rs:118-149 | so many claims allow at most two further steps each, so no slot waits forever |
| `Sequencing.StoppedMeansSettled` | resonate/src/sequencing.rs:118-149 | where a run stops every slot is created or lost, and everything after a lost one is lost |
| `Sequencing.IdAnswersExactly` | resonate/src/sequencing.rs:80-94 | `id()` answers the id once the server has said yes to the creation, an error once it has said no or the slot has given up or been dropped, and nothing before that |
| `Sequencing.IdMeansCreated` | resonate/src/sequencing.rs:80-94 | `id()` succeeds only for a created promise whose predecessors are created, and never changes its answer |
| `Sequencing.CreationSequencer.ClaimSlot` | resonate/src/sequencing.rs:47-51 | the new slot's predecessor is the last one claimed |
| `Sequencing.CreationSequencer.Gate` | resonate/src/sequencing.rs:118-138 | go on exactly when the predecessor was created, abort when it failed or was dropped |
| `Sequencing.CreationSequencer.Answered` | resonate/src/sequencing.rs:139-149 | the slot is created or failed as the server says, and nothing else moves |
| `Sequencing.CreationSequencer.TaskDropped` | resonate/src/sequencing.rs:126-129 | a slot dropped in flight is lost for good |
| `Workflows.SettleKeepsCovers` | resonate/src/context.rs:797-862 | settling what a workflow is waiting for keeps its promises an exact account of how far it got |
| `Workflows.EndedIsDirect` | resonate/src/context.rs:797-862 | once replay reaches the end, what it ends with is the direct value |
| `Replay.SameFrontier` | resonate/src/context.rs:797-862 | wherever an attempt that holds the lease is in its nested contexts, what it faces next is what the promises say comes next |
| `Replay.AbsorbIsInsert` | resonate/src/effects.rs:51-60 | what an attempt takes in follows the rule of the worker's promise cache, with records read as results |
| `Replay.StepKeepsValid` | resonate/src/core.rs:276-377 | every step of every attempt, crash, loss of the lease, refused fence, redirect and answer to a remote call keeps the promises an exact account and every attempt on its track |
| `Replay.StepKeepsEnding` | resonate/src/core.rs:314-348 | no step but a refusal while another attempt holds the lease makes the workflow end otherwise than by itself |
| `Replay.ExecutionIsDurable` | resonate/src/core.rs:276-377 | whatever attempts crashed, suspended or lost the lease, with whatever in their caches, a workflow that finishes does so with the value of one direct evaluation, or, if an attempt was refused while another held the lease, with that refusal |
| `Replay.DurableExactly` | resonate/src/core.rs:319-348 | it has its direct value if and only if no refusal came while the workflow was open and another attempt held the lease, but for a workflow whose value is that refusal |
| `Replay.RefusalRejects` | resonate/src/network.rs:787-854 | it does happen: a workflow is rejected with nothing settled while its rightful attempt is running |
| `Replay.SettledLeafNeverRuns` | resonate/src/effects.rs:75-80 | the holder of the lease never runs again a leaf that any attempt has settled, whatever its own cache was fed |
| `Replay.LeafRerunsExactly` | resonate/src/effects.rs:75-80 | an attempt at a settled leaf runs it again if and only if its cache has it pending, and then it has lost the lease and cannot settle it |
| `Replay.StaleAttemptReruns` | resonate/src/network.rs:871-877 | such an attempt exists |
| `Replay.ReplayIsEnough` | resonate/src/context.rs:624-638 | when everything has settled, one more attempt finishes by reading alone |
| `Replay.NeverStuck` | resonate/src/context.rs:797-862 | while somebody holds the lease no attempt is stuck: it has a next step, asks to suspend or to end, or is refused |
| `Replay.StartsAtTheTop` | resonate/src/core.rs:276-377 | an attempt that starts or is redirected is at the top of the workflow, and knows exactly what it was given of the promises there are, as the server has them |
| `Replay.EndingLetsGo` | resonate/src/core.rs:110-175 | an attempt that crashes, is refused, suspends or finishes leaves what is stored and the other attempts alone; a suspension or a finish takes the task from whoever holds it, and a suspended workflow can be started again |
| `Replay.CanAlwaysGetOn` | resonate/src/context.rs:797-862 | whatever became of earlier attempts, one new attempt that knows nothing can settle what the workflow waits for: a leaf with what it returns, a remote call with its answer, a nested workflow with what it ended with |
| `Workflows.ReplaysExactly` | resonate/src/codec.rs:125-144 | a result reads back as itself if and only if it is a value |
| `Workflows.ReportReadsBack` | resonate/src/codec.rs:125-144 | a promise settled with a result reads back as the stored form of that result |
| `Replay.CrashShows` | resonate/src/codec.rs:125-144 | a crash after a leaf is visible in the workflow's result if and only if the leaf failed |
| `Contexts.CollectFailsExactly` | resonate/src/context.rs:501-551 | collection fails if and only if a background creation failed or a spawned run's stored value did not decode, here or through spawned children at any depth |
| `Contexts.CollectedAreKept` | resonate/src/context.rs:546-551 | otherwise it collects exactly the pending remote calls, less those of awaited children whose own collection failed |
| `Contexts.FirstFailureWins` | resonate/src/context.rs:501-539 | the failure reported is that of the first background task to break; where none breaks, the todos are all of theirs, in order |
| `Contexts.PendingDistinct` | resonate/src/context.rs:137-140 | no remote call is pending twice |
| `Contexts.SuspendedHasTodos` | resonate/src/context.rs:754-767 | the suspension error never surfaces with nothing to wait for |
| `Contexts.DecisionIsExact` | resonate/src/core.rs:314-359 | release if and only if something in the background was lost, fulfil if and only if nothing kept is pending, else suspend on exactly that |
| `Contexts.ConcurrencyIsStructured` | resonate/src/core.rs:314-359 | with every creation successful and every value decodable: fulfilled if and only if nothing is pending anywhere in the tree, else suspended on each pending call once |
| `Contexts.AwaitedChildrenSwallowExactly` | resonate/src/context.rs:845-861 | whatever was lost below awaited children of a workflow that is not released: it is fulfilled if and only if every pending call is hidden below one of those, and otherwise suspended on exactly the others |
| `Contexts.AwaitedChildSwallows` | resonate/src/context.rs:845-861 | a workflow can be fulfilled although an awaited child lost a creation and left a call pending |
| `Contexts.Context.NextId` | resonate/src/context.rs:137-140 | the next path below the context, and the counter moved by one |
| `Contexts.Context.FlushLocalWork` | resonate/src/context.rs:501-539 | joins every background task even after a failure; the first failure wins, otherwise all their todos in order |
| `Contexts.Context.CollectRemoteTodos` | resonate/src/context.rs:546-551 | own todos first, then the spawned ones; own todos drained even on failure |
| `Contexts.Background` | resonate/src/context.rs:707-782 | how a background task ends, for every mode and fate of its operation, an undecodable stored value included |
| `Contexts.Execute` | resonate/src/context.rs:797-862 | running a tree of operations on contexts, nested to any depth, collects what the specification says |
| `Core.NamesAreDistinct` | resonate/src/context.rs:137-140 | below any context, one id means one path |
| `Core.FulfilLeaves` | resonate/src/core.rs:426-450 | after a fulfil nobody holds the task; if it was accepted the promise holds the worker's outcome |
| `Core.SuspendLeaves` | resonate/src/core.rs:453-470 | after a suspend that is not redirected nobody holds the task; if accepted it awaits everything named, all of it pending |
| `Core.AwaitedWasUnsettled` | resonate/src/effects.rs:75-121 | what a pass found pending through its cache exists, and had not settled when the pass began |
| `Core.PassIsPaidFor` | resonate/src/core.rs:357-377 | a pass that ends in a redirect saw a promise settle |
| `Core.Worker.Loop` | resonate/src/core.rs:276-377 | the redirect loop ends if finitely many promises settle, with at most one redirect for each that settled since entry; it completes, or parks, if and only if its last pass left nothing, or something, to wait for and the server grants and answers the request, and the promise then reads back as that pass's result |
| `Core.RefusedFenceRejects` | resonate/src/send.rs:620-631 | with the task held under another version: a fence is refused, a pass that hands the refusal on is one to fulfil, and the fulfil is accepted and rejects the promise |
| `Core.FulfilSettledIsRefused` | resonate/src/core.rs:228-258 | fulfilling a task whose promise has settled is refused |
| `Core.Worker.Execute` | resonate/src/core.rs:177-377 | completed if and only if the last pass left nothing to wait for and its fulfil was granted and answered, and then the promise is resolved with the value or rejected with the error's text; parked likewise, waiting for every call the last pass left pending; an unknown function or a promise already settled always fails; redirects bounded as above |
| `Core.Worker.ExecuteUntilBlocked` | resonate/src/core.rs:110-175 | the same, and besides: completed or parked, nobody holds the task; failed, nobody does once the release has arrived; the heartbeat is off; only a timer not yet due is dropped |
| `Cache.CacheIsCoherent` | resonate/src/effects.rs:51-71 | under any interleaving and with any stale snapshots no cached record is ahead of the server and a settled one equals the server's |
| `Cache.AbsorbedKeepsUp` | resonate/src/effects.rs:51-71 | after a merge every entry is at least what it was and every record that came is known, and no other entry has changed |
| `Cache.CacheForgetsNothing` | resonate/src/effects.rs:51-71 | under any interleaving the cache has at least every record that ever arrived, and a settled one for good |
| `Cache.SettleFromCache` | resonate/src/effects.rs:129-134 | a settle answered from the cache is what the server would answer, and would have changed nothing |
| `Cache.CreateFromCache` | resonate/src/effects.rs:75-80 | a create answered from the cache would have created nothing |
| `Cache.FenceAnswerSpeaks` | resonate/src/effects.rs:108-115 | what the server answers to a fenced request, preload included, is true of it |
| `Cache.Effects.InsertMonotonic` | resonate/src/effects.rs:51-60 | a settled entry is never overwritten, and any other is |
| `Cache.Effects.Absorb` | resonate/src/effects.rs:65-71 | every decodable record is merged in order under that rule |
| `Cache.Effects.CreatePromise` | resonate/src/effects.rs:75-121 | asks the server exactly when the id is not cached; what it returns is never ahead of the server; nothing cached is forgotten, and all of the answer is known afterwards |
| `Cache.Effects.SettlePromise` | resonate/src/effects.rs:124-174 | asks exactly when no settled record is cached; an answer from the cache is the server's record; a settled answer is cached as it is |
| `Subscriptions.RefusedSettlesExactly` | resonate/src/network.rs:1469-1482 | a request is refused and settles a promise all the same if and only if it is malformed, touches it and finds it overdue |
| `Subscriptions.StepKeepsValid` | resonate/src/resonate.rs:598-634 | no move of client or server loses a settlement the client waits for, but for a malformed request that touches it overdue |
| `Subscriptions.NoLostUnblock` | resonate/src/resonate.rs:713-743 | in any run in which no malformed request touches the promise while overdue, an empty entry whose listener was accepted, and for which nothing arrived unheard, is subscribed at the server or its settled record is in flight; any result held is the server's |
| `Subscriptions.PushesAreExact` | resonate/src/network.rs:1266-1289 | an event that is not refused pushes to a client exactly the records of the promises it listens for that the event settles, once each, and a refused one nothing |
| `Subscriptions.NobodyMalformed` | resonate/src/network.rs:1469-1482 | runs in which nobody else sends malformed requests are such runs |
| `Subscriptions.SettledIsHeard` | resonate/src/resonate.rs:713-743 | in such a run, once everything in flight has arrived, a settled promise's entry holds the state and value of the server's record unless it arrived while no handle was listening |
| `Subscriptions.ResultStays` | resonate/src/resonate.rs:598-634 | once held, a result is never lost or replaced, whatever either party does |
| `Subscriptions.ReceiversAreHandles` | resonate/src/resonate.rs:717-726 | the receivers of an entry are the handles opened less those dropped, in any run |
| `Subscriptions.EarlyPushIsKept` | resonate/src/resonate.rs:598-634 | a push that comes before the first handle is there for it |
| `Subscriptions.HeardExactly` | resonate/src/resonate.rs:598-634 | a settled record that arrives for an entry waited on is heard if and only if a handle is listening, and then its state and value are the server's |
| `Subscriptions.CoveredExactly` | resonate/src/network.rs:1469-1482 | a promise waited for stays covered if and only if the event is not a malformed request that touches it while it is overdue |
| `Subscriptions.RefusalSwallows` | resonate/src/network.rs:1469-1482 | any overdue promise waited for is lost to a `task.create` for it that names no worker |
| `Subscriptions.RefreshRepairs` | resonate/src/resonate.rs:642-690 | a refresh that is answered makes up for whatever was missed |
| `Subscriptions.Subscriber.OpenHandle` | resonate/src/resonate.rs:717-726 | the entry exists with one more receiver; a listener is needed exactly for a new one |
| `Subscriptions.Subscriber.OnAnswer` | resonate/src/resonate.rs:728-740 | a settled record's state and value reach an existing entry that has receivers; a pending one changes nothing |
| `Subscriptions.Subscriber.OnUnblock` | resonate/src/resonate.rs:598-634 | a pushed record's state and value reach its entry, or are kept for a handle opened later |
| `Subscriptions.Subscriber.Refresh` | resonate/src/resonate.rs:642-690 | asks about exactly the empty entries and fills those whose promise has settled with its state and value; no other entry changes |

## Left out

- Schedules: stubs that never fire.
- HTTP, SSE, Postgres, tokio scheduling, tracing, configuration, the procedural macro, the function registry and dependency injection.
- JSON, base64, encryption and the wire envelopes: requests and replies are datatypes, payloads are opaque, and decoding inverts encoding except where a record cannot be decoded. A stored error is its message alone; a rejected promise's value that is not a stored error is not modelled.
- `Protocol.Request` has one form for a missing and an empty string field; the source treats both alike wherever it requires the field. A heartbeat reference without an id, and a create without a deadline, are modelled.
- `task.get`, `task.halt`, searches and every other request kind the in-memory server does not implement: one request, `UnknownKind`, stands for all.
- The halted task state is declared and never entered; `TaskShape` says so.
- 64-bit wrap-around of `now + 30_000` and of versions: integers are unbounded except where the source saturates. The clock is far from the limit.
- The 32-bit sequence counter of a context is taken not to wrap.
- `seahash` is any function to sixteen hex digits; distinctness of detached ids is claimed up to its collisions.
- `Effects::insert_monotonic` is one atomic step; in the source it is a lookup followed by an insert.
- `Replay.ExecutionIsDurable`: operations are awaited in sequence, the suspension error and a refused create or settle are handed on by user code, leaves and nested workflows complete with values, and no deadline passes; spawned operations are the subject of `Contexts.dfy` and `Sequencing.dfy`. An answer from the server is taken in when it is given; `Cache.dfy` lets it arrive late. An awaited create or settle of the holder itself that fails on the way, or whose answer is lost, is not modelled: it surfaces in user code as a refusal does, and handed on it rejects the nested workflows it passes through and the workflow in the same way.
- `Replay.SettledLeafNeverRuns`: only remote promises are settled from outside. The server lets anybody settle a leaf's or a nested workflow's promise, or the workflow's own; a holder that does not know would run the leaf and go on with its own result.
- `Contexts.Execute`: the order of operations and what became of each is given, background tasks run to their end one after the other, and panics in spawned children, which the source only logs, are not modelled.
- `Contexts.Op`: an operation that is built and neither awaited nor spawned uses up a sequence number and does nothing else; it has no case.
- `Contexts.Background`: settling a spawned child's own promise is taken to succeed; the source ignores its failure.
- `Contexts.Fate` has no case for an awaited child whose own settle fails. The code tries that settle only when the child left nothing to wait for, and hands the failure to user code as the call's error, so what is collected is what it would be had the settle succeeded.
- `Contexts.CollectFailsExactly`: a record the cache itself cannot decode makes the creation fail, and counts as that.
- `Core.Worker.Execute`: panics are an outcome of a pass; decoding the promise and looking the function up are one flag. What a pass found waiting is taken to have been pending in its cache, which is the only way the code comes by it.
- `Core.Worker.ExecuteUntilBlocked`: a release that does not arrive leaves the task held until its lease runs out, as in the code, which only logs the failure; a release that arrives is not fenced and ends anybody's lease.
- `Subscriptions.NoLostUnblock`: assumes that no malformed request touches the promise while it is overdue, and says nothing of a record that arrived while no handle was listening; both are cases in which the code does lose it. Messages between the two parties are delayed and reordered but not lost; the refresh exists for when they are.
- `Timestamps.TimestampsTellHow`: the clock of the run does not go backwards; `Leases.HeartbeatsKeepTheLease` assumes the same between a renewal and what follows it.
- Configured ttl values: `Leases.HeartbeatsKeepTheLease` needs only when heartbeats are applied, not how they are scheduled.
- The `ready` bookkeeping of `AsyncHeartbeat` and the retry policy of the transport.

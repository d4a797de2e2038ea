/**
 What each request, and each tick of the clock, does to the server.

 One function per operation of `ServerState` (resonate/src/network.rs), each
 branch for branch, over the abstract `Server`.
 */
module Requests {
  import opened Protocol
  import opened Settlement

  // ---------------------------------------------------------------------
  //  Helpers
  // ---------------------------------------------------------------------

  function Cleared(s: Server): Server {
    s.(executes := map[], unblocks := multiset{})
  }

  function SendExecute(s: Server, id: Id, version: int): Server {
    if TargetOf(s, id).Some? then s.(executes := s.executes[id := Execute(TargetOf(s, id).value, version)]) else s
  }

  predicate Overdue(s: Server, now: int, id: Id) {
    s.PendingPromise(id) && now >= s.promises[id].record.timeoutAt
  }

  /** Lazy expiry: the value written is the one already there. */
  function LazyOutcome(r: Record): Outcome {
    Outcome(TimeoutState(r.tags), r.value, r.timeoutAt)
  }

  function AutoTimeout(s: Server, now: int, id: Id): Server {
    if Overdue(s, now, id) then Settle(s, map[id := LazyOutcome(s.promises[id].record)], now) else s
  }

  function AutoTimeouts(s: Server, now: int, ids: seq<Id>): Server
    decreases |ids|
  {
    if ids == [] then s else AutoTimeouts(AutoTimeout(s, now, ids[0]), now, ids[1..])
  }

  // ---------------------------------------------------------------------
  //  Promise requests
  // ---------------------------------------------------------------------

  function GetPromise(s: Server, id: Id): Reply {
    if id == "" then Failed
    else if id in s.promises then PromiseReply(200, RecordOf(s, id))
    else NotFound
  }

  function Deadline(args: CreateArgs): int {
    if args.timeoutAt.Some? then args.timeoutAt.value else I64_MAX
  }

  /** A promise whose deadline had passed before it was created. */
  function ExpiredRecord(args: CreateArgs): Record {
    Record(TimeoutState(args.tags), args.param, Null, args.tags, Deadline(args), Deadline(args), Some(Deadline(args)))
  }

  function FreshRecord(args: CreateArgs, now: int): Record {
    Record(PromiseState.Pending, args.param, Null, args.tags, Deadline(args), now, None)
  }

  function AddPromise(s: Server, id: Id, r: Record): Server {
    s.(promises := s.promises[id := Promise(r, {}, {})])
  }

  /** The time before which a fresh task must not be dispatched, if any. */
  function DeferredUntil(args: CreateArgs, now: int): Option<int> {
    if TAG_DELAY in args.tags && ParseI64(args.tags[TAG_DELAY]).Some? && now < ParseI64(args.tags[TAG_DELAY]).value
    then ParseI64(args.tags[TAG_DELAY])
    else None
  }

  /** The task, the timers and the message that come with a targeted promise. */
  function AddPendingTask(s: Server, args: CreateArgs, now: int): Server {
    var deferred := DeferredUntil(args, now);
    var s1 := s.(pTimers := s.pTimers[args.id := Deadline(args)],
                 tasks := s.tasks[args.id := Task(TaskState.Pending, 0, None, None, {})],
                 tTimers := s.tTimers[args.id := TaskTimer(Retry, if deferred.Some? then deferred.value
                                                                  else now + PENDING_RETRY_TTL)]);
    if deferred.Some? then s1 else SendExecute(s1, args.id, 0)
  }

  function CreatePromise(s: Server, now: int, args: CreateArgs): (Server, Reply) {
    if args.id == "" then (s, Failed)
    else if args.id in s.promises then (s, PromiseReply(200, RecordOf(s, args.id)))
    else if now >= Deadline(args) then
      var s1 := AddPromise(s, args.id, ExpiredRecord(args));
      (Announce(Fulfill(s1, {args.id}), {args.id}, now), PromiseReply(200, Some(ExpiredRecord(args))))
    else
      var s1 := AddPromise(s, args.id, FreshRecord(args, now));
      (if TAG_TARGET in args.tags then AddPendingTask(s1, args, now) else s1,
       PromiseReply(201, Some(FreshRecord(args, now))))
  }

  function SettlePromise(s: Server, now: int, args: SettleArgs): (Server, Reply) {
    if args.id == "" then (s, Failed)
    else if args.id !in s.promises then (s, NotFound)
    else if s.SettledPromise(args.id) then (s, PromiseReply(200, RecordOf(s, args.id)))
    else
      var o := Outcome(args.state, args.value, now);
      (Settle(s, map[args.id := o], now), PromiseReply(200, Some(Marked(s.promises[args.id].record, o))))
  }

  function AddListener(s: Server, awaited: Id, address: string): (Server, Reply) {
    if awaited == "" || address == "" then (s, Failed)
    else if awaited !in s.promises then (s, NotFound)
    else
      var p := s.promises[awaited];
      (if p.record.Settled() then s
       else s.(promises := s.promises[awaited := p.(subscribers := p.subscribers + {address})]),
       PromiseReply(200, Some(p.record)))
  }

  // ---------------------------------------------------------------------
  //  Task requests
  // ---------------------------------------------------------------------

  /** Hand the task to a worker: a lease replaces the retry timer. */
  function Lend(s: Server, now: int, id: Id, pid: string, ttl: int): Server
    requires id in s.tasks
  {
    s.(tasks := s.tasks[id := s.tasks[id].(state := Acquired, pid := Some(pid), ttl := Some(ttl), resumes := {})],
       tTimers := s.tTimers[id := TaskTimer(Lease, SaturatingAdd(now, ttl))])
  }

  function CreateTask(s: Server, now: int, pid: string, ttl: int, args: CreateArgs): (Server, Reply) {
    if pid == "" || args.id == "" then (s, Failed)
    else if args.id in s.tasks then
      match s.tasks[args.id].state
      case Pending =>
        var s1 := Lend(s, now, args.id, pid, ttl);
        (s1, TaskReply(200, ToTaskRecord(s1.tasks[args.id]), RecordOf(s, args.id), Preload(s, args.id)))
      case Fulfilled =>
        (s, TaskReply(200, ToTaskRecord(s.tasks[args.id]), RecordOf(s, args.id), Preload(s, args.id)))
      case _ => (s, Conflict)
    else if args.id in s.promises then (s, Conflict)
    else if now >= Deadline(args) then
      var s1 := AddPromise(s, args.id, ExpiredRecord(args));
      (s1.(tasks := s1.tasks[args.id := FULFILLED_TASK]),
       TaskReply(200, ToTaskRecord(FULFILLED_TASK), Some(ExpiredRecord(args)), map[]))
    else
      var s1 := AddPromise(s, args.id, FreshRecord(args, now));
      var s2 := if TAG_TARGET in args.tags then s1.(pTimers := s1.pTimers[args.id := Deadline(args)]) else s1;
      var t := Task(Acquired, 0, Some(pid), Some(ttl), {});
      var s3 := s2.(tasks := s2.tasks[args.id := t],
                    tTimers := s2.tTimers[args.id := TaskTimer(Lease, SaturatingAdd(now, ttl))]);
      (s3, TaskReply(201, ToTaskRecord(t), Some(FreshRecord(args, now)), Preload(s3, args.id)))
  }

  function AtLeastOne(ttl: int): int { if ttl < 1 then 1 else ttl }

  function AcquireTask(s: Server, now: int, id: Id, pid: string, ttl: int): (Server, Reply) {
    if id == "" then (s, Failed)
    else if id !in s.tasks then (s, NotFound)
    else if !s.tasks[id].state.Pending? then (s, Conflict)
    else
      var s1 := Lend(s, now, id, pid, AtLeastOne(ttl));
      (s1, TaskReply(200, ToTaskRecord(s1.tasks[id]), RecordOf(s, id), Preload(s, id)))
  }

  /** The leases of `versions` that still stand: same task, still acquired, same version. */
  function Standing(s: Server, versions: map<Id, int>): set<Id> {
    set t | t in versions && t in s.tasks && s.tasks[t].state.Acquired? && s.tasks[t].version == versions[t]
  }

  function Freed(t: Task): Task {
    t.(state := TaskState.Pending, version := t.version + 1, pid := None, ttl := None)
  }

  /** Give up a batch of leases: back to pending under the next version, and dispatched again. */
  function Release(s: Server, versions: map<Id, int>, now: int): Server {
    var freed := Standing(s, versions);
    s.(tasks := map t | t in s.tasks :: if t in freed then Freed(s.tasks[t]) else s.tasks[t],
       tTimers := map t | t in s.tTimers.Keys + freed ::
                    if t in freed then TaskTimer(Retry, now + PENDING_RETRY_TTL) else s.tTimers[t],
       executes := s.executes + Calls(s, freed))
  }

  function ReleaseTask(s: Server, now: int, id: Id): (Server, Reply) {
    if id == "" then (s, Failed)
    else if id !in s.tasks then (s, NotFound)
    else if !s.tasks[id].state.Acquired? then (s, Conflict)
    else (Release(s, map[id := s.tasks[id].version], now), Done)
  }

  function FulfillTask(s: Server, now: int, id: Id, action: Option<Id>, state: PromiseState, value: Json): (Server, Reply) {
    if id == "" then (s, Failed)
    else if id !in s.tasks then (s, NotFound)
    else if !s.tasks[id].state.Acquired? then (s, Conflict)
    else
      var p := if action.Some? then action.value else id;
      var s1 := if s.PendingPromise(p) then Mark(s, map[p := Outcome(state, value, now)]) else s;
      (Announce(Fulfill(s1, {id}), {p}, now), PromiseReply(200, RecordOf(s1, p)))
  }

  predicate HoldsLease(s: Server, id: Id, version: int) {
    s.TaskIs(id, Acquired) && s.tasks[id].version == version
  }

  function Fenced(s: Server, now: int, action: FenceAction): (Server, Reply) {
    match action
    case FenceCreate(args) => CreatePromise(s, now, args)
    case FenceSettle(args) => SettlePromise(s, now, args)
  }

  function FenceTask(s: Server, now: int, id: Id, version: int, action: FenceAction): (Server, Reply) {
    if id == "" then (s, Failed)
    else if id !in s.tasks then (s, NotFound)
    else if !HoldsLease(s, id, version) then (s, Conflict)
    else
      var (s1, inner) := Fenced(s, now, action);
      if inner.Failed? then (s1, Failed)
      else (s1, FenceReply(if inner.PromiseReply? then inner.promise else None, Preload(s1, id)))
  }

  /** Add the task to the awaiters of every listed promise that is pending. */
  function AwaitAll(s: Server, id: Id, awaiting: set<Id>): Server {
    s.(promises := map p | p in s.promises ::
                     if p in awaiting && !s.promises[p].record.Settled()
                     then s.promises[p].(awaiters := s.promises[p].awaiters + {id})
                     else s.promises[p])
  }

  predicate AnySettled(s: Server, ids: set<Id>) {
    exists p | p in ids :: s.SettledPromise(p)
  }

  function Elements(ids: seq<Id>): set<Id> { set i | i in ids }

  function Parked(t: Task): Task {
    t.(state := Suspended, pid := None, ttl := None, resumes := {})
  }

  function SuspendTask(s: Server, id: Id, awaiting: seq<Id>): (Server, Reply) {
    if id == "" then (s, Failed)
    else if id !in s.tasks then (s, NotFound)
    else if !s.tasks[id].state.Acquired? then (s, Conflict)
    else if s.tasks[id].resumes != {} then
      (s.(tasks := s.tasks[id := s.tasks[id].(resumes := {})]), Redirect(Preload(s, id)))
    else
      var s1 := AwaitAll(s, id, Elements(awaiting));
      if AnySettled(s, Elements(awaiting)) then (s1, Redirect(Preload(s, id)))
      else (s1.(tasks := s.tasks[id := Parked(s.tasks[id])], tTimers := s.tTimers - {id}), Done)
  }

  predicate BeatCounts(s: Server, pid: string, r: TaskRef) {
    s.TaskIs(r.id, Acquired) && s.tasks[r.id].pid == Some(pid)
    && (r.version.None? || r.version.value == s.tasks[r.id].version)
  }

  function LeaseLength(t: Task): int {
    if t.ttl.Some? then t.ttl.value else DEFAULT_HEARTBEAT_TTL
  }

  function Beat(s: Server, now: int, pid: string, r: TaskRef): Server {
    if BeatCounts(s, pid, r)
    then s.(tTimers := s.tTimers[r.id := TaskTimer(Lease, SaturatingAdd(now, LeaseLength(s.tasks[r.id])))])
    else s
  }

  /** References before the first malformed one are honoured. */
  function Beats(s: Server, now: int, pid: string, refs: seq<TaskRef>): (Server, Reply)
    decreases |refs|
  {
    if refs == [] then (s, Done)
    else if refs[0].id == "" then (s, Failed)
    else Beats(Beat(s, now, pid, refs[0]), now, pid, refs[1..])
  }

  function Heartbeat(s: Server, now: int, pid: string, refs: seq<TaskRef>): (Server, Reply) {
    if pid == "" then (s, Failed) else Beats(s, now, pid, refs)
  }

  // ---------------------------------------------------------------------
  //  Apply
  // ---------------------------------------------------------------------

  function NonEmpty(ids: seq<Id>): seq<Id> {
    if ids == [] then [] else (if ids[0] == "" then [] else [ids[0]]) + NonEmpty(ids[1..])
  }

  /** The promises a request expires lazily, in order, before it is handled. */
  function Touched(req: Request): seq<Id> {
    match req
    case PromiseGet(id) => [id]
    case PromiseCreate(args) => [args.id]
    case PromiseSettle(args) => [args.id]
    case RegisterListener(awaited, _) => [awaited]
    case TaskCreate(_, _, args) => [args.id]
    case TaskAcquire(id, _, _) => [id]
    case TaskRelease(id) => [id]
    case TaskFulfill(id, _, _, _) => [id]
    case TaskFence(id, _, FenceCreate(args)) => [id, args.id]
    case TaskFence(id, _, FenceSettle(args)) => [id, args.id]
    case TaskSuspend(id, awaiting) => [id] + NonEmpty(awaiting)
    case TaskHeartbeat(_, _) => []
    case UnknownKind => []
  }

  /** The requests that may hand task `t` to a worker. */
  predicate Lends(req: Request, t: Id) {
    (req.TaskCreate? && req.create.id == t) || (req.TaskAcquire? && req.id == t)
  }

  function Handle(s: Server, now: int, req: Request): (Server, Reply) {
    match req
    case PromiseGet(id) => (s, GetPromise(s, id))
    case PromiseCreate(args) => CreatePromise(s, now, args)
    case PromiseSettle(args) => SettlePromise(s, now, args)
    case RegisterListener(awaited, address) => AddListener(s, awaited, address)
    case TaskCreate(pid, ttl, args) => CreateTask(s, now, pid, ttl, args)
    case TaskAcquire(id, pid, ttl) => AcquireTask(s, now, id, pid, ttl)
    case TaskRelease(id) => ReleaseTask(s, now, id)
    case TaskFulfill(id, action, state, value) => FulfillTask(s, now, id, action, state, value)
    case TaskFence(id, version, action) => FenceTask(s, now, id, version, action)
    case TaskSuspend(id, awaiting) => SuspendTask(s, id, awaiting)
    case TaskHeartbeat(pid, refs) => Heartbeat(s, now, pid, refs)
    case UnknownKind => (s, Failed)
  }

  /** The server a request is handled in: buffer cleared, touched promises expired. */
  function Prepared(s: Server, now: int, req: Request): Server {
    AutoTimeouts(Cleared(s), now, Touched(req))
  }

  function Apply(s: Server, now: int, req: Request): (Server, Reply) {
    Handle(Prepared(s, now, req), now, req)
  }

  // ---------------------------------------------------------------------
  //  Tick
  // ---------------------------------------------------------------------

  function DuePromises(s: Server, now: int): set<Id> {
    set id | id in s.pTimers && now >= s.pTimers[id] && s.PendingPromise(id)
  }

  /** The scheduler writes a null value. */
  function DueOutcome(r: Record): Outcome {
    Outcome(TimeoutState(r.tags), Null, r.timeoutAt)
  }

  function DueOutcomes(s: Server, now: int): (o: map<Id, Outcome>)
    ensures o.Keys == DuePromises(s, now)
  {
    map id | id in DuePromises(s, now) :: DueOutcome(s.promises[id].record)
  }

  /** Tasks whose lease has run out, with the version it was granted under. */
  function ExpiredLeases(s: Server, now: int): map<Id, int> {
    map t | t in s.tTimers && now >= s.tTimers[t].at && s.tTimers[t].kind.Lease? && s.TaskIs(t, Acquired) ::
      s.tasks[t].version
  }

  function DueRetries(s: Server, now: int): set<Id> {
    set t | t in s.tTimers && now >= s.tTimers[t].at && s.tTimers[t].kind.Retry? && s.TaskIs(t, TaskState.Pending)
  }

  function StillPending(s: Server, ids: set<Id>): set<Id> {
    set t | t in ids && s.TaskIs(t, TaskState.Pending)
  }

  function Reminders(s: Server, ids: set<Id>): map<Id, Execute>
    requires ids <= s.tasks.Keys
  {
    map t | t in ids && TargetOf(s, t).Some? :: Execute(TargetOf(s, t).value, s.tasks[t].version)
  }

  /** Dispatch again every task of the batch that is still pending. */
  function RetryAll(s: Server, ids: set<Id>, now: int): Server {
    var again := StillPending(s, ids);
    s.(tTimers := map t | t in s.tTimers.Keys + again ::
                    if t in again then TaskTimer(Retry, now + PENDING_RETRY_TTL) else s.tTimers[t],
       executes := s.executes + Reminders(s, again))
  }

  /** Phases 1 to 3 settle, phase 4 releases, phase 5 retries; what each works on
      is collected before phase 1. */
  function Tick(s: Server, now: int): Server {
    RetryAll(Release(Settle(s, DueOutcomes(s, now), now), ExpiredLeases(s, now), now), DueRetries(s, now), now)
  }

  // ---------------------------------------------------------------------
  //  A batch of releases or retries, one task at a time
  // ---------------------------------------------------------------------

  lemma StandingStep(s: Server, versions: map<Id, int>, id: Id, version: int, now: int)
    requires id !in versions
    ensures Standing(s, versions[id := version])
         == Standing(s, versions) + Standing(Release(s, versions, now), map[id := version])
    ensures Standing(s, versions) !! Standing(Release(s, versions, now), map[id := version])
  {
    var m := Release(s, versions, now);
    forall t ensures t in Standing(s, versions[id := version])
                <==> t in Standing(s, versions) || t in Standing(m, map[id := version])
    {
    }
  }

  lemma ReleaseExecutesStep(s: Server, versions: map<Id, int>, id: Id, version: int, now: int)
    requires id !in versions
    ensures Release(Release(s, versions, now), map[id := version], now).executes
         == Release(s, versions[id := version], now).executes
  {
    var m := Release(s, versions, now);
    var a, b := Standing(s, versions), Standing(m, map[id := version]);
    StandingStep(s, versions, id, version, now);
    CallsUnion(s, m, a, b);
    MapSum(s.executes, Calls(s, a), Calls(m, b));
  }

  lemma ReleaseTasksStep(s: Server, versions: map<Id, int>, id: Id, version: int, now: int)
    requires id !in versions
    ensures Release(Release(s, versions, now), map[id := version], now).tasks
         == Release(s, versions[id := version], now).tasks
  {
    StandingStep(s, versions, id, version, now);
  }

  lemma ReleaseTimersStep(s: Server, versions: map<Id, int>, id: Id, version: int, now: int)
    requires id !in versions
    ensures Release(Release(s, versions, now), map[id := version], now).tTimers
         == Release(s, versions[id := version], now).tTimers
  {
    StandingStep(s, versions, id, version, now);
  }

  lemma ReleaseStep(s: Server, versions: map<Id, int>, id: Id, version: int, now: int)
    requires id !in versions
    ensures Release(Release(s, versions, now), map[id := version], now) == Release(s, versions[id := version], now)
  {
    ReleaseExecutesStep(s, versions, id, version, now);
    ReleaseTasksStep(s, versions, id, version, now);
    ReleaseTimersStep(s, versions, id, version, now);
  }

  lemma StillPendingStep(s: Server, ids: set<Id>, id: Id, now: int)
    requires id !in ids
    ensures StillPending(s, ids + {id}) == StillPending(s, ids) + StillPending(RetryAll(s, ids, now), {id})
    ensures StillPending(s, ids) !! StillPending(RetryAll(s, ids, now), {id})
  {
  }

  lemma RetryStep(s: Server, ids: set<Id>, id: Id, now: int)
    requires id !in ids
    ensures RetryAll(RetryAll(s, ids, now), {id}, now) == RetryAll(s, ids + {id}, now)
  {
    var m := RetryAll(s, ids, now);
    StillPendingStep(s, ids, id, now);
    assert RetryAll(m, {id}, now).tTimers == RetryAll(s, ids + {id}, now).tTimers;
    RemindersUnion(s, m, StillPending(s, ids), StillPending(m, {id}));
    MapSum(s.executes, Reminders(s, StillPending(s, ids)), Reminders(m, StillPending(m, {id})));
  }

  lemma RemindersUnion(s: Server, m: Server, a: set<Id>, b: set<Id>)
    requires a + b <= s.tasks.Keys && m.tasks == s.tasks && m.promises == s.promises
    ensures Reminders(s, a + b) == Reminders(s, a) + Reminders(m, b)
  {
  }
}

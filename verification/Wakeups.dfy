/**
 No lost wakeup: a suspended task is woken by the very step that settles a
 promise it awaits, whichever step that is.
 */
module Wakeups {
  import opened Protocol
  import opened Settlement
  import opened Requests
  import opened Invariant
  import opened Progress
  import opened Runs

  // ---------------------------------------------------------------------
  //  One task waiting for one promise
  // ---------------------------------------------------------------------

  predicate StillWaiting(s: Server, t: Id, d: Id, version: int) {
    s.TaskIs(t, Suspended) && s.tasks[t].version == version && s.Awaits(t, d)
  }

  /** The buffer holds the task's execute message, if the task has an address. */
  predicate Dispatched(s: Server, t: Id)
    requires t in s.tasks
  {
    TargetOf(s, t).Some? ==> t in s.executes && s.executes[t] == Execute(TargetOf(s, t).value, s.tasks[t].version)
  }

  /** Back to pending under the next version and dispatched to its address if it
      has one; what woke it is recorded, and if that was not `d` the task still
      awaits `d`. */
  predicate WokenUp(s: Server, t: Id, d: Id, version: int) {
    && s.TaskIs(t, TaskState.Pending)
    && s.tasks[t].version == version + 1
    && s.tasks[t].resumes != {}
    && Dispatched(s, t)
    && (if s.SettledPromise(d) then d in s.tasks[t].resumes else s.Awaits(t, d))
  }

  predicate Finished(s: Server, t: Id) {
    s.TaskIs(t, Fulfilled) && s.SettledPromise(t)
  }

  predicate Accounted(s: Server, t: Id, d: Id, version: int) {
    StillWaiting(s, t, d, version) || WokenUp(s, t, d, version) || Finished(s, t)
  }

  lemma SettlesToFinished(s: Server, outcomes: map<Id, Outcome>, now: int, s': Server, t: Id)
    requires Proper(s, outcomes) && SettlesTo(s, outcomes, now, s') && Ok(s, t)
    requires (t in outcomes && t in s.tasks) || Finished(s, t)
    ensures Finished(s', t)
  {
    assert s'.tasks[t] == TaskAfter(s, outcomes.Keys, t);
    assert s'.promises[t] == PromiseAfter(s, outcomes, t);
  }

  lemma SettlesToAwaits(s: Server, outcomes: map<Id, Outcome>, now: int, s': Server, t: Id, d: Id)
    requires Proper(s, outcomes) && SettlesTo(s, outcomes, now, s') && d in s.promises && t !in outcomes
    ensures d in s'.promises
    ensures s'.SettledPromise(d) <==> d in outcomes || s.SettledPromise(d)
    ensures d !in outcomes ==> (s'.Awaits(t, d) <==> s.Awaits(t, d))
  {
    assert s'.promises[d] == PromiseAfter(s, outcomes, d);
  }

  lemma SettlesToAccounts(s: Server, outcomes: map<Id, Outcome>, now: int, s': Server, t: Id, d: Id, version: int)
    requires Proper(s, outcomes) && SettlesTo(s, outcomes, now, s')
    requires Ok(s, t) && Ok(s, d) && Accounted(s, t, d, version) && CallsAt(s, outcomes, s', t)
    ensures Accounted(s', t, d, version)
    ensures t in outcomes ==> Finished(s', t)
  {
    if t in outcomes || Finished(s, t) {
      SettlesToFinished(s, outcomes, now, s', t);
    } else {
      SettlesToAwaits(s, outcomes, now, s', t, d);
      assert s'.tasks[t] == Resumed(s.tasks[t], WokenBy(s, outcomes.Keys, t));
      assert d in outcomes ==> d in WokenBy(s, outcomes.Keys, t);
    }
  }

  lemma SettleAccounts(s: Server, outcomes: map<Id, Outcome>, now: int, t: Id, d: Id, version: int)
    requires Inv(s) && Proper(s, outcomes) && Accounted(s, t, d, version)
    ensures Accounted(Settle(s, outcomes, now), t, d, version)
    ensures t in outcomes ==> Finished(Settle(s, outcomes, now), t)
  {
    SettleIs(s, outcomes, now);
    SettleCalls(s, outcomes, now, t);
    assert Ok(s, t) && Ok(s, d);
    SettlesToAccounts(s, outcomes, now, Settle(s, outcomes, now), t, d, version);
  }

  lemma AutoTimeoutAccounts(s: Server, now: int, id: Id, t: Id, d: Id, version: int)
    requires Inv(s) && Accounted(s, t, d, version)
    ensures Accounted(AutoTimeout(s, now, id), t, d, version)
    ensures id == t && StillWaiting(s, t, d, version) ==> !WokenUp(AutoTimeout(s, now, id), t, d, version)
  {
    if Overdue(s, now, id) {
      SettleAccounts(s, map[id := LazyOutcome(s.promises[id].record)], now, t, d, version);
    }
  }

  lemma {:induction false} AutoTimeoutsAccount(s: Server, now: int, ids: seq<Id>, t: Id, d: Id, version: int)
    requires Inv(s) && Accounted(s, t, d, version)
    ensures Accounted(AutoTimeouts(s, now, ids), t, d, version)
    decreases |ids|
  {
    if ids != [] {
      AutoTimeoutAccounts(s, now, ids[0], t, d, version);
      AutoTimeoutKeepsInv(s, now, ids[0]);
      AutoTimeoutsAccount(AutoTimeout(s, now, ids[0]), now, ids[1..], t, d, version);
    }
  }

  /** The step leaves `t` alone and takes neither `t` nor `d` back. */
  predicate LeavesWait(s: Server, s': Server, t: Id, d: Id) {
    && (t in s.tasks ==> t in s'.tasks && s'.tasks[t] == s.tasks[t])
    && (s.SettledPromise(t) ==> s'.SettledPromise(t))
    && (s.TaskIs(t, TaskState.Pending) && Dispatched(s, t) ==> t in s'.tasks && Dispatched(s', t))
    && (s.Awaits(t, d) ==> s'.Awaits(t, d))
    && (d in s.promises ==> d in s'.promises && s'.promises[d].record == s.promises[d].record)
  }

  lemma LeftAloneAccounts(s: Server, s': Server, t: Id, d: Id, version: int)
    requires Ok(s, t) && LeavesWait(s, s', t, d) && Accounted(s, t, d, version)
    requires d in s.promises || Finished(s, t)
    ensures Accounted(s', t, d, version)
  {
  }

  predicate NotLent(s: Server, req: Request, t: Id, d: Id, version: int) {
    Lends(req, t) ==> !WokenUp(s, t, d, version)
  }

  lemma LendLeaves(s: Server, now: int, id: Id, pid: string, ttl: int, t: Id, d: Id)
    requires t != id && id in s.tasks
    ensures LeavesWait(s, Lend(s, now, id, pid, ttl), t, d)
  {
  }

  lemma CreateFreshTaskLeaves(s: Server, now: int, pid: string, ttl: int, args: CreateArgs, t: Id, d: Id)
    requires args.id !in s.tasks && args.id !in s.promises && args.id != "" && pid != ""
    ensures LeavesWait(s, CreateTask(s, now, pid, ttl, args).0, t, d)
  {
    CreateFreshTaskIs(s, now, pid, ttl, args);
  }

  lemma CreateTaskLeaves(s: Server, now: int, pid: string, ttl: int, args: CreateArgs, t: Id, d: Id)
    requires t != args.id || !s.TaskIs(t, TaskState.Pending)
    ensures LeavesWait(s, CreateTask(s, now, pid, ttl, args).0, t, d)
  {
    if pid == "" || args.id == "" {
    } else if s.TaskIs(args.id, TaskState.Pending) {
      LendLeaves(s, now, args.id, pid, ttl, t, d);
    } else if args.id !in s.tasks && args.id !in s.promises {
      CreateFreshTaskLeaves(s, now, pid, ttl, args, t, d);
    }
  }

  lemma CreatePromiseLeaves(s: Server, now: int, args: CreateArgs, t: Id, d: Id)
    requires Inv(s)
    ensures LeavesWait(s, CreatePromise(s, now, args).0, t, d)
  {
    CreatePromiseAdds(s, now, args);
    CreatePromiseCalls(s, now, args, t);
  }

  lemma SettlePromiseAccounts(s: Server, now: int, args: SettleArgs, t: Id, d: Id, version: int)
    requires Inv(s) && Accounted(s, t, d, version) && !args.state.Pending?
    ensures Accounted(SettlePromise(s, now, args).0, t, d, version)
  {
    if args.id != "" && s.PendingPromise(args.id) {
      SettleAccounts(s, map[args.id := Outcome(args.state, args.value, now)], now, t, d, version);
    }
  }

  lemma FencedAccounts(s: Server, now: int, action: FenceAction, t: Id, d: Id, version: int)
    requires Inv(s) && Accounted(s, t, d, version)
    requires action.FenceSettle? ==> !action.settle.state.Pending?
    ensures Accounted(Fenced(s, now, action).0, t, d, version)
  {
    match action
    case FenceCreate(args) =>
      assert Ok(s, t) && Ok(s, d);
      CreatePromiseLeaves(s, now, args, t, d);
      LeftAloneAccounts(s, Fenced(s, now, action).0, t, d, version);
    case FenceSettle(args) => SettlePromiseAccounts(s, now, args, t, d, version);
  }

  lemma FulfillAccounts(s: Server, now: int, req: Request, t: Id, d: Id, version: int)
    requires Inv(s) && WellFormed(req) && req.TaskFulfill? && Accounted(s, t, d, version)
    ensures Accounted(Handle(s, now, req).0, t, d, version)
  {
    if req.id != "" && s.TaskIs(req.id, Acquired) {
      assert Ok(s, req.id);
      FulfillOwnIsSettle(s, now, req.id, req.action, req.state, req.value);
      SettleAccounts(s, map[req.id := Outcome(req.state, req.value, now)], now, t, d, version);
    }
  }

  lemma AwaitAllLeaves(s: Server, id: Id, awaiting: set<Id>, t: Id, d: Id)
    ensures LeavesWait(s, AwaitAll(s, id, awaiting), t, d)
  {
  }

  lemma SuspendLeaves(s: Server, id: Id, awaiting: seq<Id>, t: Id, d: Id)
    requires !s.TaskIs(t, Acquired)
    ensures LeavesWait(s, SuspendTask(s, id, awaiting).0, t, d)
  {
    if s.TaskIs(id, Acquired) {
      AwaitAllLeaves(s, id, Elements(awaiting), t, d);
    }
  }

  lemma ReleaseLeaves(s: Server, leases: map<Id, int>, now: int, t: Id, d: Id)
    requires !s.TaskIs(t, Acquired)
    ensures LeavesWait(s, Release(s, leases, now), t, d)
  {
  }

  lemma ReleaseTaskLeaves(s: Server, now: int, id: Id, t: Id, d: Id)
    requires !s.TaskIs(t, Acquired)
    ensures LeavesWait(s, ReleaseTask(s, now, id).0, t, d)
  {
    if id in s.tasks { ReleaseLeaves(s, map[id := s.tasks[id].version], now, t, d); }
  }

  lemma AcquireLeaves(s: Server, now: int, id: Id, pid: string, ttl: int, t: Id, d: Id)
    requires t != id || !s.TaskIs(t, TaskState.Pending)
    ensures LeavesWait(s, AcquireTask(s, now, id, pid, ttl).0, t, d)
  {
    if t != id && s.TaskIs(id, TaskState.Pending) { LendLeaves(s, now, id, pid, AtLeastOne(ttl), t, d); }
  }

  lemma HeartbeatLeaves(s: Server, now: int, pid: string, refs: seq<TaskRef>, t: Id, d: Id)
    ensures LeavesWait(s, Heartbeat(s, now, pid, refs).0, t, d)
  {
    BeatsOnlyTimers(s, now, pid, refs);
  }

  lemma QuietTaskRequestLeaves(s: Server, now: int, req: Request, t: Id, d: Id)
    requires Inv(s) && !s.TaskIs(t, Acquired)
    requires req.TaskCreate? || req.TaskAcquire? || req.TaskRelease? || req.TaskSuspend? || req.TaskHeartbeat?
    requires Lends(req, t) ==> !s.TaskIs(t, TaskState.Pending)
    ensures LeavesWait(s, Handle(s, now, req).0, t, d)
  {
    if req.TaskCreate? {
      CreateTaskLeaves(s, now, req.pid, req.ttl, req.create, t, d);
    } else if req.TaskAcquire? {
      AcquireLeaves(s, now, req.id, req.pid, req.ttl, t, d);
    } else if req.TaskRelease? {
      ReleaseTaskLeaves(s, now, req.id, t, d);
    } else if req.TaskSuspend? {
      SuspendLeaves(s, req.id, req.awaiting, t, d);
    } else {
      HeartbeatLeaves(s, now, req.pid, req.refs, t, d);
    }
  }

  /** The remaining requests do not touch a task that is not acquired. */
  lemma QuietRequestLeaves(s: Server, now: int, req: Request, t: Id, d: Id)
    requires Inv(s) && !s.TaskIs(t, Acquired)
    requires !req.PromiseSettle? && !req.TaskFence? && !req.TaskFulfill?
    requires Lends(req, t) ==> !s.TaskIs(t, TaskState.Pending)
    ensures LeavesWait(s, Handle(s, now, req).0, t, d)
  {
    if req.PromiseCreate? {
      CreatePromiseLeaves(s, now, req.create, t, d);
    } else if !req.PromiseGet? && !req.RegisterListener? && !req.UnknownKind? {
      QuietTaskRequestLeaves(s, now, req, t, d);
    }
  }

  lemma HandleAccounts(s: Server, now: int, req: Request, t: Id, d: Id, version: int)
    requires Inv(s) && WellFormed(req) && Accounted(s, t, d, version) && NotLent(s, req, t, d, version)
    ensures Accounted(Handle(s, now, req).0, t, d, version)
  {
    assert Ok(s, t) && Ok(s, d);
    match req
    case PromiseSettle(args) => SettlePromiseAccounts(s, now, args, t, d, version);
    case TaskFence(_, _, action) => FencedAccounts(s, now, action, t, d, version);
    case TaskFulfill(_, _, _, _) => FulfillAccounts(s, now, req, t, d, version);
    case _ =>
      QuietRequestLeaves(s, now, req, t, d);
      LeftAloneAccounts(s, Handle(s, now, req).0, t, d, version);
  }

  lemma PreparedAccounts(s: Server, now: int, req: Request, t: Id, d: Id, version: int)
    requires Inv(s) && StillWaiting(s, t, d, version)
    ensures Accounted(Prepared(s, now, req), t, d, version)
    ensures NotLent(Prepared(s, now, req), req, t, d, version)
  {
    ClearedKeepsInv(s);
    AutoTimeoutsAccount(Cleared(s), now, Touched(req), t, d, version);
    if Lends(req, t) {
      assert Touched(req) == [t];
      AutoTimeoutsOne(Cleared(s), now, t);
      AutoTimeoutAccounts(Cleared(s), now, t, t, d, version);
    }
  }

  lemma RetryLeaves(s: Server, retries: set<Id>, now: int, t: Id, d: Id)
    ensures LeavesWait(s, RetryAll(s, retries, now), t, d)
  {
  }

  lemma RearmAccounts(s: Server, leases: map<Id, int>, retries: set<Id>, now: int, t: Id, d: Id, version: int)
    requires Inv(s) && Accounted(s, t, d, version)
    ensures Accounted(RetryAll(Release(s, leases, now), retries, now), t, d, version)
  {
    assert Ok(s, t) && Ok(s, d);
    ReleaseLeaves(s, leases, now, t, d);
    LeftAloneAccounts(s, Release(s, leases, now), t, d, version);
    ReleaseKeepsInv(s, leases, now);
    var m := Release(s, leases, now);
    assert Ok(m, t) && Ok(m, d);
    RetryLeaves(m, retries, now, t, d);
    LeftAloneAccounts(m, RetryAll(m, retries, now), t, d, version);
  }

  lemma TickAccounts(s: Server, now: int, t: Id, d: Id, version: int)
    requires Inv(s) && StillWaiting(s, t, d, version)
    ensures Accounted(Tick(s, now), t, d, version)
  {
    DueIsProper(s, now);
    SettleAccounts(s, DueOutcomes(s, now), now, t, d, version);
    SettleKeepsInv(s, DueOutcomes(s, now), now);
    RearmAccounts(Settle(s, DueOutcomes(s, now), now), ExpiredLeases(s, now), DueRetries(s, now), now, t, d, version);
  }

  /** No lost wakeup, one step: whatever the step is, a suspended task and a
      promise it awaits are accounted for afterwards.  If the step settled the
      promise the task is pending again under the next version with that
      promise among its resumes, or is fulfilled with its own promise. */
  lemma NoLostWakeup(s: Server, e: Event, t: Id, d: Id)
    requires Inv(s) && Sensible(e) && s.TaskIs(t, Suspended) && s.Awaits(t, d)
    ensures Accounted(Step(s, e), t, d, s.tasks[t].version)
    ensures Step(s, e).SettledPromise(d) ==> !Step(s, e).TaskIs(t, Suspended)
  {
    var version := s.tasks[t].version;
    match e {
      case Asked(now, req) =>
        PreparedAccounts(s, now, req, t, d, version);
        PreparedAdvances(s, now, req);
        HandleAccounts(Prepared(s, now, req), now, req, t, d, version);
      case Clock(now) =>
        ClearedKeepsInv(s);
        TickAccounts(Cleared(s), now, t, d, version);
    }
    StepKeepsInv(s, e);
    assert Ok(Step(s, e), d);
  }

  // ---------------------------------------------------------------------
  //  Whole runs
  // ---------------------------------------------------------------------

  /** The event suspended the task: `task.suspend` answered 200. */
  predicate Parks(s: Server, e: Event, t: Id) {
    e.Asked? && e.req.TaskSuspend? && e.req.id == t && Apply(s, e.now, e.req).1.Done?
  }

  /** No other way into the suspended state: a task found there was there before. */
  predicate NotParkedAt(s: Server, s': Server, t: Id) {
    && (s'.TaskIs(t, Suspended) ==> s.TaskIs(t, Suspended) && s'.tasks[t] == s.tasks[t])
    && (s'.TaskIs(t, Acquired) ==> s.TaskIs(t, Acquired))
  }

  lemma ResumedNeverParks(t: Task, cause: set<Id>)
    ensures Resumed(t, cause).state.Suspended? ==> Resumed(t, cause) == t
    ensures Resumed(t, cause).state.Acquired? ==> t.state.Acquired?
    ensures !Ended(t).state.Suspended? && !Ended(t).state.Acquired?
  {
  }

  lemma SettlingNeverParks(s: Server, outcomes: map<Id, Outcome>, now: int, t: Id)
    requires Inv(s) && Proper(s, outcomes)
    ensures NotParkedAt(s, Settle(s, outcomes, now), t)
  {
    var s' := Settle(s, outcomes, now);
    SettleKeepsKeys(s, outcomes, now);
    if t in s.tasks {
      SettledTaskIs(s, outcomes, now, t);
      ResumedNeverParks(s.tasks[t], WokenBy(s, outcomes.Keys, t));
    }
  }

  lemma AutoTimeoutNeverParks(s: Server, now: int, id: Id, t: Id)
    requires Inv(s)
    ensures NotParkedAt(s, AutoTimeout(s, now, id), t)
  {
    if Overdue(s, now, id) {
      SettlingNeverParks(s, map[id := LazyOutcome(s.promises[id].record)], now, t);
    }
  }

  lemma {:induction false} AutoTimeoutsNeverPark(s: Server, now: int, ids: seq<Id>, t: Id)
    requires Inv(s)
    ensures NotParkedAt(s, AutoTimeouts(s, now, ids), t)
    decreases |ids|
  {
    if ids != [] {
      AutoTimeoutNeverParks(s, now, ids[0], t);
      AutoTimeoutKeepsInv(s, now, ids[0]);
      AutoTimeoutsNeverPark(AutoTimeout(s, now, ids[0]), now, ids[1..], t);
    }
  }

  lemma FencedNeverParks(s: Server, now: int, action: FenceAction, t: Id)
    requires Inv(s) && (action.FenceSettle? ==> !action.settle.state.Pending?)
    requires Fenced(s, now, action).0.TaskIs(t, Suspended)
    ensures s.TaskIs(t, Suspended) && Fenced(s, now, action).0.tasks[t] == s.tasks[t]
  {
    match action
    case FenceCreate(args) => CreateNeverParks(s, now, args, t);
    case FenceSettle(args) => SettleRequestNeverParks(s, now, args, t);
  }

  lemma FulfillNeverParks(s: Server, now: int, req: Request, t: Id)
    requires Inv(s) && WellFormed(req) && req.TaskFulfill? && Handle(s, now, req).0.TaskIs(t, Suspended)
    ensures s.TaskIs(t, Suspended) && Handle(s, now, req).0.tasks[t] == s.tasks[t]
  {
    if req.id != "" && s.TaskIs(req.id, Acquired) {
      assert Ok(s, req.id);
      FulfillOwnIsSettle(s, now, req.id, req.action, req.state, req.value);
      SettlingNeverParks(s, map[req.id := Outcome(req.state, req.value, now)], now, t);
    }
  }

  lemma FenceNeverParks(s: Server, now: int, id: Id, version: int, action: FenceAction, t: Id)
    requires Inv(s) && (action.FenceSettle? ==> !action.settle.state.Pending?)
    requires FenceTask(s, now, id, version, action).0.TaskIs(t, Suspended)
    ensures s.TaskIs(t, Suspended) && FenceTask(s, now, id, version, action).0.tasks[t] == s.tasks[t]
  {
    if id != "" && HoldsLease(s, id, version) {
      FencedNeverParks(s, now, action, t);
    }
  }

  lemma HeartbeatNeverParks(s: Server, now: int, pid: string, refs: seq<TaskRef>)
    ensures Heartbeat(s, now, pid, refs).0.tasks == s.tasks
  {
    BeatsOnlyTimers(s, now, pid, refs);
  }

  lemma AcquireNeverParks(s: Server, now: int, id: Id, pid: string, ttl: int, t: Id)
    requires AcquireTask(s, now, id, pid, ttl).0.TaskIs(t, Suspended)
    ensures s.TaskIs(t, Suspended) && AcquireTask(s, now, id, pid, ttl).0.tasks[t] == s.tasks[t]
  {
  }

  lemma PromiseRequestNeverParks(s: Server, now: int, req: Request, t: Id)
    requires Inv(s) && WellFormed(req) && Handle(s, now, req).0.TaskIs(t, Suspended)
    requires req.PromiseGet? || req.PromiseCreate? || req.PromiseSettle? || req.RegisterListener? || req.UnknownKind?
    ensures s.TaskIs(t, Suspended) && Handle(s, now, req).0.tasks[t] == s.tasks[t]
  {
    match req
    case PromiseCreate(args) => CreateNeverParks(s, now, args, t);
    case PromiseSettle(args) => SettleRequestNeverParks(s, now, args, t);
    case _ =>
  }

  lemma HandleNeverParks(s: Server, now: int, req: Request, t: Id)
    requires Inv(s) && WellFormed(req) && !req.TaskSuspend? && Handle(s, now, req).0.TaskIs(t, Suspended)
    ensures s.TaskIs(t, Suspended) && Handle(s, now, req).0.tasks[t] == s.tasks[t]
  {
    match req
    case TaskFence(id, version, action) => FenceNeverParks(s, now, id, version, action, t);
    case TaskCreate(pid, ttl, args) => CreateTaskNeverParks(s, now, pid, ttl, args, t);
    case TaskAcquire(id, pid, ttl) => AcquireNeverParks(s, now, id, pid, ttl, t);
    case TaskFulfill(_, _, _, _) => FulfillNeverParks(s, now, req, t);
    case TaskHeartbeat(pid, refs) => HeartbeatNeverParks(s, now, pid, refs);
    case TaskRelease(id) => ReleaseNeverParks(s, now, id, t);
    case _ => PromiseRequestNeverParks(s, now, req, t);
  }

  lemma HandleParks(s: Server, now: int, req: Request, t: Id)
    requires Inv(s) && WellFormed(req) && Handle(s, now, req).0.TaskIs(t, Suspended)
    ensures (s.TaskIs(t, Suspended) && Handle(s, now, req).0.tasks[t] == s.tasks[t])
         || (req.TaskSuspend? && req.id == t && Handle(s, now, req).1.Done?)
  {
    if req.TaskSuspend? {
      SuspendParks(s, req.id, req.awaiting, t);
    } else {
      HandleNeverParks(s, now, req, t);
    }
  }

  lemma SuspendParks(s: Server, id: Id, awaiting: seq<Id>, t: Id)
    requires SuspendTask(s, id, awaiting).0.TaskIs(t, Suspended)
    ensures (s.TaskIs(t, Suspended) && SuspendTask(s, id, awaiting).0.tasks[t] == s.tasks[t])
         || (id == t && SuspendTask(s, id, awaiting).1.Done?)
  {
  }

  lemma ReleaseNeverParks(s: Server, now: int, id: Id, t: Id)
    requires ReleaseTask(s, now, id).0.TaskIs(t, Suspended)
    ensures s.TaskIs(t, Suspended) && ReleaseTask(s, now, id).0.tasks[t] == s.tasks[t]
  {
  }

  lemma CreateNeverParks(s: Server, now: int, args: CreateArgs, t: Id)
    requires Inv(s) && CreatePromise(s, now, args).0.TaskIs(t, Suspended)
    ensures s.TaskIs(t, Suspended) && CreatePromise(s, now, args).0.tasks[t] == s.tasks[t]
  {
    CreatePromiseAdds(s, now, args);
    if args.id != "" && args.id !in s.promises {
      if now >= Deadline(args) {
        CreateExpiredIs(s, now, args);
      } else if TAG_TARGET in args.tags {
        AddPendingTaskIs(AddPromise(s, args.id, FreshRecord(args, now)), args, now);
      }
    }
  }

  lemma SettleRequestNeverParks(s: Server, now: int, args: SettleArgs, t: Id)
    requires Inv(s) && !args.state.Pending? && SettlePromise(s, now, args).0.TaskIs(t, Suspended)
    ensures s.TaskIs(t, Suspended) && SettlePromise(s, now, args).0.tasks[t] == s.tasks[t]
  {
    if args.id != "" && s.PendingPromise(args.id) {
      SettlingNeverParks(s, map[args.id := Outcome(args.state, args.value, now)], now, t);
    }
  }

  lemma CreateTaskNeverParks(s: Server, now: int, pid: string, ttl: int, args: CreateArgs, t: Id)
    requires Inv(s) && CreateTask(s, now, pid, ttl, args).0.TaskIs(t, Suspended)
    ensures s.TaskIs(t, Suspended) && CreateTask(s, now, pid, ttl, args).0.tasks[t] == s.tasks[t]
  {
    assert Ok(s, args.id);
    if pid != "" && args.id != "" && args.id !in s.tasks && args.id !in s.promises {
      CreateFreshTaskIs(s, now, pid, ttl, args);
    }
  }

  /** A task is suspended only by its own accepted `task.suspend`. */
  lemma OnlySuspendParks(s: Server, e: Event, t: Id)
    requires Inv(s) && Sensible(e) && Step(s, e).TaskIs(t, Suspended)
    ensures Parks(s, e, t) || (s.TaskIs(t, Suspended) && Step(s, e).tasks[t] == s.tasks[t])
    ensures Parks(s, e, t) ==> s.TaskIs(t, Acquired)
  {
    ClearedKeepsInv(s);
    match e
    case Asked(now, req) =>
      AutoTimeoutsNeverPark(Cleared(s), now, Touched(req), t);
      AutoTimeoutsKeepInv(Cleared(s), now, Touched(req));
      HandleParks(Prepared(s, now, req), now, req, t);
    case Clock(now) =>
      var c := Cleared(s);
      DueIsProper(c, now);
      SettlingNeverParks(c, DueOutcomes(c, now), now, t);
  }

  /** The promises the task's last accepted suspend named, those that existed. */
  function LastWaits(s: Server, es: seq<Event>, t: Id): set<Id> {
    if es == [] then {}
    else
      var before, e := es[..|es| - 1], es[|es| - 1];
      if Parks(Run(s, before), e, t)
      then set d | d in e.req.awaiting && d in Run(s, es).promises
      else LastWaits(s, before, t)
  }

  lemma ParkedAwaits(s: Server, e: Event, t: Id, d: Id)
    requires Parks(s, e, t) && d in e.req.awaiting && d in Step(s, e).promises
    ensures Step(s, e).Awaits(t, d)
  {
    var p := Prepared(s, e.now, e.req);
    assert !AnySettled(p, Elements(e.req.awaiting));
    assert d in Elements(e.req.awaiting);
  }

  /** In every reachable state a suspended task is among the awaiters of every
      existing promise its last accepted suspend named, and all of those are
      pending. */
  lemma {:induction false} SuspendedTasksAwait(es: seq<Event>, t: Id, d: Id)
    requires SensibleRun(es) && Run(EMPTY_SERVER, es).TaskIs(t, Suspended)
    requires d in LastWaits(EMPTY_SERVER, es, t)
    ensures Run(EMPTY_SERVER, es).Awaits(t, d) && Run(EMPTY_SERVER, es).PendingPromise(d)
  {
    InvInitially();
    var before, e := es[..|es| - 1], es[|es| - 1];
    var s := Run(EMPTY_SERVER, before);
    RunKeepsInv(EMPTY_SERVER, before);
    StepKeepsInv(s, e);
    OnlySuspendParks(s, e, t);
    if !Parks(s, e, t) {
      SuspendedTasksAwait(before, t, d);
    }
    WaitsAfterStep(s, e, t, d);
  }

  lemma WaitsAfterStep(s: Server, e: Event, t: Id, d: Id)
    requires Inv(s) && Sensible(e) && Inv(Step(s, e)) && Step(s, e).TaskIs(t, Suspended)
    requires if Parks(s, e, t) then d in e.req.awaiting && d in Step(s, e).promises
             else s.TaskIs(t, Suspended) && s.Awaits(t, d)
    ensures Step(s, e).Awaits(t, d) && Step(s, e).PendingPromise(d)
  {
    if Parks(s, e, t) {
      ParkedAwaits(s, e, t, d);
    } else {
      StillParkedAwaits(s, e, t, d);
    }
    AwaitedIsPending(Step(s, e), t, d);
  }

  lemma StillParkedAwaits(s: Server, e: Event, t: Id, d: Id)
    requires Inv(s) && Sensible(e) && s.TaskIs(t, Suspended) && s.Awaits(t, d) && Step(s, e).TaskIs(t, Suspended)
    ensures Step(s, e).Awaits(t, d)
  {
    NoLostWakeup(s, e, t, d);
  }

  lemma AwaitedIsPending(s: Server, t: Id, d: Id)
    requires Inv(s) && s.Awaits(t, d)
    ensures s.PendingPromise(d)
  {
    assert Ok(s, d);
  }

  /** No lost wakeup, whole runs: whichever event settles a promise that a
      suspended task named in its last accepted suspend, that same event leaves
      the task pending under the next version with the promise among its
      resumes and an execute message to its address, or fulfilled together with
      its own promise. */
  lemma NoLostWakeupInRuns(es: seq<Event>, k: nat, t: Id, d: Id)
    requires SensibleRun(es) && k < |es|
    requires Run(EMPTY_SERVER, es[..k]).TaskIs(t, Suspended)
    requires d in LastWaits(EMPTY_SERVER, es[..k], t)
    requires Run(EMPTY_SERVER, es[..k + 1]).SettledPromise(d)
    ensures var version := Run(EMPTY_SERVER, es[..k]).tasks[t].version;
            var after := Run(EMPTY_SERVER, es[..k + 1]);
            Finished(after, t)
            || (after.TaskIs(t, TaskState.Pending) && after.tasks[t].version == version + 1 && d in after.tasks[t].resumes
                && Dispatched(after, t))
  {
    SuspendedTasksAwait(es[..k], t, d);
    InvInitially();
    RunKeepsInv(EMPTY_SERVER, es[..k]);
    RunNext(EMPTY_SERVER, es, k);
    NoLostWakeup(Run(EMPTY_SERVER, es[..k]), es[k], t, d);
  }

  // ---------------------------------------------------------------------
  //  What a suspend really registers
  // ---------------------------------------------------------------------

  /** The server skips ids it does not know: an accepted suspend awaits
      everything it named exactly when everything it named exists. */
  lemma SuspendAwaitsAllExactly(s: Server, id: Id, awaiting: seq<Id>)
    requires SuspendTask(s, id, awaiting).1.Done?
    ensures var s' := SuspendTask(s, id, awaiting).0;
            (forall d | d in awaiting :: s'.Awaits(id, d)) <==> (forall d | d in awaiting :: d in s.promises)
  {
    var s' := SuspendTask(s, id, awaiting).0;
    forall d | d in awaiting && d in s.promises ensures s'.Awaits(id, d)
    {
      assert d in Elements(awaiting);
      assert !s.SettledPromise(d);
    }
  }

  /** A task suspended on nothing sleeps until its own promise settles: no
      event wakes it. */
  lemma UnwaitedTaskSleeps(s: Server, outcomes: map<Id, Outcome>, now: int, t: Id)
    requires Inv(s) && Proper(s, outcomes) && s.TaskIs(t, Suspended)
    ensures Settle(s, outcomes, now).tasks[t] == s.tasks[t]
        <==> t !in outcomes && forall d | d in outcomes :: !s.Awaits(t, d)
  {
    SettledTaskIs(s, outcomes, now, t);
    var causes := WokenBy(s, outcomes.Keys, t);
    if causes != {} {
      var d :| d in causes;
      assert d in outcomes && s.Awaits(t, d);
    } else {
      forall d | d in outcomes ensures !s.Awaits(t, d)
      {
        assert d !in causes;
      }
    }
  }
}

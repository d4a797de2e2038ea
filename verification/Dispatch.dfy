/**
 Execute messages are exact: whatever one step leaves in the buffer names a
 task's address and current version, and the task is pending, or was fulfilled
 later in the same step.  It is never a task somebody holds.
 */
module Dispatch {
  import opened Protocol
  import opened Settlement
  import opened Requests
  import opened Invariant
  import opened Progress
  import opened Runs

  predicate CallExact(s: Server, t: Id) {
    t in s.executes ==>
      && t in s.tasks
      && (s.tasks[t].state.Pending? || s.tasks[t].state.Fulfilled?)
      && TargetOf(s, t) == Some(s.executes[t].address)
      && s.executes[t].version == s.tasks[t].version
  }

  lemma SettlesToCallExact(s: Server, outcomes: map<Id, Outcome>, now: int, s': Server, t: Id)
    requires SettlesTo(s, outcomes, now, s') && CallsAt(s, outcomes, s', t) && CallExact(s, t)
    ensures CallExact(s', t)
  {
    if t in s.tasks {
      assert s'.tasks[t] == TaskAfter(s, outcomes.Keys, t);
    }
  }

  lemma SettleCallExact(s: Server, outcomes: map<Id, Outcome>, now: int, t: Id)
    requires Inv(s) && Proper(s, outcomes) && CallExact(s, t)
    ensures CallExact(Settle(s, outcomes, now), t)
    ensures t in outcomes && t !in s.executes ==> t !in Settle(s, outcomes, now).executes
  {
    SettleIs(s, outcomes, now);
    SettleCalls(s, outcomes, now, t);
    SettlesToCallExact(s, outcomes, now, Settle(s, outcomes, now), t);
  }

  lemma AutoTimeoutCallExact(s: Server, now: int, id: Id, t: Id)
    requires Inv(s) && CallExact(s, t)
    ensures CallExact(AutoTimeout(s, now, id), t)
    ensures id == t && t !in s.executes ==> t !in AutoTimeout(s, now, id).executes
  {
    if Overdue(s, now, id) {
      SettleCallExact(s, map[id := LazyOutcome(s.promises[id].record)], now, t);
    }
  }

  lemma {:induction false} AutoTimeoutsCallExact(s: Server, now: int, ids: seq<Id>, t: Id)
    requires Inv(s) && CallExact(s, t)
    ensures CallExact(AutoTimeouts(s, now, ids), t)
    decreases |ids|
  {
    if ids != [] {
      AutoTimeoutCallExact(s, now, ids[0], t);
      AutoTimeoutKeepsInv(s, now, ids[0]);
      AutoTimeoutsCallExact(AutoTimeout(s, now, ids[0]), now, ids[1..], t);
    }
  }

  /** No request finds a message waiting for the task it is about to hand out. */
  lemma PreparedCallExact(s: Server, now: int, req: Request, t: Id)
    requires Inv(s)
    ensures CallExact(Prepared(s, now, req), t)
    ensures Lends(req, t) ==> t !in Prepared(s, now, req).executes
  {
    ClearedKeepsInv(s);
    AutoTimeoutsCallExact(Cleared(s), now, Touched(req), t);
    if Lends(req, t) {
      assert Touched(req) == [t];
      AutoTimeoutsOne(Cleared(s), now, t);
      AutoTimeoutCallExact(Cleared(s), now, t, t);
    }
  }

  lemma CreatePromiseCallExact(s: Server, now: int, args: CreateArgs, t: Id)
    requires Inv(s) && CallExact(s, t)
    ensures CallExact(CreatePromise(s, now, args).0, t)
  {
    assert Ok(s, args.id);
    CreatePromiseAdds(s, now, args);
    CreatePromiseCalls(s, now, args, t);
    if args.id != "" && args.id !in s.promises && now >= Deadline(args) {
      CreateExpiredIs(s, now, args);
    } else if t != args.id && args.id != "" && args.id !in s.promises && TAG_TARGET in args.tags {
      var s1 := AddPromise(s, args.id, FreshRecord(args, now));
      AddPendingTaskIs(s1, args, now);
      assert t in CreatePromise(s, now, args).0.executes ==> t in s.executes - {args.id};
    }
  }

  lemma SettlePromiseCallExact(s: Server, now: int, args: SettleArgs, t: Id)
    requires Inv(s) && CallExact(s, t) && !args.state.Pending?
    ensures CallExact(SettlePromise(s, now, args).0, t)
  {
    if args.id != "" && s.PendingPromise(args.id) {
      SettleCallExact(s, map[args.id := Outcome(args.state, args.value, now)], now, t);
    }
  }

  lemma FenceCallExact(s: Server, now: int, id: Id, version: int, action: FenceAction, t: Id)
    requires Inv(s) && CallExact(s, t) && (action.FenceSettle? ==> !action.settle.state.Pending?)
    ensures CallExact(FenceTask(s, now, id, version, action).0, t)
  {
    match action
    case FenceCreate(args) => CreatePromiseCallExact(s, now, args, t);
    case FenceSettle(args) => SettlePromiseCallExact(s, now, args, t);
  }

  lemma FulfillCallExact(s: Server, now: int, req: Request, t: Id)
    requires Inv(s) && CallExact(s, t) && WellFormed(req) && req.TaskFulfill?
    ensures CallExact(Handle(s, now, req).0, t)
  {
    if req.id != "" && s.TaskIs(req.id, Acquired) {
      assert Ok(s, req.id);
      FulfillOwnIsSettle(s, now, req.id, req.action, req.state, req.value);
      SettleCallExact(s, map[req.id := Outcome(req.state, req.value, now)], now, t);
    }
  }

  lemma ReleaseCallExact(s: Server, leases: map<Id, int>, now: int, t: Id)
    requires CallExact(s, t)
    ensures CallExact(Release(s, leases, now), t)
  {
  }

  lemma RetryCallExact(s: Server, retries: set<Id>, now: int, t: Id)
    requires CallExact(s, t)
    ensures CallExact(RetryAll(s, retries, now), t)
  {
  }

  lemma SuspendCallExact(s: Server, id: Id, awaiting: seq<Id>, t: Id)
    requires CallExact(s, t)
    ensures CallExact(SuspendTask(s, id, awaiting).0, t)
  {
  }

  lemma CreateTaskCallExact(s: Server, now: int, pid: string, ttl: int, args: CreateArgs, t: Id)
    requires Inv(s) && CallExact(s, t) && (t == args.id ==> t !in s.executes)
    ensures CallExact(CreateTask(s, now, pid, ttl, args).0, t)
  {
    assert Ok(s, args.id);
    if pid != "" && args.id != "" && args.id !in s.tasks && args.id !in s.promises {
      CreateFreshTaskIs(s, now, pid, ttl, args);
    }
  }

  lemma HandleCallExact(s: Server, now: int, req: Request, t: Id)
    requires Inv(s) && WellFormed(req) && CallExact(s, t) && (Lends(req, t) ==> t !in s.executes)
    ensures CallExact(Handle(s, now, req).0, t)
  {
    match req
    case PromiseCreate(args) => CreatePromiseCallExact(s, now, args, t);
    case PromiseSettle(args) => SettlePromiseCallExact(s, now, args, t);
    case TaskFence(id, version, action) => FenceCallExact(s, now, id, version, action, t);
    case TaskFulfill(_, _, _, _) => FulfillCallExact(s, now, req, t);
    case TaskCreate(pid, ttl, args) => CreateTaskCallExact(s, now, pid, ttl, args, t);
    case TaskRelease(id) =>
      if id in s.tasks { ReleaseCallExact(s, map[id := s.tasks[id].version], now, t); }
    case TaskSuspend(id, awaiting) => SuspendCallExact(s, id, awaiting, t);
    case TaskHeartbeat(pid, refs) => BeatsOnlyTimers(s, now, pid, refs);
    case _ =>
  }

  /** Whatever one step sends is exact. */
  lemma ExecuteMessagesExact(s: Server, e: Event, t: Id)
    requires Inv(s) && Sensible(e)
    ensures CallExact(Step(s, e), t)
  {
    match e
    case Asked(now, req) =>
      PreparedCallExact(s, now, req, t);
      PreparedAdvances(s, now, req);
      HandleCallExact(Prepared(s, now, req), now, req, t);
    case Clock(now) =>
      var c := Cleared(s);
      ClearedKeepsInv(s);
      DueIsProper(c, now);
      SettleCallExact(c, DueOutcomes(c, now), now, t);
      var s1 := Settle(c, DueOutcomes(c, now), now);
      ReleaseCallExact(s1, ExpiredLeases(c, now), now, t);
      RetryCallExact(Release(s1, ExpiredLeases(c, now), now), DueRetries(c, now), now, t);
  }
}

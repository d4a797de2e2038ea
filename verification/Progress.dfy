/**
 How the server moves: settled promises never change, task versions never go
 back, and a lease is granted at most once under each version.
 */
module Progress {
  import opened Protocol
  import opened Settlement
  import opened Requests
  import opened Invariant

  // ---------------------------------------------------------------------
  //  The order in which promises and tasks move
  // ---------------------------------------------------------------------

  /** Once settled a record is final; before that its identity is. */
  predicate RecordAdvances(r: Record, r': Record) {
    && (r.Settled() ==> r' == r)
    && r'.param == r.param && r'.tags == r.tags && r'.timeoutAt == r.timeoutAt && r'.createdAt == r.createdAt
  }

  /** Within one version a task goes pending, acquired, suspended. */
  function Stage(t: Task): nat {
    match t.state
    case Pending => 0
    case Acquired => 1
    case _ => 2
  }

  predicate TaskAdvances(t: Task, t': Task) {
    && t.version <= t'.version
    && (t.state.Fulfilled? ==> t' == t)
    && (t'.state.Fulfilled? || t.version < t'.version || Stage(t) <= Stage(t'))
  }

  predicate AdvancesAt(s: Server, s': Server, id: Id) {
    && (id in s.promises ==> id in s'.promises && RecordAdvances(s.promises[id].record, s'.promises[id].record))
    && (id in s.tasks ==> id in s'.tasks && TaskAdvances(s.tasks[id], s'.tasks[id]))
  }

  ghost predicate Advances(s: Server, s': Server) {
    forall id :: AdvancesAt(s, s', id)
  }

  lemma AdvancesReflexively(s: Server)
    ensures Advances(s, s)
  {
    assert forall id :: AdvancesAt(s, s, id);
  }

  lemma AdvancesTransitively(s: Server, m: Server, s': Server)
    requires Advances(s, m) && Advances(m, s')
    ensures Advances(s, s')
  {
    forall id ensures AdvancesAt(s, s', id)
    {
      assert AdvancesAt(s, m, id) && AdvancesAt(m, s', id);
    }
  }

  lemma SettlesToAdvances(s: Server, outcomes: map<Id, Outcome>, now: int, s': Server, id: Id)
    requires Proper(s, outcomes) && SettlesTo(s, outcomes, now, s')
    ensures AdvancesAt(s, s', id)
  {
    if id in s.promises { assert s'.promises[id] == PromiseAfter(s, outcomes, id); }
    if id in s.tasks { assert s'.tasks[id] == TaskAfter(s, outcomes.Keys, id); }
  }

  lemma SettleAdvances(s: Server, outcomes: map<Id, Outcome>, now: int)
    requires Inv(s) && Proper(s, outcomes)
    ensures Advances(s, Settle(s, outcomes, now))
  {
    SettleIs(s, outcomes, now);
    forall id { SettlesToAdvances(s, outcomes, now, Settle(s, outcomes, now), id); }
  }

  lemma AutoTimeoutAdvances(s: Server, now: int, id: Id)
    requires Inv(s)
    ensures Advances(s, AutoTimeout(s, now, id))
  {
    if Overdue(s, now, id) {
      SettleAdvances(s, map[id := LazyOutcome(s.promises[id].record)], now);
    }
  }

  lemma {:induction false} AutoTimeoutsAdvance(s: Server, now: int, ids: seq<Id>)
    requires Inv(s)
    ensures Advances(s, AutoTimeouts(s, now, ids))
    decreases |ids|
  {
    if ids != [] {
      var m := AutoTimeout(s, now, ids[0]);
      AutoTimeoutAdvances(s, now, ids[0]);
      AutoTimeoutKeepsInv(s, now, ids[0]);
      AutoTimeoutsAdvance(m, now, ids[1..]);
      AdvancesTransitively(s, m, AutoTimeouts(m, now, ids[1..]));
    }
  }

  /** Creating touches neither the promises nor the tasks already there. */
  lemma CreatePromiseAdds(s: Server, now: int, args: CreateArgs)
    requires Inv(s)
    ensures var s' := CreatePromise(s, now, args).0;
            && (args.id == "" || args.id in s.promises ==> s' == s)
            && (forall p | p in s.promises :: p in s'.promises && s'.promises[p] == s.promises[p])
            && (forall t | t in s.tasks :: t in s'.tasks && s'.tasks[t] == s.tasks[t])
  {
    assert Ok(s, args.id);
    if args.id != "" && args.id !in s.promises {
      if now >= Deadline(args) {
        CreateExpiredIs(s, now, args);
      } else if TAG_TARGET in args.tags {
        AddPendingTaskIs(AddPromise(s, args.id, FreshRecord(args, now)), args, now);
      }
    }
  }

  lemma CreatePromiseCalls(s: Server, now: int, args: CreateArgs, t: Id)
    requires Inv(s)
    ensures var s' := CreatePromise(s, now, args).0;
            t in s.tasks ==>
              && TargetOf(s', t) == TargetOf(s, t)
              && (t in s.executes <==> t in s'.executes)
              && (t in s.executes ==> s'.executes[t] == s.executes[t])
  {
    assert Ok(s, args.id) && Ok(s, t);
    var s' := CreatePromise(s, now, args).0;
    if args.id != "" && args.id !in s.promises {
      if now >= Deadline(args) {
        CreateExpiredIs(s, now, args);
      } else if TAG_TARGET in args.tags {
        AddPendingTaskIs(AddPromise(s, args.id, FreshRecord(args, now)), args, now);
        assert t != args.id && t in s.tasks ==> (t in s'.executes <==> t in s'.executes - {args.id});
      }
    }
  }

  lemma CreatePromiseAdvances(s: Server, now: int, args: CreateArgs)
    requires Inv(s)
    ensures Advances(s, CreatePromise(s, now, args).0)
  {
    CreatePromiseAdds(s, now, args);
    var s' := CreatePromise(s, now, args).0;
    forall id ensures AdvancesAt(s, s', id) {}
  }

  lemma SettlePromiseAdvances(s: Server, now: int, args: SettleArgs)
    requires Inv(s) && !args.state.Pending?
    ensures Advances(s, SettlePromise(s, now, args).0)
  {
    if args.id != "" && s.PendingPromise(args.id) {
      SettleAdvances(s, map[args.id := Outcome(args.state, args.value, now)], now);
    }
  }

  lemma LendAdvances(s: Server, now: int, id: Id, pid: string, ttl: int)
    requires s.TaskIs(id, TaskState.Pending)
    ensures Advances(s, Lend(s, now, id, pid, ttl))
  {
    var s' := Lend(s, now, id, pid, ttl);
    assert forall i :: AdvancesAt(s, s', i);
  }

  lemma CreateTaskAdvances(s: Server, now: int, pid: string, ttl: int, args: CreateArgs)
    requires Inv(s)
    ensures Advances(s, CreateTask(s, now, pid, ttl, args).0)
  {
    assert Ok(s, args.id);
    if pid == "" || args.id == "" {
      AdvancesReflexively(s);
    } else if s.TaskIs(args.id, TaskState.Pending) {
      LendAdvances(s, now, args.id, pid, ttl);
    } else if args.id !in s.tasks && args.id !in s.promises {
      CreateFreshTaskIs(s, now, pid, ttl, args);
      var s' := CreateTask(s, now, pid, ttl, args).0;
      assert forall id :: AdvancesAt(s, s', id);
    } else {
      AdvancesReflexively(s);
    }
  }

  lemma ReleaseAdvances(s: Server, versions: map<Id, int>, now: int)
    ensures Advances(s, Release(s, versions, now))
  {
    var s' := Release(s, versions, now);
    assert forall id :: AdvancesAt(s, s', id);
  }

  lemma RetryAllAdvances(s: Server, ids: set<Id>, now: int)
    ensures Advances(s, RetryAll(s, ids, now))
  {
    var s' := RetryAll(s, ids, now);
    assert forall id :: AdvancesAt(s, s', id);
  }

  lemma SuspendTaskAdvances(s: Server, id: Id, awaiting: seq<Id>)
    ensures Advances(s, SuspendTask(s, id, awaiting).0)
  {
    var s' := SuspendTask(s, id, awaiting).0;
    assert forall i :: AdvancesAt(s, s', i);
  }

  lemma {:induction false} BeatsOnlyTimers(s: Server, now: int, pid: string, refs: seq<TaskRef>)
    ensures Beats(s, now, pid, refs).0 == s.(tTimers := Beats(s, now, pid, refs).0.tTimers)
    decreases |refs|
  {
    if refs != [] && refs[0].id != "" {
      BeatsOnlyTimers(Beat(s, now, pid, refs[0]), now, pid, refs[1..]);
    }
  }

  lemma FencedAdvances(s: Server, now: int, action: FenceAction)
    requires Inv(s) && (action.FenceSettle? ==> !action.settle.state.Pending?)
    ensures Advances(s, Fenced(s, now, action).0)
  {
    match action
    case FenceCreate(args) => CreatePromiseAdvances(s, now, args);
    case FenceSettle(args) => SettlePromiseAdvances(s, now, args);
  }

  lemma FulfillTaskAdvances(s: Server, now: int, req: Request)
    requires Inv(s) && WellFormed(req) && req.TaskFulfill?
    ensures Advances(s, Handle(s, now, req).0)
  {
    if req.id != "" && s.TaskIs(req.id, Acquired) {
      assert Ok(s, req.id);
      FulfillOwnIsSettle(s, now, req.id, req.action, req.state, req.value);
      SettleAdvances(s, map[req.id := Outcome(req.state, req.value, now)], now);
    }
  }

  lemma AddListenerAdvances(s: Server, awaited: Id, address: string)
    ensures Advances(s, AddListener(s, awaited, address).0)
  {
    assert forall id :: AdvancesAt(s, AddListener(s, awaited, address).0, id);
  }

  lemma HandleAdvances(s: Server, now: int, req: Request)
    requires Inv(s) && WellFormed(req)
    ensures Advances(s, Handle(s, now, req).0)
  {
    match req
    case PromiseGet(_) => AdvancesReflexively(s);
    case PromiseCreate(args) => CreatePromiseAdvances(s, now, args);
    case PromiseSettle(args) => SettlePromiseAdvances(s, now, args);
    case RegisterListener(awaited, address) => AddListenerAdvances(s, awaited, address);
    case TaskCreate(pid, ttl, args) => CreateTaskAdvances(s, now, pid, ttl, args);
    case TaskAcquire(id, pid, ttl) =>
      if s.TaskIs(id, TaskState.Pending) { LendAdvances(s, now, id, pid, AtLeastOne(ttl)); }
      AdvancesReflexively(s);
    case TaskRelease(id) =>
      if id in s.tasks { ReleaseAdvances(s, map[id := s.tasks[id].version], now); }
    case TaskFulfill(_, _, _, _) => FulfillTaskAdvances(s, now, req);
    case TaskFence(id, version, action) => FencedAdvances(s, now, action);
    case TaskSuspend(id, awaiting) => SuspendTaskAdvances(s, id, awaiting);
    case TaskHeartbeat(pid, refs) => BeatsOnlyTimers(s, now, pid, refs);
    case UnknownKind =>
  }

  lemma PreparedAdvances(s: Server, now: int, req: Request)
    requires Inv(s)
    ensures Inv(Prepared(s, now, req)) && Advances(s, Prepared(s, now, req))
  {
    ClearedKeepsInv(s);
    assert forall id :: AdvancesAt(s, Cleared(s), id);
    AutoTimeoutsKeepInv(Cleared(s), now, Touched(req));
    AutoTimeoutsAdvance(Cleared(s), now, Touched(req));
    AdvancesTransitively(s, Cleared(s), Prepared(s, now, req));
  }

  lemma ApplyAdvances(s: Server, now: int, req: Request)
    requires Inv(s) && WellFormed(req)
    ensures Advances(s, Apply(s, now, req).0)
  {
    PreparedAdvances(s, now, req);
    HandleAdvances(Prepared(s, now, req), now, req);
    AdvancesTransitively(s, Prepared(s, now, req), Apply(s, now, req).0);
  }

  lemma TickAdvances(s: Server, now: int)
    requires Inv(s)
    ensures Advances(s, Tick(s, now))
  {
    var s1 := Settle(s, DueOutcomes(s, now), now);
    var s2 := Release(s1, ExpiredLeases(s, now), now);
    DueIsProper(s, now);
    SettleAdvances(s, DueOutcomes(s, now), now);
    ReleaseAdvances(s1, ExpiredLeases(s, now), now);
    AdvancesTransitively(s, s1, s2);
    RetryAllAdvances(s2, DueRetries(s, now), now);
    AdvancesTransitively(s, s2, Tick(s, now));
  }
}

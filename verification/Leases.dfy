/**
 Lease arithmetic: heartbeats half a lease apart keep a task with its holder.
 */
module Leases {
  import opened Protocol
  import opened Settlement
  import opened Requests
  import opened Invariant
  import opened Progress
  import opened Runs

  /** What a worker holds: a task, under a version, for so many milliseconds. */
  datatype Tenure = Tenure(id: Id, pid: string, version: int, ttl: int)

  predicate HeldBy(s: Server, l: Tenure) {
    && HoldsLease(s, l.id, l.version)
    && s.tasks[l.id].pid == Some(l.pid)
    && s.tasks[l.id].ttl == Some(l.ttl)
  }

  /** Held, and good for a whole lease counted from `since`. */
  predicate HeldSince(s: Server, l: Tenure, since: int) {
    && HeldBy(s, l)
    && l.id in s.tTimers
    && s.tTimers[l.id].kind.Lease?
    && SaturatingAdd(since, l.ttl) <= s.tTimers[l.id].at
  }

  /** The lease of `id` is the same before and after; only resumes may differ. */
  predicate SameLease(s: Server, s': Server, id: Id) {
    && id in s.tasks && id in s'.tasks && s'.tasks[id] == s.tasks[id].(resumes := s'.tasks[id].resumes)
    && (id in s'.tTimers <==> id in s.tTimers)
    && (id in s.tTimers ==> s'.tTimers[id] == s.tTimers[id])
  }

  // ---------------------------------------------------------------------
  //  Settling other promises
  // ---------------------------------------------------------------------

  lemma SettleSameLease(s: Server, outcomes: map<Id, Outcome>, now: int, id: Id)
    requires Inv(s) && Proper(s, outcomes) && s.TaskIs(id, Acquired) && id !in outcomes
    ensures SameLease(s, Settle(s, outcomes, now), id)
  {
    SettleIs(s, outcomes, now);
  }

  lemma PendingBefore(s: Server, s': Server, id: Id)
    requires Advances(s, s') && id in s.promises && s'.PendingPromise(id)
    ensures s.PendingPromise(id)
  {
    assert AdvancesAt(s, s', id);
  }

  lemma {:induction false} AutoTimeoutsSameLease(s: Server, now: int, ids: seq<Id>, id: Id)
    requires Inv(s) && s.TaskIs(id, Acquired) && AutoTimeouts(s, now, ids).PendingPromise(id)
    ensures SameLease(s, AutoTimeouts(s, now, ids), id)
    decreases |ids|
  {
    if ids != [] {
      var m := AutoTimeout(s, now, ids[0]);
      assert Ok(s, id);
      AutoTimeoutKeepsInv(s, now, ids[0]);
      AutoTimeoutAdvances(s, now, ids[0]);
      AutoTimeoutsAdvance(m, now, ids[1..]);
      assert AdvancesAt(s, m, id);
      PendingBefore(m, AutoTimeouts(s, now, ids), id);
      if Overdue(s, now, ids[0]) {
        var o := map[ids[0] := LazyOutcome(s.promises[ids[0]].record)];
        if id == ids[0] {
          SettledPromiseIs(s, o, now, id);
          assert false;
        }
        SettleSameLease(s, o, now, id);
      }
      AutoTimeoutsSameLease(m, now, ids[1..], id);
    }
  }

  lemma PreparedSameLease(s: Server, now: int, req: Request, id: Id)
    requires Inv(s) && s.TaskIs(id, Acquired) && Prepared(s, now, req).PendingPromise(id)
    ensures SameLease(s, Prepared(s, now, req), id)
  {
    ClearedKeepsInv(s);
    AutoTimeoutsSameLease(Cleared(s), now, Touched(req), id);
  }

  // ---------------------------------------------------------------------
  //  Requests that are not for the holder
  // ---------------------------------------------------------------------

  /** The request gives up the lease of `id`. */
  predicate GivesUp(s: Server, now: int, req: Request, id: Id) {
    || (req.TaskRelease? && req.id == id)
    || (req.TaskFulfill? && req.id == id)
    || (req.TaskSuspend? && req.id == id && !Handle(s, now, req).1.Redirect?)
  }

  lemma CreateSameLease(s: Server, now: int, args: CreateArgs, id: Id)
    requires Inv(s) && s.TaskIs(id, Acquired)
    ensures SameLease(s, CreatePromise(s, now, args).0, id)
  {
    assert Ok(s, id);
    if args.id != "" && args.id !in s.promises {
      if now >= Deadline(args) {
        CreateExpiredIs(s, now, args);
      } else {
        AddPendingTaskIs(AddPromise(s, args.id, FreshRecord(args, now)), args, now);
      }
    }
  }

  lemma SettleRequestSameLease(s: Server, now: int, args: SettleArgs, id: Id)
    requires Inv(s) && s.TaskIs(id, Acquired) && !args.state.Pending?
    requires SettlePromise(s, now, args).0.PendingPromise(id)
    ensures SameLease(s, SettlePromise(s, now, args).0, id)
  {
    if args.id != "" && s.PendingPromise(args.id) {
      var o := map[args.id := Outcome(args.state, args.value, now)];
      if args.id == id {
        SettledPromiseIs(s, o, now, id);
        assert false;
      }
      SettleSameLease(s, o, now, id);
    }
  }

  lemma FencedSameLease(s: Server, now: int, action: FenceAction, id: Id)
    requires Inv(s) && s.TaskIs(id, Acquired) && (action.FenceSettle? ==> !action.settle.state.Pending?)
    requires Fenced(s, now, action).0.PendingPromise(id)
    ensures SameLease(s, Fenced(s, now, action).0, id)
  {
    match action
    case FenceCreate(args) => CreateSameLease(s, now, args, id);
    case FenceSettle(args) => SettleRequestSameLease(s, now, args, id);
  }

  lemma FenceRequestSameLease(s: Server, now: int, task: Id, version: int, action: FenceAction, id: Id)
    requires Inv(s) && s.TaskIs(id, Acquired) && (action.FenceSettle? ==> !action.settle.state.Pending?)
    requires FenceTask(s, now, task, version, action).0.PendingPromise(id)
    ensures SameLease(s, FenceTask(s, now, task, version, action).0, id)
  {
    if task != "" && HoldsLease(s, task, version) {
      FencedSameLease(s, now, action, id);
    }
  }

  lemma FulfillOtherSameLease(s: Server, now: int, req: Request, id: Id)
    requires Inv(s) && WellFormed(req) && req.TaskFulfill? && req.id != id && s.TaskIs(id, Acquired)
    ensures SameLease(s, Handle(s, now, req).0, id)
  {
    if req.id != "" && s.TaskIs(req.id, Acquired) {
      assert Ok(s, req.id);
      FulfillOwnIsSettle(s, now, req.id, req.action, req.state, req.value);
      SettleSameLease(s, map[req.id := Outcome(req.state, req.value, now)], now, id);
    }
  }

  lemma CreateTaskSameLease(s: Server, now: int, pid: string, ttl: int, args: CreateArgs, id: Id)
    requires Inv(s) && s.TaskIs(id, Acquired)
    ensures SameLease(s, CreateTask(s, now, pid, ttl, args).0, id)
  {
    if pid != "" && args.id != "" && args.id !in s.promises && args.id !in s.tasks {
      CreateFreshTaskIs(s, now, pid, ttl, args);
    }
  }

  lemma AcquireSameLease(s: Server, now: int, task: Id, pid: string, ttl: int, id: Id)
    requires s.TaskIs(id, Acquired)
    ensures SameLease(s, AcquireTask(s, now, task, pid, ttl).0, id)
  {
  }

  lemma ReleaseOtherSameLease(s: Server, leases: map<Id, int>, now: int, id: Id)
    requires s.TaskIs(id, Acquired) && id !in leases
    ensures SameLease(s, Release(s, leases, now), id)
  {
  }

  lemma SuspendSameLease(s: Server, task: Id, awaiting: seq<Id>, id: Id)
    requires s.TaskIs(id, Acquired) && (task == id ==> SuspendTask(s, task, awaiting).1.Redirect?)
    ensures SameLease(s, SuspendTask(s, task, awaiting).0, id)
  {
  }

  lemma TaskRequestSameLease(s: Server, now: int, req: Request, id: Id)
    requires Inv(s) && WellFormed(req) && s.TaskIs(id, Acquired) && !GivesUp(s, now, req, id)
    requires req.TaskCreate? || req.TaskAcquire? || req.TaskRelease? || req.TaskSuspend? || req.TaskFulfill?
    ensures SameLease(s, Handle(s, now, req).0, id)
  {
    if req.TaskFulfill? {
      FulfillOtherSameLease(s, now, req, id);
    } else if req.TaskCreate? {
      CreateTaskSameLease(s, now, req.pid, req.ttl, req.create, id);
    } else if req.TaskAcquire? {
      AcquireSameLease(s, now, req.id, req.pid, req.ttl, id);
    } else if req.TaskSuspend? {
      SuspendSameLease(s, req.id, req.awaiting, id);
    } else if req.id in s.tasks {
      ReleaseOtherSameLease(s, map[req.id := s.tasks[req.id].version], now, id);
    }
  }

  lemma PromiseRequestSameLease(s: Server, now: int, req: Request, id: Id)
    requires Inv(s) && WellFormed(req) && s.TaskIs(id, Acquired) && Handle(s, now, req).0.PendingPromise(id)
    requires req.PromiseGet? || req.PromiseCreate? || req.PromiseSettle? || req.RegisterListener? || req.UnknownKind?
    ensures SameLease(s, Handle(s, now, req).0, id)
  {
    if req.PromiseCreate? {
      CreateSameLease(s, now, req.create, id);
    } else if req.PromiseSettle? {
      SettleRequestSameLease(s, now, req.settle, id);
    } else if req.RegisterListener? {
      assert AddListener(s, req.awaited, req.address).0.tasks == s.tasks;
    }
  }

  lemma HandleSameLease(s: Server, now: int, req: Request, id: Id)
    requires Inv(s) && WellFormed(req) && s.TaskIs(id, Acquired) && Handle(s, now, req).0.PendingPromise(id)
    requires !req.TaskHeartbeat? && !GivesUp(s, now, req, id)
    ensures SameLease(s, Handle(s, now, req).0, id)
  {
    if req.TaskFence? {
      FenceRequestSameLease(s, now, req.id, req.version, req.fenced, id);
    } else if req.PromiseGet? || req.PromiseCreate? || req.PromiseSettle? || req.RegisterListener? || req.UnknownKind? {
      PromiseRequestSameLease(s, now, req, id);
    } else {
      TaskRequestSameLease(s, now, req, id);
    }
  }

  // ---------------------------------------------------------------------
  //  Heartbeats
  // ---------------------------------------------------------------------

  predicate RefersTo(l: Tenure, r: TaskRef) {
    r.id == l.id && (r.version.None? || r.version.value == l.version)
  }

  /** Some reference ahead of the first malformed one is to this lease. */
  predicate Covers(l: Tenure, refs: seq<TaskRef>) {
    refs != [] && refs[0].id != "" && (RefersTo(l, refs[0]) || Covers(l, refs[1..]))
  }

  lemma BeatProlongs(s: Server, now: int, pid: string, r: TaskRef, l: Tenure, since: int)
    requires HeldSince(s, l, since) && since <= now
    ensures HeldSince(Beat(s, now, pid, r), l, since)
    ensures pid == l.pid && RefersTo(l, r) ==> HeldSince(Beat(s, now, pid, r), l, now)
  {
  }

  lemma {:induction false} BeatsProlong(s: Server, now: int, pid: string, refs: seq<TaskRef>, l: Tenure, since: int)
    requires HeldSince(s, l, since) && since <= now
    ensures HeldSince(Beats(s, now, pid, refs).0, l, since)
    ensures pid == l.pid && Covers(l, refs) ==> HeldSince(Beats(s, now, pid, refs).0, l, now)
    decreases |refs|
  {
    if refs != [] && refs[0].id != "" {
      var b := Beat(s, now, pid, refs[0]);
      BeatProlongs(s, now, pid, refs[0], l, since);
      BeatsProlong(b, now, pid, refs[1..], l, since);
      if pid == l.pid && RefersTo(l, refs[0]) {
        BeatsProlong(b, now, pid, refs[1..], l, now);
      }
    }
  }

  // ---------------------------------------------------------------------
  //  The scheduler
  // ---------------------------------------------------------------------

  lemma RearmSameLease(s: Server, leases: map<Id, int>, retries: set<Id>, now: int, id: Id)
    requires s.TaskIs(id, Acquired) && id !in leases
    ensures SameLease(s, RetryAll(Release(s, leases, now), retries, now), id)
  {
    ReleaseOtherSameLease(s, leases, now, id);
  }

  lemma TickSameLease(s: Server, now: int, id: Id)
    requires Inv(s) && s.TaskIs(id, Acquired) && id !in DuePromises(s, now)
    requires id in s.tTimers && now < s.tTimers[id].at
    ensures SameLease(s, Tick(s, now), id)
  {
    DueIsProper(s, now);
    SettleSameLease(s, DueOutcomes(s, now), now, id);
    RearmSameLease(Settle(s, DueOutcomes(s, now), now), ExpiredLeases(s, now), DueRetries(s, now), now, id);
  }

  lemma RearmEnds(s: Server, leases: map<Id, int>, retries: set<Id>, now: int, id: Id, version: int)
    requires HoldsLease(s, id, version) && id in leases && leases[id] == version
    ensures !HoldsLease(RetryAll(Release(s, leases, now), retries, now), id, version)
  {
    assert id in Standing(s, leases);
  }

  /** A tick takes the task away exactly when its lease has run out. */
  lemma TickKeepsLeaseExactly(s: Server, now: int, id: Id, version: int)
    requires Inv(s) && HoldsLease(s, id, version) && id !in DuePromises(s, now)
    ensures id in s.tTimers
    ensures HoldsLease(Tick(s, now), id, version) <==> now < s.tTimers[id].at
  {
    assert Ok(s, id);
    if now < s.tTimers[id].at {
      TickSameLease(s, now, id);
    } else {
      DueIsProper(s, now);
      SettleSameLease(s, DueOutcomes(s, now), now, id);
      RearmEnds(Settle(s, DueOutcomes(s, now), now), ExpiredLeases(s, now), DueRetries(s, now), now, id, version);
    }
  }

  // ---------------------------------------------------------------------
  //  Runs
  // ---------------------------------------------------------------------

  predicate BeatsFor(e: Event, l: Tenure) {
    e.Asked? && e.req.TaskHeartbeat? && e.req.pid != "" && e.req.pid == l.pid && Covers(l, e.req.refs)
  }

  /** When the lease was last renewed. */
  function LastBeat(es: seq<Event>, l: Tenure, granted: int): int {
    if es == [] then granted
    else if BeatsFor(es[|es| - 1], l) then es[|es| - 1].now
    else LastBeat(es[..|es| - 1], l, granted)
  }

  /** Time does not run backwards, and no tick comes more than half a lease
      after the last renewal: what heartbeats sent every `ttl / 2` achieve. */
  ghost predicate OnTime(es: seq<Event>, l: Tenure, granted: int) {
    forall k | 0 <= k < |es| ::
      var last := LastBeat(es[..k], l, granted);
      last <= es[k].now && (es[k].Clock? ==> es[k].now <= last + l.ttl / 2 && es[k].now < I64_MAX)
  }

  /** No request in the run gives the lease up. */
  ghost predicate NobodyGivesUp(s: Server, es: seq<Event>, id: Id) {
    forall k | 0 <= k < |es| && es[k].Asked? ::
      !GivesUp(Prepared(Run(s, es[..k]), es[k].now, es[k].req), es[k].now, es[k].req, id)
  }

  /** Half a lease is within a lease, saturation included. */
  lemma HalfIsWithin(since: int, now: int, ttl: int)
    requires 1 <= ttl && since <= now <= since + ttl / 2 && I64_MIN <= since && now < I64_MAX
    ensures now < SaturatingAdd(since, ttl)
  {
  }

  lemma RequestKeepsHeld(s: Server, now: int, req: Request, l: Tenure, since: int)
    requires Inv(s) && WellFormed(req) && HeldSince(s, l, since) && since <= now
    requires Apply(s, now, req).0.PendingPromise(l.id) && !GivesUp(Prepared(s, now, req), now, req, l.id)
    ensures HeldSince(Apply(s, now, req).0, l, if BeatsFor(Asked(now, req), l) then now else since)
  {
    var p := Prepared(s, now, req);
    PreparedAdvances(s, now, req);
    HandleAdvances(p, now, req);
    assert Ok(s, l.id) && AdvancesAt(s, p, l.id);
    PendingBefore(p, Apply(s, now, req).0, l.id);
    PreparedSameLease(s, now, req, l.id);
    if req.TaskHeartbeat? {
      BeatsProlong(p, now, req.pid, req.refs, l, since);
    } else {
      HandleSameLease(p, now, req, l.id);
    }
  }

  lemma ClockKeepsHeld(s: Server, now: int, l: Tenure, since: int)
    requires Inv(s) && HeldSince(s, l, since) && Step(s, Clock(now)).PendingPromise(l.id)
    requires 1 <= l.ttl && I64_MIN <= since <= now <= since + l.ttl / 2 && now < I64_MAX
    ensures HeldSince(Step(s, Clock(now)), l, since)
  {
    var c := Cleared(s);
    ClearedKeepsInv(s);
    HalfIsWithin(since, now, l.ttl);
    if l.id in DuePromises(c, now) {
      DueIsProper(c, now);
      SettledPromiseIs(c, DueOutcomes(c, now), now, l.id);
      assert false;
    }
    TickSameLease(c, now, l.id);
  }

  lemma PendingThroughout(s: Server, e: Event, id: Id)
    requires Inv(s) && Sensible(e) && id in s.promises && Step(s, e).PendingPromise(id)
    ensures s.PendingPromise(id)
  {
    StepKeepsInv(s, e);
    PendingBefore(s, Step(s, e), id);
  }

  lemma PrefixesOnTime(s: Server, es: seq<Event>, l: Tenure, granted: int)
    requires es != [] && SensibleRun(es) && OnTime(es, l, granted) && NobodyGivesUp(s, es, l.id)
    ensures var before := es[..|es| - 1];
            SensibleRun(before) && OnTime(before, l, granted) && NobodyGivesUp(s, before, l.id)
  {
    var before := es[..|es| - 1];
    assert forall k | 0 <= k <= |before| :: before[..k] == es[..k];
  }

  lemma KeyStays(s: Server, es: seq<Event>, id: Id)
    requires Inv(s) && SensibleRun(es) && id in s.promises
    ensures id in Run(s, es).promises
  {
    RunAdvancesFrom(s, es, 0);
    assert es[..0] == [] && AdvancesAt(s, Run(s, es), id);
  }

  /** A holder whose heartbeats are applied no more than half a lease apart keeps
      its task, as long as nobody gives the lease up and the promise is pending. */
  lemma {:induction false} HeartbeatsKeepTheLease(s: Server, es: seq<Event>, l: Tenure, granted: int)
    requires Inv(s) && SensibleRun(es) && HeldSince(s, l, granted) && 1 <= l.ttl && I64_MIN <= granted
    requires OnTime(es, l, granted) && NobodyGivesUp(s, es, l.id)
    requires Run(s, es).PendingPromise(l.id)
    ensures I64_MIN <= LastBeat(es, l, granted)
    ensures HeldSince(Run(s, es), l, LastBeat(es, l, granted))
  {
    if es != [] {
      var before, e := es[..|es| - 1], es[|es| - 1];
      var m := Run(s, before);
      assert Ok(s, l.id);
      PrefixesOnTime(s, es, l, granted);
      RunKeepsInv(s, before);
      KeyStays(s, before, l.id);
      PendingThroughout(m, e, l.id);
      HeartbeatsKeepTheLease(s, before, l, granted);
      match e
      case Asked(now, req) => RequestKeepsHeld(m, now, req, l, LastBeat(before, l, granted));
      case Clock(now) => ClockKeepsHeld(m, now, l, LastBeat(before, l, granted));
    }
  }

  /** The tenure a granted request starts.  `task.acquire` raises its ttl to at
      least one; `task.create` takes it as it is. */
  function TenureOf(req: Request, version: int): Tenure
    requires req.TaskCreate? || req.TaskAcquire?
  {
    match req
    case TaskAcquire(id, pid, ttl) => Tenure(id, pid, version, if ttl >= 1 then ttl else 1)
    case TaskCreate(pid, ttl, args) => Tenure(args.id, pid, version, ttl)
  }

  lemma AcquireStarts(s: Server, now: int, id: Id, pid: string, ttl: int)
    requires AcquireTask(s, now, id, pid, ttl).1.TaskReply?
    ensures var (s', reply) := AcquireTask(s, now, id, pid, ttl);
            HeldSince(s', TenureOf(TaskAcquire(id, pid, ttl), reply.task.version), now)
  {
  }

  lemma CreateStarts(s: Server, now: int, pid: string, ttl: int, args: CreateArgs)
    requires Inv(s)
    requires CreateTask(s, now, pid, ttl, args).1.TaskReply? && CreateTask(s, now, pid, ttl, args).1.task.state.Acquired?
    ensures var (s', reply) := CreateTask(s, now, pid, ttl, args);
            HeldSince(s', TenureOf(TaskCreate(pid, ttl, args), reply.task.version), now)
  {
    assert Ok(s, args.id);
  }

  /** Every granted request, of either kind, starts the tenure its worker counts
      on: under the version the reply names, for the ttl asked for. */
  lemma GrantStartsTenure(s: Server, now: int, req: Request, g: Grant)
    requires Inv(s) && Granted(s, Asked(now, req)) == Some(g)
    ensures req.TaskCreate? || req.TaskAcquire?
    ensures TenureOf(req, g.version).id == g.task
    ensures HeldSince(Apply(s, now, req).0, TenureOf(req, g.version), now)
  {
    PreparedAdvances(s, now, req);
    var q := Prepared(s, now, req);
    match req
    case TaskAcquire(id, pid, ttl) => AcquireStarts(q, now, id, pid, ttl);
    case TaskCreate(pid, ttl, args) => CreateStarts(q, now, pid, ttl, args);
  }

  /** From grant to any later point: the holder of a granted lease of at least a
      millisecond keeps it as long as its heartbeats are on time. */
  lemma GrantedLeaseIsKept(s: Server, now: int, req: Request, g: Grant, es: seq<Event>)
    requires Inv(s) && Granted(s, Asked(now, req)) == Some(g)
    requires var l, s' := TenureOf(req, g.version), Apply(s, now, req).0;
             && 1 <= l.ttl && I64_MIN <= now && SensibleRun(es)
             && OnTime(es, l, now) && NobodyGivesUp(s', es, g.task) && Run(s', es).PendingPromise(g.task)
    ensures HoldsLease(Run(Apply(s, now, req).0, es), g.task, g.version)
  {
    GrantStartsTenure(s, now, req, g);
    ApplyKeepsInv(s, now, req);
    HeartbeatsKeepTheLease(Apply(s, now, req).0, es, TenureOf(req, g.version), now);
  }
}

/**
 Replies are current: every record, task and preload snapshot the server sends
 back is what it holds once the request has been carried out.
 */
module Replies {
  import opened Protocol
  import opened Settlement
  import opened Requests
  import opened Invariant
  import opened Progress

  /** The promise a request is about. */
  function Subject(req: Request): Id {
    match req
    case PromiseGet(id) => id
    case PromiseCreate(args) => args.id
    case PromiseSettle(args) => args.id
    case RegisterListener(awaited, _) => awaited
    case TaskCreate(_, _, args) => args.id
    case TaskAcquire(id, _, _) => id
    case TaskRelease(id) => id
    case TaskFulfill(id, action, _, _) => if action.Some? then action.value else id
    case TaskFence(_, _, FenceCreate(args)) => args.id
    case TaskFence(_, _, FenceSettle(args)) => args.id
    case TaskSuspend(id, _) => id
    case TaskHeartbeat(_, _) => ""
    case UnknownKind => ""
  }

  /** The record a reply shows of its subject, if it shows one. */
  function Shown(reply: Reply): Option<Record> {
    match reply
    case PromiseReply(_, promise) => promise
    case TaskReply(_, _, owner, _) => owner
    case FenceReply(result, _) => result
    case _ => None
  }

  function Sampled(reply: Reply): Preloaded {
    match reply
    case TaskReply(_, _, _, preload) => preload
    case FenceReply(_, preload) => preload
    case Redirect(preload) => preload
    case _ => map[]
  }

  predicate Current(s: Server, id: Id, r: Record) {
    id in s.promises && s.promises[id].record == r
  }

  predicate SampleCurrent(s: Server, preload: Preloaded, p: Id) {
    p in preload ==> Current(s, p, preload[p])
  }

  predicate ReplyCurrent(s: Server, subject: Id, reply: Reply, p: Id) {
    && (Shown(reply).Some? ==> Current(s, subject, Shown(reply).value))
    && SampleCurrent(s, Sampled(reply), p)
    && (reply.TaskReply? ==> subject in s.tasks && reply.task == ToTaskRecord(s.tasks[subject]))
  }

  lemma PreloadCurrent(s: Server, id: Id, p: Id)
    ensures SampleCurrent(s, Preload(s, id), p)
  {
  }

  lemma CreateCurrent(s: Server, now: int, args: CreateArgs)
    requires Inv(s)
    ensures var (s', reply) := CreatePromise(s, now, args);
            reply.PromiseReply? ==> reply.promise.Some? && Current(s', args.id, reply.promise.value)
  {
    if args.id != "" && args.id !in s.promises {
      if now >= Deadline(args) {
        CreateExpiredIs(s, now, args);
      } else {
        AddPendingTaskIs(AddPromise(s, args.id, FreshRecord(args, now)), args, now);
      }
    }
  }

  lemma SettleCurrent(s: Server, now: int, args: SettleArgs)
    ensures var (s', reply) := SettlePromise(s, now, args);
            reply.PromiseReply? ==> reply.promise.Some? && Current(s', args.id, reply.promise.value)
  {
    if args.id != "" && s.PendingPromise(args.id) {
      SettledPromiseIs(s, map[args.id := Outcome(args.state, args.value, now)], now, args.id);
    }
  }

  lemma FencedCreateCurrent(s: Server, now: int, args: CreateArgs)
    requires Inv(s)
    ensures var (s', reply) := Fenced(s, now, FenceCreate(args));
            reply.PromiseReply? ==> reply.promise.Some? && Current(s', args.id, reply.promise.value)
  {
    CreateCurrent(s, now, args);
  }

  lemma FencedSettleCurrent(s: Server, now: int, args: SettleArgs)
    ensures var (s', reply) := Fenced(s, now, FenceSettle(args));
            reply.PromiseReply? ==> reply.promise.Some? && Current(s', args.id, reply.promise.value)
  {
    SettleCurrent(s, now, args);
  }

  /** A fence answers with what it let through. */
  lemma FenceReplies(s: Server, now: int, id: Id, version: int, action: FenceAction)
    ensures var (s', reply) := FenceTask(s, now, id, version, action);
            var (s1, inner) := Fenced(s, now, action);
            if reply.FenceReply? then
              && s' == s1
              && reply == FenceReply(if inner.PromiseReply? then inner.promise else None, Preload(s', id))
            else reply.Failed? || reply.NotFound? || reply.Conflict?
  {
  }

  lemma FenceReplyCurrent(s': Server, subject: Id, inner: Reply, reply: Reply, id: Id, p: Id)
    requires reply == FenceReply(if inner.PromiseReply? then inner.promise else None, Preload(s', id))
    requires inner.PromiseReply? ==> inner.promise.Some? && Current(s', subject, inner.promise.value)
    ensures ReplyCurrent(s', subject, reply, p)
  {
    PreloadCurrent(s', id, p);
  }

  lemma FenceCreateCurrent(s: Server, now: int, id: Id, version: int, args: CreateArgs, p: Id)
    requires Inv(s)
    ensures var (s', reply) := FenceTask(s, now, id, version, FenceCreate(args));
            ReplyCurrent(s', args.id, reply, p)
  {
    var (s', reply) := FenceTask(s, now, id, version, FenceCreate(args));
    FenceReplies(s, now, id, version, FenceCreate(args));
    if reply.FenceReply? {
      FencedCreateCurrent(s, now, args);
      FenceReplyCurrent(s', args.id, Fenced(s, now, FenceCreate(args)).1, reply, id, p);
    }
  }

  lemma FenceSettleCurrent(s: Server, now: int, id: Id, version: int, args: SettleArgs, p: Id)
    ensures var (s', reply) := FenceTask(s, now, id, version, FenceSettle(args));
            ReplyCurrent(s', args.id, reply, p)
  {
    var (s', reply) := FenceTask(s, now, id, version, FenceSettle(args));
    FenceReplies(s, now, id, version, FenceSettle(args));
    if reply.FenceReply? {
      FencedSettleCurrent(s, now, args);
      FenceReplyCurrent(s', args.id, Fenced(s, now, FenceSettle(args)).1, reply, id, p);
    }
  }

  lemma CreateFreshReplies(s: Server, now: int, pid: string, ttl: int, args: CreateArgs)
    requires pid != "" && args.id != "" && args.id !in s.promises && args.id !in s.tasks
    ensures var (s', reply) := CreateTask(s, now, pid, ttl, args);
            reply == if now >= Deadline(args)
                     then TaskReply(200, ToTaskRecord(FULFILLED_TASK), Some(ExpiredRecord(args)), map[])
                     else TaskReply(201, ToTaskRecord(Task(Acquired, 0, Some(pid), Some(ttl), {})),
                                    Some(FreshRecord(args, now)), Preload(s', args.id))
  {
  }

  lemma TaskReplyCurrent(s': Server, id: Id, reply: Reply, p: Id)
    requires reply.TaskReply? && (reply.preload == map[] || reply.preload == Preload(s', id))
    requires reply.owner.Some? && Current(s', id, reply.owner.value)
    requires id in s'.tasks && reply.task == ToTaskRecord(s'.tasks[id])
    ensures ReplyCurrent(s', id, reply, p)
  {
    PreloadCurrent(s', id, p);
  }

  lemma CreateFreshCurrent(s: Server, now: int, pid: string, ttl: int, args: CreateArgs, p: Id)
    requires pid != "" && args.id != "" && args.id !in s.promises && args.id !in s.tasks
    ensures var (s', reply) := CreateTask(s, now, pid, ttl, args);
            ReplyCurrent(s', args.id, reply, p)
  {
    var (s', reply) := CreateTask(s, now, pid, ttl, args);
    CreateFreshTaskIs(s, now, pid, ttl, args);
    CreateFreshReplies(s, now, pid, ttl, args);
    TaskReplyCurrent(s', args.id, reply, p);
  }

  lemma LendCurrent(s: Server, now: int, pid: string, ttl: int, args: CreateArgs, p: Id)
    requires pid == "" || args.id == "" || args.id in s.promises || args.id in s.tasks
    ensures var (s', reply) := CreateTask(s, now, pid, ttl, args);
            ReplyCurrent(s', args.id, reply, p)
  {
    PreloadCurrent(s, args.id, p);
  }

  lemma CreateTaskCurrent(s: Server, now: int, pid: string, ttl: int, args: CreateArgs, p: Id)
    ensures var (s', reply) := CreateTask(s, now, pid, ttl, args);
            ReplyCurrent(s', args.id, reply, p)
  {
    if pid != "" && args.id != "" && args.id !in s.promises && args.id !in s.tasks {
      CreateFreshCurrent(s, now, pid, ttl, args, p);
    } else {
      LendCurrent(s, now, pid, ttl, args, p);
    }
  }

  lemma AcquireCurrent(s: Server, now: int, id: Id, pid: string, ttl: int, p: Id)
    ensures var (s', reply) := AcquireTask(s, now, id, pid, ttl);
            ReplyCurrent(s', id, reply, p)
  {
  }

  lemma SuspendCurrent(s: Server, id: Id, awaiting: seq<Id>, p: Id)
    ensures var (s', reply) := SuspendTask(s, id, awaiting);
            ReplyCurrent(s', id, reply, p)
  {
    PreloadCurrent(s, id, p);
  }

  lemma RecordsUntouched(s: Server, id: Id, d: Id, now: int)
    ensures RecordOf(Announce(Fulfill(s, {id}), {d}, now), d) == RecordOf(s, d)
  {
  }

  lemma FulfillReplies(s: Server, now: int, id: Id, d: Id, state: PromiseState, value: Json)
    ensures var (s', reply) := FulfillTask(s, now, id, Some(d), state, value);
            if reply.PromiseReply? then reply.promise == RecordOf(s', d)
            else reply.Failed? || reply.NotFound? || reply.Conflict?
  {
    var s1 := if s.PendingPromise(d) then Mark(s, map[d := Outcome(state, value, now)]) else s;
    RecordsUntouched(s1, id, d, now);
  }

  lemma FulfillCurrent(s: Server, now: int, id: Id, action: Option<Id>, state: PromiseState, value: Json, p: Id)
    ensures var (s', reply) := FulfillTask(s, now, id, action, state, value);
            ReplyCurrent(s', if action.Some? then action.value else id, reply, p)
  {
    var d := if action.Some? then action.value else id;
    FulfillReplies(s, now, id, d, state, value);
    assert FulfillTask(s, now, id, action, state, value) == FulfillTask(s, now, id, Some(d), state, value);
  }

  lemma PromiseRequestCurrent(s: Server, now: int, req: Request, p: Id)
    requires Inv(s) && (req.PromiseGet? || req.PromiseCreate? || req.PromiseSettle? || req.RegisterListener?)
    ensures ReplyCurrent(Handle(s, now, req).0, Subject(req), Handle(s, now, req).1, p)
  {
    if req.PromiseCreate? {
      CreateCurrent(s, now, req.create);
    } else if req.PromiseSettle? {
      SettleCurrent(s, now, req.settle);
    }
  }

  lemma {:induction false} HeartbeatShowsNothing(s: Server, now: int, pid: string, refs: seq<TaskRef>)
    ensures Beats(s, now, pid, refs).1 == Done || Beats(s, now, pid, refs).1 == Failed
    decreases |refs|
  {
    if refs != [] && refs[0].id != "" {
      HeartbeatShowsNothing(Beat(s, now, pid, refs[0]), now, pid, refs[1..]);
    }
  }

  lemma TaskRequestCurrent(s: Server, now: int, req: Request, p: Id)
    requires Inv(s) && (req.TaskCreate? || req.TaskAcquire? || req.TaskSuspend? || req.TaskFulfill? || req.TaskFence?)
    ensures ReplyCurrent(Handle(s, now, req).0, Subject(req), Handle(s, now, req).1, p)
  {
    if req.TaskFence? && req.fenced.FenceCreate? {
      FenceCreateCurrent(s, now, req.id, req.version, req.fenced.create, p);
    } else if req.TaskFence? {
      FenceSettleCurrent(s, now, req.id, req.version, req.fenced.settle, p);
    } else if req.TaskCreate? {
      CreateTaskCurrent(s, now, req.pid, req.ttl, req.create, p);
    } else if req.TaskAcquire? {
      AcquireCurrent(s, now, req.id, req.pid, req.ttl, p);
    } else if req.TaskSuspend? {
      SuspendCurrent(s, req.id, req.awaiting, p);
    } else {
      FulfillCurrent(s, now, req.id, req.action, req.state, req.value, p);
    }
  }

  /** Whatever a reply shows is the state the request left behind. */
  lemma RepliesAreCurrent(s: Server, now: int, req: Request, p: Id)
    requires Inv(s)
    ensures ReplyCurrent(Apply(s, now, req).0, Subject(req), Apply(s, now, req).1, p)
  {
    ClearedKeepsInv(s);
    AutoTimeoutsKeepInv(Cleared(s), now, Touched(req));
    var q := Prepared(s, now, req);
    if req.TaskHeartbeat? {
      HeartbeatShowsNothing(q, now, req.pid, req.refs);
    } else if req.PromiseGet? || req.PromiseCreate? || req.PromiseSettle? || req.RegisterListener? {
      PromiseRequestCurrent(q, now, req, p);
    } else if !req.TaskRelease? && !req.UnknownKind? {
      TaskRequestCurrent(q, now, req, p);
    }
  }

  predicate IsError(reply: Reply) { reply.Failed? || reply.NotFound? || reply.Conflict? }

  /** Some reference ahead of the first malformed one is to a lease of `pid` on `t`. */
  predicate BeatsOn(s: Server, pid: string, refs: seq<TaskRef>, t: Id) {
    refs != [] && refs[0].id != ""
    && ((refs[0].id == t && BeatCounts(s, pid, refs[0])) || BeatsOn(s, pid, refs[1..], t))
  }

  function RenewedTimer(s: Server, now: int, t: Id): TaskTimer
    requires t in s.tasks
  {
    TaskTimer(Lease, SaturatingAdd(now, LeaseLength(s.tasks[t])))
  }

  lemma {:induction false} BeatsOnKept(s: Server, s': Server, pid: string, refs: seq<TaskRef>, t: Id)
    requires s'.tasks == s.tasks
    ensures BeatsOn(s', pid, refs, t) == BeatsOn(s, pid, refs, t)
  {
    if refs != [] {
      BeatsOnKept(s, s', pid, refs[1..], t);
    }
  }

  /** What a heartbeat does to one timer, refused or not. */
  lemma {:induction false} BeatsAt(s: Server, now: int, pid: string, refs: seq<TaskRef>, t: Id)
    ensures var s' := Beats(s, now, pid, refs).0;
            && s'.tasks == s.tasks
            && (if BeatsOn(s, pid, refs, t) then t in s.tasks && t in s'.tTimers && s'.tTimers[t] == RenewedTimer(s, now, t)
                else (t in s'.tTimers <==> t in s.tTimers) && (t in s.tTimers ==> s'.tTimers[t] == s.tTimers[t]))
    decreases |refs|
  {
    if refs != [] && refs[0].id != "" {
      var b := Beat(s, now, pid, refs[0]);
      BeatsAt(b, now, pid, refs[1..], t);
      BeatsOnKept(s, b, pid, refs[1..], t);
    }
  }

  /** The heartbeat moves the timer of `t`. */
  predicate Moves(s: Server, now: int, pid: string, refs: seq<TaskRef>, t: Id) {
    BeatsOn(s, pid, refs, t) && t in s.tasks && !(t in s.tTimers && s.tTimers[t] == RenewedTimer(s, now, t))
  }

  lemma BeatsChangeExactly(s: Server, now: int, pid: string, refs: seq<TaskRef>)
    ensures Beats(s, now, pid, refs).0 != s <==> exists t :: Moves(s, now, pid, refs, t)
  {
    var s' := Beats(s, now, pid, refs).0;
    BeatsOnlyTimers(s, now, pid, refs);
    forall t ensures Moves(s, now, pid, refs, t)
                <==> !((t in s'.tTimers <==> t in s.tTimers) && (t in s.tTimers ==> s'.tTimers[t] == s.tTimers[t]))
    {
      BeatsAt(s, now, pid, refs, t);
    }
    if forall t :: !Moves(s, now, pid, refs, t) {
      assert s'.tTimers == s.tTimers;
    }
  }

  /** The request is a heartbeat that renews some lease before it fails. */
  ghost predicate HalfBeaten(s: Server, now: int, req: Request) {
    req.TaskHeartbeat? && req.pid != "" && exists t :: Moves(s, now, req.pid, req.refs, t)
  }

  lemma OtherErrorsChangeNothing(s: Server, now: int, req: Request)
    requires !req.TaskHeartbeat? && IsError(Apply(s, now, req).1)
    ensures Apply(s, now, req).0 == Prepared(s, now, req)
  {
  }

  /** A request that is refused, finds nothing or conflicts does no more than
      expire what was overdue, unless it is a heartbeat that names a live lease of
      its worker, due to move, ahead of its first malformed reference. */
  lemma ErrorsChangeNothingExactly(s: Server, now: int, req: Request)
    requires IsError(Apply(s, now, req).1)
    ensures Apply(s, now, req).0 == Prepared(s, now, req) <==> !HalfBeaten(Prepared(s, now, req), now, req)
  {
    if req.TaskHeartbeat? {
      BeatsChangeExactly(Prepared(s, now, req), now, req.pid, req.refs);
    } else {
      OtherErrorsChangeNothing(s, now, req);
    }
  }

  /** Such heartbeats exist: for any lease whose timer is not already there. */
  lemma HeartbeatFailsHalfWay(s: Server, now: int, t: Id, pid: string)
    requires t != "" && pid != "" && s.TaskIs(t, Acquired) && s.tasks[t].pid == Some(pid)
    requires t in s.tTimers && s.tTimers[t] != RenewedTimer(s, now, t)
    ensures var req := TaskHeartbeat(pid, [TaskRef(t, None), TaskRef("", None)]);
            Apply(s, now, req).1.Failed? && Apply(s, now, req).0 != Prepared(s, now, req)
  {
    var refs := [TaskRef(t, None), TaskRef("", None)];
    var q := Prepared(s, now, TaskHeartbeat(pid, refs));
    assert refs[1..] == [TaskRef("", None)];
    assert Moves(q, now, pid, refs, t);
    BeatsChangeExactly(q, now, pid, refs);
  }
}

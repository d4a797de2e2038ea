/**
 What can be seen of a request or a tick: the records, tasks, timers and messages
 it leaves behind, each in terms of what was there before and of what was asked.
 */
module Observable {
  import opened Protocol
  import opened Settlement
  import opened Requests
  import opened Invariant
  import opened Progress
  import Ids
  import Leases
  import Redirects
  import Replies
  import Timestamps

  // ---------------------------------------------------------------------
  //  Lazy expiry
  // ---------------------------------------------------------------------

  lemma AutoTimeoutSettlesExactly(s: Server, now: int, other: Id, id: Id)
    requires s.PendingPromise(id)
    ensures var s' := AutoTimeout(s, now, other);
            && id in s'.promises
            && (s'.PendingPromise(id) <==> !(other == id && Overdue(s, now, id)))
            && (s'.PendingPromise(id) ==> s'.promises[id].record == s.promises[id].record)
  {
    if Overdue(s, now, other) {
      SettledPromiseIs(s, map[other := LazyOutcome(s.promises[other].record)], now, id);
    }
  }

  lemma {:induction false} AutoTimeoutsSettleExactly(s: Server, now: int, ids: seq<Id>, id: Id)
    requires Inv(s) && s.PendingPromise(id)
    ensures var s' := AutoTimeouts(s, now, ids);
            s'.SettledPromise(id) <==> id in ids && Overdue(s, now, id)
    ensures id in AutoTimeouts(s, now, ids).promises
    decreases |ids|
  {
    if ids != [] {
      var m := AutoTimeout(s, now, ids[0]);
      AutoTimeoutSettlesExactly(s, now, ids[0], id);
      AutoTimeoutKeepsInv(s, now, ids[0]);
      if m.PendingPromise(id) {
        AutoTimeoutsSettleExactly(m, now, ids[1..], id);
      } else {
        AutoTimeoutsAdvance(m, now, ids[1..]);
        assert AdvancesAt(m, AutoTimeouts(s, now, ids), id);
      }
    }
  }

  /** The request names the promise: by its own id, or as the promise it creates,
      settles, listens to or awaits. */
  predicate Names(req: Request, d: Id) {
    match req
    case PromiseGet(id) => d == id
    case PromiseCreate(args) => d == args.id
    case PromiseSettle(args) => d == args.id
    case RegisterListener(awaited, _) => d == awaited
    case TaskCreate(_, _, args) => d == args.id
    case TaskAcquire(id, _, _) => d == id
    case TaskRelease(id) => d == id
    case TaskFulfill(id, _, _, _) => d == id
    case TaskFence(id, _, FenceCreate(args)) => d == id || d == args.id
    case TaskFence(id, _, FenceSettle(args)) => d == id || d == args.id
    case TaskSuspend(id, awaiting) => d == id || (d != "" && d in awaiting)
    case TaskHeartbeat(_, _) => false
    case UnknownKind => false
  }

  lemma {:induction false} NonEmptyHas(ids: seq<Id>, d: Id)
    ensures d in NonEmpty(ids) <==> d in ids && d != ""
  {
    if ids != [] {
      NonEmptyHas(ids[1..], d);
    }
  }

  lemma TouchedIsNamed(req: Request, d: Id)
    ensures d in Touched(req) <==> Names(req, d)
  {
    if req.TaskSuspend? { NonEmptyHas(req.awaiting, d); }
  }

  /** Before a request is handled, exactly the promises it names that are overdue end,
      each by its deadline, and no other promise changes its record. */
  lemma LazyExpiryExactly(s: Server, now: int, req: Request, d: Id)
    requires Inv(s) && d in s.promises
    ensures var q := Prepared(s, now, req);
            && d in q.promises
            && (if s.promises[d].record.state.Pending? && Names(req, d) && s.promises[d].record.timeoutAt <= now
                then Timestamps.EndedByDeadline(q.promises[d].record)
                else q.promises[d].record == s.promises[d].record)
  {
    ClearedKeepsInv(s);
    TouchedIsNamed(req, d);
    PreparedAdvances(s, now, req);
    assert AdvancesAt(s, Prepared(s, now, req), d);
    if s.PendingPromise(d) {
      AutoTimeoutsSettleExactly(Cleared(s), now, Touched(req), d);
      Timestamps.AutoTimeoutsEnd(Cleared(s), now, Touched(req), d);
    }
  }

  predicate ShowsOverdue(r: Record, now: int) { r.state.Pending? && r.timeoutAt <= now }

  /** Nobody is ever told that an overdue promise is pending: the record a reply shows
      of the promise asked about is never that. */
  lemma NoReplyShowsOverdue(s: Server, now: int, req: Request)
    requires Inv(s) && WellFormed(req)
    ensures var shown := Replies.Shown(Apply(s, now, req).1);
            shown.Some? ==> !ShowsOverdue(shown.value, now)
  {
    var q, d, reply := Prepared(s, now, req), Replies.Subject(req), Apply(s, now, req).1;
    if Replies.Shown(reply).Some? {
      Replies.RepliesAreCurrent(s, now, req, "");
      PreparedAdvances(s, now, req);
      HandleAdvances(q, now, req);
      assert AdvancesAt(q, Apply(s, now, req).0, d);
      Timestamps.AutoTimeoutsKeys(Cleared(s), now, Touched(req));
      if d in s.promises {
        LazyExpiryExactly(s, now, req, d);
        if req.TaskHeartbeat? { Replies.HeartbeatShowsNothing(q, now, req.pid, req.refs); }
        assert Names(req, d);
      } else {
        NewIsNotOverdue(q, now, req, d);
      }
    }
  }

  lemma CreatedIsNotOverdue(s: Server, now: int, args: CreateArgs, d: Id)
    requires Inv(s) && d !in s.promises && d in CreatePromise(s, now, args).0.promises
    ensures !ShowsOverdue(CreatePromise(s, now, args).0.promises[d].record, now)
  {
    if args.id != "" && args.id !in s.promises {
      if now >= Deadline(args) {
        CreateExpiredIs(s, now, args);
      } else {
        AddPendingTaskIs(AddPromise(s, args.id, FreshRecord(args, now)), args, now);
      }
    }
  }

  lemma NewIsNotOverdue(s: Server, now: int, req: Request, d: Id)
    requires Inv(s) && WellFormed(req) && d !in s.promises && d in Handle(s, now, req).0.promises
    ensures !ShowsOverdue(Handle(s, now, req).0.promises[d].record, now)
  {
    var x := Redirects.SettledBy(s, now, req);
    if x.Settling? {
      Redirects.HandleSettles(s, now, req);
      Timestamps.SettleAddsNothing(s, map[x.id := x.outcome], now);
    } else if req.PromiseCreate? {
      CreatedIsNotOverdue(s, now, req.create, d);
    } else if req.TaskFence? {
      Redirects.FenceIsFenced(s, now, req.id, req.version, req.fenced);
      if req.fenced.FenceCreate? {
        CreatedIsNotOverdue(s, now, req.fenced.create, d);
      } else if req.id != "" && HoldsLease(s, req.id, req.version) {
        Redirects.SettleQuietly(s, now, req.fenced.settle);
      }
    } else if req.TaskCreate? {
      if req.pid != "" && req.create.id != "" && req.create.id !in s.promises && req.create.id !in s.tasks {
        CreateFreshTaskIs(s, now, req.pid, req.ttl, req.create);
      }
    } else {
      Timestamps.QuietAddsNothing(s, now, req);
    }
  }

  // ---------------------------------------------------------------------
  //  Creation
  // ---------------------------------------------------------------------

  /** Promise, task and timers of `id` are the same in both. */
  predicate SameAt(s: Server, s': Server, id: Id) {
    && (id in s'.promises <==> id in s.promises) && (id in s.promises ==> s'.promises[id] == s.promises[id])
    && (id in s'.tasks <==> id in s.tasks) && (id in s.tasks ==> s'.tasks[id] == s.tasks[id])
    && (id in s'.pTimers <==> id in s.pTimers) && (id in s.pTimers ==> s'.pTimers[id] == s.pTimers[id])
    && (id in s'.tTimers <==> id in s.tTimers) && (id in s.tTimers ==> s'.tTimers[id] == s.tTimers[id])
  }

  /** A create without a deadline never expires. */
  predicate DueAt(args: CreateArgs, at: int) {
    match args.timeoutAt
    case Some(t) => at == t
    case None => at == I64_MAX
  }

  /** The promise is pending, with what the request gave, and nobody waits for it. */
  predicate Created(p: Promise, args: CreateArgs, now: int) {
    && p.record.state.Pending?
    && p.record.param == args.param && p.record.tags == args.tags && DueAt(args, p.record.timeoutAt)
    && p.record.value == Null && p.record.createdAt == now && p.record.settledAt.None?
    && p.awaiters == {} && p.subscribers == {}
  }

  /** The delay tag gives a moment still to come. */
  predicate Delayed(args: CreateArgs, now: int) {
    TAG_DELAY in args.tags && ParseI64(args.tags[TAG_DELAY]).Some? && now < ParseI64(args.tags[TAG_DELAY]).value
  }

  /** A promise with a target comes with a pending task and a promise timer.  If it is
      delayed its retry timer stands at that moment and nothing is sent; otherwise its
      execute message goes out at once and the timer stands half a minute ahead. */
  predicate Launched(s: Server, args: CreateArgs, now: int) {
    && args.id in s.tasks && s.tasks[args.id] == Task(TaskState.Pending, 0, None, None, {})
    && args.id in s.pTimers && DueAt(args, s.pTimers[args.id])
    && args.id in s.tTimers && s.tTimers[args.id].kind.Retry?
    && (if Delayed(args, now) then
          && args.id !in s.executes
          && s.tTimers[args.id].at == ParseI64(args.tags[TAG_DELAY]).value
        else
          && TAG_TARGET in args.tags
          && args.id in s.executes && s.executes[args.id] == Execute(args.tags[TAG_TARGET], 0)
          && s.tTimers[args.id].at == now + 30_000)
  }

  predicate NoTask(s: Server, id: Id) {
    id !in s.tasks && id !in s.pTimers && id !in s.tTimers && id !in s.executes
  }

  predicate CreatedAndLaunched(s': Server, args: CreateArgs, now: int) {
    && args.id in s'.promises && Created(s'.promises[args.id], args, now)
    && (if TAG_TARGET in args.tags then Launched(s', args, now) else NoTask(s', args.id))
  }

  lemma LaunchedByCreate(s: Server, args: CreateArgs, now: int)
    requires s.executes == map[] && TAG_TARGET in args.tags
    requires args.id in s.promises && s.promises[args.id].record.tags == args.tags
    ensures Launched(AddPendingTask(s, args, now), args, now)
    ensures AddPendingTask(s, args, now).executes.Keys <= {args.id}
    ensures AddPendingTask(s, args, now).promises == s.promises && AddPendingTask(s, args, now).unblocks == s.unblocks
    ensures forall other | other != args.id :: SameAt(s, AddPendingTask(s, args, now), other)
  {
  }

  /** A create of a promise that is not there and not past its deadline, where the
      request is handled. */
  lemma FreshCreateIs(s: Server, now: int, args: CreateArgs)
    requires Inv(s) && s.executes == map[] && args.id != "" && args.id !in s.promises
    requires args.timeoutAt.Some? ==> now < args.timeoutAt.value
    requires args.timeoutAt.None? ==> now < I64_MAX
    ensures var (s', reply) := CreatePromise(s, now, args);
            && CreatedAndLaunched(s', args, now)
            && reply == PromiseReply(201, Some(s'.promises[args.id].record))
            && s'.executes.Keys <= {args.id} && s'.unblocks == s.unblocks
            && forall other | other != args.id :: SameAt(s, s', other)
  {
    assert Ok(s, args.id);
    var s1 := AddPromise(s, args.id, FreshRecord(args, now));
    assert forall other | other != args.id :: SameAt(s, s1, other);
    if TAG_TARGET in args.tags {
      LaunchedByCreate(s1, args, now);
      var s' := AddPendingTask(s1, args, now);
      forall other | other != args.id ensures SameAt(s, s', other)
      {
        assert SameAt(s, s1, other) && SameAt(s1, s', other);
      }
    }
  }

  // ---------------------------------------------------------------------
  //  What is granted to the holder of a task
  // ---------------------------------------------------------------------

  /** The server grants the closing requests of the task: somebody holds it, and its
      promise is not overdue. */
  predicate Grants(s: Server, now: int, id: Id) {
    s.TaskIs(id, Acquired) && !Overdue(s, now, id)
  }

  /** A task granted its closing request has been resumed, or something it names has
      settled or is overdue. */
  predicate Stirred(s: Server, now: int, id: Id, awaiting: seq<Id>)
    requires id in s.tasks
  {
    s.tasks[id].resumes != {} || exists d | d in awaiting :: s.SettledPromise(d) || (d != "" && Overdue(s, now, d))
  }

  lemma {:induction false} NothingOverdue(s: Server, now: int, ids: seq<Id>)
    requires forall d | d in ids :: !Overdue(s, now, d)
    ensures AutoTimeouts(s, now, ids) == s
    decreases |ids|
  {
    if ids != [] {
      assert !Overdue(s, now, ids[0]);
      NothingOverdue(s, now, ids[1..]);
    }
  }

  lemma OverdueEnds(s: Server, now: int, req: Request, id: Id)
    requires Inv(s) && id in Touched(req) && Overdue(s, now, id)
    ensures !Prepared(s, now, req).TaskIs(id, Acquired)
  {
    ClearedKeepsInv(s);
    AutoTimeoutsKeepInv(Cleared(s), now, Touched(req));
    AutoTimeoutsSettleExactly(Cleared(s), now, Touched(req), id);
    assert Ok(Prepared(s, now, req), id);
  }

  lemma SettlingGrantsNothing(s: Server, now: int, other: Id, id: Id)
    requires Inv(s) && AutoTimeout(s, now, other).TaskIs(id, Acquired)
    ensures s.TaskIs(id, Acquired)
  {
    if Overdue(s, now, other) {
      var o := map[other := LazyOutcome(s.promises[other].record)];
      SettleKeepsKeys(s, o, now);
      SettledTaskIs(s, o, now, id);
    }
  }

  lemma {:induction false} ExpiryGrantsNothing(s: Server, now: int, ids: seq<Id>, id: Id)
    requires Inv(s) && AutoTimeouts(s, now, ids).TaskIs(id, Acquired)
    ensures s.TaskIs(id, Acquired)
    decreases |ids|
  {
    if ids != [] {
      AutoTimeoutKeepsInv(s, now, ids[0]);
      ExpiryGrantsNothing(AutoTimeout(s, now, ids[0]), now, ids[1..], id);
      SettlingGrantsNothing(s, now, ids[0], id);
    }
  }

  /** Before the touched promises have expired and after, the same closing requests
      are granted; a task held before and not granted has ended. */
  lemma GrantedAfterExpiry(s: Server, now: int, req: Request, id: Id)
    requires Inv(s) && id in Touched(req)
    ensures Grants(s, now, id) <==> Prepared(s, now, req).TaskIs(id, Acquired)
    ensures Grants(s, now, id) ==>
              s.PendingPromise(id) && Prepared(s, now, req).tasks[id].version == s.tasks[id].version
  {
    ClearedKeepsInv(s);
    assert Ok(s, id);
    if Grants(s, now, id) {
      AutoTimeoutsSettleExactly(Cleared(s), now, Touched(req), id);
      Leases.PreparedSameLease(s, now, req, id);
    } else if Overdue(s, now, id) {
      OverdueEnds(s, now, req, id);
    } else if Prepared(s, now, req).TaskIs(id, Acquired) {
      ExpiryGrantsNothing(Cleared(s), now, Touched(req), id);
    }
  }

  /** A fulfil is accepted exactly when the task is held and its promise not overdue. */
  lemma FulfilGrantedExactly(s: Server, now: int, id: Id, state: PromiseState, value: Json)
    requires Inv(s) && id != ""
    ensures Apply(s, now, TaskFulfill(id, Some(id), state, value)).1.PromiseReply? <==> Grants(s, now, id)
  {
    GrantedAfterExpiry(s, now, TaskFulfill(id, Some(id), state, value), id);
    FulfilAnswers(Prepared(s, now, TaskFulfill(id, Some(id), state, value)), now, id, state, value);
  }

  lemma FulfilAnswers(s: Server, now: int, id: Id, state: PromiseState, value: Json)
    requires id != ""
    ensures FulfillTask(s, now, id, Some(id), state, value).1.PromiseReply? <==> s.TaskIs(id, Acquired)
  {
  }

  lemma SuspendAnswers(s: Server, id: Id, awaiting: seq<Id>)
    requires id != ""
    ensures var reply := SuspendTask(s, id, awaiting).1;
            && (reply.Done? || reply.Redirect? <==> s.TaskIs(id, Acquired))
            && (reply.Redirect? ==> s.tasks[id].resumes != {} || exists d | d in awaiting :: s.SettledPromise(d))
            && (reply.Done? ==> s.tasks[id].resumes == {} && forall d | d in awaiting :: !s.SettledPromise(d))
  {
    assert forall d :: d in Elements(awaiting) <==> d in awaiting;
  }

  lemma SettledAfterExpiry(s: Server, now: int, id: Id, awaiting: seq<Id>, d: Id)
    requires Inv(s) && d in awaiting
    ensures Prepared(s, now, TaskSuspend(id, awaiting)).SettledPromise(d)
            <==> s.SettledPromise(d) || ((d != "" || id == "") && Overdue(s, now, d))
  {
    var req := TaskSuspend(id, awaiting);
    ClearedKeepsInv(s);
    TouchedIsNamed(req, d);
    PreparedAdvances(s, now, req);
    assert AdvancesAt(s, Prepared(s, now, req), d);
    Timestamps.AutoTimeoutsKeys(Cleared(s), now, Touched(req));
    if s.PendingPromise(d) { AutoTimeoutsSettleExactly(Cleared(s), now, Touched(req), d); }
  }

  /** What has settled once the touched promises have expired had settled or was
      overdue, and where nothing was the resumes are as before. */
  lemma StirredAfterExpiry(s: Server, now: int, id: Id, awaiting: seq<Id>)
    requires Inv(s) && id != "" && Grants(s, now, id)
    ensures var q := Prepared(s, now, TaskSuspend(id, awaiting));
            id in q.tasks && (Stirred(s, now, id, awaiting) <==>
              q.tasks[id].resumes != {} || exists d | d in awaiting :: q.SettledPromise(d))
  {
    var req := TaskSuspend(id, awaiting);
    var q := Prepared(s, now, req);
    GrantedAfterExpiry(s, now, req, id);
    forall d | d in awaiting ensures q.SettledPromise(d) <==> s.SettledPromise(d) || (d != "" && Overdue(s, now, d))
    {
      SettledAfterExpiry(s, now, id, awaiting, d);
    }
    if forall d | d in awaiting :: d == "" || !Overdue(s, now, d) {
      forall d | d in Touched(req) ensures !Overdue(Cleared(s), now, d) { NonEmptyHas(awaiting, d); }
      NothingOverdue(Cleared(s), now, Touched(req));
    }
  }

  /** A suspend is accepted exactly when, besides, nothing has stirred the task; if
      something has, it is redirected. */
  lemma SuspendGrantedExactly(s: Server, now: int, id: Id, awaiting: seq<Id>)
    requires Inv(s) && id != ""
    ensures var reply := Apply(s, now, TaskSuspend(id, awaiting)).1;
            && (reply.Done? <==> Grants(s, now, id) && !Stirred(s, now, id, awaiting))
            && (reply.Redirect? <==> Grants(s, now, id) && Stirred(s, now, id, awaiting))
  {
    GrantedAfterExpiry(s, now, TaskSuspend(id, awaiting), id);
    SuspendAnswers(Prepared(s, now, TaskSuspend(id, awaiting)), id, awaiting);
    if Grants(s, now, id) {
      StirredAfterExpiry(s, now, id, awaiting);
    }
  }

  lemma RedirectShows(s: Server, now: int, id: Id, awaiting: seq<Id>)
    ensures var (s', reply) := Apply(s, now, TaskSuspend(id, awaiting));
            reply.Redirect? ==> reply.preload == Preload(s', id)
  {
    var p := Prepared(s, now, TaskSuspend(id, awaiting));
    PreloadUnmoved(p, AwaitAll(p, id, Elements(awaiting)), id);
  }

  lemma PreloadUnmoved(s: Server, s': Server, id: Id)
    requires s'.promises.Keys == s.promises.Keys
    requires forall p | p in s.promises :: s'.promises[p].record == s.promises[p].record
    ensures Preload(s', id) == Preload(s, id)
  {
  }

  // ---------------------------------------------------------------------
  //  Creation, as asked for
  // ---------------------------------------------------------------------

  lemma CreateApplies(s: Server, now: int, args: CreateArgs)
    requires args.id !in s.promises
    ensures Apply(s, now, PromiseCreate(args)) == CreatePromise(Cleared(s), now, args)
  {
    NothingOverdue(Cleared(s), now, [args.id]);
  }

  /** A create of a promise that is not there and not past its deadline stores what
      was asked and, if it has a target, dispatches its task at once, unless it is
      delayed; nothing else changes. */
  lemma CreateDispatches(s: Server, now: int, args: CreateArgs)
    requires Inv(s) && args.id != "" && args.id !in s.promises
    requires args.timeoutAt.Some? ==> now < args.timeoutAt.value
    requires args.timeoutAt.None? ==> now < I64_MAX
    ensures var (s', reply) := Apply(s, now, PromiseCreate(args));
            && CreatedAndLaunched(s', args, now)
            && reply == PromiseReply(201, Some(s'.promises[args.id].record))
            && s'.executes.Keys <= {args.id} && s'.unblocks == multiset{}
            && forall other | other != args.id :: SameAt(s, s', other)
  {
    ClearedKeepsInv(s);
    NothingOverdue(Cleared(s), now, [args.id]);
    FreshCreateIs(Cleared(s), now, args);
    forall other | other != args.id ensures SameAt(s, Apply(s, now, PromiseCreate(args)).0, other)
    {
      assert SameAt(Cleared(s), Apply(s, now, PromiseCreate(args)).0, other);
    }
  }

  /** So does one that comes through a fence, if the lease is held and its promise is
      not overdue; otherwise it conflicts and creates nothing. */
  lemma FencedCreateDispatches(s: Server, now: int, id: Id, version: int, args: CreateArgs)
    requires Inv(s) && id in s.tasks && id != "" && args.id != "" && args.id !in s.promises
    requires args.timeoutAt.Some? ==> now < args.timeoutAt.value
    requires args.timeoutAt.None? ==> now < I64_MAX
    ensures var (s', reply) := Apply(s, now, TaskFence(id, version, FenceCreate(args)));
            if Grants(s, now, id) && s.tasks[id].version == version then
              && CreatedAndLaunched(s', args, now)
              && reply.FenceReply? && reply.result == Some(s'.promises[args.id].record)
              && s'.executes.Keys <= {args.id} && s'.unblocks == multiset{}
              && forall other | other != args.id :: SameAt(s, s', other)
            else reply == Conflict && args.id !in s'.promises
  {
    var req := TaskFence(id, version, FenceCreate(args));
    ClearedKeepsInv(s);
    GrantedAfterExpiry(s, now, req, id);
    Timestamps.AutoTimeoutsKeys(Cleared(s), now, Touched(req));
    PreparedAdvances(s, now, req);
    assert AdvancesAt(s, Prepared(s, now, req), id);
    if Grants(s, now, id) {
      NothingOverdue(Cleared(s), now, Touched(req));
      FreshCreateIs(Cleared(s), now, args);
      Replies.FenceReplies(Cleared(s), now, id, version, FenceCreate(args));
      var s' := Apply(s, now, req).0;
      if s.tasks[id].version == version {
        FenceLetsThrough(Cleared(s), now, id, version, args);
        forall other | other != args.id ensures SameAt(s, s', other)
        {
          assert SameAt(Cleared(s), s', other);
        }
      }
    }
  }

  lemma FenceLetsThrough(s: Server, now: int, id: Id, version: int, args: CreateArgs)
    requires id != "" && args.id != "" && HoldsLease(s, id, version)
    ensures FenceTask(s, now, id, version, FenceCreate(args)).1.FenceReply?
    ensures FenceTask(s, now, id, version, FenceCreate(args)).0 == CreatePromise(s, now, args).0
    ensures FenceTask(s, now, id, version, FenceCreate(args)).1.result == CreatePromise(s, now, args).1.promise
  {
  }

  /** The promise was born past its deadline: it has ended by it, with what the request
      gave, and its task, if it has a target, is over. */
  predicate BornExpired(s': Server, args: CreateArgs) {
    && args.id in s'.promises
    && Timestamps.EndedByDeadline(s'.promises[args.id].record)
    && s'.promises[args.id].record.param == args.param && s'.promises[args.id].record.tags == args.tags
    && DueAt(args, s'.promises[args.id].record.timeoutAt)
    && (TAG_TARGET in args.tags <==> args.id in s'.tasks)
    && (TAG_TARGET in args.tags ==> s'.tasks[args.id] == Task(Fulfilled, 0, None, None, {}))
  }

  lemma ExpiredRecordIs(args: CreateArgs)
    ensures var r := ExpiredRecord(args);
            Timestamps.EndedByDeadline(r) && r.param == args.param && r.tags == args.tags && DueAt(args, r.timeoutAt)
  {
  }

  lemma ExpiredReply(s: Server, now: int, args: CreateArgs)
    requires args.id != "" && args.id !in s.promises && Deadline(args) <= now
    ensures CreatePromise(s, now, args).1 == PromiseReply(200, Some(ExpiredRecord(args)))
  {
  }

  lemma ExpiredCreateIs(s: Server, now: int, args: CreateArgs)
    requires Inv(s) && args.id != "" && args.id !in s.promises && Deadline(args) <= now
    ensures var (s', reply) := CreatePromise(s, now, args);
            && BornExpired(s', args)
            && reply == PromiseReply(200, Some(s'.promises[args.id].record))
            && s'.executes == s.executes && s'.unblocks == s.unblocks
            && forall other | other != args.id :: SameAt(s, s', other)
  {
    assert Ok(s, args.id);
    CreateExpiredIs(s, now, args);
    ExpiredRecordIs(args);
    ExpiredReply(s, now, args);
    OnlyAdds(s, CreatePromise(s, now, args).0, args.id, ExpiredRecord(args));
  }

  /** A promise that is over, and perhaps its task, are all that was added. */
  lemma OnlyAdds(s: Server, s': Server, id: Id, r: Record)
    requires s'.promises == s.promises[id := Promise(r, {}, {})]
    requires s'.tasks == s.tasks || s'.tasks == s.tasks[id := FULFILLED_TASK]
    requires s'.pTimers == s.pTimers && s'.tTimers == s.tTimers
    ensures forall other | other != id :: SameAt(s, s', other)
  {
  }

  /** A create past its deadline stores a promise that has ended by it, and nobody
      hears of it. */
  lemma ExpiredCreateIsSilent(s: Server, now: int, args: CreateArgs)
    requires Inv(s) && args.id != "" && args.id !in s.promises
    requires if args.timeoutAt.Some? then args.timeoutAt.value <= now else I64_MAX <= now
    ensures var (s', reply) := Apply(s, now, PromiseCreate(args));
            && BornExpired(s', args)
            && reply == PromiseReply(200, Some(s'.promises[args.id].record))
            && s'.executes == map[] && s'.unblocks == multiset{}
            && forall other | other != args.id :: SameAt(s, s', other)
  {
    ClearedKeepsInv(s);
    CreateApplies(s, now, args);
    ExpiredCreateIs(Cleared(s), now, args);
    forall other | other != args.id ensures SameAt(s, CreatePromise(Cleared(s), now, args).0, other)
    {
      assert SameAt(Cleared(s), CreatePromise(Cleared(s), now, args).0, other);
    }
  }

  /** Creating what is there already changes nothing and answers the record. */
  lemma CreateTwice(s: Server, now: int, args: CreateArgs)
    requires args.id != "" && args.id in s.promises && !Overdue(s, now, args.id)
    ensures Apply(s, now, PromiseCreate(args)) == (Cleared(s), PromiseReply(200, Some(s.promises[args.id].record)))
    ensures Apply(s, now, PromiseGet(args.id)) == (Cleared(s), PromiseReply(200, Some(s.promises[args.id].record)))
  {
    NothingOverdue(Cleared(s), now, [args.id]);
  }

  // ---------------------------------------------------------------------
  //  Settling and listening, as asked for
  // ---------------------------------------------------------------------

  /** The record was settled at `now` with this state and value, and is otherwise what
      it was. */
  predicate SettledWith(r: Record, r': Record, state: PromiseState, value: Json, now: int) {
    && r'.state == state && r'.value == value && r'.settledAt == Some(now)
    && r'.param == r.param && r'.tags == r.tags && r'.timeoutAt == r.timeoutAt && r'.createdAt == r.createdAt
  }

  lemma SettleOneIs(s: Server, now: int, args: SettleArgs)
    requires Inv(s) && args.id != "" && s.PendingPromise(args.id) && !args.state.Pending?
    ensures var (s', reply) := SettlePromise(s, now, args);
            && args.id in s'.promises
            && SettledWith(s.promises[args.id].record, s'.promises[args.id].record, args.state, args.value, now)
            && reply == PromiseReply(200, Some(s'.promises[args.id].record))
  {
    SettledPromiseIs(s, map[args.id := Outcome(args.state, args.value, now)], now, args.id);
  }

  /** A settle of a pending promise takes effect as asked; one of a promise that has
      settled, or is overdue, answers what is there. */
  lemma SettleTakesEffect(s: Server, now: int, args: SettleArgs)
    requires Inv(s) && args.id != "" && args.id in s.promises && !args.state.Pending?
    ensures var (s', reply) := Apply(s, now, PromiseSettle(args));
            && args.id in s'.promises
            && reply == PromiseReply(200, Some(s'.promises[args.id].record))
            && (s.PendingPromise(args.id) && now < s.promises[args.id].record.timeoutAt ==>
                  SettledWith(s.promises[args.id].record, s'.promises[args.id].record, args.state, args.value, now))
            && (s.PendingPromise(args.id) && s.promises[args.id].record.timeoutAt <= now ==>
                  Timestamps.EndedByDeadline(s'.promises[args.id].record))
            && (s.SettledPromise(args.id) ==> s'.promises[args.id].record == s.promises[args.id].record)
  {
    var req := PromiseSettle(args);
    ClearedKeepsInv(s);
    LazyExpiryExactly(s, now, req, args.id);
    if !Overdue(s, now, args.id) {
      NothingOverdue(Cleared(s), now, [args.id]);
    }
    if s.PendingPromise(args.id) && !Overdue(s, now, args.id) { SettleOneIs(Cleared(s), now, args); }
  }

  /** Through a fence the same, if the lease is held under that version; otherwise the
      request conflicts and settles nothing of its own. */
  lemma FencedSettleTakesEffect(s: Server, now: int, id: Id, version: int, args: SettleArgs)
    requires Inv(s) && id != "" && id in s.tasks
    requires args.id != "" && s.PendingPromise(args.id) && now < s.promises[args.id].record.timeoutAt && !args.state.Pending?
    ensures var (s', reply) := Apply(s, now, TaskFence(id, version, FenceSettle(args)));
            && args.id in s'.promises
            && (if Grants(s, now, id) && s.tasks[id].version == version then
                  && reply.FenceReply? && reply.result == Some(s'.promises[args.id].record)
                  && SettledWith(s.promises[args.id].record, s'.promises[args.id].record, args.state, args.value, now)
                else
                  reply == Conflict && s'.promises[args.id].record == s.promises[args.id].record)
  {
    var req := TaskFence(id, version, FenceSettle(args));
    ClearedKeepsInv(s);
    GrantedAfterExpiry(s, now, req, id);
    LazyExpiryExactly(s, now, req, args.id);
    PreparedAdvances(s, now, req);
    assert AdvancesAt(s, Prepared(s, now, req), id);
    if Grants(s, now, id) {
      NothingOverdue(Cleared(s), now, Touched(req));
      SettleOneIs(Cleared(s), now, args);
    }
  }

  /** A listener joins a promise that is pending and not overdue, and one that has
      settled answers; no other promise is touched. */
  lemma ListenerJoins(s: Server, now: int, d: Id, address: string)
    requires Inv(s) && d != "" && address != "" && d in s.promises && !Overdue(s, now, d)
    ensures var (s', reply) := Apply(s, now, RegisterListener(d, address));
            && d in s'.promises && s'.promises[d].record == s.promises[d].record
            && reply == PromiseReply(200, Some(s.promises[d].record))
            && s'.promises[d].awaiters == s.promises[d].awaiters
            && s'.promises[d].subscribers == s.promises[d].subscribers + (if s.PendingPromise(d) then {address} else {})
            && s'.executes == map[] && s'.unblocks == multiset{}
            && forall other | other != d :: SameAt(s, s', other)
  {
    NothingOverdue(Cleared(s), now, [d]);
  }

  // ---------------------------------------------------------------------
  //  Preloads
  // ---------------------------------------------------------------------

  /** Both promises are there and carry the same branch. */
  predicate SameBranch(s: Server, p: Id, id: Id) {
    && p in s.promises && id in s.promises
    && TAG_BRANCH in s.promises[p].record.tags && TAG_BRANCH in s.promises[id].record.tags
    && s.promises[p].record.tags[TAG_BRANCH] == s.promises[id].record.tags[TAG_BRANCH]
  }

  /** The preload holds exactly the other promises on the branch of the task's own. */
  predicate PreloadExact(s: Server, id: Id, preload: Preloaded, p: Id) {
    && (p in preload <==> p != id && SameBranch(s, p, id))
    && (p in preload ==> preload[p] == s.promises[p].record)
  }

  lemma PreloadIsExact(s: Server, id: Id, p: Id)
    ensures PreloadExact(s, id, Preload(s, id), p)
  {
  }

  /** The task a reply's preload is for. */
  predicate PreloadedFor(req: Request, id: Id) {
    match req
    case TaskCreate(_, _, args) => id == args.id
    case TaskAcquire(t, _, _) => id == t
    case TaskFence(t, _, _) => id == t
    case TaskSuspend(t, _) => id == t
    case _ => false
  }

  lemma FencePreload(s: Server, now: int, id: Id, version: int, action: FenceAction, p: Id)
    ensures var (s', reply) := FenceTask(s, now, id, version, action);
            reply.FenceReply? ==> PreloadExact(s', id, reply.preload, p)
  {
    var (s', reply) := FenceTask(s, now, id, version, action);
    Replies.FenceReplies(s, now, id, version, action);
    PreloadIsExact(s', id, p);
  }

  lemma SuspendPreload(s: Server, id: Id, awaiting: seq<Id>, p: Id)
    ensures var (s', reply) := SuspendTask(s, id, awaiting);
            reply.Redirect? ==> PreloadExact(s', id, reply.preload, p)
  {
    PreloadIsExact(s, id, p);
  }

  lemma AcquirePreload(s: Server, now: int, id: Id, pid: string, ttl: int, p: Id)
    ensures var (s', reply) := AcquireTask(s, now, id, pid, ttl);
            reply.TaskReply? ==> PreloadExact(s', id, reply.preload, p)
  {
    PreloadIsExact(s, id, p);
  }

  lemma CreateTaskPreload(s: Server, now: int, pid: string, ttl: int, args: CreateArgs, p: Id)
    ensures var (s', reply) := CreateTask(s, now, pid, ttl, args);
            reply.TaskReply? && (args.id in s.promises || args.id in s.tasks || reply.status == 201) ==>
              PreloadExact(s', args.id, reply.preload, p)
  {
    PreloadIsExact(s, args.id, p);
    PreloadIsExact(CreateTask(s, now, pid, ttl, args).0, args.id, p);
    if args.id !in s.promises && args.id !in s.tasks && pid != "" && args.id != "" {
      Replies.CreateFreshReplies(s, now, pid, ttl, args);
    }
  }

  /** Every preload a worker is sent is exact for the server it leaves, but that a task
      born past its deadline comes without one. */
  lemma PreloadsAreExact(s: Server, now: int, req: Request, id: Id, p: Id)
    requires PreloadedFor(req, id)
    ensures var (s', reply) := Apply(s, now, req);
            reply.FenceReply? || reply.Redirect? || (reply.TaskReply? && (id in s.promises || reply.status == 201)) ==>
              PreloadExact(s', id, Replies.Sampled(reply), p)
  {
    var q := Prepared(s, now, req);
    Timestamps.AutoTimeoutsKeys(Cleared(s), now, Touched(req));
    match req
    case TaskFence(_, version, action) => FencePreload(q, now, id, version, action, p);
    case TaskSuspend(_, awaiting) => SuspendPreload(q, id, awaiting, p);
    case TaskAcquire(_, pid, ttl) => AcquirePreload(q, now, id, pid, ttl, p);
    case TaskCreate(pid, ttl, args) => CreateTaskPreload(q, now, pid, ttl, args, p);
  }

  // ---------------------------------------------------------------------
  //  Refusals
  // ---------------------------------------------------------------------

  lemma {:induction false} AutoTimeoutsTaskKeys(s: Server, now: int, ids: seq<Id>)
    requires Inv(s)
    ensures AutoTimeouts(s, now, ids).tasks.Keys == s.tasks.Keys
    decreases |ids|
  {
    if ids != [] {
      if Overdue(s, now, ids[0]) { SettleKeepsKeys(s, map[ids[0] := LazyOutcome(s.promises[ids[0]].record)], now); }
      AutoTimeoutKeepsInv(s, now, ids[0]);
      AutoTimeoutsTaskKeys(AutoTimeout(s, now, ids[0]), now, ids[1..]);
    }
  }

  /** Expiry adds and removes nothing. */
  lemma PreparedKeys(s: Server, now: int, req: Request)
    requires Inv(s)
    ensures Prepared(s, now, req).promises.Keys == s.promises.Keys
    ensures Prepared(s, now, req).tasks.Keys == s.tasks.Keys
  {
    ClearedKeepsInv(s);
    Timestamps.AutoTimeoutsKeys(Cleared(s), now, Touched(req));
    AutoTimeoutsTaskKeys(Cleared(s), now, Touched(req));
  }

  /** A field the request needs is missing, whatever the server holds. */
  predicate Lacks(req: Request) {
    match req
    case PromiseGet(id) => id == ""
    case PromiseCreate(args) => args.id == ""
    case PromiseSettle(args) => args.id == ""
    case RegisterListener(awaited, address) => awaited == "" || address == ""
    case TaskCreate(pid, _, args) => pid == "" || args.id == ""
    case TaskAcquire(id, _, _) => id == ""
    case TaskRelease(id) => id == ""
    case TaskFulfill(id, _, _, _) => id == ""
    case TaskFence(id, _, _) => id == ""
    case TaskSuspend(id, _) => id == ""
    case TaskHeartbeat(pid, refs) => pid == "" || exists r | r in refs :: r.id == ""
    case UnknownKind => true
  }

  /** What the request is for does not exist. */
  predicate Missing(s: Server, req: Request) {
    match req
    case PromiseGet(id) => id !in s.promises
    case PromiseSettle(args) => args.id !in s.promises
    case RegisterListener(awaited, _) => awaited !in s.promises
    case TaskAcquire(id, _, _) => id !in s.tasks
    case TaskRelease(id) => id !in s.tasks
    case TaskFulfill(id, _, _, _) => id !in s.tasks
    case TaskFence(id, _, _) => id !in s.tasks
    case TaskSuspend(id, _) => id !in s.tasks
    case _ => false
  }

  predicate NamesNothing(action: FenceAction) {
    match action
    case FenceCreate(args) => args.id == ""
    case FenceSettle(args) => args.id == ""
  }

  /** A fence that is let through to an action without an id. */
  predicate FencesNothing(s: Server, now: int, req: Request) {
    req.TaskFence? && Grants(s, now, req.id) && s.tasks[req.id].version == req.version && NamesNothing(req.fenced)
  }

  lemma {:induction false} BeatsRefused(s: Server, now: int, pid: string, refs: seq<TaskRef>)
    ensures Beats(s, now, pid, refs).1 == if exists r | r in refs :: r.id == "" then Failed else Done
    decreases |refs|
  {
    if refs != [] && refs[0].id != "" {
      BeatsRefused(Beat(s, now, pid, refs[0]), now, pid, refs[1..]);
      assert forall r :: r in refs <==> r == refs[0] || r in refs[1..];
    }
  }

  lemma HandledRefusals(s: Server, now: int, req: Request)
    requires !req.TaskFence?
    ensures Handle(s, now, req).1.Failed? <==> Lacks(req)
    ensures Handle(s, now, req).1.NotFound? <==> !Lacks(req) && Missing(s, req)
  {
    if req.TaskHeartbeat? { BeatsRefused(s, now, req.pid, req.refs); }
  }

  lemma FenceRefusals(s: Server, now: int, id: Id, version: int, action: FenceAction)
    ensures var reply := FenceTask(s, now, id, version, action).1;
            && (reply.NotFound? <==> id != "" && id !in s.tasks)
            && (reply.Conflict? <==> id != "" && id in s.tasks && !HoldsLease(s, id, version))
            && (reply.Failed? <==> id == "" || (HoldsLease(s, id, version) && NamesNothing(action)))
  {
  }

  /** A request is refused exactly when it lacks something, and answered not found
      exactly when it lacks nothing and what it is for is not there. */
  lemma RefusedExactly(s: Server, now: int, req: Request)
    requires Inv(s)
    ensures Apply(s, now, req).1.Failed? <==> Lacks(req) || FencesNothing(s, now, req)
    ensures Apply(s, now, req).1.NotFound? <==> !Lacks(req) && Missing(s, req)
  {
    var q := Prepared(s, now, req);
    PreparedKeys(s, now, req);
    if req.TaskFence? {
      FenceRefusals(q, now, req.id, req.version, req.fenced);
      GrantedAfterExpiry(s, now, req, req.id);
    } else {
      HandledRefusals(q, now, req);
    }
  }
}

/**
 What a promise's timestamps say about how it ended.
 */
module Timestamps {
  import opened Protocol
  import opened Settlement
  import opened Requests
  import opened Invariant
  import opened Progress
  import opened Runs
  import opened Redirects
  import opened Notifications

  /** Ended by its deadline: at the deadline, with no value, resolved when it is a
      timer and timed out when it is not. */
  predicate EndedByDeadline(r: Record) {
    && r.settledAt == Some(r.timeoutAt)
    && r.value == Null
    && (r.state.Resolved? || r.state.RejectedTimedout?)
    && (r.state.Resolved? <==> TAG_TIMER in r.tags && r.tags[TAG_TIMER] == "true")
  }

  /** Ended by a request: after it was created and before its deadline. */
  predicate EndedByRequest(r: Record, now: int) {
    r.settledAt.Some? && r.createdAt <= r.settledAt.value < r.timeoutAt && r.settledAt.value <= now
  }

  predicate Timely(r: Record, now: int) {
    if r.Settled() then EndedByDeadline(r) || EndedByRequest(r, now)
    else r.createdAt <= now && r.createdAt < r.timeoutAt
  }

  predicate TimelyAt(s: Server, now: int, id: Id) {
    id in s.promises ==> Timely(s.promises[id].record, now)
  }

  ghost predicate AllTimely(s: Server, now: int) {
    forall id :: TimelyAt(s, now, id)
  }

  lemma SettleTimely(s: Server, outcomes: map<Id, Outcome>, now: int)
    requires AllTimely(s, now) && outcomes.Keys <= s.promises.Keys
    requires forall p | p in outcomes :: Timely(Marked(s.promises[p].record, outcomes[p]), now)
    ensures AllTimely(Settle(s, outcomes, now), now)
  {
    forall id ensures TimelyAt(Settle(s, outcomes, now), now, id)
    {
      assert TimelyAt(s, now, id);
      if id in s.promises { SettledPromiseIs(s, outcomes, now, id); }
    }
  }

  lemma LazyIsByDeadline(r: Record)
    requires r.value == Null
    ensures EndedByDeadline(Marked(r, LazyOutcome(r)))
  {
  }

  lemma AutoTimeoutTimely(s: Server, now: int, id: Id)
    requires Inv(s) && AllTimely(s, now)
    ensures AllTimely(AutoTimeout(s, now, id), now)
    ensures !Overdue(AutoTimeout(s, now, id), now, id)
  {
    if Overdue(s, now, id) {
      assert Ok(s, id);
      var o := map[id := LazyOutcome(s.promises[id].record)];
      LazyIsByDeadline(s.promises[id].record);
      SettledPromiseIs(s, o, now, id);
      SettleTimely(s, o, now);
    }
  }

  lemma NotOverdueStays(s: Server, s': Server, now: int, id: Id)
    requires Advances(s, s') && id in s.promises && !Overdue(s, now, id)
    ensures !Overdue(s', now, id)
  {
    assert AdvancesAt(s, s', id);
  }

  /** Every promise the request touches has been expired if it was overdue. */
  lemma {:induction false} AutoTimeoutsTimely(s: Server, now: int, ids: seq<Id>, id: Id)
    requires Inv(s) && AllTimely(s, now)
    ensures AllTimely(AutoTimeouts(s, now, ids), now)
    ensures id in ids && id in s.promises ==> !Overdue(AutoTimeouts(s, now, ids), now, id)
    decreases |ids|
  {
    if ids != [] {
      var m := AutoTimeout(s, now, ids[0]);
      AutoTimeoutTimely(s, now, ids[0]);
      AutoTimeoutKeepsInv(s, now, ids[0]);
      AutoTimeoutAdvances(s, now, ids[0]);
      assert AdvancesAt(s, m, id);
      AutoTimeoutsTimely(m, now, ids[1..], id);
      AutoTimeoutsAdvance(m, now, ids[1..]);
      if id == ids[0] && id in s.promises {
        NotOverdueStays(m, AutoTimeouts(s, now, ids), now, id);
      }
    }
  }

  lemma AutoTimeoutKeys(s: Server, now: int, id: Id)
    ensures AutoTimeout(s, now, id).promises.Keys == s.promises.Keys
  {
  }

  lemma {:induction false} AutoTimeoutsKeys(s: Server, now: int, ids: seq<Id>)
    ensures AutoTimeouts(s, now, ids).promises.Keys == s.promises.Keys
    decreases |ids|
  {
    if ids != [] {
      AutoTimeoutKeys(s, now, ids[0]);
      AutoTimeoutsKeys(AutoTimeout(s, now, ids[0]), now, ids[1..]);
    }
  }

  lemma PreparedTimely(s: Server, now: int, req: Request, id: Id)
    requires Inv(s) && AllTimely(s, now)
    ensures AllTimely(Prepared(s, now, req), now)
    ensures id in Touched(req) ==> !Overdue(Prepared(s, now, req), now, id)
  {
    ClearedKeepsInv(s);
    assert forall i :: TimelyAt(s, now, i) ==> TimelyAt(Cleared(s), now, i);
    AutoTimeoutsTimely(Cleared(s), now, Touched(req), id);
    AutoTimeoutsKeys(Cleared(s), now, Touched(req));
  }

  lemma AddedTimely(s: Server, s': Server, now: int, id: Id, r: Record)
    requires AllTimely(s, now) && Timely(r, now)
    requires s'.promises == s.promises[id := Promise(r, {}, {})]
    ensures AllTimely(s', now)
  {
    forall i ensures TimelyAt(s', now, i) { assert TimelyAt(s, now, i); }
  }

  lemma CreatePromiseTimely(s: Server, now: int, args: CreateArgs)
    requires Inv(s) && AllTimely(s, now)
    ensures AllTimely(CreatePromise(s, now, args).0, now)
  {
    if args.id != "" && args.id !in s.promises {
      if now >= Deadline(args) {
        CreateExpiredIs(s, now, args);
        AddedTimely(s, CreatePromise(s, now, args).0, now, args.id, ExpiredRecord(args));
      } else {
        AddPendingTaskIs(AddPromise(s, args.id, FreshRecord(args, now)), args, now);
        AddedTimely(s, CreatePromise(s, now, args).0, now, args.id, FreshRecord(args, now));
      }
    }
  }

  lemma SettlePromiseTimely(s: Server, now: int, args: SettleArgs)
    requires AllTimely(s, now) && !args.state.Pending? && !Overdue(s, now, args.id)
    ensures AllTimely(SettlePromise(s, now, args).0, now)
  {
    if args.id != "" && s.PendingPromise(args.id) {
      assert TimelyAt(s, now, args.id);
      SettleTimely(s, map[args.id := Outcome(args.state, args.value, now)], now);
    }
  }

  lemma FenceTimely(s: Server, now: int, id: Id, version: int, action: FenceAction)
    requires Inv(s) && AllTimely(s, now)
    requires action.FenceSettle? ==> !action.settle.state.Pending? && !Overdue(s, now, action.settle.id)
    ensures AllTimely(FenceTask(s, now, id, version, action).0, now)
  {
    match action
    case FenceCreate(args) => CreatePromiseTimely(s, now, args);
    case FenceSettle(args) => SettlePromiseTimely(s, now, args);
  }

  lemma SettleOneTimely(s: Server, now: int, id: Id, o: Outcome)
    requires AllTimely(s, now) && s.PendingPromise(id) && !Overdue(s, now, id) && o.at == now && !o.state.Pending?
    ensures AllTimely(Settle(s, map[id := o], now), now)
  {
    assert TimelyAt(s, now, id);
    SettleTimely(s, map[id := o], now);
  }

  lemma FulfillOwnTimely(s: Server, now: int, id: Id, action: Option<Id>, state: PromiseState, value: Json)
    requires Inv(s) && AllTimely(s, now) && id != "" && s.TaskIs(id, Acquired) && !Overdue(s, now, id)
    requires (action.None? || action.value == id) && !state.Pending?
    ensures AllTimely(FulfillTask(s, now, id, action, state, value).0, now)
  {
    assert Ok(s, id);
    FulfillOwnIsSettle(s, now, id, action, state, value);
    SettleOneTimely(s, now, id, Outcome(state, value, now));
  }

  lemma CreateTaskTimely(s: Server, now: int, pid: string, ttl: int, args: CreateArgs)
    requires AllTimely(s, now)
    ensures AllTimely(CreateTask(s, now, pid, ttl, args).0, now)
  {
    var s' := CreateTask(s, now, pid, ttl, args).0;
    if pid != "" && args.id != "" && args.id !in s.promises && args.id !in s.tasks {
      CreateFreshTaskIs(s, now, pid, ttl, args);
      AddedTimely(s, s', now, args.id, if now >= Deadline(args) then ExpiredRecord(args) else FreshRecord(args, now));
    } else {
      assert s'.promises == s.promises;
      RecordsKeptTimely(s, s', now);
    }
  }

  /** Requests that leave every record as it is. */
  lemma RecordsKeptTimely(s: Server, s': Server, now: int)
    requires AllTimely(s, now) && s'.promises.Keys == s.promises.Keys
    requires forall id | id in s.promises :: s'.promises[id].record == s.promises[id].record
    ensures AllTimely(s', now)
  {
    forall id ensures TimelyAt(s', now, id) { assert TimelyAt(s, now, id); }
  }

  lemma QuietTimely(s: Server, now: int, req: Request)
    requires AllTimely(s, now)
    requires req.PromiseGet? || req.RegisterListener? || req.TaskAcquire? || req.TaskRelease? || req.TaskSuspend? || req.UnknownKind?
    ensures AllTimely(Handle(s, now, req).0, now)
  {
    RecordsKeptTimely(s, Handle(s, now, req).0, now);
  }

  lemma HeartbeatTimely(s: Server, now: int, pid: string, refs: seq<TaskRef>)
    requires AllTimely(s, now)
    ensures AllTimely(Heartbeat(s, now, pid, refs).0, now)
  {
    BeatsOnlyTimers(s, now, pid, refs);
    RecordsKeptTimely(s, Heartbeat(s, now, pid, refs).0, now);
  }

  lemma HandleTimely(s: Server, now: int, req: Request)
    requires Inv(s) && AllTimely(s, now) && WellFormed(req)
    requires forall id | id in Touched(req) :: !Overdue(s, now, id)
    ensures AllTimely(Handle(s, now, req).0, now)
  {
    match req
    case PromiseCreate(args) => CreatePromiseTimely(s, now, args);
    case PromiseSettle(args) => SettlePromiseTimely(s, now, args);
    case TaskFence(id, version, action) => FenceTimely(s, now, id, version, action);
    case TaskFulfill(id, action, state, value) =>
      if id != "" && s.TaskIs(id, Acquired) { FulfillOwnTimely(s, now, id, action, state, value); }
    case TaskCreate(pid, ttl, args) => CreateTaskTimely(s, now, pid, ttl, args);
    case TaskHeartbeat(pid, refs) => HeartbeatTimely(s, now, pid, refs);
    case _ => QuietTimely(s, now, req);
  }

  lemma TickTimely(s: Server, now: int)
    requires Inv(s) && AllTimely(s, now)
    ensures AllTimely(Tick(s, now), now)
  {
    var o := DueOutcomes(s, now);
    SettleTimely(s, o, now);
    RecordsKeptTimely(Settle(s, o, now), Tick(s, now), now);
  }

  lemma LaterTimely(s: Server, now: int, later: int)
    requires AllTimely(s, now) && now <= later
    ensures AllTimely(s, later)
  {
    forall id ensures TimelyAt(s, later, id) { assert TimelyAt(s, now, id); }
  }

  /** The clock never goes back. */
  ghost predicate Timed(es: seq<Event>, from: int) {
    (es != [] ==> from <= es[0].now) && forall i, j | 0 <= i < j < |es| :: es[i].now <= es[j].now
  }

  function LastTime(es: seq<Event>, from: int): int {
    if es == [] then from else es[|es| - 1].now
  }

  lemma StepTimely(s: Server, e: Event)
    requires Inv(s) && Sensible(e) && AllTimely(s, e.now)
    ensures AllTimely(Step(s, e), e.now)
  {
    match e
    case Asked(now, req) =>
      PreparedAdvances(s, now, req);
      PreparedTimely(s, now, req, "");
      forall id | id in Touched(req) ensures !Overdue(Prepared(s, now, req), now, id)
      {
        PreparedTimely(s, now, req, id);
      }
      HandleTimely(Prepared(s, now, req), now, req);
    case Clock(now) =>
      ClearedKeepsInv(s);
      RecordsKeptTimely(s, Cleared(s), now);
      TickTimely(Cleared(s), now);
  }

  /** In every reachable state every settled record has one of the two shapes. */
  lemma {:induction false} RecordsAreTimely(es: seq<Event>, from: int)
    requires SensibleRun(es) && Timed(es, from)
    ensures AllTimely(Run(EMPTY_SERVER, es), LastTime(es, from))
  {
    if es != [] {
      var before, e := es[..|es| - 1], es[|es| - 1];
      RecordsAreTimely(before, from);
      LaterTimely(Run(EMPTY_SERVER, before), LastTime(before, from), e.now);
      InvInitially();
      RunKeepsInv(EMPTY_SERVER, before);
      StepTimely(Run(EMPTY_SERVER, before), e);
    }
  }

  // ---------------------------------------------------------------------
  //  What settled it
  // ---------------------------------------------------------------------

  /** The event is a request that settles `d` itself. */
  predicate ByRequest(s: Server, e: Event, d: Id) {
    e.Asked? &&
    var x := SettledBy(Prepared(s, e.now, e.req), e.now, e.req);
    x.Settling? && x.id == d
  }

  /** The record says that, and when, a request settled it; or that its deadline did. */
  predicate TellsHow(r: Record, byRequest: bool, now: int) {
    if byRequest then EndedByRequest(r, now) && r.settledAt == Some(now) else EndedByDeadline(r)
  }

  /** The record has the state and the value the request asks for. */
  predicate AsAsked(r: Record, req: Request) {
    match req
    case PromiseSettle(args) => r.state == args.state && r.value == args.value
    case TaskFence(_, _, FenceSettle(args)) => r.state == args.state && r.value == args.value
    case TaskFulfill(_, _, state, value) => r.state == state && r.value == value
    case _ => false
  }

  lemma AutoTimeoutEnds(s: Server, now: int, id: Id, d: Id)
    requires Inv(s) && s.PendingPromise(d)
    ensures var s' := AutoTimeout(s, now, id);
            d in s'.promises &&
            (s'.promises[d].record == s.promises[d].record || EndedByDeadline(s'.promises[d].record))
  {
    assert Ok(s, d);
    if Overdue(s, now, id) {
      SettledPromiseIs(s, map[id := LazyOutcome(s.promises[id].record)], now, d);
    }
  }

  lemma FinalRecord(s: Server, s': Server, d: Id)
    requires Advances(s, s') && s.SettledPromise(d)
    ensures s'.SettledPromise(d) && s'.promises[d].record == s.promises[d].record
  {
    assert AdvancesAt(s, s', d);
  }

  lemma {:induction false} AutoTimeoutsEnd(s: Server, now: int, ids: seq<Id>, d: Id)
    requires Inv(s) && s.PendingPromise(d)
    ensures var s' := AutoTimeouts(s, now, ids);
            d in s'.promises &&
            (s'.promises[d].record == s.promises[d].record || EndedByDeadline(s'.promises[d].record))
    decreases |ids|
  {
    if ids != [] {
      var m := AutoTimeout(s, now, ids[0]);
      AutoTimeoutEnds(s, now, ids[0], d);
      AutoTimeoutKeepsInv(s, now, ids[0]);
      if m.PendingPromise(d) {
        AutoTimeoutsEnd(m, now, ids[1..], d);
      } else {
        AutoTimeoutsAdvance(m, now, ids[1..]);
        FinalRecord(m, AutoTimeouts(s, now, ids), d);
      }
    }
  }

  /** A promise that did not exist before a request and is settled after it was
      born past its deadline. */
  lemma BornByCreate(s: Server, now: int, args: CreateArgs, d: Id)
    requires Inv(s) && d !in s.promises && CreatePromise(s, now, args).0.SettledPromise(d)
    ensures EndedByDeadline(CreatePromise(s, now, args).0.promises[d].record)
  {
    if args.id != "" && args.id !in s.promises {
      if now >= Deadline(args) {
        CreateExpiredIs(s, now, args);
      } else {
        AddPendingTaskIs(AddPromise(s, args.id, FreshRecord(args, now)), args, now);
      }
    }
  }

  lemma BornByCreateTask(s: Server, now: int, pid: string, ttl: int, args: CreateArgs, d: Id)
    requires Inv(s) && d !in s.promises && CreateTask(s, now, pid, ttl, args).0.SettledPromise(d)
    ensures EndedByDeadline(CreateTask(s, now, pid, ttl, args).0.promises[d].record)
  {
    assert Ok(s, args.id);
    if pid != "" && args.id != "" && args.id !in s.promises && args.id !in s.tasks {
      CreateFreshTaskIs(s, now, pid, ttl, args);
    }
  }

  lemma SettleAddsNothing(s: Server, outcomes: map<Id, Outcome>, now: int)
    requires Inv(s) && Proper(s, outcomes)
    ensures Settle(s, outcomes, now).promises.Keys == s.promises.Keys
  {
    SettleKeepsKeys(s, outcomes, now);
  }

  lemma BornByFence(s: Server, now: int, req: Request, d: Id)
    requires Inv(s) && req.TaskFence? && SettledBy(s, now, req).Nothing?
    requires d !in s.promises && Handle(s, now, req).0.SettledPromise(d)
    ensures EndedByDeadline(Handle(s, now, req).0.promises[d].record)
  {
    FenceIsFenced(s, now, req.id, req.version, req.fenced);
    match req.fenced
    case FenceCreate(args) => BornByCreate(s, now, args, d);
    case FenceSettle(args) =>
      if req.id != "" && HoldsLease(s, req.id, req.version) { SettleQuietly(s, now, args); }
  }

  lemma QuietAddsNothing(s: Server, now: int, req: Request)
    requires SettledBy(s, now, req).Nothing?
    requires !req.PromiseCreate? && !req.TaskCreate? && !req.TaskFence?
    ensures Handle(s, now, req).0.promises.Keys == s.promises.Keys
  {
    if req.PromiseSettle? {
      SettleQuietly(s, now, req.settle);
    } else if req.TaskFulfill? {
      FulfillQuietly(s, now, req.id, req.action, req.state, req.value);
    } else if req.TaskHeartbeat? {
      BeatsOnlyTimers(s, now, req.pid, req.refs);
    }
  }

  lemma Born(s: Server, now: int, req: Request, d: Id)
    requires Inv(s) && WellFormed(req) && d !in s.promises && Handle(s, now, req).0.SettledPromise(d)
    ensures EndedByDeadline(Handle(s, now, req).0.promises[d].record)
    ensures SettledBy(s, now, req).Nothing?
  {
    var x := SettledBy(s, now, req);
    if x.Settling? {
      HandleSettles(s, now, req);
      SettleAddsNothing(s, map[x.id := x.outcome], now);
    } else if req.PromiseCreate? {
      BornByCreate(s, now, req.create, d);
    } else if req.TaskCreate? {
      BornByCreateTask(s, now, req.pid, req.ttl, req.create, d);
    } else if req.TaskFence? {
      BornByFence(s, now, req, d);
    } else {
      QuietAddsNothing(s, now, req);
    }
  }

  /** A request ends the promise it settles now, before its deadline, and no other. */
  lemma HandleEnds(s: Server, now: int, req: Request, d: Id)
    requires Inv(s) && WellFormed(req) && s.PendingPromise(d) && TimelyAt(s, now, d)
    requires d in Touched(req) ==> !Overdue(s, now, d)
    requires Handle(s, now, req).0.SettledPromise(d)
    ensures SettledBy(s, now, req).Settling? && SettledBy(s, now, req).id == d
    ensures TellsHow(Handle(s, now, req).0.promises[d].record, true, now)
    ensures AsAsked(Handle(s, now, req).0.promises[d].record, req)
  {
    var x := SettledBy(s, now, req);
    if x.Settling? {
      HandleSettles(s, now, req);
      SettledPromiseIs(s, map[x.id := x.outcome], now, d);
      assert x.id in Touched(req);
    } else {
      QuietLeavesSubscribers(s, now, req, d);
    }
  }

  lemma SettlesPending(s: Server, now: int, req: Request)
    requires Inv(s) && WellFormed(req) && SettledBy(s, now, req).Settling?
    ensures s.PendingPromise(SettledBy(s, now, req).id)
  {
    HandleSettles(s, now, req);
  }

  lemma PreparedEnds(s: Server, now: int, req: Request, d: Id)
    requires Inv(s) && !s.SettledPromise(d)
    ensures var q := Prepared(s, now, req);
            && (d in q.promises <==> d in s.promises)
            && (q.SettledPromise(d) ==> EndedByDeadline(q.promises[d].record))
  {
    ClearedKeepsInv(s);
    AutoTimeoutsKeys(Cleared(s), now, Touched(req));
    if s.PendingPromise(d) {
      AutoTimeoutsEnd(Cleared(s), now, Touched(req), d);
    }
  }

  lemma RequestEnds(s: Server, now: int, req: Request, d: Id)
    requires Inv(s) && WellFormed(req) && AllTimely(s, now)
    requires !s.SettledPromise(d) && Apply(s, now, req).0.SettledPromise(d)
    ensures TellsHow(Apply(s, now, req).0.promises[d].record, ByRequest(s, Asked(now, req), d), now)
    ensures ByRequest(s, Asked(now, req), d) ==> AsAsked(Apply(s, now, req).0.promises[d].record, req)
  {
    var q := Prepared(s, now, req);
    PreparedAdvances(s, now, req);
    PreparedEnds(s, now, req, d);
    PreparedTimely(s, now, req, d);
    if SettledBy(q, now, req).Settling? { SettlesPending(q, now, req); }
    if d !in q.promises {
      Born(q, now, req, d);
    } else if q.SettledPromise(d) {
      HandleAdvances(q, now, req);
      FinalRecord(q, Apply(s, now, req).0, d);
    } else {
      HandleEnds(q, now, req, d);
    }
  }

  lemma TickEnds(s: Server, now: int, d: Id)
    requires Inv(s) && !s.SettledPromise(d) && Tick(s, now).SettledPromise(d)
    ensures EndedByDeadline(Tick(s, now).promises[d].record)
  {
    var o := DueOutcomes(s, now);
    DueIsProper(s, now);
    SettleAddsNothing(s, o, now);
    if d in s.promises {
      SettledPromiseIs(s, o, now, d);
    }
  }

  /** The step that settles a promise writes into it what that step was. */
  lemma StepTellsHow(s: Server, e: Event, d: Id)
    requires Inv(s) && Sensible(e) && AllTimely(s, e.now)
    requires !s.SettledPromise(d) && Step(s, e).SettledPromise(d)
    ensures TellsHow(Step(s, e).promises[d].record, ByRequest(s, e, d), e.now)
    ensures ByRequest(s, e, d) ==> AsAsked(Step(s, e).promises[d].record, e.req)
  {
    match e
    case Asked(now, req) => RequestEnds(s, now, req, d);
    case Clock(now) =>
      ClearedKeepsInv(s);
      TickEnds(Cleared(s), now, d);
  }

  /** The `k`-th event of the run settled `d`. */
  predicate SettledIn(es: seq<Event>, k: nat, d: Id)
    requires k < |es|
  {
    !Run(EMPTY_SERVER, es[..k]).SettledPromise(d) && Run(EMPTY_SERVER, es[..k + 1]).SettledPromise(d)
  }

  lemma {:induction false} FirstTime(p: nat -> bool, n: nat) returns (k: nat)
    requires !p(0) && p(n)
    ensures k < n && !p(k) && p(k + 1)
  {
    if p(n - 1) {
      k := FirstTime(p, n - 1);
    } else {
      k := n - 1;
    }
  }

  lemma SomethingSettledIt(es: seq<Event>, n: nat, d: Id) returns (k: nat)
    requires n <= |es| && Run(EMPTY_SERVER, es[..n]).SettledPromise(d)
    ensures k < n && SettledIn(es, k, d)
  {
    k := FirstTime((i: nat) => i <= |es| && Run(EMPTY_SERVER, es[..i]).SettledPromise(d), n);
  }

  lemma TimelyAtEach(es: seq<Event>, from: int, k: nat)
    requires SensibleRun(es) && Timed(es, from) && k < |es|
    ensures Inv(Run(EMPTY_SERVER, es[..k])) && AllTimely(Run(EMPTY_SERVER, es[..k]), es[k].now)
  {
    InvInitially();
    RunKeepsInv(EMPTY_SERVER, es[..k]);
    RecordsAreTimely(es[..k], from);
    LaterTimely(Run(EMPTY_SERVER, es[..k]), LastTime(es[..k], from), es[k].now);
  }

  lemma FinalAtTheEnd(es: seq<Event>, k: nat, d: Id)
    requires SensibleRun(es) && k < |es| && Run(EMPTY_SERVER, es[..k + 1]).SettledPromise(d)
    ensures Run(EMPTY_SERVER, es).SettledPromise(d)
    ensures Run(EMPTY_SERVER, es).promises[d].record == Run(EMPTY_SERVER, es[..k + 1]).promises[d].record
  {
    InvInitially();
    assert es[..|es|] == es;
    SettlementIsFinal(EMPTY_SERVER, es, k + 1, |es|, d);
  }

  /** The record of `d` at the end of the run tells how its `k`-th event settled it. */
  predicate Tells(es: seq<Event>, k: nat, d: Id)
    requires k < |es| && d in Run(EMPTY_SERVER, es).promises
  {
    var r := Run(EMPTY_SERVER, es).promises[d].record;
    var asked := ByRequest(Run(EMPTY_SERVER, es[..k]), es[k], d);
    TellsHow(r, asked, es[k].now) && (asked ==> AsAsked(r, es[k].req))
  }

  lemma SettledInTells(es: seq<Event>, from: int, k: nat, d: Id)
    requires SensibleRun(es) && Timed(es, from) && k < |es| && SettledIn(es, k, d)
    ensures Run(EMPTY_SERVER, es).SettledPromise(d)
    ensures Tells(es, k, d)
  {
    TimelyAtEach(es, from, k);
    RunNext(EMPTY_SERVER, es, k);
    StepTellsHow(Run(EMPTY_SERVER, es[..k]), es[k], d);
    FinalAtTheEnd(es, k, d);
  }

  /** Timestamps tell how it happened.  A promise settled at the end of a run was
      settled by one of its events.  If that was a request for it, the record has the
      state and the value that request asked for and was written at that moment,
      not before its creation and strictly before its deadline.  If it was anything
      else, the record carries the deadline as its end, a null value, and is
      resolved when it is a timer and timed out when it is not. */
  lemma TimestampsTellHow(es: seq<Event>, from: int, d: Id)
    requires SensibleRun(es) && Timed(es, from) && Run(EMPTY_SERVER, es).SettledPromise(d)
    ensures exists k | 0 <= k < |es| :: SettledIn(es, k, d)
    ensures forall k | 0 <= k < |es| && SettledIn(es, k, d) :: Tells(es, k, d)
  {
    assert es[..|es|] == es;
    var k := SomethingSettledIt(es, |es|, d);
    forall k | 0 <= k < |es| && SettledIn(es, k, d)
      ensures Tells(es, k, d)
    {
      SettledInTells(es, from, k, d);
    }
  }
}

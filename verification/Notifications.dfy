/**
 Every subscriber of a promise is told when it settles, and told the truth.
 */
module Notifications {
  import opened Protocol
  import opened Settlement
  import opened Requests
  import opened Invariant
  import opened Progress
  import opened Runs
  import opened Redirects

  /** Address `a` is still subscribed to `d`, or is being told how it ended. */
  predicate Told(s: Server, d: Id, a: string) {
    d in s.promises &&
    if s.promises[d].record.Settled() then Unblock(a, d, s.promises[d].record) in s.unblocks
    else a in s.promises[d].subscribers
  }

  /** Every unblock message carries the server's settled record. */
  ghost predicate Truthful(s: Server) {
    forall u | u in s.unblocks :: s.SettledPromise(u.id) && s.promises[u.id].record == u.record
  }

  /** Nobody unsubscribes and no message is withdrawn or added. */
  predicate LeavesSubscribers(s: Server, s': Server, d: Id) {
    && s'.unblocks == s.unblocks
    && (d in s.promises ==>
          && d in s'.promises
          && s'.promises[d].record == s.promises[d].record
          && s.promises[d].subscribers <= s'.promises[d].subscribers)
  }

  lemma SettleUnblocks(s: Server, outcomes: map<Id, Outcome>, now: int)
    ensures Settle(s, outcomes, now).unblocks
         == s.unblocks + multiset(Notices(Closed(s, outcomes), outcomes.Keys))
  {
    NoticesAfterWake(Closed(s, outcomes), outcomes.Keys, outcomes.Keys, now);
  }

  lemma ClosedPromise(s: Server, outcomes: map<Id, Outcome>, d: Id)
    requires d in outcomes && d in s.promises
    ensures d in Closed(s, outcomes).promises
    ensures Closed(s, outcomes).promises[d].record == Marked(s.promises[d].record, outcomes[d])
    ensures Closed(s, outcomes).promises[d].subscribers == s.promises[d].subscribers
  {
  }

  lemma SettleTells(s: Server, outcomes: map<Id, Outcome>, now: int, d: Id, a: string)
    requires Inv(s) && Proper(s, outcomes) && Told(s, d, a)
    ensures Told(Settle(s, outcomes, now), d, a)
  {
    SettleUnblocks(s, outcomes, now);
    SettledPromiseIs(s, outcomes, now, d);
    if d in outcomes {
      ClosedPromise(s, outcomes, d);
      assert Unblock(a, d, Marked(s.promises[d].record, outcomes[d])) in Notices(Closed(s, outcomes), outcomes.Keys);
    }
  }

  lemma SettleTruthful(s: Server, outcomes: map<Id, Outcome>, now: int)
    requires Inv(s) && Proper(s, outcomes) && Truthful(s)
    ensures Truthful(Settle(s, outcomes, now))
  {
    var s' := Settle(s, outcomes, now);
    SettleUnblocks(s, outcomes, now);
    forall u | u in s'.unblocks ensures s'.SettledPromise(u.id) && s'.promises[u.id].record == u.record
    {
      if u !in s.unblocks {
        assert u in Notices(Closed(s, outcomes), outcomes.Keys);
        ClosedPromise(s, outcomes, u.id);
      }
      SettledPromiseIs(s, outcomes, now, u.id);
    }
  }

  lemma LeftAloneTells(s: Server, s': Server, d: Id, a: string)
    requires Told(s, d, a) && LeavesSubscribers(s, s', d)
    ensures Told(s', d, a)
  {
  }

  lemma LeftAloneTruthful(s: Server, s': Server)
    requires Truthful(s) && Advances(s, s') && s'.unblocks == s.unblocks
    ensures Truthful(s')
  {
    forall u | u in s'.unblocks ensures s'.SettledPromise(u.id) && s'.promises[u.id].record == u.record
    {
      assert AdvancesAt(s, s', u.id);
    }
  }

  // ---------------------------------------------------------------------
  //  Requests
  // ---------------------------------------------------------------------

  lemma AutoTimeoutTells(s: Server, now: int, id: Id, d: Id, a: string)
    requires Inv(s)
    ensures Told(s, d, a) ==> Told(AutoTimeout(s, now, id), d, a)
    ensures Truthful(s) ==> Truthful(AutoTimeout(s, now, id))
  {
    if Overdue(s, now, id) {
      var o := map[id := LazyOutcome(s.promises[id].record)];
      if Told(s, d, a) { SettleTells(s, o, now, d, a); }
      if Truthful(s) { SettleTruthful(s, o, now); }
    }
  }

  lemma {:induction false} AutoTimeoutsTell(s: Server, now: int, ids: seq<Id>, d: Id, a: string)
    requires Inv(s)
    ensures Told(s, d, a) ==> Told(AutoTimeouts(s, now, ids), d, a)
    ensures Truthful(s) ==> Truthful(AutoTimeouts(s, now, ids))
    decreases |ids|
  {
    if ids != [] {
      AutoTimeoutTells(s, now, ids[0], d, a);
      AutoTimeoutKeepsInv(s, now, ids[0]);
      AutoTimeoutsTell(AutoTimeout(s, now, ids[0]), now, ids[1..], d, a);
    }
  }

  lemma CreateLeavesSubscribers(s: Server, now: int, args: CreateArgs, d: Id)
    requires Inv(s)
    ensures LeavesSubscribers(s, CreatePromise(s, now, args).0, d)
  {
    CreatePromiseAdds(s, now, args);
    if args.id != "" && args.id !in s.promises {
      if now >= Deadline(args) {
        CreateExpiredIs(s, now, args);
      } else {
        AddPendingTaskIs(AddPromise(s, args.id, FreshRecord(args, now)), args, now);
      }
    }
  }

  lemma CreateTaskLeavesSubscribers(s: Server, now: int, pid: string, ttl: int, args: CreateArgs, d: Id)
    requires Inv(s)
    ensures LeavesSubscribers(s, CreateTask(s, now, pid, ttl, args).0, d)
  {
    if pid != "" && args.id != "" && args.id !in s.promises && args.id !in s.tasks {
      CreateFreshTaskIs(s, now, pid, ttl, args);
    }
  }

  lemma AcquireLeavesSubscribers(s: Server, now: int, id: Id, pid: string, ttl: int, d: Id)
    ensures LeavesSubscribers(s, AcquireTask(s, now, id, pid, ttl).0, d)
  {
  }

  lemma SuspendLeavesSubscribers(s: Server, id: Id, awaiting: seq<Id>, d: Id)
    ensures LeavesSubscribers(s, SuspendTask(s, id, awaiting).0, d)
  {
  }

  lemma ReleaseLeavesSubscribers(s: Server, leases: map<Id, int>, now: int, d: Id)
    ensures LeavesSubscribers(s, Release(s, leases, now), d)
  {
  }

  lemma FencedLeavesSubscribers(s: Server, now: int, action: FenceAction, d: Id)
    requires Inv(s)
    requires action.FenceSettle? ==> action.settle.id == "" || !s.PendingPromise(action.settle.id)
    ensures LeavesSubscribers(s, Fenced(s, now, action).0, d)
  {
    match action
    case FenceCreate(args) => CreateLeavesSubscribers(s, now, args, d);
    case FenceSettle(args) => SettleQuietly(s, now, args);
  }

  lemma TaskRequestLeavesSubscribers(s: Server, now: int, req: Request, d: Id)
    requires Inv(s) && SettledBy(s, now, req).Nothing?
    requires req.TaskCreate? || req.TaskAcquire? || req.TaskRelease? || req.TaskSuspend? || req.TaskHeartbeat?
    ensures LeavesSubscribers(s, Handle(s, now, req).0, d)
  {
    if req.TaskCreate? {
      CreateTaskLeavesSubscribers(s, now, req.pid, req.ttl, req.create, d);
    } else if req.TaskAcquire? {
      AcquireLeavesSubscribers(s, now, req.id, req.pid, req.ttl, d);
    } else if req.TaskSuspend? {
      SuspendLeavesSubscribers(s, req.id, req.awaiting, d);
    } else if req.TaskHeartbeat? {
      BeatsOnlyTimers(s, now, req.pid, req.refs);
    } else if req.id in s.tasks {
      ReleaseLeavesSubscribers(s, map[req.id := s.tasks[req.id].version], now, d);
    }
  }

  lemma PromiseRequestLeavesSubscribers(s: Server, now: int, req: Request, d: Id)
    requires Inv(s) && SettledBy(s, now, req).Nothing?
    requires req.PromiseCreate? || req.PromiseSettle? || req.RegisterListener? || req.TaskFulfill?
    ensures LeavesSubscribers(s, Handle(s, now, req).0, d)
  {
    if req.PromiseCreate? {
      CreateLeavesSubscribers(s, now, req.create, d);
    } else if req.PromiseSettle? {
      SettleQuietly(s, now, req.settle);
    } else if req.TaskFulfill? {
      FulfillQuietly(s, now, req.id, req.action, req.state, req.value);
    }
  }

  lemma FenceLeavesSubscribers(s: Server, now: int, id: Id, version: int, action: FenceAction, d: Id)
    requires Inv(s) && SettledBy(s, now, TaskFence(id, version, action)).Nothing?
    ensures LeavesSubscribers(s, FenceTask(s, now, id, version, action).0, d)
  {
    FenceIsFenced(s, now, id, version, action);
    if id != "" && HoldsLease(s, id, version) {
      FencedLeavesSubscribers(s, now, action, d);
    }
  }

  lemma QuietLeavesSubscribers(s: Server, now: int, req: Request, d: Id)
    requires Inv(s) && SettledBy(s, now, req).Nothing?
    ensures LeavesSubscribers(s, Handle(s, now, req).0, d)
  {
    if req.TaskFence? {
      FenceLeavesSubscribers(s, now, req.id, req.version, req.fenced, d);
    } else if req.PromiseCreate? || req.PromiseSettle? || req.RegisterListener? || req.TaskFulfill? {
      PromiseRequestLeavesSubscribers(s, now, req, d);
    } else if !req.PromiseGet? && !req.UnknownKind? {
      TaskRequestLeavesSubscribers(s, now, req, d);
    }
  }

  lemma HandleTells(s: Server, now: int, req: Request, d: Id, a: string)
    requires Inv(s) && WellFormed(req)
    ensures Told(s, d, a) ==> Told(Handle(s, now, req).0, d, a)
    ensures Truthful(s) ==> Truthful(Handle(s, now, req).0)
  {
    var x := SettledBy(s, now, req);
    if x.Settling? {
      HandleSettles(s, now, req);
      if Told(s, d, a) { SettleTells(s, map[x.id := x.outcome], now, d, a); }
      if Truthful(s) { SettleTruthful(s, map[x.id := x.outcome], now); }
    } else {
      QuietLeavesSubscribers(s, now, req, d);
      if Told(s, d, a) { LeftAloneTells(s, Handle(s, now, req).0, d, a); }
      HandleAdvances(s, now, req);
      if Truthful(s) { LeftAloneTruthful(s, Handle(s, now, req).0); }
    }
  }

  // ---------------------------------------------------------------------
  //  One step of the server
  // ---------------------------------------------------------------------

  predicate Subscribed(s: Server, d: Id, a: string) {
    s.PendingPromise(d) && a in s.promises[d].subscribers
  }

  lemma ApplyTells(s: Server, now: int, req: Request, d: Id, a: string)
    requires Inv(s) && WellFormed(req)
    ensures Subscribed(s, d, a) ==> Told(Apply(s, now, req).0, d, a)
    ensures Truthful(Apply(s, now, req).0)
  {
    ClearedKeepsInv(s);
    AutoTimeoutsTell(Cleared(s), now, Touched(req), d, a);
    PreparedAdvances(s, now, req);
    HandleTells(Prepared(s, now, req), now, req, d, a);
  }

  lemma RearmLeavesSubscribers(s: Server, leases: map<Id, int>, retries: set<Id>, now: int, d: Id)
    ensures LeavesSubscribers(s, RetryAll(Release(s, leases, now), retries, now), d)
  {
    ReleaseLeavesSubscribers(s, leases, now, d);
  }

  lemma TickTells(s: Server, now: int, d: Id, a: string)
    requires Inv(s) && s.unblocks == multiset{}
    ensures Subscribed(s, d, a) ==> Told(Tick(s, now), d, a)
    ensures Truthful(Tick(s, now))
  {
    var o := DueOutcomes(s, now);
    var m := Settle(s, o, now);
    DueIsProper(s, now);
    if Subscribed(s, d, a) { SettleTells(s, o, now, d, a); }
    SettleTruthful(s, o, now);
    RearmLeavesSubscribers(m, ExpiredLeases(s, now), DueRetries(s, now), now, d);
    ReleaseAdvances(m, ExpiredLeases(s, now), now);
    RetryAllAdvances(Release(m, ExpiredLeases(s, now), now), DueRetries(s, now), now);
    AdvancesTransitively(m, Release(m, ExpiredLeases(s, now), now), Tick(s, now));
    LeftAloneTruthful(m, Tick(s, now));
  }

  /** Whatever settles a promise, in the step that settles it every subscriber
      is sent its record; and nothing but settled records is ever sent. */
  lemma SubscribersAreTold(s: Server, e: Event, d: Id, a: string)
    requires Inv(s) && Sensible(e)
    ensures Subscribed(s, d, a) ==> Told(Step(s, e), d, a)
    ensures Truthful(Step(s, e))
  {
    match e
    case Asked(now, req) => ApplyTells(s, now, req, d, a);
    case Clock(now) =>
      ClearedKeepsInv(s);
      TickTells(Cleared(s), now, d, a);
  }

  // ---------------------------------------------------------------------
  //  Nobody else, and nobody twice
  // ---------------------------------------------------------------------

  /** The message is due: its address was subscribed to its promise, which has since
      settled with just that record. */
  predicate Due(s: Server, s': Server, u: Unblock) {
    Subscribed(s, u.id, u.address) && s'.SettledPromise(u.id) && s'.promises[u.id].record == u.record
  }

  /** The message has been sent once if it was due, and not otherwise. */
  predicate TellsExactly(s: Server, s': Server, u: Unblock) {
    s'.unblocks[u] == s.unblocks[u] + if Due(s, s', u) then 1 else 0
  }

  /** The address is subscribed as before, as long as the promise is pending. */
  predicate SameSubscriber(s: Server, s': Server, u: Unblock) {
    Subscribed(s', u.id, u.address) <==> Subscribed(s, u.id, u.address) && s'.PendingPromise(u.id)
  }

  lemma NoticesExact(s: Server, outcomes: map<Id, Outcome>, u: Unblock)
    requires Inv(s) && Proper(s, outcomes)
    ensures u in Notices(Closed(s, outcomes), outcomes.Keys) <==>
              u.id in outcomes && Subscribed(s, u.id, u.address) && u.record == Marked(s.promises[u.id].record, outcomes[u.id])
  {
    if u.id in outcomes { ClosedPromise(s, outcomes, u.id); }
  }

  lemma SettleTellsExactly(s: Server, outcomes: map<Id, Outcome>, now: int, u: Unblock)
    requires Inv(s) && Proper(s, outcomes)
    ensures TellsExactly(s, Settle(s, outcomes, now), u) && SameSubscriber(s, Settle(s, outcomes, now), u)
  {
    SettleUnblocks(s, outcomes, now);
    NoticesExact(s, outcomes, u);
    SettleKeepsKeys(s, outcomes, now);
    if u.id in s.promises { SettledPromiseIs(s, outcomes, now, u.id); }
  }

  lemma TellsOnward(s: Server, m: Server, s': Server, u: Unblock)
    requires Advances(s, m) && Advances(m, s')
    requires TellsExactly(s, m, u) && SameSubscriber(s, m, u) && TellsExactly(m, s', u)
    ensures TellsExactly(s, s', u)
    ensures SameSubscriber(m, s', u) ==> SameSubscriber(s, s', u)
  {
    assert AdvancesAt(s, m, u.id) && AdvancesAt(m, s', u.id);
  }

  lemma {:induction false} AutoTimeoutsTellExactly(s: Server, now: int, ids: seq<Id>, u: Unblock)
    requires Inv(s)
    ensures TellsExactly(s, AutoTimeouts(s, now, ids), u) && SameSubscriber(s, AutoTimeouts(s, now, ids), u)
    decreases |ids|
  {
    if ids != [] {
      var m := AutoTimeout(s, now, ids[0]);
      AutoTimeoutKeepsInv(s, now, ids[0]);
      AutoTimeoutAdvances(s, now, ids[0]);
      AutoTimeoutsAdvance(m, now, ids[1..]);
      if Overdue(s, now, ids[0]) { SettleTellsExactly(s, map[ids[0] := LazyOutcome(s.promises[ids[0]].record)], now, u); }
      AutoTimeoutsTellExactly(m, now, ids[1..], u);
      TellsOnward(s, m, AutoTimeouts(s, now, ids), u);
    }
  }

  lemma LeftAloneExactly(s: Server, s': Server, u: Unblock)
    requires LeavesSubscribers(s, s', u.id)
    ensures TellsExactly(s, s', u)
  {
  }

  lemma HandleTellsExactly(s: Server, now: int, req: Request, u: Unblock)
    requires Inv(s) && WellFormed(req)
    ensures TellsExactly(s, Handle(s, now, req).0, u)
  {
    var x := SettledBy(s, now, req);
    if x.Settling? {
      HandleSettles(s, now, req);
      SettleTellsExactly(s, map[x.id := x.outcome], now, u);
    } else {
      QuietLeavesSubscribers(s, now, req, u.id);
      LeftAloneExactly(s, Handle(s, now, req).0, u);
    }
  }

  lemma ApplyTellsExactly(s: Server, now: int, req: Request, u: Unblock)
    requires Inv(s) && WellFormed(req)
    ensures TellsExactly(Cleared(s), Apply(s, now, req).0, u)
  {
    var q := Prepared(s, now, req);
    ClearedKeepsInv(s);
    PreparedAdvances(s, now, req);
    AutoTimeoutsAdvance(Cleared(s), now, Touched(req));
    AutoTimeoutsTellExactly(Cleared(s), now, Touched(req), u);
    HandleTellsExactly(q, now, req, u);
    HandleAdvances(q, now, req);
    TellsOnward(Cleared(s), q, Apply(s, now, req).0, u);
  }

  lemma TickTellsExactly(s: Server, now: int, u: Unblock)
    requires Inv(s)
    ensures TellsExactly(s, Tick(s, now), u)
  {
    var o := DueOutcomes(s, now);
    var m := Settle(s, o, now);
    DueIsProper(s, now);
    SettleTellsExactly(s, o, now, u);
    SettleAdvances(s, o, now);
    RearmLeavesSubscribers(m, ExpiredLeases(s, now), DueRetries(s, now), now, u.id);
    LeftAloneExactly(m, Tick(s, now), u);
    ReleaseAdvances(m, ExpiredLeases(s, now), now);
    RetryAllAdvances(Release(m, ExpiredLeases(s, now), now), DueRetries(s, now), now);
    AdvancesTransitively(m, Release(m, ExpiredLeases(s, now), now), Tick(s, now));
    TellsOnward(s, m, Tick(s, now), u);
  }

  /** The unblock messages of a step are exactly those due: one to each address
      subscribed to a promise the step settles, with the record it leaves. */
  lemma UnblocksAreExact(s: Server, e: Event, u: Unblock)
    requires Inv(s) && Sensible(e)
    ensures Step(s, e).unblocks[u] == if Due(s, Step(s, e), u) then 1 else 0
  {
    match e
    case Asked(now, req) => ApplyTellsExactly(s, now, req, u);
    case Clock(now) =>
      ClearedKeepsInv(s);
      TickTellsExactly(Cleared(s), now, u);
  }
}

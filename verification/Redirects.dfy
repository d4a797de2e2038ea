/**
 The redirect loop of `Core` terminates: every redirect the server answers is
 paid for by a promise that settled since the one before.
 */
module Redirects {
  import opened Protocol
  import opened Settlement
  import opened Requests
  import opened Invariant
  import opened Progress
  import opened Runs

  // ---------------------------------------------------------------------
  //  The two shapes of a request
  // ---------------------------------------------------------------------

  datatype Effect = Nothing | Settling(id: Id, outcome: Outcome)

  /** What the request settles, if it settles anything. */
  function SettledBy(s: Server, now: int, req: Request): Effect {
    match req
    case PromiseSettle(a) =>
      if a.id != "" && s.PendingPromise(a.id) then Settling(a.id, Outcome(a.state, a.value, now)) else Nothing
    case TaskFence(id, version, FenceSettle(a)) =>
      if id != "" && HoldsLease(s, id, version) && a.id != "" && s.PendingPromise(a.id)
      then Settling(a.id, Outcome(a.state, a.value, now)) else Nothing
    case TaskFulfill(id, _, state, value) =>
      if id != "" && s.TaskIs(id, Acquired) then Settling(id, Outcome(state, value, now)) else Nothing
    case _ => Nothing
  }

  lemma HandleSettles(s: Server, now: int, req: Request)
    requires Inv(s) && WellFormed(req) && SettledBy(s, now, req).Settling?
    ensures var x := SettledBy(s, now, req);
            && Proper(s, map[x.id := x.outcome])
            && Handle(s, now, req).0 == Settle(s, map[x.id := x.outcome], now)
  {
    match req
    case PromiseSettle(_) =>
    case TaskFence(_, _, FenceSettle(_)) =>
    case TaskFulfill(id, action, state, value) =>
      assert Ok(s, id);
      FulfillOwnIsSettle(s, now, id, action, state, value);
  }

  /** All that a request which settles nothing can do to a task. */
  predicate TaskEdit(t: Task, t': Task) {
    || t' == t
    || (t.state.Pending? && t'.state.Acquired? && t'.version == t.version && t'.resumes == {})
    || (t.state.Acquired? && t'.state.Pending? && t'.version == t.version + 1 && t'.resumes == t.resumes)
    || (t.state.Acquired? && (t'.state.Acquired? || t'.state.Suspended?) && t'.version == t.version && t'.resumes == {})
  }

  predicate EditAt(s: Server, s': Server, t: Id) {
    && (t in s.tasks ==> t in s'.tasks && TaskEdit(s.tasks[t], s'.tasks[t]))
    && (t !in s.tasks && t in s'.tasks ==> s'.tasks[t].resumes == {})
  }

  lemma CreateEdits(s: Server, now: int, args: CreateArgs, t: Id)
    requires Inv(s)
    ensures EditAt(s, CreatePromise(s, now, args).0, t)
  {
    CreatePromiseAdds(s, now, args);
    if args.id != "" && args.id !in s.promises {
      if now >= Deadline(args) {
        CreateExpiredIs(s, now, args);
      } else {
        AddPendingTaskIs(AddPromise(s, args.id, FreshRecord(args, now)), args, now);
      }
    }
  }

  lemma CreateTaskEdits(s: Server, now: int, pid: string, ttl: int, args: CreateArgs, t: Id)
    ensures EditAt(s, CreateTask(s, now, pid, ttl, args).0, t)
  {
    if pid != "" && args.id != "" && args.id !in s.promises && args.id !in s.tasks {
      CreateFreshTaskIs(s, now, pid, ttl, args);
    }
  }

  lemma SuspendEdits(s: Server, id: Id, awaiting: seq<Id>, t: Id)
    ensures EditAt(s, SuspendTask(s, id, awaiting).0, t)
  {
  }

  lemma ReleaseEdits(s: Server, leases: map<Id, int>, now: int, t: Id)
    ensures EditAt(s, Release(s, leases, now), t)
  {
  }

  lemma SettleQuietly(s: Server, now: int, args: SettleArgs)
    requires args.id == "" || !s.PendingPromise(args.id)
    ensures SettlePromise(s, now, args).0 == s
  {
  }

  lemma FulfillQuietly(s: Server, now: int, id: Id, action: Option<Id>, state: PromiseState, value: Json)
    requires id == "" || !s.TaskIs(id, Acquired)
    ensures FulfillTask(s, now, id, action, state, value).0 == s
  {
  }

  lemma FencedEdits(s: Server, now: int, action: FenceAction, t: Id)
    requires Inv(s)
    requires action.FenceSettle? ==> action.settle.id == "" || !s.PendingPromise(action.settle.id)
    ensures EditAt(s, Fenced(s, now, action).0, t)
  {
    match action
    case FenceCreate(args) => CreateEdits(s, now, args, t);
    case FenceSettle(args) => SettleQuietly(s, now, args);
  }

  lemma FenceIsFenced(s: Server, now: int, id: Id, version: int, action: FenceAction)
    ensures FenceTask(s, now, id, version, action).0
         == if id != "" && HoldsLease(s, id, version) then Fenced(s, now, action).0 else s
  {
  }

  lemma AcquireEdits(s: Server, now: int, id: Id, pid: string, ttl: int, t: Id)
    ensures EditAt(s, AcquireTask(s, now, id, pid, ttl).0, t)
  {
  }

  lemma HandleTaskEdits(s: Server, now: int, req: Request, t: Id)
    requires Inv(s) && SettledBy(s, now, req).Nothing?
    requires req.TaskCreate? || req.TaskAcquire? || req.TaskRelease? || req.TaskSuspend? || req.TaskHeartbeat?
    ensures EditAt(s, Handle(s, now, req).0, t)
  {
    match req
    case TaskCreate(pid, ttl, args) => CreateTaskEdits(s, now, pid, ttl, args, t);
    case TaskAcquire(id, pid, ttl) => AcquireEdits(s, now, id, pid, ttl, t);
    case TaskRelease(id) =>
      if id in s.tasks { ReleaseEdits(s, map[id := s.tasks[id].version], now, t); }
    case TaskSuspend(id, awaiting) => SuspendEdits(s, id, awaiting, t);
    case TaskHeartbeat(pid, refs) => BeatsOnlyTimers(s, now, pid, refs);
  }

  lemma HandlePromiseEdits(s: Server, now: int, req: Request, t: Id)
    requires Inv(s) && SettledBy(s, now, req).Nothing?
    requires req.PromiseCreate? || req.PromiseSettle? || req.RegisterListener? || req.TaskFulfill?
    ensures EditAt(s, Handle(s, now, req).0, t)
  {
    if req.PromiseCreate? {
      CreateEdits(s, now, req.create, t);
    } else if req.PromiseSettle? {
      SettleQuietly(s, now, req.settle);
    } else if req.RegisterListener? {
      assert AddListener(s, req.awaited, req.address).0.tasks == s.tasks;
    } else {
      FulfillQuietly(s, now, req.id, req.action, req.state, req.value);
    }
  }

  lemma HandleFenceEdits(s: Server, now: int, id: Id, version: int, action: FenceAction, t: Id)
    requires Inv(s) && SettledBy(s, now, TaskFence(id, version, action)).Nothing?
    ensures EditAt(s, FenceTask(s, now, id, version, action).0, t)
  {
    FenceIsFenced(s, now, id, version, action);
    if id != "" && HoldsLease(s, id, version) {
      FencedEdits(s, now, action, t);
    }
  }

  lemma HandleEdits(s: Server, now: int, req: Request, t: Id)
    requires Inv(s) && SettledBy(s, now, req).Nothing?
    ensures EditAt(s, Handle(s, now, req).0, t)
  {
    if req.TaskFence? {
      HandleFenceEdits(s, now, req.id, req.version, req.fenced, t);
    } else if req.PromiseCreate? || req.PromiseSettle? || req.RegisterListener? || req.TaskFulfill? {
      HandlePromiseEdits(s, now, req, t);
    } else if !req.PromiseGet? && !req.UnknownKind? {
      HandleTaskEdits(s, now, req, t);
    }
  }

  // ---------------------------------------------------------------------
  //  Resumes are recent settlements
  // ---------------------------------------------------------------------

  function SettledIds(s: Server): set<Id> {
    set p | p in s.promises && s.promises[p].record.Settled()
  }

  /** Everything in the task's resumes has settled since `mark`. */
  predicate ResumesSince(mark: set<Id>, s: Server, t: Id) {
    mark <= SettledIds(s) && (t in s.tasks ==> s.tasks[t].resumes !! mark)
  }

  lemma SettlesToSince(mark: set<Id>, s: Server, outcomes: map<Id, Outcome>, now: int, s': Server, t: Id)
    requires Proper(s, outcomes) && SettlesTo(s, outcomes, now, s') && ResumesSince(mark, s, t)
    ensures ResumesSince(mark, s', t)
  {
    forall p | p in mark ensures p in SettledIds(s')
    {
      assert p in SettledIds(s);
      assert s'.promises[p] == PromiseAfter(s, outcomes, p);
    }
    if t in s.tasks {
      assert s'.tasks[t] == TaskAfter(s, outcomes.Keys, t);
      assert forall r | r in WokenBy(s, outcomes.Keys, t) :: r !in SettledIds(s);
    }
  }

  lemma SettleSince(mark: set<Id>, s: Server, outcomes: map<Id, Outcome>, now: int, t: Id)
    requires Inv(s) && Proper(s, outcomes) && ResumesSince(mark, s, t)
    ensures ResumesSince(mark, Settle(s, outcomes, now), t)
  {
    SettleIs(s, outcomes, now);
    SettlesToSince(mark, s, outcomes, now, Settle(s, outcomes, now), t);
  }

  lemma {:induction false} AutoTimeoutsSince(mark: set<Id>, s: Server, now: int, ids: seq<Id>, t: Id)
    requires Inv(s) && ResumesSince(mark, s, t)
    ensures ResumesSince(mark, AutoTimeouts(s, now, ids), t)
    decreases |ids|
  {
    if ids != [] {
      if Overdue(s, now, ids[0]) {
        SettleSince(mark, s, map[ids[0] := LazyOutcome(s.promises[ids[0]].record)], now, t);
      }
      AutoTimeoutKeepsInv(s, now, ids[0]);
      AutoTimeoutsSince(mark, AutoTimeout(s, now, ids[0]), now, ids[1..], t);
    }
  }

  lemma MarkStays(mark: set<Id>, s: Server, s': Server)
    requires Advances(s, s') && mark <= SettledIds(s)
    ensures mark <= SettledIds(s')
  {
    forall p | p in mark ensures p in SettledIds(s')
    {
      assert p in SettledIds(s) && AdvancesAt(s, s', p);
    }
  }

  lemma HandleSince(mark: set<Id>, s: Server, now: int, req: Request, t: Id)
    requires Inv(s) && WellFormed(req) && ResumesSince(mark, s, t)
    ensures ResumesSince(mark, Handle(s, now, req).0, t)
  {
    var x := SettledBy(s, now, req);
    if x.Settling? {
      HandleSettles(s, now, req);
      SettleSince(mark, s, map[x.id := x.outcome], now, t);
    } else {
      HandleEdits(s, now, req, t);
      HandleAdvances(s, now, req);
      MarkStays(mark, s, Handle(s, now, req).0);
    }
  }

  lemma PreparedSince(mark: set<Id>, s: Server, now: int, req: Request, t: Id)
    requires Inv(s) && ResumesSince(mark, s, t)
    ensures ResumesSince(mark, Prepared(s, now, req), t)
  {
    ClearedKeepsInv(s);
    assert SettledIds(Cleared(s)) == SettledIds(s);
    AutoTimeoutsSince(mark, Cleared(s), now, Touched(req), t);
  }

  lemma RearmSince(mark: set<Id>, s: Server, leases: map<Id, int>, retries: set<Id>, now: int, t: Id)
    requires ResumesSince(mark, s, t)
    ensures ResumesSince(mark, RetryAll(Release(s, leases, now), retries, now), t)
  {
    assert SettledIds(RetryAll(Release(s, leases, now), retries, now)) == SettledIds(s);
  }

  lemma StepSince(mark: set<Id>, s: Server, e: Event, t: Id)
    requires Inv(s) && Sensible(e) && ResumesSince(mark, s, t)
    ensures ResumesSince(mark, Step(s, e), t)
  {
    match e
    case Asked(now, req) =>
      PreparedSince(mark, s, now, req, t);
      PreparedAdvances(s, now, req);
      HandleSince(mark, Prepared(s, now, req), now, req, t);
    case Clock(now) =>
      var c := Cleared(s);
      ClearedKeepsInv(s);
      assert SettledIds(c) == SettledIds(s);
      DueIsProper(c, now);
      SettleSince(mark, c, DueOutcomes(c, now), now, t);
      RearmSince(mark, Settle(c, DueOutcomes(c, now), now), ExpiredLeases(c, now), DueRetries(c, now), now, t);
  }

  // ---------------------------------------------------------------------
  //  Charging redirects
  // ---------------------------------------------------------------------

  /** The event is a `task.suspend` of `t` answered with a redirect. */
  predicate Redirects(s: Server, e: Event, t: Id) {
    e.Asked? && e.req.TaskSuspend? && e.req.id == t && Apply(s, e.now, e.req).1.Redirect?
  }

  /** The worker's own redirects; `mine` are its own events.  Others may suspend
      the task too: the server does not ask who does. */
  function RedirectCount(s: Server, es: seq<Event>, mine: set<nat>, t: Id): nat {
    if es == [] then 0
    else
      var last := |es| - 1;
      RedirectCount(s, es[..last], mine, t) + if last in mine && Redirects(Run(s, es[..last]), es[last], t) then 1 else 0
  }

  /** How many events had happened when the worker began its current pass: none,
      or those up to its last redirect. */
  function PassStart(s: Server, es: seq<Event>, mine: set<nat>, t: Id): (n: nat)
    ensures n <= |es|
  {
    if es == [] then 0
    else
      var last := |es| - 1;
      if last in mine && Redirects(Run(s, es[..last]), es[last], t) then |es| else PassStart(s, es[..last], mine, t)
  }

  /** The `j`-th state of the run showed `d` pending. */
  predicate PendingAt(s: Server, es: seq<Event>, j: nat, d: Id)
    requires j <= |es|
  {
    Run(s, es[..j]).PendingPromise(d)
  }

  /** What the worker suspends on, it has seen pending since its pass began: that
      is how it comes by what it suspends on. */
  ghost predicate SawPending(s: Server, es: seq<Event>, mine: set<nat>, t: Id) {
    forall k, d | 0 <= k < |es| && k in mine && es[k].Asked? && es[k].req.TaskSuspend? && es[k].req.id == t
                  && d in es[k].req.awaiting ::
      exists j | PassStart(s, es[..k], mine, t) <= j <= k :: PendingAt(s, es, j, d)
  }

  lemma RedirectIsPaidFor(mark: set<Id>, s: Server, e: Event, t: Id)
    requires Inv(s) && Sensible(e) && ResumesSince(mark, s, t) && Redirects(s, e, t)
    requires forall d | d in e.req.awaiting :: d !in mark
    ensures mark < SettledIds(Step(s, e))
    ensures t in Step(s, e).tasks && Step(s, e).tasks[t].resumes == {}
  {
    var p := Prepared(s, e.now, e.req);
    PreparedSince(mark, s, e.now, e.req, t);
    PreparedAdvances(s, e.now, e.req);
    HandleAdvances(p, e.now, e.req);
    MarkStays(SettledIds(p), p, Step(s, e));
    assert Ok(p, t);
    if p.tasks[t].resumes != {} {
      var r :| r in p.tasks[t].resumes;
      assert r in SettledIds(p) && r !in mark;
    } else {
      var d :| d in Elements(e.req.awaiting) && p.SettledPromise(d);
      assert d in SettledIds(p) && d !in mark;
    }
  }

  lemma SmallerSet(a: set<Id>, b: set<Id>)
    requires a <= b
    ensures |a| <= |b|
    ensures a < b ==> |a| < |b|
  {
    var rest := b - a;
    assert b == a + rest;
  }

  lemma {:induction false} RunSince(mark: set<Id>, s: Server, es: seq<Event>, t: Id)
    requires Inv(s) && SensibleRun(es) && ResumesSince(mark, s, t)
    ensures Inv(Run(s, es)) && ResumesSince(mark, Run(s, es), t)
  {
    if es != [] {
      var before := es[..|es| - 1];
      RunSince(mark, s, before, t);
      StepKeepsInv(Run(s, before), es[|es| - 1]);
      StepSince(mark, Run(s, before), es[|es| - 1], t);
    }
  }

  /** What was seen pending at some point had not settled at any earlier one. */
  lemma SeenPendingWasPending(s: Server, es: seq<Event>, i: nat, j: nat, d: Id)
    requires Inv(s) && SensibleRun(es) && i <= j <= |es| && PendingAt(s, es, j, d)
    ensures d !in SettledIds(Run(s, es[..i]))
  {
    RunAdvances(s, es, i, j);
    assert AdvancesAt(Run(s, es[..i]), Run(s, es[..j]), d);
  }

  /** Everything the worker's `k`-th event suspends on was unsettled when its pass
      began. */
  lemma UnsettledAtPassStart(s: Server, es: seq<Event>, mine: set<nat>, t: Id, k: nat, d: Id)
    requires Inv(s) && SensibleRun(es) && SawPending(s, es, mine, t)
    requires k < |es| && k in mine && es[k].Asked? && es[k].req.TaskSuspend? && es[k].req.id == t
    requires d in es[k].req.awaiting
    ensures d !in SettledIds(Run(s, es[..PassStart(s, es[..k], mine, t)]))
  {
    var j :| PassStart(s, es[..k], mine, t) <= j <= k && PendingAt(s, es, j, d);
    SeenPendingWasPending(s, es, PassStart(s, es[..k], mine, t), j, d);
  }

  lemma SawPendingBefore(s: Server, es: seq<Event>, mine: set<nat>, t: Id)
    requires es != [] && SawPending(s, es, mine, t)
    ensures SawPending(s, es[..|es| - 1], mine, t)
  {
    var before := es[..|es| - 1];
    assert forall k | 0 <= k <= |before| :: before[..k] == es[..k];
    forall k, d | 0 <= k < |before| && k in mine && before[k].Asked? && before[k].req.TaskSuspend?
                  && before[k].req.id == t && d in before[k].req.awaiting
      ensures exists j | PassStart(s, before[..k], mine, t) <= j <= k :: PendingAt(s, before, j, d)
    {
      var j :| PassStart(s, es[..k], mine, t) <= j <= k && PendingAt(s, es, j, d);
      assert PendingAt(s, before, j, d);
    }
  }

  /** The last event, charged or not. */
  lemma ChargeLast(s: Server, es: seq<Event>, mine: set<nat>, t: Id)
    requires Inv(s) && SensibleRun(es) && es != [] && SawPending(s, es, mine, t)
    requires var last := |es| - 1;
             var mark := SettledIds(Run(s, es[..PassStart(s, es[..last], mine, t)]));
             Inv(Run(s, es[..last])) && ResumesSince(mark, Run(s, es[..last]), t)
    ensures var last := |es| - 1;
            var mark := SettledIds(Run(s, es[..PassStart(s, es[..last], mine, t)]));
            var mark' := SettledIds(Run(s, es[..PassStart(s, es, mine, t)]));
            && ResumesSince(mark', Run(s, es), t)
            && |mark| + (if last in mine && Redirects(Run(s, es[..last]), es[last], t) then 1 else 0) <= |mark'|
  {
    var last := |es| - 1;
    var m, e := Run(s, es[..last]), es[last];
    var mark := SettledIds(Run(s, es[..PassStart(s, es[..last], mine, t)]));
    assert es[..|es|] == es;
    if last in mine && Redirects(m, e, t) {
      forall d | d in e.req.awaiting ensures d !in mark
      {
        UnsettledAtPassStart(s, es, mine, t, last, d);
      }
      RedirectIsPaidFor(mark, m, e, t);
      SmallerSet(mark, SettledIds(Step(m, e)));
    } else {
      StepSince(mark, m, e, t);
    }
  }

  lemma {:induction false} RedirectsSoFar(s: Server, es: seq<Event>, mine: set<nat>, t: Id)
    requires Inv(s) && SensibleRun(es) && SawPending(s, es, mine, t)
    requires t in s.tasks ==> s.tasks[t].resumes == {}
    ensures Inv(Run(s, es))
    ensures ResumesSince(SettledIds(Run(s, es[..PassStart(s, es, mine, t)])), Run(s, es), t)
    ensures |SettledIds(s)| + RedirectCount(s, es, mine, t) <= |SettledIds(Run(s, es[..PassStart(s, es, mine, t)]))|
  {
    if es == [] {
      assert es[..0] == [];
    } else {
      var before := es[..|es| - 1];
      SawPendingBefore(s, es, mine, t);
      RedirectsSoFar(s, before, mine, t);
      var n := PassStart(s, before, mine, t);
      assert before[..n] == es[..n];
      StepKeepsInv(Run(s, before), es[|es| - 1]);
      ChargeLast(s, es, mine, t);
    }
  }

  /** Redirects never outnumber the promises that settled meanwhile.  `s` is the
      server just after the task was acquired.  The run is anything at all, by
      anyone; `mine` are the events of this worker, and of those only that it
      suspends on what it saw pending since its last redirect is asked. */
  lemma RedirectsAreBounded(s: Server, es: seq<Event>, mine: set<nat>, t: Id)
    requires Inv(s) && SensibleRun(es) && SawPending(s, es, mine, t)
    requires t in s.tasks ==> s.tasks[t].resumes == {}
    ensures RedirectCount(s, es, mine, t) <= |SettledIds(Run(s, es)) - SettledIds(s)|
  {
    RedirectsSoFar(s, es, mine, t);
    var n := PassStart(s, es, mine, t);
    assert es[..|es|] == es && es[..0] == [];
    RunAdvances(s, es, n, |es|);
    RunAdvances(s, es, 0, |es|);
    GrownBy(s, Run(s, es[..n]), Run(s, es));
  }

  lemma GrownBy(s: Server, m: Server, s': Server)
    requires Advances(s, s') && Advances(m, s')
    ensures |SettledIds(m)| - |SettledIds(s)| <= |SettledIds(s') - SettledIds(s)|
  {
    MarkStays(SettledIds(s), s, s');
    MarkStays(SettledIds(m), m, s');
    SmallerSet(SettledIds(m), SettledIds(s'));
    assert SettledIds(s') == SettledIds(s) + (SettledIds(s') - SettledIds(s));
  }

  /** A redirect needs something settled: suspending a task with no resumes on
      promises none of which is settled is never answered with a redirect. */
  lemma RedirectExactly(s: Server, id: Id, awaiting: seq<Id>)
    requires id != "" && s.TaskIs(id, Acquired)
    ensures SuspendTask(s, id, awaiting).1.Redirect?
        <==> s.tasks[id].resumes != {} || exists d | d in awaiting :: s.SettledPromise(d)
  {
    if AnySettled(s, Elements(awaiting)) {
      var d :| d in Elements(awaiting) && s.SettledPromise(d);
    }
    if exists d | d in awaiting :: s.SettledPromise(d) {
      var d :| d in awaiting && s.SettledPromise(d);
      assert d in Elements(awaiting);
    }
  }
}

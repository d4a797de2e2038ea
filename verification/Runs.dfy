/**
 Whole runs of the server: any sequence of requests and clock ticks.
 */
module Runs {
  import opened Protocol
  import opened Requests
  import opened Invariant
  import opened Progress

  datatype Event = Asked(now: int, req: Request) | Clock(now: int)

  /** A request, or a tick of the scheduler, which clears the buffer first. */
  function Step(s: Server, e: Event): Server {
    match e
    case Asked(now, req) => Apply(s, now, req).0
    case Clock(now) => Tick(Cleared(s), now)
  }

  predicate Sensible(e: Event) { e.Asked? ==> WellFormed(e.req) }

  function Run(s: Server, es: seq<Event>): Server {
    if es == [] then s else Step(Run(s, es[..|es| - 1]), es[|es| - 1])
  }

  ghost predicate SensibleRun(es: seq<Event>) {
    forall i | 0 <= i < |es| :: Sensible(es[i])
  }

  lemma StepKeepsInv(s: Server, e: Event)
    requires Inv(s) && Sensible(e)
    ensures Inv(Step(s, e)) && Advances(s, Step(s, e))
  {
    match e
    case Asked(now, req) =>
      ApplyKeepsInv(s, now, req);
      ApplyAdvances(s, now, req);
    case Clock(now) =>
      ClearedKeepsInv(s);
      assert forall id :: AdvancesAt(s, Cleared(s), id);
      TickKeepsInv(Cleared(s), now);
      TickAdvances(Cleared(s), now);
      AdvancesTransitively(s, Cleared(s), Tick(Cleared(s), now));
  }

  lemma {:induction false} RunKeepsInv(s: Server, es: seq<Event>)
    requires Inv(s) && SensibleRun(es)
    ensures Inv(Run(s, es))
  {
    if es != [] {
      RunKeepsInv(s, es[..|es| - 1]);
      StepKeepsInv(Run(s, es[..|es| - 1]), es[|es| - 1]);
    }
  }

  lemma RunNext(s: Server, es: seq<Event>, k: nat)
    requires k < |es|
    ensures Run(s, es[..k + 1]) == Step(Run(s, es[..k]), es[k])
  {
    assert es[..k + 1][..k] == es[..k];
  }

  lemma StepAdvancesFurther(a: Server, m: Server, e: Event)
    requires Inv(m) && Sensible(e) && Advances(a, m)
    ensures Advances(a, Step(m, e))
  {
    StepKeepsInv(m, e);
    AdvancesTransitively(a, m, Step(m, e));
  }

  lemma {:induction false} RunAdvancesFrom(s: Server, es: seq<Event>, i: nat)
    requires Inv(s) && SensibleRun(es) && i <= |es|
    ensures Advances(Run(s, es[..i]), Run(s, es))
  {
    if i == |es| {
      assert es[..i] == es;
      AdvancesReflexively(Run(s, es));
    } else {
      var before := es[..|es| - 1];
      assert before[..i] == es[..i];
      RunAdvancesFrom(s, before, i);
      RunKeepsInv(s, before);
      StepAdvancesFurther(Run(s, es[..i]), Run(s, before), es[|es| - 1]);
    }
  }

  /** Everything later in a run is ahead of everything earlier. */
  lemma RunAdvances(s: Server, es: seq<Event>, i: nat, j: nat)
    requires Inv(s) && SensibleRun(es) && i <= j <= |es|
    ensures Advances(Run(s, es[..i]), Run(s, es[..j]))
  {
    assert es[..j][..i] == es[..i];
    RunAdvancesFrom(s, es[..j], i);
  }

  /** From the empty server, every state of every run satisfies the invariant. */
  lemma ReachableInv(es: seq<Event>, k: nat)
    requires SensibleRun(es) && k <= |es|
    ensures Inv(Run(EMPTY_SERVER, es[..k]))
  {
    InvInitially();
    RunKeepsInv(EMPTY_SERVER, es[..k]);
  }

  /** Settlement is final: the record a promise settled with is the record it
      has at every later point of the run. */
  lemma SettlementIsFinal(s: Server, es: seq<Event>, i: nat, j: nat, id: Id)
    requires Inv(s) && SensibleRun(es) && i <= j <= |es|
    requires Run(s, es[..i]).SettledPromise(id)
    ensures Run(s, es[..j]).SettledPromise(id)
    ensures Run(s, es[..j]).promises[id] == Run(s, es[..i]).promises[id]
  {
    RunAdvances(s, es, i, j);
    RunKeepsInv(s, es[..i]);
    RunKeepsInv(s, es[..j]);
    assert AdvancesAt(Run(s, es[..i]), Run(s, es[..j]), id);
    assert Ok(Run(s, es[..i]), id) && Ok(Run(s, es[..j]), id);
  }

  // ---------------------------------------------------------------------
  //  Leases
  // ---------------------------------------------------------------------

  datatype Grant = Grant(task: Id, version: int)

  /** The lease an event hands out, as the worker reads it off the reply. */
  function Granted(s: Server, e: Event): Option<Grant> {
    match e
    case Asked(now, req) =>
      (var reply := Apply(s, now, req).1;
       if reply.TaskReply? && reply.task.state.Acquired? then
         match req
         case TaskCreate(_, _, args) => Some(Grant(args.id, reply.task.version))
         case TaskAcquire(id, _, _) => Some(Grant(id, reply.task.version))
         case _ => None
       else None)
    case Clock(_) => None
  }

  /** The task is not yet, or no longer, open to being acquired under `version`. */
  predicate Past(t: Task, version: int) {
    t.state.Fulfilled? || t.version > version || (t.version == version && Stage(t) >= 1)
  }

  lemma PastStays(s: Server, s': Server, id: Id, version: int)
    requires Advances(s, s') && id in s.tasks && Past(s.tasks[id], version)
    ensures id in s'.tasks && Past(s'.tasks[id], version)
  {
    assert AdvancesAt(s, s', id);
  }

  lemma GrantMakesPast(s: Server, e: Event, g: Grant)
    requires Inv(s) && Sensible(e) && Granted(s, e) == Some(g)
    ensures !(g.task in s.tasks && Past(s.tasks[g.task], g.version))
    ensures HoldsLease(Step(s, e), g.task, g.version)
    ensures g.task in Step(s, e).tasks && Past(Step(s, e).tasks[g.task], g.version)
  {
    PreparedAdvances(s, e.now, e.req);
    assert AdvancesAt(s, Prepared(s, e.now, e.req), g.task);
  }

  /** In any run, at most one `task.create` or `task.acquire` is answered
      acquired for a given task and version. */
  lemma OneLeasePerVersion(s: Server, es: seq<Event>, i: nat, j: nat, g: Grant)
    requires Inv(s) && SensibleRun(es) && i < j < |es|
    requires Granted(Run(s, es[..i]), es[i]) == Some(g)
    ensures Granted(Run(s, es[..j]), es[j]) != Some(g)
  {
    RunKeepsInv(s, es[..i]);
    RunKeepsInv(s, es[..j]);
    RunAdvances(s, es, i + 1, j);
    GrantMakesPast(Run(s, es[..i]), es[i], g);
    RunNext(s, es, i);
    PastStays(Run(s, es[..i + 1]), Run(s, es[..j]), g.task, g.version);
    if Granted(Run(s, es[..j]), es[j]) == Some(g) {
      GrantMakesPast(Run(s, es[..j]), es[j], g);
    }
  }

  /** The task has left the lease it held under `version`. */
  predicate Left(t: Task, version: int) {
    t.state.Fulfilled? || t.version > version || (t.version == version && Stage(t) >= 2)
  }

  /** A worker whose lease is gone cannot write through the fence: at every
      later point its `task.fence` is refused, and the server does no more than
      expire what was overdue. */
  lemma StaleFenceRefused(s: Server, es: seq<Event>, i: nat, j: nat, now: int, id: Id, version: int, action: FenceAction)
    requires Inv(s) && SensibleRun(es) && i <= j <= |es| && id != ""
    requires id in Run(s, es[..i]).tasks && Left(Run(s, es[..i]).tasks[id], version)
    ensures Apply(Run(s, es[..j]), now, TaskFence(id, version, action))
         == (Prepared(Run(s, es[..j]), now, TaskFence(id, version, action)), Conflict)
  {
    RunAdvances(s, es, i, j);
    RunKeepsInv(s, es[..j]);
    var late := Run(s, es[..j]);
    assert AdvancesAt(Run(s, es[..i]), late, id);
    PreparedAdvances(late, now, TaskFence(id, version, action));
    assert AdvancesAt(late, Prepared(late, now, TaskFence(id, version, action)), id);
  }

  /** A lease that is acquired under `version` and later is not has been left. */
  lemma LeaseLeft(s: Server, es: seq<Event>, i: nat, j: nat, id: Id, version: int)
    requires Inv(s) && SensibleRun(es) && i <= j <= |es|
    requires HoldsLease(Run(s, es[..i]), id, version) && !HoldsLease(Run(s, es[..j]), id, version)
    ensures id in Run(s, es[..j]).tasks && Left(Run(s, es[..j]).tasks[id], version)
  {
    RunAdvances(s, es, i, j);
    RunKeepsInv(s, es[..j]);
    assert AdvancesAt(Run(s, es[..i]), Run(s, es[..j]), id);
    assert Ok(Run(s, es[..j]), id);
  }
}

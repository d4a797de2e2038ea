/**
 The worker's main loop (resonate/src/core.rs) against the server: execute,
 then fulfil, suspend or release, and start over when redirected.

 Anything may reach the server before each closing request of the worker:
 everybody else's requests, the clock's ticks, and the creates and settles of the
 pass itself.  Requests may be lost on the way, and so may their answers.
 */
module Core {
  import opened Protocol
  import opened Settlement
  import opened Requests
  import opened Invariant
  import opened Progress
  import opened Runs
  import opened Redirects
  import Cache
  import Contexts
  import Ids
  import opened Observable
  import Workflows

  /** One pass over the user function: it panicked, or left a tree of operations
      and a result.  `log` is how its promise cache came about, on a fresh cache
      and from the events of its interval. */
  datatype Attempt = Panicked | Ran(tree: Contexts.Tree, result: Workflows.Result, log: seq<Cache.Item>)

  /** A request is answered, or arrives but its answer is lost, or is lost itself. */
  datatype Delivery = Served | AnswerLost | Undelivered

  /** What reaches the server between two closing requests of the worker, when the
      second one comes in, and whether it does. */
  datatype Interval = Interval(events: seq<Event>, now: int, delivery: Delivery)

  datatype Status = Dropped | Completed | Parked | Errored

  /** The id of the operation at `path` below `root`. */
  function NameOf(root: Id, path: Contexts.Path): Id {
    if path == [] then root
    else Ids.JoinId(NameOf(root, path[..|path| - 1]), Ids.Decimal(path[|path| - 1]))
  }

  function NamesOf(root: Id, paths: seq<Contexts.Path>): seq<Id> {
    if paths == [] then []
    else NamesOf(root, paths[..|paths| - 1]) + [NameOf(root, paths[|paths| - 1])]
  }

  function Decimals(path: Contexts.Path): seq<string> {
    seq(|path|, i requires 0 <= i < |path| => Ids.Decimal(path[i]))
  }

  lemma DecimalsSnoc(above: seq<string>, path: Contexts.Path)
    requires path != []
    ensures var n := |path| - 1;
            above + Decimals(path) == above + Decimals(path[..n]) + [Ids.Decimal(path[n])]
  {
    var n := |path| - 1;
    assert Decimals(path) == Decimals(path[..n]) + [Ids.Decimal(path[n])];
  }

  lemma {:induction false} NameIsLineage(l: Ids.Lineage, path: Contexts.Path)
    ensures NameOf(Ids.Encode(l), path) == Ids.Encode(Ids.Lineage(l.root, l.path + Decimals(path)))
  {
    if path == [] {
      assert l.path + Decimals(path) == l.path;
    } else {
      var before, last := path[..|path| - 1], path[|path| - 1];
      NameIsLineage(l, before);
      Ids.EncodeSnoc(l.root, l.path + Decimals(before), Ids.Decimal(last));
      DecimalsSnoc(l.path, path);
    }
  }

  /** Paths are as good as ids: below a context minted under a valid root, two
      operations with the same id are at the same path. */
  lemma NamesAreDistinct(l: Ids.Lineage, p: Contexts.Path, q: Contexts.Path)
    requires Ids.WellFormed(l) && NameOf(Ids.Encode(l), p) == NameOf(Ids.Encode(l), q)
    ensures p == q
  {
    NameIsLineage(l, p);
    NameIsLineage(l, q);
    DecimalsAreSegments(l, p);
    DecimalsAreSegments(l, q);
    Ids.EncodeInjective(Ids.Lineage(l.root, l.path + Decimals(p)), Ids.Lineage(l.root, l.path + Decimals(q)));
    assert Decimals(p) == (l.path + Decimals(p))[|l.path|..] == Decimals(q);
    forall i | 0 <= i < |p| && i < |q| ensures p[i] == q[i]
    {
      assert Decimals(p)[i] == Decimals(q)[i];
      Ids.DecimalReadsBack(p[i]);
      Ids.DecimalReadsBack(q[i]);
    }
    assert |p| == |Decimals(p)| == |Decimals(q)| == |q|;
  }

  lemma DecimalsAreSegments(l: Ids.Lineage, path: Contexts.Path)
    requires Ids.WellFormed(l)
    ensures Ids.WellFormed(Ids.Lineage(l.root, l.path + Decimals(path)))
  {
    forall s | s in Decimals(path) ensures Ids.Segment(s)
    {
      var i :| 0 <= i < |path| && Ids.Decimal(path[i]) == s;
      Ids.DecimalIsSegment(path[i]);
    }
  }

  function StateFor(r: Workflows.Result): PromiseState { if r.Ok? then Resolved else Rejected }

  /** A value as it is; an error by its text. */
  function ValueFor(r: Workflows.Result): Json {
    if r.Ok? then r.value else Text(Workflows.ErrorText(r.error))
  }

  /** The settle state a settled promise is fulfilled with; whatever it is, the server
      refuses that request (`FulfilSettledIsRefused`). */
  function SettleStateOf(state: PromiseState): PromiseState
    requires !state.Pending?
  {
    if state.Resolved? then Resolved else Rejected
  }

  predicate IsTimer(promise: Record) {
    TAG_TIMER in promise.tags && promise.tags[TAG_TIMER] == "true"
  }

  /** The promise holds the outcome `state` and `value`, and the task is over. */
  predicate Holds(s: Server, id: Id, state: PromiseState, value: Json) {
    && s.TaskIs(id, Fulfilled)
    && s.SettledPromise(id)
    && s.promises[id].record.state == state
    && s.promises[id].record.value == value
  }

  /** The task is over, and whoever awaits its promise reads `result` in it. */
  predicate Reported(s: Server, id: Id, result: Workflows.Result) {
    && s.TaskIs(id, Fulfilled)
    && id in s.promises
    && Workflows.Reports(s.promises[id].record, result)
    && Workflows.AsResult(s.promises[id].record) == Some(Workflows.Stored(result))
  }

  // ---------------------------------------------------------------------
  //  What the three closing requests leave behind
  // ---------------------------------------------------------------------

  lemma FulfilAcquired(s: Server, now: int, id: Id, state: PromiseState, value: Json)
    requires Inv(s) && id != "" && !state.Pending? && s.TaskIs(id, Acquired)
    ensures Holds(FulfillTask(s, now, id, Some(id), state, value).0, id, state, value)
  {
    var o := map[id := Outcome(state, value, now)];
    assert Ok(s, id);
    FulfillOwnIsSettle(s, now, id, Some(id), state, value);
    SettledPromiseIs(s, o, now, id);
    SettledTaskIs(s, o, now, id);
  }

  lemma FulfilRefused(s: Server, now: int, id: Id, state: PromiseState, value: Json)
    requires !s.TaskIs(id, Acquired)
    ensures FulfillTask(s, now, id, Some(id), state, value).0 == s
    ensures !FulfillTask(s, now, id, Some(id), state, value).1.PromiseReply?
  {
  }

  lemma FulfilLeaves(s: Server, now: int, id: Id, state: PromiseState, value: Json)
    requires Inv(s) && id != "" && !state.Pending?
    ensures var (s', reply) := Apply(s, now, TaskFulfill(id, Some(id), state, value));
            && !s'.TaskIs(id, Acquired)
            && (reply.PromiseReply? ==> Holds(s', id, state, value))
  {
    var req := TaskFulfill(id, Some(id), state, value);
    var p := Prepared(s, now, req);
    PreparedAdvances(s, now, req);
    if p.TaskIs(id, Acquired) {
      FulfilAcquired(p, now, id, state, value);
    } else {
      FulfilRefused(p, now, id, state, value);
    }
  }

  lemma HoldsIsReported(s: Server, id: Id, result: Workflows.Result)
    requires Holds(s, id, StateFor(result), ValueFor(result))
    ensures Reported(s, id, result)
  {
    Workflows.ReportReadsBack(s.promises[id].record, result);
  }

  /** Why a lost lease can reject the workflow.  When somebody else holds the task, a
      fence under the old version is refused; a pass whose only operation was refused
      so, its user code handing the refusal on, is one the worker fulfils; and that
      fulfil is accepted.  `s` is the server the requests are handled in. */
  lemma RefusedFenceRejects(s: Server, now: int, id: Id, version: int, action: FenceAction)
    requires Inv(s) && id != "" && s.TaskIs(id, Acquired) && s.tasks[id].version != version
    ensures FenceTask(s, now, id, version, action) == (s, Conflict)
    ensures Contexts.Decide(Contexts.Tree([Contexts.Op(Contexts.Awaited, Contexts.NotCreated)], false)) == Contexts.Fulfil
    ensures var r := Workflows.Err(Workflows.REFUSED);
            Reported(FulfillTask(s, now, id, Some(id), StateFor(r), ValueFor(r)).0, id, r)
  {
    var op := Contexts.Op(Contexts.Awaited, Contexts.NotCreated);
    var t := Contexts.Tree([op], false);
    assert t.ops[..0] == [] && !Contexts.LostAt(op) && !Contexts.AnyLost(t.ops);
    assert Contexts.Kept(t.ops, []) == [];
    Contexts.DecisionIsExact(t);
    var r := Workflows.Err(Workflows.REFUSED);
    FulfilAcquired(s, now, id, Rejected, ValueFor(r));
    HoldsIsReported(FulfillTask(s, now, id, Some(id), StateFor(r), ValueFor(r)).0, id, r);
  }

  /** Suspended, and on the list of every promise named, all of them pending. */
  ghost predicate WaitsFor(s: Server, id: Id, awaiting: seq<Id>) {
    s.TaskIs(id, Suspended) && forall d | d in awaiting :: s.PendingPromise(d) && s.Awaits(id, d)
  }

  lemma SuspendLeaves(s: Server, now: int, id: Id, awaiting: seq<Id>)
    requires Inv(s) && id != "" && forall d | d in awaiting :: d in s.promises
    ensures var (s', reply) := Apply(s, now, TaskSuspend(id, awaiting));
            && (reply.Redirect? || !s'.TaskIs(id, Acquired))
            && (reply.Done? ==> WaitsFor(s', id, awaiting))
  {
    var req := TaskSuspend(id, awaiting);
    var p := Prepared(s, now, req);
    PreparedAdvances(s, now, req);
    var s' := SuspendTask(p, id, awaiting).0;
    if SuspendTask(p, id, awaiting).1.Done? {
      forall d | d in awaiting ensures s'.PendingPromise(d) && s'.Awaits(id, d)
      {
        assert AdvancesAt(s, p, d);
        assert d in Elements(awaiting) && !p.SettledPromise(d);
      }
    }
  }

  lemma ReleaseLeaves(s: Server, now: int, id: Id)
    requires Inv(s) && id != ""
    ensures !Apply(s, now, TaskRelease(id)).0.TaskIs(id, Acquired)
  {
    var p := Prepared(s, now, TaskRelease(id));
    if p.TaskIs(id, Acquired) {
      assert id in Standing(p, map[id := p.tasks[id].version]);
    }
  }

  /** A fulfil that only repeats what the server already knows is refused: the
      server ended the task when the promise settled. */
  lemma FulfilSettledIsRefused(s: Server, now: int, id: Id, state: PromiseState, value: Json)
    requires Inv(s) && id != "" && s.SettledPromise(id)
    ensures !Apply(s, now, TaskFulfill(id, Some(id), state, value)).1.PromiseReply?
  {
    var p := Prepared(s, now, TaskFulfill(id, Some(id), state, value));
    PreparedAdvances(s, now, TaskFulfill(id, Some(id), state, value));
    assert AdvancesAt(s, p, id) && Ok(p, id);
  }

  lemma StillSettled(s: Server, es: seq<Event>, id: Id)
    requires Inv(s) && SensibleRun(es) && s.SettledPromise(id)
    ensures Run(s, es).SettledPromise(id)
  {
    RunAdvancesFrom(s, es, 0);
    assert es[..0] == [] && AdvancesAt(s, Run(s, es), id);
  }

  // ---------------------------------------------------------------------
  //  What a pass suspends on
  // ---------------------------------------------------------------------

  /** The promises a pass would suspend on. */
  function Awaited(id: Id, pass: Attempt): seq<Id> {
    if pass.Ran? && Contexts.Decide(pass.tree).Suspend? then NamesOf(id, Contexts.Decide(pass.tree).awaited) else []
  }

  lemma {:induction false} NamesOfHolds(root: Id, paths: seq<Contexts.Path>, d: Id)
    ensures d in NamesOf(root, paths) <==> exists p | p in paths :: NameOf(root, p) == d
  {
    if paths != [] {
      var before, last := paths[..|paths| - 1], paths[|paths| - 1];
      NamesOfHolds(root, before, d);
      assert paths == before + [last];
      if p :| p in paths && NameOf(root, p) == d {
        assert p in before || p == last;
      }
    }
  }

  /** Suspended, and on the list of the promise of every call left pending, all of
      them pending. */
  ghost predicate WaitsForCalls(s: Server, id: Id, calls: seq<Contexts.Path>) {
    && s.TaskIs(id, Suspended)
    && forall p | p in calls :: s.PendingPromise(NameOf(id, p)) && s.Awaits(id, NameOf(id, p))
  }

  lemma WaitsForTheCalls(s: Server, id: Id, calls: seq<Contexts.Path>)
    requires WaitsFor(s, id, NamesOf(id, calls))
    ensures WaitsForCalls(s, id, calls)
  {
    forall p | p in calls ensures s.PendingPromise(NameOf(id, p)) && s.Awaits(id, NameOf(id, p))
    {
      NamesOfHolds(id, calls, NameOf(id, p));
    }
  }

  /** At some moment of the pass its cache held a pending record of `d`. */
  ghost predicate Saw(s: Server, es: seq<Event>, log: seq<Cache.Item>, d: Id) {
    exists n | 0 <= n <= |log| ::
      d in Cache.CacheAfter(s, es, log[..n]) && !Cache.CacheAfter(s, es, log[..n])[d].Settled()
  }

  /** The pass is of this server: its cache was fed by snapshots taken since the
      pass began, and what it found waiting it found pending there. */
  ghost predicate OfThisServer(s: Server, es: seq<Event>, id: Id, pass: Attempt) {
    pass.Ran? ==> Cache.Causal(es, pass.log) && forall d | d in Awaited(id, pass) :: Saw(s, es, pass.log, d)
  }

  /** So everything it suspends on exists, and had not settled when it began. */
  lemma AwaitedWasUnsettled(s: Server, es: seq<Event>, id: Id, pass: Attempt, d: Id)
    requires Inv(s) && SensibleRun(es) && OfThisServer(s, es, id, pass) && d in Awaited(id, pass)
    ensures d !in SettledIds(s) && d in Run(s, es).promises
  {
    var n :| 0 <= n <= |pass.log|
      && d in Cache.CacheAfter(s, es, pass.log[..n]) && !Cache.CacheAfter(s, es, pass.log[..n])[d].Settled();
    var j := Cache.CachedAsOf(s, es, pass.log[..n], d);
    RunAdvances(s, es, 0, j);
    RunAdvances(s, es, j, |es|);
    assert es[..0] == [] && es[..|es|] == es;
    assert AdvancesAt(s, Run(s, es[..j]), d) && AdvancesAt(Run(s, es[..j]), Run(s, es), d);
  }

  // ---------------------------------------------------------------------
  //  The passes
  // ---------------------------------------------------------------------

  /** The server when the `k`-th pass begins, if each one before was redirected. */
  function PassServer(s: Server, id: Id, env: nat -> Interval, passes: nat -> Attempt, k: nat): Server {
    if k == 0 then s
    else
      Apply(Run(PassServer(s, id, env, passes, k - 1), env(k - 1).events), env(k - 1).now,
            TaskSuspend(id, Awaited(id, passes(k - 1)))).0
  }

  /** The `k`-th pass ends in a redirect the worker learns of. */
  predicate RedirectedIn(s: Server, id: Id, env: nat -> Interval, passes: nat -> Attempt, k: nat) {
    && passes(k).Ran? && Contexts.Decide(passes(k).tree).Suspend? && env(k).delivery.Served?
    && Apply(Run(PassServer(s, id, env, passes, k), env(k).events), env(k).now,
             TaskSuspend(id, Awaited(id, passes(k)))).1.Redirect?
  }

  /** The `k`-th pass takes place. */
  ghost predicate Reaches(s: Server, id: Id, env: nat -> Interval, passes: nat -> Attempt, k: nat) {
    forall i | 0 <= i < k :: RedirectedIn(s, id, env, passes, i)
  }

  /** Each pass that takes place is of this server, and no more than `limit`
      promises have ever settled when it begins. */
  ghost predicate Orderly(s: Server, id: Id, env: nat -> Interval, passes: nat -> Attempt, limit: nat) {
    forall k: nat | Reaches(s, id, env, passes, k) ::
      && OfThisServer(PassServer(s, id, env, passes, k), env(k).events, id, passes(k))
      && |SettledIds(PassServer(s, id, env, passes, k))| <= limit
  }

  /** The task has just been acquired: nothing has resumed it since. */
  predicate JustAcquired(s: Server, id: Id) {
    id in s.tasks ==> s.tasks[id].resumes == {}
  }

  /** A redirected pass is paid for by a promise that settled during it. */
  lemma PassIsPaidFor(s: Server, es: seq<Event>, now: int, id: Id, pass: Attempt)
    requires Inv(s) && SensibleRun(es) && OfThisServer(s, es, id, pass) && JustAcquired(s, id)
    requires Apply(Run(s, es), now, TaskSuspend(id, Awaited(id, pass))).1.Redirect?
    ensures var s' := Apply(Run(s, es), now, TaskSuspend(id, Awaited(id, pass))).0;
            SettledIds(s) < SettledIds(s') && JustAcquired(s', id)
  {
    var req := TaskSuspend(id, Awaited(id, pass));
    RunSince(SettledIds(s), s, es, id);
    forall d | d in req.awaiting ensures d !in SettledIds(s)
    {
      AwaitedWasUnsettled(s, es, id, pass, d);
    }
    RedirectIsPaidFor(SettledIds(s), Run(s, es), Asked(now, req), id);
  }

  lemma NextPass(s: Server, id: Id, env: nat -> Interval, passes: nat -> Attempt, k: nat, s': Server)
    requires Reaches(s, id, env, passes, k)
    requires passes(k).Ran? && Contexts.Decide(passes(k).tree).Suspend? && env(k).delivery.Served?
    requires (s', Redirect(Preload(s', id)))
          == Apply(Run(PassServer(s, id, env, passes, k), env(k).events), env(k).now, TaskSuspend(id, Awaited(id, passes(k))))
    ensures Reaches(s, id, env, passes, k + 1) && s' == PassServer(s, id, env, passes, k + 1)
  {
    assert RedirectedIn(s, id, env, passes, k);
  }

  /** The pass left nothing to wait for, and its fulfil is granted and answered. */
  predicate Fulfils(s: Server, interval: Interval, id: Id, pass: Attempt) {
    && pass.Ran? && Contexts.Decide(pass.tree).Fulfil? && interval.delivery.Served?
    && Grants(Run(s, interval.events), interval.now, id)
  }

  /** The pass left something to wait for, nothing of which has happened, and its
      suspend is granted and answered. */
  predicate Parks(s: Server, interval: Interval, id: Id, pass: Attempt) {
    && pass.Ran? && Contexts.Decide(pass.tree).Suspend? && interval.delivery.Served?
    && Grants(Run(s, interval.events), interval.now, id)
    && !Stirred(Run(s, interval.events), interval.now, id, Awaited(id, pass))
  }

  // ---------------------------------------------------------------------
  //  The worker
  // ---------------------------------------------------------------------

  class Worker {
    var server: Server
    var beating: bool

    ghost predicate Ready(env: nat -> Interval)
      reads this
    {
      Inv(server) && forall k :: SensibleRun(env(k).events)
    }

    constructor (server: Server)
      ensures this.server == server && !beating
    {
      this.server, beating := server, false;
    }

    /** Things happen, then the request comes in, if it does. */
    method Send(interval: Interval, req: Request) returns (reply: Option<Reply>)
      requires Inv(server) && SensibleRun(interval.events) && WellFormed(req)
      modifies this`server
      ensures Inv(server) && Inv(Run(old(server), interval.events))
      ensures server == if interval.delivery.Undelivered? then Run(old(server), interval.events)
                        else Apply(Run(old(server), interval.events), interval.now, req).0
      ensures reply == if interval.delivery.Served? then Some(Apply(Run(old(server), interval.events), interval.now, req).1)
                       else None
    {
      RunKeepsInv(server, interval.events);
      server := Run(server, interval.events);
      reply := None;
      if !interval.delivery.Undelivered? {
        ApplyKeepsInv(server, interval.now, req);
        var (s, r) := Apply(server, interval.now, req);
        server := s;
        if interval.delivery.Served? { reply := Some(r); }
      }
    }

    method Fulfil(interval: Interval, id: Id, state: PromiseState, value: Json) returns (status: Status)
      requires Inv(server) && SensibleRun(interval.events) && id != "" && !state.Pending?
      modifies this`server
      ensures Inv(server) && (status == Completed || status == Errored)
      ensures status == Completed <==> interval.delivery.Served? && Grants(Run(old(server), interval.events), interval.now, id)
      ensures status == Completed ==> Holds(server, id, state, value)
      ensures old(server).SettledPromise(id) ==> status == Errored
    {
      ghost var before := Run(server, interval.events);
      if server.SettledPromise(id) { StillSettled(server, interval.events, id); }
      var reply := Send(interval, TaskFulfill(id, Some(id), state, value));
      FulfilLeaves(before, interval.now, id, state, value);
      FulfilGrantedExactly(before, interval.now, id, state, value);
      if before.SettledPromise(id) { FulfilSettledIsRefused(before, interval.now, id, state, value); }
      status := if reply.Some? && reply.value.PromiseReply? then Completed else Errored;
    }

    /** One round of the loop; no status when the pass was redirected. */
    method Pass(interval: Interval, id: Id, pass: Attempt) returns (status: Option<Status>)
      requires Inv(server) && SensibleRun(interval.events) && id != "" && OfThisServer(server, interval.events, id, pass)
      modifies this`server
      ensures Inv(server) && status != Some(Dropped)
      ensures status == Some(Completed) <==> Fulfils(old(server), interval, id, pass)
      ensures status == Some(Completed) ==> Reported(server, id, pass.result)
      ensures status == Some(Parked) <==> Parks(old(server), interval, id, pass)
      ensures status == Some(Parked) ==> WaitsForCalls(server, id, Contexts.Decide(pass.tree).awaited)
      ensures status.None? ==>
                && pass.Ran? && Contexts.Decide(pass.tree).Suspend? && interval.delivery.Served?
                && (server, Redirect(Preload(server, id)))
                   == Apply(Run(old(server), interval.events), interval.now, TaskSuspend(id, Awaited(id, pass)))
    {
      if pass.Panicked? { return Some(Errored); }
      match Contexts.Decide(pass.tree) {
        case Release =>
          return Some(Errored);
        case Fulfil =>
          var s := Fulfil(interval, id, StateFor(pass.result), ValueFor(pass.result));
          if s == Completed { HoldsIsReported(server, id, pass.result); }
          return Some(s);
        case Suspend(awaited) =>
          SuspendEnds(server, interval, id, pass);
          SuspendGrantedExactly(Run(server, interval.events), interval.now, id, Awaited(id, pass));
          var reply := Send(interval, TaskSuspend(id, NamesOf(id, awaited)));
          if reply.Some? && reply.value.Redirect? {
            RedirectShows(Run(old(server), interval.events), interval.now, id, NamesOf(id, awaited));
            return None;
          }
          if reply.Some? && reply.value.Done? {
            WaitsForTheCalls(server, id, awaited);
            return Some(Parked);
          }
          return Some(Errored);
      }
    }

    /** The loop of `execute_until_blocked_inner`.  `last` is the pass that decided,
        and so the number of redirects; each is paid for by a promise that settled. */
    method Loop(env: nat -> Interval, id: Id, passes: nat -> Attempt, ghost limit: nat) returns (status: Status, last: nat)
      requires Ready(env) && id != "" && JustAcquired(server, id) && Orderly(server, id, env, passes, limit)
      modifies this`server
      ensures Ready(env) && status != Dropped
      ensures status == Completed <==> Fulfils(PassServer(old(server), id, env, passes, last), env(last), id, passes(last))
      ensures status == Completed ==> Reported(server, id, passes(last).result)
      ensures status == Parked <==> Parks(PassServer(old(server), id, env, passes, last), env(last), id, passes(last))
      ensures status == Parked ==> WaitsForCalls(server, id, Contexts.Decide(passes(last).tree).awaited)
      ensures Reaches(old(server), id, env, passes, last)
      ensures |SettledIds(old(server))| + last <= |SettledIds(PassServer(old(server), id, env, passes, last))| <= limit
    {
      last := 0;
      ghost var entry := server;
      while true
        invariant Ready(env) && Reaches(entry, id, env, passes, last)
        invariant server == PassServer(entry, id, env, passes, last) && JustAcquired(server, id)
        invariant |SettledIds(entry)| + last <= |SettledIds(server)| <= limit
        decreases limit - |SettledIds(server)|
      {
        ghost var start := server;
        var ended := Pass(env(last), id, passes(last));
        if ended.Some? { return ended.value, last; }
        PassIsPaidFor(start, env(last).events, env(last).now, id, passes(last));
        SmallerSet(SettledIds(start), SettledIds(server));
        NextPass(entry, id, env, passes, last, server);
        last := last + 1;
      }
    }

    /** `execute_until_blocked_inner`. */
    method Execute(env: nat -> Interval, id: Id, promise: Record, known: bool, passes: nat -> Attempt, ghost limit: nat)
      returns (status: Status, last: nat)
      requires Ready(env) && id != "" && Cache.Behind(promise, server, id)
      requires JustAcquired(server, id) && Orderly(server, id, env, passes, limit)
      modifies this`server
      ensures Ready(env) && status != Dropped
      ensures promise.Settled() ==> status == Errored
      ensures status == Completed <==> known && !promise.Settled() && Fulfils(PassServer(old(server), id, env, passes, last), env(last), id, passes(last))
      ensures status == Completed ==> Reported(server, id, passes(last).result)
      ensures status == Parked <==> known && !promise.Settled() && Parks(PassServer(old(server), id, env, passes, last), env(last), id, passes(last))
      ensures status == Parked ==> WaitsForCalls(server, id, Contexts.Decide(passes(last).tree).awaited)
      ensures Reaches(old(server), id, env, passes, last)
      ensures |SettledIds(old(server))| + last <= |SettledIds(PassServer(old(server), id, env, passes, last))| <= limit
    {
      last := 0;
      assert Reaches(server, id, env, passes, 0);
      if IsTimer(promise) && promise.Settled() {
        status := Fulfil(env(0), id, SettleStateOf(promise.state), Null);
      } else if !known {
        status := Errored;
      } else if promise.Settled() {
        status := Fulfil(env(0), id, SettleStateOf(promise.state), Null);
      } else {
        status, last := Loop(env, id, passes, limit);
      }
    }

    /** `execute_until_blocked`.  When it has completed or parked, nobody holds the
        task: it is over and holds the result of the last pass, or it waits for
        just what that pass left pending.  When it has failed the task is released,
        if the release arrives.  Only a timer that is not due is dropped without a
        word. */
    method ExecuteUntilBlocked(env: nat -> Interval, closing: Interval, id: Id, promise: Record, known: bool,
                               passes: nat -> Attempt, ghost limit: nat)
      returns (status: Status, last: nat)
      requires Ready(env) && SensibleRun(closing.events) && id != "" && Cache.Behind(promise, server, id)
      requires JustAcquired(server, id) && Orderly(server, id, env, passes, limit)
      modifies this
      ensures Ready(env)
      ensures status == Dropped <==>
                TAG_TIMER in promise.tags && promise.tags[TAG_TIMER] == "true" && promise.state.Pending?
      ensures status == Dropped ==> server == old(server) && beating == old(beating)
      ensures status != Dropped ==> !beating
      ensures status == Completed || status == Parked ==> !server.TaskIs(id, Acquired)
      ensures status == Errored && !closing.delivery.Undelivered? ==> !server.TaskIs(id, Acquired)
      ensures promise.Settled() ==> status == Errored
      ensures status == Completed <==> known && !promise.Settled() && status != Dropped && Fulfils(PassServer(old(server), id, env, passes, last), env(last), id, passes(last))
      ensures status == Completed ==> Reported(server, id, passes(last).result)
      ensures status == Parked <==> known && !promise.Settled() && status != Dropped && Parks(PassServer(old(server), id, env, passes, last), env(last), id, passes(last))
      ensures status == Parked ==> WaitsForCalls(server, id, Contexts.Decide(passes(last).tree).awaited)
    {
      if IsTimer(promise) && !promise.Settled() {
        return Dropped, 0;
      }
      beating := true;
      status, last := Execute(env, id, promise, known, passes, limit);
      beating := false;
      if status == Errored {
        ghost var before := Run(server, closing.events);
        var _ := Send(closing, TaskRelease(id));
        ReleaseLeaves(before, closing.now, id);
      }
    }
  }

  lemma SuspendEnds(s: Server, interval: Interval, id: Id, pass: Attempt)
    requires Inv(s) && SensibleRun(interval.events) && id != "" && OfThisServer(s, interval.events, id, pass)
    ensures Inv(Run(s, interval.events))
    ensures var (s', reply) := Apply(Run(s, interval.events), interval.now, TaskSuspend(id, Awaited(id, pass)));
            && (reply.Redirect? || !s'.TaskIs(id, Acquired))
            && (reply.Done? ==> WaitsFor(s', id, Awaited(id, pass)))
  {
    RunKeepsInv(s, interval.events);
    forall d | d in Awaited(id, pass) ensures d in Run(s, interval.events).promises
    {
      AwaitedWasUnsettled(s, interval.events, id, pass, d);
    }
    SuspendLeaves(Run(s, interval.events), interval.now, id, Awaited(id, pass));
  }
}

/**
 The global invariant of the server and its preservation by every request and
 every tick.

 Each operation breaks it part of the way through: a promise is settled before
 its task is fulfilled, a task is fulfilled before its awaiters are told.  It
 holds again whenever an operation returns.
 */
module Invariant {
  import opened Protocol
  import opened Settlement
  import opened Requests

  /** A promise timer exactly when the promise is pending and has a target,
      set to its deadline. */
  predicate PromiseTimerExact(s: Server, id: Id) {
    && (id in s.pTimers <==> s.PendingPromise(id) && s.promises[id].record.Targeted())
    && (id in s.pTimers ==> s.pTimers[id] == s.promises[id].record.timeoutAt)
  }

  /** A retry timer exactly when the task is pending, a lease timer exactly
      when it is acquired. */
  predicate TaskTimerExact(s: Server, id: Id) {
    && (id in s.tTimers <==> s.TaskIs(id, TaskState.Pending) || s.TaskIs(id, Acquired))
    && (id in s.tTimers ==> s.tTimers[id].kind == if s.tasks[id].state.Pending? then Retry else Lease)
  }

  /** A task has its promise, a targeted promise its task, and the task is over
      exactly when the promise is. */
  predicate TaskMatches(s: Server, id: Id) {
    && (id in s.tasks ==> id in s.promises)
    && (id in s.tasks ==> (s.tasks[id].state.Fulfilled? <==> s.promises[id].record.Settled()))
    && (id in s.promises && s.promises[id].record.Targeted() ==> id in s.tasks)
  }

  predicate TaskShape(t: Task) {
    && !t.state.Halted?
    && (t.state.Acquired? <==> t.pid.Some?)
    && (t.state.Acquired? <==> t.ttl.Some?)
    && (t.state.Suspended? || t.state.Fulfilled? ==> t.resumes == {})
    && 0 <= t.version
  }

  /** A settled promise has nobody left to tell; a pending one has no outcome. */
  predicate PromiseShape(p: Promise) {
    if p.record.Settled() then p.awaiters == {} && p.subscribers == {} && p.record.settledAt.Some?
    else p.record.settledAt.None? && p.record.value == Null
  }

  predicate Live(s: Server, t: Id) { t in s.tasks && !s.tasks[t].state.Fulfilled? }

  /** Only live tasks await, and resumes name settled promises. */
  predicate LinksLive(s: Server, id: Id) {
    && (id in s.promises ==> forall t | t in s.promises[id].awaiters :: Live(s, t))
    && (id in s.tasks ==> forall r | r in s.tasks[id].resumes :: s.SettledPromise(r))
  }

  predicate Ok(s: Server, id: Id) {
    && PromiseTimerExact(s, id)
    && TaskTimerExact(s, id)
    && TaskMatches(s, id)
    && (id in s.tasks ==> TaskShape(s.tasks[id]))
    && (id in s.promises ==> PromiseShape(s.promises[id]))
    && LinksLive(s, id)
  }

  ghost predicate Inv(s: Server) {
    forall id :: Ok(s, id)
  }

  lemma InvInitially()
    ensures Inv(EMPTY_SERVER)
  {
  }

  // ---------------------------------------------------------------------
  //  Settling a batch
  // ---------------------------------------------------------------------

  /** A batch is proper when every id in it is pending and every outcome is final. */
  ghost predicate Proper(s: Server, outcomes: map<Id, Outcome>) {
    forall id | id in outcomes :: s.PendingPromise(id) && !outcomes[id].state.Pending?
  }

  /** What a proper batch does to one promise. */
  lemma SettledPromiseIs(s: Server, outcomes: map<Id, Outcome>, now: int, p: Id)
    requires p in s.promises
    ensures p in Settle(s, outcomes, now).promises
    ensures var q := Settle(s, outcomes, now).promises[p];
            if p in outcomes then q == Promise(Marked(s.promises[p].record, outcomes[p]), {}, {})
            else q == s.promises[p].(awaiters := s.promises[p].awaiters - Ending(s, outcomes.Keys))
  {
    var m := Mark(s, outcomes);
    assert Ending(m, outcomes.Keys) == Ending(s, outcomes.Keys);
  }

  /** What a proper batch does to one task: ended if it owns one of the
      promises, otherwise resumed by those of them it awaits. */
  lemma SettledTaskIs(s: Server, outcomes: map<Id, Outcome>, now: int, t: Id)
    requires t in s.tasks
    ensures t in Settle(s, outcomes, now).tasks
    ensures Settle(s, outcomes, now).tasks[t] ==
            if t in outcomes then Ended(s.tasks[t]) else Resumed(s.tasks[t], WokenBy(s, outcomes.Keys, t))
  {
    var m := Mark(s, outcomes);
    var f := Fulfill(m, outcomes.Keys);
    assert Ending(m, outcomes.Keys) == Ending(s, outcomes.Keys);
    if t !in outcomes {
      assert f.tasks[t] == s.tasks[t];
      assert WokenBy(f, outcomes.Keys, t) == WokenBy(s, outcomes.Keys, t) by {
        assert t !in Ending(m, outcomes.Keys);
      }
    } else {
      assert f.tasks[t] == Ended(s.tasks[t]);
    }
  }

  /** The tasks a batch wakes: suspended, not owners of a promise of the batch,
      and awaiting at least one of them. */
  predicate Wakes(s: Server, ids: set<Id>, t: Id) {
    s.TaskIs(t, Suspended) && t !in ids && WokenBy(s, ids, t) != {}
  }

  function TaskAfter(s: Server, ids: set<Id>, t: Id): Task
    requires t in s.tasks
  {
    if t in ids then Ended(s.tasks[t]) else Resumed(s.tasks[t], WokenBy(s, ids, t))
  }

  function PromiseAfter(s: Server, outcomes: map<Id, Outcome>, p: Id): Promise
    requires p in s.promises
  {
    if p in outcomes then Promise(Marked(s.promises[p].record, outcomes[p]), {}, {})
    else s.promises[p].(awaiters := s.promises[p].awaiters - outcomes.Keys)
  }

  /** The effect of a proper batch, promise by promise and task by task. */
  ghost predicate SettlesTo(s: Server, outcomes: map<Id, Outcome>, now: int, s': Server) {
    && s'.promises.Keys == s.promises.Keys
    && s'.tasks.Keys == s.tasks.Keys
    && (forall p | p in s.promises :: s'.promises[p] == PromiseAfter(s, outcomes, p))
    && (forall t | t in s.tasks :: s'.tasks[t] == TaskAfter(s, outcomes.Keys, t))
    && s'.pTimers == s.pTimers - outcomes.Keys
    && (forall t :: t in s'.tTimers <==> (t in s.tTimers && t !in outcomes) || Wakes(s, outcomes.Keys, t))
    && (forall t | t in s'.tTimers :: s'.tTimers[t] ==
          if Wakes(s, outcomes.Keys, t) then TaskTimer(Retry, now + PENDING_RETRY_TTL) else s.tTimers[t])
  }

  lemma EndingIs(s: Server, outcomes: map<Id, Outcome>)
    requires Inv(s) && Proper(s, outcomes)
    ensures forall p | p in s.promises ::
              s.promises[p].awaiters - Ending(s, outcomes.Keys) == s.promises[p].awaiters - outcomes.Keys
    ensures s.tTimers - Ending(s, outcomes.Keys) == s.tTimers - outcomes.Keys
  {
    forall p | p in s.promises
      ensures s.promises[p].awaiters - Ending(s, outcomes.Keys) == s.promises[p].awaiters - outcomes.Keys
    {
      assert Ok(s, p);
    }
    forall t | t in s.tTimers ensures t in Ending(s, outcomes.Keys) <==> t in outcomes
    {
      assert Ok(s, t);
    }
  }

  function Closed(s: Server, outcomes: map<Id, Outcome>): Server {
    Fulfill(Mark(s, outcomes), outcomes.Keys)
  }

  lemma UnendedTask(s: Server, outcomes: map<Id, Outcome>, t: Id)
    requires t in s.tasks
    ensures t in Closed(s, outcomes).tasks
    ensures Closed(s, outcomes).tasks[t] == if t in outcomes then Ended(s.tasks[t]) else s.tasks[t]
    ensures t !in outcomes ==> WokenBy(Closed(s, outcomes), outcomes.Keys, t) == WokenBy(s, outcomes.Keys, t)
  {
    var m := Mark(s, outcomes);
    assert t !in outcomes ==> t !in Ending(m, outcomes.Keys);
  }

  lemma WokenIs(s: Server, outcomes: map<Id, Outcome>, t: Id)
    requires Inv(s) && outcomes.Keys <= s.promises.Keys
    ensures t in Woken(Closed(s, outcomes), outcomes.Keys) <==> Wakes(s, outcomes.Keys, t)
  {
    var m := Mark(s, outcomes);
    NoneTaskless(s, outcomes);
    if t in s.tasks {
      UnendedTask(s, outcomes, t);
    }
  }

  lemma EndedTimers(s: Server, outcomes: map<Id, Outcome>)
    requires Inv(s) && Proper(s, outcomes)
    ensures Closed(s, outcomes).tTimers == s.tTimers - outcomes.Keys
  {
    EndingIs(s, outcomes);
    assert Ending(Mark(s, outcomes), outcomes.Keys) == Ending(s, outcomes.Keys);
  }

  lemma SettleTimers(s: Server, outcomes: map<Id, Outcome>, now: int, t: Id)
    requires Inv(s) && Proper(s, outcomes)
    ensures t in Settle(s, outcomes, now).tTimers <==>
            (t in s.tTimers && t !in outcomes) || Wakes(s, outcomes.Keys, t)
    ensures t in Settle(s, outcomes, now).tTimers ==>
              Settle(s, outcomes, now).tTimers[t]
              == if Wakes(s, outcomes.Keys, t) then TaskTimer(Retry, now + PENDING_RETRY_TTL) else s.tTimers[t]
  {
    WokenIs(s, outcomes, t);
    EndedTimers(s, outcomes);
  }

  /** The execute messages of a batch: those already there, and one for each
      task woken that has an address, under its next version. */
  predicate CallsAt(s: Server, outcomes: map<Id, Outcome>, s': Server, t: Id) {
    var called := Wakes(s, outcomes.Keys, t) && TargetOf(s, t).Some?;
    && TargetOf(s', t) == TargetOf(s, t)
    && (t in s'.executes <==> t in s.executes || called)
    && (t in s'.executes ==>
          s'.executes[t] == if called then Execute(TargetOf(s, t).value, s.tasks[t].version + 1) else s.executes[t])
  }

  lemma CallIs(s: Server, c: Server, woken: set<Id>, t: Id)
    requires woken <= c.tasks.Keys && t in s.tasks && TargetOf(c, t) == TargetOf(s, t)
    requires t in woken ==> c.tasks[t] == s.tasks[t]
    ensures t in Calls(c, woken) <==> t in woken && TargetOf(s, t).Some?
    ensures t in Calls(c, woken) ==> Calls(c, woken)[t] == Execute(TargetOf(s, t).value, s.tasks[t].version + 1)
  {
  }

  lemma CallOfTask(s: Server, outcomes: map<Id, Outcome>, t: Id)
    requires Inv(s) && Proper(s, outcomes)
    ensures var c := Closed(s, outcomes);
            var calls := Calls(c, Woken(c, outcomes.Keys));
            && (t in calls <==> Wakes(s, outcomes.Keys, t) && TargetOf(s, t).Some?)
            && (t in calls ==> calls[t] == Execute(TargetOf(s, t).value, s.tasks[t].version + 1))
  {
    var c := Closed(s, outcomes);
    var woken := Woken(c, outcomes.Keys);
    WokenIs(s, outcomes, t);
    if t in woken {
      UnendedTask(s, outcomes, t);
      TargetsKept(s, outcomes, 0, t);
      CallIs(s, c, woken, t);
    }
  }

  lemma SettleCalls(s: Server, outcomes: map<Id, Outcome>, now: int, t: Id)
    requires Inv(s) && Proper(s, outcomes)
    ensures CallsAt(s, outcomes, Settle(s, outcomes, now), t)
  {
    CallOfTask(s, outcomes, t);
    ExecutesAfter(Closed(s, outcomes), outcomes.Keys, now);
    TargetsKept(s, outcomes, now, t);
  }

  lemma TargetsKept(s: Server, outcomes: map<Id, Outcome>, now: int, t: Id)
    ensures TargetOf(Closed(s, outcomes), t) == TargetOf(s, t)
    ensures TargetOf(Settle(s, outcomes, now), t) == TargetOf(s, t)
  {
  }

  lemma SettleIs(s: Server, outcomes: map<Id, Outcome>, now: int)
    requires Inv(s) && Proper(s, outcomes)
    ensures SettlesTo(s, outcomes, now, Settle(s, outcomes, now))
  {
    SettleKeepsKeys(s, outcomes, now);
    EndingIs(s, outcomes);
    forall t { SettleTimers(s, outcomes, now, t); }
    var s' := Settle(s, outcomes, now);
    forall p | p in s.promises ensures s'.promises[p] == PromiseAfter(s, outcomes, p)
    {
      SettledPromiseIs(s, outcomes, now, p);
    }
    forall t | t in s.tasks ensures s'.tasks[t] == TaskAfter(s, outcomes.Keys, t)
    {
      SettledTaskIs(s, outcomes, now, t);
    }
  }

  lemma NoneTaskless(s: Server, outcomes: map<Id, Outcome>)
    requires Inv(s) && outcomes.Keys <= s.promises.Keys
    ensures Taskless(Mark(s, outcomes), outcomes.Keys) == {}
  {
    forall id | id in outcomes ensures id !in Taskless(Mark(s, outcomes), outcomes.Keys)
    {
      assert Ok(s, id);
    }
  }

  lemma SettleKeepsKeys(s: Server, outcomes: map<Id, Outcome>, now: int)
    requires Inv(s) && outcomes.Keys <= s.promises.Keys
    ensures Settle(s, outcomes, now).promises.Keys == s.promises.Keys
    ensures Settle(s, outcomes, now).tasks.Keys == s.tasks.Keys
    ensures Settle(s, outcomes, now).pTimers == s.pTimers - outcomes.Keys
  {
    var m := Mark(s, outcomes);
    NoneTaskless(s, outcomes);
  }

  lemma SettlesToTimers(s: Server, outcomes: map<Id, Outcome>, now: int, s': Server, id: Id)
    requires Inv(s) && Proper(s, outcomes) && SettlesTo(s, outcomes, now, s')
    ensures PromiseTimerExact(s', id) && TaskTimerExact(s', id)
  {
    assert Ok(s, id);
  }

  lemma SettlesToShapes(s: Server, outcomes: map<Id, Outcome>, now: int, s': Server, id: Id)
    requires Inv(s) && Proper(s, outcomes) && SettlesTo(s, outcomes, now, s')
    ensures TaskMatches(s', id)
    ensures id in s'.tasks ==> TaskShape(s'.tasks[id])
    ensures id in s'.promises ==> PromiseShape(s'.promises[id])
  {
    assert Ok(s, id);
    if id in s.promises {
      assert s'.promises[id] == PromiseAfter(s, outcomes, id);
    }
    if id in s.tasks {
      assert s'.tasks[id] == TaskAfter(s, outcomes.Keys, id);
    }
  }

  lemma SettlesToLinks(s: Server, outcomes: map<Id, Outcome>, now: int, s': Server, id: Id)
    requires Inv(s) && Proper(s, outcomes) && SettlesTo(s, outcomes, now, s')
    ensures LinksLive(s', id)
  {
    assert Ok(s, id);
    if id in s.promises {
      assert s'.promises[id] == PromiseAfter(s, outcomes, id);
      forall t | t in s'.promises[id].awaiters ensures Live(s', t)
      {
        assert Live(s, t) && t !in outcomes;
        assert s'.tasks[t] == TaskAfter(s, outcomes.Keys, t);
      }
    }
    if id in s.tasks {
      forall r | r in s'.tasks[id].resumes ensures s'.SettledPromise(r)
      {
        assert s'.tasks[id] == TaskAfter(s, outcomes.Keys, id);
        assert r in outcomes || s.SettledPromise(r);
      }
    }
  }

  lemma SettleKeepsInv(s: Server, outcomes: map<Id, Outcome>, now: int)
    requires Inv(s) && Proper(s, outcomes)
    ensures Inv(Settle(s, outcomes, now))
  {
    SettleIs(s, outcomes, now);
    var s' := Settle(s, outcomes, now);
    forall id ensures Ok(s', id)
    {
      SettlesToTimers(s, outcomes, now, s', id);
      SettlesToShapes(s, outcomes, now, s', id);
      SettlesToLinks(s, outcomes, now, s', id);
    }
  }

  lemma AutoTimeoutKeepsInv(s: Server, now: int, id: Id)
    requires Inv(s)
    ensures Inv(AutoTimeout(s, now, id))
  {
    if Overdue(s, now, id) {
      SettleKeepsInv(s, map[id := LazyOutcome(s.promises[id].record)], now);
    }
  }

  lemma {:induction false} AutoTimeoutsKeepInv(s: Server, now: int, ids: seq<Id>)
    requires Inv(s)
    ensures Inv(AutoTimeouts(s, now, ids))
    decreases |ids|
  {
    if ids != [] {
      AutoTimeoutKeepsInv(s, now, ids[0]);
      AutoTimeoutsKeepInv(AutoTimeout(s, now, ids[0]), now, ids[1..]);
    }
  }

  lemma AutoTimeoutsOne(s: Server, now: int, id: Id)
    ensures AutoTimeouts(s, now, [id]) == AutoTimeout(s, now, id)
  {
    assert [id][1..] == [];
  }

  lemma ClearedKeepsInv(s: Server)
    requires Inv(s)
    ensures Inv(Cleared(s))
  {
    forall id ensures Ok(Cleared(s), id) { assert Ok(s, id); }
  }

  // ---------------------------------------------------------------------
  //  Requests
  // ---------------------------------------------------------------------

  /** An already-expired creation adds a settled promise, a finished task when
      it carries a target, and nothing else. */
  lemma CreateExpiredIs(s: Server, now: int, args: CreateArgs)
    requires Inv(s) && args.id !in s.promises && args.id != "" && now >= Deadline(args)
    ensures var s' := CreatePromise(s, now, args).0;
            && s'.promises == s.promises[args.id := Promise(ExpiredRecord(args), {}, {})]
            && s'.tasks == (if TAG_TARGET in args.tags then s.tasks[args.id := FULFILLED_TASK] else s.tasks)
            && s'.pTimers == s.pTimers && s'.tTimers == s.tTimers
            && s'.executes == s.executes && s'.unblocks == s.unblocks
  {
    var id := args.id;
    var s1 := AddPromise(s, id, ExpiredRecord(args));
    assert Ok(s, id);
    assert Ending(s1, {id}) == {};
    assert Taskless(s1, {id}) == if TAG_TARGET in args.tags then {id} else {};
    var f := Fulfill(s1, {id});
    NothingEnding(s1, {id});
    assert f.tasks == (if TAG_TARGET in args.tags then s.tasks[args.id := FULFILLED_TASK] else s.tasks);
    AnnounceNothing(f, {id}, now);
  }

  function AddSettled(s: Server, id: Id, r: Record, withTask: bool): Server {
    s.(promises := s.promises[id := Promise(r, {}, {})],
       tasks := if withTask then s.tasks[id := FULFILLED_TASK] else s.tasks)
  }

  lemma AddSettledKeepsInv(s: Server, id: Id, r: Record, withTask: bool)
    requires Inv(s) && id !in s.promises && r.Settled() && r.settledAt.Some?
    requires r.Targeted() ==> withTask
    ensures Inv(AddSettled(s, id, r, withTask))
  {
    var s' := AddSettled(s, id, r, withTask);
    assert Ok(s, id);
    forall i ensures Ok(s', i)
    {
      assert Ok(s, i);
    }
  }

  lemma CreateExpiredKeepsInv(s: Server, now: int, args: CreateArgs)
    requires Inv(s) && args.id !in s.promises && args.id != "" && now >= Deadline(args)
    ensures Inv(CreatePromise(s, now, args).0)
  {
    CreateExpiredIs(s, now, args);
    var s' := AddSettled(s, args.id, ExpiredRecord(args), TAG_TARGET in args.tags);
    AddSettledKeepsInv(s, args.id, ExpiredRecord(args), TAG_TARGET in args.tags);
    assert CreatePromise(s, now, args).0 == s';
  }

  lemma AddPendingTaskIs(s: Server, args: CreateArgs, now: int)
    ensures var s' := AddPendingTask(s, args, now);
            && s'.promises == s.promises
            && s'.tasks == s.tasks[args.id := Task(TaskState.Pending, 0, None, None, {})]
            && s'.pTimers == s.pTimers[args.id := Deadline(args)]
            && s'.tTimers.Keys == s.tTimers.Keys + {args.id}
            && s'.tTimers[args.id].kind == Retry
            && (forall t | t in s.tTimers && t != args.id :: s'.tTimers[t] == s.tTimers[t])
            && s'.executes - {args.id} == s.executes - {args.id}
            && s'.unblocks == s.unblocks
  {
  }

  lemma CreateTargetedKeepsInv(s: Server, now: int, args: CreateArgs)
    requires Inv(s) && args.id !in s.promises && args.id != "" && now < Deadline(args) && TAG_TARGET in args.tags
    ensures Inv(CreatePromise(s, now, args).0)
  {
    var s1 := AddPromise(s, args.id, FreshRecord(args, now));
    var s' := AddPendingTask(s1, args, now);
    AddPendingTaskIs(s1, args, now);
    forall id ensures Ok(s', id)
    {
      assert Ok(s, id) && Ok(s, args.id);
    }
  }

  lemma CreatePromiseKeepsInv(s: Server, now: int, args: CreateArgs)
    requires Inv(s)
    ensures Inv(CreatePromise(s, now, args).0)
  {
    if args.id == "" || args.id in s.promises {
    } else if now >= Deadline(args) {
      CreateExpiredKeepsInv(s, now, args);
    } else if TAG_TARGET in args.tags {
      CreateTargetedKeepsInv(s, now, args);
    } else {
      var s' := AddPromise(s, args.id, FreshRecord(args, now));
      forall id ensures Ok(s', id)
      {
        assert Ok(s, id) && Ok(s, args.id);
      }
    }
  }

  lemma SettlePromiseKeepsInv(s: Server, now: int, args: SettleArgs)
    requires Inv(s) && !args.state.Pending?
    ensures Inv(SettlePromise(s, now, args).0)
  {
    if s.PendingPromise(args.id) && args.id != "" {
      SettleKeepsInv(s, map[args.id := Outcome(args.state, args.value, now)], now);
    }
  }

  lemma AddListenerKeepsInv(s: Server, awaited: Id, address: string)
    requires Inv(s)
    ensures Inv(AddListener(s, awaited, address).0)
  {
    var s' := AddListener(s, awaited, address).0;
    forall id ensures Ok(s', id)
    {
      assert Ok(s, id);
    }
  }

  lemma LendKeepsInv(s: Server, now: int, id: Id, pid: string, ttl: int)
    requires Inv(s) && s.TaskIs(id, TaskState.Pending)
    ensures Inv(Lend(s, now, id, pid, ttl))
  {
    var s' := Lend(s, now, id, pid, ttl);
    forall i ensures Ok(s', i)
    {
      assert Ok(s, i);
    }
  }

  function AddLent(s: Server, id: Id, r: Record, t: Task, at: int): Server {
    s.(promises := s.promises[id := Promise(r, {}, {})],
       tasks := s.tasks[id := t],
       pTimers := if r.Targeted() then s.pTimers[id := r.timeoutAt] else s.pTimers,
       tTimers := s.tTimers[id := TaskTimer(Lease, at)])
  }

  lemma AddLentKeepsInv(s: Server, id: Id, r: Record, t: Task, at: int)
    requires Inv(s) && id !in s.promises && !r.Settled() && r.settledAt.None? && r.value == Null
    requires t.state.Acquired? && TaskShape(t) && t.resumes == {}
    ensures Inv(AddLent(s, id, r, t, at))
  {
    var s' := AddLent(s, id, r, t, at);
    assert Ok(s, id);
    forall i ensures Ok(s', i)
    {
      assert Ok(s, i);
    }
  }

  /** What `task.create` does for an id never seen before. */
  lemma CreateFreshTaskIs(s: Server, now: int, pid: string, ttl: int, args: CreateArgs)
    requires pid != "" && args.id != "" && args.id !in s.promises && args.id !in s.tasks
    ensures CreateTask(s, now, pid, ttl, args).0 ==
      if now >= Deadline(args) then AddSettled(s, args.id, ExpiredRecord(args), true)
      else AddLent(s, args.id, FreshRecord(args, now), Task(Acquired, 0, Some(pid), Some(ttl), {}), SaturatingAdd(now, ttl))
  {
  }

  lemma CreateFreshTaskKeepsInv(s: Server, now: int, pid: string, ttl: int, args: CreateArgs)
    requires Inv(s) && pid != "" && args.id != "" && args.id !in s.promises
    ensures Inv(CreateTask(s, now, pid, ttl, args).0)
  {
    assert Ok(s, args.id);
    CreateFreshTaskIs(s, now, pid, ttl, args);
    if now >= Deadline(args) {
      AddSettledKeepsInv(s, args.id, ExpiredRecord(args), true);
    } else {
      var t := Task(Acquired, 0, Some(pid), Some(ttl), {});
      AddLentKeepsInv(s, args.id, FreshRecord(args, now), t, SaturatingAdd(now, ttl));
    }
  }

  lemma CreateTaskKeepsInv(s: Server, now: int, pid: string, ttl: int, args: CreateArgs)
    requires Inv(s)
    ensures Inv(CreateTask(s, now, pid, ttl, args).0)
  {
    assert Ok(s, args.id);
    if pid == "" || args.id == "" {
    } else if s.TaskIs(args.id, TaskState.Pending) {
      LendKeepsInv(s, now, args.id, pid, ttl);
    } else if args.id !in s.promises {
      CreateFreshTaskKeepsInv(s, now, pid, ttl, args);
    }
  }

  lemma AcquireTaskKeepsInv(s: Server, now: int, id: Id, pid: string, ttl: int)
    requires Inv(s)
    ensures Inv(AcquireTask(s, now, id, pid, ttl).0)
  {
    if id != "" && s.TaskIs(id, TaskState.Pending) {
      LendKeepsInv(s, now, id, pid, AtLeastOne(ttl));
    }
  }

  lemma ReleaseKeepsInv(s: Server, versions: map<Id, int>, now: int)
    requires Inv(s)
    ensures Inv(Release(s, versions, now))
  {
    var s' := Release(s, versions, now);
    forall id ensures Ok(s', id)
    {
      assert Ok(s, id);
    }
  }

  lemma RetryAllKeepsInv(s: Server, ids: set<Id>, now: int)
    requires Inv(s)
    ensures Inv(RetryAll(s, ids, now))
  {
    var s' := RetryAll(s, ids, now);
    forall id ensures Ok(s', id)
    {
      assert Ok(s, id);
    }
  }

  lemma AwaitAllKeepsInv(s: Server, id: Id, awaiting: set<Id>)
    requires Inv(s) && Live(s, id)
    ensures Inv(AwaitAll(s, id, awaiting))
  {
    var s' := AwaitAll(s, id, awaiting);
    forall i ensures Ok(s', i)
    {
      assert Ok(s, i);
    }
  }

  lemma ParkKeepsInv(s: Server, id: Id)
    requires Inv(s) && s.TaskIs(id, Acquired)
    ensures Inv(s.(tasks := s.tasks[id := Parked(s.tasks[id])], tTimers := s.tTimers - {id}))
  {
    var s' := s.(tasks := s.tasks[id := Parked(s.tasks[id])], tTimers := s.tTimers - {id});
    forall i ensures Ok(s', i)
    {
      assert Ok(s, i);
    }
  }

  lemma ForgetResumesKeepsInv(s: Server, id: Id)
    requires Inv(s) && s.TaskIs(id, Acquired)
    ensures Inv(s.(tasks := s.tasks[id := s.tasks[id].(resumes := {})]))
  {
    var s' := s.(tasks := s.tasks[id := s.tasks[id].(resumes := {})]);
    forall i ensures Ok(s', i)
    {
      assert Ok(s, i);
    }
  }

  lemma SuspendTaskKeepsInv(s: Server, id: Id, awaiting: seq<Id>)
    requires Inv(s)
    ensures Inv(SuspendTask(s, id, awaiting).0)
  {
    if id != "" && s.TaskIs(id, Acquired) {
      ForgetResumesKeepsInv(s, id);
      AwaitAllKeepsInv(s, id, Elements(awaiting));
      ParkKeepsInv(AwaitAll(s, id, Elements(awaiting)), id);
    }
  }

  lemma BeatKeepsInv(s: Server, now: int, pid: string, r: TaskRef)
    requires Inv(s)
    ensures Inv(Beat(s, now, pid, r))
  {
    var s' := Beat(s, now, pid, r);
    forall id ensures Ok(s', id)
    {
      assert Ok(s, id);
    }
  }

  lemma {:induction false} BeatsKeepInv(s: Server, now: int, pid: string, refs: seq<TaskRef>)
    requires Inv(s)
    ensures Inv(Beats(s, now, pid, refs).0)
    decreases |refs|
  {
    if refs != [] && refs[0].id != "" {
      BeatKeepsInv(s, now, pid, refs[0]);
      BeatsKeepInv(Beat(s, now, pid, refs[0]), now, pid, refs[1..]);
    }
  }

  /** Fulfilling a task through its own promise is settling that promise. */
  lemma FulfillOwnIsSettle(s: Server, now: int, id: Id, action: Option<Id>, state: PromiseState, value: Json)
    requires Inv(s) && id != "" && s.TaskIs(id, Acquired) && (action.None? || action.value == id)
    ensures FulfillTask(s, now, id, action, state, value).0 == Settle(s, map[id := Outcome(state, value, now)], now)
  {
    assert Ok(s, id);
    assert map[id := Outcome(state, value, now)].Keys == {id};
  }

  /** Writing the outcome `pending` leaves a pending promise with a settle time. */
  lemma PendingOutcomeBreaksInv(s: Server, id: Id, o: Outcome, now: int)
    requires s.PendingPromise(id) && o.state.Pending?
    ensures !Inv(Settle(s, map[id := o], now))
  {
    SettledPromiseIs(s, map[id := o], now, id);
    assert !Ok(Settle(s, map[id := o], now), id);
  }

  lemma FulfillTaskEnds(s: Server, now: int, id: Id, p: Id)
    requires id in s.tasks && id in s.promises
    ensures var s' := Announce(Fulfill(s, {id}), {p}, now);
            && s'.TaskIs(id, Fulfilled)
            && id in s'.promises && s'.promises[id].record == s.promises[id].record
  {
    assert Fulfill(s, {id}).tasks[id] == Ended(s.tasks[id]);
  }

  /** Fulfilling a task through somebody else's promise ends the task while its
      own promise stays pending. */
  lemma FulfillOtherBreaksInv(s: Server, now: int, id: Id, other: Id, state: PromiseState, value: Json)
    requires Inv(s) && id != "" && s.TaskIs(id, Acquired) && other != id
    ensures !Inv(FulfillTask(s, now, id, Some(other), state, value).0)
  {
    assert Ok(s, id);
    var s1 := if s.PendingPromise(other) then Mark(s, map[other := Outcome(state, value, now)]) else s;
    assert s1.promises[id] == s.promises[id];
    FulfillTaskEnds(s1, now, id, other);
    assert !Ok(FulfillTask(s, now, id, Some(other), state, value).0, id);
  }

  /** The requests the server should refuse and does not: settling a pending
      promise as `pending`, and fulfilling an acquired task through a promise
      that is not its own.  `s` is the server the request is handled in. */
  predicate Breaks(s: Server, req: Request) {
    match req
    case PromiseSettle(a) => a.id != "" && s.PendingPromise(a.id) && a.state.Pending?
    case TaskFence(id, v, FenceSettle(a)) =>
      id != "" && HoldsLease(s, id, v) && a.id != "" && s.PendingPromise(a.id) && a.state.Pending?
    case TaskFulfill(id, action, state, _) =>
      id != "" && s.TaskIs(id, Acquired) && (state.Pending? || (action.Some? && action.value != id))
    case _ => false
  }

  lemma FulfillOwnKeepsInv(s: Server, now: int, id: Id, action: Option<Id>, state: PromiseState, value: Json)
    requires Inv(s) && id != "" && s.TaskIs(id, Acquired)
    requires (action.None? || action.value == id) && !state.Pending?
    ensures Inv(FulfillTask(s, now, id, action, state, value).0)
  {
    assert Ok(s, id);
    FulfillOwnIsSettle(s, now, id, action, state, value);
    SettleKeepsInv(s, map[id := Outcome(state, value, now)], now);
  }

  lemma FencedKeepsInv(s: Server, now: int, action: FenceAction)
    requires Inv(s)
    requires action.FenceSettle? ==> !action.settle.state.Pending? || action.settle.id == "" || !s.PendingPromise(action.settle.id)
    ensures Inv(Fenced(s, now, action).0)
  {
    match action
    case FenceCreate(args) => CreatePromiseKeepsInv(s, now, args);
    case FenceSettle(args) =>
      if args.id != "" && s.PendingPromise(args.id) {
        SettlePromiseKeepsInv(s, now, args);
      }
  }

  lemma FenceKeepsInv(s: Server, now: int, id: Id, version: int, action: FenceAction)
    requires Inv(s) && !Breaks(s, TaskFence(id, version, action))
    ensures Inv(FenceTask(s, now, id, version, action).0)
  {
    if id != "" && HoldsLease(s, id, version) {
      FencedKeepsInv(s, now, action);
    }
  }

  lemma HandleTaskKeepsInv(s: Server, now: int, req: Request)
    requires Inv(s) && !Breaks(s, req)
    requires req.TaskRelease? || req.TaskFulfill? || req.TaskFence? || req.TaskSuspend? || req.TaskHeartbeat?
    ensures Inv(Handle(s, now, req).0)
  {
    match req
    case TaskRelease(id) =>
      if id in s.tasks { ReleaseKeepsInv(s, map[id := s.tasks[id].version], now); }
    case TaskFulfill(id, action, state, value) =>
      if id != "" && s.TaskIs(id, Acquired) { FulfillOwnKeepsInv(s, now, id, action, state, value); }
    case TaskFence(id, version, action) => FenceKeepsInv(s, now, id, version, action);
    case TaskSuspend(id, awaiting) => SuspendTaskKeepsInv(s, id, awaiting);
    case TaskHeartbeat(pid, refs) => BeatsKeepInv(s, now, pid, refs);
  }

  lemma HandleKeepsInv(s: Server, now: int, req: Request)
    requires Inv(s) && !Breaks(s, req)
    ensures Inv(Handle(s, now, req).0)
  {
    match req
    case PromiseGet(_) =>
    case PromiseCreate(args) => CreatePromiseKeepsInv(s, now, args);
    case PromiseSettle(args) =>
      if args.id != "" && s.PendingPromise(args.id) { SettlePromiseKeepsInv(s, now, args); }
    case RegisterListener(awaited, address) => AddListenerKeepsInv(s, awaited, address);
    case TaskCreate(pid, ttl, args) => CreateTaskKeepsInv(s, now, pid, ttl, args);
    case TaskAcquire(id, pid, ttl) => AcquireTaskKeepsInv(s, now, id, pid, ttl);
    case UnknownKind =>
    case _ => HandleTaskKeepsInv(s, now, req);
  }

  lemma HandleBreaksInv(s: Server, now: int, req: Request)
    requires Inv(s) && Breaks(s, req)
    ensures !Inv(Handle(s, now, req).0)
  {
    match req
    case PromiseSettle(a) => PendingOutcomeBreaksInv(s, a.id, Outcome(a.state, a.value, now), now);
    case TaskFence(id, v, FenceSettle(a)) => PendingOutcomeBreaksInv(s, a.id, Outcome(a.state, a.value, now), now);
    case TaskFulfill(id, action, state, value) =>
      if action.Some? && action.value != id {
        FulfillOtherBreaksInv(s, now, id, action.value, state, value);
      } else {
        assert Ok(s, id);
        FulfillOwnIsSettle(s, now, id, action, state, value);
        PendingOutcomeBreaksInv(s, id, Outcome(state, value, now), now);
      }
  }

  /** A request keeps the invariant exactly when it is not one of the two the
      server should have refused. */
  lemma ApplyKeepsInvExactly(s: Server, now: int, req: Request)
    requires Inv(s)
    ensures Inv(Prepared(s, now, req))
    ensures Inv(Apply(s, now, req).0) <==> !Breaks(Prepared(s, now, req), req)
  {
    ClearedKeepsInv(s);
    AutoTimeoutsKeepInv(Cleared(s), now, Touched(req));
    var p := Prepared(s, now, req);
    if Breaks(p, req) {
      HandleBreaksInv(p, now, req);
    } else {
      HandleKeepsInv(p, now, req);
    }
  }

  /** What the SDK's own types guarantee of a request. */
  predicate WellFormed(req: Request) {
    match req
    case PromiseSettle(a) => !a.state.Pending?
    case TaskFence(_, _, FenceSettle(a)) => !a.state.Pending?
    case TaskFulfill(id, action, state, _) => !state.Pending? && (action.None? || action.value == id)
    case _ => true
  }

  lemma ApplyKeepsInv(s: Server, now: int, req: Request)
    requires Inv(s) && WellFormed(req)
    ensures Inv(Apply(s, now, req).0)
  {
    ApplyKeepsInvExactly(s, now, req);
  }

  lemma DueIsProper(s: Server, now: int)
    requires Inv(s)
    ensures Proper(s, DueOutcomes(s, now))
  {
  }

  lemma TickKeepsInv(s: Server, now: int)
    requires Inv(s)
    ensures Inv(Tick(s, now))
  {
    var s1 := Settle(s, DueOutcomes(s, now), now);
    DueIsProper(s, now);
    SettleKeepsInv(s, DueOutcomes(s, now), now);
    ReleaseKeepsInv(s1, ExpiredLeases(s, now), now);
    RetryAllKeepsInv(Release(s1, ExpiredLeases(s, now), now), DueRetries(s, now), now);
  }
}

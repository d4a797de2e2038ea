/**
 The life of a task: every transition a request for it, or a tick, can make, and what
 it leaves in the task, its timer and the outgoing buffer.
 */
module Tasks {
  import opened Protocol
  import opened Settlement
  import opened Requests
  import opened Invariant
  import opened Progress
  import opened Observable
  import Expiry
  import Leases
  import Replies
  import Timestamps

  // ---------------------------------------------------------------------
  //  One task's timer and message
  // ---------------------------------------------------------------------

  /** The task waits for a worker: a retry half a minute ahead, and a message to the
      promise's target, if it has one, under the task's version. */
  predicate Called(s: Server, t: Id, now: int) {
    && t in s.promises && t in s.tasks
    && t in s.tTimers && s.tTimers[t] == TaskTimer(Retry, now + 30_000)
    && (if TAG_TARGET in s.promises[t].record.tags
        then t in s.executes && s.executes[t] == Execute(s.promises[t].record.tags[TAG_TARGET], s.tasks[t].version)
        else t !in s.executes)
  }

  /** The task is lent under its version: to this worker, for so long, with no resumes
      left over, and nothing is sent. */
  predicate Lent(s: Server, t: Id, version: int, pid: string, ttl: int, now: int) {
    && t in s.tasks && s.tasks[t] == Task(Acquired, version, Some(pid), Some(ttl), {})
    && t in s.tTimers && s.tTimers[t] == TaskTimer(Lease, SaturatingAdd(now, ttl))
    && s.executes == map[] && s.unblocks == multiset{}
  }

  /** The reply hands the task out as it is, with the record of its promise. */
  predicate HandsOut(reply: Reply, s: Server, t: Id, status: int) {
    && t in s.tasks && t in s.promises
    && reply.TaskReply? && reply.status == status && reply.owner == Some(s.promises[t].record)
    && reply.task == TaskRecord(s.tasks[t].state, s.tasks[t].version, s.tasks[t].pid, s.tasks[t].ttl)
  }

  // ---------------------------------------------------------------------
  //  Requests for one task
  // ---------------------------------------------------------------------

  /** A request that touches one promise only finds it ended, or as it was. */
  lemma PreparedForOne(s: Server, now: int, req: Request, id: Id)
    requires Inv(s) && Touched(req) == [id]
    ensures !Overdue(s, now, id) ==> Prepared(s, now, req) == Cleared(s)
    ensures Inv(Prepared(s, now, req))
    ensures Overdue(s, now, id) && id in s.tasks ==> Prepared(s, now, req).TaskIs(id, Fulfilled)
  {
    var q := Prepared(s, now, req);
    ClearedKeepsInv(s);
    AutoTimeoutsKeepInv(Cleared(s), now, Touched(req));
    if !Overdue(s, now, id) {
      NothingOverdue(Cleared(s), now, [id]);
    } else {
      AutoTimeoutsSettleExactly(Cleared(s), now, Touched(req), id);
      PreparedAdvances(s, now, req);
      assert AdvancesAt(s, q, id) && Ok(q, id);
    }
  }

  /** An acquire gets the task exactly when it is pending and its promise not overdue,
      for at least a millisecond; otherwise it conflicts. */
  lemma AcquireIs(s: Server, now: int, id: Id, pid: string, ttl: int)
    requires Inv(s) && id != "" && id in s.tasks
    ensures var (s', reply) := Apply(s, now, TaskAcquire(id, pid, ttl));
            if s.TaskIs(id, TaskState.Pending) && !Overdue(s, now, id) then
              && Lent(s', id, s.tasks[id].version, pid, if ttl >= 1 then ttl else 1, now)
              && HandsOut(reply, s', id, 200)
              && s'.promises == s.promises && s'.pTimers == s.pTimers
              && forall other | other != id :: SameAt(s, s', other)
            else reply == Conflict
  {
    PreparedForOne(s, now, TaskAcquire(id, pid, ttl), id);
    assert Ok(s, id);
  }

  /** A create of a task that is there lends it when it is pending, reports it when it
      is over, and otherwise conflicts. */
  lemma CreateExistingIs(s: Server, now: int, pid: string, ttl: int, args: CreateArgs)
    requires Inv(s) && pid != "" && args.id != "" && args.id in s.tasks
    ensures var (s', reply) := Apply(s, now, TaskCreate(pid, ttl, args));
            if s.TaskIs(args.id, Fulfilled) || Overdue(s, now, args.id) then
              HandsOut(reply, s', args.id, 200) && s'.TaskIs(args.id, Fulfilled)
            else if s.TaskIs(args.id, TaskState.Pending) then
              && Lent(s', args.id, s.tasks[args.id].version, pid, ttl, now)
              && HandsOut(reply, s', args.id, 200)
              && forall other | other != args.id :: SameAt(s, s', other)
            else reply == Conflict
  {
    PreparedForOne(s, now, TaskCreate(pid, ttl, args), args.id);
    assert Ok(s, args.id) && Ok(Prepared(s, now, TaskCreate(pid, ttl, args)), args.id);
  }

  /** A create of a promise that is there without a task conflicts. */
  lemma CreateTasklessConflicts(s: Server, now: int, pid: string, ttl: int, args: CreateArgs)
    requires Inv(s) && pid != "" && args.id != "" && args.id !in s.tasks && args.id in s.promises
    ensures Apply(s, now, TaskCreate(pid, ttl, args)).1 == Conflict
  {
    var req := TaskCreate(pid, ttl, args);
    var q := Prepared(s, now, req);
    PreparedForOne(s, now, req, args.id);
    PreparedKeys(s, now, req);
  }

  lemma CreateFreshIs(s: Server, now: int, pid: string, ttl: int, args: CreateArgs)
    requires Inv(s) && s.executes == map[] && s.unblocks == multiset{}
    requires pid != "" && args.id != "" && args.id !in s.promises && now < Deadline(args)
    ensures var (s', reply) := CreateTask(s, now, pid, ttl, args);
            && args.id in s'.promises && Created(s'.promises[args.id], args, now)
            && Lent(s', args.id, 0, pid, ttl, now)
            && HandsOut(reply, s', args.id, 201)
            && (TAG_TARGET in args.tags <==> args.id in s'.pTimers)
            && forall other | other != args.id :: SameAt(s, s', other)
  {
    assert Ok(s, args.id);
    CreateFreshTaskIs(s, now, pid, ttl, args);
    Replies.CreateFreshReplies(s, now, pid, ttl, args);
  }

  /** A create of a task for a new promise lends it at once. */
  lemma CreateLends(s: Server, now: int, pid: string, ttl: int, args: CreateArgs)
    requires Inv(s) && pid != "" && args.id != "" && args.id !in s.promises
    requires if args.timeoutAt.Some? then now < args.timeoutAt.value else now < I64_MAX
    ensures var (s', reply) := Apply(s, now, TaskCreate(pid, ttl, args));
            && args.id in s'.promises && Created(s'.promises[args.id], args, now)
            && Lent(s', args.id, 0, pid, ttl, now)
            && HandsOut(reply, s', args.id, 201)
            && (TAG_TARGET in args.tags <==> args.id in s'.pTimers)
            && forall other | other != args.id :: SameAt(s, s', other)
  {
    var s' := Apply(s, now, TaskCreate(pid, ttl, args)).0;
    ClearedKeepsInv(s);
    PreparedForOne(s, now, TaskCreate(pid, ttl, args), args.id);
    CreateFreshIs(Cleared(s), now, pid, ttl, args);
    forall other | other != args.id ensures SameAt(s, s', other)
    {
      assert SameAt(Cleared(s), s', other);
    }
  }

  /** A create of a task whose promise is past its deadline stores both as over, lends
      nothing and sends nothing. */
  lemma CreateExpiredTaskIs(s: Server, now: int, pid: string, ttl: int, args: CreateArgs)
    requires Inv(s) && pid != "" && args.id != "" && args.id !in s.promises
    requires if args.timeoutAt.Some? then args.timeoutAt.value <= now else I64_MAX <= now
    ensures var (s', reply) := Apply(s, now, TaskCreate(pid, ttl, args));
            && args.id in s'.promises && Timestamps.EndedByDeadline(s'.promises[args.id].record)
            && s'.promises[args.id].record.param == args.param && s'.promises[args.id].record.tags == args.tags
            && DueAt(args, s'.promises[args.id].record.timeoutAt)
            && args.id in s'.tasks && s'.tasks[args.id] == Task(Fulfilled, 0, None, None, {})
            && HandsOut(reply, s', args.id, 200) && reply.preload == map[]
            && s'.executes == map[] && s'.unblocks == multiset{} && s'.tTimers == s.tTimers && s'.pTimers == s.pTimers
            && forall other | other != args.id :: SameAt(s, s', other)
  {
    assert Ok(s, args.id);
    PreparedForOne(s, now, TaskCreate(pid, ttl, args), args.id);
    CreateFreshTaskIs(Cleared(s), now, pid, ttl, args);
    Replies.CreateFreshReplies(Cleared(s), now, pid, ttl, args);
    ExpiredRecordIs(args);
  }

  /** A release of a task that is held takes it back: pending under the next version,
      with its resumes, and dispatched again. */
  lemma ReleaseIs(s: Server, now: int, id: Id)
    requires Inv(s) && id != "" && id in s.tasks
    ensures var (s', reply) := Apply(s, now, TaskRelease(id));
            if Grants(s, now, id) then
              && reply == Done
              && id in s'.tasks
              && s'.tasks[id] == Task(TaskState.Pending, s.tasks[id].version + 1, None, None, s.tasks[id].resumes)
              && Called(s', id, now) && s'.executes.Keys <= {id} && s'.unblocks == multiset{}
              && forall other | other != id :: SameAt(s, s', other)
            else reply == Conflict
  {
    assert Ok(s, id);
    PreparedForOne(s, now, TaskRelease(id), id);
    if Grants(s, now, id) {
      assert Standing(Cleared(s), map[id := s.tasks[id].version]) == {id};
    }
  }

  // ---------------------------------------------------------------------
  //  Suspending
  // ---------------------------------------------------------------------

  /** The task is registered with every pending promise named, and with no other that it
      did not await already. */
  predicate Registered(s: Server, s': Server, id: Id, awaiting: seq<Id>, d: Id) {
    d in s.promises ==>
      && d in s'.promises
      && s'.promises[d].record == s.promises[d].record && s'.promises[d].subscribers == s.promises[d].subscribers
      && s'.promises[d].awaiters
         == s.promises[d].awaiters + if d in awaiting && s.PendingPromise(d) then {id} else {}
  }

  lemma SuspendHandledIs(s: Server, id: Id, awaiting: seq<Id>, d: Id)
    requires id != "" && s.TaskIs(id, Acquired)
    ensures var (s', reply) := SuspendTask(s, id, awaiting);
            && (reply.Done? || reply.Redirect?)
            && Registered(s, s', id, if s.tasks[id].resumes == {} then awaiting else [], d)
            && id in s'.tasks
            && s'.tasks[id] == (if reply.Done? then Task(Suspended, s.tasks[id].version, None, None, {})
                                else s.tasks[id].(resumes := {}))
            && (reply.Done? ==> id !in s'.tTimers)
            && (d != id || reply.Redirect? ==>
                  (d in s'.tTimers <==> d in s.tTimers) && (d in s.tTimers ==> s'.tTimers[d] == s.tTimers[d]))
            && (d != id ==> (d in s'.tasks <==> d in s.tasks) && (d in s.tasks ==> s'.tasks[d] == s.tasks[d]))
            && s'.pTimers == s.pTimers && s'.executes == s.executes && s'.unblocks == s.unblocks
  {
  }

  /** Nothing named is expired on the way. */
  predicate NoneOverdue(s: Server, now: int, awaiting: seq<Id>) {
    forall p | p in awaiting :: p == "" || !Overdue(s, now, p)
  }

  lemma NoneOverduePrepared(s: Server, now: int, id: Id, awaiting: seq<Id>)
    requires !Overdue(s, now, id) && NoneOverdue(s, now, awaiting)
    ensures Prepared(s, now, TaskSuspend(id, awaiting)) == Cleared(s)
  {
    var req := TaskSuspend(id, awaiting);
    forall p | p in Touched(req) ensures !Overdue(Cleared(s), now, p) { TouchedIsNamed(req, p); }
    NothingOverdue(Cleared(s), now, Touched(req));
  }

  lemma SuspendedTaskIs(s: Server, now: int, id: Id, awaiting: seq<Id>)
    requires Inv(s) && id != "" && Grants(s, now, id)
    ensures var (s', reply) := Apply(s, now, TaskSuspend(id, awaiting));
            && id in s.tasks && id in s'.tasks
            && s'.tasks[id] == (if reply.Done? then Task(Suspended, s.tasks[id].version, None, None, {})
                                else s.tasks[id].(resumes := {}))
  {
    var req := TaskSuspend(id, awaiting);
    GrantedAfterExpiry(s, now, req, id);
    assert Ok(s, id);
    AutoTimeoutsSettleExactly(Cleared(s), now, Touched(req), id) by { ClearedKeepsInv(s); }
    Leases.PreparedSameLease(s, now, req, id);
    SuspendHandledIs(Prepared(s, now, req), id, awaiting, id);
  }

  /** A suspend that nothing has stirred parks the task on every pending promise it names;
      a redirected one keeps its lease and forgets its resumes, and joins those promises
      only if it had none.  A task that is not held, or is over, conflicts. */
  lemma SuspendIs(s: Server, now: int, id: Id, awaiting: seq<Id>, d: Id)
    requires Inv(s) && id != "" && id in s.tasks
    ensures var (s', reply) := Apply(s, now, TaskSuspend(id, awaiting));
            if Grants(s, now, id) then
              && reply == (if Stirred(s, now, id, awaiting) then Redirect(Preload(s', id)) else Done)
              && id in s'.tasks
              && s'.tasks[id] == (if Stirred(s, now, id, awaiting) then s.tasks[id].(resumes := {})
                                  else Task(Suspended, s.tasks[id].version, None, None, {}))
              && (NoneOverdue(s, now, awaiting) ==>
                    && Registered(s, s', id, if s.tasks[id].resumes == {} then awaiting else [], d)
                    && (id in s'.tTimers <==> Stirred(s, now, id, awaiting))
                    && s'.executes == map[] && s'.unblocks == multiset{})
              && (!Stirred(s, now, id, awaiting) ==> NoneOverdue(s, now, awaiting))
            else reply == Conflict
  {
    var req := TaskSuspend(id, awaiting);
    GrantedAfterExpiry(s, now, req, id);
    SuspendGrantedExactly(s, now, id, awaiting);
    PreparedAdvances(s, now, req);
    assert Ok(s, id) && AdvancesAt(s, Prepared(s, now, req), id);
    if Grants(s, now, id) {
      SuspendedTaskIs(s, now, id, awaiting);
      RedirectShows(s, now, id, awaiting);
      if NoneOverdue(s, now, awaiting) {
        NoneOverduePrepared(s, now, id, awaiting);
        SuspendHandledIs(Cleared(s), id, awaiting, d);
        SuspendHandledIs(Cleared(s), id, awaiting, id);
      }
    }
  }

  // ---------------------------------------------------------------------
  //  Heartbeats
  // ---------------------------------------------------------------------

  /** The `i`-th reference is honoured, and it is to the lease of `pid` on `t`. */
  predicate Renews(s: Server, pid: string, refs: seq<TaskRef>, i: nat, t: Id)
    requires i < |refs|
  {
    && (forall j | 0 <= j <= i :: refs[j].id != "")
    && refs[i].id == t && t in s.tasks
    && s.tasks[t].state.Acquired? && s.tasks[t].pid == Some(pid)
    && (refs[i].version.None? || refs[i].version == Some(s.tasks[t].version))
  }

  predicate Renewed(s: Server, pid: string, refs: seq<TaskRef>, t: Id) {
    exists i | 0 <= i < |refs| :: Renews(s, pid, refs, i, t)
  }

  lemma {:induction false} RenewedIsBeaten(s: Server, pid: string, refs: seq<TaskRef>, t: Id)
    ensures Renewed(s, pid, refs, t) <==> Replies.BeatsOn(s, pid, refs, t)
  {
    if refs != [] && refs[0].id != "" {
      var rest := refs[1..];
      RenewedIsBeaten(s, pid, rest, t);
      if Renewed(s, pid, rest, t) {
        var i :| 0 <= i < |rest| && Renews(s, pid, rest, i, t);
        assert forall j | 0 <= j <= i + 1 :: refs[j].id != "" by { assert forall j | 1 <= j <= i + 1 :: refs[j] == rest[j - 1]; }
        assert Renews(s, pid, refs, i + 1, t);
      }
      if Renewed(s, pid, refs, t) {
        var i :| 0 <= i < |refs| && Renews(s, pid, refs, i, t);
        if i > 0 {
          assert forall j | 0 <= j <= i - 1 :: rest[j] == refs[j + 1];
          assert Renews(s, pid, rest, i - 1, t);
        } else {
          assert BeatCounts(s, pid, refs[0]);
        }
      } else if refs[0].id == t && BeatCounts(s, pid, refs[0]) {
        assert Renews(s, pid, refs, 0, t);
      }
    }
  }

  /** A heartbeat sets the lease timers it renews to a whole ttl from now, and nothing
      else; it is refused exactly when it names no worker or some reference no task. */
  lemma HeartbeatIs(s: Server, now: int, pid: string, refs: seq<TaskRef>, t: Id)
    requires Inv(s)
    ensures var (s', reply) := Apply(s, now, TaskHeartbeat(pid, refs));
            && s'.tasks == s.tasks && s'.promises == s.promises && s'.pTimers == s.pTimers
            && s'.executes == map[] && s'.unblocks == multiset{}
            && (if pid != "" && Renewed(s, pid, refs, t) then
                  t in s.tasks && s.tasks[t].ttl.Some?
                  && t in s'.tTimers && s'.tTimers[t] == TaskTimer(Lease, SaturatingAdd(now, s.tasks[t].ttl.value))
                else (t in s'.tTimers <==> t in s.tTimers) && (t in s.tTimers ==> s'.tTimers[t] == s.tTimers[t]))
            && reply == if pid == "" || exists r | r in refs :: r.id == "" then Failed else Done
  {
    assert Ok(s, t);
    assert Prepared(s, now, TaskHeartbeat(pid, refs)) == Cleared(s);
    Replies.BeatsAt(Cleared(s), now, pid, refs, t);
    RenewedIsBeaten(Cleared(s), pid, refs, t);
    assert Renewed(Cleared(s), pid, refs, t) <==> Renewed(s, pid, refs, t) by { RenewedInBoth(s, pid, refs, t); }
    BeatsOnlyTimers(Cleared(s), now, pid, refs);
    BeatsRefused(Cleared(s), now, pid, refs);
  }

  lemma RenewedInBoth(s: Server, pid: string, refs: seq<TaskRef>, t: Id)
    ensures Renewed(Cleared(s), pid, refs, t) <==> Renewed(s, pid, refs, t)
  {
    assert forall i | 0 <= i < |refs| :: Renews(Cleared(s), pid, refs, i, t) <==> Renews(s, pid, refs, i, t);
  }

  // ---------------------------------------------------------------------
  //  A tick
  // ---------------------------------------------------------------------

  /** The tick settles `d`: it is pending, has a target, and its deadline has come. */
  predicate Expires(s: Server, now: int, d: Id) {
    && d in s.promises && s.promises[d].record.state.Pending?
    && TAG_TARGET in s.promises[d].record.tags && s.promises[d].record.timeoutAt <= now
  }

  /** The promises the tick settles that `t` awaits. */
  function Causes(s: Server, now: int, t: Id): set<Id> {
    set d | d in s.promises && Expires(s, now, d) && t in s.promises[d].awaiters
  }

  predicate TimerDue(s: Server, now: int, t: Id) { t in s.tTimers && s.tTimers[t].at <= now }

  /** Nothing is sent to the task, and its timer stays. */
  predicate LeftWaiting(s: Server, s': Server, t: Id) {
    && t !in s'.executes
    && (t in s'.tTimers <==> t in s.tTimers) && (t in s.tTimers ==> s'.tTimers[t] == s.tTimers[t])
  }

  /** What becomes of a task in a tick: it ends with its promise, is woken by what it
      awaits, loses an expired lease, is called again when its retry is due, or stays. */
  predicate TickedTask(s: Server, s': Server, now: int, t: Id)
    requires t in s.tasks
  {
    var was, causes := s.tasks[t], Causes(s, now, t);
    && t in s'.tasks
    && var next := s'.tasks[t];
       if Expires(s, now, t) then
         next == Task(Fulfilled, was.version, None, None, {}) && t !in s'.tTimers && t !in s'.executes
       else if was.state.Suspended? && causes != {} then
         next == Task(TaskState.Pending, was.version + 1, None, None, causes) && Called(s', t, now)
       else if was.state.Acquired? && TimerDue(s, now, t) then
         next == Task(TaskState.Pending, was.version + 1, None, None, was.resumes + causes) && Called(s', t, now)
       else if was.state.Pending? && TimerDue(s, now, t) then
         next == was.(resumes := was.resumes + causes) && Called(s', t, now)
       else
         next == was.(resumes := was.resumes + causes) && LeftWaiting(s, s', t)
  }

  lemma DueIsExpiring(s: Server, now: int, d: Id)
    requires Inv(s)
    ensures d in DuePromises(s, now) <==> Expires(s, now, d)
  {
    assert Ok(s, d);
  }

  lemma CausesAreWoken(s: Server, now: int, t: Id)
    requires Inv(s)
    ensures WokenBy(s, DuePromises(s, now), t) == Causes(s, now, t)
  {
    forall d ensures d in WokenBy(s, DuePromises(s, now), t) <==> d in Causes(s, now, t)
    {
      DueIsExpiring(s, now, d);
    }
  }

  /** A task that is over awaits nothing. */
  lemma AwaitedCauses(s: Server, now: int, t: Id)
    requires Inv(s) && s.TaskIs(t, Fulfilled)
    ensures Causes(s, now, t) == {}
  {
    forall d ensures d !in Causes(s, now, t)
    {
      assert Ok(s, d);
    }
  }

  predicate Wakened(s: Server, now: int, t: Id) {
    s.TaskIs(t, Suspended) && !Expires(s, now, t) && Causes(s, now, t) != {}
  }

  lemma TaskAfterIs(s: Server, now: int, t: Id)
    requires Inv(s) && t in s.tasks
    ensures var was, causes := s.tasks[t], Causes(s, now, t);
            TaskAfter(s, DuePromises(s, now), t) ==
              if Expires(s, now, t) then Task(Fulfilled, was.version, None, None, {})
              else if Wakened(s, now, t) then Task(TaskState.Pending, was.version + 1, None, None, causes)
              else was.(resumes := was.resumes + causes)
    ensures Wakes(s, DuePromises(s, now), t) <==> Wakened(s, now, t)
  {
    assert Ok(s, t);
    CausesAreWoken(s, now, t);
    DueIsExpiring(s, now, t);
    if s.TaskIs(t, Fulfilled) { AwaitedCauses(s, now, t); }
    assert s.tasks[t].resumes + {} == s.tasks[t].resumes;
  }

  /** Phases 1 to 3: the task after settling. */
  lemma TaskAfterSettling(s: Server, now: int, t: Id)
    requires Inv(s) && t in s.tasks
    ensures var m := Settle(s, DueOutcomes(s, now), now);
            && t in m.tasks && m.tasks[t] == TaskAfter(s, DuePromises(s, now), t)
            && t in m.promises && t in s.promises && m.promises[t].record.tags == s.promises[t].record.tags
  {
    var o := DueOutcomes(s, now);
    assert Ok(s, t);
    SettledTaskIs(s, o, now, t);
    SettledPromiseIs(s, o, now, t);
  }

  lemma TimerAfterSettling(s: Server, now: int, t: Id)
    requires Inv(s) && t in s.tasks
    ensures var m := Settle(s, DueOutcomes(s, now), now);
            if Wakened(s, now, t) then t in m.tTimers && m.tTimers[t] == TaskTimer(Retry, now + 30_000)
            else if Expires(s, now, t) then t !in m.tTimers
            else (t in m.tTimers <==> t in s.tTimers) && (t in s.tTimers ==> m.tTimers[t] == s.tTimers[t])
  {
    DueIsProper(s, now);
    DueIsExpiring(s, now, t);
    TaskAfterIs(s, now, t);
    SettleTimers(s, DueOutcomes(s, now), now, t);
  }

  lemma MessageAfterSettling(s: Server, now: int, t: Id)
    requires Inv(s) && t in s.tasks && s.executes == map[]
    ensures var m := Settle(s, DueOutcomes(s, now), now);
            && t in s.promises
            && (if Wakened(s, now, t) && TAG_TARGET in s.promises[t].record.tags then
                  t in m.executes
                  && m.executes[t] == Execute(s.promises[t].record.tags[TAG_TARGET], s.tasks[t].version + 1)
                else t !in m.executes)
  {
    assert Ok(s, t);
    DueIsProper(s, now);
    TaskAfterIs(s, now, t);
    SettleCalls(s, DueOutcomes(s, now), now, t);
  }

  /** Phases 4 and 5, for a task as the phases before left it. */
  lemma RearmedTask(s: Server, leases: map<Id, int>, retries: set<Id>, now: int, t: Id)
    requires t in s.tasks && t in s.promises && retries !! leases.Keys
    ensures var m, was := Expiry.Rearm(s, leases, retries, now), s.tasks[t];
            && t in m.tasks && t in m.promises && m.promises[t].record == s.promises[t].record
            && (if was.state.Acquired? && t in leases && leases[t] == was.version then
                  m.tasks[t] == Task(TaskState.Pending, was.version + 1, None, None, was.resumes)
                  && (t !in s.executes ==> Called(m, t, now))
                else
                  m.tasks[t] == was
                  && (if was.state.Pending? && t in retries then t !in s.executes ==> Called(m, t, now)
                      else
                        && (t in m.executes <==> t in s.executes) && (t in s.executes ==> m.executes[t] == s.executes[t])
                        && (t in m.tTimers <==> t in s.tTimers) && (t in s.tTimers ==> m.tTimers[t] == s.tTimers[t])))
  {
  }

  /** Which of the collected leases and retries are the task's. */
  lemma CollectedFor(s: Server, now: int, t: Id)
    requires Inv(s) && t in s.tasks
    ensures t in ExpiredLeases(s, now) <==> s.TaskIs(t, Acquired) && TimerDue(s, now, t)
    ensures t in ExpiredLeases(s, now) ==> ExpiredLeases(s, now)[t] == s.tasks[t].version
    ensures t in DueRetries(s, now) <==> s.TaskIs(t, TaskState.Pending) && TimerDue(s, now, t)
    ensures DueRetries(s, now) !! ExpiredLeases(s, now).Keys
  {
    assert Ok(s, t);
  }

  /** What phases 4 and 5 make of the task, from what phases 1 to 3 made of it. */
  lemma PhasesTogether(s: Server, m: Server, s': Server, leases: map<Id, int>, retries: set<Id>, now: int, t: Id)
    requires t in s.tasks && t in m.tasks && t in m.promises && s.executes == map[]
    requires s' == Expiry.Rearm(m, leases, retries, now) && retries !! leases.Keys
    requires t in leases <==> s.TaskIs(t, Acquired) && TimerDue(s, now, t)
    requires t in leases ==> leases[t] == s.tasks[t].version
    requires t in retries <==> s.TaskIs(t, TaskState.Pending) && TimerDue(s, now, t)
    requires var was, causes := s.tasks[t], Causes(s, now, t);
             if Expires(s, now, t) then
               m.tasks[t] == Task(Fulfilled, was.version, None, None, {}) && t !in m.tTimers && t !in m.executes
             else if Wakened(s, now, t) then
               m.tasks[t] == Task(TaskState.Pending, was.version + 1, None, None, causes) && Called(m, t, now)
             else m.tasks[t] == was.(resumes := was.resumes + causes) && LeftWaiting(s, m, t)
    ensures TickedTask(s, s', now, t)
  {
    RearmedTask(m, leases, retries, now, t);
  }

  /** What a tick does to each task. */
  lemma TickIsExact(s: Server, now: int, t: Id)
    requires Inv(s) && t in s.tasks && s.executes == map[]
    ensures TickedTask(s, Tick(s, now), now, t)
  {
    var m := Settle(s, DueOutcomes(s, now), now);
    TaskAfterIs(s, now, t);
    TaskAfterSettling(s, now, t);
    TimerAfterSettling(s, now, t);
    MessageAfterSettling(s, now, t);
    CollectedFor(s, now, t);
    PhasesTogether(s, m, Tick(s, now), ExpiredLeases(s, now), DueRetries(s, now), now, t);
  }

  /** What becomes of a promise in a tick: it ends by its deadline and lets go of
      everyone, or stays, and those whose own promise has ended no longer await it. */
  predicate TickedPromise(s: Server, s': Server, now: int, d: Id)
    requires d in s.promises
  {
    && d in s'.promises
    && var was, next := s.promises[d], s'.promises[d];
       if Expires(s, now, d) then
         && Timestamps.EndedByDeadline(next.record) && RecordAdvances(was.record, next.record)
         && next.awaiters == {} && next.subscribers == {} && d !in s'.pTimers
       else
         && next.record == was.record && next.subscribers == was.subscribers
         && next.awaiters == (set t | t in was.awaiters && !Expires(s, now, t))
         && (d in s'.pTimers <==> d in s.pTimers) && (d in s.pTimers ==> s'.pTimers[d] == s.pTimers[d])
  }

  lemma RearmLeavesPromises(s: Server, leases: map<Id, int>, retries: set<Id>, now: int)
    ensures var m := Expiry.Rearm(s, leases, retries, now);
            m.promises == s.promises && m.pTimers == s.pTimers && m.tasks.Keys == s.tasks.Keys
  {
  }

  lemma StillAwaiting(s: Server, now: int, d: Id)
    requires Inv(s) && d in s.promises
    ensures s.promises[d].awaiters - DuePromises(s, now) == set t | t in s.promises[d].awaiters && !Expires(s, now, t)
  {
    forall t ensures t in DuePromises(s, now) <==> Expires(s, now, t) { DueIsExpiring(s, now, t); }
  }

  lemma PromiseAfterSettling(s: Server, now: int, d: Id)
    requires Inv(s) && d in s.promises
    ensures var m := Settle(s, DueOutcomes(s, now), now);
            && m.promises.Keys == s.promises.Keys && m.tasks.Keys == s.tasks.Keys
            && m.promises[d] == PromiseAfter(s, DueOutcomes(s, now), d)
            && m.pTimers == s.pTimers - DuePromises(s, now)
  {
    DueIsProper(s, now);
    SettleIs(s, DueOutcomes(s, now), now);
  }

  /** What a tick does to each promise; it adds none, and no task. */
  lemma TickIsExactForPromises(s: Server, now: int, d: Id)
    requires Inv(s) && d in s.promises
    ensures TickedPromise(s, Tick(s, now), now, d)
    ensures Tick(s, now).promises.Keys == s.promises.Keys && Tick(s, now).tasks.Keys == s.tasks.Keys
  {
    PromiseAfterSettling(s, now, d);
    RearmLeavesPromises(Settle(s, DueOutcomes(s, now), now), ExpiredLeases(s, now), DueRetries(s, now), now);
    DueIsExpiring(s, now, d);
    StillAwaiting(s, now, d);
    if Expires(s, now, d) { TickEndsPromise(s, now, d); }
  }

  lemma TickEndsPromise(s: Server, now: int, d: Id)
    requires Inv(s) && Expires(s, now, d)
    ensures d in Tick(s, now).promises && Timestamps.EndedByDeadline(Tick(s, now).promises[d].record)
  {
    DueIsProper(s, now);
    DueIsExpiring(s, now, d);
    SettledPromiseIs(s, DueOutcomes(s, now), now, d);
    Timestamps.TickEnds(s, now, d);
  }
}

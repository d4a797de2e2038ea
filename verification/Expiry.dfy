/**
 Expiry by the clock.

 Promises past their deadline are settled lazily, when a request touches them,
 or by the scheduler's tick.  Here: settling in two batches agrees with
 settling in one; hence lazy expiry followed by a tick agrees with the tick
 alone; and a tick leaves nothing due.
 */
module Expiry {
  import opened Protocol
  import opened Settlement
  import opened Requests
  import opened Invariant

  /** Equal but for the version of fulfilled tasks (and the outgoing buffer). */
  predicate SameTask(a: Task, b: Task) {
    a == b || (a.state.Fulfilled? && b == a.(version := b.version))
  }

  ghost predicate SameServer(a: Server, b: Server) {
    && a.promises == b.promises
    && a.pTimers == b.pTimers
    && a.tTimers == b.tTimers
    && a.tasks.Keys == b.tasks.Keys
    && (forall t | t in a.tasks :: SameTask(a.tasks[t], b.tasks[t]))
  }

  // ---------------------------------------------------------------------
  //  Two batches or one
  // ---------------------------------------------------------------------

  lemma LaterStaysProper(s: Server, first: map<Id, Outcome>, second: map<Id, Outcome>, now: int)
    requires Inv(s) && Proper(s, first) && Proper(s, second) && first.Keys !! second.Keys
    ensures Inv(Settle(s, first, now)) && Proper(Settle(s, first, now), second)
  {
    SettleKeepsInv(s, first, now);
    forall id | id in second
      ensures Settle(s, first, now).PendingPromise(id)
    {
      SettledPromiseIs(s, first, now, id);
    }
  }

  lemma PromiseTwice(s: Server, first: map<Id, Outcome>, second: map<Id, Outcome>, m: Server, now: int, p: Id)
    requires first.Keys !! second.Keys && SettlesTo(s, first, now, m) && p in s.promises
    requires p in first ==> !first[p].state.Pending?
    ensures PromiseAfter(m, second, p) == PromiseAfter(s, first + second, p)
  {
    assert m.promises[p] == PromiseAfter(s, first, p);
    var a := s.promises[p].awaiters;
    assert a - first.Keys - second.Keys == a - (first + second).Keys;
  }

  lemma WokenByTwice(s: Server, first: map<Id, Outcome>, second: map<Id, Outcome>, m: Server, now: int, t: Id)
    requires first.Keys !! second.Keys && SettlesTo(s, first, now, m) && t !in first
    ensures WokenBy(s, (first + second).Keys, t) == WokenBy(s, first.Keys, t) + WokenBy(m, second.Keys, t)
  {
    forall d | d in second && d in s.promises ensures m.Awaits(t, d) <==> s.Awaits(t, d)
    {
      assert m.promises[d] == PromiseAfter(s, first, d);
    }
  }

  lemma TaskTwice(s: Server, first: map<Id, Outcome>, second: map<Id, Outcome>, m: Server, now: int, t: Id)
    requires first.Keys !! second.Keys && SettlesTo(s, first, now, m) && t in s.tasks
    requires t in first ==> WokenBy(m, second.Keys, t) == {}
    ensures SameTask(TaskAfter(m, second.Keys, t), TaskAfter(s, (first + second).Keys, t))
    ensures t !in second ==> TaskAfter(m, second.Keys, t) == TaskAfter(s, (first + second).Keys, t)
  {
    assert m.tasks[t] == TaskAfter(s, first.Keys, t);
    if t !in first {
      WokenByTwice(s, first, second, m, now, t);
      ResumedTwice(s.tasks[t], WokenBy(s, first.Keys, t), WokenBy(m, second.Keys, t));
    }
  }

  lemma FulfilledAwaitNothing(m: Server, ids: set<Id>, t: Id)
    requires Inv(m) && m.TaskIs(t, Fulfilled)
    ensures WokenBy(m, ids, t) == {}
  {
    forall d | d in ids ensures d !in WokenBy(m, ids, t)
    {
      assert Ok(m, d);
    }
  }

  lemma TimersTwice(s: Server, first: map<Id, Outcome>, second: map<Id, Outcome>, m: Server, now: int, t: Id)
    requires first.Keys !! second.Keys && SettlesTo(s, first, now, m)
    requires Ok(s, t)
    ensures Wakes(s, (first + second).Keys, t) <==>
              t !in second && (Wakes(s, first.Keys, t) || Wakes(m, second.Keys, t))
    ensures Wakes(s, first.Keys, t) ==> !Wakes(m, second.Keys, t)
  {
    if t in s.tasks {
      assert m.tasks[t] == TaskAfter(s, first.Keys, t);
    }
    if t !in first {
      WokenByTwice(s, first, second, m, now, t);
    }
  }

  /** One promise settling after another leaves what both settling together
      would have left, up to the versions of tasks that ended on the way. */
  lemma SettleInTwoBatches(s: Server, first: map<Id, Outcome>, second: map<Id, Outcome>, now: int)
    requires Inv(s) && Proper(s, first) && Proper(s, second) && first.Keys !! second.Keys
    ensures SameServer(Settle(Settle(s, first, now), second, now), Settle(s, first + second, now))
  {
    var m := Settle(s, first, now);
    LaterStaysProper(s, first, second, now);
    SettleIs(s, first, now);
    SettleIs(m, second, now);
    SettleIs(s, first + second, now);
    SameAfterTwoBatches(s, first, second, m, Settle(m, second, now), Settle(s, first + second, now), now);
  }

  lemma SameTasksAfterTwo(s: Server, first: map<Id, Outcome>, second: map<Id, Outcome>, m: Server, l: Server, r: Server, now: int)
    requires Inv(m) && first.Keys !! second.Keys
    requires SettlesTo(s, first, now, m) && SettlesTo(m, second, now, l) && SettlesTo(s, first + second, now, r)
    ensures forall t | t in l.tasks :: SameTask(l.tasks[t], r.tasks[t])
  {
    forall t | t in l.tasks ensures SameTask(l.tasks[t], r.tasks[t])
    {
      assert l.tasks[t] == TaskAfter(m, second.Keys, t) && r.tasks[t] == TaskAfter(s, (first + second).Keys, t);
      if t in first {
        assert m.tasks[t] == TaskAfter(s, first.Keys, t);
        FulfilledAwaitNothing(m, second.Keys, t);
      }
      TaskTwice(s, first, second, m, now, t);
    }
  }

  lemma SamePromisesAfterTwo(s: Server, first: map<Id, Outcome>, second: map<Id, Outcome>, m: Server, l: Server, r: Server, now: int)
    requires Proper(s, first) && first.Keys !! second.Keys
    requires SettlesTo(s, first, now, m) && SettlesTo(m, second, now, l) && SettlesTo(s, first + second, now, r)
    ensures l.promises == r.promises
  {
    forall p | p in s.promises ensures l.promises[p] == r.promises[p]
    {
      assert l.promises[p] == PromiseAfter(m, second, p) && r.promises[p] == PromiseAfter(s, first + second, p);
      PromiseTwice(s, first, second, m, now, p);
    }
  }

  lemma SameTimerAfterTwo(s: Server, first: map<Id, Outcome>, second: map<Id, Outcome>, m: Server, l: Server, r: Server, now: int, t: Id)
    requires Ok(s, t) && first.Keys !! second.Keys
    requires SettlesTo(s, first, now, m) && SettlesTo(m, second, now, l) && SettlesTo(s, first + second, now, r)
    ensures t in l.tTimers <==> t in r.tTimers
    ensures t in l.tTimers ==> l.tTimers[t] == r.tTimers[t]
  {
    TimersTwice(s, first, second, m, now, t);
  }

  lemma SameTimersAfterTwo(s: Server, first: map<Id, Outcome>, second: map<Id, Outcome>, m: Server, l: Server, r: Server, now: int)
    requires Inv(s) && first.Keys !! second.Keys
    requires SettlesTo(s, first, now, m) && SettlesTo(m, second, now, l) && SettlesTo(s, first + second, now, r)
    ensures l.tTimers == r.tTimers
  {
    forall t ensures (t in l.tTimers <==> t in r.tTimers) && (t in l.tTimers ==> l.tTimers[t] == r.tTimers[t])
    {
      assert Ok(s, t);
      SameTimerAfterTwo(s, first, second, m, l, r, now, t);
    }
  }

  lemma SameAfterTwoBatches(s: Server, first: map<Id, Outcome>, second: map<Id, Outcome>, m: Server, l: Server, r: Server, now: int)
    requires Inv(s) && Inv(m) && Proper(s, first) && first.Keys !! second.Keys
    requires SettlesTo(s, first, now, m) && SettlesTo(m, second, now, l) && SettlesTo(s, first + second, now, r)
    ensures SameServer(l, r)
  {
    SamePromisesAfterTwo(s, first, second, m, l, r, now);
    SameTasksAfterTwo(s, first, second, m, l, r, now);
    SameTimersAfterTwo(s, first, second, m, l, r, now);
    SameKeysAfterTwo(s, first, second, m, l, r, now);
  }

  lemma WithoutBoth(m: map<Id, int>, a: set<Id>, b: set<Id>)
    ensures m - a - b == m - (a + b)
  {
  }

  lemma SameKeysAfterTwo(s: Server, first: map<Id, Outcome>, second: map<Id, Outcome>, m: Server, l: Server, r: Server, now: int)
    requires SettlesTo(s, first, now, m) && SettlesTo(m, second, now, l) && SettlesTo(s, first + second, now, r)
    ensures l.tasks.Keys == r.tasks.Keys && l.pTimers == r.pTimers
  {
    WithoutBoth(s.pTimers, first.Keys, second.Keys);
    assert (first + second).Keys == first.Keys + second.Keys;
  }

  // ---------------------------------------------------------------------
  //  Lazy expiry and the tick
  // ---------------------------------------------------------------------

  lemma DueAtAfterLazy(s: Server, now: int, id: Id, o: map<Id, Outcome>, a: Server, p: Id)
    requires id in DuePromises(s, now) && o.Keys == {id}
    requires SettlesTo(s, o, now, a) && !o[id].state.Pending?
    ensures p in DuePromises(a, now) <==> p != id && p in DuePromises(s, now)
    ensures p != id && p in s.promises ==> p in a.promises && a.promises[p].record == s.promises[p].record
  {
    if p in s.promises { assert a.promises[p] == PromiseAfter(s, o, p); }
  }

  lemma DueSetAfterLazy(s: Server, now: int, id: Id, o: map<Id, Outcome>, a: Server)
    requires id in DuePromises(s, now) && o.Keys == {id}
    requires SettlesTo(s, o, now, a) && !o[id].state.Pending?
    ensures DuePromises(s, now) == {id} + DuePromises(a, now) && id !in DuePromises(a, now)
    ensures forall p | p in DuePromises(a, now) :: a.promises[p].record == s.promises[p].record
  {
    forall p
      ensures p in DuePromises(a, now) <==> p != id && p in DuePromises(s, now)
      ensures p in DuePromises(a, now) ==> a.promises[p].record == s.promises[p].record
    {
      DueAtAfterLazy(s, now, id, o, a, p);
    }
  }

  lemma OutcomesSplit(s: Server, a: Server, now: int, id: Id)
    requires id in DuePromises(s, now)
    requires DuePromises(s, now) == {id} + DuePromises(a, now) && id !in DuePromises(a, now)
    requires forall p | p in DuePromises(a, now) :: a.promises[p].record == s.promises[p].record
    ensures DueOutcomes(s, now) == map[id := DueOutcome(s.promises[id].record)] + DueOutcomes(a, now)
  {
  }

  lemma DueAfterLazy(s: Server, now: int, id: Id, o: map<Id, Outcome>, a: Server)
    requires Ok(s, id) && id in DuePromises(s, now) && o == map[id := LazyOutcome(s.promises[id].record)]
    requires SettlesTo(s, o, now, a)
    ensures DueOutcomes(s, now) == o + DueOutcomes(a, now)
    ensures id !in DueOutcomes(a, now)
  {
    assert LazyOutcome(s.promises[id].record) == DueOutcome(s.promises[id].record);
    DueSetAfterLazy(s, now, id, o, a);
    OutcomesSplit(s, a, now, id);
  }

  /** What is due for task `t` after the lazy expiry of promise `id` is what
      was due before, but for the task of `id` itself. */
  predicate SameDue(s: Server, a: Server, now: int, id: Id, t: Id) {
    && (t in ExpiredLeases(a, now) <==> t != id && t in ExpiredLeases(s, now))
    && (t in ExpiredLeases(a, now) ==> ExpiredLeases(a, now)[t] == ExpiredLeases(s, now)[t])
    && (t in DueRetries(a, now) <==> t != id && t in DueRetries(s, now))
  }

  lemma DueTasksAfterLazy(s: Server, now: int, id: Id, o: map<Id, Outcome>, a: Server, t: Id)
    requires Ok(s, t) && o.Keys == {id} && SettlesTo(s, o, now, a)
    ensures SameDue(s, a, now, id, t)
  {
    if t in s.tasks {
      assert a.tasks[t] == TaskAfter(s, o.Keys, t);
    }
  }

  /** Releases and retries read only what the two servers share. */
  lemma SameRelease(a: Server, b: Server, va: map<Id, int>, vb: map<Id, int>, now: int)
    requires SameServer(a, b)
    requires forall t | a.TaskIs(t, Acquired) :: (t in va <==> t in vb) && (t in va ==> va[t] == vb[t])
    ensures SameServer(Release(a, va, now), Release(b, vb, now))
  {
    assert Standing(a, va) == Standing(b, vb);
  }

  lemma SameRetry(a: Server, b: Server, ra: set<Id>, rb: set<Id>, now: int)
    requires SameServer(a, b)
    requires forall t | a.TaskIs(t, TaskState.Pending) :: t in ra <==> t in rb
    ensures SameServer(RetryAll(a, ra, now), RetryAll(b, rb, now))
  {
    assert StillPending(a, ra) == StillPending(b, rb);
  }

  lemma DuePromiseEndsItsTask(s: Server, now: int, id: Id, o: map<Id, Outcome>, r: Server)
    requires id in o && SettlesTo(s, o, now, r)
    ensures !r.TaskIs(id, Acquired) && !r.TaskIs(id, TaskState.Pending)
  {
    if id in s.tasks { assert r.tasks[id] == TaskAfter(s, o.Keys, id); }
  }

  /** Phases 4 and 5, from two servers that agree. */
  function Rearm(s: Server, leases: map<Id, int>, retries: set<Id>, now: int): Server {
    RetryAll(Release(s, leases, now), retries, now)
  }

  lemma SameRearm(s: Server, a: Server, now: int, id: Id, l: Server, r: Server)
    requires SameServer(l, r) && forall t :: SameDue(s, a, now, id, t)
    requires !r.TaskIs(id, Acquired) && !r.TaskIs(id, TaskState.Pending)
    ensures SameServer(Rearm(l, ExpiredLeases(a, now), DueRetries(a, now), now),
                       Rearm(r, ExpiredLeases(s, now), DueRetries(s, now), now))
  {
    var la, ls := ExpiredLeases(a, now), ExpiredLeases(s, now);
    forall t | l.TaskIs(t, Acquired) ensures (t in la <==> t in ls) && (t in la ==> la[t] == ls[t])
    {
      assert SameDue(s, a, now, id, t) && SameTask(l.tasks[t], r.tasks[t]);
    }
    SameRelease(l, r, la, ls, now);
    var l2, r2 := Release(l, la, now), Release(r, ls, now);
    assert !r2.TaskIs(id, TaskState.Pending);
    RetriesAgree(s, a, now, id, l2, r2);
  }

  lemma RetriesAgree(s: Server, a: Server, now: int, id: Id, l: Server, r: Server)
    requires SameServer(l, r) && forall t :: SameDue(s, a, now, id, t)
    requires !r.TaskIs(id, TaskState.Pending)
    ensures SameServer(RetryAll(l, DueRetries(a, now), now), RetryAll(r, DueRetries(s, now), now))
  {
    forall t | l.TaskIs(t, TaskState.Pending) ensures t in DueRetries(a, now) <==> t in DueRetries(s, now)
    {
      assert SameDue(s, a, now, id, t) && SameTask(l.tasks[t], r.tasks[t]);
    }
    SameRetry(l, r, DueRetries(a, now), DueRetries(s, now), now);
  }

  lemma LazyThenTick(s: Server, now: int, id: Id, o: map<Id, Outcome>, a: Server, l: Server, r: Server)
    requires Inv(s) && id in DuePromises(s, now) && o == map[id := LazyOutcome(s.promises[id].record)]
    requires SettlesTo(s, o, now, a) && SettlesTo(s, DueOutcomes(s, now), now, r) && SameServer(l, r)
    ensures SameServer(Rearm(l, ExpiredLeases(a, now), DueRetries(a, now), now),
                       Rearm(r, ExpiredLeases(s, now), DueRetries(s, now), now))
  {
    DuePromiseEndsItsTask(s, now, id, DueOutcomes(s, now), r);
    forall t ensures SameDue(s, a, now, id, t)
    {
      assert Ok(s, t);
      DueTasksAfterLazy(s, now, id, o, a, t);
    }
    SameRearm(s, a, now, id, l, r);
  }

  /** Lazy expiry agrees with the scheduler: expiring a due promise when a
      request touches it and ticking afterwards leaves the same promises, the
      same timers and the same unfinished tasks as the tick alone; only the
      version of a task fulfilled on the way may differ. */
  lemma LazyExpiryAgreesWithTick(s: Server, now: int, id: Id)
    requires Inv(s) && id in DuePromises(s, now)
    ensures SameServer(Tick(AutoTimeout(s, now, id), now), Tick(s, now))
  {
    assert Ok(s, id);
    var o := map[id := LazyOutcome(s.promises[id].record)];
    var a := AutoTimeout(s, now, id);
    SettleIs(s, o, now);
    DueAfterLazy(s, now, id, o, a);
    DueIsProper(s, now);
    SettleIs(s, DueOutcomes(s, now), now);
    SettleInTwoBatches(s, o, DueOutcomes(a, now), now);
    LazyThenTick(s, now, id, o, a, Settle(a, DueOutcomes(a, now), now), Settle(s, DueOutcomes(s, now), now));
  }

  // ---------------------------------------------------------------------
  //  A tick is complete
  // ---------------------------------------------------------------------

  /** Every timer left by settling is fresh, or the task is as it was. */
  predicate FreshOrAsBefore(s: Server, s1: Server, now: int, t: Id) {
    t in s1.tTimers ==>
      && t in s1.tasks
      && (s1.tTimers[t].at == now + PENDING_RETRY_TTL
          || (t in s.tTimers && s1.tTimers[t] == s.tTimers[t] && t in s.tasks
              && s1.tasks[t].state == s.tasks[t].state && s1.tasks[t].version == s.tasks[t].version))
  }

  lemma TimerAfterSettling(s: Server, o: map<Id, Outcome>, now: int, s1: Server, t: Id)
    requires Ok(s, t) && SettlesTo(s, o, now, s1)
    ensures FreshOrAsBefore(s, s1, now, t)
  {
    if t in s.tasks { assert s1.tasks[t] == TaskAfter(s, o.Keys, t); }
  }

  lemma TimerAfterRearm(s: Server, s1: Server, now: int, t: Id)
    requires Ok(s, t) && FreshOrAsBefore(s, s1, now, t)
    ensures var s' := Rearm(s1, ExpiredLeases(s, now), DueRetries(s, now), now);
            t in s'.tTimers ==> now < s'.tTimers[t].at
  {
  }

  lemma PromiseTimerAfter(s: Server, now: int, s1: Server, id: Id)
    requires Ok(s, id) && s1.pTimers == s.pTimers - DuePromises(s, now)
    ensures id in s1.pTimers ==> now < s1.pTimers[id]
  {
  }

  /** After a tick no timer of either kind is due: no targeted promise is
      overdue, no acquired task holds an expired lease, and no pending task is
      waiting for a retry that should have happened. */
  lemma TickLeavesNothingDue(s: Server, now: int, id: Id)
    requires Inv(s)
    ensures id in Tick(s, now).pTimers ==> now < Tick(s, now).pTimers[id]
    ensures id in Tick(s, now).tTimers ==> now < Tick(s, now).tTimers[id].at
    ensures Tick(s, now).PendingPromise(id) && Tick(s, now).promises[id].record.Targeted() ==>
              now < Tick(s, now).promises[id].record.timeoutAt
    ensures Tick(s, now).TaskIs(id, Acquired) ==> id in Tick(s, now).tTimers
  {
    TickKeepsInv(s, now);
    assert Ok(Tick(s, now), id);
    var o := DueOutcomes(s, now);
    DueIsProper(s, now);
    SettleIs(s, o, now);
    assert Ok(s, id);
    TimerAfterSettling(s, o, now, Settle(s, o, now), id);
    TimerAfterRearm(s, Settle(s, o, now), now, id);
    PromiseTimerAfter(s, now, Settle(s, o, now), id);
  }

  predicate NothingDueAt(s: Server, now: int, id: Id) {
    && (id in s.pTimers ==> now < s.pTimers[id])
    && (id in s.tTimers ==> now < s.tTimers[id].at)
  }

  /** Ticking again at the same time finds nothing to do. */
  lemma NothingDueTwice(s': Server, now: int)
    requires forall id :: NothingDueAt(s', now, id)
    ensures DuePromises(s', now) == {} && ExpiredLeases(s', now) == map[] && DueRetries(s', now) == {}
  {
    forall id ensures id !in DuePromises(s', now) && id !in ExpiredLeases(s', now) && id !in DueRetries(s', now)
    {
      assert NothingDueAt(s', now, id);
    }
  }

  lemma TickTwice(s: Server, now: int)
    requires Inv(s)
    ensures DuePromises(Tick(s, now), now) == {}
    ensures ExpiredLeases(Tick(s, now), now) == map[]
    ensures DueRetries(Tick(s, now), now) == {}
  {
    forall id ensures NothingDueAt(Tick(s, now), now, id)
    {
      TickLeavesNothingDue(s, now, id);
    }
    NothingDueTwice(Tick(s, now), now);
  }

  lemma RetrySent(s: Server, s1: Server, now: int, t: Id)
    requires t in DueRetries(s, now) && TargetOf(s1, t).Some?
    requires s1.TaskIs(t, TaskState.Pending)
    ensures var s' := Rearm(s1, ExpiredLeases(s, now), DueRetries(s, now), now);
            && t in s'.executes && s'.executes[t] == Execute(TargetOf(s1, t).value, s1.tasks[t].version)
            && s'.TaskIs(t, TaskState.Pending) && s'.tasks[t].version == s1.tasks[t].version
  {
    var s2 := Release(s1, ExpiredLeases(s, now), now);
    assert t in StillPending(s2, DueRetries(s, now));
  }

  /** Every targeted task whose retry was due and whose own promise was not is
      dispatched again, under its current version. */
  lemma DueRetriesAreSent(s: Server, now: int, t: Id)
    requires Inv(s) && t in DueRetries(s, now) && t !in DuePromises(s, now) && TargetOf(s, t).Some?
    ensures t in Tick(s, now).executes
    ensures Tick(s, now).executes[t] == Execute(TargetOf(s, t).value, s.tasks[t].version)
    ensures Tick(s, now).TaskIs(t, TaskState.Pending) && Tick(s, now).tasks[t].version == s.tasks[t].version
  {
    var o := DueOutcomes(s, now);
    DueIsProper(s, now);
    SettledTaskIs(s, o, now, t);
    SettledPromiseIs(s, o, now, t);
    RetrySent(s, Settle(s, o, now), now, t);
  }
}

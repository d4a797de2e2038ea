/**
 Settling promises, and what follows from it.

 `promise_settle`, `task_fulfill`, `try_auto_timeout`, the already-expired
 branch of `promise_create` and phases 1 to 3 of `tick` all do the same three
 things in the same order: mark the promises settled, fulfil the tasks they
 own, then wake the awaiters and tell the subscribers.  Here each of the three
 is defined once, for a whole batch of ids at a time and entry by entry, so no
 order of ids, awaiters or subscribers is mentioned.  The `...Step` lemmas say
 that taking a batch one id at a time comes to the same thing, which is what
 lets the loops of `ServerState.dfy` refine these functions.
 */
module Settlement {
  import opened Protocol

  /** How a promise ends. */
  datatype Outcome = Outcome(state: PromiseState, value: Json, at: int)

  // ---------------------------------------------------------------------
  //  Mark: write the outcomes, drop the promise timers
  // ---------------------------------------------------------------------

  function Marked(r: Record, o: Outcome): Record {
    r.(state := o.state, value := o.value, settledAt := Some(o.at))
  }

  function Mark(s: Server, outcomes: map<Id, Outcome>): Server {
    s.(promises := map id | id in s.promises ::
                     if id in outcomes then s.promises[id].(record := Marked(s.promises[id].record, outcomes[id]))
                     else s.promises[id],
       pTimers := s.pTimers - outcomes.Keys)
  }

  // ---------------------------------------------------------------------
  //  Fulfill: end the tasks the promises own
  // ---------------------------------------------------------------------

  const FULFILLED_TASK := Task(Fulfilled, 0, None, None, {})

  function Ended(t: Task): Task {
    if t.state.Fulfilled? then t else t.(state := Fulfilled, pid := None, ttl := None, resumes := {})
  }

  /** The ids of the batch whose task is there and not yet over. */
  function Ending(s: Server, ids: set<Id>): set<Id> {
    set id | id in ids && id in s.tasks && !s.tasks[id].state.Fulfilled?
  }

  /** The ids of the batch that carry a target but have no task yet. */
  function Taskless(s: Server, ids: set<Id>): set<Id> {
    set id | id in ids && id !in s.tasks && TargetOf(s, id).Some?
  }

  function Fulfill(s: Server, ids: set<Id>): Server {
    s.(tasks := map t | t in s.tasks.Keys + Taskless(s, ids) ::
                  if t !in s.tasks then FULFILLED_TASK
                  else if t in ids then Ended(s.tasks[t])
                  else s.tasks[t],
       tTimers := s.tTimers - Ending(s, ids),
       promises := map p | p in s.promises ::
                     s.promises[p].(awaiters := s.promises[p].awaiters - Ending(s, ids)))
  }

  // ---------------------------------------------------------------------
  //  Wake: resume the awaiters
  // ---------------------------------------------------------------------

  /** The promises of the batch that task `t` awaits. */
  function WokenBy(s: Server, ids: set<Id>, t: Id): set<Id> {
    set d | d in ids && d in s.promises && t in s.promises[d].awaiters
  }

  function Resumed(t: Task, cause: set<Id>): Task {
    if cause == {} then t
    else match t.state
      case Suspended => t.(state := TaskState.Pending, version := t.version + 1, resumes := cause)
      case Fulfilled => t
      case _ => t.(resumes := t.resumes + cause)
  }

  /** The suspended tasks the batch wakes up. */
  function Woken(s: Server, ids: set<Id>): set<Id> {
    set t | t in s.tasks && s.tasks[t].state.Suspended? && WokenBy(s, ids, t) != {}
  }

  /** The execute message of each woken task that has an address. */
  function Calls(s: Server, woken: set<Id>): map<Id, Execute>
    requires woken <= s.tasks.Keys
  {
    map t | t in woken && TargetOf(s, t).Some? :: Execute(TargetOf(s, t).value, s.tasks[t].version + 1)
  }

  function Wake(s: Server, ids: set<Id>, now: int): Server {
    s.(tasks := map t | t in s.tasks :: Resumed(s.tasks[t], WokenBy(s, ids, t)),
       tTimers := map t | t in s.tTimers.Keys + Woken(s, ids) ::
                    if t in Woken(s, ids) then TaskTimer(Retry, now + PENDING_RETRY_TTL) else s.tTimers[t],
       executes := s.executes + Calls(s, Woken(s, ids)),
       promises := map d | d in s.promises ::
                     if d in ids then s.promises[d].(awaiters := {}) else s.promises[d])
  }

  // ---------------------------------------------------------------------
  //  Notify: tell the subscribers
  // ---------------------------------------------------------------------

  function Notices(s: Server, ids: set<Id>): set<Unblock> {
    set d, a | d in ids && d in s.promises && a in s.promises[d].subscribers ::
      Unblock(a, d, s.promises[d].record)
  }

  function Notify(s: Server, ids: set<Id>): Server {
    s.(unblocks := s.unblocks + multiset(Notices(s, ids)),
       promises := map d | d in s.promises ::
                     if d in ids then s.promises[d].(subscribers := {}) else s.promises[d])
  }

  function Announce(s: Server, ids: set<Id>, now: int): Server {
    Notify(Wake(s, ids, now), ids)
  }

  /** The whole consequence of a batch of promises settling together. */
  function Settle(s: Server, outcomes: map<Id, Outcome>, now: int): Server {
    Announce(Fulfill(Mark(s, outcomes), outcomes.Keys), outcomes.Keys, now)
  }

  // ---------------------------------------------------------------------
  //  A batch, one id at a time
  // ---------------------------------------------------------------------

  lemma MarkStep(s: Server, outcomes: map<Id, Outcome>, id: Id, o: Outcome)
    requires id !in outcomes
    ensures Mark(Mark(s, outcomes), map[id := o]) == Mark(s, outcomes[id := o])
  {
    var l, r := Mark(Mark(s, outcomes), map[id := o]), Mark(s, outcomes[id := o]);
    assert l.promises == r.promises;
    assert l.pTimers == r.pTimers;
  }

  lemma EndingStep(s: Server, ids: set<Id>, id: Id)
    ensures Ending(s, ids + {id}) == Ending(s, ids) + Ending(Fulfill(s, ids), {id})
  {
    var m := Fulfill(s, ids);
    forall x ensures x in Ending(s, ids + {id}) <==> x in Ending(s, ids) || x in Ending(m, {id})
    {
    }
  }

  lemma FulfillTasksStep(s: Server, ids: set<Id>, id: Id)
    ensures Fulfill(Fulfill(s, ids), {id}).tasks == Fulfill(s, ids + {id}).tasks
  {
    var m := Fulfill(s, ids);
    assert forall p :: TargetOf(m, p) == TargetOf(s, p);
    assert Taskless(s, ids + {id}) == Taskless(s, ids) + Taskless(m, {id});
  }

  lemma FulfillStep(s: Server, ids: set<Id>, id: Id)
    ensures Fulfill(Fulfill(s, ids), {id}) == Fulfill(s, ids + {id})
  {
    var m := Fulfill(s, ids);
    var e1, e2 := Ending(s, ids), Ending(m, {id});
    var l, r := Fulfill(m, {id}), Fulfill(s, ids + {id});
    FulfillTasksStep(s, ids, id);
    EndingStep(s, ids, id);
    assert l.tTimers == s.tTimers - e1 - e2 == s.tTimers - (e1 + e2);
    forall p | p in s.promises ensures l.promises[p] == r.promises[p]
    {
      var a := s.promises[p].awaiters;
      assert a - e1 - e2 == a - (e1 + e2);
    }
    assert l.promises == r.promises;
  }

  lemma WokenByStep(s: Server, ids: set<Id>, id: Id, now: int, t: Id)
    requires id !in ids
    ensures WokenBy(s, ids + {id}, t) == WokenBy(s, ids, t) + WokenBy(Announce(s, ids, now), {id}, t)
    ensures WokenBy(s, {id}, t) == WokenBy(Announce(s, ids, now), {id}, t)
  {
  }

  lemma WokenStep(s: Server, ids: set<Id>, id: Id, now: int)
    requires id !in ids
    ensures Woken(s, ids + {id}) == Woken(s, ids) + Woken(Announce(s, ids, now), {id})
    ensures Woken(s, ids) !! Woken(Announce(s, ids, now), {id})
  {
    var m := Announce(s, ids, now);
    forall t ensures t in Woken(s, ids + {id}) <==> t in Woken(s, ids) || t in Woken(m, {id})
    {
      WokenByStep(s, ids, id, now, t);
    }
  }

  lemma ResumedTwice(t: Task, a: set<Id>, b: set<Id>)
    ensures Resumed(Resumed(t, a), b) == Resumed(t, a + b)
  {
    if a == {} {
      assert a + b == b;
    } else if b == {} {
      assert a + b == a;
    } else {
      assert a + b != {};
      assert t.resumes + a + b == t.resumes + (a + b);
    }
  }

  lemma AnnounceTaskStep(s: Server, ids: set<Id>, id: Id, now: int, t: Id)
    requires id !in ids && t in s.tasks
    ensures Announce(Announce(s, ids, now), {id}, now).tasks[t] == Announce(s, ids + {id}, now).tasks[t]
  {
    var m := Announce(s, ids, now);
    WokenByStep(s, ids, id, now, t);
    ResumedTwice(s.tasks[t], WokenBy(s, ids, t), WokenBy(m, {id}, t));
    assert m.tasks[t] == Resumed(s.tasks[t], WokenBy(s, ids, t));
  }

  lemma AnnounceTasksStep(s: Server, ids: set<Id>, id: Id, now: int)
    requires id !in ids
    ensures Announce(Announce(s, ids, now), {id}, now).tasks == Announce(s, ids + {id}, now).tasks
  {
    var l, r := Announce(Announce(s, ids, now), {id}, now).tasks, Announce(s, ids + {id}, now).tasks;
    forall t | t in s.tasks ensures l[t] == r[t]
    {
      AnnounceTaskStep(s, ids, id, now, t);
    }
  }

  lemma AnnounceTimersStep(s: Server, ids: set<Id>, id: Id, now: int)
    requires id !in ids
    ensures Announce(Announce(s, ids, now), {id}, now).tTimers == Announce(s, ids + {id}, now).tTimers
  {
    WokenStep(s, ids, id, now);
  }

  lemma CallsUnion(s: Server, m: Server, a: set<Id>, b: set<Id>)
    requires a !! b && a + b <= s.tasks.Keys && b <= m.tasks.Keys
    requires forall t | t in b :: TargetOf(m, t) == TargetOf(s, t) && m.tasks[t].version == s.tasks[t].version
    ensures Calls(s, a + b) == Calls(s, a) + Calls(m, b)
  {
  }

  lemma WokenLater(s: Server, ids: set<Id>, id: Id, now: int, t: Id)
    requires id !in ids && t in Woken(Announce(s, ids, now), {id})
    ensures t in s.tasks && Announce(s, ids, now).tasks[t] == s.tasks[t]
    ensures TargetOf(Announce(s, ids, now), t) == TargetOf(s, t)
  {
    WokenStep(s, ids, id, now);
    assert t !in Woken(s, ids);
    assert Announce(s, ids, now).tasks[t] == Resumed(s.tasks[t], WokenBy(s, ids, t));
  }

  lemma MapSum<K, V>(a: map<K, V>, b: map<K, V>, c: map<K, V>)
    ensures a + b + c == a + (b + c)
  {
  }

  lemma CallsStep(s: Server, ids: set<Id>, id: Id, now: int, m: Server)
    requires id !in ids && m == Announce(s, ids, now)
    ensures Calls(s, Woken(s, ids + {id})) == Calls(s, Woken(s, ids)) + Calls(m, Woken(m, {id}))
  {
    var w1, w2 := Woken(s, ids), Woken(m, {id});
    WokenStep(s, ids, id, now);
    forall t | t in w2
      ensures t in s.tasks && m.tasks[t] == s.tasks[t] && TargetOf(m, t) == TargetOf(s, t)
    {
      WokenLater(s, ids, id, now, t);
    }
    CallsUnion(s, m, w1, w2);
  }

  lemma AnnounceExecutesStep(s: Server, ids: set<Id>, id: Id, now: int)
    requires id !in ids
    ensures Announce(Announce(s, ids, now), {id}, now).executes == Announce(s, ids + {id}, now).executes
  {
    var m := Announce(s, ids, now);
    CallsStep(s, ids, id, now, m);
    ExecutesAfter(s, ids, now);
    ExecutesAfter(m, {id}, now);
    ExecutesAfter(s, ids + {id}, now);
    MapSum(s.executes, Calls(s, Woken(s, ids)), Calls(m, Woken(m, {id})));
  }

  lemma ExecutesAfter(s: Server, ids: set<Id>, now: int)
    ensures Announce(s, ids, now).executes == s.executes + Calls(s, Woken(s, ids))
  {
  }

  lemma NoticesAfterWake(s: Server, ids: set<Id>, told: set<Id>, now: int)
    ensures Notices(Wake(s, ids, now), told) == Notices(s, told)
  {
    var w := Wake(s, ids, now);
    forall d | d in s.promises
      ensures w.promises[d].subscribers == s.promises[d].subscribers && w.promises[d].record == s.promises[d].record
    {
    }
  }

  lemma NoticesStep(s: Server, ids: set<Id>, id: Id, now: int)
    requires id !in ids
    ensures Notices(s, ids + {id}) == Notices(s, ids) + Notices(Announce(s, ids, now), {id})
    ensures Notices(s, ids) !! Notices(Announce(s, ids, now), {id})
  {
    var m := Announce(s, ids, now);
    assert id in s.promises ==> m.promises[id].subscribers == s.promises[id].subscribers;
    assert id in s.promises ==> m.promises[id].record == s.promises[id].record;
  }

  lemma AnnounceUnblocksStep(s: Server, ids: set<Id>, id: Id, now: int)
    requires id !in ids
    ensures Announce(Announce(s, ids, now), {id}, now).unblocks == Announce(s, ids + {id}, now).unblocks
  {
    var m := Announce(s, ids, now);
    NoticesAfterWake(s, ids, ids, now);
    NoticesAfterWake(m, {id}, {id}, now);
    NoticesAfterWake(s, ids + {id}, ids + {id}, now);
    NoticesStep(s, ids, id, now);
    var a, b := Notices(s, ids), Notices(m, {id});
    assert multiset(a + b) == multiset(a) + multiset(b);
  }

  lemma AnnounceStep(s: Server, ids: set<Id>, id: Id, now: int)
    requires id !in ids
    ensures Announce(Announce(s, ids, now), {id}, now) == Announce(s, ids + {id}, now)
  {
    AnnounceTasksStep(s, ids, id, now);
    AnnounceTimersStep(s, ids, id, now);
    AnnounceExecutesStep(s, ids, id, now);
    AnnounceUnblocksStep(s, ids, id, now);
    assert Announce(Announce(s, ids, now), {id}, now).promises == Announce(s, ids + {id}, now).promises;
  }

  // ---------------------------------------------------------------------
  //  Nothing to do
  // ---------------------------------------------------------------------

  lemma NothingEnding(s: Server, ids: set<Id>)
    requires Ending(s, ids) == {}
    ensures Fulfill(s, ids).promises == s.promises && Fulfill(s, ids).tTimers == s.tTimers
  {
    forall p | p in s.promises ensures Fulfill(s, ids).promises[p] == s.promises[p]
    {
      assert s.promises[p].awaiters - {} == s.promises[p].awaiters;
    }
  }

  lemma WakeNobody(s: Server, ids: set<Id>, now: int)
    requires forall p | p in ids && p in s.promises :: s.promises[p].awaiters == {}
    ensures Wake(s, ids, now) == s
  {
    forall t ensures WokenBy(s, ids, t) == {} {}
    assert Woken(s, ids) == {};
    var w := Wake(s, ids, now);
    assert w.promises == s.promises;
    assert w.tasks == s.tasks;
    assert w.tTimers == s.tTimers;
    assert w.executes == s.executes;
  }

  /** Announcing promises nobody awaits or subscribes to changes nothing. */
  lemma AnnounceNothing(s: Server, ids: set<Id>, now: int)
    requires forall p | p in ids && p in s.promises :: s.promises[p].awaiters == {} && s.promises[p].subscribers == {}
    ensures Announce(s, ids, now) == s
  {
    WakeNobody(s, ids, now);
    assert Notices(s, ids) == {};
    var n := Notify(s, ids);
    assert n.promises == s.promises;
    assert n.unblocks == s.unblocks;
  }
}

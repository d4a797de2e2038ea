/**
 `ServerState` as the source keeps it: hash maps of promises and tasks, two
 timer vectors and an outgoing buffer, all updated in place.

 Every method is proved to do to `View()`, the abstract server these fields
 stand for, exactly what the function of `Requests.dfy` with its name says.
 Hash sets and maps are walked in an order the program does not choose
 (`:|`), so the equations hold for every such order and for every order of the
 timer vectors.
 */
module ServerStates {
  import opened Protocol
  import opened Settlement
  import opened Requests

  // ---------------------------------------------------------------------
  //  Vectors keyed by id
  // ---------------------------------------------------------------------

  datatype Entry<V> = Entry(id: Id, what: V)

  ghost predicate Distinct<V>(es: seq<Entry<V>>) {
    forall i, j | 0 <= i < j < |es| :: es[i].id != es[j].id
  }

  ghost function AsMap<V>(es: seq<Entry<V>>): map<Id, V> {
    if es == [] then map[] else AsMap(es[..|es| - 1])[es[|es| - 1].id := es[|es| - 1].what]
  }

  lemma AsMapAppend<V>(es: seq<Entry<V>>, e: Entry<V>)
    ensures AsMap(es + [e]) == AsMap(es)[e.id := e.what]
  {
    assert (es + [e])[..|es|] == es;
  }

  lemma {:induction false} NotInMap<V>(es: seq<Entry<V>>, id: Id)
    requires forall i | 0 <= i < |es| :: es[i].id != id
    ensures id !in AsMap(es)
  {
    if es != [] {
      NotInMap(es[..|es| - 1], id);
    }
  }

  lemma {:induction false} AsMapReplace<V>(es: seq<Entry<V>>, at: nat, what: V)
    requires Distinct(es) && at < |es|
    ensures AsMap(es[at := Entry(es[at].id, what)]) == AsMap(es)[es[at].id := what]
  {
    var n := |es| - 1;
    var id := es[at].id;
    if at < n {
      AsMapReplace(es[..n], at, what);
      assert es[at := Entry(id, what)][..n] == es[..n][at := Entry(id, what)];
      assert es[n].id != id;
    } else {
      assert es[at := Entry(id, what)][..n] == es[..n];
    }
  }

  /** The position of the entry for `id`, or -1. */
  method Find<V>(es: seq<Entry<V>>, id: Id) returns (at: int)
    ensures -1 <= at < |es|
    ensures at >= 0 ==> es[at].id == id
    ensures at < 0 ==> forall i | 0 <= i < |es| :: es[i].id != id
  {
    at := 0;
    while at < |es|
      invariant 0 <= at <= |es|
      invariant forall i | 0 <= i < at :: es[i].id != id
    {
      if es[at].id == id { return; }
      at := at + 1;
    }
    at := -1;
  }

  ghost function Kept<V>(es: seq<Entry<V>>, id: Id): seq<Entry<V>> {
    if es == [] then []
    else
      var last := es[|es| - 1];
      Kept(es[..|es| - 1], id) + if last.id == id then [] else [last]
  }

  lemma {:induction false} KeptIsDistinct<V>(es: seq<Entry<V>>, id: Id)
    requires Distinct(es)
    ensures Distinct(Kept(es, id))
    ensures forall e | e in Kept(es, id) :: e in es
  {
    if es != [] {
      var n := |es| - 1;
      KeptIsDistinct(es[..n], id);
      forall e | e in Kept(es[..n], id) ensures e.id != es[n].id
      {
        assert e in es[..n];
      }
    }
  }

  lemma {:induction false} KeptAsMap<V>(es: seq<Entry<V>>, id: Id)
    ensures AsMap(Kept(es, id)) == AsMap(es) - {id}
  {
    if es != [] {
      var n := |es| - 1;
      KeptAsMap(es[..n], id);
      var m := AsMap(es[..n]);
      if es[n].id != id {
        AsMapAppend(Kept(es[..n], id), es[n]);
        assert m[es[n].id := es[n].what] - {id} == (m - {id})[es[n].id := es[n].what];
      } else {
        assert m[id := es[n].what] - {id} == m - {id};
        assert Kept(es, id) == Kept(es[..n], id);
      }
    }
  }

  /** `Vec::retain` of every entry but the one for `id`. */
  method Without<V>(es: seq<Entry<V>>, id: Id) returns (r: seq<Entry<V>>)
    requires Distinct(es)
    ensures Distinct(r)
    ensures AsMap(r) == AsMap(es) - {id}
  {
    r := [];
    for k := 0 to |es|
      invariant r == Kept(es[..k], id)
    {
      assert es[..k + 1][..k] == es[..k];
      if es[k].id != id {
        r := r + [es[k]];
      }
    }
    assert es[..|es|] == es;
    KeptIsDistinct(es, id);
    KeptAsMap(es, id);
  }

  /** Overwrite the entry for `id`, or append one. */
  method Upsert<V>(es: seq<Entry<V>>, id: Id, what: V) returns (r: seq<Entry<V>>)
    requires Distinct(es)
    ensures Distinct(r)
    ensures AsMap(r) == AsMap(es)[id := what]
  {
    var at := Find(es, id);
    if at >= 0 {
      AsMapReplace(es, at, what);
      r := es[at := Entry(id, what)];
    } else {
      AsMapAppend(es, Entry(id, what));
      r := es + [Entry(id, what)];
    }
  }

  // ---------------------------------------------------------------------
  //  The outgoing buffer
  // ---------------------------------------------------------------------

  datatype Message =
    | ExecuteMessage(address: string, task: Id, version: int)
    | UnblockMessage(notice: Unblock)

  ghost predicate OneCallEach(out: seq<Message>) {
    forall i, j | 0 <= i < j < |out| && out[i].ExecuteMessage? && out[j].ExecuteMessage? :: out[i].task != out[j].task
  }

  ghost function CallsIn(out: seq<Message>): map<Id, Execute> {
    if out == [] then map[]
    else
      var last := out[|out| - 1];
      var rest := CallsIn(out[..|out| - 1]);
      if last.ExecuteMessage? then rest[last.task := Execute(last.address, last.version)] else rest
  }

  ghost function NoticesIn(out: seq<Message>): multiset<Unblock> {
    if out == [] then multiset{}
    else
      var last := out[|out| - 1];
      NoticesIn(out[..|out| - 1]) + if last.UnblockMessage? then multiset{last.notice} else multiset{}
  }

  lemma BufferAppend(out: seq<Message>, m: Message)
    ensures NoticesIn(out + [m]) == NoticesIn(out) + if m.UnblockMessage? then multiset{m.notice} else multiset{}
    ensures CallsIn(out + [m])
         == if m.ExecuteMessage? then CallsIn(out)[m.task := Execute(m.address, m.version)] else CallsIn(out)
  {
    assert (out + [m])[..|out|] == out;
  }

  lemma {:induction false} NoticesReplace(out: seq<Message>, at: nat, m: Message)
    requires OneCallEach(out) && at < |out|
    requires out[at].ExecuteMessage? && m.ExecuteMessage? && out[at].task == m.task
    ensures NoticesIn(out[at := m]) == NoticesIn(out)
  {
    var n := |out| - 1;
    if at < n {
      NoticesReplace(out[..n], at, m);
      assert out[at := m][..n] == out[..n][at := m];
    } else {
      assert out[at := m][..n] == out[..n];
    }
  }

  lemma {:induction false} CallsReplace(out: seq<Message>, at: nat, m: Message)
    requires OneCallEach(out) && at < |out|
    requires out[at].ExecuteMessage? && m.ExecuteMessage? && out[at].task == m.task
    ensures CallsIn(out[at := m]) == CallsIn(out)[m.task := Execute(m.address, m.version)]
  {
    var n := |out| - 1;
    if at < n {
      CallsReplace(out[..n], at, m);
      assert out[at := m][..n] == out[..n][at := m];
    } else {
      assert out[at := m][..n] == out[..n];
    }
  }

  /** Replace the execute message of this task, or add one. */
  method UpsertCall(out: seq<Message>, m: Message) returns (r: seq<Message>)
    requires OneCallEach(out) && m.ExecuteMessage?
    ensures OneCallEach(r)
    ensures CallsIn(r) == CallsIn(out)[m.task := Execute(m.address, m.version)]
    ensures NoticesIn(r) == NoticesIn(out)
  {
    var at := 0;
    while at < |out|
      invariant 0 <= at <= |out|
      invariant forall i | 0 <= i < at && out[i].ExecuteMessage? :: out[i].task != m.task
    {
      if out[at].ExecuteMessage? && out[at].task == m.task {
        NoticesReplace(out, at, m);
        CallsReplace(out, at, m);
        return out[at := m];
      }
      at := at + 1;
    }
    BufferAppend(out, m);
    r := out + [m];
  }

  // ---------------------------------------------------------------------
  //  One awaiter, or one promise, at a time
  // ---------------------------------------------------------------------

  /** The loop of `resume_awaiters` after the tasks in `who`: resumed, but not
      yet dropped from the awaiters. */
  ghost function ResumeSome(s: Server, id: Id, who: set<Id>, now: int): Server {
    var woken := SuspendedOf(s, who);
    s.(tasks := map t | t in s.tasks :: if t in who then Resumed(s.tasks[t], {id}) else s.tasks[t],
       tTimers := map t | t in s.tTimers.Keys + woken ::
                    if t in woken then TaskTimer(Retry, now + PENDING_RETRY_TTL) else s.tTimers[t],
       executes := s.executes + Calls(s, woken))
  }

  lemma ResumeNone(s: Server, id: Id, now: int)
    ensures ResumeSome(s, id, {}, now) == s
  {
    var r := ResumeSome(s, id, {}, now);
    assert r.tasks == s.tasks;
    assert r.tTimers == s.tTimers;
    assert r.executes == s.executes;
  }

  ghost function ResumeOne(s: Server, id: Id, t: Id, now: int): Server {
    if t !in s.tasks then s
    else
      var s1 := s.(tasks := s.tasks[t := Resumed(s.tasks[t], {id})]);
      if s.tasks[t].state.Suspended?
      then SendExecute(s1.(tTimers := s.tTimers[t := TaskTimer(Retry, now + PENDING_RETRY_TTL)]), t, s.tasks[t].version + 1)
      else s1
  }

  ghost function SuspendedOf(s: Server, who: set<Id>): set<Id> {
    set t | t in who && s.TaskIs(t, Suspended)
  }

  lemma ResumeCallsStep(s: Server, who: set<Id>, t: Id)
    requires t !in who
    ensures Calls(s, SuspendedOf(s, who + {t}))
         == if s.TaskIs(t, Suspended) && TargetOf(s, t).Some?
            then Calls(s, SuspendedOf(s, who))[t := Execute(TargetOf(s, t).value, s.tasks[t].version + 1)]
            else Calls(s, SuspendedOf(s, who))
  {
  }

  lemma ResumeOneIs(s: Server, id: Id, t: Id, now: int)
    ensures var r := ResumeOne(s, id, t, now);
      r == s.(tasks := if t in s.tasks then s.tasks[t := Resumed(s.tasks[t], {id})] else s.tasks,
              tTimers := if s.TaskIs(t, Suspended) then s.tTimers[t := TaskTimer(Retry, now + PENDING_RETRY_TTL)] else s.tTimers,
              executes := if s.TaskIs(t, Suspended) && TargetOf(s, t).Some?
                          then s.executes[t := Execute(TargetOf(s, t).value, s.tasks[t].version + 1)] else s.executes)
  {
  }

  lemma ResumeTasksStep(s: Server, id: Id, who: set<Id>, t: Id, now: int)
    requires t !in who
    ensures var m := ResumeSome(s, id, who, now).tasks;
            ResumeSome(s, id, who + {t}, now).tasks
            == if t in s.tasks then m[t := Resumed(s.tasks[t], {id})] else m
    ensures t in s.tasks ==> ResumeSome(s, id, who, now).tasks[t] == s.tasks[t]
  {
  }

  lemma ResumeTimersStep(s: Server, id: Id, who: set<Id>, t: Id, now: int)
    requires t !in who
    ensures var m := ResumeSome(s, id, who, now).tTimers;
            ResumeSome(s, id, who + {t}, now).tTimers
            == if s.TaskIs(t, Suspended) then m[t := TaskTimer(Retry, now + PENDING_RETRY_TTL)] else m
  {
    assert SuspendedOf(s, who + {t}) == SuspendedOf(s, who) + if s.TaskIs(t, Suspended) then {t} else {};
  }

  lemma ResumeExecutesStep(s: Server, id: Id, who: set<Id>, t: Id, now: int)
    requires t !in who
    ensures var m := ResumeSome(s, id, who, now).executes;
            ResumeSome(s, id, who + {t}, now).executes
            == if s.TaskIs(t, Suspended) && TargetOf(s, t).Some?
               then m[t := Execute(TargetOf(s, t).value, s.tasks[t].version + 1)] else m
  {
    ResumeCallsStep(s, who, t);
  }

  lemma ResumeSomeStep(s: Server, id: Id, who: set<Id>, t: Id, now: int)
    requires t !in who
    ensures ResumeOne(ResumeSome(s, id, who, now), id, t, now) == ResumeSome(s, id, who + {t}, now)
  {
    var m := ResumeSome(s, id, who, now);
    ResumeOneIs(m, id, t, now);
    ResumeTasksStep(s, id, who, t, now);
    ResumeTimersStep(s, id, who, t, now);
    ResumeExecutesStep(s, id, who, t, now);
    assert TargetOf(m, t) == TargetOf(s, t);
    assert m.TaskIs(t, Suspended) <==> s.TaskIs(t, Suspended);
  }

  lemma ResumeAllIsWake(s: Server, id: Id, now: int)
    requires id in s.promises
    ensures var r := ResumeSome(s, id, s.promises[id].awaiters, now);
            r.(promises := s.promises[id := s.promises[id].(awaiters := {})]) == Wake(s, {id}, now)
  {
    var who := s.promises[id].awaiters;
    var r, w := ResumeSome(s, id, who, now), Wake(s, {id}, now);
    forall t ensures WokenBy(s, {id}, t) == if t in who then {id} else {} {}
    assert r.tasks == w.tasks;
    var woken := set t | t in who && s.TaskIs(t, Suspended);
    assert woken == Woken(s, {id});
    assert r.tTimers == w.tTimers;
    assert s.promises[id := s.promises[id].(awaiters := {})] == w.promises;
  }

  /** The loop of `enqueue_settle` after the promises in `from`. */
  ghost function ForgetSome(s: Server, task: Id, from: set<Id>): Server {
    s.(promises := map p | p in s.promises ::
                     if p in from then s.promises[p].(awaiters := s.promises[p].awaiters - {task}) else s.promises[p])
  }

  lemma ForgetStep(s: Server, task: Id, from: set<Id>, p: Id)
    requires p !in from && p in s.promises
    ensures ForgetSome(s, task, from + {p}).promises
         == ForgetSome(s, task, from).promises[p := s.promises[p].(awaiters := s.promises[p].awaiters - {task})]
    ensures ForgetSome(s, task, from).promises[p] == s.promises[p]
  {
  }

  lemma FulfillOneIs(s: Server, id: Id)
    ensures Fulfill(s, {id}) ==
      if id !in s.tasks then
        if TargetOf(s, id).Some? then s.(tasks := s.tasks[id := FULFILLED_TASK]) else s
      else if s.tasks[id].state.Fulfilled? then s
      else ForgetSome(s.(tasks := s.tasks[id := Ended(s.tasks[id])], tTimers := s.tTimers - {id}), id, s.promises.Keys)
  {
    var f := Fulfill(s, {id});
    assert Taskless(s, {id}) == if id !in s.tasks && TargetOf(s, id).Some? then {id} else {};
    assert Ending(s, {id}) == if id in s.tasks && !s.tasks[id].state.Fulfilled? then {id} else {};
    if id !in s.tasks || s.tasks[id].state.Fulfilled? {
      NothingEnding(s, {id});
    } else {
      assert f.promises == ForgetSome(s, id, s.promises.Keys).promises;
    }
    assert f.tasks == if id in s.tasks then s.tasks[id := Ended(s.tasks[id])]
                      else if TargetOf(s, id).Some? then s.tasks[id := FULFILLED_TASK] else s.tasks;
  }

  lemma ForgetNone(s: Server, task: Id)
    ensures ForgetSome(s, task, {}) == s
  {
    assert ForgetSome(s, task, {}).promises == s.promises;
  }

  /** The loop of `notify_subscribers` after the addresses in `told`. */
  ghost function Told(id: Id, r: Record, told: set<string>): multiset<Unblock> {
    multiset(set a | a in told :: Unblock(a, id, r))
  }

  lemma ToldStep(id: Id, r: Record, told: set<string>, a: string)
    requires a !in told
    ensures Told(id, r, told + {a}) == Told(id, r, told) + multiset{Unblock(a, id, r)}
  {
    var x, y := (set b | b in told :: Unblock(b, id, r)), {Unblock(a, id, r)};
    assert (set b | b in told + {a} :: Unblock(b, id, r)) == x + y;
    assert x !! y;
    assert multiset(x + y) == multiset(x) + multiset(y);
  }

  method AppendNotices(out: seq<Message>, id: Id, record: Record, addresses: set<string>) returns (r: seq<Message>)
    requires OneCallEach(out)
    ensures OneCallEach(r) && CallsIn(r) == CallsIn(out)
    ensures NoticesIn(r) == NoticesIn(out) + Told(id, record, addresses)
  {
    r := out;
    var todo := addresses;
    assert Told(id, record, addresses - addresses) == multiset{};
    while todo != {}
      invariant OneCallEach(r) && CallsIn(r) == CallsIn(out) && todo <= addresses
      invariant NoticesIn(r) == NoticesIn(out) + Told(id, record, addresses - todo)
      decreases todo
    {
      var a :| a in todo;
      ToldStep(id, record, addresses - todo, a);
      assert addresses - todo + {a} == addresses - (todo - {a});
      BufferAppend(r, UnblockMessage(Unblock(a, id, record)));
      r := r + [UnblockMessage(Unblock(a, id, record))];
      todo := todo - {a};
    }
    assert addresses - {} == addresses;
  }

  lemma ToldAllIsNotify(s: Server, id: Id)
    requires id in s.promises
    ensures var p := s.promises[id];
            s.(unblocks := s.unblocks + Told(id, p.record, p.subscribers),
               promises := s.promises[id := p.(subscribers := {})]) == Notify(s, {id})
  {
    var p := s.promises[id];
    assert Notices(s, {id}) == set a | a in p.subscribers :: Unblock(a, id, p.record);
    assert s.promises[id := p.(subscribers := {})] == Notify(s, {id}).promises;
  }

  // ---------------------------------------------------------------------
  //  The server
  // ---------------------------------------------------------------------

  class ServerState {
    var promises: map<Id, Promise>
    var tasks: map<Id, Task>
    var pTimeouts: seq<Entry<int>>
    var tTimeouts: seq<Entry<TaskTimer>>
    var outgoing: seq<Message>

    ghost predicate Valid()
      reads this
    {
      Distinct(pTimeouts) && Distinct(tTimeouts) && OneCallEach(outgoing)
    }

    ghost function View(): Server
      reads this
    {
      Server(promises, tasks, AsMap(pTimeouts), AsMap(tTimeouts), CallsIn(outgoing), NoticesIn(outgoing))
    }

    constructor ()
      ensures Valid() && View() == EMPTY_SERVER
    {
      promises, tasks, pTimeouts, tTimeouts, outgoing := map[], map[], [], [], [];
    }

    // -------------------------------------------------------------------
    //  Helpers
    // -------------------------------------------------------------------

    method SetPTimeout(id: Id, at: int)
      requires Valid()
      modifies this
      ensures Valid() && View() == old(View()).(pTimers := old(View()).pTimers[id := at])
    {
      pTimeouts := Upsert(pTimeouts, id, at);
    }

    method DelPTimeout(id: Id)
      requires Valid()
      modifies this
      ensures Valid() && View() == old(View()).(pTimers := old(View()).pTimers - {id})
    {
      pTimeouts := Without(pTimeouts, id);
    }

    method SetTTimeout(id: Id, kind: TimerKind, at: int)
      requires Valid()
      modifies this
      ensures Valid() && View() == old(View()).(tTimers := old(View()).tTimers[id := TaskTimer(kind, at)])
    {
      tTimeouts := Upsert(tTimeouts, id, TaskTimer(kind, at));
    }

    method DelTTimeout(id: Id)
      requires Valid()
      modifies this
      ensures Valid() && View() == old(View()).(tTimers := old(View()).tTimers - {id})
    {
      tTimeouts := Without(tTimeouts, id);
    }

    method SendExecuteMessage(address: string, task: Id, version: int)
      requires Valid()
      modifies this
      ensures Valid()
      ensures View() == old(View()).(executes := old(View()).executes[task := Execute(address, version)])
    {
      outgoing := UpsertCall(outgoing, ExecuteMessage(address, task, version));
    }

    /** Dispatch a task to the address its promise carries, if it carries one. */
    method Dispatch(task: Id, version: int)
      requires Valid()
      modifies this
      ensures Valid() && View() == SendExecute(old(View()), task, version)
    {
      if task in promises && TAG_TARGET in promises[task].record.tags {
        SendExecuteMessage(promises[task].record.tags[TAG_TARGET], task, version);
      }
    }

    /** Strike a task from the awaiters of every promise. */
    method ForgetAwaiter(task: Id)
      requires Valid()
      modifies this
      ensures Valid() && View() == ForgetSome(old(View()), task, old(View()).promises.Keys)
    {
      ghost var s0 := View();
      ForgetNone(s0, task);
      var todo := promises.Keys;
      while todo != {}
        invariant Valid() && todo <= s0.promises.Keys
        invariant View() == s0.(promises := ForgetSome(s0, task, s0.promises.Keys - todo).promises)
        decreases todo
      {
        var p :| p in todo;
        ForgetStep(s0, task, s0.promises.Keys - todo, p);
        promises := promises[p := promises[p].(awaiters := promises[p].awaiters - {task})];
        assert s0.promises.Keys - todo + {p} == s0.promises.Keys - (todo - {p});
        todo := todo - {p};
      }
      assert s0.promises.Keys - {} == s0.promises.Keys;
    }

    method EnqueueSettle(id: Id)
      requires Valid()
      modifies this
      ensures Valid() && View() == Fulfill(old(View()), {id})
    {
      FulfillOneIs(View(), id);
      if id !in tasks {
        if id in promises && TAG_TARGET in promises[id].record.tags {
          tasks := tasks[id := FULFILLED_TASK];
        }
      } else if tasks[id].state != Fulfilled {
        tasks := tasks[id := tasks[id].(state := Fulfilled, pid := None, ttl := None, resumes := {})];
        DelTTimeout(id);
        ForgetAwaiter(id);
      }
    }

    method WakeTask(id: Id, t: Id, now: int)
      requires Valid() && t in tasks && tasks[t].state.Suspended?
      modifies this
      ensures Valid() && View() == ResumeOne(old(View()), id, t, now)
    {
      ghost var s0 := View();
      var version := tasks[t].version + 1;
      tasks := tasks[t := tasks[t].(state := TaskState.Pending, version := version, resumes := {id})];
      assert View() == s0.(tasks := s0.tasks[t := Resumed(s0.tasks[t], {id})]);
      SetTTimeout(t, Retry, now + PENDING_RETRY_TTL);
      ghost var s1 := View();
      assert s1 == s0.(tasks := s0.tasks[t := Resumed(s0.tasks[t], {id})],
                       tTimers := s0.tTimers[t := TaskTimer(Retry, now + PENDING_RETRY_TTL)]);
      Dispatch(t, version);
      assert View() == SendExecute(s1, t, version);
    }

    method ResumeAwaiter(id: Id, t: Id, now: int)
      requires Valid()
      modifies this
      ensures Valid() && View() == ResumeOne(old(View()), id, t, now)
    {
      if t in tasks {
        if tasks[t].state == Suspended {
          WakeTask(id, t, now);
        } else if tasks[t].state == Fulfilled {
          assert tasks[t := tasks[t]] == tasks;
        } else {
          tasks := tasks[t := tasks[t].(resumes := tasks[t].resumes + {id})];
        }
      }
    }

    method ResumeAwaiters(id: Id, now: int)
      requires Valid()
      modifies this
      ensures Valid() && View() == Wake(old(View()), {id}, now)
    {
      ghost var s0 := View();
      if id !in promises {
        WakeNobody(s0, {id}, now);
        return;
      }
      ghost var all := promises[id].awaiters;
      var todo := promises[id].awaiters;
      ResumeNone(s0, id, now);
      assert all - all == {};
      while todo != {}
        invariant Valid() && todo <= all
        invariant View() == ResumeSome(s0, id, all - todo, now)
        decreases todo
      {
        var t :| t in todo;
        ResumeSomeStep(s0, id, all - todo, t, now);
        assert all - todo + {t} == all - (todo - {t});
        ResumeAwaiter(id, t, now);
        todo := todo - {t};
      }
      ResumeAllIsWake(s0, id, now);
      assert all - {} == all;
      promises := promises[id := promises[id].(awaiters := {})];
    }

    method NotifySubscribers(id: Id)
      requires Valid()
      modifies this
      ensures Valid() && View() == Notify(old(View()), {id})
    {
      if id !in promises || promises[id].subscribers == {} {
        NobodyToTell(View(), id);
        return;
      }
      ToldAllIsNotify(View(), id);
      outgoing := AppendNotices(outgoing, id, promises[id].record, promises[id].subscribers);
      promises := promises[id := promises[id].(subscribers := {})];
    }

    method Announces(id: Id, now: int)
      requires Valid()
      modifies this
      ensures Valid() && View() == Announce(old(View()), {id}, now)
    {
      ResumeAwaiters(id, now);
      NotifySubscribers(id);
    }

    /** Write an outcome over a promise, and drop its timer. */
    method WriteOutcome(id: Id, o: Outcome)
      requires Valid() && id in promises
      modifies this
      ensures Valid() && View() == Mark(old(View()), map[id := o])
    {
      promises := promises[id := promises[id].(record := promises[id].record.(state := o.state, value := o.value, settledAt := Some(o.at)))];
      assert promises == Mark(old(View()), map[id := o]).promises;
      DelPTimeout(id);
    }

    method TryAutoTimeout(now: int, id: Id)
      requires Valid()
      modifies this
      ensures Valid() && View() == AutoTimeout(old(View()), now, id)
    {
      if id in promises && promises[id].record.state == PromiseState.Pending && now >= promises[id].record.timeoutAt {
        var r := promises[id].record;
        WriteOutcome(id, Outcome(TimeoutState(r.tags), r.value, r.timeoutAt));
        EnqueueSettle(id);
        Announces(id, now);
        OneKey(id, LazyOutcome(r));
      }
    }

    // -------------------------------------------------------------------
    //  Promise requests
    // -------------------------------------------------------------------

    method GetPromise(id: Id) returns (reply: Reply)
      requires Valid()
      ensures reply == Requests.GetPromise(View(), id)
    {
      if id == "" { return Failed; }
      if id in promises { return PromiseReply(200, Some(promises[id].record)); }
      return NotFound;
    }

    /** The task, the timers and the message that come with a targeted promise. */
    method AddPendingTask(args: CreateArgs, now: int)
      requires Valid() && TAG_TARGET in args.tags
      requires args.id in promises && promises[args.id].record.tags == args.tags
      modifies this
      ensures Valid() && View() == Requests.AddPendingTask(old(View()), args, now)
    {
      SetPTimeout(args.id, if args.timeoutAt.Some? then args.timeoutAt.value else I64_MAX);
      var delay := if TAG_DELAY in args.tags then ParseI64(args.tags[TAG_DELAY]) else None;
      var deferred := delay.Some? && now < delay.value;
      tasks := tasks[args.id := Task(TaskState.Pending, 0, None, None, {})];
      SetTTimeout(args.id, Retry, if deferred then delay.value else now + PENDING_RETRY_TTL);
      if !deferred {
        SendExecuteMessage(args.tags[TAG_TARGET], args.id, 0);
      }
    }

    method CreatePromise(now: int, args: CreateArgs) returns (reply: Reply)
      requires Valid()
      modifies this
      ensures Valid() && (View(), reply) == Requests.CreatePromise(old(View()), now, args)
    {
      if args.id == "" { return Failed; }
      if args.id in promises { return PromiseReply(200, Some(promises[args.id].record)); }
      var deadline := if args.timeoutAt.Some? then args.timeoutAt.value else I64_MAX;
      if now >= deadline {
        var record := Record(TimeoutState(args.tags), args.param, Null, args.tags, deadline, deadline, Some(deadline));
        promises := promises[args.id := Promise(record, {}, {})];
        EnqueueSettle(args.id);
        Announces(args.id, now);
        return PromiseReply(200, Some(record));
      }
      var record := Record(PromiseState.Pending, args.param, Null, args.tags, deadline, now, None);
      promises := promises[args.id := Promise(record, {}, {})];
      if TAG_TARGET in args.tags {
        AddPendingTask(args, now);
      }
      return PromiseReply(201, Some(record));
    }

    method SettlePromise(now: int, args: SettleArgs) returns (reply: Reply)
      requires Valid()
      modifies this
      ensures Valid() && (View(), reply) == Requests.SettlePromise(old(View()), now, args)
    {
      if args.id == "" { return Failed; }
      if args.id !in promises { return NotFound; }
      if promises[args.id].record.state != PromiseState.Pending {
        return PromiseReply(200, Some(promises[args.id].record));
      }
      WriteOutcome(args.id, Outcome(args.state, args.value, now));
      reply := PromiseReply(200, Some(promises[args.id].record));
      EnqueueSettle(args.id);
      Announces(args.id, now);
      OneKey(args.id, Outcome(args.state, args.value, now));
    }

    method RegisterListener(awaited: Id, address: string) returns (reply: Reply)
      requires Valid()
      modifies this
      ensures Valid() && (View(), reply) == AddListener(old(View()), awaited, address)
    {
      if awaited == "" || address == "" { return Failed; }
      if awaited !in promises { return NotFound; }
      var p := promises[awaited];
      if p.record.state == PromiseState.Pending {
        promises := promises[awaited := p.(subscribers := p.subscribers + {address})];
      }
      return PromiseReply(200, Some(p.record));
    }

    // -------------------------------------------------------------------
    //  Task requests
    // -------------------------------------------------------------------

    method LendTask(now: int, id: Id, pid: string, ttl: int)
      requires Valid() && id in tasks
      modifies this
      ensures Valid() && View() == Lend(old(View()), now, id, pid, ttl)
    {
      tasks := tasks[id := tasks[id].(state := Acquired, pid := Some(pid), ttl := Some(ttl), resumes := {})];
      SetTTimeout(id, Lease, SaturatingAdd(now, ttl));
    }

    method CreateTask(now: int, pid: string, ttl: int, args: CreateArgs) returns (reply: Reply)
      requires Valid()
      modifies this
      ensures Valid() && (View(), reply) == Requests.CreateTask(old(View()), now, pid, ttl, args)
    {
      if pid == "" || args.id == "" { return Failed; }
      var id := args.id;
      if id in tasks {
        var owner := if id in promises then Some(promises[id].record) else None;
        var preload := PreloadFrom(promises, id);
        match tasks[id].state {
          case Pending =>
            LendTask(now, id, pid, ttl);
            return TaskReply(200, ToTaskRecord(tasks[id]), owner, preload);
          case Fulfilled =>
            return TaskReply(200, ToTaskRecord(tasks[id]), owner, preload);
          case _ =>
            return Conflict;
        }
      }
      if id in promises { return Conflict; }
      var deadline := if args.timeoutAt.Some? then args.timeoutAt.value else I64_MAX;
      if now >= deadline {
        var record := Record(TimeoutState(args.tags), args.param, Null, args.tags, deadline, deadline, Some(deadline));
        promises := promises[id := Promise(record, {}, {})];
        tasks := tasks[id := FULFILLED_TASK];
        return TaskReply(200, ToTaskRecord(FULFILLED_TASK), Some(record), map[]);
      }
      var record := Record(PromiseState.Pending, args.param, Null, args.tags, deadline, now, None);
      promises := promises[id := Promise(record, {}, {})];
      if TAG_TARGET in args.tags {
        SetPTimeout(id, deadline);
      }
      var task := Task(Acquired, 0, Some(pid), Some(ttl), {});
      tasks := tasks[id := task];
      SetTTimeout(id, Lease, SaturatingAdd(now, ttl));
      return TaskReply(201, ToTaskRecord(task), Some(record), PreloadFrom(promises, id));
    }

    method AcquireTask(now: int, id: Id, pid: string, ttl: int) returns (reply: Reply)
      requires Valid()
      modifies this
      ensures Valid() && (View(), reply) == Requests.AcquireTask(old(View()), now, id, pid, ttl)
    {
      if id == "" { return Failed; }
      if id !in tasks { return NotFound; }
      if tasks[id].state != TaskState.Pending { return Conflict; }
      var preload := PreloadFrom(promises, id);
      LendTask(now, id, pid, AtLeastOne(ttl));
      var owner := if id in promises then Some(promises[id].record) else None;
      return TaskReply(200, ToTaskRecord(tasks[id]), owner, preload);
    }

    /** Give up one lease, if it still stands under this version. */
    method ReleaseLease(id: Id, version: int, now: int)
      requires Valid()
      modifies this
      ensures Valid() && View() == Release(old(View()), map[id := version], now)
    {
      ReleaseOneIs(View(), id, version, now);
      if id in tasks && tasks[id].state == Acquired && tasks[id].version == version {
        tasks := tasks[id := tasks[id].(state := TaskState.Pending, version := version + 1, pid := None, ttl := None)];
        SetTTimeout(id, Retry, now + PENDING_RETRY_TTL);
        Dispatch(id, version + 1);
      }
    }

    method ReleaseTask(now: int, id: Id) returns (reply: Reply)
      requires Valid()
      modifies this
      ensures Valid() && (View(), reply) == Requests.ReleaseTask(old(View()), now, id)
    {
      if id == "" { return Failed; }
      if id !in tasks { return NotFound; }
      if tasks[id].state != Acquired { return Conflict; }
      ReleaseLease(id, tasks[id].version, now);
      return Done;
    }

    method FulfillTask(now: int, id: Id, action: Option<Id>, state: PromiseState, value: Json) returns (reply: Reply)
      requires Valid()
      modifies this
      ensures Valid() && (View(), reply) == Requests.FulfillTask(old(View()), now, id, action, state, value)
    {
      if id == "" { return Failed; }
      if id !in tasks { return NotFound; }
      if tasks[id].state != Acquired { return Conflict; }
      var p := if action.Some? then action.value else id;
      var record := WriteIfPending(p, Outcome(state, value, now));
      FinishFulfill(id, p, now);
      return PromiseReply(200, record);
    }

    method WriteIfPending(p: Id, o: Outcome) returns (record: Option<Record>)
      requires Valid()
      modifies this
      ensures Valid() && View() == if old(View()).PendingPromise(p) then Mark(old(View()), map[p := o]) else old(View())
      ensures record == RecordOf(View(), p)
    {
      if p in promises && promises[p].record.state == PromiseState.Pending {
        WriteOutcome(p, o);
      }
      return if p in promises then Some(promises[p].record) else None;
    }

    method FinishFulfill(id: Id, p: Id, now: int)
      requires Valid()
      modifies this
      ensures Valid() && View() == Announce(Fulfill(old(View()), {id}), {p}, now)
    {
      EnqueueSettle(id);
      Announces(p, now);
    }

    method FenceTask(now: int, id: Id, version: int, action: FenceAction) returns (reply: Reply)
      requires Valid()
      modifies this
      ensures Valid() && (View(), reply) == Requests.FenceTask(old(View()), now, id, version, action)
    {
      if id == "" { return Failed; }
      if id !in tasks { return NotFound; }
      if tasks[id].state != Acquired || tasks[id].version != version { return Conflict; }
      var inner;
      match action {
        case FenceCreate(args) => inner := CreatePromise(now, args);
        case FenceSettle(args) => inner := SettlePromise(now, args);
      }
      if inner.Failed? { return Failed; }
      return FenceReply(if inner.PromiseReply? then inner.promise else None, PreloadFrom(promises, id));
    }

    method SuspendTask(id: Id, awaiting: seq<Id>) returns (reply: Reply)
      requires Valid()
      modifies this
      ensures Valid() && (View(), reply) == Requests.SuspendTask(old(View()), id, awaiting)
    {
      if id == "" { return Failed; }
      if id !in tasks { return NotFound; }
      if tasks[id].state != Acquired { return Conflict; }
      var preload := PreloadFrom(promises, id);
      if tasks[id].resumes != {} {
        tasks := tasks[id := tasks[id].(resumes := {})];
        return Redirect(preload);
      }
      var anySettled := RegisterAwaiter(id, awaiting);
      PreloadAfterAwait(old(View()), id, Elements(awaiting));
      if anySettled {
        return Redirect(PreloadFrom(promises, id));
      }
      tasks := tasks[id := tasks[id].(state := Suspended, pid := None, ttl := None, resumes := {})];
      DelTTimeout(id);
      return Done;
    }

    method RegisterOne(task: Id, p: Id) returns (settled: bool)
      requires Valid()
      modifies this
      ensures Valid() && settled == old(View()).SettledPromise(p)
      ensures View() == AwaitAll(old(View()), task, {p})
    {
      AwaitOneIs(View(), task, p);
      settled := false;
      if p in promises {
        if promises[p].record.state == PromiseState.Pending {
          promises := promises[p := promises[p].(awaiters := promises[p].awaiters + {task})];
        } else {
          settled := true;
        }
      }
    }

    /** Add the task to the awaiters of each pending promise listed, and say
        whether any promise listed is settled already. */
    method RegisterAwaiter(task: Id, awaiting: seq<Id>) returns (anySettled: bool)
      requires Valid()
      modifies this
      ensures Valid() && View() == AwaitAll(old(View()), task, Elements(awaiting))
      ensures anySettled == AnySettled(old(View()), Elements(awaiting))
    {
      ghost var s0 := View();
      ghost var done: set<Id> := {};
      anySettled := false;
      AwaitNone(s0, task);
      for k := 0 to |awaiting|
        invariant Valid() && View() == AwaitAll(s0, task, done)
        invariant anySettled == AnySettled(s0, done)
        invariant done == Elements(awaiting[..k])
      {
        AwaitNext(s0, task, done, awaiting[k]);
        var settled := RegisterOne(task, awaiting[k]);
        anySettled := anySettled || settled;
        done := done + {awaiting[k]};
        assert awaiting[..k + 1] == awaiting[..k] + [awaiting[k]];
        ElementsAppend(awaiting[..k], awaiting[k]);
      }
      assert awaiting[..|awaiting|] == awaiting;
    }

    method Heartbeat(now: int, pid: string, refs: seq<TaskRef>) returns (reply: Reply)
      requires Valid()
      modifies this
      ensures Valid() && (View(), reply) == Requests.Heartbeat(old(View()), now, pid, refs)
    {
      if pid == "" { return Failed; }
      for k := 0 to |refs|
        invariant Valid()
        invariant Beats(View(), now, pid, refs[k..]) == Beats(old(View()), now, pid, refs)
      {
        var r := refs[k];
        assert refs[k..][0] == r && refs[k..][1..] == refs[k + 1..];
        if r.id == "" { return Failed; }
        if r.id in tasks {
          var t := tasks[r.id];
          if t.state == Acquired && t.pid == Some(pid) && (r.version.None? || r.version.value == t.version) {
            var ttl := if t.ttl.Some? then t.ttl.value else DEFAULT_HEARTBEAT_TTL;
            SetTTimeout(r.id, Lease, SaturatingAdd(now, ttl));
          }
        }
      }
      return Done;
    }

    // -------------------------------------------------------------------
    //  Apply
    // -------------------------------------------------------------------

    /** Clear the buffer and expire what the request touches, in order. */
    method Prepare(now: int, req: Request)
      requires Valid()
      modifies this
      ensures Valid() && View() == Prepared(old(View()), now, req)
    {
      outgoing := [];
      assert View() == Cleared(old(View()));
      var touched := Touched(req);
      for k := 0 to |touched|
        invariant Valid()
        invariant AutoTimeouts(View(), now, touched[k..]) == Prepared(old(View()), now, req)
      {
        assert touched[k..][0] == touched[k] && touched[k..][1..] == touched[k + 1..];
        TryAutoTimeout(now, touched[k]);
      }
    }

    method HandlePromise(now: int, req: Request) returns (reply: Reply)
      requires Valid() && (req.PromiseGet? || req.PromiseCreate? || req.PromiseSettle? || req.RegisterListener?)
      modifies this
      ensures Valid() && (View(), reply) == Requests.Handle(old(View()), now, req)
    {
      match req {
        case PromiseGet(id) => reply := GetPromise(id);
        case PromiseCreate(args) => reply := CreatePromise(now, args);
        case PromiseSettle(args) => reply := SettlePromise(now, args);
        case RegisterListener(awaited, address) => reply := RegisterListener(awaited, address);
      }
    }

    /** Requests by or for a worker that holds, or means to hold, the task. */
    method HandleLease(now: int, req: Request) returns (reply: Reply)
      requires Valid() && (req.TaskCreate? || req.TaskAcquire? || req.TaskRelease? || req.TaskHeartbeat?)
      modifies this
      ensures Valid() && (View(), reply) == Requests.Handle(old(View()), now, req)
    {
      match req {
        case TaskCreate(pid, ttl, args) => reply := CreateTask(now, pid, ttl, args);
        case TaskAcquire(id, pid, ttl) => reply := AcquireTask(now, id, pid, ttl);
        case TaskRelease(id) => reply := ReleaseTask(now, id);
        case TaskHeartbeat(pid, refs) => reply := Heartbeat(now, pid, refs);
      }
    }

    method Handle(now: int, req: Request) returns (reply: Reply)
      requires Valid()
      modifies this
      ensures Valid() && (View(), reply) == Requests.Handle(old(View()), now, req)
    {
      match req {
        case PromiseGet(_) => reply := HandlePromise(now, req);
        case PromiseCreate(_) => reply := HandlePromise(now, req);
        case PromiseSettle(_) => reply := HandlePromise(now, req);
        case RegisterListener(_, _) => reply := HandlePromise(now, req);
        case TaskFulfill(id, action, state, value) => reply := FulfillTask(now, id, action, state, value);
        case TaskFence(id, version, action) => reply := FenceTask(now, id, version, action);
        case TaskSuspend(id, awaiting) => reply := SuspendTask(id, awaiting);
        case UnknownKind => reply := Failed;
        case _ => reply := HandleLease(now, req);
      }
    }

    method Apply(now: int, req: Request) returns (reply: Reply)
      requires Valid()
      modifies this
      ensures Valid() && (View(), reply) == Requests.Apply(old(View()), now, req)
    {
      Prepare(now, req);
      reply := Handle(now, req);
    }

    // -------------------------------------------------------------------
    //  Tick
    // -------------------------------------------------------------------

    method CollectDuePromises(now: int) returns (settles: seq<Id>)
      requires Valid()
      ensures NoRepeats(settles) && Elements(settles) == DuePromises(View(), now)
    {
      settles := [];
      for k := 0 to |pTimeouts|
        invariant NoRepeats(settles)
        invariant Elements(settles) == DueIn(View(), AsMap(pTimeouts[..k]), now)
      {
        var pt := pTimeouts[k];
        assert pTimeouts[..k + 1] == pTimeouts[..k] + [pt];
        AsMapAppend(pTimeouts[..k], pt);
        NotInMap(pTimeouts[..k], pt.id);
        DueStep(View(), AsMap(pTimeouts[..k]), pt.id, pt.what, now);
        if now >= pt.what && pt.id in promises && promises[pt.id].record.state == PromiseState.Pending {
          AppendFresh(settles, pt.id);
          settles := settles + [pt.id];
        }
      }
      assert pTimeouts[..|pTimeouts|] == pTimeouts;
    }

    method CollectDueTasks(now: int) returns (releases: seq<Entry<int>>, retries: seq<Id>)
      requires Valid()
      ensures Distinct(releases) && AsMap(releases) == ExpiredLeases(View(), now)
      ensures NoRepeats(retries) && Elements(retries) == DueRetries(View(), now)
    {
      releases, retries := [], [];
      for k := 0 to |tTimeouts|
        invariant Distinct(releases) && NoRepeats(retries)
        invariant AsMap(releases) == LeasesIn(View(), AsMap(tTimeouts[..k]), now)
        invariant Elements(retries) == RetriesIn(View(), AsMap(tTimeouts[..k]), now)
      {
        var tt := tTimeouts[k];
        assert tTimeouts[..k + 1] == tTimeouts[..k] + [tt];
        AsMapAppend(tTimeouts[..k], tt);
        NotInMap(tTimeouts[..k], tt.id);
        LeaseStep(View(), AsMap(tTimeouts[..k]), tt.id, tt.what, now);
        RetriesStep(View(), AsMap(tTimeouts[..k]), tt.id, tt.what, now);
        if now >= tt.what.at {
          if tt.what.kind == Lease {
            if tt.id in tasks && tasks[tt.id].state == Acquired {
              AppendFreshEntry(releases, Entry(tt.id, tasks[tt.id].version));
              releases := releases + [Entry(tt.id, tasks[tt.id].version)];
            }
          } else {
            if tt.id in tasks && tasks[tt.id].state == TaskState.Pending {
              AppendFresh(retries, tt.id);
              retries := retries + [tt.id];
            }
          }
        }
      }
      assert tTimeouts[..|tTimeouts|] == tTimeouts;
    }

    /** Phase 1. */
    method ExpirePromises(settles: seq<Id>, now: int)
      requires Valid() && NoRepeats(settles) && Elements(settles) == DuePromises(View(), now)
      modifies this
      ensures Valid() && View() == Mark(old(View()), DueOutcomes(old(View()), now))
    {
      ghost var s0 := View();
      ghost var outcomes := DueOutcomes(s0, now);
      MarkNothing(s0);
      assert OnlyIn(outcomes, []) == map[];
      for k := 0 to |settles|
        invariant Valid() && View() == Mark(s0, OnlyIn(outcomes, settles[..k]))
      {
        var id := settles[k];
        assert settles[..k + 1] == settles[..k] + [id];
        assert id in Elements(settles);
        OnlyInStep(outcomes, settles[..k], id);
        MarkStep(s0, OnlyIn(outcomes, settles[..k]), id, outcomes[id]);
        assert promises[id] == s0.promises[id];
        if promises[id].record.state == PromiseState.Pending {
          var r := promises[id].record;
          WriteOutcome(id, Outcome(TimeoutState(r.tags), Null, r.timeoutAt));
        }
      }
      assert settles[..|settles|] == settles;
      assert OnlyIn(outcomes, settles) == outcomes;
    }

    /** Phase 2. */
    method FulfillTasks(settles: seq<Id>)
      requires Valid()
      modifies this
      ensures Valid() && View() == Fulfill(old(View()), Elements(settles))
    {
      ghost var s0 := View();
      FulfillNothing(s0);
      assert Elements(settles[..0]) == {};
      for k := 0 to |settles|
        invariant Valid() && View() == Fulfill(s0, Elements(settles[..k]))
      {
        assert settles[..k + 1] == settles[..k] + [settles[k]];
        ElementsAppend(settles[..k], settles[k]);
        FulfillStep(s0, Elements(settles[..k]), settles[k]);
        EnqueueSettle(settles[k]);
      }
      assert settles[..|settles|] == settles;
    }

    /** Phase 3. */
    method AnnounceAll(settles: seq<Id>, now: int)
      requires Valid() && NoRepeats(settles)
      modifies this
      ensures Valid() && View() == Announce(old(View()), Elements(settles), now)
    {
      ghost var s0 := View();
      ghost var done: set<Id> := {};
      AnnounceNothing(s0, {}, now);
      for k := 0 to |settles|
        invariant Valid() && View() == Announce(s0, done, now)
        invariant done == Elements(settles[..k])
      {
        AnnounceNext(s0, settles, k, now);
        Announces(settles[k], now);
        done := done + {settles[k]};
      }
      assert settles[..|settles|] == settles;
    }

    /** Phase 4. */
    method ReleaseLeases(releases: seq<Entry<int>>, now: int)
      requires Valid() && Distinct(releases)
      modifies this
      ensures Valid() && View() == Release(old(View()), AsMap(releases), now)
    {
      ghost var s0 := View();
      ReleaseNothing(s0, now);
      for k := 0 to |releases|
        invariant Valid() && View() == Release(s0, AsMap(releases[..k]), now)
      {
        assert releases[..k + 1] == releases[..k] + [releases[k]];
        AsMapAppend(releases[..k], releases[k]);
        NotInMap(releases[..k], releases[k].id);
        ReleaseStep(s0, AsMap(releases[..k]), releases[k].id, releases[k].what, now);
        ReleaseLease(releases[k].id, releases[k].what, now);
      }
      assert releases[..|releases|] == releases;
    }

    method RetryOne(id: Id, now: int)
      requires Valid()
      modifies this
      ensures Valid() && View() == RetryAll(old(View()), {id}, now)
    {
      RetryOneIs(View(), id, now);
      if id in tasks && tasks[id].state == TaskState.Pending {
        var version := tasks[id].version;
        SetTTimeout(id, Retry, now + PENDING_RETRY_TTL);
        Dispatch(id, version);
      }
    }

    /** Phase 5. */
    method RetryTasks(retries: seq<Id>, now: int)
      requires Valid() && NoRepeats(retries)
      modifies this
      ensures Valid() && View() == RetryAll(old(View()), Elements(retries), now)
    {
      ghost var s0 := View();
      RetryNothing(s0, now);
      for k := 0 to |retries|
        invariant Valid() && View() == RetryAll(s0, Elements(retries[..k]), now)
      {
        assert retries[..k + 1] == retries[..k] + [retries[k]];
        ElementsAppend(retries[..k], retries[k]);
        NotYet(retries, k);
        RetryStep(s0, Elements(retries[..k]), retries[k], now);
        RetryOne(retries[k], now);
      }
      assert retries[..|retries|] == retries;
    }

    method Tick(now: int)
      requires Valid()
      modifies this
      ensures Valid() && View() == Requests.Tick(old(View()), now)
    {
      var settles := CollectDuePromises(now);
      var releases, retries := CollectDueTasks(now);
      ExpirePromises(settles, now);
      FulfillTasks(settles);
      AnnounceAll(settles, now);
      ReleaseLeases(releases, now);
      RetryTasks(retries, now);
    }
  }

  // ---------------------------------------------------------------------
  //  What the loops of `tick` have collected, and done, so far
  // ---------------------------------------------------------------------

  ghost predicate NoRepeats(ids: seq<Id>) {
    forall i, j | 0 <= i < j < |ids| :: ids[i] != ids[j]
  }

  lemma AppendFresh(ids: seq<Id>, id: Id)
    requires NoRepeats(ids) && id !in Elements(ids)
    ensures NoRepeats(ids + [id]) && Elements(ids + [id]) == Elements(ids) + {id}
  {
  }

  lemma ElementsAppend(ids: seq<Id>, id: Id)
    ensures Elements(ids + [id]) == Elements(ids) + {id}
  {
  }

  lemma NotYet(ids: seq<Id>, k: nat)
    requires NoRepeats(ids) && k < |ids|
    ensures ids[k] !in Elements(ids[..k])
  {
  }

  lemma AnnounceNext(s: Server, ids: seq<Id>, k: nat, now: int)
    requires NoRepeats(ids) && k < |ids|
    ensures Elements(ids[..k + 1]) == Elements(ids[..k]) + {ids[k]}
    ensures Announce(Announce(s, Elements(ids[..k]), now), {ids[k]}, now) == Announce(s, Elements(ids[..k]) + {ids[k]}, now)
  {
    assert ids[..k + 1] == ids[..k] + [ids[k]];
    ElementsAppend(ids[..k], ids[k]);
    NotYet(ids, k);
    AnnounceStep(s, Elements(ids[..k]), ids[k], now);
  }

  lemma AppendFreshEntry<V>(es: seq<Entry<V>>, e: Entry<V>)
    requires Distinct(es) && e.id !in AsMap(es)
    ensures Distinct(es + [e]) && AsMap(es + [e]) == AsMap(es)[e.id := e.what]
  {
    AsMapAppend(es, e);
    forall i | 0 <= i < |es| ensures es[i].id != e.id
    {
      InMap(es, i);
    }
    AppendDistinct(es, e);
  }

  lemma AppendDistinct<V>(es: seq<Entry<V>>, e: Entry<V>)
    requires Distinct(es) && forall i | 0 <= i < |es| :: es[i].id != e.id
    ensures Distinct(es + [e])
  {
  }

  lemma {:induction false} InMap<V>(es: seq<Entry<V>>, i: nat)
    requires i < |es|
    ensures es[i].id in AsMap(es)
  {
    if i < |es| - 1 {
      InMap(es[..|es| - 1], i);
    }
  }

  ghost function DueIn(s: Server, timers: map<Id, int>, now: int): set<Id> {
    set id | id in timers && now >= timers[id] && s.PendingPromise(id)
  }

  lemma DueStep(s: Server, timers: map<Id, int>, id: Id, at: int, now: int)
    requires id !in timers
    ensures id !in DueIn(s, timers, now)
    ensures DueIn(s, timers[id := at], now)
         == DueIn(s, timers, now) + if now >= at && s.PendingPromise(id) then {id} else {}
  {
  }

  ghost function LeasesIn(s: Server, timers: map<Id, TaskTimer>, now: int): map<Id, int> {
    map t | t in timers && now >= timers[t].at && timers[t].kind.Lease? && s.TaskIs(t, Acquired) :: s.tasks[t].version
  }

  lemma LeaseStep(s: Server, timers: map<Id, TaskTimer>, id: Id, tt: TaskTimer, now: int)
    requires id !in timers
    ensures id !in LeasesIn(s, timers, now)
    ensures LeasesIn(s, timers[id := tt], now)
         == if now >= tt.at && tt.kind.Lease? && s.TaskIs(id, Acquired)
            then LeasesIn(s, timers, now)[id := s.tasks[id].version] else LeasesIn(s, timers, now)
  {
  }

  ghost function RetriesIn(s: Server, timers: map<Id, TaskTimer>, now: int): set<Id> {
    set t | t in timers && now >= timers[t].at && timers[t].kind.Retry? && s.TaskIs(t, TaskState.Pending)
  }

  lemma RetriesStep(s: Server, timers: map<Id, TaskTimer>, id: Id, tt: TaskTimer, now: int)
    requires id !in timers
    ensures id !in RetriesIn(s, timers, now)
    ensures RetriesIn(s, timers[id := tt], now)
         == RetriesIn(s, timers, now)
            + if now >= tt.at && tt.kind.Retry? && s.TaskIs(id, TaskState.Pending) then {id} else {}
  {
  }

  ghost function OnlyIn(outcomes: map<Id, Outcome>, ids: seq<Id>): map<Id, Outcome> {
    map id | id in outcomes && id in ids :: outcomes[id]
  }

  lemma OnlyInStep(outcomes: map<Id, Outcome>, ids: seq<Id>, id: Id)
    requires id in outcomes
    ensures OnlyIn(outcomes, ids + [id]) == OnlyIn(outcomes, ids)[id := outcomes[id]]
  {
  }

  lemma MarkNothing(s: Server)
    ensures Mark(s, map[]) == s
  {
    assert Mark(s, map[]).promises == s.promises;
    assert Mark(s, map[]).pTimers == s.pTimers;
  }

  lemma FulfillNothing(s: Server)
    ensures Fulfill(s, {}) == s
  {
    assert Ending(s, {}) == {};
    NothingEnding(s, {});
    assert Taskless(s, {}) == {};
    assert Fulfill(s, {}).tasks == s.tasks;
  }

  lemma ReleaseNothing(s: Server, now: int)
    ensures Release(s, map[], now) == s
  {
    var r := Release(s, map[], now);
    assert Standing(s, map[]) == {};
    assert r.tasks == s.tasks;
    assert r.tTimers == s.tTimers;
    assert r.executes == s.executes;
  }

  lemma RetryNothing(s: Server, now: int)
    ensures RetryAll(s, {}, now) == s
  {
    var r := RetryAll(s, {}, now);
    assert StillPending(s, {}) == {};
    assert r.tTimers == s.tTimers;
    assert r.executes == s.executes;
  }

  lemma RetryOneIs(s: Server, id: Id, now: int)
    ensures RetryAll(s, {id}, now) ==
      if s.TaskIs(id, TaskState.Pending)
      then SendExecute(s.(tTimers := s.tTimers[id := TaskTimer(Retry, now + PENDING_RETRY_TTL)]), id, s.tasks[id].version)
      else s
  {
    var r := RetryAll(s, {id}, now);
    if s.TaskIs(id, TaskState.Pending) {
      assert StillPending(s, {id}) == {id};
      assert r.tTimers == s.tTimers[id := TaskTimer(Retry, now + PENDING_RETRY_TTL)];
      RemindersOne(s, id);
    } else {
      assert StillPending(s, {id}) == {};
      assert r.tTimers == s.tTimers;
      assert r.executes == s.executes;
    }
  }

  lemma RemindersOne(s: Server, id: Id)
    requires id in s.tasks
    ensures s.executes + Reminders(s, {id}) == SendExecute(s, id, s.tasks[id].version).executes
  {
  }

  lemma OneKey(id: Id, o: Outcome)
    ensures map[id := o].Keys == {id}
  {
  }

  lemma ReleaseOneIs(s: Server, id: Id, version: int, now: int)
    ensures Release(s, map[id := version], now) ==
      if HoldsLease(s, id, version)
      then SendExecute(s.(tasks := s.tasks[id := Freed(s.tasks[id])],
                          tTimers := s.tTimers[id := TaskTimer(Retry, now + PENDING_RETRY_TTL)]), id, version + 1)
      else s
  {
    if HoldsLease(s, id, version) {
      ReleaseHeld(s, id, version, now);
    } else {
      var r := Release(s, map[id := version], now);
      assert Standing(s, map[id := version]) == {};
      assert r.tasks == s.tasks;
      assert r.tTimers == s.tTimers;
      assert r.executes == s.executes;
    }
  }

  lemma CallsOne(s: Server, id: Id)
    requires id in s.tasks
    ensures s.executes + Calls(s, {id}) == SendExecute(s, id, s.tasks[id].version + 1).executes
  {
  }

  lemma ReleaseHeld(s: Server, id: Id, version: int, now: int)
    requires HoldsLease(s, id, version)
    ensures Release(s, map[id := version], now) ==
      SendExecute(s.(tasks := s.tasks[id := Freed(s.tasks[id])],
                     tTimers := s.tTimers[id := TaskTimer(Retry, now + PENDING_RETRY_TTL)]), id, version + 1)
  {
    var r := Release(s, map[id := version], now);
    assert Standing(s, map[id := version]) == {id};
    CallsOne(s, id);
    assert r.tasks == s.tasks[id := Freed(s.tasks[id])];
    assert r.tTimers == s.tTimers[id := TaskTimer(Retry, now + PENDING_RETRY_TTL)];
  }

  lemma AwaitNone(s: Server, task: Id)
    ensures AwaitAll(s, task, {}) == s
  {
    assert AwaitAll(s, task, {}).promises == s.promises;
  }

  lemma AwaitOneIs(s: Server, task: Id, p: Id)
    ensures AwaitAll(s, task, {p}) == s.(promises :=
              if s.PendingPromise(p) then s.promises[p := s.promises[p].(awaiters := s.promises[p].awaiters + {task})]
              else s.promises)
  {
    assert AwaitAll(s, task, {p}).promises ==
      if s.PendingPromise(p) then s.promises[p := s.promises[p].(awaiters := s.promises[p].awaiters + {task})]
      else s.promises;
  }

  lemma AwaitNext(s: Server, task: Id, before: set<Id>, p: Id)
    ensures AwaitAll(AwaitAll(s, task, before), task, {p}) == AwaitAll(s, task, before + {p})
    ensures AwaitAll(s, task, before).SettledPromise(p) == s.SettledPromise(p)
    ensures AnySettled(s, before + {p}) <==> AnySettled(s, before) || s.SettledPromise(p)
  {
    assert AwaitAll(AwaitAll(s, task, before), task, {p}).promises == AwaitAll(s, task, before + {p}).promises;
  }

  lemma PreloadAfterAwait(s: Server, id: Id, awaiting: set<Id>)
    ensures Preload(AwaitAll(s, id, awaiting), id) == Preload(s, id)
  {
  }

  lemma NobodyToTell(s: Server, id: Id)
    requires id in s.promises ==> s.promises[id].subscribers == {}
    ensures Notify(s, {id}) == s
  {
    assert Notices(s, {id}) == {};
    assert Notify(s, {id}).promises == s.promises;
  }

  /** The order of the timer vectors, of the outgoing buffer and of the hash sets
      makes no difference: two servers that stand for the same state still do
      after a tick. */
  method TicksAlike(a: ServerState, b: ServerState, now: int)
    requires a != b && a.Valid() && b.Valid() && a.View() == b.View()
    modifies a, b
    ensures a.Valid() && b.Valid() && a.View() == b.View()
  {
    a.Tick(now);
    b.Tick(now);
  }
}

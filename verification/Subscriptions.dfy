/**
 Handles and the subscriptions behind them: a two-party protocol between one
 client and the server in which no settlement is missed.

 The client keeps an entry per promise id and asks the server to be told; the
 server answers with the record it has and, later, pushes the settled one.
 Answers and pushes are in flight for any length of time and arrive in any
 order, while anyone else does anything to the server.
 */
module Subscriptions {
  import opened Protocol
  import opened Requests
  import opened Invariant
  import opened Progress
  import opened Runs
  import opened Notifications
  import Observable
  import Replies

  datatype PromiseResult = PromiseResult(state: PromiseState, value: Json)

  function ResultOf(r: Record): PromiseResult { PromiseResult(r.state, r.value) }

  /** A watch channel: what was sent, and how many handles are listening. */
  datatype Entry = Entry(result: Option<PromiseResult>, receivers: nat)

  type Entries = map<Id, Entry>

  /** A watch channel with no receivers left refuses what is sent. */
  function Sent(e: Entry, r: PromiseResult): Entry {
    if e.receivers == 0 then e else e.(result := Some(r))
  }

  function Opened(entries: Entries, id: Id): Entries {
    entries[id := if id in entries then entries[id].(receivers := entries[id].receivers + 1) else Entry(None, 1)]
  }

  function Dropped(entries: Entries, id: Id): Entries
    requires id in entries && entries[id].receivers > 0
  {
    entries[id := entries[id].(receivers := entries[id].receivers - 1)]
  }

  /** A record answered to a registration. */
  function Answered(entries: Entries, id: Id, r: Record): Entries {
    if r.Settled() && id in entries then entries[id := Sent(entries[id], ResultOf(r))] else entries
  }

  /** A pushed record; one for an id not yet known is kept for later. */
  function Pushed(entries: Entries, id: Id, r: Record): Entries {
    entries[id := if id in entries then Sent(entries[id], ResultOf(r)) else Entry(Some(ResultOf(r)), 0)]
  }

  // ---------------------------------------------------------------------
  //  The two parties
  // ---------------------------------------------------------------------

  datatype Note = Answer(id: Id, record: Record) | Push(id: Id, record: Record)

  /** `accepted`: ids the server has agreed to tell us about.  `missed`: those a
      settled record arrived for when no handle was listening. */
  datatype Link = Link(server: Server, entries: Entries, flying: multiset<Note>, accepted: set<Id>, missed: set<Id>)

  datatype Move =
    | Serve(e: Event)
    | Open(id: Id)
    | Register(now: int, id: Id)
    | Deliver(n: Note)
    | Drop(id: Id)

  predicate Enabled(l: Link, m: Move) {
    match m
    case Serve(_) => true
    case Open(_) => true
    case Register(_, id) => id in l.entries
    case Deliver(n) => n in l.flying
    case Drop(id) => id in l.entries && l.entries[id].receivers > 0
  }

  function Pushes(s: Server, me: string): set<Note> {
    set u | u in s.unblocks && u.address == me :: Push(u.id, u.record)
  }

  /** The server's event behind a move, if there is one. */
  function EventOf(m: Move, me: string): Option<Event> {
    match m
    case Serve(e) => Some(e)
    case Register(now, id) => Some(Asked(now, RegisterListener(id, me)))
    case _ => None
  }

  /** A request the server refuses; whatever it had queued is thrown away. */
  predicate Refused(s: Server, e: Event) {
    e.Asked? && Apply(s, e.now, e.req).1.Failed?
  }

  function Served(l: Link, e: Event, me: string): Link {
    l.(server := Step(l.server, e),
       flying := if Refused(l.server, e) then l.flying else l.flying + multiset(Pushes(Step(l.server, e), me)))
  }

  function Accept(l: Link, id: Id, reply: Reply): Link {
    if reply.PromiseReply? && reply.promise.Some? then
      l.(flying := l.flying + multiset{Answer(id, reply.promise.value)},
         accepted := l.accepted + {id},
         missed := l.missed - {id})
    else l
  }

  function Received(l: Link, n: Note): Link {
    var noted := l.(flying := l.flying - multiset{n});
    var unheard := n.id in l.entries && l.entries[n.id].receivers == 0 && n.record.Settled();
    match n
    case Answer(id, r) =>
      noted.(entries := Answered(l.entries, id, r), missed := if unheard then l.missed + {id} else l.missed)
    case Push(id, r) =>
      noted.(entries := Pushed(l.entries, id, r), missed := if unheard then l.missed + {id} else l.missed)
  }

  function Take(l: Link, m: Move, me: string): Link
    requires Enabled(l, m)
  {
    match m
    case Serve(e) => Served(l, e, me)
    case Open(id) => l.(entries := Opened(l.entries, id))
    case Register(now, id) =>
      var req := RegisterListener(id, me);
      Accept(Served(l, Asked(now, req), me), id, Apply(l.server, now, req).1)
    case Deliver(n) => Received(l, n)
    case Drop(id) => l.(entries := Dropped(l.entries, id))
  }

  // ---------------------------------------------------------------------
  //  Refusals
  // ---------------------------------------------------------------------

  /** The requests the server refuses after it has expired promises that exist:
      it looks at the promise ids first and at these fields later. */
  predicate Malformed(req: Request) {
    match req
    case RegisterListener(_, address) => address == ""
    case TaskCreate(pid, _, _) => pid == ""
    case TaskFence(id, _, _) => id == ""
    case TaskSuspend(id, _) => id == ""
    case _ => false
  }

  /** The event is a malformed request that touches `id` when it is overdue. */
  predicate Swallows(s: Server, e: Event, id: Id) {
    e.Asked? && Malformed(e.req) && id in Touched(e.req) && Overdue(s, e.now, id)
  }

  /** A refused request changes no promise beyond lazy expiry. */
  lemma RefusedChangesNoPromise(s: Server, now: int, req: Request)
    requires Apply(s, now, req).1.Failed?
    ensures Apply(s, now, req).0.promises == Prepared(s, now, req).promises
  {
    if req.TaskHeartbeat? {
      BeatsOnlyTimers(Prepared(s, now, req), now, req.pid, req.refs);
    } else {
      Replies.OtherErrorsChangeNothing(s, now, req);
    }
  }

  lemma MalformedFails(s: Server, now: int, req: Request)
    requires Malformed(req)
    ensures Apply(s, now, req).1.Failed?
  {
  }

  /** A refusal that expired a promise with a proper id was of a malformed request. */
  lemma FailureIsMalformed(s: Server, now: int, req: Request, id: Id)
    requires Inv(s) && id != "" && id in Touched(req)
    requires Apply(s, now, req).1.Failed? && Prepared(s, now, req).SettledPromise(id)
    ensures Malformed(req)
  {
    PreparedAdvances(s, now, req);
    assert Ok(Prepared(s, now, req), id);
  }

  /** What a refused request does to a promise, read off the request and the
      server it finds: it settles it exactly when it is malformed, touches it and
      finds it overdue. */
  lemma RefusedSettlesExactly(s: Server, now: int, req: Request, id: Id)
    requires Inv(s) && id != "" && s.PendingPromise(id)
    ensures Refused(s, Asked(now, req)) && Apply(s, now, req).0.SettledPromise(id) <==> Swallows(s, Asked(now, req), id)
  {
    var q := Prepared(s, now, req);
    ClearedKeepsInv(s);
    Observable.AutoTimeoutsSettleExactly(Cleared(s), now, Touched(req), id);
    if Malformed(req) { MalformedFails(s, now, req); }
    if Apply(s, now, req).1.Failed? {
      RefusedChangesNoPromise(s, now, req);
      if q.SettledPromise(id) { FailureIsMalformed(s, now, req, id); }
    }
  }

  // ---------------------------------------------------------------------
  //  The invariant
  // ---------------------------------------------------------------------

  /** A record the client is told is settled is the server's, for good. */
  predicate IsServers(s: Server, id: Id, r: Record) {
    r.Settled() ==> s.SettledPromise(id) && s.promises[id].record == r
  }

  /** What was sent is the state and the value of the record. */
  predicate Carries(result: Option<PromiseResult>, r: Record) {
    result.Some? && result.value.state == r.state && result.value.value == r.value
  }

  predicate ResultIsServers(s: Server, entries: Entries, id: Id) {
    id in entries && entries[id].result.Some? ==>
      s.SettledPromise(id) && Carries(entries[id].result, s.promises[id].record)
  }

  ghost predicate Valid(l: Link) {
    && Inv(l.server)
    && l.accepted <= l.entries.Keys && "" !in l.accepted
    && (forall n | n in l.flying :: IsServers(l.server, n.id, n.record) && (n.Push? ==> n.record.Settled()))
    && (forall id :: ResultIsServers(l.server, l.entries, id))
  }

  predicate OnItsWay(l: Link, id: Id) {
    l.server.SettledPromise(id)
    && (Answer(id, l.server.promises[id].record) in l.flying || Push(id, l.server.promises[id].record) in l.flying)
  }

  /** We wait for `id`: accepted, nothing received, nothing missed. */
  predicate Waiting(l: Link, id: Id) {
    id in l.accepted && id !in l.missed && id in l.entries && l.entries[id].result.None?
  }

  /** While we wait, the server has us on its list or the result is coming. */
  predicate Covered(l: Link, id: Id, me: string) {
    Waiting(l, id) ==> Subscribed(l.server, id, me) || OnItsWay(l, id)
  }

  lemma ServersStay(s: Server, s': Server, id: Id, r: Record)
    requires Advances(s, s') && IsServers(s, id, r)
    ensures IsServers(s', id, r)
  {
    assert AdvancesAt(s, s', id);
  }

  lemma ServedKeepsValid(l: Link, e: Event, me: string)
    requires Valid(l) && Sensible(e)
    ensures Valid(Served(l, e, me))
  {
    var l' := Served(l, e, me);
    StepKeepsInv(l.server, e);
    SubscribersAreTold(l.server, e, "", me);
    forall n | n in l'.flying
      ensures IsServers(l'.server, n.id, n.record) && (n.Push? ==> n.record.Settled())
    {
      if n in l.flying {
        ServersStay(l.server, l'.server, n.id, n.record);
      } else {
        assert n in Pushes(l'.server, me);
        assert Unblock(me, n.id, n.record) in l'.server.unblocks;
      }
    }
    forall id ensures ResultIsServers(l'.server, l'.entries, id)
    {
      assert AdvancesAt(l.server, l'.server, id) && ResultIsServers(l.server, l.entries, id);
    }
  }

  lemma PushesOnce(s: Server, me: string, id: Id, r: Record)
    ensures multiset(Pushes(s, me))[Push(id, r)] == if Unblock(me, id, r) in s.unblocks then 1 else 0
  {
    assert Push(id, r) in Pushes(s, me) <==> Unblock(me, id, r) in s.unblocks;
  }

  /** An event that is not refused pushes to us exactly the records of the promises we
      listen for that it settles, once each; a refused one pushes nothing. */
  lemma PushesAreExact(l: Link, e: Event, id: Id, r: Record, me: string)
    requires Inv(l.server) && Sensible(e)
    ensures var s', l' := Step(l.server, e), Served(l, e, me);
            var ours := !Refused(l.server, e) && Subscribed(l.server, id, me) && s'.SettledPromise(id) && s'.promises[id].record == r;
            l'.flying[Push(id, r)] == l.flying[Push(id, r)] + if ours then 1 else 0
  {
    UnblocksAreExact(l.server, e, Unblock(me, id, r));
    PushesOnce(Step(l.server, e), me, id, r);
  }

  /** An accepted event that settles a promise we listen for puts its record on
      the way. */
  lemma ServedTells(l: Link, e: Event, id: Id, me: string)
    requires Inv(l.server) && Sensible(e) && !Refused(l.server, e)
    requires Subscribed(l.server, id, me) && Step(l.server, e).SettledPromise(id)
    ensures OnItsWay(Served(l, e, me), id)
  {
    SubscribersAreTold(l.server, e, id, me);
    var s' := Step(l.server, e);
    assert Unblock(me, id, s'.promises[id].record) in s'.unblocks;
    assert Push(id, s'.promises[id].record) in Pushes(s', me);
  }

  /** What is on its way stays so, and a promise still pending keeps us on its list. */
  lemma ServedKeepsCover(l: Link, e: Event, id: Id, me: string)
    requires Inv(l.server) && Sensible(e)
    ensures OnItsWay(l, id) ==> OnItsWay(Served(l, e, me), id)
    ensures Subscribed(l.server, id, me) ==>
              Subscribed(Step(l.server, e), id, me) || Step(l.server, e).SettledPromise(id)
  {
    StepKeepsInv(l.server, e);
    SubscribersAreTold(l.server, e, id, me);
    assert AdvancesAt(l.server, Step(l.server, e), id);
  }

  lemma ServedCovers(l: Link, e: Event, id: Id, me: string)
    requires Valid(l) && Sensible(e) && Covered(l, id, me) && !Swallows(l.server, e, id)
    ensures Covered(Served(l, e, me), id, me)
  {
    ServedKeepsCover(l, e, id, me);
    if Waiting(l, id) && Subscribed(l.server, id, me) && Step(l.server, e).SettledPromise(id) {
      if e.Asked? { RefusedSettlesExactly(l.server, e.now, e.req, id); }
      ServedTells(l, e, id, me);
    }
  }

  /** What a registration is answered with. */
  lemma RegistrationAnswer(s: Server, now: int, id: Id, me: string)
    requires Inv(s)
    ensures var req := RegisterListener(id, me);
            var (s', reply) := Apply(s, now, req);
            reply.PromiseReply? ==>
              && reply.promise.Some?
              && id in s'.promises && s'.promises[id].record == reply.promise.value
              && (if reply.promise.value.Settled() then s'.SettledPromise(id) else Subscribed(s', id, me))
  {
  }

  lemma AcceptKeepsValid(l: Link, l': Link, now: int, id: Id, me: string)
    requires Valid(l) && Valid(l') && id in l'.entries && l'.server == Apply(l.server, now, RegisterListener(id, me)).0
    ensures Valid(Accept(l', id, Apply(l.server, now, RegisterListener(id, me)).1))
    ensures forall other | other != id && Covered(l', other, me) ::
              Covered(Accept(l', id, Apply(l.server, now, RegisterListener(id, me)).1), other, me)
    ensures Covered(l', id, me) ==> Covered(Accept(l', id, Apply(l.server, now, RegisterListener(id, me)).1), id, me)
  {
    RegistrationAnswer(l.server, now, id, me);
  }

  /** The entry a delivery leaves behind is the server's, and empty only if the
      note was no news or nobody was listening. */
  lemma ReceivedKeepsValid(l: Link, n: Note)
    requires Valid(l) && n in l.flying
    ensures Valid(Received(l, n))
  {
    var l' := Received(l, n);
    assert IsServers(l.server, n.id, n.record);
    forall id ensures ResultIsServers(l'.server, l'.entries, id)
    {
      assert ResultIsServers(l.server, l.entries, id);
    }
  }

  lemma ReceivedCovers(l: Link, n: Note, id: Id, me: string)
    requires Valid(l) && n in l.flying && Covered(l, id, me)
    ensures Covered(Received(l, n), id, me)
  {
    var l' := Received(l, n);
    if Waiting(l', id) && OnItsWay(l, id) && (n.id != id || !n.record.Settled()) {
      var r := l.server.promises[id].record;
      assert n != Answer(id, r) && n != Push(id, r);
    }
  }

  lemma TakeKeepsValid(l: Link, m: Move, me: string)
    requires Valid(l) && Enabled(l, m) && (m.Serve? ==> Sensible(m.e))
    ensures Valid(Take(l, m, me))
  {
    match m
    case Serve(e) => ServedKeepsValid(l, e, me);
    case Register(now, i) =>
      ServedKeepsValid(l, Asked(now, RegisterListener(i, me)), me);
      AcceptKeepsValid(l, Served(l, Asked(now, RegisterListener(i, me)), me), now, i, me);
    case Deliver(n) => ReceivedKeepsValid(l, n);
    case Open(i) =>
      forall x ensures ResultIsServers(l.server, Opened(l.entries, i), x) {
        assert ResultIsServers(l.server, l.entries, x);
      }
    case Drop(i) =>
      forall x ensures ResultIsServers(l.server, Dropped(l.entries, i), x) {
        assert ResultIsServers(l.server, l.entries, x);
      }
  }

  lemma StepKeepsValid(l: Link, m: Move, id: Id, me: string)
    requires Valid(l) && Enabled(l, m) && (m.Serve? ==> Sensible(m.e)) && Covered(l, id, me)
    requires EventOf(m, me).Some? ==> !Swallows(l.server, EventOf(m, me).value, id)
    ensures Valid(Take(l, m, me)) && Covered(Take(l, m, me), id, me)
  {
    TakeKeepsValid(l, m, me);
    match m
    case Serve(e) => ServedCovers(l, e, id, me);
    case Register(now, i) =>
      var e := Asked(now, RegisterListener(i, me));
      ServedKeepsValid(l, e, me);
      ServedCovers(l, e, id, me);
      AcceptKeepsValid(l, Served(l, e, me), now, i, me);
    case Deliver(n) => ReceivedCovers(l, n, id, me);
    case Open(_) =>
    case Drop(_) =>
  }

  // ---------------------------------------------------------------------
  //  Any run of the two parties
  // ---------------------------------------------------------------------

  const UNLINKED := Link(EMPTY_SERVER, map[], multiset{}, {}, {})

  predicate Possible(l: Link, moves: seq<Move>, me: string)
    decreases |moves|
  {
    moves == [] || (Enabled(l, moves[0]) && (moves[0].Serve? ==> Sensible(moves[0].e))
                    && Possible(Take(l, moves[0], me), moves[1..], me))
  }

  function After(l: Link, moves: seq<Move>, me: string): Link
    requires Possible(l, moves, me)
    decreases |moves|
  {
    if moves == [] then l else After(Take(l, moves[0], me), moves[1..], me)
  }

  /** No malformed request on the way touched `id` when it was overdue. */
  predicate NothingSwallowed(l: Link, moves: seq<Move>, id: Id, me: string)
    requires Possible(l, moves, me)
    decreases |moves|
  {
    moves == [] || ((EventOf(moves[0], me).Some? ==> !Swallows(l.server, EventOf(moves[0], me).value, id))
                    && NothingSwallowed(Take(l, moves[0], me), moves[1..], id, me))
  }

  lemma {:induction false} RunKeepsCovered(l: Link, moves: seq<Move>, id: Id, me: string)
    requires Valid(l) && Covered(l, id, me) && Possible(l, moves, me) && NothingSwallowed(l, moves, id, me)
    ensures Valid(After(l, moves, me)) && Covered(After(l, moves, me), id, me)
    decreases |moves|
  {
    if moves != [] {
      StepKeepsValid(l, moves[0], id, me);
      RunKeepsCovered(Take(l, moves[0], me), moves[1..], id, me);
    }
  }

  /** No lost unblock.  In any run, an entry we wait on is either on the server's
      list for its pending promise, or its settled record is on its way; and any
      result an entry holds is the server's. */
  lemma NoLostUnblock(moves: seq<Move>, id: Id, me: string)
    requires Possible(UNLINKED, moves, me) && NothingSwallowed(UNLINKED, moves, id, me)
    ensures var l := After(UNLINKED, moves, me);
            && (Waiting(l, id) ==> Subscribed(l.server, id, me) || OnItsWay(l, id))
            && ResultIsServers(l.server, l.entries, id)
  {
    InvInitially();
    RunKeepsCovered(UNLINKED, moves, id, me);
  }

  /** Once a promise has settled and everything in flight has arrived, its entry
      holds the server's result, unless it arrived while nobody was listening. */
  lemma SettledIsHeard(moves: seq<Move>, id: Id, me: string)
    requires Possible(UNLINKED, moves, me) && NothingSwallowed(UNLINKED, moves, id, me)
    requires var l := After(UNLINKED, moves, me);
             l.flying == multiset{} && id in l.accepted && id !in l.missed && l.server.SettledPromise(id)
    ensures var l := After(UNLINKED, moves, me);
            id in l.entries && Carries(l.entries[id].result, l.server.promises[id].record)
  {
    InvInitially();
    RunKeepsCovered(UNLINKED, moves, id, me);
    assert ResultIsServers(After(UNLINKED, moves, me).server, After(UNLINKED, moves, me).entries, id);
  }

  // ---------------------------------------------------------------------
  //  Entries and their handles
  // ---------------------------------------------------------------------

  /** A result held is the server's and stays as it is. */
  lemma StepKeepsResult(l: Link, m: Move, id: Id, me: string)
    requires Valid(l) && Enabled(l, m) && (m.Serve? ==> Sensible(m.e))
    requires id in l.entries && l.entries[id].result.Some?
    ensures var l' := Take(l, m, me);
            id in l'.entries && l'.entries[id].result == l.entries[id].result
  {
    assert ResultIsServers(l.server, l.entries, id);
    if m.Deliver? { assert IsServers(l.server, m.n.id, m.n.record); }
  }

  /** Once heard, a result is never lost and never replaced, whatever comes after. */
  lemma {:induction false} ResultStays(l: Link, moves: seq<Move>, id: Id, me: string)
    requires Valid(l) && Possible(l, moves, me) && id in l.entries && l.entries[id].result.Some?
    ensures var l' := After(l, moves, me);
            id in l'.entries && l'.entries[id].result == l.entries[id].result
    decreases |moves|
  {
    if moves != [] {
      TakeKeepsValid(l, moves[0], me);
      StepKeepsResult(l, moves[0], id, me);
      ResultStays(Take(l, moves[0], me), moves[1..], id, me);
    }
  }

  function Listening(l: Link, id: Id): nat {
    if id in l.entries then l.entries[id].receivers else 0
  }

  /** Handles opened less handles dropped. */
  function StillOpen(moves: seq<Move>, id: Id): int {
    if moves == [] then 0
    else (if moves[0] == Open(id) then 1 else if moves[0] == Drop(id) then -1 else 0) + StillOpen(moves[1..], id)
  }

  lemma StepCounts(l: Link, m: Move, id: Id, me: string)
    requires Enabled(l, m)
    ensures Listening(Take(l, m, me), id)
         == Listening(l, id) + if m == Open(id) then 1 else if m == Drop(id) then -1 else 0
  {
  }

  /** The receivers of an entry are the handles still open: nothing else adds or
      removes one. */
  lemma {:induction false} ReceiversAreHandles(l: Link, moves: seq<Move>, id: Id, me: string)
    requires Possible(l, moves, me)
    ensures Listening(After(l, moves, me), id) == Listening(l, id) + StillOpen(moves, id)
    decreases |moves|
  {
    if moves != [] {
      StepCounts(l, moves[0], id, me);
      ReceiversAreHandles(Take(l, moves[0], me), moves[1..], id, me);
    }
  }

  /** A push that comes before the handle is kept for it. */
  lemma EarlyPushIsKept(l: Link, n: Note, me: string)
    requires Valid(l) && n in l.flying && n.Push? && n.id !in l.entries
    ensures var l1 := Take(l, Deliver(n), me);
            var l2 := Take(l1, Open(n.id), me);
            && Listening(l2, n.id) == 1
            && l.server.SettledPromise(n.id) && Carries(l2.entries[n.id].result, l.server.promises[n.id].record)
  {
    assert IsServers(l.server, n.id, n.record);
  }

  // ---------------------------------------------------------------------
  //  Where it fails
  // ---------------------------------------------------------------------

  /** A malformed request still expires what it touches, and the unblock messages
      that queued are discarded with it: what we wait for stays covered exactly
      when the event is not a malformed request that finds it overdue. */
  lemma CoveredExactly(l: Link, e: Event, id: Id, me: string)
    requires Valid(l) && Sensible(e) && Waiting(l, id) && Subscribed(l.server, id, me)
    ensures Covered(Served(l, e, me), id, me) <==> !Swallows(l.server, e, id)
  {
    StepKeepsInv(l.server, e);
    if !Swallows(l.server, e, id) {
      ServedCovers(l, e, id, me);
    } else {
      RefusedSettlesExactly(l.server, e.now, e.req, id);
      assert forall n | n in l.flying && n.id == id :: !n.record.Settled();
    }
  }

  /** Where nobody sends malformed requests nothing is swallowed. */
  lemma {:induction false} NobodyMalformed(l: Link, moves: seq<Move>, id: Id, me: string)
    requires Possible(l, moves, me) && me != ""
    requires forall m | m in moves && m.Serve? && m.e.Asked? :: !Malformed(m.e.req)
    ensures NothingSwallowed(l, moves, id, me)
    decreases |moves|
  {
    if moves != [] {
      assert moves[0] in moves;
      NobodyMalformed(Take(l, moves[0], me), moves[1..], id, me);
    }
  }

  /** It does happen, to any overdue promise someone waits for: a `task.create` for
      it that names no worker. */
  lemma RefusalSwallows(l: Link, now: int, id: Id, me: string, args: CreateArgs)
    requires Valid(l) && Waiting(l, id) && Subscribed(l.server, id, me) && Overdue(l.server, now, id) && args.id == id
    ensures !Covered(Served(l, Asked(now, TaskCreate("", 0, args)), me), id, me)
  {
    CoveredExactly(l, Asked(now, TaskCreate("", 0, args)), id, me);
  }

  /** A settled record arriving for an entry we wait on is heard exactly when a
      handle is still listening, and missed otherwise. */
  lemma HeardExactly(l: Link, n: Note)
    requires Valid(l) && n in l.flying && n.record.Settled() && Waiting(l, n.id)
    ensures var l' := Received(l, n);
            && (Carries(l'.entries[n.id].result, l.server.promises[n.id].record) <==> l.entries[n.id].receivers > 0)
            && (l'.entries[n.id].result.Some? <==> l.entries[n.id].receivers > 0)
            && (n.id in l'.missed <==> l.entries[n.id].receivers == 0)
            && (l.entries[n.id].receivers == 0 ==> l'.entries == l.entries)
  {
    assert IsServers(l.server, n.id, n.record);
  }

  lemma AcceptedIsCovered(l: Link, id: Id, reply: Reply, me: string)
    requires id in l.entries && l.entries[id].result.None?
    requires reply.PromiseReply? && reply.promise.Some?
    requires id in l.server.promises && l.server.promises[id].record == reply.promise.value
    requires !reply.promise.value.Settled() ==> Subscribed(l.server, id, me)
    ensures var l' := Accept(l, id, reply);
            Waiting(l', id) && (Subscribed(l'.server, id, me) || OnItsWay(l', id))
  {
  }

  /** The next refresh makes up for whatever was missed. */
  lemma RefreshRepairs(l: Link, now: int, id: Id, me: string)
    requires Valid(l) && Enabled(l, Register(now, id)) && l.entries[id].result.None?
    requires Apply(l.server, now, RegisterListener(id, me)).1.PromiseReply?
    ensures var l' := Take(l, Register(now, id), me);
            Waiting(l', id) && (Subscribed(l'.server, id, me) || OnItsWay(l', id))
  {
    var req := RegisterListener(id, me);
    RegistrationAnswer(l.server, now, id, me);
    AcceptedIsCovered(Served(l, Asked(now, req), me), id, Apply(l.server, now, req).1, me);
  }

  // ---------------------------------------------------------------------
  //  The client
  // ---------------------------------------------------------------------

  /** Sent on the channel: the result is the record's if anyone listens, and as it was
      if nobody does. */
  predicate Heard(e: Entry, e': Entry, r: Record) {
    && e'.receivers == e.receivers
    && (if e.receivers == 0 then e'.result == e.result else Carries(e'.result, r))
  }

  class Subscriber {
    var subscriptions: Entries

    constructor ()
      ensures subscriptions == map[]
    {
      subscriptions := map[];
    }

    /** The locked part of `create_handle_from_id`. */
    method OpenHandle(id: Id) returns (needsListener: bool)
      modifies this
      ensures subscriptions == Opened(old(subscriptions), id)
      ensures id in subscriptions && subscriptions == old(subscriptions)[id := subscriptions[id]]
      ensures if id in old(subscriptions)
              then subscriptions[id].receivers == old(subscriptions)[id].receivers + 1
                   && subscriptions[id].result == old(subscriptions)[id].result
              else subscriptions[id].receivers == 1 && subscriptions[id].result.None?
      ensures needsListener <==> id !in old(subscriptions)
    {
      needsListener := id !in subscriptions;
      if needsListener {
        subscriptions := subscriptions[id := Entry(None, 1)];
      } else {
        var e := subscriptions[id];
        subscriptions := subscriptions[id := e.(receivers := e.receivers + 1)];
      }
    }

    /** The answer to a registration, for a new handle or a refresh. */
    method OnAnswer(id: Id, record: Record)
      modifies this
      ensures subscriptions == Answered(old(subscriptions), id, record)
      ensures subscriptions.Keys == old(subscriptions).Keys
      ensures id in subscriptions ==>
                if record.state.Pending? then subscriptions[id] == old(subscriptions)[id]
                else Heard(old(subscriptions)[id], subscriptions[id], record)
      ensures forall other | other in subscriptions && other != id :: subscriptions[other] == old(subscriptions)[other]
    {
      if record.Settled() {
        if id in subscriptions {
          subscriptions := subscriptions[id := Sent(subscriptions[id], PromiseResult(record.state, record.value))];
        }
      }
    }

    /** The `Unblock` arm of the message handler. */
    method OnUnblock(id: Id, record: Record)
      modifies this
      ensures subscriptions == Pushed(old(subscriptions), id, record)
      ensures subscriptions.Keys == old(subscriptions).Keys + {id}
      ensures if id in old(subscriptions) then Heard(old(subscriptions)[id], subscriptions[id], record)
              else Carries(subscriptions[id].result, record) && subscriptions[id].receivers == 0
      ensures forall other | other in subscriptions && other != id :: subscriptions[other] == old(subscriptions)[other]
    {
      var result := PromiseResult(record.state, record.value);
      if id in subscriptions {
        subscriptions := subscriptions[id := Sent(subscriptions[id], result)];
      } else {
        subscriptions := subscriptions[id := Entry(Some(result), 0)];
      }
    }

    /** One round of the refresh loop; `answers` holds what the server says for
        each id asked about, or nothing where the call fails. */
    method Refresh(answers: map<Id, Record>) returns (asked: set<Id>)
      modifies this
      ensures asked == set id | id in old(subscriptions) && old(subscriptions)[id].result.None?
      ensures subscriptions.Keys == old(subscriptions).Keys
      ensures forall id | id in subscriptions ::
                if id in asked && id in answers && !answers[id].state.Pending?
                then Heard(old(subscriptions)[id], subscriptions[id], answers[id])
                else subscriptions[id] == old(subscriptions)[id]
    {
      asked := set id | id in subscriptions && subscriptions[id].result.None?;
      var todo := asked;
      while todo != {}
        invariant todo <= asked && subscriptions.Keys == old(subscriptions).Keys
        invariant forall id | id in subscriptions ::
                    if id in asked - todo && id in answers && !answers[id].state.Pending?
                    then Heard(old(subscriptions)[id], subscriptions[id], answers[id])
                    else subscriptions[id] == old(subscriptions)[id]
        decreases |todo|
      {
        var id :| id in todo;
        todo := todo - {id};
        if id in answers {
          OnAnswer(id, answers[id]);
        }
      }
    }
  }
}

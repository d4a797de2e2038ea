/**
 The worker's promise cache (resonate/src/effects.rs): never ahead of the server,
 and final where it is settled.
 */
module Cache {
  import opened Protocol
  import opened Requests
  import opened Invariant
  import opened Progress
  import opened Runs
  import Replies

  type Cached = map<Id, Record>

  /** A record as it comes over the wire; `None` when it cannot be decoded. */
  datatype Wire = Wire(id: Id, record: Option<Record>)

  function Inserted(cache: Cached, id: Id, r: Record): Cached {
    if id in cache && cache[id].Settled() then cache else cache[id := r]
  }

  function Absorbed(cache: Cached, records: seq<Wire>): Cached {
    if records == [] then cache
    else
      var last := records[|records| - 1];
      var before := Absorbed(cache, records[..|records| - 1]);
      if last.record.Some? then Inserted(before, last.id, last.record.value) else before
  }

  // ---------------------------------------------------------------------
  //  Coherence
  // ---------------------------------------------------------------------

  /** The server's record of `id` is `r` or has moved on from it. */
  predicate Behind(r: Record, s: Server, id: Id) {
    id in s.promises && RecordAdvances(r, s.promises[id].record)
  }

  ghost predicate Coherent(cache: Cached, s: Server) {
    forall id | id in cache :: Behind(cache[id], s, id)
  }

  ghost predicate AllBehind(records: seq<Wire>, s: Server) {
    forall w | w in records && w.record.Some? :: Behind(w.record.value, s, w.id)
  }

  lemma StaysCoherent(cache: Cached, s: Server, s': Server)
    requires Coherent(cache, s) && Advances(s, s')
    ensures Coherent(cache, s')
  {
    forall id | id in cache ensures Behind(cache[id], s', id)
    {
      assert AdvancesAt(s, s', id);
    }
  }

  lemma {:induction false} AbsorbedCoherently(cache: Cached, records: seq<Wire>, s: Server)
    requires Coherent(cache, s) && AllBehind(records, s)
    ensures Coherent(Absorbed(cache, records), s)
  {
    if records != [] {
      assert records[|records| - 1] in records;
      AbsorbedCoherently(cache, records[..|records| - 1], s);
    }
  }

  // ---------------------------------------------------------------------
  //  Nothing learnt is forgotten
  // ---------------------------------------------------------------------

  /** Every old entry is there, as it was or as it went on. */
  ghost predicate KeepsUp(cache: Cached, cache': Cached) {
    forall id | id in cache :: Knows(cache', id, cache[id])
  }

  /** The cache has at least this of `id`; if it is settled, just this. */
  predicate Knows(cache: Cached, id: Id, r: Record) {
    id in cache && RecordAdvances(r, cache[id])
  }

  ghost predicate KnowsAll(cache: Cached, records: seq<Wire>) {
    forall w | w in records && w.record.Some? :: Knows(cache, w.id, w.record.value)
  }

  /** An insert takes the news in, unless what is there is newer, and touches no
      other entry. */
  lemma InsertedKeepsUp(cache: Cached, id: Id, r: Record, s: Server)
    requires Coherent(cache, s) && Behind(r, s, id)
    ensures Knows(Inserted(cache, id, r), id, r)
    ensures KeepsUp(cache, Inserted(cache, id, r))
    ensures forall other | other != id :: other in Inserted(cache, id, r) <==> other in cache
  {
    assert id in cache ==> Behind(cache[id], s, id);
  }

  lemma KnowsLater(cache: Cached, cache': Cached, id: Id, r: Record)
    requires Knows(cache, id, r) && KeepsUp(cache, cache')
    ensures Knows(cache', id, r)
  {
    assert Knows(cache', id, cache[id]);
  }

  lemma KeepsUpTransitively(a: Cached, b: Cached, c: Cached)
    requires KeepsUp(a, b) && KeepsUp(b, c)
    ensures KeepsUp(a, c)
  {
    forall id | id in a ensures Knows(c, id, a[id])
    {
      assert Knows(b, id, a[id]);
      KnowsLater(b, c, id, a[id]);
    }
  }

  /** After a merge the cache has at least all it had and all that came, and nothing
      else has changed. */
  lemma {:induction false} AbsorbedKeepsUp(cache: Cached, records: seq<Wire>, s: Server)
    requires Coherent(cache, s) && AllBehind(records, s)
    ensures KeepsUp(cache, Absorbed(cache, records)) && KnowsAll(Absorbed(cache, records), records)
    ensures forall id | forall w | w in records && w.record.Some? :: w.id != id ::
              (id in Absorbed(cache, records) <==> id in cache)
              && (id in cache ==> Absorbed(cache, records)[id] == cache[id])
  {
    if records == [] {
      assert forall id | id in cache :: Knows(cache, id, cache[id]);
    } else {
      var first, last := records[..|records| - 1], records[|records| - 1];
      var before := Absorbed(cache, first);
      assert records == first + [last] && last in records;
      AbsorbedKeepsUp(cache, first, s);
      AbsorbedCoherently(cache, first, s);
      if last.record.Some? {
        InsertedKeepsUp(before, last.id, last.record.value, s);
        KeepsUpTransitively(cache, before, Absorbed(cache, records));
      }
      forall w | w in records && w.record.Some? ensures Knows(Absorbed(cache, records), w.id, w.record.value)
      {
        if w in first && last.record.Some? { KnowsLater(before, Absorbed(cache, records), w.id, w.record.value); }
      }
    }
  }

  // ---------------------------------------------------------------------
  //  Any interleaving
  // ---------------------------------------------------------------------

  /** What may happen next: the server's next event, anyone's; or the arrival of
      a record as it was after the first `asOf` events. */
  datatype Item = Happens | Arrives(asOf: nat, id: Id)

  function Happened(log: seq<Item>): nat {
    if log == [] then 0 else Happened(log[..|log| - 1]) + if log[|log| - 1].Happens? then 1 else 0
  }

  /** Nothing arrives from the future. */
  ghost predicate Causal(es: seq<Event>, log: seq<Item>) {
    && Happened(log) <= |es|
    && forall k | 0 <= k < |log| && log[k].Arrives? :: log[k].asOf <= Happened(log[..k])
  }

  function CacheAfter(s: Server, es: seq<Event>, log: seq<Item>): Cached {
    if log == [] then map[]
    else
      var before := CacheAfter(s, es, log[..|log| - 1]);
      match log[|log| - 1]
      case Happens => before
      case Arrives(asOf, id) =>
        if asOf <= |es| && id in Run(s, es[..asOf]).promises
        then Inserted(before, id, Run(s, es[..asOf]).promises[id].record)
        else before
  }

  /** A record of some moment is behind the server at every later one. */
  lemma LaterIsAhead(s: Server, es: seq<Event>, i: nat, j: nat, id: Id, r: Record)
    requires Inv(s) && SensibleRun(es) && i <= j <= |es| && Behind(r, Run(s, es[..i]), id)
    ensures Behind(r, Run(s, es[..j]), id)
  {
    RunAdvances(s, es, i, j);
    assert AdvancesAt(Run(s, es[..i]), Run(s, es[..j]), id);
  }

  lemma CausalBefore(es: seq<Event>, log: seq<Item>)
    requires log != [] && Causal(es, log)
    ensures Causal(es, log[..|log| - 1])
  {
    assert forall k | 0 <= k < |log| :: log[..|log| - 1][..k] == log[..k];
  }

  /** Whatever other workers do and however stale the snapshots that arrive, no
      cached record is ahead of the server's, and a settled one is the server's. */
  lemma {:induction false} CacheIsCoherent(s: Server, es: seq<Event>, log: seq<Item>, id: Id)
    requires Inv(s) && SensibleRun(es) && Causal(es, log)
    requires id in CacheAfter(s, es, log)
    ensures Behind(CacheAfter(s, es, log)[id], Run(s, es[..Happened(log)]), id)
    ensures CacheAfter(s, es, log)[id].Settled() ==>
              Run(s, es[..Happened(log)]).promises[id].record == CacheAfter(s, es, log)[id]
  {
    var before, last := log[..|log| - 1], log[|log| - 1];
    CausalBefore(es, log);
    var r := CacheAfter(s, es, log)[id];
    if id in CacheAfter(s, es, before) && CacheAfter(s, es, before)[id] == r {
      CacheIsCoherent(s, es, before, id);
      LaterIsAhead(s, es, Happened(before), Happened(log), id, r);
    } else {
      LaterIsAhead(s, es, last.asOf, Happened(log), id, r);
    }
  }

  lemma {:induction false} LogIsCoherent(s: Server, es: seq<Event>, log: seq<Item>)
    requires Inv(s) && SensibleRun(es) && Causal(es, log)
    ensures Coherent(CacheAfter(s, es, log), Run(s, es[..Happened(log)]))
  {
    forall id | id in CacheAfter(s, es, log)
      ensures Behind(CacheAfter(s, es, log)[id], Run(s, es[..Happened(log)]), id)
    {
      CacheIsCoherent(s, es, log, id);
    }
  }

  /** One more item: nothing is forgotten, and a record that arrives is taken in. */
  lemma OneMoreItem(s: Server, es: seq<Event>, log: seq<Item>)
    requires Inv(s) && SensibleRun(es) && Causal(es, log) && log != []
    ensures KeepsUp(CacheAfter(s, es, log[..|log| - 1]), CacheAfter(s, es, log))
    ensures var last := log[|log| - 1];
            last.Arrives? && last.id in Run(s, es[..last.asOf]).promises ==>
              Knows(CacheAfter(s, es, log), last.id, Run(s, es[..last.asOf]).promises[last.id].record)
  {
    var before, last := log[..|log| - 1], log[|log| - 1];
    var c, n := CacheAfter(s, es, before), Happened(before);
    CausalBefore(es, log);
    LogIsCoherent(s, es, before);
    assert forall id | id in c :: Knows(c, id, c[id]);
    if last.Arrives? && last.id in Run(s, es[..last.asOf]).promises {
      var r := Run(s, es[..last.asOf]).promises[last.id].record;
      LaterIsAhead(s, es, last.asOf, n, last.id, r);
      InsertedKeepsUp(c, last.id, r, Run(s, es[..n]));
    }
  }

  /** Nothing that has arrived is forgotten: whatever else arrives, in whatever order,
      the cache has at least every record that ever came, and so a settled one for good. */
  lemma {:induction false} CacheForgetsNothing(s: Server, es: seq<Event>, log: seq<Item>, k: nat)
    requires Inv(s) && SensibleRun(es) && Causal(es, log) && k < |log| && log[k].Arrives?
    requires log[k].asOf <= |es| && log[k].id in Run(s, es[..log[k].asOf]).promises
    ensures var r := Run(s, es[..log[k].asOf]).promises[log[k].id].record;
            && Knows(CacheAfter(s, es, log), log[k].id, r)
            && (!r.state.Pending? ==> CacheAfter(s, es, log)[log[k].id] == r)
    decreases |log|
  {
    var before := log[..|log| - 1];
    OneMoreItem(s, es, log);
    if k < |log| - 1 {
      CausalBefore(es, log);
      CacheForgetsNothing(s, es, before, k);
      assert before[k] == log[k];
      KnowsLater(CacheAfter(s, es, before), CacheAfter(s, es, log), log[k].id,
                 Run(s, es[..log[k].asOf]).promises[log[k].id].record);
    }
  }

  /** Every cached record is the server's as of some moment since the cache began. */
  lemma {:induction false} CachedAsOf(s: Server, es: seq<Event>, log: seq<Item>, id: Id) returns (n: nat)
    requires id in CacheAfter(s, es, log)
    ensures n <= |es| && id in Run(s, es[..n]).promises
    ensures Run(s, es[..n]).promises[id].record == CacheAfter(s, es, log)[id]
  {
    var before, last := log[..|log| - 1], log[|log| - 1];
    if id in CacheAfter(s, es, before) && CacheAfter(s, es, before)[id] == CacheAfter(s, es, log)[id] {
      n := CachedAsOf(s, es, before, id);
    } else {
      n := last.asOf;
    }
  }

  // ---------------------------------------------------------------------
  //  Answering from the cache
  // ---------------------------------------------------------------------

  lemma PreparedCoherent(cache: Cached, s: Server, now: int, req: Request)
    requires Inv(s) && Coherent(cache, s)
    ensures Coherent(cache, Prepared(s, now, req))
  {
    PreparedAdvances(s, now, req);
    StaysCoherent(cache, s, Prepared(s, now, req));
  }

  /** A settle answered from the cache is the settle the server would have
      answered: the same record, and nothing written. */
  lemma SettleFromCache(cache: Cached, s: Server, now: int, task: Id, version: int, args: SettleArgs)
    requires Inv(s) && Coherent(cache, s) && args.id in cache && cache[args.id].Settled()
    ensures var req := TaskFence(task, version, FenceSettle(args));
            var (s', reply) := Apply(s, now, req);
            && s' == Prepared(s, now, req)
            && (reply.FenceReply? ==> reply.result == Some(cache[args.id]))
  {
    PreparedCoherent(cache, s, now, TaskFence(task, version, FenceSettle(args)));
  }

  /** A create answered from the cache would have created nothing: the server has
      the promise, as cached or settled since. */
  lemma CreateFromCache(cache: Cached, s: Server, now: int, task: Id, version: int, args: CreateArgs)
    requires Inv(s) && Coherent(cache, s) && args.id in cache
    ensures var req := TaskFence(task, version, FenceCreate(args));
            var (s', reply) := Apply(s, now, req);
            && s' == Prepared(s, now, req)
            && (reply.FenceReply? ==> reply.result.Some? && RecordAdvances(cache[args.id], reply.result.value))
  {
    PreparedCoherent(cache, s, now, TaskFence(task, version, FenceCreate(args)));
  }

  // ---------------------------------------------------------------------
  //  Effects
  // ---------------------------------------------------------------------

  /** The server's answer to a fenced request, decoded where it can be. */
  datatype Answer = Refused | Answered(record: Option<Record>, preload: seq<Wire>)

  class Effects {
    var cache: Cached

    constructor (preload: seq<Wire>)
      ensures cache == Absorbed(map[], preload)
    {
      cache := map[];
      new;
      Absorb(preload);
    }

    method InsertMonotonic(id: Id, r: Record)
      modifies this
      ensures cache == Inserted(old(cache), id, r)
      ensures if id in old(cache) && !old(cache)[id].state.Pending? then cache == old(cache)
              else cache == old(cache)[id := r]
    {
      if id in cache && cache[id].Settled() {
        return;
      }
      cache := cache[id := r];
    }

    method Absorb(records: seq<Wire>)
      modifies this
      ensures cache == Absorbed(old(cache), records)
    {
      for i := 0 to |records|
        invariant cache == Absorbed(old(cache), records[..i])
      {
        assert records[..i + 1][..i] == records[..i];
        if records[i].record.Some? {
          InsertMonotonic(records[i].id, records[i].record.value);
        }
      }
      assert records[..|records|] == records;
    }

    /** Take in an answer; what is handed back is the answer's own record. */
    method Take(id: Id, answer: Answer) returns (r: Option<Record>)
      modifies this
      ensures cache == AfterAnswer(old(cache), id, answer)
      ensures r == if answer.Answered? then answer.record else None
    {
      if answer.Refused? { return None; }
      Absorb(answer.preload);
      if answer.record.Some? {
        InsertMonotonic(id, answer.record.value);
      }
      return answer.record;
    }

    /** `answer` is what the server would say, if it were asked. */
    method CreatePromise(id: Id, answer: Answer, ghost s: Server) returns (r: Option<Record>, asked: bool)
      requires Coherent(cache, s) && Speaks(answer, id, s)
      modifies this
      ensures asked <==> id !in old(cache)
      ensures cache == if asked then AfterAnswer(old(cache), id, answer) else old(cache)
      ensures Coherent(cache, s) && (r.Some? ==> Behind(r.value, s, id))
      ensures KeepsUp(old(cache), cache) && (asked ==> Learned(cache, id, answer))
      ensures r == if !asked then Some(old(cache)[id]) else if answer.Answered? then answer.record else None
    {
      if id in cache {
        return Some(cache[id]), false;
      }
      AnswerIsCoherent(cache, id, answer, s);
      AnswerIsLearned(cache, id, answer, s);
      r := Take(id, answer);
      asked := true;
    }

    method SettlePromise(id: Id, answer: Answer, ghost s: Server) returns (r: Option<Record>, asked: bool)
      requires Coherent(cache, s) && Speaks(answer, id, s)
      modifies this
      ensures asked <==> !(id in old(cache) && old(cache)[id].Settled())
      ensures cache == if asked then AfterAnswer(old(cache), id, answer) else old(cache)
      ensures Coherent(cache, s) && (r.Some? ==> Behind(r.value, s, id))
      ensures KeepsUp(old(cache), cache) && (asked ==> Learned(cache, id, answer))
      ensures r == if !asked then Some(s.promises[id].record) else if answer.Answered? then answer.record else None
    {
      if id in cache && cache[id].Settled() {
        return Some(cache[id]), false;
      }
      AnswerIsCoherent(cache, id, answer, s);
      AnswerIsLearned(cache, id, answer, s);
      r := Take(id, answer);
      asked := true;
    }
  }

  /** Every record of the answer that can be decoded is known; one that is settled is
      cached as it is. */
  ghost predicate Learned(cache: Cached, id: Id, answer: Answer) {
    answer.Answered? ==>
      && KnowsAll(cache, answer.preload)
      && (answer.record.Some? ==> Knows(cache, id, answer.record.value))
      && (answer.record.Some? && !answer.record.value.state.Pending? ==> cache[id] == answer.record.value)
  }

  function AfterAnswer(cache: Cached, id: Id, answer: Answer): Cached {
    match answer
    case Refused => cache
    case Answered(record, preload) =>
      var c := Absorbed(cache, preload);
      if record.Some? then Inserted(c, id, record.value) else c
  }

  /** The answer was true of the server at some time up to now. */
  ghost predicate Speaks(answer: Answer, id: Id, s: Server) {
    answer.Answered? ==>
      (answer.record.Some? ==> Behind(answer.record.value, s, id)) && AllBehind(answer.preload, s)
  }

  /** What the server answers to a fenced request is true of it. */
  lemma FenceAnswerSpeaks(s: Server, now: int, task: Id, version: int, action: FenceAction, preload: seq<Wire>)
    requires Inv(s)
    requires var reply := Apply(s, now, TaskFence(task, version, action)).1;
             reply.FenceReply? && forall w | w in preload && w.record.Some? ::
               w.id in reply.preload && w.record.value == reply.preload[w.id]
    ensures var (s', reply) := Apply(s, now, TaskFence(task, version, action));
            Speaks(Answered(reply.result, preload), Replies.Subject(TaskFence(task, version, action)), s')
  {
    var req := TaskFence(task, version, action);
    Replies.RepliesAreCurrent(s, now, req, "");
    forall w | w in preload && w.record.Some? ensures Behind(w.record.value, Apply(s, now, req).0, w.id)
    {
      Replies.RepliesAreCurrent(s, now, req, w.id);
    }
  }

  lemma AnswerIsCoherent(cache: Cached, id: Id, answer: Answer, s: Server)
    requires Coherent(cache, s) && Speaks(answer, id, s)
    ensures Coherent(AfterAnswer(cache, id, answer), s)
  {
    if answer.Answered? {
      AbsorbedCoherently(cache, answer.preload, s);
    }
  }

  lemma AnswerIsLearned(cache: Cached, id: Id, answer: Answer, s: Server)
    requires Coherent(cache, s) && Speaks(answer, id, s)
    ensures KeepsUp(cache, AfterAnswer(cache, id, answer)) && Learned(AfterAnswer(cache, id, answer), id, answer)
  {
    assert forall i | i in cache :: Knows(cache, i, cache[i]);
    if answer.Answered? {
      var c := Absorbed(cache, answer.preload);
      AbsorbedKeepsUp(cache, answer.preload, s);
      if answer.record.Some? {
        AbsorbedCoherently(cache, answer.preload, s);
        InsertedKeepsUp(c, id, answer.record.value, s);
        KeepsUpTransitively(cache, c, AfterAnswer(cache, id, answer));
        forall w | w in answer.preload && w.record.Some? ensures Knows(AfterAnswer(cache, id, answer), w.id, w.record.value)
        {
          KnowsLater(c, AfterAnswer(cache, id, answer), w.id, w.record.value);
        }
      }
    }
  }
}

/**
 Durable execution: a workflow that is crashed, suspended and re-executed any
 number of times, by workers that do not know of each other, finishes with the
 value one direct evaluation would give.

 An attempt runs the workflow from the top.  What it knows of the promises is its
 cache: an operation the cache has settled answers from there; one it has pending
 is run (a local leaf), entered (a nested workflow) or suspended on (anything
 remote); one it does not have is asked for.  Creating and settling are fenced, so
 only the attempt that holds the lease can do either.  An attempt that has lost it
 goes on until it needs one of the two; then it is refused, the refusal surfaces as
 the result of its user code, and it asks for the workflow to be rejected with it.
 That closing request is not fenced, nor is any other, so it is granted whenever
 somebody holds the lease.  Between any two steps an attempt may crash, the lease may
 be lost, or a remote answer may come in.
 */
module Replay {
  import opened Protocol
  import opened Workflows
  import Cache

  // ---------------------------------------------------------------------
  //  Attempts
  // ---------------------------------------------------------------------

  /** The contexts of an attempt, innermost last pushed.  A frame's workflow is what
      is left of it: its next operation is the `k`-th of the context at `path`. */
  datatype Stack = Bottom | Push(below: Stack, path: Path, k: nat, flow: Flow)

  /** A record as an attempt knows it: pending, or settled with a result. */
  type Cached = map<Path, Option<Result>>

  /** `ran` is the result of a leaf that has run and is not yet settled. */
  datatype Attempt = Attempt(stack: Stack, ran: Option<Result>, cache: Cached)

  /** `created` and `store` are the server's: the promises there are, and the results
      of the settled ones.  `remotes` are those created for remote operations. */
  datatype World = World(
    store: Store,
    created: set<Path>,
    remotes: set<Path>,
    attempts: map<nat, Attempt>,
    holder: Option<nat>,
    finished: Option<Result>)

  const NEW_WORLD := World(map[], {}, {}, map[], None, None)

  datatype Move =
    | Start(a: nat, preload: set<Path>)
    | Fetch(a: nat, preload: set<Path>)
    | ReadBack(a: nat)
    | RunLeaf(a: nat, result: Result)
    | SettleLeaf(a: nat)
    | Enter(a: nat)
    | Leave(a: nat)
    | Suspend(a: nat, redirect: Option<set<Path>>)
    | Finish(a: nat)
    | Refuse(a: nat)
    | Crash(a: nat)
    | LoseLease
    | Answer(p: Path, result: Result)

  /** The promise of the operation the innermost context is at. */
  function Here(stack: Stack): Path
    requires stack.Push?
  {
    stack.path + [stack.k]
  }

  predicate Awaiting(w: World, a: nat) {
    a in w.attempts && w.attempts[a].ran.None? && w.attempts[a].stack.Push? && w.attempts[a].stack.flow.Await?
  }

  /** The attempt is at an operation its cache says is pending. */
  predicate AtPending(w: World, a: nat) {
    Awaiting(w, a) && Here(w.attempts[a].stack) in w.attempts[a].cache && w.attempts[a].cache[Here(w.attempts[a].stack)].None?
  }

  predicate Returning(w: World, a: nat) {
    a in w.attempts && w.attempts[a].ran.None? && w.attempts[a].stack.Push? && w.attempts[a].stack.flow.Return?
  }

  /** The attempt can go on only by creating or settling a promise: it is at an
      operation it has no record of, or has a leaf or a nested workflow to settle. */
  predicate NeedsFence(w: World, a: nat) {
    || (Awaiting(w, a) && Here(w.attempts[a].stack) !in w.attempts[a].cache)
    || (a in w.attempts && w.attempts[a].ran.Some?)
    || (Returning(w, a) && w.attempts[a].stack.below.Push?)
  }

  predicate Enabled(w: World, m: Move) {
    match m
    case Start(a, _) => a !in w.attempts && w.holder.None? && w.finished.None?
    case Fetch(a, _) => Awaiting(w, a) && Here(w.attempts[a].stack) !in w.attempts[a].cache && w.holder == Some(a)
    case ReadBack(a) =>
      Awaiting(w, a) && Here(w.attempts[a].stack) in w.attempts[a].cache && w.attempts[a].cache[Here(w.attempts[a].stack)].Some?
    case RunLeaf(a, _) => AtPending(w, a) && w.attempts[a].stack.flow.op.Leaf?
    case SettleLeaf(a) =>
      && a in w.attempts && w.attempts[a].ran.Some? && w.attempts[a].stack.Push? && w.attempts[a].stack.flow.Await?
      && w.holder == Some(a)
    case Enter(a) => AtPending(w, a) && w.attempts[a].stack.flow.op.Nested?
    case Leave(a) =>
      && Returning(w, a) && w.attempts[a].stack.below.Push? && w.attempts[a].stack.below.flow.Await?
      && w.holder == Some(a)
    case Suspend(a, _) => AtPending(w, a) && w.attempts[a].stack.flow.op.Remote? && w.holder.Some?
    case Finish(a) => Returning(w, a) && w.attempts[a].stack.below.Bottom? && w.holder.Some? && w.finished.None?
    case Refuse(a) => NeedsFence(w, a) && w.holder != Some(a)
    case Crash(a) => a in w.attempts
    case LoseLease => w.holder.Some?
    case Answer(p, _) => p in w.remotes && p !in w.store
  }

  /** The innermost context goes on with `r` as the answer to its operation. */
  function Resume(stack: Stack, r: Result): Stack
    requires stack.Push? && stack.flow.Await?
  {
    stack.(k := stack.k + 1, flow := stack.flow.next(r))
  }

  /** What the server says of these promises, of those that exist. */
  function Snapshot(store: Store, created: set<Path>, paths: set<Path>): Cached {
    map p | p in paths && p in created :: if p in store then Some(store[p]) else None
  }

  /** A settled entry is never overwritten. */
  function Absorb(cache: Cached, news: Cached): Cached {
    map p | p in cache.Keys + news.Keys :: if p in cache && (cache[p].Some? || p !in news) then cache[p] else news[p]
  }

  /** This is the rule of the worker's promise cache, with records read as results. */
  lemma AbsorbIsInsert(cache: Cache.Cached, id: Id, r: Record, p: Path)
    ensures id in Cache.Inserted(cache, id, r)
    ensures AsResult(Cache.Inserted(cache, id, r)[id])
         == Absorb(if id in cache then map[p := AsResult(cache[id])] else map[], map[p := AsResult(r)])[p]
  {
  }

  function Fresh(root: Flow, w: World, preload: set<Path>): Attempt {
    Attempt(Push(Bottom, [], 0, root), None, Snapshot(w.store, w.created, preload))
  }

  /** The first settle wins. */
  function Put(store: Store, p: Path, r: Result): Store {
    if p in store then store else store[p := r]
  }

  /** The attempt settles `p` and goes on from `stack` with the result as it is; only
      its stored form is left for the next attempt. */
  function Settled(w: World, a: nat, stack: Stack, p: Path, r: Result): World
    requires a in w.attempts && stack.Push? && stack.flow.Await?
  {
    var store := Put(w.store, p, Stored(r));
    var cache := Absorb(w.attempts[a].cache, map[p := Some(store[p])]);
    w.(store := store, attempts := w.attempts[a := Attempt(Resume(stack, r), None, cache)])
  }

  /** The refusal of `a` is granted as the workflow's end: somebody else holds the
      task, and it is not over. */
  predicate Rejects(w: World, m: Move) {
    m.Refuse? && w.holder.Some? && w.finished.None?
  }

  function Take(root: Flow, w: World, m: Move): World
    requires Enabled(w, m)
  {
    match m
    case Start(a, preload) => w.(attempts := w.attempts[a := Fresh(root, w, preload)], holder := Some(a))
    case Fetch(a, preload) =>
      var at := w.attempts[a];
      var p := Here(at.stack);
      var created := w.created + {p};
      w.(created := created,
         remotes := if at.stack.flow.op.Remote? then w.remotes + {p} else w.remotes,
         attempts := w.attempts[a := at.(cache := Absorb(at.cache, Snapshot(w.store, created, preload + {p})))])
    case ReadBack(a) =>
      var at := w.attempts[a];
      w.(attempts := w.attempts[a := at.(stack := Resume(at.stack, at.cache[Here(at.stack)].value))])
    case RunLeaf(a, r) => w.(attempts := w.attempts[a := w.attempts[a].(ran := Some(r))])
    case SettleLeaf(a) =>
      var at := w.attempts[a];
      Settled(w, a, at.stack, Here(at.stack), at.ran.value)
    case Enter(a) =>
      var at := w.attempts[a];
      w.(attempts := w.attempts[a := at.(stack := Push(at.stack, Here(at.stack), 0, at.stack.flow.op.child))])
    case Leave(a) =>
      var at := w.attempts[a];
      Settled(w, a, at.stack.below, at.stack.path, at.stack.flow.result)
    case Suspend(a, redirect) =>
      (match redirect
       case None => w.(attempts := w.attempts - {a}, holder := None)
       case Some(preload) => w.(attempts := w.attempts[a := Fresh(root, w, preload)]))
    case Finish(a) =>
      w.(attempts := w.attempts - {a}, holder := None, finished := Some(w.attempts[a].stack.flow.result))
    case Refuse(a) =>
      if Rejects(w, m) then w.(attempts := w.attempts - {a}, holder := None, finished := Some(Err(REFUSED)))
      else w.(attempts := w.attempts - {a})
    case Crash(a) => w.(attempts := w.attempts - {a})
    case LoseLease => w.(holder := None)
    case Answer(p, r) => w.(store := w.store[p := r])
  }

  // ---------------------------------------------------------------------
  //  Where an attempt is
  // ---------------------------------------------------------------------

  /** The workflow the innermost frame started with. */
  function Origin(root: Flow, stack: Stack): Flow
    requires stack.Push?
    requires stack.below.Push? ==> stack.below.flow.Await? && stack.below.flow.op.Nested?
  {
    if stack.below.Push? then stack.below.flow.op.child else root
  }

  /** Every frame is where replaying the store puts it, inside the nested workflow
      of the frame below. */
  ghost predicate OnTrack(root: Flow, stack: Stack, store: Store) {
    stack.Push?
    && (if stack.below.Bottom? then stack.path == []
        else
          && OnTrack(root, stack.below, store)
          && stack.below.flow.Await? && stack.below.flow.op.Nested?
          && stack.path == Here(stack.below))
    && Advanced(Origin(root, stack), stack.path, 0, stack.k, store) == Some(stack.flow)
  }

  /** No nested workflow the stack is in has settled. */
  predicate InFront(stack: Stack, store: Store) {
    stack.Push? && stack.below.Push? ==> stack.path !in store && InFront(stack.below, store)
  }

  /** The frontier as seen from the innermost frame is the workflow's. */
  lemma {:induction false} SameFrontier(root: Flow, stack: Stack, store: Store)
    requires OnTrack(root, stack, store) && InFront(stack, store)
    ensures var x := FrontierOf(stack.flow, stack.path, stack.k, store);
            FrontierOf(root, [], 0, store) == if stack.below.Push? then Close(stack.path, x) else x
    decreases stack
  {
    AdvancedFrontier(Origin(root, stack), stack.path, 0, stack.k, store);
    if stack.below.Push? {
      SameFrontier(root, stack.below, store);
    }
  }

  /** So is what lies at `q` below it. */
  lemma {:induction false} SameRemote(root: Flow, stack: Stack, store: Store, q: Path)
    requires OnTrack(root, stack, store) && Under(q, stack.path, stack.k)
    ensures RemoteAt(root, [], 0, store, q) == RemoteAt(stack.flow, stack.path, stack.k, store, q)
    decreases stack
  {
    RemoteAtAdvanced(Origin(root, stack), stack.path, 0, stack.k, store, q);
    if stack.below.Push? {
      UnderChild(q, stack.below.path, stack.below.k);
      SameRemote(root, stack.below, store, q);
    }
  }

  lemma {:induction false} OnTrackStays(root: Flow, stack: Stack, store: Store, q: Path, v: Result)
    requires OnTrack(root, stack, store) && q !in store
    ensures OnTrack(root, stack, store[q := v])
    decreases stack
  {
    AdvancedStays(Origin(root, stack), stack.path, 0, stack.k, store, q, v);
    if stack.below.Push? {
      OnTrackStays(root, stack.below, store, q, v);
    }
  }

  /** A promise settled below the innermost frame is no frame's own. */
  lemma {:induction false} InFrontStays(root: Flow, stack: Stack, store: Store, q: Path, v: Result)
    requires OnTrack(root, stack, store) && InFront(stack, store) && Under(q, stack.path, 0)
    ensures InFront(stack, store[q := v])
    decreases stack
  {
    if stack.below.Push? {
      UnderChild(q, stack.below.path, stack.below.k);
      InFrontStays(root, stack.below, store, q, v);
    }
  }

  lemma ResumeOnTrack(root: Flow, stack: Stack, store: Store)
    requires OnTrack(root, stack, store) && stack.flow.Await? && Here(stack) in store
    ensures OnTrack(root, Resume(stack, store[Here(stack)]), store)
  {
    AdvancedOne(Origin(root, stack), stack.path, 0, stack.k, store);
  }

  // ---------------------------------------------------------------------
  //  The invariant
  // ---------------------------------------------------------------------

  /** A remote promise is that of a remote operation, and while unanswered what the
      workflow waits for. */
  ghost predicate RemoteOk(root: Flow, store: Store, q: Path) {
    && RemoteAt(root, [], 0, store, q)
    && (q !in store ==> FrontierOf(root, [], 0, store) == Open(q, Remote))
  }

  /** What a cache has settled, the server has, with the same result. */
  predicate Coherent(cache: Cached, store: Store) {
    forall p | p in cache && cache[p].Some? :: p in store && store[p] == cache[p].value
  }

  ghost predicate AttemptOk(root: Flow, store: Store, at: Attempt) {
    && OnTrack(root, at.stack, store)
    && Coherent(at.cache, store)
    && (at.ran.Some? ==> at.stack.flow.Await? && at.stack.flow.op.Leaf?)
  }

  /** The cache of the holder is behind the server on remote promises only: nobody
      else settles the others. */
  predicate UpToDate(cache: Cached, store: Store, remotes: set<Path>) {
    forall p | p in cache && cache[p].None? && p in store :: p in remotes
  }

  predicate HolderOk(store: Store, remotes: set<Path>, at: Attempt) {
    && at.stack.Push?
    && InFront(at.stack, store)
    && UpToDate(at.cache, store, remotes)
    && (at.ran.Some? ==> Here(at.stack) !in store)
  }

  ghost predicate Valid(root: Flow, w: World) {
    && Covers(root, [], 0, w.store)
    && (forall q | q in w.remotes :: RemoteOk(root, w.store, q))
    && (forall a | a in w.attempts :: AttemptOk(root, w.store, w.attempts[a]))
    && (w.holder.Some? && w.holder.value in w.attempts ==> HolderOk(w.store, w.remotes, w.attempts[w.holder.value]))
    && (w.finished.Some? ==> w.holder.None?)
  }

  /** If the workflow is over, it is so because it ended. */
  ghost predicate EndedIfFinished(root: Flow, w: World) {
    w.finished.Some? ==> FrontierOf(root, [], 0, w.store) == Ended(w.finished.value)
  }

  /** The locally computed result of the step, if any, is a value. */
  predicate LocallyOk(w: World, m: Move)
    requires Enabled(w, m)
  {
    match m
    case RunLeaf(_, r) => r.Ok?
    case SettleLeaf(a) => w.attempts[a].ran.value.Ok?
    case Leave(a) => w.attempts[a].stack.flow.result.Ok?
    case _ => true
  }

  // ---------------------------------------------------------------------
  //  Every step keeps it
  // ---------------------------------------------------------------------

  lemma AttemptStays(root: Flow, store: Store, at: Attempt, q: Path, v: Result)
    requires AttemptOk(root, store, at) && q !in store
    ensures AttemptOk(root, store[q := v], at)
  {
    OnTrackStays(root, at.stack, store, q, v);
  }

  /** Settling the frontier keeps remote promises in order: none is left waiting. */
  lemma RemotesStay(root: Flow, store: Store, remotes: set<Path>, p: Path, v: Result)
    requires forall q | q in remotes :: RemoteOk(root, store, q)
    requires !FrontierOf(root, [], 0, store).Ended? && FrontierOf(root, [], 0, store).p == p && p !in store
    ensures forall q | q in remotes :: RemoteOk(root, store[p := v], q)
  {
    forall q | q in remotes ensures RemoteOk(root, store[p := v], q)
    {
      assert RemoteOk(root, store, q);
      RemoteAtStays(root, [], 0, store, q, p, v);
      assert q !in store ==> q == p;
    }
  }

  /** The holder is never at a settled local operation it believes pending. */
  lemma HolderSeesPending(root: Flow, w: World, a: nat)
    requires Valid(root, w) && w.holder == Some(a) && AtPending(w, a) && !w.attempts[a].stack.flow.op.Remote?
    ensures Here(w.attempts[a].stack) !in w.store
  {
    var at := w.attempts[a];
    var p := Here(at.stack);
    if p in w.store {
      assert p in w.remotes && RemoteOk(root, w.store, p);
      assert Under(p, at.stack.path, at.stack.k);
      SameRemote(root, at.stack, w.store, p);
      assert false;
    }
  }

  /** The attempt that settles `p`, afterwards. */
  lemma SettlerIsOk(root: Flow, w: World, a: nat, stack: Stack, p: Path, r: Result)
    requires a in w.attempts && AttemptOk(root, w.store, w.attempts[a]) && HolderOk(w.store, w.remotes, w.attempts[a])
    requires OnTrack(root, stack, w.store) && InFront(stack, w.store) && stack.flow.Await? && p == Here(stack)
    requires p !in w.store && r.Ok?
    ensures var w' := Settled(w, a, stack, p, r);
            AttemptOk(root, w'.store, w'.attempts[a]) && HolderOk(w'.store, w'.remotes, w'.attempts[a])
  {
    OnTrackStays(root, stack, w.store, p, r);
    InFrontStays(root, stack, w.store, p, r);
    ResumeOnTrack(root, stack, w.store[p := r]);
  }

  /** What settling at the frontier from `stack` needs and leaves. */
  lemma SettledKeepsValid(root: Flow, w: World, a: nat, stack: Stack, p: Path, r: Result)
    requires Valid(root, w) && w.holder == Some(a) && a in w.attempts && r.Ok?
    requires OnTrack(root, stack, w.store) && InFront(stack, w.store) && stack.flow.Await? && p == Here(stack)
    requires p !in w.store && !FrontierOf(root, [], 0, w.store).Ended? && FrontierOf(root, [], 0, w.store).p == p
    requires FrontierOf(root, [], 0, w.store).Closing? ==> FrontierOf(root, [], 0, w.store).result == r
    ensures Valid(root, Settled(w, a, stack, p, r))
  {
    var w' := Settled(w, a, stack, p, r);
    SettleKeepsCovers(root, [], 0, w.store, r);
    RemotesStay(root, w.store, w.remotes, p, r);
    SettlerIsOk(root, w, a, stack, p, r);
    forall b | b in w'.attempts ensures AttemptOk(root, w'.store, w'.attempts[b])
    {
      if b != a { AttemptStays(root, w.store, w.attempts[b], p, r); }
    }
  }

  lemma SettleLeafKeepsValid(root: Flow, w: World, a: nat)
    requires Valid(root, w) && Enabled(w, SettleLeaf(a)) && LocallyOk(w, SettleLeaf(a))
    ensures Valid(root, Take(root, w, SettleLeaf(a)))
  {
    var at := w.attempts[a];
    SameFrontier(root, at.stack, w.store);
    SettledKeepsValid(root, w, a, at.stack, Here(at.stack), at.ran.value);
  }

  lemma LeaveKeepsValid(root: Flow, w: World, a: nat)
    requires Valid(root, w) && Enabled(w, Leave(a)) && LocallyOk(w, Leave(a))
    ensures Valid(root, Take(root, w, Leave(a)))
  {
    var at := w.attempts[a];
    SameFrontier(root, at.stack, w.store);
    SettledKeepsValid(root, w, a, at.stack.below, at.stack.path, at.stack.flow.result);
  }

  lemma AnswerHolder(root: Flow, store: Store, remotes: set<Path>, at: Attempt, p: Path, r: Result)
    requires AttemptOk(root, store, at) && HolderOk(store, remotes, at)
    requires FrontierOf(root, [], 0, store) == Open(p, Remote) && p in remotes
    ensures HolderOk(store[p := r], remotes, at)
  {
    SameFrontier(root, at.stack, store);
    FrontierUnder(at.stack.flow, at.stack.path, at.stack.k, store);
    InFrontStays(root, at.stack, store, p, r);
  }

  lemma AnswerKeepsValid(root: Flow, w: World, p: Path, r: Result)
    requires Valid(root, w) && Enabled(w, Answer(p, r))
    ensures Valid(root, Take(root, w, Answer(p, r)))
  {
    var w' := Take(root, w, Answer(p, r));
    assert RemoteOk(root, w.store, p);
    SettleKeepsCovers(root, [], 0, w.store, r);
    RemotesStay(root, w.store, w.remotes, p, r);
    forall b | b in w'.attempts ensures AttemptOk(root, w'.store, w'.attempts[b])
    {
      AttemptStays(root, w.store, w.attempts[b], p, r);
    }
    if w.holder.Some? && w.holder.value in w.attempts {
      AnswerHolder(root, w.store, w.remotes, w.attempts[w.holder.value], p, r);
    }
  }

  lemma FreshIsOk(root: Flow, w: World, preload: set<Path>)
    ensures AttemptOk(root, w.store, Fresh(root, w, preload))
    ensures HolderOk(w.store, w.remotes, Fresh(root, w, preload))
  {
    assert Advanced(root, [], 0, 0, w.store) == Some(root);
  }

  lemma FetchedCache(store: Store, remotes: set<Path>, cache: Cached, created: set<Path>, paths: set<Path>)
    requires Coherent(cache, store)
    ensures Coherent(Absorb(cache, Snapshot(store, created, paths)), store)
    ensures UpToDate(cache, store, remotes) ==> UpToDate(Absorb(cache, Snapshot(store, created, paths)), store, remotes)
  {
  }

  lemma FetchKeepsValid(root: Flow, w: World, a: nat, preload: set<Path>)
    requires Valid(root, w) && Enabled(w, Fetch(a, preload))
    ensures Valid(root, Take(root, w, Fetch(a, preload)))
  {
    var at := w.attempts[a];
    var p := Here(at.stack);
    var w' := Take(root, w, Fetch(a, preload));
    assert Under(p, at.stack.path, at.stack.k);
    SameRemote(root, at.stack, w.store, p);
    SameFrontier(root, at.stack, w.store);
    FetchedCache(w.store, w.remotes, at.cache, w.created + {p}, preload + {p});
    assert at.stack.flow.op.Remote? ==> RemoteOk(root, w.store, p);
    assert AttemptOk(root, w'.store, w'.attempts[a]);
    assert HolderOk(w'.store, w'.remotes, w'.attempts[a]);
  }

  lemma ReadBackKeepsValid(root: Flow, w: World, a: nat)
    requires Valid(root, w) && Enabled(w, ReadBack(a))
    ensures Valid(root, Take(root, w, ReadBack(a)))
  {
    ResumeOnTrack(root, w.attempts[a].stack, w.store);
  }

  lemma EnterKeepsValid(root: Flow, w: World, a: nat)
    requires Valid(root, w) && Enabled(w, Enter(a))
    ensures Valid(root, Take(root, w, Enter(a)))
  {
    var stack := w.attempts[a].stack;
    assert Advanced(stack.flow.op.child, Here(stack), 0, 0, w.store).Some?;
    if w.holder == Some(a) { HolderSeesPending(root, w, a); }
  }

  lemma RunLeafKeepsValid(root: Flow, w: World, a: nat, r: Result)
    requires Valid(root, w) && Enabled(w, RunLeaf(a, r))
    ensures Valid(root, Take(root, w, RunLeaf(a, r)))
  {
    if w.holder == Some(a) { HolderSeesPending(root, w, a); }
  }

  lemma FinishEnds(root: Flow, w: World, a: nat)
    requires Valid(root, w) && Enabled(w, Finish(a))
    ensures EndedIfFinished(root, Take(root, w, Finish(a)))
  {
    var stack := w.attempts[a].stack;
    assert OnTrack(root, stack, w.store);
    AdvancedFrontier(root, [], 0, stack.k, w.store);
  }

  lemma LifecycleKeepsValid(root: Flow, w: World, m: Move)
    requires Valid(root, w) && Enabled(w, m) && (m.Start? || m.Suspend? || m.Finish? || m.Refuse? || m.Crash? || m.LoseLease?)
    ensures Valid(root, Take(root, w, m))
  {
    if m.Start? {
      FreshIsOk(root, w, m.preload);
    } else if m.Suspend? && m.redirect.Some? {
      FreshIsOk(root, w, m.redirect.value);
    }
  }

  /** Every step of every attempt, and everything that happens to them, keeps the
      promises an exact account of the workflow and every attempt on its track. */
  lemma StepKeepsValid(root: Flow, w: World, m: Move)
    requires Valid(root, w) && Enabled(w, m) && LocallyOk(w, m)
    ensures Valid(root, Take(root, w, m))
  {
    match m
    case Fetch(a, preload) => FetchKeepsValid(root, w, a, preload);
    case ReadBack(a) => ReadBackKeepsValid(root, w, a);
    case RunLeaf(a, r) => RunLeafKeepsValid(root, w, a, r);
    case SettleLeaf(a) => SettleLeafKeepsValid(root, w, a);
    case Enter(a) => EnterKeepsValid(root, w, a);
    case Leave(a) => LeaveKeepsValid(root, w, a);
    case Answer(p, r) => AnswerKeepsValid(root, w, p, r);
    case _ => LifecycleKeepsValid(root, w, m);
  }

  /** Only a refusal granted as the end makes the workflow end otherwise than by
      itself. */
  lemma StepKeepsEnding(root: Flow, w: World, m: Move)
    requires Valid(root, w) && Enabled(w, m) && !Rejects(w, m) && EndedIfFinished(root, w)
    ensures EndedIfFinished(root, Take(root, w, m))
  {
    if m.Finish? {
      FinishEnds(root, w, m.a);
    } else if m.Answer? {
      assert RemoteOk(root, w.store, m.p);
    }
  }

  // ---------------------------------------------------------------------
  //  Whole executions
  // ---------------------------------------------------------------------

  predicate Possible(root: Flow, w: World, moves: seq<Move>)
    decreases |moves|
  {
    moves == [] || (Enabled(w, moves[0]) && Possible(root, Take(root, w, moves[0]), moves[1..]))
  }

  function After(root: Flow, w: World, moves: seq<Move>): World
    requires Possible(root, w, moves)
    decreases |moves|
  {
    if moves == [] then w else After(root, Take(root, w, moves[0]), moves[1..])
  }

  /** Every leaf and every nested workflow that completed did so with a value. */
  predicate AllLocallyOk(root: Flow, w: World, moves: seq<Move>)
    requires Possible(root, w, moves)
    decreases |moves|
  {
    moves == [] || (LocallyOk(w, moves[0]) && AllLocallyOk(root, Take(root, w, moves[0]), moves[1..]))
  }

  lemma {:induction false} RunKeepsValid(root: Flow, w: World, moves: seq<Move>)
    requires Valid(root, w) && Possible(root, w, moves) && AllLocallyOk(root, w, moves)
    ensures Valid(root, After(root, w, moves))
    decreases |moves|
  {
    if moves != [] {
      StepKeepsValid(root, w, moves[0]);
      RunKeepsValid(root, Take(root, w, moves[0]), moves[1..]);
    }
  }

  lemma NewIsValid(root: Flow)
    ensures Valid(root, NEW_WORLD)
  {
    NothingCovered(root, [], 0, map[]);
  }

  /** Some refusal in the run comes while the workflow is open and another attempt
      holds the lease. */
  predicate Rejected(root: Flow, w: World, moves: seq<Move>)
    requires Possible(root, w, moves)
    decreases |moves|
  {
    moves != [] && (Rejects(w, moves[0]) || Rejected(root, Take(root, w, moves[0]), moves[1..]))
  }

  lemma {:induction false} FinishedForGood(root: Flow, w: World, moves: seq<Move>)
    requires Possible(root, w, moves) && w.finished.Some?
    ensures After(root, w, moves).finished == w.finished && !Rejected(root, w, moves)
    decreases |moves|
  {
    if moves != [] {
      FinishedForGood(root, Take(root, w, moves[0]), moves[1..]);
    }
  }

  lemma {:induction false} RejectedIsOver(root: Flow, w: World, moves: seq<Move>)
    requires Possible(root, w, moves) && Rejected(root, w, moves)
    ensures After(root, w, moves).finished == Some(Err(REFUSED))
    decreases |moves|
  {
    var w1 := Take(root, w, moves[0]);
    if Rejects(w, moves[0]) {
      FinishedForGood(root, w1, moves[1..]);
    } else {
      RejectedIsOver(root, w1, moves[1..]);
    }
  }

  lemma {:induction false} RunKeepsEnding(root: Flow, w: World, moves: seq<Move>)
    requires Valid(root, w) && EndedIfFinished(root, w)
    requires Possible(root, w, moves) && AllLocallyOk(root, w, moves) && !Rejected(root, w, moves)
    ensures EndedIfFinished(root, After(root, w, moves))
    decreases |moves|
  {
    if moves != [] {
      StepKeepsValid(root, w, moves[0]);
      StepKeepsEnding(root, w, moves[0]);
      RunKeepsEnding(root, Take(root, w, moves[0]), moves[1..]);
    }
  }

  /** Durable execution.  However often attempts crashed, suspended and lost the
      lease, whatever their caches held, and whenever the remote answers came in, a
      workflow that finishes does so with the value of one direct evaluation over
      what its leaves and remote calls came to, unless an attempt without the lease
      was refused while another held it: then it finishes with that refusal. */
  lemma ExecutionIsDurable(root: Flow, moves: seq<Move>)
    requires Possible(root, NEW_WORLD, moves) && AllLocallyOk(root, NEW_WORLD, moves)
    requires After(root, NEW_WORLD, moves).finished.Some?
    ensures var w := After(root, NEW_WORLD, moves);
            if Rejected(root, NEW_WORLD, moves) then w.finished == Some(Err(REFUSED))
            else Direct(root, [], 0, w.store) == w.finished
  {
    NewIsValid(root);
    RunKeepsValid(root, NEW_WORLD, moves);
    if Rejected(root, NEW_WORLD, moves) {
      RejectedIsOver(root, NEW_WORLD, moves);
    } else {
      RunKeepsEnding(root, NEW_WORLD, moves);
      EndedIsDirect(root, [], 0, After(root, NEW_WORLD, moves).store);
    }
  }

  /** So a workflow that finishes has its direct value if and only if no refusal came
      while another attempt held the lease, but for a workflow whose direct value is
      that same refusal. */
  lemma DurableExactly(root: Flow, moves: seq<Move>)
    requires Possible(root, NEW_WORLD, moves) && AllLocallyOk(root, NEW_WORLD, moves)
    requires After(root, NEW_WORLD, moves).finished.Some?
    ensures var w := After(root, NEW_WORLD, moves);
            var direct := Direct(root, [], 0, w.store);
            w.finished == direct <==> !Rejected(root, NEW_WORLD, moves) || direct == Some(Err(REFUSED))
  {
    ExecutionIsDurable(root, moves);
  }

  /** Settled is settled: no step ever changes or drops a promise's result. */
  lemma StoreGrows(root: Flow, w: World, m: Move, p: Path)
    requires Enabled(w, m) && p in w.store
    ensures p in Take(root, w, m).store && Take(root, w, m).store[p] == w.store[p]
  {
  }

  lemma {:induction false} StoreOnlyGrows(root: Flow, w: World, moves: seq<Move>, p: Path)
    requires Possible(root, w, moves) && p in w.store
    ensures p in After(root, w, moves).store && After(root, w, moves).store[p] == w.store[p]
    decreases |moves|
  {
    if moves != [] {
      StoreGrows(root, w, moves[0], p);
      StoreOnlyGrows(root, Take(root, w, moves[0]), moves[1..], p);
    }
  }

  // ---------------------------------------------------------------------
  //  Which leaves run again
  // ---------------------------------------------------------------------

  /** An attempt at a leaf that has settled runs it again exactly when its cache
      still has it pending; and then it has lost the lease, and cannot settle it. */
  lemma LeafRerunsExactly(root: Flow, w: World, a: nat, r: Result)
    requires Valid(root, w) && Awaiting(w, a) && w.attempts[a].stack.flow.op.Leaf?
    requires Here(w.attempts[a].stack) in w.store
    ensures var p := Here(w.attempts[a].stack);
            Enabled(w, RunLeaf(a, r)) <==> p in w.attempts[a].cache && w.attempts[a].cache[p].None?
    ensures Enabled(w, RunLeaf(a, r)) ==>
              w.holder != Some(a) && !Enabled(Take(root, w, RunLeaf(a, r)), SettleLeaf(a))
  {
    if Enabled(w, RunLeaf(a, r)) && w.holder == Some(a) {
      HolderSeesPending(root, w, a);
      assert false;
    }
  }

  /** The holder of the lease never runs again a leaf that any attempt has
      settled. */
  lemma SettledLeafNeverRuns(root: Flow, moves: seq<Move>, more: seq<Move>, p: Path, a: nat, r: Result)
    requires Possible(root, NEW_WORLD, moves + more) && AllLocallyOk(root, NEW_WORLD, moves + more)
    requires Possible(root, NEW_WORLD, moves) && p in After(root, NEW_WORLD, moves).store
    ensures var w := After(root, NEW_WORLD, moves + more);
            Enabled(w, RunLeaf(a, r)) && w.holder == Some(a) ==> Here(w.attempts[a].stack) != p
  {
    NewIsValid(root);
    RunKeepsValid(root, NEW_WORLD, moves + more);
    InTwoParts(root, NEW_WORLD, moves, more);
    StoreOnlyGrows(root, After(root, NEW_WORLD, moves), more, p);
    var w := After(root, NEW_WORLD, moves + more);
    if Enabled(w, RunLeaf(a, r)) && w.holder == Some(a) {
      HolderSeesPending(root, w, a);
    }
  }

  lemma {:induction false} InTwoParts(root: Flow, w: World, moves: seq<Move>, more: seq<Move>)
    requires Possible(root, w, moves + more)
    ensures Possible(root, w, moves) && Possible(root, After(root, w, moves), more)
    ensures After(root, w, moves + more) == After(root, After(root, w, moves), more)
    decreases |moves|
  {
    if moves == [] {
      assert moves + more == more;
    } else {
      assert (moves + more)[1..] == moves[1..] + more;
      InTwoParts(root, Take(root, w, moves[0]), moves[1..], more);
    }
  }

  // ---------------------------------------------------------------------
  //  Replay alone
  // ---------------------------------------------------------------------

  lemma MoveFirst(root: Flow, w: World, m: Move, rest: seq<Move>)
    requires Enabled(w, m) && Possible(root, Take(root, w, m), rest)
    ensures Possible(root, w, [m] + rest)
    ensures After(root, w, [m] + rest) == After(root, Take(root, w, m), rest)
  {
    assert ([m] + rest)[1..] == rest;
  }

  /** Ask for each operation that is left and read it back, then finish. */
  function ReadToEnd(a: nat, f: Flow, k: nat, store: Store): seq<Move>
    decreases Ahead([], k, store)
  {
    AheadShrinks([], k, store);
    if f.Await? && [] + [k] in store
    then [Fetch(a, {})] + ([ReadBack(a)] + ReadToEnd(a, f.next(store[[] + [k]]), k + 1, store))
    else [Finish(a)]
  }

  /** The attempt is at the top level, has not seen what is ahead, and holds the lease. */
  ghost predicate AtTop(w: World, a: nat, f: Flow, k: nat) {
    && a in w.attempts && w.holder == Some(a) && w.finished.None?
    && w.attempts[a].stack == Push(Bottom, [], k, f) && w.attempts[a].ran.None?
    && forall j: nat | j >= k :: [] + [j] !in w.attempts[a].cache
  }

  lemma ReadsOne(root: Flow, w: World, a: nat, f: Flow, k: nat)
    requires AtTop(w, a, f, k) && f.Await? && [] + [k] in w.store
    ensures Enabled(w, Fetch(a, {}))
    ensures Enabled(Take(root, w, Fetch(a, {})), ReadBack(a))
    ensures var w' := Take(root, Take(root, w, Fetch(a, {})), ReadBack(a));
            AtTop(w', a, f.next(w.store[[] + [k]]), k + 1) && w'.store == w.store
  {
    var w1 := Take(root, w, Fetch(a, {}));
    assert w1.attempts[a].cache[[] + [k]] == Some(w.store[[] + [k]]);
    forall j: nat | j >= k + 1 ensures [] + [j] !in w1.attempts[a].cache
    {
      assert ([] + [j])[0] != ([] + [k])[0];
    }
  }

  lemma {:induction false} ReadToEndFinishes(root: Flow, w: World, a: nat, f: Flow, k: nat)
    requires AtTop(w, a, f, k) && FrontierOf(f, [], k, w.store).Ended?
    ensures Possible(root, w, ReadToEnd(a, f, k, w.store))
    ensures var w' := After(root, w, ReadToEnd(a, f, k, w.store));
            w'.store == w.store && w'.finished == Some(FrontierOf(f, [], k, w.store).result)
    decreases Ahead([], k, w.store)
  {
    AheadShrinks([], k, w.store);
    if f.Await? {
      var g := f.next(w.store[[] + [k]]);
      var rest := ReadToEnd(a, g, k + 1, w.store);
      var w1 := Take(root, w, Fetch(a, {}));
      ReadsOne(root, w, a, f, k);
      ReadToEndFinishes(root, Take(root, w1, ReadBack(a)), a, g, k + 1);
      MoveFirst(root, w1, ReadBack(a), rest);
      MoveFirst(root, w, Fetch(a, {}), [ReadBack(a)] + rest);
    } else {
      MoveFirst(root, w, Finish(a), []);
      assert [Finish(a)] == [Finish(a)] + [];
    }
  }

  lemma {:induction false} ReadsOnly(a: nat, f: Flow, k: nat, store: Store)
    ensures forall m | m in ReadToEnd(a, f, k, store) :: m.Fetch? || m.ReadBack? || m.Finish?
    decreases Ahead([], k, store)
  {
    AheadShrinks([], k, store);
    if f.Await? && [] + [k] in store {
      ReadsOnly(a, f.next(store[[] + [k]]), k + 1, store);
    }
  }

  /** When everything has settled, one more attempt finishes by reading alone: it
      runs no leaf, enters no nested workflow and settles nothing. */
  lemma ReplayIsEnough(root: Flow, w: World, a: nat)
    requires Enabled(w, Start(a, {})) && FrontierOf(root, [], 0, w.store).Ended?
    ensures var moves := [Start(a, {})] + ReadToEnd(a, root, 0, w.store);
            && Possible(root, w, moves)
            && After(root, w, moves).finished == Some(FrontierOf(root, [], 0, w.store).result)
            && After(root, w, moves).store == w.store
            && forall m | m in moves :: m.Start? || m.Fetch? || m.ReadBack? || m.Finish?
  {
    ReadToEndFinishes(root, Take(root, w, Start(a, {})), a, root, 0);
    MoveFirst(root, w, Start(a, {}), ReadToEnd(a, root, 0, w.store));
    ReadsOnly(a, root, 0, w.store);
  }

  // ---------------------------------------------------------------------
  //  There is always a way on
  // ---------------------------------------------------------------------

  /** While somebody holds the lease no attempt is stuck: it can take its next step, with
      any result for a leaf, or ask to suspend or to end, or is refused. */
  lemma NeverStuck(root: Flow, w: World, a: nat, r: Result)
    requires Valid(root, w) && a in w.attempts && w.holder.Some?
    ensures || Enabled(w, Fetch(a, {})) || Enabled(w, ReadBack(a)) || Enabled(w, RunLeaf(a, r)) || Enabled(w, SettleLeaf(a))
            || Enabled(w, Enter(a)) || Enabled(w, Leave(a)) || Enabled(w, Suspend(a, None)) || Enabled(w, Finish(a))
            || Enabled(w, Refuse(a))
  {
    assert AttemptOk(root, w.store, w.attempts[a]);
  }

  /** An attempt that starts, and one that is redirected, is at the top of the workflow and
      knows just what it was given of the promises that exist, as the server has them. */
  lemma StartsAtTheTop(root: Flow, w: World, m: Move, a: nat, preload: set<Path>, p: Path)
    requires Enabled(w, m) && (m == Start(a, preload) || m == Suspend(a, Some(preload)))
    ensures var w' := Take(root, w, m);
            && a in w'.attempts && w'.attempts == w.attempts[a := w'.attempts[a]]
            && w'.store == w.store && w'.created == w.created && w'.remotes == w.remotes && w'.finished == w.finished
            && w'.holder == (if m.Start? then Some(a) else w.holder)
            && w'.attempts[a].stack == Push(Bottom, [], 0, root) && w'.attempts[a].ran.None?
            && var cache := w'.attempts[a].cache;
               (p in cache <==> p in preload && p in w.created)
               && (p in cache && p in w.store ==> cache[p] == Some(w.store[p]))
               && (p in cache && p !in w.store ==> cache[p] == None)
  {
  }

  /** The attempt a move ends: it crashed, was refused, suspended or finished. */
  predicate Ends(m: Move, a: nat) {
    m == Crash(a) || m == Refuse(a) || m == Suspend(a, None) || m == Finish(a)
  }

  /** An attempt that ends leaves what is stored and every other attempt alone.  One that
      suspends or finishes lets go of the lease, whoever held it, and so does a refusal
      that rejects; a suspension leaves the workflow open, for the next attempt. */
  lemma EndingLetsGo(root: Flow, w: World, m: Move, a: nat)
    requires Valid(root, w) && Enabled(w, m) && Ends(m, a)
    ensures var w' := Take(root, w, m);
            && w'.attempts == w.attempts - {a}
            && w'.store == w.store && w'.created == w.created && w'.remotes == w.remotes
            && w'.holder == (if m.Suspend? || m.Finish? || Rejects(w, m) then None else w.holder)
            && (m.Suspend? ==> Enabled(w', Start(a, {})))
  {
  }

  /** The holder is in this context, at its `k`-th operation, and has seen nothing of
      what is ahead there. */
  ghost predicate At(w: World, a: nat, below: Stack, path: Path, k: nat, f: Flow) {
    && a in w.attempts && w.holder == Some(a) && w.finished.None?
    && w.attempts[a].stack == Push(below, path, k, f) && w.attempts[a].ran.None?
    && forall q | q in w.attempts[a].cache :: !Under(q, path, k)
  }

  /** It asks for the operation it is at. */
  lemma Asks(root: Flow, w: World, a: nat, below: Stack, path: Path, k: nat, f: Flow)
    requires At(w, a, below, path, k, f) && f.Await?
    ensures Enabled(w, Fetch(a, {}))
    ensures var w1, p := Take(root, w, Fetch(a, {})), path + [k];
            && w1.store == w.store && w1.holder == Some(a) && w1.finished.None? && a in w1.attempts
            && w1.attempts[a].stack == w.attempts[a].stack && w1.attempts[a].ran.None?
            && p in w1.attempts[a].cache && w1.attempts[a].cache[p] == (if p in w.store then Some(w.store[p]) else None)
            && (forall q | q in w1.attempts[a].cache :: !Under(q, path, k + 1) && !Under(q, p, 0))
            && (f.op.Remote? ==> p in w1.remotes)
  {
    var w1, p := Take(root, w, Fetch(a, {})), path + [k];
    assert Under(p, path, k);
    forall q | q in w1.attempts[a].cache ensures !Under(q, path, k + 1) && !Under(q, p, 0)
    {
      if q != p {
        assert q in w.attempts[a].cache;
        if Under(q, p, 0) { UnderChild(q, path, k); }
      }
    }
  }

  lemma Reads(root: Flow, w: World, a: nat, below: Stack, path: Path, k: nat, f: Flow)
    requires At(w, a, below, path, k, f) && f.Await? && path + [k] in w.store
    ensures Enabled(w, Fetch(a, {})) && Enabled(Take(root, w, Fetch(a, {})), ReadBack(a))
    ensures var w2 := Take(root, Take(root, w, Fetch(a, {})), ReadBack(a));
            At(w2, a, below, path, k + 1, f.next(w.store[path + [k]])) && w2.store == w.store
  {
    Asks(root, w, a, below, path, k, f);
  }

  lemma MoveTwice(root: Flow, w: World, m: Move, n: Move, rest: seq<Move>)
    requires Enabled(w, m) && Enabled(Take(root, w, m), n) && Possible(root, Take(root, Take(root, w, m), n), rest)
    ensures Possible(root, w, [m] + ([n] + rest))
    ensures After(root, w, [m] + ([n] + rest)) == After(root, Take(root, Take(root, w, m), n), rest)
  {
    MoveFirst(root, Take(root, w, m), n, rest);
    MoveFirst(root, w, m, [n] + rest);
  }

  /** Where everything ahead has settled it reads on to the end of its context. */
  lemma {:induction false} ReadsToReturn(root: Flow, w: World, a: nat, below: Stack, path: Path, k: nat, f: Flow)
    returns (moves: seq<Move>, end: nat)
    requires At(w, a, below, path, k, f) && FrontierOf(f, path, k, w.store).Ended?
    ensures Possible(root, w, moves)
    ensures After(root, w, moves).store == w.store
    ensures At(After(root, w, moves), a, below, path, end, Return(FrontierOf(f, path, k, w.store).result))
    decreases Ahead(path, k, w.store)
  {
    moves, end := [], k;
    AheadShrinks(path, k, w.store);
    if f.Await? {
      var w2 := Take(root, Take(root, w, Fetch(a, {})), ReadBack(a));
      Reads(root, w, a, below, path, k, f);
      moves, end := ReadsToReturn(root, w2, a, below, path, k + 1, f.next(w.store[path + [k]]));
      MoveTwice(root, w, Fetch(a, {}), ReadBack(a), moves);
      moves := [Fetch(a, {})] + ([ReadBack(a)] + moves);
    }
  }

  /** A leaf or a remote call it has come to is settled. */
  lemma SettlesOpen(root: Flow, w: World, a: nat, below: Stack, path: Path, k: nat, f: Flow, r: Result)
    returns (moves: seq<Move>)
    requires At(w, a, below, path, k, f) && f.Await? && !f.op.Nested? && path + [k] !in w.store
    ensures Possible(root, w, moves)
    ensures After(root, w, moves).store == w.store[path + [k] := if f.op.Leaf? then Stored(r) else r]
  {
    var w1 := Take(root, w, Fetch(a, {}));
    Asks(root, w, a, below, path, k, f);
    if f.op.Remote? {
      MoveTwice(root, w, Fetch(a, {}), Answer(path + [k], r), []);
      moves := [Fetch(a, {})] + ([Answer(path + [k], r)] + []);
    } else {
      var w2 := Take(root, w1, RunLeaf(a, r));
      MoveTwice(root, w1, RunLeaf(a, r), SettleLeaf(a), []);
      moves := [RunLeaf(a, r)] + ([SettleLeaf(a)] + []);
      MoveFirst(root, w, Fetch(a, {}), moves);
      moves := [Fetch(a, {})] + moves;
    }
  }

  /** It enters a nested workflow that is not settled. */
  lemma Enters(root: Flow, w: World, a: nat, below: Stack, path: Path, k: nat, f: Flow)
    requires At(w, a, below, path, k, f) && f.Await? && f.op.Nested? && path + [k] !in w.store
    ensures Enabled(w, Fetch(a, {})) && Enabled(Take(root, w, Fetch(a, {})), Enter(a))
    ensures var w2 := Take(root, Take(root, w, Fetch(a, {})), Enter(a));
            At(w2, a, Push(below, path, k, f), path + [k], 0, f.op.child) && w2.store == w.store
  {
    Asks(root, w, a, below, path, k, f);
  }

  lemma Leaves(root: Flow, w: World, a: nat, below: Stack, path: Path, k: nat, f: Flow, end: nat, r: Result)
    requires At(w, a, Push(below, path, k, f), path + [k], end, Return(r)) && f.Await? && path + [k] !in w.store
    ensures Possible(root, w, [Leave(a)])
    ensures After(root, w, [Leave(a)]).store == w.store[path + [k] := Stored(r)]
  {
    MoveFirst(root, w, Leave(a), []);
    assert [Leave(a)] == [Leave(a)] + [];
  }

  lemma {:induction false} InSequence(root: Flow, w: World, moves: seq<Move>, more: seq<Move>)
    requires Possible(root, w, moves) && Possible(root, After(root, w, moves), more)
    ensures Possible(root, w, moves + more) && After(root, w, moves + more) == After(root, After(root, w, moves), more)
    decreases |moves|
  {
    if moves == [] {
      assert moves + more == more;
    } else {
      InSequence(root, Take(root, w, moves[0]), moves[1..], more);
      assert (moves + more)[1..] == moves[1..] + more;
    }
  }

  /** The holder gets to what the workflow waits for and settles it: reading what has
      settled, entering nested workflows, and no further. */
  lemma {:induction false} GetsThere(root: Flow, w: World, a: nat, below: Stack, path: Path, k: nat, f: Flow, r: Result)
    returns (moves: seq<Move>, v: Result)
    requires At(w, a, below, path, k, f) && !FrontierOf(f, path, k, w.store).Ended?
    ensures Possible(root, w, moves)
    ensures var x := FrontierOf(f, path, k, w.store);
            && After(root, w, moves).store == w.store[x.p := v]
            && v == match x case Open(_, op) => (if op.Leaf? then Stored(r) else r) case Closing(_, result) => Stored(result)
                    case Ended(result) => result
    decreases Ahead(path, k, w.store), f
  {
    AheadShrinks(path, k, w.store);
    var p := path + [k];
    if p in w.store {
      Reads(root, w, a, below, path, k, f);
      var w2 := Take(root, Take(root, w, Fetch(a, {})), ReadBack(a));
      moves, v := GetsThere(root, w2, a, below, path, k + 1, f.next(w.store[p]), r);
      MoveTwice(root, w, Fetch(a, {}), ReadBack(a), moves);
      moves := [Fetch(a, {})] + ([ReadBack(a)] + moves);
    } else if f.op.Nested? {
      Enters(root, w, a, below, path, k, f);
      var w2 := Take(root, Take(root, w, Fetch(a, {})), Enter(a));
      if FrontierOf(f.op.child, p, 0, w.store).Ended? {
        var result, end := FrontierOf(f.op.child, p, 0, w.store).result, 0;
        moves, end := ReadsToReturn(root, w2, a, Push(below, path, k, f), p, 0, f.op.child);
        Leaves(root, After(root, w2, moves), a, below, path, k, f, end, result);
        InSequence(root, w2, moves, [Leave(a)]);
        moves, v := moves + [Leave(a)], Stored(result);
      } else {
        moves, v := GetsThere(root, w2, a, Push(below, path, k, f), p, 0, f.op.child, r);
      }
      MoveTwice(root, w, Fetch(a, {}), Enter(a), moves);
      moves := [Fetch(a, {})] + ([Enter(a)] + moves);
    } else {
      moves := SettlesOpen(root, w, a, below, path, k, f, r);
      v := if f.op.Leaf? then Stored(r) else r;
    }
  }

  /** A workflow that is neither over nor held can always get on.  Whatever became of the
      attempts before, one new one, knowing nothing, settles what the workflow waits for:
      a leaf with what it returns, a remote call with what it is answered, a nested
      workflow with what it ended with. */
  lemma CanAlwaysGetOn(root: Flow, w: World, a: nat, r: Result) returns (moves: seq<Move>, v: Result)
    requires a !in w.attempts && w.holder.None? && w.finished.None? && !FrontierOf(root, [], 0, w.store).Ended?
    ensures Possible(root, w, moves)
    ensures var x := FrontierOf(root, [], 0, w.store);
            && After(root, w, moves).store == w.store[x.p := v]
            && (x.Open? ==> v == if x.op.Leaf? then Stored(r) else r)
            && (x.Closing? ==> v == Stored(x.result))
  {
    var w1 := Take(root, w, Start(a, {}));
    assert w1.attempts[a].cache == map[];
    moves, v := GetsThere(root, w1, a, Bottom, [], 0, root, r);
    MoveFirst(root, w, Start(a, {}), moves);
    moves := [Start(a, {})] + moves;
  }

  // ---------------------------------------------------------------------
  //  What does happen
  // ---------------------------------------------------------------------

  /** The shortest workflow with a leaf. */
  const PASS_ON := Await(Leaf, r => Return(r))

  /** An attempt of it that has its leaf's promise as `record`, at the leaf or past it. */
  function AtLeaf(record: Option<Result>, ran: Option<Result>): Attempt {
    Attempt(Push(Bottom, [], 0, PASS_ON), ran, map[[0] := record])
  }

  function PastLeaf(r: Result, record: Result): Attempt {
    Attempt(Push(Bottom, [], 1, Return(r)), None, map[[0] := Some(record)])
  }

  lemma FetchesLeaf(w: World, a: nat)
    requires Enabled(w, Start(a, {})) && w.store == map[] && w.remotes == {}
    ensures Enabled(Take(PASS_ON, w, Start(a, {})), Fetch(a, {}))
    ensures Take(PASS_ON, Take(PASS_ON, w, Start(a, {})), Fetch(a, {}))
         == w.(created := w.created + {[0]}, attempts := w.attempts[a := AtLeaf(None, None)], holder := Some(a))
  {
    assert [] + [0] == [0];
    var w1 := Take(PASS_ON, w, Start(a, {}));
    assert w1.attempts[a].cache == map[];
    var w2 := Take(PASS_ON, w1, Fetch(a, {}));
    assert w2.attempts[a].cache == map[[0] := None];
    assert w2.attempts == w.attempts[a := AtLeaf(None, None)];
  }

  lemma RunsLeaf(w: World, a: nat, r: Result)
    requires a in w.attempts && w.attempts[a] == AtLeaf(None, None) && w.holder == Some(a) && [0] !in w.store
    ensures Enabled(w, RunLeaf(a, r)) && Enabled(Take(PASS_ON, w, RunLeaf(a, r)), SettleLeaf(a))
    ensures Take(PASS_ON, Take(PASS_ON, w, RunLeaf(a, r)), SettleLeaf(a))
         == w.(store := w.store[[0] := Stored(r)], attempts := w.attempts[a := PastLeaf(r, Stored(r))])
  {
    assert [] + [0] == [0];
    var w1 := Take(PASS_ON, w, RunLeaf(a, r));
    var w2 := Take(PASS_ON, w1, SettleLeaf(a));
    assert w2.attempts[a].cache == map[[0] := Some(Stored(r))];
    assert w2.attempts == w.attempts[a := PastLeaf(r, Stored(r))];
  }

  /** From the moment the leaf's promise is settled: straight on. */
  lemma FinishesStraight(w: World, a: nat, r: Result, record: Result)
    requires a in w.attempts && w.attempts[a] == PastLeaf(r, record) && w.holder.Some? && w.finished.None?
    ensures Possible(PASS_ON, w, [Finish(a)]) && After(PASS_ON, w, [Finish(a)]).finished == Some(r)
  {
    MoveFirst(PASS_ON, w, Finish(a), []);
    assert [Finish(a)] == [Finish(a)] + [];
  }

  /** Or by way of a crash: the lease is lost and the next attempt reads it back. */
  lemma FinishesCrashed(w: World, a: nat, b: nat, record: Result)
    requires w.attempts.Keys == {a} && w.holder == Some(a) && w.finished.None? && a != b
    requires [0] in w.created && [0] in w.store && w.store[[0]] == record
    ensures var moves := [Crash(a), LoseLease, Start(b, {[0]}), ReadBack(b), Finish(b)];
            Possible(PASS_ON, w, moves) && After(PASS_ON, w, moves).finished == Some(record)
  {
    assert [] + [0] == [0];
    var w1 := Take(PASS_ON, w, Crash(a));
    var w2 := Take(PASS_ON, w1, LoseLease);
    var w3 := Take(PASS_ON, w2, Start(b, {[0]}));
    assert w3.attempts[b].cache == map[[0] := Some(record)];
    var w4 := Take(PASS_ON, w3, ReadBack(b));
    assert w4.attempts[b] == PastLeaf(record, record);
    FinishesStraight(w4, b, record, record);
    MoveFirst(PASS_ON, w3, ReadBack(b), [Finish(b)]);
    MoveFirst(PASS_ON, w2, Start(b, {[0]}), [ReadBack(b)] + [Finish(b)]);
    MoveFirst(PASS_ON, w1, LoseLease, [Start(b, {[0]})] + ([ReadBack(b)] + [Finish(b)]));
    MoveFirst(PASS_ON, w, Crash(a), [LoseLease] + ([Start(b, {[0]})] + ([ReadBack(b)] + [Finish(b)])));
    assert [Crash(a), LoseLease, Start(b, {[0]}), ReadBack(b), Finish(b)]
        == [Crash(a)] + ([LoseLease] + ([Start(b, {[0]})] + ([ReadBack(b)] + [Finish(b)])));
  }

  /** To the moment the leaf is settled by attempt `a`. */
  function ToSettled(a: nat, r: Result): seq<Move> {
    [Start(a, {})] + ([Fetch(a, {})] + ([RunLeaf(a, r)] + [SettleLeaf(a)]))
  }

  function LeafSettled(w: World, a: nat, r: Result): World {
    w.(store := map[[0] := Stored(r)], created := w.created + {[0]},
       attempts := w.attempts[a := PastLeaf(r, Stored(r))], holder := Some(a))
  }

  lemma SettlesLeaf(w: World, a: nat, r: Result) returns (w1: World, w2: World, w3: World)
    requires Enabled(w, Start(a, {})) && w.store == map[] && w.remotes == {}
    ensures w1 == Take(PASS_ON, w, Start(a, {}))
    ensures Enabled(w1, Fetch(a, {})) && w2 == Take(PASS_ON, w1, Fetch(a, {}))
    ensures Enabled(w2, RunLeaf(a, r)) && w3 == Take(PASS_ON, w2, RunLeaf(a, r))
    ensures Enabled(w3, SettleLeaf(a)) && Take(PASS_ON, w3, SettleLeaf(a)) == LeafSettled(w, a, r)
  {
    FetchesLeaf(w, a);
    w1 := Take(PASS_ON, w, Start(a, {}));
    w2 := Take(PASS_ON, w1, Fetch(a, {}));
    RunsLeaf(w2, a, r);
    w3 := Take(PASS_ON, w2, RunLeaf(a, r));
    assert Take(PASS_ON, w3, SettleLeaf(a)).attempts == LeafSettled(w, a, r).attempts;
    assert Take(PASS_ON, w3, SettleLeaf(a)).store == map[[0] := Stored(r)];
  }

  lemma ReachesSettled(w: World, a: nat, r: Result, rest: seq<Move>)
    requires Enabled(w, Start(a, {})) && w.store == map[] && w.remotes == {}
    requires Possible(PASS_ON, LeafSettled(w, a, r), rest)
    ensures Possible(PASS_ON, w, ToSettled(a, r) + rest)
    ensures After(PASS_ON, w, ToSettled(a, r) + rest) == After(PASS_ON, LeafSettled(w, a, r), rest)
  {
    var w1, w2, w3 := SettlesLeaf(w, a, r);
    MoveFirst(PASS_ON, w3, SettleLeaf(a), rest);
    MoveFirst(PASS_ON, w2, RunLeaf(a, r), [SettleLeaf(a)] + rest);
    MoveFirst(PASS_ON, w1, Fetch(a, {}), [RunLeaf(a, r)] + ([SettleLeaf(a)] + rest));
    MoveFirst(PASS_ON, w, Start(a, {}), [Fetch(a, {})] + ([RunLeaf(a, r)] + ([SettleLeaf(a)] + rest)));
    assert ToSettled(a, r) + rest
        == [Start(a, {})] + ([Fetch(a, {})] + ([RunLeaf(a, r)] + ([SettleLeaf(a)] + rest)));
  }

  /** Run through, the workflow ends with what the leaf returned; crashed after the
      leaf and replayed, with the stored form of it.  So the two agree exactly when
      the leaf returned a value. */
  lemma CrashShows(r: Result)
    ensures var straight := ToSettled(0, r) + [Finish(0)];
            var crashed := ToSettled(0, r) + [Crash(0), LoseLease, Start(1, {[0]}), ReadBack(1), Finish(1)];
            && Possible(PASS_ON, NEW_WORLD, straight)
            && Possible(PASS_ON, NEW_WORLD, crashed)
            && After(PASS_ON, NEW_WORLD, straight).finished == Some(r)
            && After(PASS_ON, NEW_WORLD, crashed).finished == Some(Stored(r))
            && (After(PASS_ON, NEW_WORLD, straight).finished == After(PASS_ON, NEW_WORLD, crashed).finished <==> r.Ok?)
  {
    var settled := LeafSettled(NEW_WORLD, 0, r);
    FinishesStraight(settled, 0, r, Stored(r));
    FinishesCrashed(settled, 0, 1, Stored(r));
    ReachesSettled(NEW_WORLD, 0, r, [Finish(0)]);
    ReachesSettled(NEW_WORLD, 0, r, [Crash(0), LoseLease, Start(1, {[0]}), ReadBack(1), Finish(1)]);
    ReplaysExactly(r);
  }

  /** A leaf does run again: an attempt that lost the lease before its leaf ran does
      not know that its successor has run and settled it. */
  lemma StaleAttemptReruns(r: Result, again: Result)
    ensures var moves := [Start(0, {})] + ([Fetch(0, {})] + ([LoseLease] + ToSettled(1, r)));
            && Possible(PASS_ON, NEW_WORLD, moves)
            && [0] in After(PASS_ON, NEW_WORLD, moves).store
            && Enabled(After(PASS_ON, NEW_WORLD, moves), RunLeaf(0, again))
            && Here(After(PASS_ON, NEW_WORLD, moves).attempts[0].stack) == [0]
  {
    assert [] + [0] == [0];
    var w1 := Take(PASS_ON, NEW_WORLD, Start(0, {}));
    FetchesLeaf(NEW_WORLD, 0);
    var w2 := Take(PASS_ON, w1, Fetch(0, {}));
    var w3 := Take(PASS_ON, w2, LoseLease);
    ReachesSettled(w3, 1, r, []);
    assert ToSettled(1, r) + [] == ToSettled(1, r);
    MoveFirst(PASS_ON, w2, LoseLease, ToSettled(1, r));
    MoveFirst(PASS_ON, w1, Fetch(0, {}), [LoseLease] + ToSettled(1, r));
    MoveFirst(PASS_ON, NEW_WORLD, Start(0, {}), [Fetch(0, {})] + ([LoseLease] + ToSettled(1, r)));
  }

  /** The lease is lost, a second attempt starts, and the first one, its leaf run,
      is refused: the workflow is rejected, while the second holds the lease and
      nothing at all has settled. */
  lemma RefusalRejects(r: Result)
    ensures var moves := [Start(0, {})] + ([Fetch(0, {})] + ([LoseLease] + ([Start(1, {})] + ([RunLeaf(0, r)] + [Refuse(0)]))));
            && Possible(PASS_ON, NEW_WORLD, moves)
            && Rejected(PASS_ON, NEW_WORLD, moves)
            && After(PASS_ON, NEW_WORLD, moves).finished == Some(Err(REFUSED))
            && Direct(PASS_ON, [], 0, After(PASS_ON, NEW_WORLD, moves).store) == None
  {
    assert [] + [0] == [0];
    FetchesLeaf(NEW_WORLD, 0);
    var w1 := Take(PASS_ON, NEW_WORLD, Start(0, {}));
    var w2 := Take(PASS_ON, w1, Fetch(0, {}));
    var w3 := Take(PASS_ON, w2, LoseLease);
    var w4 := Take(PASS_ON, w3, Start(1, {}));
    var w5 := Take(PASS_ON, w4, RunLeaf(0, r));
    RejectsNow(PASS_ON, w5, 0);
    RejectsLater(PASS_ON, w4, RunLeaf(0, r), [Refuse(0)]);
    RejectsLater(PASS_ON, w3, Start(1, {}), [RunLeaf(0, r)] + [Refuse(0)]);
    RejectsLater(PASS_ON, w2, LoseLease, [Start(1, {})] + ([RunLeaf(0, r)] + [Refuse(0)]));
    RejectsLater(PASS_ON, w1, Fetch(0, {}), [LoseLease] + ([Start(1, {})] + ([RunLeaf(0, r)] + [Refuse(0)])));
    RejectsLater(PASS_ON, NEW_WORLD, Start(0, {}), [Fetch(0, {})] + ([LoseLease] + ([Start(1, {})] + ([RunLeaf(0, r)] + [Refuse(0)]))));
  }

  lemma RejectsNow(root: Flow, w: World, a: nat)
    requires Enabled(w, Refuse(a)) && Rejects(w, Refuse(a))
    ensures Possible(root, w, [Refuse(a)]) && Rejected(root, w, [Refuse(a)])
    ensures After(root, w, [Refuse(a)]) == Take(root, w, Refuse(a))
  {
    MoveFirst(root, w, Refuse(a), []);
    assert [Refuse(a)] == [Refuse(a)] + [];
  }

  lemma RejectsLater(root: Flow, w: World, m: Move, rest: seq<Move>)
    requires Enabled(w, m) && Possible(root, Take(root, w, m), rest) && Rejected(root, Take(root, w, m), rest)
    ensures Possible(root, w, [m] + rest) && Rejected(root, w, [m] + rest)
    ensures After(root, w, [m] + rest) == After(root, Take(root, w, m), rest)
  {
    MoveFirst(root, w, m, rest);
    assert ([m] + rest)[1..] == rest;
  }
}

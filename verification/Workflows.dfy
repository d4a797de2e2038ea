/**
 Workflows as interaction trees of awaited operations: their value by direct
 evaluation, what they need next given the promises settled so far, and where a
 replay of those promises leads.

 An operation is named by its path of sequence numbers; `Core.dfy` shows that the
 ids of the operations below a context and their paths correspond.
 */
module Workflows {
  import opened Protocol

  // ---------------------------------------------------------------------
  //  Results and what becomes of them in storage
  // ---------------------------------------------------------------------

  /** An error is an application error or one of the SDK's own, known by its text. */
  datatype Error = Application(message: string) | Internal(text: string)

  datatype Result = Ok(value: Json) | Err(error: Error)

  function ErrorText(e: Error): string {
    match e
    case Application(message) => "application error: " + message
    case Internal(text) => text
  }

  /** What a fence refused for its lease comes to in user code. */
  const REFUSED := Internal("server error (code=409): server error (status 409)")

  /** What a result reads back as: values survive storage, errors come back as
      application errors that quote the original's text. */
  function Stored(r: Result): Result {
    match r
    case Ok(_) => r
    case Err(e) => Err(Application(ErrorText(e)))
  }

  /** What the record of a promise tells whoever awaits it, if it has settled; the
      text of a rejected promise's value is the message of the error stored in it. */
  function AsResult(r: Record): Option<Result> {
    match r.state
    case Pending => None
    case Resolved => Some(Ok(r.value))
    case _ => Some(Err(Application(match r.value case Text(message) => message case Null => "unknown error: null")))
  }

  /** The promise was settled with this result: a value as it is, an error by its text. */
  predicate Reports(r: Record, result: Result) {
    match result
    case Ok(value) => r.state.Resolved? && r.value == value
    case Err(e) => r.state.Rejected? && r.value == Text(ErrorText(e))
  }

  /** Such a promise reads back as the stored form of the result. */
  lemma ReportReadsBack(r: Record, result: Result)
    requires Reports(r, result)
    ensures AsResult(r) == Some(Stored(result))
  {
  }

  // ---------------------------------------------------------------------
  //  Workflows
  // ---------------------------------------------------------------------

  type Path = seq<nat>

  datatype Op = Leaf | Remote | Nested(child: Flow)

  datatype Flow = Return(result: Result) | Await(op: Op, next: Result -> Flow)

  type Store = map<Path, Result>

  /** `p` lies below `path`, at its `k`-th operation or later. */
  predicate Under(p: Path, path: Path, k: nat) {
    |p| > |path| && p[..|path|] == path && p[|path|] >= k
  }

  /** The settled promises still ahead: what bounds an evaluation, however long
      the workflow itself may go on. */
  function Ahead(path: Path, k: nat, store: Store): set<Path> {
    set p | p in store && Under(p, path, k)
  }

  lemma UnderChild(q: Path, path: Path, k: nat)
    requires Under(q, path + [k], 0)
    ensures Under(q, path, k) && !Under(q, path, k + 1)
  {
    var p := path + [k];
    assert q[..|p|][..|path|] == q[..|path|];
    assert q[..|p|][|path|] == q[|path|];
  }

  lemma AheadShrinks(path: Path, k: nat, store: Store)
    ensures Ahead(path + [k], 0, store) <= Ahead(path, k, store)
    ensures path + [k] in store ==> Ahead(path, k + 1, store) < Ahead(path, k, store)
    ensures path + [k] in store ==> Ahead(path + [k], 0, store) < Ahead(path, k, store)
  {
    var p := path + [k];
    forall q | q in Ahead(p, 0, store) ensures q in Ahead(path, k, store)
    {
      UnderChild(q, path, k);
    }
    if p in store {
      assert p in Ahead(path, k, store) && p !in Ahead(path, k + 1, store) && p !in Ahead(p, 0, store);
    }
  }

  /** The value of a workflow by direct evaluation, given what its leaves and
      remote calls came to.  A nested workflow is evaluated in place; what its
      own promise says is not looked at. */
  function Direct(f: Flow, path: Path, k: nat, store: Store): Option<Result>
    decreases Ahead(path, k, store), f
  {
    match f
    case Return(r) => Some(r)
    case Await(op, next) =>
      AheadShrinks(path, k, store);
      var p := path + [k];
      if p !in store then None
      else
        var value := if op.Nested? then Direct(op.child, p, 0, store) else Some(store[p]);
        if value.None? then None else Direct(next(value.value), path, k + 1, store)
  }

  // ---------------------------------------------------------------------
  //  The frontier
  // ---------------------------------------------------------------------

  /** What has to happen next for the workflow to get any further. */
  datatype Frontier =
    | Open(p: Path, op: Op)
    | Closing(p: Path, result: Result)
    | Ended(result: Result)

  function FrontierOf(f: Flow, path: Path, k: nat, store: Store): Frontier
    decreases Ahead(path, k, store), f
  {
    match f
    case Return(r) => Ended(r)
    case Await(op, next) =>
      AheadShrinks(path, k, store);
      var p := path + [k];
      if p in store then FrontierOf(next(store[p]), path, k + 1, store)
      else if op.Nested? then Close(p, FrontierOf(op.child, p, 0, store))
      else Open(p, op)
  }

  /** A nested workflow that has ended has its promise to settle. */
  function Close(p: Path, inner: Frontier): Frontier {
    if inner.Ended? then Closing(p, inner.result) else inner
  }

  lemma {:induction false} FrontierUnder(f: Flow, path: Path, k: nat, store: Store)
    ensures var x := FrontierOf(f, path, k, store);
            !x.Ended? ==> Under(x.p, path, k) && x.p !in store
    decreases Ahead(path, k, store), f
  {
    if f.Await? {
      AheadShrinks(path, k, store);
      var p := path + [k];
      if p in store {
        FrontierUnder(f.next(store[p]), path, k + 1, store);
      } else if f.op.Nested? {
        FrontierUnder(f.op.child, p, 0, store);
        var x := FrontierOf(f.op.child, p, 0, store);
        if !x.Ended? { assert x.p[..|p|][..|path|] == x.p[..|path|]; }
      }
    }
  }

  // ---------------------------------------------------------------------
  //  What the promises are known to say
  // ---------------------------------------------------------------------

  ghost predicate NothingFrom(path: Path, k: nat, store: Store) {
    forall p | p in store :: !Under(p, path, k)
  }

  /** The settled promises are exactly an initial part of the workflow, and each
      nested workflow's promise holds what that workflow ended with. */
  ghost predicate Covers(f: Flow, path: Path, k: nat, store: Store)
    decreases Ahead(path, k, store), f
  {
    match f
    case Return(_) => NothingFrom(path, k, store)
    case Await(op, next) =>
      AheadShrinks(path, k, store);
      var p := path + [k];
      && (op.Nested? ==> Covers(op.child, p, 0, store))
      && (if p in store then
            && (op.Nested? ==> FrontierOf(op.child, p, 0, store) == Ended(store[p]))
            && Covers(next(store[p]), path, k + 1, store)
          else NothingFrom(path, k + 1, store))
      && (!op.Nested? ==> NothingFrom(p, 0, store))
  }

  lemma {:induction false} NothingCovered(f: Flow, path: Path, k: nat, store: Store)
    requires NothingFrom(path, k, store)
    ensures Covers(f, path, k, store)
    decreases Ahead(path, k, store), f
  {
    if f.Await? {
      AheadShrinks(path, k, store);
      var p := path + [k];
      assert p in store ==> Under(p, path, k);
      forall q | q in store ensures !Under(q, p, 0) && !Under(q, path, k + 1)
      {
        if Under(q, p, 0) { UnderChild(q, path, k); }
      }
      if f.op.Nested? {
        NothingCovered(f.op.child, p, 0, store);
      }
    }
  }

  /** Once everything settled is accounted for, the end of the workflow is its
      direct value. */
  lemma {:induction false} EndedIsDirect(f: Flow, path: Path, k: nat, store: Store)
    requires Covers(f, path, k, store) && FrontierOf(f, path, k, store).Ended?
    ensures Direct(f, path, k, store) == Some(FrontierOf(f, path, k, store).result)
    decreases Ahead(path, k, store), f
  {
    if f.Await? {
      AheadShrinks(path, k, store);
      var p := path + [k];
      assert p in store;
      if f.op.Nested? {
        EndedIsDirect(f.op.child, p, 0, store);
      }
      EndedIsDirect(f.next(store[p]), path, k + 1, store);
    }
  }

  // ---------------------------------------------------------------------
  //  Settling at the frontier
  // ---------------------------------------------------------------------

  /** A promise elsewhere makes no difference here. */
  lemma {:induction false} ElsewhereIsIrrelevant(f: Flow, path: Path, k: nat, store: Store, q: Path, v: Result)
    requires !Under(q, path, k)
    ensures FrontierOf(f, path, k, store[q := v]) == FrontierOf(f, path, k, store)
    ensures Covers(f, path, k, store[q := v]) == Covers(f, path, k, store)
    decreases Ahead(path, k, store), f
  {
    var store' := store[q := v];
    NothingElsewhere(path, k, store, q, v);
    if f.Await? {
      AheadShrinks(path, k, store);
      var p := path + [k];
      assert q != p;
      assert !Under(q, p, 0) by { if Under(q, p, 0) { UnderChild(q, path, k); } }
      NothingElsewhere(path, k + 1, store, q, v);
      NothingElsewhere(p, 0, store, q, v);
      if f.op.Nested? {
        ElsewhereIsIrrelevant(f.op.child, p, 0, store, q, v);
      }
      if p in store {
        ElsewhereIsIrrelevant(f.next(store[p]), path, k + 1, store, q, v);
      }
    }
  }

  lemma NothingElsewhere(path: Path, k: nat, store: Store, q: Path, v: Result)
    requires !Under(q, path, k)
    ensures NothingFrom(path, k, store[q := v]) <==> NothingFrom(path, k, store)
  {
    if NothingFrom(path, k, store[q := v]) {
      forall p | p in store ensures !Under(p, path, k) { assert p in store[q := v]; }
    }
  }

  /** Settling what the frontier asks for keeps the account exact: a leaf or a
      remote call with anything, a nested workflow with what it ended with. */
  lemma {:induction false} SettleKeepsCovers(f: Flow, path: Path, k: nat, store: Store, v: Result)
    requires Covers(f, path, k, store) && !FrontierOf(f, path, k, store).Ended?
    requires FrontierOf(f, path, k, store).Closing? ==> FrontierOf(f, path, k, store).result == v
    ensures Covers(f, path, k, store[FrontierOf(f, path, k, store).p := v])
    decreases Ahead(path, k, store), f
  {
    var q := FrontierOf(f, path, k, store).p;
    var store' := store[q := v];
    var p := path + [k];
    AheadShrinks(path, k, store);
    if p in store {
      FrontierUnder(f.next(store[p]), path, k + 1, store);
      SettleKeepsCovers(f.next(store[p]), path, k + 1, store, v);
      assert !Under(q, p, 0) by { if Under(q, p, 0) { UnderChild(q, path, k); } }
      NothingElsewhere(p, 0, store, q, v);
      if f.op.Nested? {
        ElsewhereIsIrrelevant(f.op.child, p, 0, store, q, v);
      }
    } else if !f.op.Nested? || FrontierOf(f.op.child, p, 0, store).Ended? {
      assert !Under(q, p, 0) && !Under(q, path, k + 1);
      NothingElsewhere(p, 0, store, q, v);
      NothingElsewhere(path, k + 1, store, q, v);
      if f.op.Nested? {
        ElsewhereIsIrrelevant(f.op.child, p, 0, store, q, v);
      }
      NothingCovered(f.next(v), path, k + 1, store');
    } else {
      FrontierUnder(f.op.child, p, 0, store);
      UnderChild(q, path, k);
      SettleKeepsCovers(f.op.child, p, 0, store, v);
      NothingElsewhere(path, k + 1, store, q, v);
    }
  }

  // ---------------------------------------------------------------------
  //  Replaying
  // ---------------------------------------------------------------------

  /** `f`, from its `j`-th operation on, has been replayed up to its `k`-th. */
  function Advanced(f: Flow, path: Path, j: nat, k: nat, store: Store): Option<Flow>
    requires j <= k
    decreases k - j
  {
    if j == k then Some(f)
    else if f.Return? || path + [j] !in store then None
    else Advanced(f.next(store[path + [j]]), path, j + 1, k, store)
  }

  lemma {:induction false} AdvancedOne(f: Flow, path: Path, j: nat, k: nat, store: Store)
    requires j <= k && Advanced(f, path, j, k, store).Some?
    requires Advanced(f, path, j, k, store).value.Await? && path + [k] in store
    ensures Advanced(f, path, j, k + 1, store)
         == Some(Advanced(f, path, j, k, store).value.next(store[path + [k]]))
    decreases k - j
  {
    if j < k {
      AdvancedOne(f.next(store[path + [j]]), path, j + 1, k, store);
    } else {
      assert Advanced(f.next(store[path + [j]]), path, k + 1, k + 1, store) == Some(f.next(store[path + [j]]));
    }
  }

  lemma {:induction false} AdvancedStays(f: Flow, path: Path, j: nat, k: nat, store: Store, q: Path, v: Result)
    requires j <= k && Advanced(f, path, j, k, store).Some? && q !in store
    ensures Advanced(f, path, j, k, store[q := v]) == Advanced(f, path, j, k, store)
    decreases k - j
  {
    if j < k {
      AdvancedStays(f.next(store[path + [j]]), path, j + 1, k, store, q, v);
    }
  }

  lemma {:induction false} AdvancedFrontier(f: Flow, path: Path, j: nat, k: nat, store: Store)
    requires j <= k && Advanced(f, path, j, k, store).Some?
    ensures FrontierOf(Advanced(f, path, j, k, store).value, path, k, store) == FrontierOf(f, path, j, store)
    decreases k - j
  {
    if j < k {
      AdvancedFrontier(f.next(store[path + [j]]), path, j + 1, k, store);
    }
  }

  // ---------------------------------------------------------------------
  //  Remote operations
  // ---------------------------------------------------------------------

  /** Replaying leads to the operation at `q`, and it is a remote one. */
  predicate RemoteAt(f: Flow, path: Path, k: nat, store: Store, q: Path)
    decreases Ahead(path, k, store), f
  {
    match f
    case Return(_) => false
    case Await(op, next) =>
      AheadShrinks(path, k, store);
      var p := path + [k];
      if q == p then op.Remote?
      else if Under(q, p, 0) then op.Nested? && RemoteAt(op.child, p, 0, store, q)
      else p in store && RemoteAt(next(store[p]), path, k + 1, store, q)
  }

  lemma {:induction false} RemoteAtStays(f: Flow, path: Path, k: nat, store: Store, q: Path, p: Path, v: Result)
    requires RemoteAt(f, path, k, store, q) && p !in store
    ensures RemoteAt(f, path, k, store[p := v], q)
    decreases Ahead(path, k, store), f
  {
    AheadShrinks(path, k, store);
    var here := path + [k];
    if q != here {
      if Under(q, here, 0) {
        RemoteAtStays(f.op.child, here, 0, store, q, p, v);
      } else {
        RemoteAtStays(f.next(store[here]), path, k + 1, store, q, p, v);
      }
    }
  }

  lemma {:induction false} RemoteAtAdvanced(f: Flow, path: Path, j: nat, k: nat, store: Store, q: Path)
    requires j <= k && Advanced(f, path, j, k, store).Some? && Under(q, path, k)
    ensures RemoteAt(f, path, j, store, q) == RemoteAt(Advanced(f, path, j, k, store).value, path, k, store, q)
    decreases k - j
  {
    if j < k {
      if Under(q, path + [j], 0) { UnderChild(q, path, j); }
      RemoteAtAdvanced(f.next(store[path + [j]]), path, j + 1, k, store, q);
    }
  }

  // ---------------------------------------------------------------------
  //  Values and errors
  // ---------------------------------------------------------------------

  /** What a leaf hands on is what replay hands on exactly when it is a value: an
      error never reads back as itself. */
  lemma ReplaysExactly(r: Result)
    ensures Stored(r) == r <==> r.Ok?
  {
    if r.Err? && r.error.Application? {
      assert |ErrorText(r.error)| > |r.error.message|;
    }
  }
}

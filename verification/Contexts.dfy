/**
 Structured concurrency: what a workflow still waits for when its function has
 returned, and what the worker does about it.

 A `Tree` is what one execution did: the operations of each context in order,
 what became of each, and nested contexts to any depth.
 */
module Contexts {
  import opened Protocol
  import Workflows

  type Path = Workflows.Path

  datatype Mode = Spawned | Awaited | Detached

  /** What became of an operation: its promise could not be created; it was
      settled already; it is a local run that was settled with a value that does
      not decode; it is a remote call nobody has answered; it was a leaf and ran;
      it was a workflow and ran as far as it could. */
  datatype Fate = NotCreated | Settled | Undecodable | Waiting | RanLeaf | RanNested(child: Tree)

  datatype Op = Op(mode: Mode, fate: Fate)

  /** `suspended` when the function itself came back with the suspension error. */
  datatype Tree = Tree(ops: seq<Op>, suspended: bool)

  // ---------------------------------------------------------------------
  //  What there is to wait for, read off the tree
  // ---------------------------------------------------------------------

  /** Something failed that nobody was there to hear about: the creation of a
      spawned or detached operation, or the stored value of a spawned run, here or
      in a spawned child, to any depth. */
  predicate Lost(t: Tree)
    decreases t
  {
    AnyLost(t.ops)
  }

  predicate AnyLost(ops: seq<Op>)
    decreases ops
  {
    exists i | 0 <= i < |ops| :: LostAt(ops[i])
  }

  predicate LostAt(op: Op)
    decreases op
  {
    match op.mode
    case Awaited => false
    case Detached => op.fate.NotCreated?
    case Spawned => op.fate.NotCreated? || op.fate.Undecodable? || (op.fate.RanNested? && Lost(op.fate.child))
  }

  /** The pending remote calls of the tree in program order, detached ones left
      out. */
  function Pending(ops: seq<Op>, path: Path): seq<Path>
    decreases ops
  {
    if ops == [] then []
    else
      var n := |ops| - 1;
      Pending(ops[..n], path) + PendingAt(ops[n], path + [n])
  }

  function PendingAt(op: Op, p: Path): seq<Path>
    decreases op
  {
    if op.mode.Detached? then []
    else
      match op.fate
      case Waiting => [p]
      case RanNested(child) => Pending(child.ops, p)
      case _ => []
  }

  /** Every operation in the tree was created, and every stored value decoded. */
  predicate AllWell(t: Tree) {
    forall i | 0 <= i < |t.ops| ::
      && !t.ops[i].fate.NotCreated? && !t.ops[i].fate.Undecodable?
      && (t.ops[i].fate.RanNested? ==> AllWell(t.ops[i].fate.child))
  }

  // ---------------------------------------------------------------------
  //  What the code collects
  // ---------------------------------------------------------------------

  /** The outcome of collecting: the remote todos, or the first failure. */
  datatype Collected = Todos(ids: seq<Path>) | Failure(first: Path)

  /** How a background task ended. */
  datatype Outcome = Completed | Broke(first: Path) | Blocked(todos: seq<Path>)

  datatype Handle = Handle(id: Path, outcome: Outcome)

  function OutcomeOf(op: Op, p: Path): Outcome
    decreases op, 1
  {
    if op.fate.NotCreated? then Broke(p)
    else if op.mode.Detached? then Completed
    else
      match op.fate
      case Undecodable => Broke(p)
      case Waiting => Blocked([p])
      case RanNested(child) => OutcomeOfChild(child, Collect(child, p))
      case _ => Completed
  }

  function OutcomeOfChild(child: Tree, c: Collected): Outcome {
    match c
    case Failure(first) => Broke(first)
    case Todos(ids) => if child.suspended || ids != [] then Blocked(ids) else Completed
  }

  function Joined(outcomes: seq<Outcome>): Collected {
    if outcomes == [] then Todos([])
    else
      var n := |outcomes| - 1;
      var before := Joined(outcomes[..n]);
      if before.Failure? then before
      else
        match outcomes[n]
        case Completed => before
        case Broke(first) => Failure(first)
        case Blocked(todos) => Todos(before.ids + todos)
  }

  /** The first task to break is the one whose failure is reported; if none breaks, the
      todos are those of the blocked ones, in order. */
  lemma {:induction false} FirstFailureWins(outcomes: seq<Outcome>)
    ensures Joined(outcomes).Failure? ==>
              exists i | 0 <= i < |outcomes| ::
                outcomes[i] == Broke(Joined(outcomes).first) && forall j | 0 <= j < i :: !outcomes[j].Broke?
    ensures Joined(outcomes).Todos? ==>
              (forall i | 0 <= i < |outcomes| :: !outcomes[i].Broke?) && Joined(outcomes).ids == AllTodos(outcomes)
  {
    if outcomes != [] {
      var before := outcomes[..|outcomes| - 1];
      FirstFailureWins(before);
      if Joined(before).Failure? {
        var i :| 0 <= i < |before| && before[i] == Broke(Joined(before).first) && forall j | 0 <= j < i :: !before[j].Broke?;
        assert outcomes[i] == Broke(Joined(outcomes).first) && forall j | 0 <= j < i :: !outcomes[j].Broke? by {
          assert forall j | 0 <= j <= i :: outcomes[j] == before[j];
        }
      } else {
        assert forall j | 0 <= j < |before| :: outcomes[j] == before[j];
      }
    }
  }

  function AllTodos(outcomes: seq<Outcome>): seq<Path> {
    if outcomes == [] then []
    else AllTodos(outcomes[..|outcomes| - 1]) + TodosOf(outcomes[|outcomes| - 1])
  }

  /** The outcomes of the background tasks, in spawn order. */
  function Spawns(ops: seq<Op>, path: Path): seq<Outcome>
    decreases ops, 0
  {
    if ops == [] then []
    else
      var n := |ops| - 1;
      Spawns(ops[..n], path) + if ops[n].mode.Awaited? then [] else [OutcomeOf(ops[n], path + [n])]
  }

  /** The todos the awaits left in the context itself. */
  function Own(ops: seq<Op>, path: Path): seq<Path>
    decreases ops, 0
  {
    if ops == [] then []
    else
      var n := |ops| - 1;
      Own(ops[..n], path) + if ops[n].mode.Awaited? then OwnAt(ops[n], path + [n]) else []
  }

  /** An awaited child whose collection fails hands the error to user code and
      leaves nothing behind. */
  function OwnAt(op: Op, p: Path): seq<Path>
    decreases op, 1
  {
    match op.fate
    case Waiting => [p]
    case RanNested(child) => (var c := Collect(child, p); if c.Todos? then c.ids else [])
    case _ => []
  }

  /** `collect_remote_todos`. */
  function Collect(t: Tree, path: Path): Collected
    decreases t, 0
  {
    var joined := Joined(Spawns(t.ops, path));
    if joined.Failure? then joined else Todos(Own(t.ops, path) + joined.ids)
  }

  // ---------------------------------------------------------------------
  //  A failed creation is never lost
  // ---------------------------------------------------------------------

  predicate AnyBroke(outcomes: seq<Outcome>) {
    exists o | o in outcomes :: o.Broke?
  }

  lemma AnyBrokeSnoc(outcomes: seq<Outcome>, o: Outcome)
    ensures AnyBroke(outcomes + [o]) <==> AnyBroke(outcomes) || o.Broke?
  {
    assert o in outcomes + [o];
    if AnyBroke(outcomes) {
      var b :| b in outcomes && b.Broke?;
      assert b in outcomes + [o];
    }
  }

  lemma {:induction false} JoinedFails(outcomes: seq<Outcome>)
    ensures Joined(outcomes).Failure? <==> AnyBroke(outcomes)
  {
    if outcomes != [] {
      var n := |outcomes| - 1;
      JoinedFails(outcomes[..n]);
      AnyBrokeSnoc(outcomes[..n], outcomes[n]);
      assert outcomes == outcomes[..n] + [outcomes[n]];
    }
  }

  lemma AnyLostSnoc(ops: seq<Op>, op: Op)
    ensures AnyLost(ops + [op]) <==> AnyLost(ops) || LostAt(op)
  {
    var all := ops + [op];
    assert all[|ops|] == op;
    if AnyLost(ops) {
      var i :| 0 <= i < |ops| && LostAt(ops[i]);
      assert LostAt(all[i]);
    }
  }

  lemma {:induction false} SpawnsBreak(ops: seq<Op>, path: Path)
    ensures AnyBroke(Spawns(ops, path)) <==> AnyLost(ops)
    decreases ops, 0
  {
    if ops != [] {
      var n := |ops| - 1;
      SpawnsBreak(ops[..n], path);
      AnyLostSnoc(ops[..n], ops[n]);
      assert ops == ops[..n] + [ops[n]];
      BreaksExactly(ops[n], path + [n]);
      if ops[n].mode.Awaited? {
        assert Spawns(ops, path) == Spawns(ops[..n], path);
      } else {
        AnyBrokeSnoc(Spawns(ops[..n], path), OutcomeOf(ops[n], path + [n]));
      }
    }
  }

  lemma {:induction false} BreaksExactly(op: Op, p: Path)
    ensures !op.mode.Awaited? ==> (OutcomeOf(op, p).Broke? <==> LostAt(op))
    ensures op.mode.Awaited? ==> !LostAt(op)
    decreases op, 1
  {
    if op.fate.RanNested? {
      CollectFailsExactly(op.fate.child, p);
    }
  }

  /** Collecting fails exactly when something nobody heard about failed, however
      deep below spawned children it was. */
  lemma {:induction false} CollectFailsExactly(t: Tree, path: Path)
    ensures Collect(t, path).Failure? <==> Lost(t)
    decreases t, 0
  {
    SpawnsBreak(t.ops, path);
    JoinedFails(Spawns(t.ops, path));
  }

  // ---------------------------------------------------------------------
  //  What is collected is what is pending
  // ---------------------------------------------------------------------

  /** The pending calls of the tree, less those of awaited children whose own
      collection failed: user code got that error and the todos are gone. */
  function Kept(ops: seq<Op>, path: Path): seq<Path>
    decreases ops
  {
    if ops == [] then []
    else
      var n := |ops| - 1;
      Kept(ops[..n], path) + KeptAt(ops[n], path + [n])
  }

  function KeptAt(op: Op, p: Path): seq<Path>
    decreases op
  {
    if op.mode.Detached? then []
    else
      match op.fate
      case Waiting => [p]
      case RanNested(child) => if op.mode.Awaited? && Lost(child) then [] else Kept(child.ops, p)
      case _ => []
  }

  /** The todos a background task ends with. */
  function TodosOf(o: Outcome): seq<Path> {
    if o.Blocked? then o.todos else []
  }

  lemma JoinedSnoc(outcomes: seq<Outcome>, o: Outcome)
    ensures Joined(outcomes + [o]).Todos? <==> Joined(outcomes).Todos? && !o.Broke?
    ensures Joined(outcomes + [o]).Todos? ==> Joined(outcomes + [o]).ids == Joined(outcomes).ids + TodosOf(o)
  {
    assert (outcomes + [o])[..|outcomes|] == outcomes;
  }

  lemma Regrouped(own: seq<Path>, spawned: seq<Path>, more: seq<Path>)
    ensures multiset(own + more + spawned) == multiset(own + spawned) + multiset(more)
    ensures multiset(own + (spawned + more)) == multiset(own + spawned) + multiset(more)
  {
    assert own + (spawned + more) == own + spawned + more;
  }

  /** One more operation: what it adds to each side. */
  lemma OneMoreOp(ops: seq<Op>, path: Path)
    requires ops != []
    ensures var n := |ops| - 1;
            var op, p := ops[n], path + [n];
            && Kept(ops, path) == Kept(ops[..n], path) + KeptAt(op, p)
            && Own(ops, path) == Own(ops[..n], path) + (if op.mode.Awaited? then OwnAt(op, p) else [])
            && Spawns(ops, path) == Spawns(ops[..n], path) + (if op.mode.Awaited? then [] else [OutcomeOf(op, p)])
  {
  }

  lemma {:induction false} OneMoreBalances(op: Op, p: Path, own: seq<Path>, before: seq<Outcome>, kept: seq<Path>)
    requires Joined(before + if op.mode.Awaited? then [] else [OutcomeOf(op, p)]).Todos?
    requires Joined(before).Todos? ==> multiset(own + Joined(before).ids) == multiset(kept)
    ensures multiset(own + (if op.mode.Awaited? then OwnAt(op, p) else [])
                     + Joined(before + if op.mode.Awaited? then [] else [OutcomeOf(op, p)]).ids)
         == multiset(kept + KeptAt(op, p))
    decreases op, 3
  {
    if op.mode.Awaited? {
      assert before + [] == before;
    } else {
      JoinedSnoc(before, OutcomeOf(op, p));
      assert own + [] == own;
    }
    CollectedIsKeptAt(op, p);
    Regrouped(own, Joined(before).ids, CollectedAt(op, p));
    assert multiset(kept + KeptAt(op, p)) == multiset(kept) + multiset(KeptAt(op, p));
  }

  /** The account balances: what is collected is what is kept. */
  ghost predicate Balanced(ops: seq<Op>, path: Path) {
    Joined(Spawns(ops, path)).Todos? ==>
      multiset(Own(ops, path) + Joined(Spawns(ops, path)).ids) == multiset(Kept(ops, path))
  }

  lemma NothingBalanced(path: Path)
    ensures Balanced([], path)
  {
    assert Own([], path) + Joined(Spawns([], path)).ids == Kept([], path);
  }

  lemma {:induction false} OneMoreBalanced(ops: seq<Op>, path: Path)
    requires ops != [] && Balanced(ops[..|ops| - 1], path)
    ensures Balanced(ops, path)
    decreases ops, 4
  {
    var n := |ops| - 1;
    var op, p := ops[n], path + [n];
    var own, before, kept := Own(ops[..n], path), Spawns(ops[..n], path), Kept(ops[..n], path);
    var all := Spawns(ops, path);
    OneMoreOp(ops, path);
    assert all == before + if op.mode.Awaited? then [] else [OutcomeOf(op, p)];
    if Joined(all).Todos? {
      OneMoreBalances(op, p, own, before, kept);
      assert multiset(Own(ops, path) + Joined(all).ids) == multiset(Kept(ops, path));
    }
  }

  lemma {:induction false} CollectedAreKept(ops: seq<Op>, path: Path)
    ensures Balanced(ops, path)
    decreases ops, 5
  {
    if ops == [] {
      NothingBalanced(path);
    } else {
      CollectedAreKept(ops[..|ops| - 1], path);
      OneMoreBalanced(ops, path);
    }
  }

  lemma SimplyKept(op: Op, p: Path)
    requires !op.fate.RanNested? || op.mode.Detached?
    ensures op.mode.Awaited? ==> OwnAt(op, p) == KeptAt(op, p)
    ensures !op.mode.Awaited? && !OutcomeOf(op, p).Broke? ==> TodosOf(OutcomeOf(op, p)) == KeptAt(op, p)
  {
  }

  /** What is collected of one operation, whichever way it was started. */
  function CollectedAt(op: Op, p: Path): seq<Path> {
    if op.mode.Awaited? then OwnAt(op, p) else TodosOf(OutcomeOf(op, p))
  }

  lemma SimplyCollected(op: Op, p: Path)
    requires !op.fate.RanNested? || op.mode.Detached?
    requires op.mode.Awaited? || !OutcomeOf(op, p).Broke?
    ensures multiset(CollectedAt(op, p)) == multiset(KeptAt(op, p))
  {
    SimplyKept(op, p);
    SameItems(CollectedAt(op, p), KeptAt(op, p));
  }

  lemma SameItems(a: seq<Path>, b: seq<Path>)
    requires a == b
    ensures multiset(a) == multiset(b)
  {
  }

  lemma CollectedNested(op: Op, p: Path)
    requires op.fate.RanNested? && !op.mode.Detached?
    requires op.mode.Awaited? || !OutcomeOf(op, p).Broke?
    ensures CollectedAt(op, p) == if Collect(op.fate.child, p).Todos? then Collect(op.fate.child, p).ids else []
    ensures Collect(op.fate.child, p).Failure? ==> op.mode.Awaited?
  {
  }

  lemma KeptNested(op: Op, p: Path)
    requires op.fate.RanNested? && !op.mode.Detached? && (Lost(op.fate.child) ==> op.mode.Awaited?)
    ensures KeptAt(op, p) == if Lost(op.fate.child) then [] else Kept(op.fate.child.ops, p)
  {
  }

  lemma {:induction false} NestedCollected(op: Op, p: Path)
    requires op.fate.RanNested? && !op.mode.Detached?
    requires op.mode.Awaited? || !OutcomeOf(op, p).Broke?
    ensures multiset(CollectedAt(op, p)) == multiset(KeptAt(op, p))
    decreases op, 1
  {
    var child := op.fate.child;
    CollectedNested(op, p);
    CollectedOfChild(child, p);
    KeptNested(op, p);
    if Lost(child) {
      SameItems(CollectedAt(op, p), KeptAt(op, p));
    } else {
      SameItems(CollectedAt(op, p), Collect(child, p).ids);
      SameItems(Kept(child.ops, p), KeptAt(op, p));
    }
  }

  lemma {:induction false} CollectedIsKeptAt(op: Op, p: Path)
    requires op.mode.Awaited? || !OutcomeOf(op, p).Broke?
    ensures multiset(CollectedAt(op, p)) == multiset(KeptAt(op, p))
    decreases op, 2
  {
    if op.fate.RanNested? && !op.mode.Detached? {
      NestedCollected(op, p);
    } else {
      SimplyCollected(op, p);
    }
  }

  lemma {:induction false} CollectedOfChild(child: Tree, p: Path)
    ensures Collect(child, p).Todos? <==> !Lost(child)
    ensures Collect(child, p).Todos? ==> multiset(Collect(child, p).ids) == multiset(Kept(child.ops, p))
    decreases child, 0
  {
    CollectFailsExactly(child, p);
    if Collect(child, p).Todos? {
      CollectedAreKept(child.ops, p);
    }
  }

  lemma {:induction false} KeptIsPending(t: Tree, ops: seq<Op>, path: Path)
    requires AllWell(t) && ops <= t.ops
    ensures Kept(ops, path) == Pending(ops, path)
    decreases t, ops
  {
    if ops != [] {
      var n := |ops| - 1;
      assert ops[n] == t.ops[n];
      KeptIsPending(t, ops[..n], path);
      if ops[n].fate.RanNested? {
        NothingLost(ops[n].fate.child);
        KeptIsPending(ops[n].fate.child, ops[n].fate.child.ops, path + [n]);
      }
    }
  }

  lemma {:induction false} NothingLost(t: Tree)
    requires AllWell(t)
    ensures !Lost(t)
    decreases t
  {
    forall i | 0 <= i < |t.ops| ensures !LostAt(t.ops[i])
    {
      if t.ops[i].fate.RanNested? { NothingLost(t.ops[i].fate.child); }
    }
  }

  // ---------------------------------------------------------------------
  //  No duplicates
  // ---------------------------------------------------------------------

  lemma {:induction false} PendingUnder(ops: seq<Op>, path: Path, x: Path)
    requires x in Pending(ops, path)
    ensures Workflows.Under(x, path, 0) && x[|path|] < |ops|
    decreases ops, 0
  {
    var n := |ops| - 1;
    if x in PendingAt(ops[n], path + [n]) {
      PendingUnderAt(ops[n], path, n, x);
    } else {
      PendingUnder(ops[..n], path, x);
    }
  }

  lemma {:induction false} PendingUnderAt(op: Op, path: Path, n: nat, x: Path)
    requires x in PendingAt(op, path + [n])
    ensures Workflows.Under(x, path, 0) && x[|path|] == n
    decreases op, 1
  {
    if x != path + [n] {
      PendingUnder(op.fate.child.ops, path + [n], x);
      Workflows.UnderChild(x, path, n);
    }
  }

  lemma {:induction false} PendingDistinct(ops: seq<Op>, path: Path, x: Path)
    ensures multiset(Pending(ops, path))[x] <= 1
    decreases ops, 0
  {
    if ops != [] {
      var n := |ops| - 1;
      var before, last := Pending(ops[..n], path), PendingAt(ops[n], path + [n]);
      PendingDistinct(ops[..n], path, x);
      PendingDistinctAt(ops[n], path + [n], x);
      if x in before {
        PendingUnder(ops[..n], path, x);
        if x in last { PendingUnderAt(ops[n], path, n, x); }
        assert x !in last;
      }
      assert multiset(before + last) == multiset(before) + multiset(last);
    }
  }

  lemma {:induction false} PendingDistinctAt(op: Op, p: Path, x: Path)
    ensures multiset(PendingAt(op, p))[x] <= 1
    decreases op, 1
  {
    if op.fate.RanNested? {
      PendingDistinct(op.fate.child.ops, p, x);
    }
  }

  // ---------------------------------------------------------------------
  //  Suspension is never empty-handed
  // ---------------------------------------------------------------------

  /** Awaiting the operation gives user code the suspension error. */
  predicate Surfaces(op: Op, p: Path) {
    match op.mode
    case Detached => false
    case Spawned => OutcomeOf(op, p).Blocked?
    case Awaited => op.fate.Waiting? || (op.fate.RanNested? && op.fate.child.suspended && !Lost(op.fate.child))
  }

  /** The suspension error was not made up: a function that came back with it got
      it from one of its operations. */
  predicate Honest(t: Tree, path: Path)
    decreases t
  {
    && (t.suspended ==> exists i | 0 <= i < |t.ops| :: Surfaces(t.ops[i], path + [i]))
    && forall i | 0 <= i < |t.ops| && t.ops[i].fate.RanNested? :: Honest(t.ops[i].fate.child, path + [i])
  }

  lemma {:induction false} OwnHolds(ops: seq<Op>, path: Path, i: nat)
    requires i < |ops| && ops[i].mode.Awaited? && OwnAt(ops[i], path + [i]) != []
    ensures Own(ops, path) != []
    decreases ops
  {
    var n := |ops| - 1;
    if i < n {
      OwnHolds(ops[..n], path, i);
    }
  }

  lemma {:induction false} JoinedHolds(outcomes: seq<Outcome>, o: Outcome)
    requires o in outcomes && o.Blocked? && o.todos != [] && Joined(outcomes).Todos?
    ensures Joined(outcomes).ids != []
  {
    var n := |outcomes| - 1;
    if o != outcomes[n] {
      JoinedHolds(outcomes[..n], o);
    }
  }

  lemma {:induction false} SpawnsHold(ops: seq<Op>, path: Path, i: nat)
    requires i < |ops| && !ops[i].mode.Awaited?
    ensures OutcomeOf(ops[i], path + [i]) in Spawns(ops, path)
    decreases ops
  {
    var n := |ops| - 1;
    if i < n {
      SpawnsHold(ops[..n], path, i);
    }
  }

  lemma {:induction false} SurfacingHolds(op: Op, p: Path)
    requires Surfaces(op, p) && (op.fate.RanNested? ==> Honest(op.fate.child, p))
    ensures op.mode.Awaited? ==> OwnAt(op, p) != []
    ensures !op.mode.Awaited? ==> OutcomeOf(op, p).Blocked? && OutcomeOf(op, p).todos != []
    decreases op, 1
  {
    if op.fate.RanNested? {
      var child := op.fate.child;
      CollectFailsExactly(child, p);
      if child.suspended && Collect(child, p).Todos? {
        SuspendedHasTodos(child, p);
      }
    }
  }

  /** A function that comes back suspended has left something to wait for. */
  lemma {:induction false} SuspendedHasTodos(t: Tree, path: Path)
    requires Honest(t, path) && t.suspended && Collect(t, path).Todos?
    ensures Collect(t, path).ids != []
    decreases t, 0
  {
    var i :| 0 <= i < |t.ops| && Surfaces(t.ops[i], path + [i]);
    SurfacingHolds(t.ops[i], path + [i]);
    if t.ops[i].mode.Awaited? {
      OwnHolds(t.ops, path, i);
    } else {
      SpawnsHold(t.ops, path, i);
      JoinedHolds(Spawns(t.ops, path), OutcomeOf(t.ops[i], path + [i]));
    }
  }

  // ---------------------------------------------------------------------
  //  What the worker does
  // ---------------------------------------------------------------------

  datatype Decision = Release | Fulfil | Suspend(awaited: seq<Path>)

  /** The end of an attempt in `Core`. */
  function Decide(t: Tree): Decision {
    match Collect(t, [])
    case Failure(_) => Release
    case Todos(ids) => if ids == [] then Fulfil else Suspend(ids)
  }

  /** Released exactly when something in the background was lost; otherwise
      fulfilled exactly when nothing kept is pending, and suspended on just what is. */
  lemma DecisionIsExact(t: Tree)
    ensures Decide(t).Release? <==> Lost(t)
    ensures Decide(t).Fulfil? <==> !Lost(t) && Kept(t.ops, []) == []
    ensures Decide(t).Suspend? ==> multiset(Decide(t).awaited) == multiset(Kept(t.ops, [])) && Decide(t).awaited != []
  {
    CollectFailsExactly(t, []);
    if !Lost(t) {
      CollectedAreKept(t.ops, []);
      var ids := Collect(t, []).ids;
      assert |ids| == |multiset(ids)| == |multiset(Kept(t.ops, []))| == |Kept(t.ops, [])|;
    }
  }

  /** Structured concurrency is exact: when nothing failed behind it, the workflow
      is fulfilled if and only if no remote call spawned or awaited anywhere in it
      is pending, and otherwise suspended on exactly those, each once. */
  lemma ConcurrencyIsStructured(t: Tree, x: Path)
    requires AllWell(t)
    ensures Decide(t).Fulfil? <==> Pending(t.ops, []) == []
    ensures Decide(t).Suspend? <==> Pending(t.ops, []) != []
    ensures Decide(t).Suspend? ==> multiset(Decide(t).awaited)[x] == if x in Pending(t.ops, []) then 1 else 0
  {
    NothingLost(t);
    KeptIsPending(t, t.ops, []);
    DecisionIsExact(t);
    PendingDistinct(t.ops, [], x);
  }

  /** The call at `x` is pending below an awaited child whose collection failed. */
  predicate Hidden(ops: seq<Op>, path: Path, x: Path)
    decreases ops
  {
    exists i | 0 <= i < |ops| :: HiddenAt(ops[i], path + [i], x)
  }

  predicate HiddenAt(op: Op, p: Path, x: Path)
    decreases op
  {
    !op.mode.Detached? && op.fate.RanNested? &&
    if op.mode.Awaited? && Lost(op.fate.child) then x in Pending(op.fate.child.ops, p)
    else Hidden(op.fate.child.ops, p, x)
  }

  lemma {:induction false} HiddenIsPendingAt(op: Op, p: Path, x: Path)
    requires HiddenAt(op, p, x)
    ensures x in PendingAt(op, p)
    decreases op, 0
  {
    if !(op.mode.Awaited? && Lost(op.fate.child)) {
      HiddenIsPending(op.fate.child.ops, p, x);
    }
  }

  lemma {:induction false} HiddenIsPending(ops: seq<Op>, path: Path, x: Path)
    requires Hidden(ops, path, x)
    ensures x in Pending(ops, path)
    decreases ops, 1
  {
    var i :| 0 <= i < |ops| && HiddenAt(ops[i], path + [i], x);
    HiddenIsPendingAt(ops[i], path + [i], x);
    PendingHolds(ops, path, i, x);
  }

  lemma {:induction false} PendingHolds(ops: seq<Op>, path: Path, i: nat, x: Path)
    requires i < |ops| && x in PendingAt(ops[i], path + [i])
    ensures x in Pending(ops, path)
    decreases ops
  {
    var n := |ops| - 1;
    if i < n {
      PendingHolds(ops[..n], path, i, x);
    }
  }

  /** Only the operation `x` lies below can hide it. */
  lemma HiddenSnoc(ops: seq<Op>, path: Path, x: Path)
    requires ops != []
    ensures var n := |ops| - 1;
            Hidden(ops, path, x) <==> Hidden(ops[..n], path, x) || HiddenAt(ops[n], path + [n], x)
  {
    var n := |ops| - 1;
    if Hidden(ops[..n], path, x) {
      var i :| 0 <= i < n && HiddenAt(ops[..n][i], path + [i], x);
      assert HiddenAt(ops[i], path + [i], x);
    }
    if Hidden(ops, path, x) && !HiddenAt(ops[n], path + [n], x) {
      var i :| 0 <= i < |ops| && HiddenAt(ops[i], path + [i], x);
      assert HiddenAt(ops[..n][i], path + [i], x);
    }
  }

  lemma {:induction false} KeptIsNotHidden(ops: seq<Op>, path: Path, x: Path)
    ensures x in Kept(ops, path) <==> x in Pending(ops, path) && !Hidden(ops, path, x)
    decreases ops, 1
  {
    if ops != [] {
      var n := |ops| - 1;
      var op, p := ops[n], path + [n];
      KeptIsNotHidden(ops[..n], path, x);
      KeptIsNotHiddenAt(op, p, x);
      HiddenSnoc(ops, path, x);
      if x in Pending(ops[..n], path) { PendingUnder(ops[..n], path, x); }
      if x in PendingAt(op, p) { PendingUnderAt(op, path, n, x); }
      if HiddenAt(op, p, x) { HiddenIsPendingAt(op, p, x); }
      if Hidden(ops[..n], path, x) { HiddenIsPending(ops[..n], path, x); }
    }
  }

  lemma {:induction false} KeptIsNotHiddenAt(op: Op, p: Path, x: Path)
    ensures x in KeptAt(op, p) <==> x in PendingAt(op, p) && !HiddenAt(op, p, x)
    decreases op, 0
  {
    if op.fate.RanNested? {
      KeptIsNotHidden(op.fate.child.ops, p, x);
    }
  }

  /** What awaited children swallow, for every tree that is not released, whatever
      was lost below its awaited children: the workflow is fulfilled exactly when
      every pending call is hidden below one of those, and otherwise suspended on
      just the others. */
  lemma AwaitedChildrenSwallowExactly(t: Tree, x: Path)
    requires !Lost(t)
    ensures Decide(t).Fulfil? <==> forall y | y in Pending(t.ops, []) :: Hidden(t.ops, [], y)
    ensures Decide(t).Suspend? ==>
              (x in Decide(t).awaited <==> x in Pending(t.ops, []) && !Hidden(t.ops, [], x))
  {
    DecisionIsExact(t);
    forall y ensures y in Kept(t.ops, []) <==> y in Pending(t.ops, []) && !Hidden(t.ops, [], y)
    {
      KeptIsNotHidden(t.ops, [], y);
    }
    if Kept(t.ops, []) != [] {
      var y := Kept(t.ops, [])[0];
      assert y in Kept(t.ops, []) && y in Pending(t.ops, []) && !Hidden(t.ops, [], y);
    } else {
      forall y | y in Pending(t.ops, []) ensures Hidden(t.ops, [], y)
      {
        assert y !in Kept(t.ops, []);
      }
    }
    if Decide(t).Suspend? {
      assert x in Decide(t).awaited <==> x in multiset(Decide(t).awaited);
      assert x in Kept(t.ops, []) <==> x in multiset(Kept(t.ops, []));
    }
  }

  /** It does happen: an awaited child's background creation fails, its other
      call is pending, and the parent, whose function carried on, is fulfilled. */
  lemma AwaitedChildSwallows()
    ensures var child := Tree([Op(Spawned, Waiting), Op(Spawned, NotCreated)], false);
            var t := Tree([Op(Awaited, RanNested(child))], false);
            Lost(child) && Pending(t.ops, []) != [] && !Lost(t) && Decide(t) == Fulfil
  {
    var child := Tree([Op(Spawned, Waiting), Op(Spawned, NotCreated)], false);
    var op := Op(Awaited, RanNested(child));
    var t := Tree([op], false);
    assert LostAt(child.ops[1]);
    assert !LostAt(op) && !AnyLost(t.ops);
    assert t.ops[..0] == [] && KeptAt(op, [] + [0]) == [];
    assert Kept(t.ops, []) == [];
    assert child.ops[..1][..0] == [] && Pending(child.ops[..1], [0]) == [[0] + [0]];
    assert [] + [0] == [0] && [0] + [0] in Pending(child.ops, [0]);
    assert Pending(t.ops, []) == Pending(child.ops, [0]);
    DecisionIsExact(t);
  }

  // ---------------------------------------------------------------------
  //  The context
  // ---------------------------------------------------------------------

  class Context {
    const path: Path
    var next: nat
    var remoteTodos: seq<Path>
    var spawnedHandles: seq<Handle>

    constructor (path: Path)
      ensures this.path == path && next == 0 && remoteTodos == [] && spawnedHandles == []
    {
      this.path, next, remoteTodos, spawnedHandles := path, 0, [], [];
    }

    method NextId() returns (p: Path)
      modifies this`next
      ensures p == path + [old(next)] && next == old(next) + 1
    {
      p := path + [next];
      next := next + 1;
    }

    /** Joins every background task, even after one has failed. */
    method FlushLocalWork() returns (c: Collected, joined: nat)
      modifies this`spawnedHandles
      ensures c == Joined(Outcomes(old(spawnedHandles)))
      ensures spawnedHandles == [] && joined == |old(spawnedHandles)|
    {
      var handles := spawnedHandles;
      spawnedHandles := [];
      joined := 0;
      var todos: seq<Path> := [];
      var firstErr: Option<Path> := None;
      while joined < |handles|
        invariant joined <= |handles| && spawnedHandles == []
        invariant if firstErr.Some? then Joined(Outcomes(handles[..joined])) == Failure(firstErr.value)
                  else Joined(Outcomes(handles[..joined])) == Todos(todos)
      {
        ghost var upTo := Outcomes(handles[..joined + 1]);
        assert upTo[..joined] == Outcomes(handles[..joined]) && upTo[joined] == handles[joined].outcome;
        match handles[joined].outcome {
          case Completed =>
          case Broke(e) => if firstErr.None? { firstErr := Some(e); }
          case Blocked(more) => todos := todos + more;
        }
        joined := joined + 1;
      }
      assert handles[..joined] == handles;
      c := match firstErr case Some(e) => Failure(e) case None => Todos(todos);
    }

    method CollectRemoteTodos() returns (c: Collected)
      modifies this`remoteTodos, this`spawnedHandles
      ensures remoteTodos == [] && spawnedHandles == []
      ensures var joined := Joined(Outcomes(old(spawnedHandles)));
              c == if joined.Failure? then joined else Todos(old(remoteTodos) + joined.ids)
    {
      var spawned, _ := FlushLocalWork();
      var todos := remoteTodos;
      remoteTodos := [];
      c := if spawned.Failure? then spawned else Todos(todos + spawned.ids);
    }
  }

  function Outcomes(handles: seq<Handle>): (o: seq<Outcome>)
    ensures |o| == |handles| && forall i | 0 <= i < |o| :: o[i] == handles[i].outcome
  {
    seq(|handles|, i requires 0 <= i < |handles| => handles[i].outcome)
  }

  /** The background task of a spawned or detached operation; `child` is what
      collecting its workflow came to, if it ran one. */
  method Background(op: Op, p: Path, child: Collected) returns (o: Outcome)
    requires !op.mode.Awaited? && (op.fate.RanNested? ==> child == Collect(op.fate.child, p))
    ensures o == OutcomeOf(op, p)
  {
    if op.fate.NotCreated? { return Broke(p); }
    if op.mode.Detached? { return Completed; }
    match op.fate {
      case Undecodable => return Broke(p);
      case Waiting => return Blocked([p]);
      case RanNested(workflow) =>
        match child {
          case Failure(first) => return Broke(first);
          case Todos(ids) => return if workflow.suspended || ids != [] then Blocked(ids) else Completed;
        }
      case _ => return Completed;
    }
  }

  /** One execution of a workflow: its operations in order on a context of its
      own, nested workflows on theirs, and the collection at the end. */
  method Execute(t: Tree, path: Path) returns (c: Collected)
    ensures c == Collect(t, path)
    decreases t
  {
    var ctx := new Context(path);
    var i := 0;
    while i < |t.ops|
      invariant i <= |t.ops| && fresh(ctx) && ctx.path == path && ctx.next == i
      invariant ctx.remoteTodos == Own(t.ops[..i], path)
      invariant Outcomes(ctx.spawnedHandles) == Spawns(t.ops[..i], path)
    {
      assert t.ops[..i + 1][..i] == t.ops[..i];
      var op := t.ops[i];
      var p := ctx.NextId();
      var child := Todos([]);
      if op.fate.RanNested? {
        child := Execute(op.fate.child, p);
      }
      if op.mode.Awaited? {
        if op.fate.Waiting? {
          ctx.remoteTodos := ctx.remoteTodos + [p];
        } else if op.fate.RanNested? && child.Todos? {
          ctx.remoteTodos := ctx.remoteTodos + child.ids;
        }
      } else {
        var outcome := Background(op, p, child);
        ctx.spawnedHandles := ctx.spawnedHandles + [Handle(p, outcome)];
        assert Outcomes(ctx.spawnedHandles) == Spawns(t.ops[..i], path) + [OutcomeOf(op, p)];
      }
      i := i + 1;
    }
    assert t.ops[..i] == t.ops;
    c := ctx.CollectRemoteTodos();
  }
}

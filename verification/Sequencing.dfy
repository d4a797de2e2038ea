/**
 Creation sequencing: durable promises are created in the order the workflow
 asked for them, although each creation runs on a task of its own.

 A slot's task does one thing at a time and any task may run next, be dropped,
 or see its request fail, so the system is a set of steps taken in any order.
 */
module Sequencing {
  import opened Protocol

  /** Where a slot is.  Waiting and creating are both `InFlight` to observers;
      `Dropped` is a channel closed while still in flight. */
  datatype Phase = Waiting | Creating | Created | Failed | Dropped

  datatype Slot = Slot(prev: Option<nat>, phase: Phase)
  {
    predicate InFlight() { phase.Waiting? || phase.Creating? }
  }

  /** All slots of a context in claim order, the tail the next claim captures,
      and the creation requests sent so far. */
  datatype Sequence = Sequence(slots: seq<Slot>, tail: Option<nat>, sent: seq<nat>)

  const EMPTY := Sequence([], None, [])

  datatype Step =
    | Claim
    | Proceed(k: nat)
    | Abort(k: nat)
    | Finish(k: nat, ok: bool)
    | Drop(k: nat)

  predicate PrevCreated(s: Sequence, k: nat)
    requires k < |s.slots|
  {
    match s.slots[k].prev
    case None => true
    case Some(p) => p < |s.slots| && s.slots[p].phase.Created?
  }

  predicate PrevLost(s: Sequence, k: nat)
    requires k < |s.slots|
  {
    match s.slots[k].prev
    case None => false
    case Some(p) => p < |s.slots| && (s.slots[p].phase.Failed? || s.slots[p].phase.Dropped?)
  }

  predicate Enabled(s: Sequence, step: Step) {
    match step
    case Claim => true
    case Proceed(k) => k < |s.slots| && s.slots[k].phase.Waiting? && PrevCreated(s, k)
    case Abort(k) => k < |s.slots| && s.slots[k].phase.Waiting? && PrevLost(s, k)
    case Finish(k, _) => k < |s.slots| && s.slots[k].phase.Creating?
    case Drop(k) => k < |s.slots| && s.slots[k].InFlight()
  }

  function To(s: Sequence, k: nat, phase: Phase): Sequence
    requires k < |s.slots|
  {
    s.(slots := s.slots[k := s.slots[k].(phase := phase)])
  }

  function Take(s: Sequence, step: Step): Sequence
    requires Enabled(s, step)
  {
    match step
    case Claim => s.(slots := s.slots + [Slot(s.tail, Waiting)], tail := Some(|s.slots|))
    case Proceed(k) => To(s, k, Creating).(sent := s.sent + [k])
    case Abort(k) => To(s, k, Phase.Failed)
    case Finish(k, ok) => To(s, k, if ok then Created else Phase.Failed)
    case Drop(k) => To(s, k, Dropped)
  }

  predicate Possible(s: Sequence, steps: seq<Step>)
    decreases |steps|
  {
    steps == [] || (Enabled(s, steps[0]) && Possible(Take(s, steps[0]), steps[1..]))
  }

  function After(s: Sequence, steps: seq<Step>): Sequence
    requires Possible(s, steps)
    decreases |steps|
  {
    if steps == [] then s else After(Take(s, steps[0]), steps[1..])
  }

  // ---------------------------------------------------------------------
  //  The invariant
  // ---------------------------------------------------------------------

  ghost predicate Linked(s: Sequence) {
    && s.tail == (if s.slots == [] then None else Some(|s.slots| - 1))
    && forall k | 0 <= k < |s.slots| :: s.slots[k].prev == if k == 0 then None else Some(k - 1)
  }

  /** Requests were sent for the first slots, in claim order. */
  ghost predicate SentInOrder(s: Sequence) {
    |s.sent| <= |s.slots| && forall i | 0 <= i < |s.sent| :: s.sent[i] == i
  }

  /** Everything before the last request sent has been created; nothing after it
      has got further than waiting. */
  ghost predicate Gated(s: Sequence)
    requires SentInOrder(s)
  {
    && (forall i | 0 <= i < |s.sent| - 1 :: s.slots[i].phase.Created?)
    && (|s.sent| > 0 ==> !s.slots[|s.sent| - 1].phase.Waiting?)
    && (forall i | |s.sent| <= i < |s.slots| :: !s.slots[i].phase.Created? && !s.slots[i].phase.Creating?)
  }

  ghost predicate Valid(s: Sequence) {
    Linked(s) && SentInOrder(s) && Gated(s)
  }

  lemma StepKeepsValid(s: Sequence, step: Step)
    requires Valid(s) && Enabled(s, step)
    ensures Valid(Take(s, step))
  {
    if step.Proceed? {
      var k := step.k;
      assert k >= |s.sent|;
      if k > 0 {
        assert s.slots[k - 1].phase.Created?;
      }
      assert k == |s.sent|;
    }
  }

  /** A slot that is no longer in flight stays as it is. */
  ghost predicate Settles(s: Sequence, s': Sequence) {
    && |s.slots| <= |s'.slots|
    && s.sent <= s'.sent
    && forall k | 0 <= k < |s.slots| && !s.slots[k].InFlight() :: s'.slots[k] == s.slots[k]
  }

  lemma {:induction false} RunKeepsValid(s: Sequence, steps: seq<Step>)
    requires Valid(s) && Possible(s, steps)
    ensures Valid(After(s, steps)) && Settles(s, After(s, steps))
    decreases |steps|
  {
    if steps != [] {
      StepKeepsValid(s, steps[0]);
      RunKeepsValid(Take(s, steps[0]), steps[1..]);
    }
  }

  // ---------------------------------------------------------------------
  //  Success-gated creation
  // ---------------------------------------------------------------------

  predicate Lost(s: Sequence, k: nat) {
    k < |s.slots| && (s.slots[k].phase.Failed? || s.slots[k].phase.Dropped?)
  }

  /** In every interleaving, creations are sent in claim order on a prefix of the
      claimed slots, each only after its predecessor succeeded. */
  lemma CreationsFollowClaims(steps: seq<Step>, i: nat)
    requires Possible(EMPTY, steps) && i < |After(EMPTY, steps).sent|
    ensures var s := After(EMPTY, steps);
            s.sent[i] == i < |s.slots| && forall j | 0 <= j < i :: s.slots[j].phase.Created?
  {
    RunKeepsValid(EMPTY, steps);
  }

  /** Once a slot has failed or been dropped, no later slot ever sends a request,
      whatever happens next. */
  lemma NothingAfterALoss(steps: seq<Step>, more: seq<Step>, j: nat, k: nat)
    requires Possible(EMPTY, steps) && Possible(After(EMPTY, steps), more)
    requires Lost(After(EMPTY, steps), j) && j < k
    ensures k !in After(After(EMPTY, steps), more).sent
    ensures Lost(After(After(EMPTY, steps), more), j)
  {
    RunKeepsValid(EMPTY, steps);
    RunKeepsValid(After(EMPTY, steps), more);
  }

  // ---------------------------------------------------------------------
  //  What becomes of a slot is what happened to it
  // ---------------------------------------------------------------------

  /** In the phase the step leaves it in, if the step is the slot's own. */
  predicate Shows(phase: Phase, step: Step, k: nat) {
    match step
    case Claim => true
    case Proceed(i) => i == k ==> phase.Creating?
    case Abort(i) => i == k ==> phase.Failed?
    case Finish(i, ok) => i == k ==> if ok then phase.Created? else phase.Failed?
    case Drop(i) => i == k ==> phase.Dropped?
  }

  predicate Concerns(step: Step, k: nat) {
    !step.Claim? && step.k == k
  }

  /** A slot that was there is changed by its own steps only, and shows the last of them. */
  lemma StepShows(s: Sequence, step: Step, k: nat)
    requires Enabled(s, step) && k < |s.slots|
    ensures k < |Take(s, step).slots| && Shows(Take(s, step).slots[k].phase, step, k)
    ensures !Concerns(step, k) ==> Take(s, step).slots[k] == s.slots[k]
  {
  }

  /** The phase is the one these steps lead the slot to. */
  predicate Told(phase: Phase, steps: seq<Step>, k: nat) {
    && (phase.Created? <==> Finish(k, true) in steps)
    && (phase.Failed? <==> Finish(k, false) in steps || Abort(k) in steps)
    && (phase.Dropped? <==> Drop(k) in steps)
    && (phase.Waiting? || phase.Creating? ==> (phase.Creating? <==> Proceed(k) in steps))
  }

  lemma OneMoreTold(s: Sequence, before: seq<Step>, last: Step, k: nat)
    requires Enabled(s, last) && k < |s.slots| && Told(s.slots[k].phase, before, k)
    ensures k < |Take(s, last).slots| && Told(Take(s, last).slots[k].phase, before + [last], k)
  {
    StepShows(s, last, k);
    assert forall step :: step in before + [last] <==> step in before || step == last;
  }

  /** A slot is created exactly when the server said yes to its request, failed exactly
      when the server said no or the slot gave up, dropped exactly when its task was. */
  lemma {:induction false} PhasesTellExactly(steps: seq<Step>, k: nat)
    requires Possible(EMPTY, steps) && k < |After(EMPTY, steps).slots|
    ensures Told(After(EMPTY, steps).slots[k].phase, steps, k)
    decreases |steps|
  {
    var before, last := steps[..|steps| - 1], steps[|steps| - 1];
    LastStep(EMPTY, steps);
    assert steps == before + [last];
    if k < |After(EMPTY, before).slots| {
      PhasesTellExactly(before, k);
      OneMoreTold(After(EMPTY, before), before, last, k);
    } else {
      NotYetThere(before, k);
    }
  }

  lemma {:induction false} LastStep(s: Sequence, steps: seq<Step>)
    requires Possible(s, steps) && steps != []
    ensures var before, last := steps[..|steps| - 1], steps[|steps| - 1];
            Possible(s, before) && Enabled(After(s, before), last) && After(s, steps) == Take(After(s, before), last)
    decreases |steps|
  {
    if |steps| > 1 {
      LastStep(Take(s, steps[0]), steps[1..]);
      assert steps[1..][..|steps| - 2] == steps[..|steps| - 1][1..];
    }
  }

  /** Nothing happens to a slot before it is claimed. */
  lemma {:induction false} NotYetThere(steps: seq<Step>, k: nat)
    requires Possible(EMPTY, steps) && k >= |After(EMPTY, steps).slots|
    ensures forall step | step in steps :: !Concerns(step, k)
    decreases |steps|
  {
    if steps != [] {
      var before, last := steps[..|steps| - 1], steps[|steps| - 1];
      LastStep(EMPTY, steps);
      NotYetThere(before, k);
      assert steps == before + [last];
    }
  }

  // ---------------------------------------------------------------------
  //  Nothing waits forever
  // ---------------------------------------------------------------------

  /** The lowest slot in flight can always move, by itself. */
  lemma LowestCanMove(s: Sequence, k: nat)
    requires Valid(s) && k < |s.slots| && s.slots[k].InFlight()
    requires forall j | 0 <= j < k :: !s.slots[j].InFlight()
    ensures s.slots[k].phase.Waiting? ==> Enabled(s, Proceed(k)) != Enabled(s, Abort(k))
    ensures s.slots[k].phase.Creating? ==> Enabled(s, Finish(k, true)) && Enabled(s, Finish(k, false))
  {
    if k > 0 {
      assert !s.slots[k - 1].InFlight();
    }
  }

  /** A slot with one in flight before it can send nothing and has nothing to be
      answered.  It can be dropped, and it can abort exactly when the slot just
      before it is lost. */
  lemma OthersCannotSend(s: Sequence, j: nat, k: nat, ok: bool)
    requires Valid(s) && j < k < |s.slots| && s.slots[j].InFlight()
    ensures !Enabled(s, Proceed(k)) && !Enabled(s, Finish(k, ok))
    ensures Enabled(s, Drop(k)) <==> s.slots[k].phase.Waiting?
    ensures Enabled(s, Abort(k)) <==> s.slots[k].phase.Waiting? && Lost(s, k - 1)
  {
    assert |s.sent| <= j + 1;
  }

  function Work(p: Phase): nat {
    match p
    case Waiting => 2
    case Creating => 1
    case _ => 0
  }

  function WorkLeft(slots: seq<Slot>): nat {
    if slots == [] then 0 else WorkLeft(slots[..|slots| - 1]) + Work(slots[|slots| - 1].phase)
  }

  lemma {:induction false} WorkAfter(slots: seq<Slot>, k: nat, slot: Slot)
    requires k < |slots|
    ensures WorkLeft(slots[k := slot]) == WorkLeft(slots) - Work(slots[k].phase) + Work(slot.phase)
  {
    var last := |slots| - 1;
    if k < last {
      assert slots[k := slot][..last] == slots[..last][k := slot];
      WorkAfter(slots[..last], k, slot);
    } else {
      assert slots[k := slot][..last] == slots[..last];
    }
  }

  function Claims(steps: seq<Step>): nat {
    if steps == [] then 0 else (if steps[0].Claim? then 1 else 0) + Claims(steps[1..])
  }

  lemma StepWorks(s: Sequence, step: Step)
    requires Enabled(s, step)
    ensures if step.Claim? then WorkLeft(Take(s, step).slots) == WorkLeft(s.slots) + 2
            else WorkLeft(Take(s, step).slots) < WorkLeft(s.slots)
  {
    if step.Claim? {
      var slots := Take(s, step).slots;
      assert slots[..|slots| - 1] == s.slots;
    } else {
      WorkAfter(s.slots, step.k, Take(s, step).slots[step.k]);
    }
  }

  /** A context that makes so many claims takes at most two further steps for
      each of them. */
  lemma {:induction false} RunsAreBounded(s: Sequence, steps: seq<Step>)
    requires Possible(s, steps)
    ensures |steps| + WorkLeft(After(s, steps).slots) <= WorkLeft(s.slots) + 3 * Claims(steps)
    decreases |steps|
  {
    if steps != [] {
      StepWorks(s, steps[0]);
      RunsAreBounded(Take(s, steps[0]), steps[1..]);
    }
  }

  /** Where a run stops: no slot is waiting any more; those before the first
      loss are created and those after it are all lost too. */
  lemma StoppedMeansSettled(s: Sequence, k: nat)
    requires Valid(s) && k < |s.slots|
    requires forall step :: Enabled(s, step) ==> step.Claim?
    ensures s.slots[k].phase.Created? || Lost(s, k)
    ensures Lost(s, k) ==> forall j | k <= j < |s.slots| :: Lost(s, j)
  {
    forall j | 0 <= j < |s.slots| ensures !s.slots[j].InFlight()
    {
      assert !Enabled(s, Drop(j));
    }
    if Lost(s, k) {
      forall j | k <= j < |s.slots| ensures Lost(s, j)
      {
        assert j > k ==> j >= |s.sent|;
      }
    }
  }

  // ---------------------------------------------------------------------
  //  `id()`
  // ---------------------------------------------------------------------

  datatype IdAnswer = Blocked | IdIs(k: nat) | IdError

  /** What a handle's `id()` answers at this moment. */
  function AwaitCreatedId(s: Sequence, k: nat): IdAnswer
    requires k < |s.slots|
  {
    match s.slots[k].phase
    case Created => IdIs(k)
    case Failed => IdError
    case Dropped => IdError
    case _ => Blocked
  }

  /** The id once the server has said yes to the slot's request, an error once it has said
      no or the slot is lost, and nothing before that. */
  lemma IdAnswersExactly(steps: seq<Step>, k: nat)
    requires Possible(EMPTY, steps) && k < |After(EMPTY, steps).slots|
    ensures AwaitCreatedId(After(EMPTY, steps), k)
         == if Finish(k, true) in steps then IdIs(k)
            else if Finish(k, false) in steps || Abort(k) in steps || Drop(k) in steps then IdError
            else Blocked
  {
    PhasesTellExactly(steps, k);
  }

  /** An id is only ever handed out for a promise whose creation succeeded, and
      for every promise claimed before it; an answer once given never changes. */
  lemma IdMeansCreated(steps: seq<Step>, more: seq<Step>, k: nat)
    requires Possible(EMPTY, steps) && Possible(After(EMPTY, steps), more) && k < |After(EMPTY, steps).slots|
    requires !AwaitCreatedId(After(EMPTY, steps), k).Blocked?
    ensures k < |After(After(EMPTY, steps), more).slots|
    ensures AwaitCreatedId(After(After(EMPTY, steps), more), k) == AwaitCreatedId(After(EMPTY, steps), k)
    ensures AwaitCreatedId(After(EMPTY, steps), k).IdIs? ==>
              forall j | 0 <= j <= k :: j in After(EMPTY, steps).sent && After(EMPTY, steps).slots[j].phase.Created?
  {
    RunKeepsValid(EMPTY, steps);
    RunKeepsValid(After(EMPTY, steps), more);
    var s := After(EMPTY, steps);
    if s.slots[k].phase.Created? {
      assert k < |s.sent|;
      forall j | 0 <= j <= k ensures j in s.sent && s.slots[j].phase.Created?
      {
        assert s.sent[j] == j;
      }
    }
  }

  // ---------------------------------------------------------------------
  //  The sequencer itself
  // ---------------------------------------------------------------------

  /** A context's sequencer and the channels of the slots it handed out. */
  class CreationSequencer {
    var tail: Option<nat>
    var slots: seq<Slot>
    var sent: seq<nat>

    ghost function View(): Sequence
      reads this
    {
      Sequence(slots, tail, sent)
    }

    constructor ()
      ensures View() == EMPTY
    {
      tail, slots, sent := None, [], [];
    }

    /** `claim_slot`. */
    method ClaimSlot() returns (k: nat)
      modifies this
      ensures k == |old(slots)| && View() == Take(old(View()), Claim)
    {
      k := |slots|;
      slots := slots + [Slot(tail, Waiting)];
      tail := Some(k);
    }

    /** `CreationSlot::create`, up to the request: look at the predecessor once it
        is no longer in flight, and go on or give up. */
    method Gate(k: nat) returns (ok: bool)
      requires k < |slots| && slots[k].phase.Waiting?
      requires slots[k].prev.Some? ==> slots[k].prev.value < |slots| && !slots[slots[k].prev.value].InFlight()
      modifies this
      ensures Enabled(old(View()), if ok then Proceed(k) else Abort(k))
      ensures View() == Take(old(View()), if ok then Proceed(k) else Abort(k))
    {
      ok := true;
      if slots[k].prev.Some? {
        ok := slots[slots[k].prev.value].phase.Created?;
      }
      if ok {
        slots := slots[k := slots[k].(phase := Creating)];
        sent := sent + [k];
      } else {
        slots := slots[k := slots[k].(phase := Phase.Failed)];
      }
    }

    /** `CreationSlot::create`, when the server has answered. */
    method Answered(k: nat, ok: bool)
      requires Enabled(View(), Finish(k, ok))
      modifies this
      ensures View() == Take(old(View()), Finish(k, ok))
    {
      slots := slots[k := slots[k].(phase := if ok then Created else Phase.Failed)];
    }

    /** The task that owns the slot is dropped. */
    method TaskDropped(k: nat)
      requires Enabled(View(), Drop(k))
      modifies this
      ensures View() == Take(old(View()), Drop(k))
    {
      slots := slots[k := slots[k].(phase := Dropped)];
    }
  }
}

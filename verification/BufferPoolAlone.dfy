/** A thread that runs alone finishes its AllocBuffer or ReleaseBuffer, from any state. */
module BufferPoolAlone {
  import opened NodeList
  import opened BufferPool
  import opened BufferPoolSound

  function Alone(s: State, t: nat, steps: nat): (r: State)
    requires Bounded(s) && t < |s.pc|
    ensures Bounded(r) && |r.pc| == |s.pc| && |r.next| == |s.next|
    decreases steps
  {
    if steps == 0 then s else Alone(Step(s, t, Go), t, steps - 1)
  }

  // The steps that are left; what was saved of head_ may be stale.
  function StepsLeft(s: State, t: nat): nat
    requires t < |s.pc|
  {
    match s.pc[t]
    case Idle(_) => 0
    case AllocRead => 4
    case AllocNext(h) => if s.head == h then 3 else 6
    case AllocCas(h, _) => if s.head == h then 2 else 5
    case AllocClear(_) => 1
    case RelId(_) => 4
    case RelRead(_, _) => 3
    case RelStore(_, _, h) => if s.head == h then 2 else 5
    case RelCas(_, _, h) => if s.head == h then 1 else 4
  }

  lemma OneLess(s: State, t: nat)
    requires Bounded(s) && t < |s.pc| && !s.pc[t].Idle?
    ensures StepsLeft(Step(s, t, Go), t) < StepsLeft(s, t)
  {
    hide PcOk;
  }

  /** Whatever the other threads have done, at most six steps alone finish an operation. */
  lemma {:induction false} FinishesAlone(s: State, t: nat) returns (steps: nat)
    requires Bounded(s) && t < |s.pc|
    ensures steps <= StepsLeft(s, t) <= 6 && Alone(s, t, steps).pc[t].Idle?
    decreases StepsLeft(s, t)
  {
    hide Bounded, Step;
    if s.pc[t].Idle? {
      steps := 0;
    } else {
      OneLess(s, t);
      var more := FinishesAlone(Step(s, t, Go), t);
      steps := more + 1;
    }
  }

  // ----- What it finishes with -----

  predicate Allocating(c: Pc) { c.AllocRead? || c.AllocNext? || c.AllocCas? }

  predicate Releasing(c: Pc) { c.RelId? || c.RelRead? || c.RelStore? || c.RelCas? }

  // One step of an allocation: it ends empty-handed, takes the top of the list, or goes on.
  lemma AllocOnce(s: State, t: nat)
    requires Inv(s) && t < |s.pc| && Allocating(s.pc[t]) && !StaleAlloc(s, t)
    ensures var r := Step(s, t, Go);
      if r.pc[t].Idle? then r.pc[t] == Idle(Exhausted) && s.free == r.free == []
      else if r.pc[t].AllocClear? then s.free == r.free + [r.pc[t].node]
      else Allocating(r.pc[t]) && r.free == s.free && !StaleAlloc(r, t)
  {
    hide Holders, Stored;
    assert s.free != [] ==> s.free == DropLast(s.free) + [s.free[|s.free| - 1]];
  }

  // From any point before it has taken a buffer, whatever it has read before.
  lemma {:induction false} TakesTop(s: State, t: nat) returns (steps: nat)
    requires Inv(s) && t < |s.pc| && Allocating(s.pc[t]) && !StaleAlloc(s, t)
    ensures steps <= StepsLeft(s, t)
    ensures var r := Alone(s, t, steps);
      Inv(r) && if s.free == [] then r.pc[t] == Idle(Exhausted) && r.free == []
                else r.pc[t] == Idle(Got(s.free[|s.free| - 1])) && r.free == s.free[..|s.free| - 1]
    decreases StepsLeft(s, t)
  {
    hide Bounded, FreeList, Holders, Stored, Step, StaleAlloc;
    assert Bounded(s) by { InvBounded(s); }
    var r := Step(s, t, Go);
    OneLess(s, t);
    AllocOnce(s, t);
    StepInv(s, t, Go);
    if Allocating(r.pc[t]) {
      var more := TakesTop(r, t);
      steps := more + 1;
    } else if r.pc[t].AllocClear? {
      GivesOut(r, t);
      steps := 2;
      assert Alone(s, t, 2) == Alone(r, t, 1) == Alone(Step(r, t, Go), t, 0);
    } else {
      steps := 1;
      assert Alone(s, t, 1) == Alone(r, t, 0);
    }
  }

  lemma InvBounded(s: State)
    requires Inv(s)
    ensures Bounded(s)
  {
  }

  lemma GivesOut(s: State, t: nat)
    requires Inv(s) && t < |s.pc| && s.pc[t].AllocClear?
    ensures var r := Step(s, t, Go);
      Inv(r) && r.pc[t] == Idle(Got(s.pc[t].node)) && r.free == s.free && 1 <= StepsLeft(s, t)
  {
    StepInv(s, t, Go);
  }

  lemma ReleaseOnce(s: State, t: nat)
    requires Inv(s) && t < |s.pc| && Releasing(s.pc[t])
    ensures var r := Step(s, t, Go);
      && Inv(r)
      && if r.pc[t].Idle? then r.pc[t] == Idle(Released) && r.free == s.free + [s.pc[t].node]
         else Releasing(r.pc[t]) && r.pc[t].node == s.pc[t].node && r.free == s.free
  {
    hide FreeList, Holders, Stored, PcOk;
    StepInv(s, t, Go);
  }

  lemma {:induction false} PutsOnTop(s: State, t: nat) returns (steps: nat)
    requires Inv(s) && t < |s.pc| && Releasing(s.pc[t])
    ensures steps <= StepsLeft(s, t)
    ensures var r := Alone(s, t, steps); Inv(r) && r.pc[t] == Idle(Released) && r.free == s.free + [s.pc[t].node]
    decreases StepsLeft(s, t)
  {
    hide Bounded, Inv, Step;
    assert Bounded(s) by { InvBounded(s); }
    var r := Step(s, t, Go);
    OneLess(s, t);
    ReleaseOnce(s, t);
    if Releasing(r.pc[t]) {
      var more := PutsOnTop(r, t);
      steps := more + 1;
    } else {
      steps := 1;
      assert Alone(s, t, 1) == Alone(r, t, 0);
    }
  }

  /** Whatever the other threads have done and wherever it stands: alone, AllocBuffer gives the
      first buffer of the list it finds and leaves the others, and null exactly if there is none. */
  lemma {:induction false} AllocatesAlone(s: State, t: nat) returns (steps: nat)
    requires Inv(s) && t < |s.pc| && Allocating(s.pc[t]) && !StaleAlloc(s, t)
    ensures steps <= 6
    ensures var r := Alone(s, t, steps); var free := FreeNodes(s);
      if free == [] then r.pc[t] == Idle(Exhausted) && FreeNodes(r) == []
      else r.pc[t] == Idle(Got(free[0])) && FreeNodes(r) == free[1..]
  {
    hide FreeList, Holders, Stored, Step, Walk;
    steps := TakesTop(s, t);
    FreeIsFree(s);
    FreeIsFree(Alone(s, t, steps));
  }

  /** ... and ReleaseBuffer puts its buffer in front of the list it finds. */
  lemma {:induction false} ReleasesAlone(s: State, t: nat) returns (steps: nat)
    requires Inv(s) && t < |s.pc| && Releasing(s.pc[t])
    ensures steps <= 6
    ensures var r := Alone(s, t, steps); r.pc[t] == Idle(Released) && FreeNodes(r) == [s.pc[t].node] + FreeNodes(s)
  {
    hide FreeList, Holders, Stored, Step, Walk;
    steps := PutsOnTop(s, t);
    FreeIsFree(s);
    FreeIsFree(Alone(s, t, steps));
  }
}

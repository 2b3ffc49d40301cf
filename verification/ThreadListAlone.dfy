/** A thread that runs alone finishes its allocation or release. */
module ThreadListAlone {
  import opened NodeList
  import opened ThreadList
  import opened ThreadListProofs

  function Alone(s: State, t: nat, steps: nat): (r: State)
    requires Bounded(s) && t < |s.pc|
    ensures Bounded(r) && |r.pc| == |s.pc| && |r.next| == |s.next| && r.owner == s.owner
    decreases steps
  {
    if steps == 0 then s else Alone(Step(s, t, Go), t, steps - 1)
  }

  // The steps that are left; what was saved of head->next may be stale.
  function StepsLeft(s: State, t: nat): nat
    requires t < |s.pc|
  {
    match s.pc[t]
    case AllocCheck => 6
    case AllocCount => 5
    case AllocRead => 4
    case AllocNext(n) => if s.head == To(n) then 3 else 6
    case AllocCas(n, _) => if s.head == To(n) then 2 else 5
    case AllocClear(_) => 1
    case RelAssert(_) => 5
    case RelCount(_) => 4
    case RelRead(_, _) => 3
    case RelStore(_, _, h) => if s.head == h then 2 else 5
    case RelCas(_, _, h) => if s.head == h then 1 else 4
    case _ => 0
  }

  lemma OneLess(s: State, t: nat)
    requires Bounded(s) && t < |s.pc| && !s.pc[t].Idle? && !s.pc[t].AssertFailed? && !s.pc[t].Cleaning?
    ensures StepsLeft(Step(s, t, Go), t) < StepsLeft(s, t)
  {
    hide PcOk;
  }

  lemma {:induction false} InvFinishes(s: State, t: nat) returns (steps: nat)
    requires Inv(s) && t < |s.pc|
    ensures steps <= StepsLeft(s, t) <= 6 && Alone(s, t, steps).pc[t].Idle?
    decreases StepsLeft(s, t)
  {
    hide Bounded, Step, FreeList, Holders, Links, OwnerSees;
    if s.pc[t].Idle? {
      steps := 0;
    } else {
      OneLess(s, t);
      StepInv(s, t, Go);
      var more := InvFinishes(Step(s, t, Go), t);
      steps := more + 1;
    }
  }

  /** In every state of every run, at most six steps alone finish the operation of any thread. */
  lemma {:induction false} FinishesAlone(population: nat, owner: nat, threads: nat, sched: Schedule, t: nat)
    requires owner < threads && Fits(sched, threads) && t < threads
    ensures var s := Run(Init(population, owner, threads), sched);
      |s.pc| == threads && exists steps: nat :: steps <= 6 && Alone(s, t, steps).pc[t].Idle?
  {
    hide Bounded, Inv, Step;
    InitInv(population, owner, threads);
    RunInv(Init(population, owner, threads), sched);
    var steps := InvFinishes(Run(Init(population, owner, threads), sched), t);
  }
}

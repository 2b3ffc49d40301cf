/** A thread that runs alone finishes its Push or Pop, or waits for an earlier push to publish. */
module RingQueueAlone {
  import opened RingQueue
  import opened RingQueueSound
  import opened RingQueueTheorems

  function Alone(s: State, t: nat, steps: nat): (r: State)
    requires Bounded(s) && t < |s.pc|
    ensures Bounded(r) && |r.pc| == |s.pc| && |r.arr| == |s.arr|
    decreases steps
  {
    if steps == 0 then s else Alone(Step(s, t, Go), t, steps - 1)
  }

  // Its slot is reserved and filled, but an earlier slot is not published yet.
  predicate Waits(s: State, t: nat)
    requires t < |s.pc|
  {
    s.pc[t].PushPublish? && s.maxRead != s.pc[t].w
  }

  // The steps that are left; what was read of a cursor may be stale.
  function StepsLeft(s: State, t: nat): nat
    requires t < |s.pc|
  {
    match s.pc[t]
    case Idle(_) => 0
    case PushRead(_) => 5
    case PushCheck(_, w, _) => if s.write == w then 4 else 7
    case PushCas(_, w, _) => if s.write == w then 3 else 6
    case PushStore(_, _, _) => 2
    case PushPublish(_, _, _) => 1
    case PopRead => 4
    case PopCheck(r, _) => if s.read == r then 3 else 7
    case PopTake(r, _) => if s.read == r then 2 else 6
    case PopCas(r, _, _) => if s.read == r then 1 else 5
  }

  lemma OneLess(s: State, t: nat)
    requires Bounded(s) && t < |s.pc| && !s.pc[t].Idle? && !Waits(s, t)
    ensures StepsLeft(Step(s, t, Go), t) < StepsLeft(s, t)
  {
    hide Next;
  }

  /** Whatever the other threads have done, at most seven steps alone finish an operation, or bring
      a push to the point where it waits for an earlier one. */
  lemma {:induction false} FinishesAlone(s: State, t: nat) returns (steps: nat)
    requires Bounded(s) && t < |s.pc|
    ensures steps <= StepsLeft(s, t) <= 7
    ensures var r := Alone(s, t, steps); r.pc[t].Idle? || Waits(r, t)
    decreases StepsLeft(s, t)
  {
    hide Bounded, Step;
    if s.pc[t].Idle? || Waits(s, t) {
      steps := 0;
    } else {
      OneLess(s, t);
      var more := FinishesAlone(Step(s, t, Go), t);
      steps := more + 1;
    }
  }

  /** On every clean run a push waits only while another producer in flight owns an earlier slot,
      which that producer can publish without waiting. */
  lemma {:induction false} WaitsForAnother(arr: seq<int>, threads: nat, sched: Schedule, t: nat)
    requires 1 <= |arr| && Fits(sched, threads) && t < threads && CleanRun(Init(arr, threads), sched)
    ensures var s := Run(Init(arr, threads), sched);
      && t < |s.pc|
      && (Waits(s, t) ==>
            && s.published < s.pc[t].at && |s.owner| == |s.pushed| && s.published < |s.pushed|
            && s.owner[s.published] != t && NextPublisher(s, s.owner[s.published]))
  {
    hide Bounded, Step, BadStep, Publish, NextPublisher, Values, Knows, Run;
    InitInv(arr, threads);
    CleanInv(Init(arr, threads), sched, |sched|);
    assert sched[..|sched|] == sched;
    var s := Run(Init(arr, threads), sched);
    assert |s.pc| == threads by { assert |Init(arr, threads).pc| == threads; }
    if Waits(s, t) {
      PublishesNext(s, t);
      OwnerPublishes(s);
      EarlierOwner(s, t);
    }
  }

  lemma EarlierOwner(s: State, t: nat)
    requires Bounded(s) && Cursors(s) && Producers(s) && t < |s.pc| && s.pc[t].PushPublish? && s.published < s.pc[t].at < |s.pushed|
    ensures s.owner[s.published] != t
  {
  }
}

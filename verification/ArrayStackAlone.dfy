/** The group lock does not deadlock: some thread can always finish on its own. */
module ArrayStackAlone {
  import opened ArrayStack
  import opened ArrayStackProofs

  function Alone(s: State, t: nat, steps: nat): (r: State)
    requires Bounded(s) && t < |s.pc|
    ensures Bounded(r) && |r.pc| == |s.pc| && |r.arr| == |s.arr|
    decreases steps
  {
    if steps == 0 then s else Alone(Step(s, t, Go), t, steps - 1)
  }

  predicate Inside(c: Pc) { InPush(c) || InPop(c) }

  // A thread that can get in, because nobody is inside, or that is inside already.
  ghost predicate CanFinish(s: State, t: nat)
    requires t < |s.pc|
  {
    Busy(s.pc[t]) && (Inside(s.pc[t]) || forall u :: 0 <= u < |s.pc| ==> !Inside(s.pc[u]))
  }

  // The steps that are left of a thread that can finish.
  function StepsLeft(s: State, t: nat): nat
    requires t < |s.pc|
  {
    match s.pc[t]
    case PushMask(_) => 8
    case PushLock(_, m) => if s.mask == m then 7 else 9
    case PushTop(_) => 6
    case PushReserve(_, top) => if s.top == top then 5 else 7
    case PushWrite(_, _, _) => 4
    case PushAssert(_, _) => 3
    case PushLeave(_, _) => 2
    case PushUnlock(_, _, m) => if s.mask == m then 1 else 3
    case PopMask => 9
    case PopLock(m) => if s.mask == m then 8 else 10
    case PopTop => 7
    case PopReserve(top) => if s.top == top then 6 else 8
    case PopRead(_, _) => 5
    case PopPoison(_, _, _) => 4
    case PopAssert(_, _) => 3
    case PopLeave(_, _) => 2
    case PopUnlock(_, _, m) => if s.mask == m then 1 else 3
    case _ => 0
  }

  lemma {:induction false} NobodyInside(s: State)
    requires GroupLock(s) && forall u :: 0 <= u < |s.pc| ==> !Inside(s.pc[u])
    ensures s.mask == 0
  {
    CountNone(s.pc, true);
    CountNone(s.pc, false);
  }

  lemma PushOneLess(s: State, t: nat)
    requires Bounded(s) && GroupLock(s) && t < |s.pc| && CanFinish(s, t) && IsPush(s.pc[t])
    ensures var r := PushStep(s, t);
      (r.pc[t].Returned? || r.pc[t].AssertFailed? || IsPush(r.pc[t])) && StepsLeft(r, t) < StepsLeft(s, t)
  {
    hide Count, Add, Sub;
    if !Inside(s.pc[t]) { NobodyInside(s); }
  }

  lemma PopOneLess(s: State, t: nat)
    requires Bounded(s) && GroupLock(s) && t < |s.pc| && CanFinish(s, t) && IsPop(s.pc[t])
    ensures var r := PopStep(s, t);
      (r.pc[t].Returned? || r.pc[t].AssertFailed? || IsPop(r.pc[t])) && StepsLeft(r, t) < StepsLeft(s, t)
  {
    hide Count, Add, Sub;
    if !Inside(s.pc[t]) { NobodyInside(s); }
  }

  // Others stay where they are, so a thread that can finish still can.
  lemma StillCan(s: State, t: nat)
    requires Bounded(s) && t < |s.pc| && CanFinish(s, t) && Busy(Step(s, t, Go).pc[t])
    ensures CanFinish(Step(s, t, Go), t)
  {
    hide Add, Sub, PushBits, PopBits;
    Moves(s, t, Go);
  }

  lemma {:induction false} InvFinishes(s: State, t: nat) returns (steps: nat)
    requires Inv(s) && t < |s.pc| && CanFinish(s, t)
    ensures steps <= StepsLeft(s, t) && Alone(s, t, steps).pc[t].Returned?
    decreases StepsLeft(s, t)
  {
    hide Bounded, Slots, Knows, Replay, PushStep, PopStep, Call;
    var r := Step(s, t, Go);
    if IsPush(s.pc[t]) { PushOneLess(s, t); } else { PopOneLess(s, t); }
    StepInv(s, t, Go);
    assert r.pc[t] != AssertFailed;
    if r.pc[t].Returned? {
      steps := 1;
      assert Alone(s, t, 1) == Alone(r, t, 0);
    } else {
      StillCan(s, t);
      var more := InvFinishes(r, t);
      steps := more + 1;
    }
  }

  /** In every state of every run in which some thread is in an operation, there is a thread that
      finishes its operation in at most ten steps if it runs alone. */
  lemma {:induction false} SomeThreadFinishes(size: nat, arr: seq<int>, threads: nat, sched: Schedule, t: nat)
    requires |arr| == size && Fits(sched, threads) && t < threads
    ensures var s := Run(Init(size, arr, threads), sched);
      |s.pc| == threads && (Busy(s.pc[t]) ==>
        exists u: nat, steps: nat :: u < threads && steps <= 10 && Alone(s, u, steps).pc[u].Returned?)
  {
    hide Bounded, Inv, Step;
    ArrayStackProofs.InitInv(size, arr, threads);
    RunInv(Init(size, arr, threads), sched);
    var s := Run(Init(size, arr, threads), sched);
    if Busy(s.pc[t]) {
      var u := if u: nat :| u < |s.pc| && Inside(s.pc[u]) then u else t;
      assert CanFinish(s, u);
      var steps := InvFinishes(s, u);
    }
  }

  /** The group lock admits a pusher exactly while no popper and fewer than 255 pushers are inside. */
  lemma {:induction false} AdmitsPusher(size: nat, arr: seq<int>, threads: nat, sched: Schedule, t: nat)
    requires |arr| == size && Fits(sched, threads) && t < threads
    ensures var s := Run(Init(size, arr, threads), sched);
      && t < |s.pc|
      && (s.pc[t].PushMask? ==>
            (Alone(s, t, 2).pc[t].PushTop? <==> Count(s.pc, false) == 0 && Count(s.pc, true) < 0xff))
  {
    hide Bounded, Slots, Knows, Replay, Count, Run;
    ArrayStackProofs.InitInv(size, arr, threads);
    RunInv(Init(size, arr, threads), sched);
    var s := Run(Init(size, arr, threads), sched);
    assert |s.pc| == threads by { assert |Init(size, arr, threads).pc| == threads; }
    if s.pc[t].PushMask? { PusherEnters(s, t); }
  }

  lemma PusherEnters(s: State, t: nat)
    requires Bounded(s) && GroupLock(s) && t < |s.pc| && s.pc[t].PushMask?
    ensures Alone(s, t, 2).pc[t].PushTop? <==> Count(s.pc, false) == 0 && Count(s.pc, true) < 0xff
  {
    hide Count, PushBits, PopBits, Bounded;
    MaskBits(Count(s.pc, true), Count(s.pc, false));
    var s1 := Step(s, t, Go);
    assert Alone(s, t, 2) == Alone(s1, t, 1) == Alone(Step(s1, t, Go), t, 0);
  }

  /** ... and a popper exactly while no pusher and fewer than 255 poppers are. */
  lemma {:induction false} AdmitsPopper(size: nat, arr: seq<int>, threads: nat, sched: Schedule, t: nat)
    requires |arr| == size && Fits(sched, threads) && t < threads
    ensures var s := Run(Init(size, arr, threads), sched);
      && t < |s.pc|
      && (s.pc[t].PopMask? ==>
            (Alone(s, t, 2).pc[t].PopTop? <==> Count(s.pc, true) == 0 && Count(s.pc, false) < 0xff))
  {
    hide Bounded, Slots, Knows, Replay, Count, Run;
    ArrayStackProofs.InitInv(size, arr, threads);
    RunInv(Init(size, arr, threads), sched);
    var s := Run(Init(size, arr, threads), sched);
    assert |s.pc| == threads by { assert |Init(size, arr, threads).pc| == threads; }
    if s.pc[t].PopMask? { PopperEnters(s, t); }
  }

  lemma PopperEnters(s: State, t: nat)
    requires Bounded(s) && GroupLock(s) && t < |s.pc| && s.pc[t].PopMask?
    ensures Alone(s, t, 2).pc[t].PopTop? <==> Count(s.pc, true) == 0 && Count(s.pc, false) < 0xff
  {
    hide Count, PushBits, PopBits, Bounded;
    MaskBits(Count(s.pc, true), Count(s.pc, false));
    var s1 := Step(s, t, Go);
    assert Alone(s, t, 2) == Alone(s1, t, 1) == Alone(Step(s1, t, Go), t, 0);
  }
}

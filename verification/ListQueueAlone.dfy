/** With one pusher, every thread that runs alone finishes its Push or Pop, from every state. */
module ListQueueAlone {
  import opened NodeList
  import opened ListQueue
  import opened ListQueueInv
  import opened ListQueueSound
  import opened ListQueueOnePusher
  import ListQueueTheorems

  function Alone(s: State, t: nat, steps: nat): (r: State)
    requires Bounded(s) && t < |s.pc|
    ensures Bounded(r) && |r.pc| == |s.pc| && |r.next| == |s.next|
    decreases steps
  {
    if steps == 0 then s else Alone(Step(s, t, Go), t, steps - 1)
  }

  // The links that in_ still has to catch up.
  ghost function Lag(s: State): nat
    requires Sizes(s)
  {
    |s.hist.link| - 1 - s.hist.i
  }

  // An upper bound of the steps that are left of an operation, by where it is; what was saved of
  // head_, in_ or out_ may be stale.
  ghost function AllocLeft(s: State, c: Pc): nat
    requires Sizes(s) && PcOk(c, |s.next|)
  {
    var tail := 4 * Lag(s) + 4;
    match c
    case AllocRead(_) => tail + 7
    case AllocNext(_, h) => if s.head == h then tail + 6 else tail + 9
    case AllocCas(_, h, _) => if s.head == h then tail + 5 else tail + 8
    case AllocClear(_, _) => tail + 4
    case _ => 0
  }

  ghost function PushLeft(s: State, c: Pc): nat
    requires Sizes(s) && PcOk(c, |s.next|)
  {
    var tail := 4 * Lag(s) + 4;
    match c
    case PushStore(_, _) => tail + 3
    case PushClear(_, _) => tail + 2
    case PushId(_, _) => tail + 1
    case TailRead(_, _, _) => tail
    case TailNext(_, _, _, tl) => if s.next[tl.node] == Nil then 3 else if s.inp == tl then tail - 1 else tail + 2
    case TailHelp(_, _, _, tl, _) => if s.inp == tl then tail - 3 else tail + 1
    case TailLink(_, _, _, tl) => if s.next[tl.node] == Nil then 2 else tail + 1
    case TailSwing(_, _) => 1
    case _ => 0
  }

  ghost function PopLeft(s: State, c: Pc): nat
    requires Sizes(s)
  {
    var pop := 4 * Lag(s) + 10;
    match c
    case PopOut => pop
    case PopIn(out) => if s.outp == out then pop - 1 else pop + 5
    case PopNext(out, tail) => if s.outp == out && s.inp == tail then pop - 2 else pop + 4
    case PopHelp(tail, _) => if s.inp == tail then pop - 3 else pop + 1
    case PopData(out, _, _) => if s.outp == out then 6 else pop + 2
    case PopCas(out, _, _, _) => if s.outp == out then 5 else pop + 1
    case RelId(_, _) => 4
    case RelRead(_, _, _) => 3
    case RelStore(_, _, _, h) => if s.head == h then 2 else 5
    case RelCas(_, _, _, h) => if s.head == h then 1 else 4
    case _ => 0
  }

  ghost function StepsLeft(s: State, c: Pc): nat
    requires Sizes(s) && PcOk(c, |s.next|)
  {
    AllocLeft(s, c) + PushLeft(s, c) + PopLeft(s, c)
  }

  lemma AllocOneLess(s: State, t: nat)
    requires Sizes(s) && t < |s.pc| && IsAlloc(s.pc[t]) && Sizes(AllocStep(s, t))
    ensures var r := AllocStep(s, t); StepsLeft(r, r.pc[t]) < StepsLeft(s, s.pc[t])
  {
  }

  // Before the tail is read.
  lemma FillOneLess(s: State, t: nat)
    requires Sizes(s) && t < |s.pc| && (s.pc[t].PushStore? || s.pc[t].PushClear? || s.pc[t].PushId?) && Sizes(PushStep(s, t))
    ensures var r := PushStep(s, t); StepsLeft(r, r.pc[t]) < StepsLeft(s, s.pc[t])
  {
  }

  lemma TailOneLess(s: State, t: nat)
    requires Sizes(s) && t < |s.pc| && Knows(s, s.pc[t]) && IsPush(s.pc[t]) && Sizes(PushStep(s, t))
    requires !s.pc[t].PushStore? && !s.pc[t].PushClear? && !s.pc[t].PushId?
    ensures var r := PushStep(s, t); StepsLeft(r, r.pc[t]) < StepsLeft(s, s.pc[t])
  {
  }

  lemma PopOneLess(s: State, t: nat)
    requires Sizes(s) && t < |s.pc| && IsPop(s.pc[t]) && Knows(s, s.pc[t]) && Sizes(PopStep(s, t))
    ensures var r := PopStep(s, t); StepsLeft(r, r.pc[t]) < StepsLeft(s, s.pc[t])
  {
  }

  lemma ReleaseOneLess(s: State, t: nat)
    requires Sizes(s) && t < |s.pc| && IsRelease(s.pc[t]) && Sizes(ReleaseStep(s, t))
    ensures var r := ReleaseStep(s, t); StepsLeft(r, r.pc[t]) < StepsLeft(s, s.pc[t])
  {
  }

  lemma OneLess(s: State, t: nat)
    requires Inv(s) && t < |s.pc| && !s.pc[t].Idle? && Sizes(Step(s, t, Go))
    ensures var r := Step(s, t, Go); StepsLeft(r, r.pc[t]) < StepsLeft(s, s.pc[t])
  {
    hide Sizes, Tags, Chain, FreeList, Holders, Logs, Knows, StepsLeft, AllocStep, PushStep, PopStep, ReleaseStep;
    assert Bounded(s) by { SizesBounded(s); }
    var c := s.pc[t];
    if IsAlloc(c) {
      AllocOneLess(s, t);
    } else if c.PushStore? || c.PushClear? || c.PushId? {
      FillOneLess(s, t);
    } else if IsPush(c) {
      TailOneLess(s, t);
    } else if IsPop(c) {
      PopOneLess(s, t);
    } else {
      ReleaseOneLess(s, t);
    }
  }

  lemma SizesBounded(s: State)
    requires Sizes(s)
    ensures Bounded(s)
  {
  }

  lemma {:induction false} OnePusherFinishes(s: State, p: nat, t: nat) returns (steps: nat)
    requires OnePusher(s, p) && t < |s.pc|
    ensures steps <= StepsLeft(s, s.pc[t]) && Alone(s, t, steps).pc[t].Idle?
    decreases StepsLeft(s, s.pc[t])
  {
    hide Tags, Chain, FreeList, Holders, Logs, Knows, Step, StepsLeft, PusherKnows, IsAlloc, IsPush;
    if s.pc[t].Idle? {
      steps := 0;
    } else {
      var r := Step(s, t, Go);
      OnePusherStep(s, p, t, Go);
      OneLess(s, t);
      var more := OnePusherFinishes(r, p, t);
      steps := more + 1;
    }
  }

  lemma StepsBounded(s: State, p: nat, t: nat)
    requires OnePusher(s, p) && t < |s.pc|
    ensures StepsLeft(s, s.pc[t]) <= 19
  {
    hide Tags, Chain, FreeList, Holders, Logs, Knows;
  }

  /** One pusher, any poppers: in every state of every run, whatever helping is still due and
      whatever is stale, at most 19 steps alone finish the operation of any thread. */
  lemma {:induction false} FinishesAlone(max: nat, seed: nat, data: seq<int>, threads: nat, sched: Schedule, p: nat, t: nat)
    requires 1 <= max == |data| && Fits(sched, threads) && p < threads && t < threads && OnlyPusher(sched, p)
    ensures var s := Run(Init(max, seed, data, threads), sched);
      |s.pc| == threads && exists steps: nat :: steps <= 19 && Alone(s, t, steps).pc[t].Idle?
  {
    hide Step, OnePusher, StepsLeft;
    var s := Init(max, seed, data, threads);
    assert OnePusher(s, p) by { InitOnePusher(max, seed, data, threads, p); }
    ListQueueTheorems.OnePusherRun(s, sched, p);
    var r := Run(s, sched);
    assert Sizes(r) by { OnePusherSizes(r, p); }
    StepsBounded(r, p, t);
    var steps := OnePusherFinishes(r, p, t);
  }

  lemma OnePusherSizes(s: State, p: nat)
    requires OnePusher(s, p)
    ensures Sizes(s)
  {
  }

  lemma InitOnePusher(max: nat, seed: nat, data: seq<int>, threads: nat, p: nat)
    requires 1 <= max == |data| && p < threads
    ensures OnePusher(Init(max, seed, data, threads), p)
  {
    InitInv(max, seed, data, threads);
    assert forall t :: 0 <= t < threads ==> Init(max, seed, data, threads).pc[t] == Idle(NoCall);
  }
}

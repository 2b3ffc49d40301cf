/**
  When Pop's "empty" is true: always with one popper; with two, a popper may look at the `next`
  of a dummy that another has popped and released and the pusher has taken again.
 */
module ListQueueAnswers {
  import opened NodeList
  import opened ListQueue
  import opened ListQueueInv
  import opened ListQueueSound
  import opened ListQueueReach
  import opened ListQueueTheorems
  import ListQueueExact
  import ListQueueOnePusher

  // The next step of thread t, wherever it is in its call, answers "empty".
  predicate SaysEmpty(s: State, t: nat)
    requires Bounded(s) && t < |s.pc|
  {
    !s.pc[t].Idle? && Step(s, t, Go).pc[t] == Idle(PopNone)
  }

  lemma EmptyAtNext(s: State, t: nat)
    requires Bounded(s) && t < |s.pc| && SaysEmpty(s, t)
    ensures s.pc[t].PopNext?
  {
    hide PcOk;
  }

  // The dummy that c has read, if any, is the dummy.
  predicate OutCurrent(s: State, c: Pc) {
    c.PopIn? || c.PopNext? || c.PopData? || c.PopCas? ==> c.out == s.outp
  }

  // With nothing behind the dummy there, nothing is in the queue.
  lemma CurrentIsRight(s: State, t: nat)
    requires Inv(s) && t < |s.pc| && s.pc[t].PopNext? && OutCurrent(s, s.pc[t])
    ensures SaysEmpty(s, t) <==> |QueueNodes(s)| == 1
  {
    hide Tags, FreeList, Holders, Logs, Knows, PcOk;
    QueueIsLinks(s);
    ReadChain(s, s.hist.o);
  }

  // ----- One popper -----

  predicate OnlyPopper(sched: Schedule, p: nat) {
    forall k :: 0 <= k < |sched| && sched[k].1.CallPop? ==> sched[k].0 == p
  }

  predicate PopsAlone(s: State, p: nat) {
    && (forall t :: 0 <= t < |s.pc| && t != p ==> !IsPop(s.pc[t]))
    && (p < |s.pc| ==> OutCurrent(s, s.pc[p]))
  }

  // What a pop reads from out_ is current, and stays so until something is popped.
  lemma PopReadsOut(s: State, t: nat)
    requires Bounded(s) && t < |s.pc| && IsPop(s.pc[t])
    ensures var r := PopStep(s, t);
      && (OutCurrent(s, s.pc[t]) ==> OutCurrent(r, r.pc[t]))
      && (|r.hist.popped| == |s.hist.popped| ==> r.outp == s.outp)
  {
    hide PcOk;
  }

  // Everybody else leaves out_ alone.
  predicate OutUntouched(s: State, r: State, t: nat, a: Action) {
    && t < |s.pc| == |r.pc| && r.outp == s.outp && |r.hist.popped| == |s.hist.popped|
    && OutCurrent(r, r.pc[t]) && (IsPop(r.pc[t]) ==> s.pc[t].Idle? && a.CallPop?)
  }

  lemma AllocLeavesOut(s: State, t: nat, a: Action)
    requires Bounded(s) && t < |s.pc| && IsAlloc(s.pc[t])
    ensures OutUntouched(s, AllocStep(s, t), t, a)
  {
    hide PcOk;
  }

  lemma PushLeavesOut(s: State, t: nat, a: Action)
    requires Bounded(s) && t < |s.pc| && IsPush(s.pc[t])
    ensures OutUntouched(s, PushStep(s, t), t, a)
  {
    hide PcOk;
  }

  lemma ReleaseLeavesOut(s: State, t: nat, a: Action)
    requires Bounded(s) && t < |s.pc| && IsRelease(s.pc[t])
    ensures OutUntouched(s, ReleaseStep(s, t), t, a)
  {
    hide PcOk;
  }

  lemma CallLeavesOut(s: State, t: nat, a: Action)
    requires t < |s.pc| && s.pc[t].Idle?
    ensures OutUntouched(s, Call(s, t, a), t, a)
  {
  }

  lemma LeavesOut(s: State, t: nat, a: Action)
    requires Bounded(s) && t < |s.pc| && !IsPop(s.pc[t])
    ensures OutUntouched(s, Step(s, t, a), t, a)
  {
    hide Bounded, AllocStep, PushStep, PopStep, ReleaseStep, Call, OutUntouched;
    if s.pc[t].Idle? {
      CallLeavesOut(s, t, a);
    } else if IsAlloc(s.pc[t]) {
      AllocLeavesOut(s, t, a);
    } else if IsPush(s.pc[t]) {
      PushLeavesOut(s, t, a);
    } else {
      ReleaseLeavesOut(s, t, a);
    }
  }

  lemma PopsAloneStep(s: State, t: nat, a: Action, p: nat)
    requires Bounded(s) && t < |s.pc| && PopsAlone(s, p) && (a.CallPop? ==> t == p)
    ensures PopsAlone(Step(s, t, a), p)
  {
    hide PcOk, AllocStep, PushStep, PopStep, ReleaseStep, OutCurrent;
    OnlyMoves(s, t, a);
    assert t != p ==> !IsPop(s.pc[t]);
    if IsPop(s.pc[t]) { PopReadsOut(s, t); } else { LeavesOut(s, t, a); }
    if t != p < |s.pc| { SameOut(s, Step(s, t, a), s.pc[p]); }
  }

  lemma {:induction false} PopsAloneRun(s: State, sched: Schedule, p: nat)
    requires Bounded(s) && Fits(sched, |s.pc|) && PopsAlone(s, p) && OnlyPopper(sched, p)
    ensures PopsAlone(Run(s, sched), p)
  {
    hide Bounded, Step, PopsAlone;
    if sched != [] {
      var k := |sched| - 1;
      PopsAloneRun(s, sched[..k], p);
      PopsAloneStep(Run(s, sched[..k]), sched[k].0, sched[k].1, p);
    }
  }

  /** With a single popper, on every clean run, Pop says "empty" only when the queue holds nothing
      but its dummy, and then does when it reads `next` of the dummy. */
  lemma {:induction false} EmptyAnswerIsRight(max: nat, seed: nat, data: seq<int>, threads: nat, sched: Schedule, p: nat)
    requires 1 <= max == |data| && Fits(sched, threads) && OnlyPopper(sched, p) && p < threads
    requires CleanRun(Init(max, seed, data, threads), sched)
    ensures var s := Run(Init(max, seed, data, threads), sched);
      && p < |s.pc|
      && (SaysEmpty(s, p) ==> |QueueNodes(s)| == 1)
      && (s.pc[p].PopNext? && |QueueNodes(s)| == 1 ==> SaysEmpty(s, p))
  {
    hide Bounded, Step, Inv, BadStep, SaysEmpty;
    var i := Init(max, seed, data, threads);
    InitInv(max, seed, data, threads);
    CleanInv(i, sched, |sched|);
    assert sched[..|sched|] == sched;
    InitPopsAlone(max, seed, data, threads, p);
    PopsAloneRun(i, sched, p);
    if SaysEmpty(Run(i, sched), p) { EmptyAtNext(Run(i, sched), p); }
    if Run(i, sched).pc[p].PopNext? { CurrentIsRight(Run(i, sched), p); }
  }

  lemma InitPopsAlone(max: nat, seed: nat, data: seq<int>, threads: nat, p: nat)
    requires 1 <= max == |data|
    ensures PopsAlone(Init(max, seed, data, threads), p)
  {
  }

  // ----- An "empty" that misses a value -----

  // The call that starts at step j of the run says "empty" at step k, although fewer values have
  // been popped by then than had been pushed before the call: all the time there was a value.
  ghost predicate Missed(s: State, sched: Schedule, j: nat, k: nat)
    requires Bounded(s) && Fits(sched, |s.pc|)
  {
    && j < k < |sched|
    && sched[j] == (sched[k].0, CallPop) && Run(s, sched[..j]).pc[sched[k].0].Idle?
    && (forall i :: j < i <= k ==> !Run(s, sched[..i]).pc[sched[k].0].Idle?)
    && SaysEmpty(Run(s, sched[..k]), sched[k].0)
    && |Run(s, sched[..k]).hist.popped| < |Run(s, sched[..j]).hist.pushed|
  }

  // No call of any run, on which only these threads push and pop, misses a value.
  ghost predicate NeverMisses(max: nat, seed: nat, who: Sides)
    requires 1 <= max
  {
    forall data: seq<int>, threads: nat, sched: Schedule, j: nat, k: nat ::
      |data| == max && Fits(sched, threads) && Obeys(sched, who) ==> !Missed(Init(max, seed, data, threads), sched, j, k)
  }

  lemma LogsGrow(s: State, t: nat, a: Action)
    requires Bounded(s) && t < |s.pc|
    ensures var r := Step(s, t, a);
      |s.hist.pushed| <= |r.hist.pushed| && |s.hist.popped| <= |r.hist.popped|
  {
    hide PcOk;
  }

  lemma {:induction false} LogsGrowRun(s: State, sched: Schedule, j: nat, k: nat)
    requires Bounded(s) && Fits(sched, |s.pc|) && j <= k <= |sched|
    ensures |Run(s, sched[..j]).hist.pushed| <= |Run(s, sched[..k]).hist.pushed|
    ensures |Run(s, sched[..j]).hist.popped| <= |Run(s, sched[..k]).hist.popped|
  {
    hide Bounded, Step;
    if j < k {
      LogsGrowRun(s, sched, j, k - 1);
      RunOneMore(s, sched, k - 1);
      LogsGrow(Run(s, sched[..k - 1]), sched[k - 1].0, sched[k - 1].1);
    }
  }

  // An answer from the current dummy misses nothing.
  lemma {:induction false} RightMissesNothing(s: State, sched: Schedule, j: nat, k: nat)
    requires Bounded(s) && Fits(sched, |s.pc|) && j < k < |sched|
    requires Inv(Run(s, sched[..k])) && OutCurrent(Run(s, sched[..k]), Run(s, sched[..k]).pc[sched[k].0])
    ensures !Missed(s, sched, j, k)
  {
    hide Bounded, Step, Partition, SaysEmpty, Inv;
    LogsGrowRun(s, sched, j, k);
    var r := Run(s, sched[..k]);
    if SaysEmpty(r, sched[k].0) {
      EmptyAtNext(r, sched[k].0);
      CurrentIsRight(r, sched[k].0);
      InvConserved(r);
    }
  }

  // ----- When no value is missed -----

  // With one pusher every run keeps the invariant.
  lemma {:induction false} OneSideInv(max: nat, seed: nat, who: Sides, data: seq<int>, threads: nat, sched: Schedule, k: nat)
    requires 1 <= max == |data| && |who.pushers| <= 1 && Fits(sched, threads) && Obeys(sched, who) && k <= |sched|
    ensures Inv(Run(Init(max, seed, data, threads), sched[..k]))
  {
    hide Bounded, Step, Inv, BadStep, Sound;
    var s := Init(max, seed, data, threads);
    assert |s.pc| == threads;
    InitInv(max, seed, data, threads);
    ListQueueExact.OneMemberRun(max, seed, who, data, threads, sched);
    SoundIffClean(s, sched);
    CleanInv(s, sched, k);
  }

  lemma ObeysPopper(sched: Schedule, who: Sides, t: nat)
    requires Obeys(sched, who) && |who.poppers| <= 1 && t in who.poppers
    ensures OnlyPopper(sched, t)
  {
    ListQueueExact.OneMember(t, who.poppers);
    assert forall k :: 0 <= k < |sched| ==> Allowed(sched[k].0, sched[k].1, who);
  }

  lemma {:induction false} OnePopperRun(max: nat, seed: nat, who: Sides, data: seq<int>, threads: nat, sched: Schedule, j: nat, k: nat)
    requires 1 <= max == |data| && |who.pushers| <= 1 && |who.poppers| <= 1 && Fits(sched, threads) && Obeys(sched, who)
    ensures !Missed(Init(max, seed, data, threads), sched, j, k)
  {
    hide Bounded, Step, Inv, SaysEmpty, PopsAlone, OutCurrent;
    var s := Init(max, seed, data, threads);
    if Missed(s, sched, j, k) {
      var t := sched[k].0;
      assert Allowed(sched[j].0, sched[j].1, who);
      ObeysPopper(sched, who, t);
      OneSideInv(max, seed, who, data, threads, sched, k);
      InitPopsAlone(max, seed, data, threads, t);
      PopsAloneRun(s, sched[..k], t);
      assert OutCurrent(Run(s, sched[..k]), Run(s, sched[..k]).pc[t]) by { AloneIsCurrent(Run(s, sched[..k]), t); }
      RightMissesNothing(s, sched, j, k);
    }
  }

  lemma AloneIsCurrent(s: State, p: nat)
    requires PopsAlone(s, p) && p < |s.pc|
    ensures OutCurrent(s, s.pc[p])
  {
  }

  // ----- One or two nodes: while nothing is popped, what a pop has read of out_ is current -----

  lemma CurrentStep(s: State, u: nat, a: Action, t: nat)
    requires Bounded(s) && u < |s.pc| && t < |s.pc| && OutCurrent(s, s.pc[t])
    requires |Step(s, u, a).hist.popped| == |s.hist.popped|
    ensures OutCurrent(Step(s, u, a), Step(s, u, a).pc[t])
  {
    hide PcOk, AllocStep, PushStep, PopStep, ReleaseStep, Call, OutCurrent;
    OnlyMoves(s, u, a);
    if IsPop(s.pc[u]) { PopReadsOut(s, u); } else { LeavesOut(s, u, a); }
    if u != t { SameOut(s, Step(s, u, a), s.pc[t]); }
  }

  lemma SameOut(s: State, r: State, c: Pc)
    requires OutCurrent(s, c) && r.outp == s.outp
    ensures OutCurrent(r, c)
  {
  }

  lemma {:induction false} CurrentRun(s: State, sched: Schedule, j: nat, k: nat, t: nat)
    requires Bounded(s) && Fits(sched, |s.pc|) && j <= k <= |sched| && t < |s.pc|
    requires OutCurrent(Run(s, sched[..j]), Run(s, sched[..j]).pc[t])
    requires |Run(s, sched[..k]).hist.popped| == |Run(s, sched[..j]).hist.popped|
    ensures OutCurrent(Run(s, sched[..k]), Run(s, sched[..k]).pc[t])
  {
    hide Bounded, Step, OutCurrent;
    if j < k {
      LogsGrowRun(s, sched, j, k - 1);
      LogsGrowRun(s, sched, k - 1, k);
      CurrentRun(s, sched, j, k - 1, t);
      RunOneMore(s, sched, k - 1);
      CurrentStep(Run(s, sched[..k - 1]), sched[k - 1].0, sched[k - 1].1, t);
    }
  }

  // At most one value is in the queue.
  lemma FewValues(s: State)
    requires Inv(s) && |s.next| <= 2
    ensures |s.hist.pushed| <= |s.hist.popped| + 1
  {
    hide Tags, Chain, FreeList, Holders, Logs, Knows;
    InvConserved(s);
    QueueIsLinks(s);
    DistinctFit(QueueNodes(s), |s.next|);
  }

  lemma {:induction false} FewNodesRun(max: nat, seed: nat, who: Sides, data: seq<int>, threads: nat, sched: Schedule, j: nat, k: nat)
    requires 1 <= max == |data| && max <= 2 && |who.pushers| <= 1 && Fits(sched, threads) && Obeys(sched, who)
    ensures !Missed(Init(max, seed, data, threads), sched, j, k)
  {
    hide Bounded, Step, Inv, SaysEmpty, OutCurrent;
    var s := Init(max, seed, data, threads);
    assert |s.next| == max;
    if Missed(s, sched, j, k) {
      var t := sched[k].0;
      OneSideInv(max, seed, who, data, threads, sched, j);
      OneSideInv(max, seed, who, data, threads, sched, k);
      FewValues(Run(s, sched[..j]));
      LogsGrowRun(s, sched, j, k);
      assert OutCurrent(Run(s, sched[..j]), Run(s, sched[..j]).pc[t]) by { IdleIsCurrent(Run(s, sched[..j]), t); }
      CurrentRun(s, sched, j, k, t);
      RightMissesNothing(s, sched, j, k);
    }
  }

  lemma IdleIsCurrent(s: State, t: nat)
    requires t < |s.pc| && s.pc[t].Idle?
    ensures OutCurrent(s, s.pc[t])
  {
  }

  lemma {:induction false} NoMissNever(max: nat, seed: nat, who: Sides)
    requires 1 <= max && |who.pushers| <= 1 && (|who.poppers| <= 1 || max <= 2)
    ensures NeverMisses(max, seed, who)
  {
    hide Bounded, Missed;
    forall data: seq<int>, threads: nat, sched: Schedule, j: nat, k: nat | |data| == max && Fits(sched, threads) && Obeys(sched, who)
      ensures !Missed(Init(max, seed, data, threads), sched, j, k)
    {
      if |who.poppers| <= 1 {
        OnePopperRun(max, seed, who, data, threads, sched, j, k);
      } else {
        FewNodesRun(max, seed, who, data, threads, sched, j, k);
      }
    }
  }

  // ----- Two poppers and three nodes -----

  lemma {:induction false} RunThen(s: State, first: Schedule, more: Schedule)
    requires Bounded(s) && Fits(first, |s.pc|) && Fits(more, |s.pc|)
    ensures Fits(first + more, |s.pc|) && Run(s, first + more) == Run(Run(s, first), more)
    decreases |more|
  {
    hide Bounded, Step;
    if more == [] {
      assert first + more == first;
    } else {
      var k := |more| - 1;
      RunThen(s, first, more[..k]);
      var all := first + more;
      assert all[..|all| - 1] == first + more[..k];
    }
  }

  // A thread that may not call anything does not leave Idle.
  lemma {:induction false} StaysOut(s: State, sched: Schedule, who: Sides, t: nat, i: nat)
    requires Bounded(s) && Fits(sched, |s.pc|) && Obeys(sched, who) && t !in who.pushers && t !in who.poppers
    requires t < |s.pc| && i <= |sched| && Run(s, sched[..i]).pc[t].Idle?
    ensures Run(s, sched).pc[t].Idle?
    decreases |sched| - i
  {
    hide Bounded, Step;
    if i == |sched| {
      assert sched[..i] == sched;
    } else {
      RunOneMore(s, sched, i);
      assert Allowed(sched[i].0, sched[i].1, who);
      IdleWithoutCall(Run(s, sched[..i]), sched[i].0, sched[i].1, t);
      StaysOut(s, sched, who, t, i + 1);
    }
  }

  lemma IdleWithoutCall(s: State, u: nat, a: Action, t: nat)
    requires Bounded(s) && u < |s.pc| && t < |s.pc| && s.pc[t].Idle? && (u == t ==> a == Go)
    ensures Step(s, u, a).pc[t].Idle?
  {
    OnlyMoves(s, u, a);
  }

  // Thread b has pushed 8 through node 1 and 9 through node 2.
  ghost predicate TwoPushed(s: State) {
    && Bounded(s) && 3 <= |s.next| && s.hist.pushed == [8, 9] && s.hist.popped == []
    && s.outp == At(0, 0) && s.inp == At(2, 2) && s.next[0] == At(1, 1) && s.next[1] == At(2, 2)
    && (s.head.At? ==> s.head.node != 0)
    && forall t :: 0 <= t < |s.pc| ==> s.pc[t].Idle?
  }

  lemma PushesTwo(init: State, seed: nat, who: Sides, b: nat) returns (s: State)
    requires 3 <= |init.data| && init == Init(|init.data|, seed, init.data, |init.pc|) && b < |init.pc| && b in who.pushers
    ensures TwoPushed(s) && Reachable(init, s, who) && |s.pc| == |init.pc|
  {
    hide Reachable;
    InitReachable(init, who);
    s := PushesLast(init, init, who, b, 8);
    assert s.next[0] == At(1, 1) && s.next[1] == Nil && s.head == At(2, 2) && s.inp == At(1, 1);
    s := PushesLast(init, s, who, b, 9);
  }

  // Thread a has called Pop and has read out_ and in_.
  lemma DummyRead(m: State, who: Sides, a: nat) returns (s: State)
    requires TwoPushed(m) && a < |m.pc|
    ensures s == Goto(m, a, PopNext(At(0, 0), At(2, 2))) && Reachable(Step(m, a, CallPop), s, who)
  {
    hide Reachable;
    var call := Step(m, a, CallPop);
    InitReachable(call, who);
    ReachStep(call, call, who, a, Go);
    s := Step(call, a, Go);
    ReachStep(call, s, who, a, Go);
    s := Step(s, a, Go);
  }

  // Thread c has popped 8 and has released node 0 ...
  lemma DummyReleased(m: State, who: Sides, a: nat, b: nat, c: nat) returns (s: State)
    requires TwoPushed(m) && a < |m.pc| && b < |m.pc| && c < |m.pc| && a != b && a != c && c in who.poppers
    ensures Bounded(s) && Reachable(Step(m, a, CallPop), s, who) && |s.pc| == |m.pc|
    ensures s.pc[a] == PopNext(At(0, 0), At(2, 2)) && s.pc[b].Idle?
    ensures NodePtr(s.head, |s.next|) && s.head.node == 0 && |s.hist.popped| == 1
  {
    hide Reachable;
    s := DummyRead(m, who, a);
    s := PopsFirst(Step(m, a, CallPop), s, who, c);
  }

  // ... and thread b has taken node 0.
  lemma DummyTaken(m: State, who: Sides, a: nat, b: nat, c: nat) returns (s: State)
    requires TwoPushed(m) && a < |m.pc| && b < |m.pc| && c < |m.pc| && a != b && a != c
    requires b in who.pushers && c in who.poppers
    ensures Bounded(s) && Reachable(Step(m, a, CallPop), s, who) && |s.pc| == |m.pc|
    ensures SaysEmpty(s, a) && |s.hist.popped| == 1
  {
    hide Reachable, TwoPushed;
    s := DummyReleased(m, who, a, b, c);
    assert Bounded(m) && Bounded(Step(m, a, CallPop)) by { PushedBound(m); }
    ReachTaken(Step(m, a, CallPop), s, who, b, 10);
    s := Taken(s, b, 10);
    assert s.pc[a] == PopNext(At(0, 0), At(2, 2)) && s.next[0] == Nil;
  }

  lemma PushedBound(m: State)
    requires TwoPushed(m)
    ensures Bounded(m)
  {
  }

  // The call of thread a and what follows it, after any run that leads to m.
  lemma {:induction false} CallMisses(init: State, m: State, s: State, first: Schedule, more: Schedule, who: Sides, a: nat)
    requires Bounded(init) && Fits(first, |init.pc|) && Fits(more, |init.pc|) && Run(init, first) == m && a < |init.pc|
    requires m.pc[a].Idle? && Run(Step(m, a, CallPop), more) == s && Obeys(more, who) && a !in who.pushers && a !in who.poppers
    requires SaysEmpty(s, a) && |s.hist.popped| < |m.hist.pushed|
    ensures Fits(first + [(a, CallPop)] + more + [(a, Go)], |init.pc|)
    ensures Missed(init, first + [(a, CallPop)] + more + [(a, Go)], |first|, |first| + 1 + |more|)
  {
    hide Bounded, Step, SaysEmpty;
    var called := first + [(a, CallPop)];
    var sched := called + more + [(a, Go)];
    var k := |called| + |more|;
    assert sched[..|first|] == first;
    assert Run(init, called) == Step(m, a, CallPop) by { assert called[..|first|] == first; }
    forall i | |first| < i <= k
      ensures Run(init, sched[..i]) == Run(Step(m, a, CallPop), more[..i - |called|])
      ensures !Run(init, sched[..i]).pc[a].Idle?
    {
      assert sched[..i] == called + more[..i - |called|];
      RunThen(init, called, more[..i - |called|]);
      if Run(Step(m, a, CallPop), more[..i - |called|]).pc[a].Idle? {
        StaysOut(Step(m, a, CallPop), more, who, a, i - |called|);
        EmptyAtNext(s, a);
      }
    }
    assert more[..|more|] == more;
    assert sched[k] == (a, Go) && sched[|first|] == (a, CallPop);
  }

  lemma {:induction false} TwoPoppersMiss(max: nat, seed: nat, who: Sides)
    requires 3 <= max && |who.pushers| == 1 && |who.poppers| >= 2
    ensures !NeverMisses(max, seed, who)
  {
    hide Bounded, Step, SaysEmpty, Missed, NeverMisses;
    var b :| b in who.pushers;
    var a := ListQueueExact.OtherMember(who.poppers, b);
    var c := ListQueueExact.OtherMember(who.poppers, a);
    var data, threads := seq(max, i => 0), a + b + c + 1;
    var init := Init(max, seed, data, threads);
    assert |init.pc| == threads && init.data == data;
    var m := PushesTwo(init, seed, who, b);
    var others := Sides({b}, {c});
    var s := DummyTaken(m, others, a, b, c);
    var first: Schedule :| Fits(first, threads) && Obeys(first, who) && Run(init, first) == m;
    var more: Schedule :| Fits(more, threads) && Obeys(more, others) && Run(Step(m, a, CallPop), more) == s;
    CallMisses(init, m, s, first, more, others, a);
    var sched := first + [(a, CallPop)] + more + [(a, Go)];
    assert Obeys(sched, who) by { ObeysAll(first, more, who, others, a); }
    MissNever(max, seed, who, data, threads, sched, |first|, |first| + 1 + |more|);
  }

  lemma ObeysAll(first: Schedule, more: Schedule, who: Sides, others: Sides, a: nat)
    requires Obeys(first, who) && Obeys(more, others) && others.pushers <= who.pushers && others.poppers <= who.poppers
    requires a in who.poppers
    ensures Obeys(first + [(a, CallPop)] + more + [(a, Go)], who)
  {
    assert forall k :: 0 <= k < |more| ==> Allowed(more[k].0, more[k].1, who);
  }

  lemma MissNever(max: nat, seed: nat, who: Sides, data: seq<int>, threads: nat, sched: Schedule, j: nat, k: nat)
    requires 1 <= max == |data| && Fits(sched, threads) && Obeys(sched, who) && Missed(Init(max, seed, data, threads), sched, j, k)
    ensures !NeverMisses(max, seed, who)
  {
    hide Bounded, Missed;
  }

  /** With one pusher, for every capacity and every first release tag: no Pop says "empty" over a
      value that was there during all of the call if and only if one thread pops or the queue has
      at most two nodes. */
  lemma {:induction false} NeverMissesIff(max: nat, seed: nat, who: Sides)
    requires 1 <= max && |who.pushers| == 1
    ensures NeverMisses(max, seed, who) <==> |who.poppers| <= 1 || max <= 2
  {
    hide NeverMisses;
    if |who.poppers| <= 1 || max <= 2 {
      NoMissNever(max, seed, who);
    } else {
      TwoPoppersMiss(max, seed, who);
    }
  }
}

/** While nobody pops, no node ever returns to the free list, and no run has a bad step. */
module ListQueueUnpopped {
  import opened NodeList
  import opened ListQueue
  import opened ListQueueInv
  import opened ListQueueSound

  // The successor that was read of a node that is still free is the successor.
  ghost predicate SuccessorKept(s: State, c: Pc) {
    c.AllocCas? && c.h.At? && c.h.node < |s.next| && c.h.node < |s.hist.place| && s.hist.place[c.h.node].InFree? ==>
      s.next[c.h.node] == c.x
  }

  ghost predicate Unpopped(s: State) {
    && Inv(s) && s.hist.o == 0
    && (forall t :: 0 <= t < |s.pc| ==> !IsPop(s.pc[t]) && !IsRelease(s.pc[t]))
    && (forall t :: 0 <= t < |s.pc| ==> SuccessorKept(s, s.pc[t]))
  }

  lemma HeadIsFree(s: State)
    requires Sizes(s) && FreeList(s) && s.head.At?
    ensures s.hist.place[s.head.node].InFree?
  {
    assert s.head.node == s.hist.free[|s.hist.free| - 1];
  }

  // A node that was ever linked is still in the queue.
  lemma TailInQueue(s: State, t: nat)
    requires Sizes(s) && Chain(s) && s.hist.o == 0 && t < |s.pc| && s.pc[t].TailLink? && Knows(s, s.pc[t])
    ensures s.hist.place[s.pc[t].tail.node].InQueue?
  {
    var j :| 0 <= j < |s.hist.link| && s.hist.link[j] == s.pc[t].tail;
    assert s.hist.place[s.hist.link[j].node] == InQueue(j);
  }

  lemma UnpoppedClean(s: State, t: nat)
    requires Unpopped(s) && t < |s.pc|
    ensures !BadStep(s, t)
  {
    hide Tags, Chain, FreeList, Holders, Logs, Knows;
    if s.pc[t].AllocCas? && s.head.At? {
      HeadIsFree(s);
      assert SuccessorKept(s, s.pc[t]);
    } else if s.pc[t].TailLink? {
      TailInQueue(s, t);
      QueueByPlace(s);
    }
  }

  // No node becomes free, and the free nodes keep their successors.
  ghost predicate FreeKept(s: State, r: State) {
    && |r.next| == |s.next| == |r.hist.place| == |s.hist.place|
    && r.hist.o == s.hist.o
    && (forall n {:trigger r.next[n]} {:trigger r.hist.place[n]} :: 0 <= n < |s.next| && r.hist.place[n].InFree? ==>
          s.hist.place[n].InFree? && r.next[n] == s.next[n])
  }

  lemma AllocKeepsFree(s: State, t: nat)
    requires Sizes(s) && Holders(s) && t < |s.pc| && IsAlloc(s.pc[t]) && SuccessorKept(s, s.pc[t])
    ensures var r := AllocStep(s, t);
      FreeKept(s, r) && SuccessorKept(r, r.pc[t]) && !IsPop(r.pc[t]) && !IsRelease(r.pc[t])
  {
    if s.pc[t].AllocClear? { assert HeldNode(s.pc[t]) == s.pc[t].node; }
  }

  lemma LinkKeepsFree(s: State, t: nat)
    requires Bounded(s) && t < |s.pc| && s.pc[t].TailLink? && s.hist.place[s.pc[t].tail.node].InQueue?
    ensures var r := PushStep(s, t);
      FreeKept(s, r) && SuccessorKept(r, r.pc[t]) && !IsPop(r.pc[t]) && !IsRelease(r.pc[t])
  {
  }

  lemma PushKeepsFree(s: State, t: nat)
    requires Sizes(s) && Holders(s) && t < |s.pc| && IsPush(s.pc[t]) && !s.pc[t].TailLink?
    ensures var r := PushStep(s, t);
      FreeKept(s, r) && SuccessorKept(r, r.pc[t]) && !IsPop(r.pc[t]) && !IsRelease(r.pc[t])
  {
    hide PcOk;
    if s.pc[t].PushClear? { assert HeldNode(s.pc[t]) == s.pc[t].node; }
  }

  lemma KeepsFree(s: State, t: nat, a: Action)
    requires Unpopped(s) && t < |s.pc| && !a.CallPop?
    ensures var r := Step(s, t, a);
      FreeKept(s, r) && SuccessorKept(r, r.pc[t]) && !IsPop(r.pc[t]) && !IsRelease(r.pc[t])
  {
    hide Tags, Chain, FreeList, Holders, Logs, Knows, AllocStep, PushStep, PopStep, ReleaseStep, FreeKept;
    assert !IsPop(s.pc[t]) && !IsRelease(s.pc[t]) && SuccessorKept(s, s.pc[t]);
    if IsAlloc(s.pc[t]) {
      AllocKeepsFree(s, t);
    } else if s.pc[t].TailLink? {
      TailInQueue(s, t);
      LinkKeepsFree(s, t);
    } else if IsPush(s.pc[t]) {
      PushKeepsFree(s, t);
    } else {
      IdleKeepsFree(s, t, a);
    }
  }

  lemma IdleKeepsFree(s: State, t: nat, a: Action)
    requires Bounded(s) && t < |s.pc| && s.pc[t].Idle? && !a.CallPop?
    ensures var r := Call(s, t, a);
      FreeKept(s, r) && SuccessorKept(r, r.pc[t]) && !IsPop(r.pc[t]) && !IsRelease(r.pc[t])
  {
  }

  lemma UnpoppedStep(s: State, t: nat, a: Action)
    requires Unpopped(s) && t < |s.pc| && !a.CallPop?
    ensures Unpopped(Step(s, t, a))
  {
    hide PcOk, Tags, Chain, FreeList, Holders, Logs, Knows, Step, BadStep, IsPop, IsRelease;
    var r := Step(s, t, a);
    UnpoppedClean(s, t);
    StepInv(s, t, a);
    OnlyMoves(s, t, a);
    KeepsFree(s, t, a);
    forall u | 0 <= u < |r.pc| && u != t
      ensures SuccessorKept(r, r.pc[u])
    {
      assert SuccessorKept(s, s.pc[u]);
    }
  }

  lemma {:induction false} UnpoppedRun(s: State, sched: Schedule, k: nat)
    requires Bounded(s) && Unpopped(s) && Fits(sched, |s.pc|) && k <= |sched|
    requires forall j :: 0 <= j < |sched| ==> !sched[j].1.CallPop?
    ensures Unpopped(Run(s, sched[..k]))
  {
    hide Bounded, Step, Unpopped, BadStep;
    if k > 0 {
      UnpoppedRun(s, sched, k - 1);
      RunOneMore(s, sched, k - 1);
      UnpoppedStep(Run(s, sched[..k - 1]), sched[k - 1].0, sched[k - 1].1);
    }
  }

  lemma InitUnpopped(max: nat, seed: nat, data: seq<int>, threads: nat)
    requires 1 <= max == |data|
    ensures Unpopped(Init(max, seed, data, threads))
  {
    InitInv(max, seed, data, threads);
    assert forall t :: 0 <= t < threads ==> Init(max, seed, data, threads).pc[t] == Idle(NoCall);
  }

  lemma {:induction false} UnpoppedIsSound(max: nat, seed: nat, data: seq<int>, threads: nat, sched: Schedule)
    requires 1 <= max == |data| && Fits(sched, threads)
    requires forall j :: 0 <= j < |sched| ==> !sched[j].1.CallPop?
    ensures SoundRun(Init(max, seed, data, threads), sched)
  {
    hide Bounded, Step, Inv, Sound, Unpopped;
    var s := Init(max, seed, data, threads);
    assert |s.pc| == threads;
    InitUnpopped(max, seed, data, threads);
    forall k | 0 <= k <= |sched|
      ensures Sound(Run(s, sched[..k]))
    {
      UnpoppedRun(s, sched, k);
      assert Inv(Run(s, sched[..k])) by { UnpoppedInv(Run(s, sched[..k])); }
      InvSound(Run(s, sched[..k]));
    }
  }

  lemma UnpoppedInv(s: State)
    requires Unpopped(s)
    ensures Inv(s)
  {
  }
}

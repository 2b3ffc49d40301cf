/**
  Who may push and who may pop, for every capacity and every first release tag: the queue is sound
  on all their runs exactly when at most one thread pushes, or nobody pops, or the queue is too
  small for a second pusher to do harm.
 */
module ListQueueExact {
  import opened NodeList
  import opened ListQueue
  import opened ListQueueInv
  import opened ListQueueSound
  import opened ListQueueReach
  import opened ListQueueCounter
  import opened ListQueueTheorems
  import ListQueueOnePusher
  import ListQueueSmall
  import ListQueueUnpopped

  // Whatever the data in the nodes and the number of threads, all states of all runs on which
  // only these threads push and pop are sound.
  ghost predicate SafeSides(max: nat, seed: nat, who: Sides)
    requires 1 <= max
  {
    forall data: seq<int>, threads: nat, sched: Schedule ::
      |data| == max && Fits(sched, threads) && Obeys(sched, who) ==> SoundRun(Init(max, seed, data, threads), sched)
  }

  // ----- At most one pusher -----

  lemma OneMember(x: nat, who: set<nat>)
    requires |who| <= 1 && x in who
    ensures who == {x}
  {
    assert |who - {x}| == 0;
  }

  // The only member, or a thread that never pushes.
  lemma OnlyMember(who: Sides, threads: nat, sched: Schedule) returns (p: nat)
    requires |who.pushers| <= 1 && 0 < threads && Fits(sched, threads) && Obeys(sched, who)
    ensures p < threads && ListQueueOnePusher.OnlyPusher(sched, p)
  {
    p := 0;
    assert forall k :: 0 <= k < |sched| ==> Allowed(sched[k].0, sched[k].1, who);
    if x :| x in who.pushers {
      OneMember(x, who.pushers);
      if x < threads { p := x; }
    }
  }

  lemma {:induction false} OneMemberRun(max: nat, seed: nat, who: Sides, data: seq<int>, threads: nat, sched: Schedule)
    requires 1 <= max == |data| && |who.pushers| <= 1 && Fits(sched, threads) && Obeys(sched, who)
    ensures SoundRun(Init(max, seed, data, threads), sched)
  {
    hide Bounded, Step, Inv, Sound, FifoPrefix, TailAtEnd;
    var s := Init(max, seed, data, threads);
    assert |s.pc| == threads;
    if sched == [] {
      InitInv(max, seed, data, threads);
      InvSound(s);
    } else {
      assert sched[0].0 < threads;
      var p := OnlyMember(who, threads, sched);
      forall k | 0 <= k <= |sched|
        ensures Sound(Run(s, sched[..k]))
      {
        OnePusherIsSound(max, seed, data, threads, sched[..k], p);
      }
    }
  }

  lemma {:induction false} OneMemberSafe(max: nat, seed: nat, who: Sides)
    requires 1 <= max && |who.pushers| <= 1
    ensures SafeSides(max, seed, who)
  {
    hide Bounded, SoundRun;
    forall data: seq<int>, threads: nat, sched: Schedule | |data| == max && Fits(sched, threads) && Obeys(sched, who)
      ensures SoundRun(Init(max, seed, data, threads), sched)
    {
      OneMemberRun(max, seed, who, data, threads, sched);
    }
  }

  // ----- One or two nodes -----

  lemma {:induction false} SmallSafe(max: nat, seed: nat, who: Sides)
    requires max == 1 || (max == 2 && 1 <= seed)
    ensures SafeSides(max, seed, who)
  {
    hide Bounded, SoundRun;
    forall data: seq<int>, threads: nat, sched: Schedule | |data| == max && Fits(sched, threads) && Obeys(sched, who)
      ensures SoundRun(Init(max, seed, data, threads), sched)
    {
      ListQueueSmall.SmallIsSound(max, seed, data, threads, sched);
    }
  }

  // ----- Two pushers -----

  // A member other than x.
  lemma OtherMember(ps: set<nat>, x: nat) returns (p: nat)
    requires |ps| >= 2
    ensures p in ps && p != x
  {
    assert |ps - {x}| >= 1;
    p :| p in ps - {x};
  }

  // Two pushers, and a popper that is not the first of them.
  lemma Casting(who: Sides) returns (a: nat, b: nat, q: nat)
    requires |who.pushers| >= 2 && who.poppers != {}
    ensures Cast(who, a + b + q + 1, a, b, q)
  {
    q :| q in who.poppers;
    a := OtherMember(who.pushers, q);
    b := OtherMember(who.pushers, a);
  }

  lemma {:induction false} ManyNodesUnsafe(max: nat, seed: nat, who: Sides)
    requires 3 <= max && |who.pushers| >= 2 && who.poppers != {}
    ensures !SafeSides(max, seed, who)
  {
    hide Bounded, Step, Conserved, Partition, SafeSides, Obeys;
    var a, b, q := Casting(who);
    var data, threads := seq(max, i => 0), a + b + q + 1;
    StaleLinkLosesValue(max, seed, data, threads, who, a, b, q);
    var sched: Schedule :| Fits(sched, threads) && Obeys(sched, who) && !Conserved(Run(Init(max, seed, data, threads), sched));
    assert sched[..|sched|] == sched;
    assert !SoundRun(Init(max, seed, data, threads), sched);
    UnsoundUnsafe(max, seed, who, data, threads, sched);
  }

  lemma {:induction false} UnsoundUnsafe(max: nat, seed: nat, who: Sides, data: seq<int>, threads: nat, sched: Schedule)
    requires 1 <= max == |data| && Fits(sched, threads) && Obeys(sched, who)
    requires !SoundRun(Init(max, seed, data, threads), sched)
    ensures !SafeSides(max, seed, who)
  {
    hide Bounded, SoundRun;
  }

  // ----- Two nodes, and the first release tag is 0: an initial tag comes back -----

  // Thread a has read the head (1, 1).
  lemma HeadRead(init: State, who: Sides, a: nat) returns (s: State)
    requires Bounded(init) && a < |init.pc| && init.pc[a].Idle? && a in who.pushers && init.head.At?
    ensures Bounded(s) && Reachable(init, s, who) && s == Goto(init, a, AllocNext(7, init.head))
  {
    hide Reachable;
    InitReachable(init, who);
    ReachStep(init, init, who, a, CallPush(7));
    s := Step(init, a, CallPush(7));
    ReachStep(init, s, who, a, Go);
    s := Step(s, a, Go);
  }

  // Then thread b has pushed 8 through node 1 ...
  lemma HeadTaken(init: State, who: Sides, a: nat, b: nat, q: nat) returns (s: State)
    requires |init.data| == 2 && init == Init(2, 0, init.data, |init.pc|) && Cast(who, |init.pc|, a, b, q)
    ensures Bounded(s) && Reachable(init, s, who) && |s.pc| == |init.pc|
    ensures s.pc[a] == AllocNext(7, At(1, 1)) && s.pc[b].Idle? && s.pc[q].Idle?
    ensures s.next == [At(1, 1), Nil] && s.head == Nil && s.inp == At(1, 1) && s.outp == At(0, 0) && s.id == 2 && s.id2 == 0
  {
    hide Reachable;
    s := HeadRead(init, who, a);
    s := PushesLast(init, s, who, b, 8);
  }

  // ... and thread q has popped it and has released node 0 with tag 0.
  lemma HeadSaved(init: State, who: Sides, a: nat, b: nat, q: nat) returns (s: State)
    requires |init.data| == 2 && init == Init(2, 0, init.data, |init.pc|) && Cast(who, |init.pc|, a, b, q)
    ensures Bounded(s) && Reachable(init, s, who) && |s.pc| == |init.pc|
    ensures s.pc[a] == AllocNext(7, At(1, 1)) && s.pc[b].Idle? && s.pc[q].Idle?
    ensures s.next == [Nil, Nil] && s.head == At(0, 0) && s.inp == s.outp == At(1, 1) && s.id == 2 && s.id2 == 1
  {
    hide Reachable;
    s := HeadTaken(init, who, a, b, q);
    s := PopsFirst(init, s, who, q);
  }

  // Thread b has pushed 9 through node 0.
  lemma HeadInQueue(init: State, who: Sides, a: nat, b: nat, q: nat) returns (s: State)
    requires |init.data| == 2 && init == Init(2, 0, init.data, |init.pc|) && Cast(who, |init.pc|, a, b, q)
    ensures Bounded(s) && Reachable(init, s, who) && |s.pc| == |init.pc|
    ensures s.pc[a] == AllocNext(7, At(1, 1)) && s.pc[q].Idle?
    ensures s.next == [Nil, At(2, 0)] && s.head == Nil && s.inp == At(2, 0) && s.outp == At(1, 1) && s.id2 == 1
  {
    hide Reachable;
    s := HeadSaved(init, who, a, b, q);
    s := PushesLast(init, s, who, b, 9);
  }

  // Thread a has read the successor of node 1 while node 1 was in the queue; then thread q has
  // released node 1 with tag 1.
  lemma HeadBack(init: State, who: Sides, a: nat, b: nat, q: nat) returns (s: State)
    requires |init.data| == 2 && init == Init(2, 0, init.data, |init.pc|) && Cast(who, |init.pc|, a, b, q)
    ensures Bounded(s) && Reachable(init, s, who) && |s.pc| == |init.pc| && StaleAlloc(s, a)
  {
    hide Reachable;
    s := HeadInQueue(init, who, a, b, q);
    ReachStep(init, s, who, a, Go);
    s := Step(s, a, Go);
    assert s.pc[a] == AllocCas(7, At(1, 1), At(2, 0)) && s.pc[q].Idle?;
    s := PopsFirst(init, s, who, q);
  }

  lemma {:induction false} BadStepUnsound(init: State, s: State, who: Sides, t: nat) returns (sched: Schedule)
    requires Bounded(init) && Inv(init) && Reachable(init, s, who) && Bounded(s) && t < |s.pc| == |init.pc| && BadStep(s, t)
    ensures Fits(sched, |init.pc|) && Obeys(sched, who) && !SoundRun(init, sched)
  {
    hide Bounded, Step, Inv, Sound, BadStep;
    var run: Schedule :| Fits(run, |init.pc|) && Obeys(run, who) && Run(init, run) == s;
    sched := run + [(t, Go)];
    assert sched[..|run|] == run;
    assert BadStep(Run(init, sched[..|run|]), sched[|run|].0);
    SoundIffClean(init, sched);
  }

  lemma {:induction false} TwoNodesUnsafe(who: Sides)
    requires |who.pushers| >= 2 && who.poppers != {}
    ensures !SafeSides(2, 0, who)
  {
    hide Bounded, Step, Inv, SoundRun, SafeSides, Reachable, Obeys;
    var a, b, q := Casting(who);
    var data: seq<int>, threads := [0, 0], a + b + q + 1;
    var init := Init(2, 0, data, threads);
    assert |init.pc| == threads && init.data == data;
    var s := HeadBack(init, who, a, b, q);
    InitInv(2, 0, data, threads);
    var sched := BadStepUnsound(init, s, who, a);
    UnsoundUnsafe(2, 0, who, data, threads, sched);
  }

  // ----- Nobody pops -----

  lemma {:induction false} UnpoppedSafe(max: nat, seed: nat, who: Sides)
    requires 1 <= max && who.poppers == {}
    ensures SafeSides(max, seed, who)
  {
    hide Bounded, SoundRun;
    forall data: seq<int>, threads: nat, sched: Schedule | |data| == max && Fits(sched, threads) && Obeys(sched, who)
      ensures SoundRun(Init(max, seed, data, threads), sched)
    {
      assert forall k :: 0 <= k < |sched| ==> Allowed(sched[k].0, sched[k].1, who);
      ListQueueUnpopped.UnpoppedIsSound(max, seed, data, threads, sched);
    }
  }

  /** Every capacity, every first release tag, every set of pushers and every set of poppers: all
      runs are sound if and only if at most one thread pushes, or nobody pops, or the queue has
      one node, or it has two nodes and the releases do not start from tag 0. */
  lemma {:induction false} SafeSidesIff(max: nat, seed: nat, who: Sides)
    requires 1 <= max
    ensures SafeSides(max, seed, who) <==>
              |who.pushers| <= 1 || who.poppers == {} || max == 1 || (max == 2 && 1 <= seed)
  {
    hide SafeSides;
    if |who.pushers| <= 1 {
      OneMemberSafe(max, seed, who);
    } else if who.poppers == {} {
      UnpoppedSafe(max, seed, who);
    } else if max == 1 || (max == 2 && 1 <= seed) {
      SmallSafe(max, seed, who);
    } else if max == 2 {
      TwoNodesUnsafe(who);
    } else {
      ManyNodesUnsafe(max, seed, who);
    }
  }

  /** The code's own first tag, max - 1: a queue of three or more nodes that anybody pops from
      bears only one pusher. */
  lemma {:induction false} CodeSidesIff(max: nat, who: Sides)
    requires 1 <= max
    ensures SafeSides(max, max - 1, who) <==> |who.pushers| <= 1 || who.poppers == {} || max <= 2
  {
    SafeSidesIff(max, max - 1, who);
  }
}

/**
  When "full" and "empty" are true: a thread compares a cursor that it has read with the other
  cursor as it is now, so the answer is true as long as the first has not moved.
 */
module RingQueueAnswers {
  import opened RingQueue
  import opened RingQueueSound
  import opened RingQueueTheorems
  import opened RingQueueCounter
  import opened RingQueueExact

  predicate IsFull(s: State) { |s.pushed| + 1 == |s.popped| + |s.arr| }

  predicate IsEmpty(s: State) { |s.popped| == s.published }

  // ----- Any number of threads -----

  // Before a lap, read_ meets w + 1 because the ring is full, or because w has been popped.
  lemma FullTold(s: State, t: nat)
    requires Inv(s) && t < |s.pc| && s.pc[t].PushCheck? && |s.pushed| < s.pc[t].at + |s.arr|
    ensures SaysFull(s, t) ==> (IsFull(s) <==> s.pc[t].at == |s.pushed|)
    ensures IsFull(s) && s.pc[t].at == |s.pushed| ==> SaysFull(s, t)
  {
    hide Slot, Next, Values, Producers;
    var at := s.pc[t].at;
    assert Knows(s, s.pc[t]);
    SlotNext(at, |s.arr|);
    SlotLap(|s.popped|, |s.arr|);
    if SaysFull(s, t) && |s.popped| <= at + 1 < |s.popped| + |s.arr| {
      SlotInjective(|s.popped|, at + 1, |s.arr|);
    }
  }

  lemma EmptyTold(s: State, t: nat)
    requires Inv(s) && t < |s.pc| && s.pc[t].PopCheck? && |s.popped| < s.pc[t].at + |s.arr|
    ensures SaysEmpty(s, t) ==> (IsEmpty(s) <==> s.published == s.pc[t].at)
    ensures IsEmpty(s) && s.pc[t].at == |s.popped| ==> SaysEmpty(s, t)
  {
    hide Slot, Next, Values, Producers;
    var at := s.pc[t].at;
    assert Knows(s, s.pc[t]);
    if SaysEmpty(s, t) && at <= s.published < at + |s.arr| { SlotInjective(at, s.published, |s.arr|); }
  }

  /** Any number of threads, every clean run: Push says "full" only where it reads read_; if the
      ring has not gone all the way round since it read write_, the answer is true if and only if
      nobody has reserved a slot since. */
  lemma {:induction false} FullToldIff(arr: seq<int>, threads: nat, sched: Schedule, t: nat)
    requires 1 <= |arr| && Fits(sched, threads) && t < threads && CleanRun(Init(arr, threads), sched)
    ensures var s := Run(Init(arr, threads), sched);
      && t < |s.pc|
      && (SaysFull(s, t) ==> s.pc[t].PushCheck?)
      && (SaysFull(s, t) && |s.pushed| < s.pc[t].at + |arr| ==> (IsFull(s) <==> s.pc[t].at == |s.pushed|))
  {
    hide Bounded, Step, Run, Inv, BadStep, SaysFull, SaysEmpty, IsFull;
    CleanState(arr, threads, sched);
    var s := Run(Init(arr, threads), sched);
    AnswersAtCheck(s, t);
    if SaysFull(s, t) && |s.pushed| < s.pc[t].at + |arr| { FullTold(s, t); }
  }

  /** Likewise Pop says "empty" only where it reads maxRead_; if the ring has not gone all the way
      round since it read read_, the answer is true if and only if nothing has been published
      beyond the value that was first then. */
  lemma {:induction false} EmptyToldIff(arr: seq<int>, threads: nat, sched: Schedule, t: nat)
    requires 1 <= |arr| && Fits(sched, threads) && t < threads && CleanRun(Init(arr, threads), sched)
    ensures var s := Run(Init(arr, threads), sched);
      && t < |s.pc|
      && (SaysEmpty(s, t) ==> s.pc[t].PopCheck?)
      && (SaysEmpty(s, t) && |s.popped| < s.pc[t].at + |arr| ==> (IsEmpty(s) <==> s.published == s.pc[t].at))
  {
    hide Bounded, Step, Run, Inv, BadStep, SaysFull, SaysEmpty, IsEmpty;
    CleanState(arr, threads, sched);
    var s := Run(Init(arr, threads), sched);
    AnswersAtCheck(s, t);
    if SaysEmpty(s, t) && |s.popped| < s.pc[t].at + |arr| { EmptyTold(s, t); }
  }

  lemma {:induction false} CleanState(arr: seq<int>, threads: nat, sched: Schedule)
    requires 1 <= |arr| && Fits(sched, threads) && CleanRun(Init(arr, threads), sched)
    ensures var s := Run(Init(arr, threads), sched); Inv(s) && Bounded(s) && |s.pc| == threads && |s.arr| == |arr|
  {
    hide Bounded, Step, Inv, BadStep;
    InitInv(arr, threads);
    CleanInv(Init(arr, threads), sched, |sched|);
    assert sched[..|sched|] == sched;
    assert |Init(arr, threads).pc| == threads && |Init(arr, threads).arr| == |arr|;
  }

  /** A Push that answers true has made its value visible: its slot was the next one to publish,
      it holds the value, and maxRead_ passes it as the call returns. */
  lemma {:induction false} PushedIsPublished(arr: seq<int>, threads: nat, sched: Schedule, t: nat)
    requires 1 <= |arr| && Fits(sched, threads) && t < threads && CleanRun(Init(arr, threads), sched)
    ensures var s := Run(Init(arr, threads), sched);
      && t < |s.pc|
      && (!s.pc[t].Idle? && Step(s, t, Go).pc[t] == Idle(Pushed) ==>
            && s.published < |s.pushed| == |s.owner| && s.owner[s.published] == t
            && s.pc[t].PushPublish? && s.pushed[s.published] == s.pc[t].v == s.arr[Slot(s.published, |s.arr|)]
            && Step(s, t, Go).published == s.published + 1)
  {
    hide Run, BadStep, Slot, Next;
    CleanState(arr, threads, sched);
    var s := Run(Init(arr, threads), sched);
    if s.pc[t].PushPublish? {
      PublishesNext(s, t);
      assert Owns(s, s.pc[t], t);
    }
  }

  // ----- Who may push and pop, if every answer is to be true -----

  // "Full" is true whenever it is said, on all clean runs of these threads.
  ghost predicate TrueFull(size: nat, who: Sides)
    requires 1 <= size
  {
    forall arr: seq<int>, threads: nat, sched: Schedule, t: nat ::
      |arr| == size && Fits(sched, threads) && t < threads && Obeys(sched, who) && CleanRun(Init(arr, threads), sched) ==>
        FullIsTrue(Run(Init(arr, threads), sched), t)
  }

  ghost predicate TrueEmpty(size: nat, who: Sides)
    requires 1 <= size
  {
    forall arr: seq<int>, threads: nat, sched: Schedule, t: nat ::
      |arr| == size && Fits(sched, threads) && t < threads && Obeys(sched, who) && CleanRun(Init(arr, threads), sched) ==>
        EmptyIsTrue(Run(Init(arr, threads), sched), t)
  }

  predicate FullIsTrue(s: State, t: nat)
    requires Bounded(s)
  {
    t < |s.pc| && SaysFull(s, t) ==> IsFull(s)
  }

  predicate EmptyIsTrue(s: State, t: nat)
    requires Bounded(s)
  {
    t < |s.pc| && SaysEmpty(s, t) ==> IsEmpty(s)
  }

  // ----- Answers that are always true -----

  // A ring of size 1 holds nothing.
  lemma {:induction false} OneSlotTrue(who: Sides)
    ensures TrueFull(1, who) && TrueEmpty(1, who)
  {
    hide Bounded, Step, Run, Inv, CleanRun, SaysFull, SaysEmpty;
    forall arr: seq<int>, threads: nat, sched: Schedule, t: nat
      | |arr| == 1 && Fits(sched, threads) && t < threads && Obeys(sched, who) && CleanRun(Init(arr, threads), sched)
      ensures FullIsTrue(Run(Init(arr, threads), sched), t) && EmptyIsTrue(Run(Init(arr, threads), sched), t)
    {
      CleanState(arr, threads, sched);
      InvBounded(Run(Init(arr, threads), sched));
    }
  }

  lemma ObeysOne(sched: Schedule, who: Sides)
    requires Obeys(sched, who)
    ensures who.pushers == {} ==> forall k :: 0 <= k < |sched| ==> !sched[k].1.CallPush?
    ensures who.poppers == {} ==> forall k :: 0 <= k < |sched| ==> !sched[k].1.CallPop?
    ensures forall p :: who.pushers == {p} ==> OnlyPusher(sched, p)
    ensures forall p :: who.poppers == {p} ==> OnlyPopper(sched, p)
  {
    assert forall k :: 0 <= k < |sched| ==> Allowed(sched[k].0, sched[k].1, who);
  }

  lemma UnpoppedFull(s: State, t: nat)
    requires Inv(s) && Unpopped(s) && t < |s.pc| && SaysFull(s, t)
    ensures IsFull(s)
  {
    hide Slot, Next, Values, Producers;
    AnswersAtCheck(s, t);
    assert Knows(s, s.pc[t]);
    FullTold(s, t);
    var at := s.pc[t].at;
    SlotNext(at, |s.arr|);
    if at + 1 < |s.arr| { SlotInjective(0, at + 1, |s.arr|); }
  }

  lemma {:induction false} NobodyPopsTrue(size: nat, who: Sides)
    requires 1 <= size && who.poppers == {}
    ensures TrueFull(size, who)
  {
    hide Bounded, Step, Run, Inv, CleanRun, SaysFull, SaysEmpty, IsFull, Unpopped;
    forall arr: seq<int>, threads: nat, sched: Schedule, t: nat
      | |arr| == size && Fits(sched, threads) && t < threads && Obeys(sched, who) && CleanRun(Init(arr, threads), sched)
      ensures FullIsTrue(Run(Init(arr, threads), sched), t)
    {
      var s := Init(arr, threads);
      CleanState(arr, threads, sched);
      ObeysOne(sched, who);
      InitInv(arr, threads);
      InitUnpopped(arr, threads);
      UnpoppedRun(s, sched, |sched|);
      assert sched[..|sched|] == sched;
      if SaysFull(Run(s, sched), t) { UnpoppedFull(Run(s, sched), t); }
    }
  }

  lemma UntouchedEmpty(s: State)
    requires Untouched(s)
    ensures Bounded(s) && IsEmpty(s)
  {
  }

  lemma {:induction false} NobodyPushesTrue(size: nat, who: Sides)
    requires 1 <= size && who.pushers == {}
    ensures TrueEmpty(size, who)
  {
    hide Bounded, Step, Run, CleanRun, SaysFull, SaysEmpty, IsEmpty, Untouched;
    forall arr: seq<int>, threads: nat, sched: Schedule, t: nat
      | |arr| == size && Fits(sched, threads) && t < threads && Obeys(sched, who) && CleanRun(Init(arr, threads), sched)
      ensures EmptyIsTrue(Run(Init(arr, threads), sched), t)
    {
      var s := Init(arr, threads);
      ObeysOne(sched, who);
      InitUntouched(arr, threads);
      assert Bounded(s) by { UntouchedSound(s); }
      UntouchedRun(s, sched, |sched|);
      assert sched[..|sched|] == sched;
      UntouchedEmpty(Run(s, sched));
    }
  }

  // One thread on the side of the cursor that is read first.
  lemma {:induction false} OnePusherTrue(size: nat, who: Sides)
    requires 1 <= size && |who.pushers| == 1
    ensures TrueFull(size, who)
  {
    hide Bounded, Step, Run, CleanRun, SaysFull, OnlyPusher;
    var p :| p in who.pushers;
    OneMember(p, who.pushers);
    forall arr: seq<int>, threads: nat, sched: Schedule, t: nat
      | |arr| == size && Fits(sched, threads) && t < threads && Obeys(sched, who) && CleanRun(Init(arr, threads), sched)
      ensures FullIsTrue(Run(Init(arr, threads), sched), t)
    {
      ObeysOne(sched, who);
      CleanState(arr, threads, sched);
      if SaysFull(Run(Init(arr, threads), sched), t) { OnlyOnePushes(arr, threads, sched, p, t); }
    }
  }

  lemma {:induction false} OnlyOnePushes(arr: seq<int>, threads: nat, sched: Schedule, p: nat, t: nat)
    requires 1 <= |arr| && Fits(sched, threads) && OnlyPusher(sched, p) && CleanRun(Init(arr, threads), sched)
    requires var s := Run(Init(arr, threads), sched); t < |s.pc| && SaysFull(s, t)
    ensures IsFull(Run(Init(arr, threads), sched))
  {
    hide Bounded, Step, Run, CleanRun, SaysFull, PushesAlone, Inv;
    CleanState(arr, threads, sched);
    AnswersAtCheck(Run(Init(arr, threads), sched), t);
    AloneAtFirst(arr, threads, p, p);
    PushesAloneRun(Init(arr, threads), sched, p);
    PusherIs(Run(Init(arr, threads), sched), t, p);
    FullAnswerIsRight(arr, threads, sched, p);
  }

  lemma PusherIs(s: State, t: nat, p: nat)
    requires PushesAlone(s, p) && t < |s.pc| && s.pc[t].PushCheck?
    ensures t == p
  {
  }

  lemma {:induction false} OnePopperTrue(size: nat, who: Sides)
    requires 1 <= size && |who.poppers| == 1
    ensures TrueEmpty(size, who)
  {
    hide Bounded, Step, Run, CleanRun, SaysEmpty, OnlyPopper;
    var p :| p in who.poppers;
    OneMember(p, who.poppers);
    forall arr: seq<int>, threads: nat, sched: Schedule, t: nat
      | |arr| == size && Fits(sched, threads) && t < threads && Obeys(sched, who) && CleanRun(Init(arr, threads), sched)
      ensures EmptyIsTrue(Run(Init(arr, threads), sched), t)
    {
      ObeysOne(sched, who);
      CleanState(arr, threads, sched);
      if SaysEmpty(Run(Init(arr, threads), sched), t) { OnlyOnePops(arr, threads, sched, p, t); }
    }
  }

  lemma {:induction false} OnlyOnePops(arr: seq<int>, threads: nat, sched: Schedule, p: nat, t: nat)
    requires 1 <= |arr| && Fits(sched, threads) && OnlyPopper(sched, p) && CleanRun(Init(arr, threads), sched)
    requires var s := Run(Init(arr, threads), sched); t < |s.pc| && SaysEmpty(s, t)
    ensures IsEmpty(Run(Init(arr, threads), sched))
  {
    hide Bounded, Step, Run, CleanRun, SaysEmpty, PopsAlone, Inv;
    CleanState(arr, threads, sched);
    AnswersAtCheck(Run(Init(arr, threads), sched), t);
    AloneAtFirst(arr, threads, p, p);
    PopsAloneRun(Init(arr, threads), sched, p);
    PopperIs(Run(Init(arr, threads), sched), t, p);
    EmptyAnswerIsRight(arr, threads, sched, p);
  }

  lemma PopperIs(s: State, t: nat, p: nat)
    requires PopsAlone(s, p) && t < |s.pc| && s.pc[t].PopCheck?
    ensures t == p
  {
  }

  // Nobody pushes on these runs, so nobody says "full".
  lemma {:induction false} NoPusherTrue(size: nat, who: Sides)
    requires 1 <= size && who.pushers == {}
    ensures TrueFull(size, who)
  {
    hide Bounded, Step, Run, CleanRun, SaysFull, OnlyPusher;
    forall arr: seq<int>, threads: nat, sched: Schedule, t: nat
      | |arr| == size && Fits(sched, threads) && t < threads && Obeys(sched, who) && CleanRun(Init(arr, threads), sched)
      ensures FullIsTrue(Run(Init(arr, threads), sched), t)
    {
      ObeysOne(sched, who);
      assert OnlyPusher(sched, 0) by { NonePushes(sched); }
      CleanState(arr, threads, sched);
      if SaysFull(Run(Init(arr, threads), sched), t) { OnlyOnePushes(arr, threads, sched, 0, t); }
    }
  }

  lemma NonePushes(sched: Schedule)
    requires forall k :: 0 <= k < |sched| ==> !sched[k].1.CallPush?
    ensures OnlyPusher(sched, 0)
  {
  }

  lemma NonePops(sched: Schedule)
    requires forall k :: 0 <= k < |sched| ==> !sched[k].1.CallPop?
    ensures OnlyPopper(sched, 0)
  {
  }

  lemma {:induction false} NoPopperTrue(size: nat, who: Sides)
    requires 1 <= size && who.poppers == {}
    ensures TrueEmpty(size, who)
  {
    hide Bounded, Step, Run, CleanRun, SaysEmpty, OnlyPopper;
    forall arr: seq<int>, threads: nat, sched: Schedule, t: nat
      | |arr| == size && Fits(sched, threads) && t < threads && Obeys(sched, who) && CleanRun(Init(arr, threads), sched)
      ensures EmptyIsTrue(Run(Init(arr, threads), sched), t)
    {
      ObeysOne(sched, who);
      assert OnlyPopper(sched, 0) by { NonePops(sched); }
      CleanState(arr, threads, sched);
      if SaysEmpty(Run(Init(arr, threads), sched), t) { OnlyOnePops(arr, threads, sched, 0, t); }
    }
  }

  // ----- False answers -----

  // Thread t has read write_ of the empty ring; thread p pushes and thread q pops what it pushed.
  lemma {:induction false} TwoPushersFalse(size: nat, who: Sides)
    requires 2 <= size && |who.pushers| >= 2 && who.poppers != {}
    ensures !TrueFull(size, who)
  {
    hide Reachable, Slot, Next, TrueFull, Run, CleanRun, Obeys;
    var q :| q in who.poppers;
    var t := OtherMember(who.pushers, q);
    var p := OtherMember(who.pushers, t);
    var arr, threads := seq(size, i => 0), t + p + q + 1;
    var init := Init(arr, threads);
    assert Settled(init) by { ZeroSlot(size); }
    InitReachable(init, who, true);
    ReachStep(init, init, who, true, t, CallPush(7));
    var s1 := Step(init, t, CallPush(7));
    ReachStep(init, s1, who, true, t, Go);
    var s2 := Step(s1, t, Go);
    assert s2 == Goto(init, t, PushCheck(7, 0, 0));
    var s3 := PushSettled(init, s2, who, true, p, 8);
    var s := PopSettled(init, s3, who, true, q);
    assert SaysFull(s, t) by { SlotNext(0, size); ZeroSlot(size); }
    assert !FullIsTrue(s, t);
    var sched: Schedule := CleanlyReached(init, s, who);
    FalseFull(size, who, arr, threads, sched, t);
  }

  lemma CleanlyReached(init: State, s: State, who: Sides) returns (sched: Schedule)
    requires Bounded(init) && Reachable(init, s, who, true)
    ensures Fits(sched, |init.pc|) && Obeys(sched, who) && Run(init, sched) == s && CleanRun(init, sched)
  {
    hide Bounded, Run, CleanRun, Obeys;
    sched :| Fits(sched, |init.pc|) && Obeys(sched, who) && Run(init, sched) == s && CleanRun(init, sched);
  }

  lemma FalseFull(size: nat, who: Sides, arr: seq<int>, threads: nat, sched: Schedule, t: nat)
    requires 1 <= size == |arr| && Fits(sched, threads) && t < threads && Obeys(sched, who)
    requires CleanRun(Init(arr, threads), sched) && !FullIsTrue(Run(Init(arr, threads), sched), t)
    ensures !TrueFull(size, who)
  {
    hide Bounded, Run, CleanRun, Obeys, FullIsTrue;
  }

  lemma FalseEmpty(size: nat, who: Sides, arr: seq<int>, threads: nat, sched: Schedule, t: nat)
    requires 1 <= size == |arr| && Fits(sched, threads) && t < threads && Obeys(sched, who)
    requires CleanRun(Init(arr, threads), sched) && !EmptyIsTrue(Run(Init(arr, threads), sched), t)
    ensures !TrueEmpty(size, who)
  {
    hide Bounded, Run, CleanRun, Obeys, EmptyIsTrue;
  }

  // Thread t has read read_ of the empty ring, and k values have been pushed and popped since.
  ghost predicate CheckParked(s: State, t: nat, p: nat, q: nat, k: nat) {
    && Bounded(s) && Settled(s)
    && t < |s.pc| && p < |s.pc| && q < |s.pc| && t != p && t != q
    && s.pc[t] == PopCheck(0, 0) && s.pc[p].Idle? && s.pc[q].Idle?
    && |s.popped| == |s.pushed| == k
  }

  lemma ParkCheck(init: State, who: Sides, t: nat, p: nat, q: nat) returns (s: State)
    requires 2 <= |init.arr| && init == Init(init.arr, |init.pc|) && t < |init.pc| && p < |init.pc| && q < |init.pc|
    requires t in who.poppers && t != p && t != q
    ensures CheckParked(s, t, p, q, 0) && Reachable(init, s, who, true) && |s.pc| == |init.pc| && |s.arr| == |init.arr|
  {
    hide Reachable;
    ZeroSlot(|init.arr|);
    InitReachable(init, who, true);
    ReachStep(init, init, who, true, t, CallPop);
    var m := Step(init, t, CallPop);
    ReachStep(init, m, who, true, t, Go);
    s := Step(m, t, Go);
  }

  lemma {:induction false} CheckRounds(init: State, who: Sides, t: nat, p: nat, q: nat, k: nat) returns (s: State)
    requires 2 <= |init.arr| && init == Init(init.arr, |init.pc|) && t < |init.pc| && p < |init.pc| && q < |init.pc|
    requires t in who.poppers && p in who.pushers && q in who.poppers && t != p && t != q
    ensures CheckParked(s, t, p, q, k) && Reachable(init, s, who, true) && |s.pc| == |init.pc| && |s.arr| == |init.arr|
    decreases k
  {
    hide Reachable, Slot, Next;
    if k == 0 {
      s := ParkCheck(init, who, t, p, q);
    } else {
      var m := CheckRounds(init, who, t, p, q, k - 1);
      m := PushSettled(init, m, who, true, p, 0);
      s := PopSettled(init, m, who, true, q);
    }
  }

  // Threads p and q push and pop until maxRead_ is back at slot 0, with one value in the ring.
  lemma {:induction false} TwoPoppersFalse(size: nat, who: Sides)
    requires 2 <= size && |who.poppers| >= 2 && who.pushers != {}
    ensures !TrueEmpty(size, who)
  {
    hide Reachable, Slot, Next, TrueEmpty, Run, CleanRun, Obeys;
    var p :| p in who.pushers;
    var t := OtherMember(who.poppers, p);
    var q := OtherMember(who.poppers, t);
    var arr, threads := seq(size, i => 0), t + p + q + 1;
    var init := Init(arr, threads);
    var m := CheckRounds(init, who, t, p, q, size - 1);
    var s := PushSettled(init, m, who, true, p, 9);
    assert SaysEmpty(s, t) by { SlotLap(0, size); ZeroSlot(size); }
    assert !EmptyIsTrue(s, t);
    var sched: Schedule := CleanlyReached(init, s, who);
    FalseEmpty(size, who, arr, threads, sched, t);
  }

  /** For every size, every set of pushers and every set of poppers: on the clean runs "full" is
      always true if and only if the size is one, or at most one thread pushes, or nobody pops. */
  lemma {:induction false} TrueFullIff(size: nat, who: Sides)
    requires 1 <= size
    ensures TrueFull(size, who) <==> size == 1 || |who.pushers| <= 1 || who.poppers == {}
  {
    hide TrueFull, TrueEmpty;
    if size == 1 {
      OneSlotTrue(who);
    } else if who.pushers == {} {
      NoPusherTrue(size, who);
    } else if who.poppers == {} {
      NobodyPopsTrue(size, who);
    } else if |who.pushers| == 1 {
      OnePusherTrue(size, who);
    } else {
      TwoPushersFalse(size, who);
    }
  }

  /** ... and "empty" is always true if and only if the size is one, or at most one thread pops, or
      nobody pushes. */
  lemma {:induction false} TrueEmptyIff(size: nat, who: Sides)
    requires 1 <= size
    ensures TrueEmpty(size, who) <==> size == 1 || |who.poppers| <= 1 || who.pushers == {}
  {
    hide TrueFull, TrueEmpty;
    if size == 1 {
      OneSlotTrue(who);
    } else if who.poppers == {} {
      NoPopperTrue(size, who);
    } else if who.pushers == {} {
      NobodyPushesTrue(size, who);
    } else if |who.poppers| == 1 {
      OnePopperTrue(size, who);
    } else {
      TwoPoppersFalse(size, who);
    }
  }
}

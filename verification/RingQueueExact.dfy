/** Who may push and who may pop decides whether LockFreeQueue is safe. */
module RingQueueExact {
  import opened RingQueue
  import opened RingQueueSound
  import opened RingQueueTheorems
  import opened RingQueueCounter

  // Every run of every number of threads, on which only these threads push and pop, is sound.
  ghost predicate SafeSides(size: nat, who: Sides)
    requires 1 <= size
  {
    forall arr: seq<int>, threads: nat, sched: Schedule | |arr| == size && Fits(sched, threads) && Obeys(sched, who) ::
      SoundRun(Init(arr, threads), sched)
  }

  // ----- Nothing is ever pushed -----

  // A push that has not read the cursors, or will find the ring full; a pop that will find it empty.
  predicate Fruitless(c: Pc, size: nat) {
    match c
    case Idle(_) => true
    case PushRead(_) => size == 1
    case PushCheck(_, w, _) => size == 1 && w == 0
    case PopRead => true
    case PopCheck(r, _) => r == 0
    case _ => false
  }

  ghost predicate Untouched(s: State) {
    && Bounded(s) && s.read == 0 && s.write == 0 && s.maxRead == 0
    && s.pushed == [] && s.popped == [] && s.published == 0
    && forall t :: 0 <= t < |s.pc| ==> Fruitless(s.pc[t], |s.arr|)
  }

  lemma UntouchedStep(s: State, t: nat, a: Action)
    requires Untouched(s) && t < |s.pc| && (a.CallPush? ==> |s.arr| == 1)
    ensures Untouched(Step(s, t, a))
  {
    Moves(s, t, a);
    assert Fruitless(s.pc[t], |s.arr|);
    assert Fruitless(Step(s, t, a).pc[t], |s.arr|);
  }

  lemma {:induction false} UntouchedRun(s: State, sched: Schedule, k: nat)
    requires Bounded(s) && Untouched(s) && Fits(sched, |s.pc|) && k <= |sched|
    requires |s.arr| == 1 || forall j :: 0 <= j < |sched| ==> !sched[j].1.CallPush?
    ensures Untouched(Run(s, sched[..k]))
  {
    hide Bounded, Step, Untouched;
    if k > 0 {
      UntouchedRun(s, sched, k - 1);
      RunOneMore(s, sched, k - 1);
      UntouchedStep(Run(s, sched[..k - 1]), sched[k - 1].0, sched[k - 1].1);
    }
  }

  lemma {:induction false} UntouchedSafe(size: nat, who: Sides)
    requires 1 <= size && (size == 1 || who.pushers == {})
    ensures SafeSides(size, who)
  {
    hide Bounded, Step, Sound, Untouched;
    forall arr: seq<int>, threads: nat, sched: Schedule | |arr| == size && Fits(sched, threads) && Obeys(sched, who)
      ensures SoundRun(Init(arr, threads), sched)
    {
      var s := Init(arr, threads);
      assert Untouched(s) && |s.pc| == threads by { InitUntouched(arr, threads); }
      assert size == 1 || forall j :: 0 <= j < |sched| ==> !sched[j].1.CallPush? by { NobodyPushes(sched, who, size); }
      forall k | 0 <= k <= |sched|
        ensures Sound(Run(s, sched[..k]))
      {
        UntouchedRun(s, sched, k);
        UntouchedSound(Run(s, sched[..k]));
      }
    }
  }

  lemma NobodyPushes(sched: Schedule, who: Sides, size: nat)
    requires Obeys(sched, who) && (size == 1 || who.pushers == {})
    ensures size == 1 || forall j :: 0 <= j < |sched| ==> !sched[j].1.CallPush?
  {
    assert forall j :: 0 <= j < |sched| ==> Allowed(sched[j].0, sched[j].1, who);
  }

  lemma InitUntouched(arr: seq<int>, threads: nat)
    requires 1 <= |arr|
    ensures Untouched(Init(arr, threads)) && |Init(arr, threads).pc| == threads
  {
  }

  lemma UntouchedSound(s: State)
    requires Untouched(s)
    ensures Bounded(s) && Sound(s)
  {
  }

  // ----- Nothing is ever popped: the cursors never come round -----

  ghost predicate Unpopped(s: State) {
    s.popped == [] && forall t :: 0 <= t < |s.pc| ==> !Popping(s.pc[t])
  }

  lemma UnpoppedStep(s: State, t: nat, a: Action)
    requires Bounded(s) && Unpopped(s) && t < |s.pc| && !a.CallPop?
    ensures Unpopped(Step(s, t, a))
  {
    Moves(s, t, a);
    assert !Popping(s.pc[t]);
  }

  lemma UnpoppedClean(s: State, t: nat)
    requires Inv(s) && Unpopped(s) && t < |s.pc|
    ensures !BadStep(s, t)
  {
    hide Slot, Values, Producers, Knows;
    assert !Popping(s.pc[t]);
    ShortWindow(s, t);
  }

  lemma {:induction false} UnpoppedRun(s: State, sched: Schedule, k: nat)
    requires Bounded(s) && Inv(s) && Unpopped(s) && Fits(sched, |s.pc|) && k <= |sched|
    requires forall j :: 0 <= j < |sched| ==> !sched[j].1.CallPop?
    ensures Inv(Run(s, sched[..k])) && Unpopped(Run(s, sched[..k]))
  {
    hide Bounded, Step, Inv, Unpopped, BadStep;
    if k > 0 {
      UnpoppedRun(s, sched, k - 1);
      RunOneMore(s, sched, k - 1);
      var m := Run(s, sched[..k - 1]);
      UnpoppedClean(m, sched[k - 1].0);
      StepInv(m, sched[k - 1].0, sched[k - 1].1);
      UnpoppedStep(m, sched[k - 1].0, sched[k - 1].1);
    }
  }

  lemma {:induction false} UnpoppedSafe(size: nat, who: Sides)
    requires 1 <= size && who.poppers == {}
    ensures SafeSides(size, who)
  {
    hide Bounded, Step, Inv, Sound, Unpopped;
    forall arr: seq<int>, threads: nat, sched: Schedule | |arr| == size && Fits(sched, threads) && Obeys(sched, who)
      ensures SoundRun(Init(arr, threads), sched)
    {
      var s := Init(arr, threads);
      InitInv(arr, threads);
      assert Unpopped(s) && |s.pc| == threads by { InitUnpopped(arr, threads); }
      assert forall j :: 0 <= j < |sched| ==> Allowed(sched[j].0, sched[j].1, who);
      forall k | 0 <= k <= |sched|
        ensures Sound(Run(s, sched[..k]))
      {
        UnpoppedRun(s, sched, k);
        InvBounded(Run(s, sched[..k]));
      }
    }
  }

  lemma InitUnpopped(arr: seq<int>, threads: nat)
    requires 1 <= |arr|
    ensures Unpopped(Init(arr, threads)) && |Init(arr, threads).pc| == threads
  {
  }

  // ----- One thread on each side -----

  lemma OneMember(p: nat, ps: set<nat>)
    requires |ps| == 1 && p in ps
    ensures ps == {p}
  {
    assert |ps - {p}| == 0;
  }

  lemma {:induction false} OneEachSafe(size: nat, who: Sides)
    requires 1 <= size && |who.pushers| == 1 && |who.poppers| == 1
    ensures SafeSides(size, who)
  {
    hide Bounded, Step, SoundRun, CleanRun;
    var p :| p in who.pushers;
    var q :| q in who.poppers;
    OneMember(p, who.pushers);
    OneMember(q, who.poppers);
    forall arr: seq<int>, threads: nat, sched: Schedule | |arr| == size && Fits(sched, threads) && Obeys(sched, who)
      ensures SoundRun(Init(arr, threads), sched)
    {
      assert forall j :: 0 <= j < |sched| ==> Allowed(sched[j].0, sched[j].1, who);
      OneEachIsSound(arr, threads, sched, p, q);
    }
  }

  // ----- A second thread on a side -----

  // A member other than x.
  lemma OtherMember(ps: set<nat>, x: nat) returns (p: nat)
    requires |ps| >= 2
    ensures p in ps && p != x
  {
    assert |ps - {x}| >= 1;
    p :| p in ps - {x};
  }

  lemma {:induction false} UnsoundUnsafe(size: nat, who: Sides, arr: seq<int>, threads: nat, sched: Schedule)
    requires 1 <= size == |arr| && Fits(sched, threads) && Obeys(sched, who)
    requires !Sound(Run(Init(arr, threads), sched))
    ensures !SafeSides(size, who)
  {
    hide Bounded, Step, Sound;
    assert sched[..|sched|] == sched;
    assert !SoundRun(Init(arr, threads), sched);
  }

  lemma {:induction false} TwoPoppersUnsafe(size: nat, who: Sides)
    requires 2 <= size && who.pushers != {} && |who.poppers| >= 2
    ensures !SafeSides(size, who)
  {
    hide Bounded, Step, Sound, SafeSides, Obeys;
    var p :| p in who.pushers;
    var t := OtherMember(who.poppers, p);
    var q := OtherMember(who.poppers, t);
    var arr, threads := seq(size, i => 0), t + p + q + 1;
    LappedPopRepeatsValue(arr, threads, who, t, p, q);
    var sched: Schedule :| Fits(sched, threads) && Obeys(sched, who) && !Sound(Run(Init(arr, threads), sched));
    UnsoundUnsafe(size, who, arr, threads, sched);
  }

  lemma {:induction false} TwoPushersUnsafe(size: nat, who: Sides)
    requires 2 <= size && who.poppers != {} && |who.pushers| >= 2
    ensures !SafeSides(size, who)
  {
    hide Bounded, Step, Sound, SafeSides, Obeys;
    var q :| q in who.poppers;
    var t := OtherMember(who.pushers, q);
    var p := OtherMember(who.pushers, t);
    var arr, threads := seq(size, i => 0), t + p + q + 1;
    LappedPushHidesValues(arr, threads, who, t, p, q);
    var sched: Schedule :| Fits(sched, threads) && Obeys(sched, who) && !Sound(Run(Init(arr, threads), sched));
    UnsoundUnsafe(size, who, arr, threads, sched);
  }

  /** For a ring of any size and any threads allowed to push and to pop: all runs are sound (the
      cursors in order, published slots holding their values, pops a prefix of pushes) if and only
      if the ring has one slot, nobody pushes, nobody pops, or there is one thread on each side. */
  lemma {:induction false} SafeSidesIff(size: nat, who: Sides)
    requires 1 <= size
    ensures SafeSides(size, who) <==>
              size == 1 || who.pushers == {} || who.poppers == {} || (|who.pushers| == 1 && |who.poppers| == 1)
  {
    hide SafeSides;
    if size == 1 || who.pushers == {} {
      UntouchedSafe(size, who);
    } else if who.poppers == {} {
      UnpoppedSafe(size, who);
    } else if |who.pushers| == 1 && |who.poppers| == 1 {
      OneEachSafe(size, who);
    } else if |who.poppers| >= 2 {
      TwoPoppersUnsafe(size, who);
    } else {
      TwoPushersUnsafe(size, who);
    }
  }
}

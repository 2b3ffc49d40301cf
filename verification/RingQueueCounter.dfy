/**
  Laps do happen: on a ring of any size from 2 on, a second thread on either side can stall at
  its compare-and-swap while the ring goes round, and succeed.
 */
module RingQueueCounter {
  import opened RingQueue
  import opened RingQueueSound
  import opened RingQueueTheorems

  // Who may push and who may pop.
  datatype Sides = Sides(pushers: set<nat>, poppers: set<nat>)

  predicate Allowed(t: nat, a: Action, who: Sides) {
    (a.CallPush? ==> t in who.pushers) && (a.CallPop? ==> t in who.poppers)
  }

  predicate Obeys(sched: Schedule, who: Sides) {
    forall k :: 0 <= k < |sched| ==> Allowed(sched[k].0, sched[k].1, who)
  }

  // Some run of these threads, without a bad step if `clean`, leads to s.
  ghost predicate Reachable(init: State, s: State, who: Sides, clean: bool)
    requires Bounded(init)
  {
    exists sched: Schedule ::
      Fits(sched, |init.pc|) && Obeys(sched, who) && Run(init, sched) == s && (clean ==> CleanRun(init, sched))
  }

  lemma InitReachable(init: State, who: Sides, clean: bool)
    requires Bounded(init)
    ensures Reachable(init, init, who, clean)
  {
    assert Run(init, []) == init;
  }

  lemma ReachStep(init: State, s: State, who: Sides, clean: bool, t: nat, a: Action)
    requires Bounded(init) && Reachable(init, s, who, clean) && Bounded(s) && t < |s.pc| == |init.pc| && Allowed(t, a, who)
    requires clean ==> !BadStep(s, t)
    ensures Reachable(init, Step(s, t, a), who, clean)
  {
    hide Bounded, Step, BadStep;
    var sched: Schedule :| Fits(sched, |init.pc|) && Obeys(sched, who) && Run(init, sched) == s && (clean ==> CleanRun(init, sched));
    var more := sched + [(t, a)];
    assert more[..|sched|] == sched;
    assert forall k :: 0 <= k <= |sched| ==> more[..k] == sched[..k];
    assert Run(init, more) == Step(s, t, a);
  }

  // ----- Uninterrupted calls -----

  function AfterPush(s: State, t: nat, v: int): (r: State)
    requires Bounded(s) && t < |s.pc|
    ensures Bounded(r)
  {
    var w := Next(s.write, |s.arr|);
    s.(arr := s.arr[s.write := v], write := w, maxRead := w, pc := s.pc[t := Idle(Pushed)],
       pushed := s.pushed + [v], owner := s.owner + [t], published := s.published + 1)
  }

  lemma ReachPush(init: State, s: State, who: Sides, clean: bool, t: nat, v: int)
    requires Bounded(init) && Reachable(init, s, who, clean) && Bounded(s) && t < |s.pc| == |init.pc|
    requires t in who.pushers && s.pc[t].Idle? && s.maxRead == s.write && Next(s.write, |s.arr|) != s.read
    requires clean ==> |s.pushed| + 1 != |s.popped| + |s.arr|
    ensures Reachable(init, AfterPush(s, t, v), who, clean)
  {
    hide Reachable;
    var s1 := Step(s, t, CallPush(v));
    var s2 := Step(s1, t, Go);
    assert s2 == Goto(s, t, PushCheck(v, s.write, |s.pushed|));
    var s3 := Step(s2, t, Go);
    assert s3 == Goto(s, t, PushCas(v, s.write, |s.pushed|));
    var s4 := Step(s3, t, Go);
    var s5 := Step(s4, t, Go);
    var s6 := Step(s5, t, Go);
    assert s6 == AfterPush(s, t, v);
    ReachStep(init, s, who, clean, t, CallPush(v));
    ReachStep(init, s1, who, clean, t, Go);
    ReachStep(init, s2, who, clean, t, Go);
    ReachStep(init, s3, who, clean, t, Go);
    ReachStep(init, s4, who, clean, t, Go);
    ReachStep(init, s5, who, clean, t, Go);
  }

  // A thread that has called Push and has found room.
  function AboutToPush(s: State, t: nat, v: int): (r: State)
    requires Bounded(s) && t < |s.pc|
    ensures Bounded(r)
  {
    Goto(s, t, PushCas(v, s.write, |s.pushed|))
  }

  lemma ReachAboutToPush(init: State, s: State, who: Sides, clean: bool, t: nat, v: int)
    requires Bounded(init) && Reachable(init, s, who, clean) && Bounded(s) && t < |s.pc| == |init.pc|
    requires t in who.pushers && s.pc[t].Idle? && Next(s.write, |s.arr|) != s.read
    ensures Reachable(init, AboutToPush(s, t, v), who, clean)
  {
    hide Reachable;
    var s1 := Step(s, t, CallPush(v));
    var s2 := Step(s1, t, Go);
    assert s2 == Goto(s, t, PushCheck(v, s.write, |s.pushed|));
    var s3 := Step(s2, t, Go);
    assert s3 == AboutToPush(s, t, v);
    ReachStep(init, s, who, clean, t, CallPush(v));
    ReachStep(init, s1, who, clean, t, Go);
    ReachStep(init, s2, who, clean, t, Go);
  }

  // A thread that has called Pop and has read the value at read_.
  function AboutToPop(s: State, t: nat): (r: State)
    requires Bounded(s) && t < |s.pc|
    ensures Bounded(r)
  {
    Goto(s, t, PopCas(s.read, s.arr[s.read], |s.popped|))
  }

  lemma ReachAboutToPop(init: State, s: State, who: Sides, clean: bool, t: nat)
    requires Bounded(init) && Reachable(init, s, who, clean) && Bounded(s) && t < |s.pc| == |init.pc|
    requires t in who.poppers && s.pc[t].Idle? && s.read != s.maxRead
    ensures Reachable(init, AboutToPop(s, t), who, clean)
  {
    hide Reachable;
    var s1 := Step(s, t, CallPop);
    var s2 := Step(s1, t, Go);
    assert s2 == Goto(s, t, PopCheck(s.read, |s.popped|));
    var s3 := Step(s2, t, Go);
    var s4 := Step(s3, t, Go);
    assert s4 == AboutToPop(s, t);
    ReachStep(init, s, who, clean, t, CallPop);
    ReachStep(init, s1, who, clean, t, Go);
    ReachStep(init, s2, who, clean, t, Go);
    ReachStep(init, s3, who, clean, t, Go);
  }

  function AfterPop(s: State, t: nat): (r: State)
    requires Bounded(s) && t < |s.pc|
    ensures Bounded(r)
  {
    var v := s.arr[s.read];
    s.(read := Next(s.read, |s.arr|), popped := s.popped + [v], pc := s.pc[t := Idle(Popped(v))])
  }

  lemma ReachPop(init: State, s: State, who: Sides, clean: bool, t: nat)
    requires Bounded(init) && Reachable(init, s, who, clean) && Bounded(s) && t < |s.pc| == |init.pc|
    requires t in who.poppers && s.pc[t].Idle? && s.read != s.maxRead
    requires clean ==> |s.popped| != s.published
    ensures Reachable(init, AfterPop(s, t), who, clean)
  {
    hide Reachable;
    ReachAboutToPop(init, s, who, clean, t);
    ReachStep(init, AboutToPop(s, t), who, clean, t, Go);
    assert Step(AboutToPop(s, t), t, Go) == AfterPop(s, t);
  }

  // ----- Rings on which no operation is half done, but for parked threads -----

  ghost predicate Settled(s: State)
    requires Bounded(s)
  {
    && |s.popped| <= |s.pushed| == s.published < |s.popped| + |s.arr|
    && s.read == Slot(|s.popped|, |s.arr|)
    && s.write == s.maxRead == Slot(|s.pushed|, |s.arr|)
  }

  lemma PushSettled(init: State, s: State, who: Sides, clean: bool, t: nat, v: int) returns (r: State)
    requires Bounded(init) && Reachable(init, s, who, clean) && Bounded(s) && t < |s.pc| == |init.pc|
    requires t in who.pushers && s.pc[t].Idle? && Settled(s) && |s.pushed| + 1 < |s.popped| + |s.arr|
    ensures r == AfterPush(s, t, v) && Reachable(init, r, who, clean) && Settled(r)
  {
    hide Reachable, Slot, Next;
    SlotNext(|s.pushed|, |s.arr|);
    assert Next(s.write, |s.arr|) != s.read by {
      if Slot(|s.pushed| + 1, |s.arr|) == Slot(|s.popped|, |s.arr|) {
        SlotInjective(|s.popped|, |s.pushed| + 1, |s.arr|);
      }
    }
    ReachPush(init, s, who, clean, t, v);
    r := AfterPush(s, t, v);
  }

  lemma PopSettled(init: State, s: State, who: Sides, clean: bool, t: nat) returns (r: State)
    requires Bounded(init) && Reachable(init, s, who, clean) && Bounded(s) && t < |s.pc| == |init.pc|
    requires t in who.poppers && s.pc[t].Idle? && Settled(s) && |s.popped| < |s.pushed|
    ensures r == AfterPop(s, t) && Reachable(init, r, who, clean) && Settled(r)
  {
    hide Reachable, Slot, Next;
    SlotNext(|s.popped|, |s.arr|);
    assert s.maxRead != s.read by {
      if Slot(|s.pushed|, |s.arr|) == Slot(|s.popped|, |s.arr|) {
        SlotInjective(|s.popped|, |s.pushed|, |s.arr|);
      }
    }
    ReachPop(init, s, who, clean, t);
    r := AfterPop(s, t);
  }

  // ----- A lapped pop -----

  // Thread t is about to pop the value 0 of slot 0, and the ring holds the value k alone.
  ghost predicate PopParked(s: State, t: nat, p: nat, q: nat, k: nat) {
    && Bounded(s) && Settled(s)
    && t < |s.pc| && p < |s.pc| && q < |s.pc| && t != p && t != q
    && s.pc[t] == PopCas(0, 0, 0) && s.pc[p].Idle? && s.pc[q].Idle?
    && |s.popped| == k && |s.pushed| == k + 1 && s.popped == s.pushed[..k]
    && (forall i :: 0 <= i <= k ==> s.pushed[i] == i)
    && s.arr[s.read] == k
  }

  lemma ParkPop(init: State, who: Sides, t: nat, p: nat, q: nat) returns (s: State)
    requires 2 <= |init.arr| && init == Init(init.arr, |init.pc|) && t < |init.pc| && p < |init.pc| && q < |init.pc|
    requires t in who.poppers && p in who.pushers && t != p && t != q
    ensures PopParked(s, t, p, q, 0) && Reachable(init, s, who, false) && |s.pc| == |init.pc| && |s.arr| == |init.arr|
  {
    hide Reachable;
    InitReachable(init, who, false);
    s := PushSettled(init, init, who, false, p, 0);
    ReachAboutToPop(init, s, who, false, t);
    s := AboutToPop(s, t);
  }

  lemma RoundPop(init: State, s: State, who: Sides, t: nat, p: nat, q: nat, k: nat) returns (r: State)
    requires Bounded(init) && Reachable(init, s, who, false) && PopParked(s, t, p, q, k) && |s.pc| == |init.pc| && 2 <= |s.arr|
    requires p in who.pushers && q in who.poppers
    ensures PopParked(r, t, p, q, k + 1) && Reachable(init, r, who, false) && |r.pc| == |s.pc| && |r.arr| == |s.arr|
  {
    hide Reachable, Slot, Next;
    var m := PopSettled(init, s, who, false, q);
    r := PushSettled(init, m, who, false, p, k + 1);
    assert m.popped == s.popped + [k] && m.pushed == s.pushed && m.arr == s.arr;
    assert r.popped == r.pushed[..k + 1];
  }

  lemma {:induction false} PopLapped(init: State, who: Sides, t: nat, p: nat, q: nat, k: nat) returns (s: State)
    requires 2 <= |init.arr| && init == Init(init.arr, |init.pc|) && t < |init.pc| && p < |init.pc| && q < |init.pc|
    requires t in who.poppers && p in who.pushers && q in who.poppers && t != p && t != q
    ensures PopParked(s, t, p, q, k) && Reachable(init, s, who, false) && |s.pc| == |init.pc| && |s.arr| == |init.arr|
    decreases k
  {
    hide Reachable, PopParked;
    if k == 0 {
      s := ParkPop(init, who, t, p, q);
    } else {
      var m := PopLapped(init, who, t, p, q, k - 1);
      s := RoundPop(init, m, who, t, p, q, k - 1);
    }
  }

  /** On a ring of any size from 2 on: with two poppers, one of them can pop the first value a
      second time, in place of the value that is in the ring, which is lost. */
  lemma {:induction false} LappedPopRepeatsValue(arr: seq<int>, threads: nat, who: Sides, t: nat, p: nat, q: nat)
    requires 2 <= |arr| && t < threads && p < threads && q < threads
    requires t in who.poppers && p in who.pushers && q in who.poppers && t != p && t != q
    ensures exists sched: Schedule :: Fits(sched, threads) && Obeys(sched, who) && var s := Run(Init(arr, threads), sched);
              && |s.pushed| == |arr| + 1 && (forall i :: 0 <= i <= |arr| ==> s.pushed[i] == i)
              && s.popped == s.pushed[..|arr|] + [0] && t < |s.pc| && s.pc[t] == Idle(Popped(0)) && !Sound(s)
  {
    hide Reachable, Slot, Next;
    var init := Init(arr, threads);
    var s := PopLapped(init, who, t, p, q, |arr|);
    assert s.read == 0 by { SlotLap(0, |arr|); assert Slot(0, |arr|) == 0 by { ZeroSlot(|arr|); } }
    ReachStep(init, s, who, false, t, Go);
    var r := Step(s, t, Go);
    assert r.popped == s.popped + [0] && r.pushed == s.pushed;
    assert r.pushed[..|r.popped|] == r.pushed;
    assert r.popped[|arr|] != r.pushed[|arr|];
    Reached(init, r, who);
  }

  lemma ZeroSlot(size: nat)
    requires 1 <= size
    ensures Slot(0, size) == 0
  {
  }

  lemma Reached(init: State, s: State, who: Sides)
    requires Bounded(init) && Reachable(init, s, who, false)
    ensures exists sched: Schedule :: Fits(sched, |init.pc|) && Obeys(sched, who) && Run(init, sched) == s
  {
  }

  // ----- A lapped push -----

  // Thread t is about to reserve slot 0 for the first time, one value was popped since, and k
  // values are in the ring.
  ghost predicate PushParked(s: State, t: nat, p: nat, q: nat, k: nat) {
    && Bounded(s) && Settled(s)
    && t < |s.pc| && p < |s.pc| && q < |s.pc| && t != p && t != q
    && s.pc[t] == PushCas(0, 0, 0) && s.pc[p].Idle? && s.pc[q].Idle?
    && |s.popped| == 1 && |s.pushed| == 1 + k
  }

  lemma ParkPush(init: State, who: Sides, t: nat, p: nat, q: nat) returns (s: State)
    requires 2 <= |init.arr| && init == Init(init.arr, |init.pc|) && t < |init.pc| && p < |init.pc| && q < |init.pc|
    requires t in who.pushers && p in who.pushers && q in who.poppers && t != p && t != q
    ensures PushParked(s, t, p, q, 0) && Reachable(init, s, who, false) && |s.pc| == |init.pc| && |s.arr| == |init.arr|
  {
    hide Reachable;
    InitReachable(init, who, false);
    ReachAboutToPush(init, init, who, false, t, 0);
    s := AboutToPush(init, t, 0);
    s := PushSettled(init, s, who, false, p, 1);
    s := PopSettled(init, s, who, false, q);
  }

  lemma {:induction false} PushLapped(init: State, who: Sides, t: nat, p: nat, q: nat, k: nat) returns (s: State)
    requires 2 <= |init.arr| && init == Init(init.arr, |init.pc|) && t < |init.pc| && p < |init.pc| && q < |init.pc|
    requires t in who.pushers && p in who.pushers && q in who.poppers && t != p && t != q && k < |init.arr|
    ensures PushParked(s, t, p, q, k) && Reachable(init, s, who, false) && |s.pc| == |init.pc| && |s.arr| == |init.arr|
    decreases k
  {
    hide Reachable, Slot, Next;
    if k == 0 {
      s := ParkPush(init, who, t, p, q);
    } else {
      var m := PushLapped(init, who, t, p, q, k - 1);
      s := PushSettled(init, m, who, false, p, k);
    }
  }

  // The parked thread reserves a slot of the full ring, stores and publishes.
  lemma LappedPushFinishes(init: State, who: Sides, t: nat, p: nat, q: nat) returns (s: State)
    requires 2 <= |init.arr| && init == Init(init.arr, |init.pc|) && t < |init.pc| && p < |init.pc| && q < |init.pc|
    requires t in who.pushers && p in who.pushers && q in who.poppers && t != p && t != q
    ensures Bounded(s) && Reachable(init, s, who, false) && |s.pc| == |init.pc| && |s.arr| == |init.arr|
    ensures s.pc[t] == Idle(Pushed) && s.pc[q].Idle? && s.read == s.maxRead
    ensures |s.pushed| == s.published == |s.arr| + 1 && |s.popped| == 1
  {
    hide Reachable, Slot, Next;
    var size := |init.arr|;
    var m := PushLapped(init, who, t, p, q, size - 1);
    ZeroSlot(size);
    SlotLap(0, size);
    SlotNext(0, size);
    ReachStep(init, m, who, false, t, Go);
    var m1 := Step(m, t, Go);
    assert m1.pc[t] == PushStore(0, 0, size);
    ReachStep(init, m1, who, false, t, Go);
    var m2 := Step(m1, t, Go);
    ReachStep(init, m2, who, false, t, Go);
    s := Step(m2, t, Go);
  }

  /** On a ring of any size from 2 on: with two pushers, all of |arr| published values can be
      hidden behind the answer "empty". */
  lemma {:induction false} LappedPushHidesValues(arr: seq<int>, threads: nat, who: Sides, t: nat, p: nat, q: nat)
    requires 2 <= |arr| && t < threads && p < threads && q < threads
    requires t in who.pushers && p in who.pushers && q in who.poppers && t != p && t != q
    ensures exists sched: Schedule :: Fits(sched, threads) && Obeys(sched, who) && var s := Run(Init(arr, threads), sched);
              && |s.pushed| == s.published == |arr| + 1 && |s.popped| == 1
              && q < |s.pc| && SaysEmpty(s, q) && !Sound(s)
  {
    hide Reachable, Slot, Next;
    var init := Init(arr, threads);
    var s := LappedPushFinishes(init, who, t, p, q);
    ReachStep(init, s, who, false, q, CallPop);
    var s1 := Step(s, q, CallPop);
    ReachStep(init, s1, who, false, q, Go);
    var s2 := Step(s1, q, Go);
    assert s2.pc[q] == PopCheck(s.read, 1) && s2.maxRead == s.read;
    assert SaysEmpty(s2, q);
    Reached(init, s2, who);
  }
}

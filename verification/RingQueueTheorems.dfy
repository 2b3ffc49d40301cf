/** What the ring queue promises without laps, to a single pusher and to a single popper. */
module RingQueueTheorems {
  import opened RingQueue
  import opened RingQueueSound

  // ----- Less than a lap between reading a cursor and moving it -----

  lemma ShortWindow(s: State, t: nat)
    requires Inv(s) && t < |s.pc| && !Lapped(s, t)
    ensures !BadStep(s, t)
  {
    hide Slot, Producers;
    var c := s.pc[t];
    assert Knows(s, c);
    if c.PushCas? && s.write == c.w {
      SlotInjective(c.at, |s.pushed|, |s.arr|);
    } else if c.PopCas? && s.read == c.r {
      SlotInjective(c.at, |s.popped|, |s.arr|);
      assert s.arr[Slot(c.at, |s.arr|)] == s.pushed[c.at];
    }
  }

  ghost predicate NoLaps(s: State, sched: Schedule)
    requires Bounded(s) && Fits(sched, |s.pc|)
  {
    forall k :: 0 <= k < |sched| ==> !Lapped(Run(s, sched[..k]), sched[k].0)
  }

  lemma {:induction false} NoLapsInv(s: State, sched: Schedule, k: nat)
    requires Bounded(s) && Inv(s) && Fits(sched, |s.pc|) && NoLaps(s, sched) && k <= |sched|
    ensures Inv(Run(s, sched[..k]))
  {
    hide Bounded, Step, Inv, BadStep, Lapped;
    if k > 0 {
      NoLapsInv(s, sched, k - 1);
      RunOneMore(s, sched, k - 1);
      ShortWindow(Run(s, sched[..k - 1]), sched[k - 1].0);
      StepInv(Run(s, sched[..k - 1]), sched[k - 1].0, sched[k - 1].1);
    }
  }

  /** If the ring never goes all the way round between a thread's read of a cursor and its
      successful compare-and-swap, every state is sound: read <= maxRead <= write < read + size
      in unwrapped cursors, published slots hold their values, pops are a prefix of the pushes. */
  lemma {:induction false} NoLapsIsSound(arr: seq<int>, threads: nat, sched: Schedule)
    requires 1 <= |arr| && Fits(sched, threads) && NoLaps(Init(arr, threads), sched)
    ensures SoundRun(Init(arr, threads), sched)
  {
    hide Bounded, Step, Inv, Sound, Lapped;
    var s := Init(arr, threads);
    InitInv(arr, threads);
    forall k | 0 <= k <= |sched|
      ensures Sound(Run(s, sched[..k]))
    {
      NoLapsInv(s, sched, k);
      InvBounded(Run(s, sched[..k]));
    }
  }

  // ----- Publication -----

  // What publishes the slot at maxRead_: the store, if it is still due, and then the CAS.
  function Publish(s: State, t: nat): (r: State)
    requires Bounded(s) && t < |s.pc| && Producing(s.pc[t])
  {
    if s.pc[t].PushStore? then Step(Step(s, t, Go), t, Go) else Step(s, t, Go)
  }

  // The producer that every other one is waiting for.
  ghost predicate NextPublisher(s: State, t: nat)
    requires Bounded(s)
  {
    && t < |s.pc| && Producing(s.pc[t])
    && Publish(s, t).published == s.published + 1
    && (forall u :: 0 <= u < |s.pc| && u != t && s.pc[u].PushPublish? ==> Step(s, u, Go) == s)
  }

  lemma OwnerPublishes(s: State)
    requires Inv(s) && s.published < |s.pushed|
    ensures NextPublisher(s, s.owner[s.published])
  {
    hide Slot, Next, Values, Knows;
    var t := s.owner[s.published];
    assert Owns(s, s.pc[t], t);
    forall u | 0 <= u < |s.pc| && u != t && s.pc[u].PushPublish?
      ensures Step(s, u, Go) == s
    {
      PublishesNext(s, u);
    }
  }

  /** Whenever a reserved slot is unpublished, exactly one producer in flight owns the slot at
      maxRead_: all other publications wait, and its own succeeds as soon as it has stored. */
  lemma {:induction false} SomeProducerPublishes(arr: seq<int>, threads: nat, sched: Schedule)
    requires 1 <= |arr| && Fits(sched, threads) && CleanRun(Init(arr, threads), sched)
    ensures var s := Run(Init(arr, threads), sched);
      s.published < |s.pushed| ==> |s.owner| == |s.pushed| && NextPublisher(s, s.owner[s.published])
  {
    hide Bounded, Step, BadStep, Publish, NextPublisher, Values, Producers, Knows;
    InitInv(arr, threads);
    CleanInv(Init(arr, threads), sched, |sched|);
    assert sched[..|sched|] == sched;
    var s := Run(Init(arr, threads), sched);
    if s.published < |s.pushed| { OwnerPublishes(s); }
  }

  // ----- A single pusher, a single popper -----

  predicate Pushing(c: Pc) { c.PushRead? || c.PushCheck? || c.PushCas? || c.PushStore? || c.PushPublish? }

  predicate Popping(c: Pc) { c.PopRead? || c.PopCheck? || c.PopTake? || c.PopCas? }

  predicate OnlyPusher(sched: Schedule, p: nat) {
    forall k :: 0 <= k < |sched| && sched[k].1.CallPush? ==> sched[k].0 == p
  }

  predicate OnlyPopper(sched: Schedule, p: nat) {
    forall k :: 0 <= k < |sched| && sched[k].1.CallPop? ==> sched[k].0 == p
  }

  ghost predicate PushesAlone(s: State, p: nat) {
    forall t :: 0 <= t < |s.pc| && Pushing(s.pc[t]) ==>
      t == p && (s.pc[t].PushCheck? || s.pc[t].PushCas? ==> s.pc[t].at == |s.pushed|)
  }

  ghost predicate PopsAlone(s: State, p: nat) {
    forall t :: 0 <= t < |s.pc| && Popping(s.pc[t]) ==>
      t == p && (s.pc[t].PopCheck? || s.pc[t].PopTake? || s.pc[t].PopCas? ==> s.pc[t].at == |s.popped|)
  }

  lemma PushesAloneStep(s: State, t: nat, a: Action, p: nat)
    requires Bounded(s) && t < |s.pc| && PushesAlone(s, p) && (a.CallPush? ==> t == p)
    ensures PushesAlone(Step(s, t, a), p)
  {
  }

  lemma PopsAloneStep(s: State, t: nat, a: Action, p: nat)
    requires Bounded(s) && t < |s.pc| && PopsAlone(s, p) && (a.CallPop? ==> t == p)
    ensures PopsAlone(Step(s, t, a), p)
  {
  }

  lemma {:induction false} PushesAloneRun(s: State, sched: Schedule, p: nat)
    requires Bounded(s) && Fits(sched, |s.pc|) && PushesAlone(s, p) && OnlyPusher(sched, p)
    ensures PushesAlone(Run(s, sched), p)
  {
    hide Bounded, Step, PushesAlone;
    if sched != [] {
      var k := |sched| - 1;
      PushesAloneRun(s, sched[..k], p);
      PushesAloneStep(Run(s, sched[..k]), sched[k].0, sched[k].1, p);
    }
  }

  lemma {:induction false} PopsAloneRun(s: State, sched: Schedule, p: nat)
    requires Bounded(s) && Fits(sched, |s.pc|) && PopsAlone(s, p) && OnlyPopper(sched, p)
    ensures PopsAlone(Run(s, sched), p)
  {
    hide Bounded, Step, PopsAlone;
    if sched != [] {
      var k := |sched| - 1;
      PopsAloneRun(s, sched[..k], p);
      PopsAloneStep(Run(s, sched[..k]), sched[k].0, sched[k].1, p);
    }
  }

  // The next step of thread t, wherever it is in its call, answers "full", or "empty".
  predicate SaysFull(s: State, t: nat)
    requires Bounded(s) && t < |s.pc|
  {
    !s.pc[t].Idle? && Step(s, t, Go).pc[t] == Idle(Full)
  }

  predicate SaysEmpty(s: State, t: nat)
    requires Bounded(s) && t < |s.pc|
  {
    !s.pc[t].Idle? && Step(s, t, Go).pc[t] == Idle(Empty)
  }

  lemma AnswersAtCheck(s: State, t: nat)
    requires Bounded(s) && t < |s.pc|
    ensures SaysFull(s, t) ==> s.pc[t].PushCheck?
    ensures SaysEmpty(s, t) ==> s.pc[t].PopCheck?
  {
  }

  lemma FullIsFull(s: State, p: nat)
    requires Inv(s) && PushesAlone(s, p) && p < |s.pc| && s.pc[p].PushCheck?
    ensures SaysFull(s, p) <==> |s.pushed| + 1 == |s.popped| + |s.arr|
  {
    hide Slot, Next, Values, Producers;
    assert Knows(s, s.pc[p]) && s.pc[p].at == |s.pushed|;
    SlotNext(|s.pushed|, |s.arr|);
    SlotLap(|s.popped|, |s.arr|);
    if SaysFull(s, p) && |s.pushed| + 1 < |s.popped| + |s.arr| {
      SlotInjective(|s.popped|, |s.pushed| + 1, |s.arr|);
    }
  }

  lemma EmptyIsEmpty(s: State, p: nat)
    requires Inv(s) && PopsAlone(s, p) && p < |s.pc| && s.pc[p].PopCheck?
    ensures SaysEmpty(s, p) <==> |s.popped| == s.published
  {
    hide Slot, Next, Values, Producers;
    assert Knows(s, s.pc[p]) && s.pc[p].at == |s.popped|;
    if SaysEmpty(s, p) { SlotInjective(|s.popped|, s.published, |s.arr|); }
  }

  /** With a single pusher, on every clean run, Push says "full" only when the ring is full, and
      then does when it reads read_. */
  lemma {:induction false} FullAnswerIsRight(arr: seq<int>, threads: nat, sched: Schedule, p: nat)
    requires 1 <= |arr| && Fits(sched, threads) && OnlyPusher(sched, p) && p < threads
    requires CleanRun(Init(arr, threads), sched)
    ensures var s := Run(Init(arr, threads), sched);
      && p < |s.pc|
      && (SaysFull(s, p) ==> |s.pushed| + 1 == |s.popped| + |arr|)
      && (s.pc[p].PushCheck? && |s.pushed| + 1 == |s.popped| + |arr| ==> SaysFull(s, p))
  {
    hide Bounded, Step, Inv, BadStep, SaysFull;
    var i := Init(arr, threads);
    InitInv(arr, threads);
    CleanInv(i, sched, |sched|);
    assert sched[..|sched|] == sched;
    assert PushesAlone(i, p);
    PushesAloneRun(i, sched, p);
    AnswersAtCheck(Run(i, sched), p);
    if Run(i, sched).pc[p].PushCheck? { FullIsFull(Run(i, sched), p); }
  }

  /** With a single popper, on every clean run, Pop says "empty" only when nothing is published, and
      then does when it reads maxRead_. */
  lemma {:induction false} EmptyAnswerIsRight(arr: seq<int>, threads: nat, sched: Schedule, p: nat)
    requires 1 <= |arr| && Fits(sched, threads) && OnlyPopper(sched, p) && p < threads
    requires CleanRun(Init(arr, threads), sched)
    ensures var s := Run(Init(arr, threads), sched);
      && p < |s.pc|
      && (SaysEmpty(s, p) ==> |s.popped| == s.published)
      && (s.pc[p].PopCheck? && |s.popped| == s.published ==> SaysEmpty(s, p))
  {
    hide Bounded, Step, Inv, BadStep, SaysEmpty;
    var i := Init(arr, threads);
    InitInv(arr, threads);
    CleanInv(i, sched, |sched|);
    assert sched[..|sched|] == sched;
    assert PopsAlone(i, p);
    PopsAloneRun(i, sched, p);
    AnswersAtCheck(Run(i, sched), p);
    if Run(i, sched).pc[p].PopCheck? { EmptyIsEmpty(Run(i, sched), p); }
  }

  // Alone on one side, a thread's cursor does not move under it.
  lemma AloneNoLap(s: State, t: nat, p: nat, q: nat)
    requires Bounded(s) && 1 <= |s.arr| && t < |s.pc| && PushesAlone(s, p) && PopsAlone(s, q)
    ensures !Lapped(s, t)
  {
  }

  lemma {:induction false} OnlyPrefix(sched: Schedule, k: nat, p: nat, q: nat)
    requires k <= |sched| && OnlyPusher(sched, p) && OnlyPopper(sched, q)
    ensures OnlyPusher(sched[..k], p) && OnlyPopper(sched[..k], q)
  {
  }

  /** One pusher and one popper need no premise: every run is sound and clean, so both answers
      are right as well. */
  lemma {:induction false} OneEachIsSound(arr: seq<int>, threads: nat, sched: Schedule, p: nat, q: nat)
    requires 1 <= |arr| && Fits(sched, threads) && OnlyPusher(sched, p) && OnlyPopper(sched, q)
    ensures SoundRun(Init(arr, threads), sched) && CleanRun(Init(arr, threads), sched)
  {
    hide Bounded, Step, PushesAlone, PopsAlone, Lapped, OnlyPusher, OnlyPopper, SoundRun, CleanRun;
    var s := Init(arr, threads);
    forall k | 0 <= k < |sched|
      ensures !Lapped(Run(s, sched[..k]), sched[k].0)
    {
      OnlyPrefix(sched, k, p, q);
      AloneAtFirst(arr, threads, p, q);
      PushesAloneRun(s, sched[..k], p);
      PopsAloneRun(s, sched[..k], q);
      AloneNoLap(Run(s, sched[..k]), sched[k].0, p, q);
    }
    NoLapsIsSound(arr, threads, sched);
    SoundIffClean(arr, threads, sched);
  }

  lemma AloneAtFirst(arr: seq<int>, threads: nat, p: nat, q: nat)
    requires 1 <= |arr|
    ensures PushesAlone(Init(arr, threads), p) && PopsAlone(Init(arr, threads), q)
  {
  }
}

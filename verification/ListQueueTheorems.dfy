/** What the linked queue promises, over every run from its constructor. */
module ListQueueTheorems {
  import opened NodeList
  import opened ListQueue
  import opened ListQueueInv
  import opened ListQueueSound
  import ListQueueOnePusher
  import ListQueueFresh
  import ListQueueTail

  // in_ is at the last node of the queue or exactly one before it; in particular it is in the
  // queue, so out_ has not passed it.
  ghost predicate TailAtEnd(s: State) {
    var queue := QueueNodes(s);
    queue != [] && s.inp.At? &&
    (s.inp.node == queue[|queue| - 1] || (|queue| >= 2 && s.inp.node == queue[|queue| - 2]))
  }

  lemma NearEndIsEnd(s: State)
    requires Inv(s) && ListQueueTail.NearEnd(s)
    ensures TailAtEnd(s)
  {
    QueueIsLinks(s);
  }

  // The pops are a prefix of the pushes, in the order of their compare-and-swaps.
  ghost predicate FifoPrefix(s: State) { s.hist.popped <= s.hist.pushed }

  // ----- One pusher, any number of poppers, any seed -----

  lemma {:induction false} OnePusherRun(s: State, sched: Schedule, p: nat)
    requires Bounded(s) && Fits(sched, |s.pc|) && ListQueueOnePusher.OnePusher(s, p) && ListQueueOnePusher.OnlyPusher(sched, p)
    ensures ListQueueOnePusher.OnePusher(Run(s, sched), p)
  {
    hide Step, Bounded, ListQueueOnePusher.OnePusher;
    if sched != [] {
      var k := |sched| - 1;
      OnePusherRun(s, sched[..k], p);
      ListQueueOnePusher.OnePusherStep(Run(s, sched[..k]), p, sched[k].0, sched[k].1);
    }
  }

  /** One pushing thread and any number of poppers: nothing is lost, duplicated or reordered and
      no node leaks, in every state of every run, whatever tag the releases start from. */
  lemma {:induction false} OnePusherIsSound(max: nat, seed: nat, data: seq<int>, threads: nat, sched: Schedule, p: nat)
    requires 1 <= max == |data| && Fits(sched, threads) && p < threads
    requires ListQueueOnePusher.OnlyPusher(sched, p)
    ensures var s := Run(Init(max, seed, data, threads), sched); Sound(s) && FifoPrefix(s) && TailAtEnd(s)
  {
    var s := Init(max, seed, data, threads);
    InitInv(max, seed, data, threads);
    assert forall t :: 0 <= t < threads ==> s.pc[t] == Idle(NoCall);
    OnePusherRun(s, sched, p);
    OnePusherEnd(Run(s, sched), p);
  }

  lemma OnePusherEnd(s: State, p: nat)
    requires ListQueueOnePusher.OnePusher(s, p)
    ensures Bounded(s) && Sound(s) && FifoPrefix(s) && TailAtEnd(s)
  {
    hide Sound, FifoPrefix, TailAtEnd, Sizes, Tags, Chain, FreeList, Holders, Logs, Knows, ListQueueOnePusher.PusherKnows;
    SizesBounded(s);
    InvSound(s);
    OnePusherTail(s, p);
    LogsPrefix(s);
  }

  lemma SizesBounded(s: State)
    requires Sizes(s)
    ensures Bounded(s)
  {
  }

  lemma OnePusherTail(s: State, p: nat)
    requires Sizes(s) && Chain(s) && p < |s.pc| && ListQueueOnePusher.PusherKnows(s, s.pc[p])
    ensures TailAtEnd(s)
  {
    hide PcOk, NoDup, QueueNodes;
    QueueIsLinks(s);
  }

  lemma LogsPrefix(s: State)
    requires Sizes(s) && Logs(s)
    ensures FifoPrefix(s)
  {
    hide PcOk;
  }

  // ----- Any number of pushers and poppers, fresh release tags -----

  ghost predicate NoStaleLink(s: State, sched: Schedule)
    requires Bounded(s) && Fits(sched, |s.pc|)
  {
    forall k :: 0 <= k < |sched| ==> !StaleLink(Run(s, sched[..k]), sched[k].0)
  }

  lemma {:induction false} FreshRun(s: State, sched: Schedule, k: nat)
    requires Bounded(s) && Fits(sched, |s.pc|) && k <= |sched| && Inv(s) && ListQueueFresh.Fresh(s)
    requires forall j :: 0 <= j < k ==> !StaleLink(Run(s, sched[..j]), sched[j].0)
    ensures var r := Run(s, sched[..k]); Inv(r) && ListQueueFresh.Fresh(r)
  {
    hide Bounded, Step, StaleLink, Inv, ListQueueFresh.Fresh;
    if k > 0 {
      FreshRun(s, sched, k - 1);
      RunOneMore(s, sched, k - 1);
      ListQueueFresh.FreshStep(Run(s, sched[..k - 1]), sched[k - 1].0, sched[k - 1].1);
    }
  }

  /** With fresh release tags a run is sound exactly when no link succeeds on a node that has
      left the queue. */
  lemma {:induction false} FreshSoundIff(max: nat, seed: nat, data: seq<int>, threads: nat, sched: Schedule)
    requires 1 <= max == |data| && max <= seed && Fits(sched, threads)
    ensures var s := Init(max, seed, data, threads); SoundRun(s, sched) <==> NoStaleLink(s, sched)
  {
    var s := Init(max, seed, data, threads);
    InitInv(max, seed, data, threads);
    ListQueueFresh.InitFresh(max, seed, data, threads);
    SoundIffClean(s, sched);
    if NoStaleLink(s, sched) { FreshIsClean(s, sched); }
  }

  lemma {:induction false} FreshIsClean(s: State, sched: Schedule)
    requires Bounded(s) && Fits(sched, |s.pc|) && Inv(s) && ListQueueFresh.Fresh(s) && NoStaleLink(s, sched)
    ensures CleanRun(s, sched)
  {
    hide Bounded, Step, StaleLink, StaleAlloc, Inv, ListQueueFresh.Fresh;
    forall k | 0 <= k < |sched|
      ensures !BadStep(Run(s, sched[..k]), sched[k].0)
    {
      FreshRun(s, sched, k);
      FreshNotStale(Run(s, sched[..k]), sched[k].0);
    }
  }

  lemma FreshNotStale(s: State, t: nat)
    requires Bounded(s) && Inv(s) && ListQueueFresh.Fresh(s) && t < |s.pc|
    ensures !StaleAlloc(s, t)
  {
    ListQueueFresh.FreshClean(s, t);
  }

  // ----- ... and no release of an observed tail -----

  ghost predicate KeepsObserved(s: State, sched: Schedule)
    requires Bounded(s) && Fits(sched, |s.pc|)
  {
    forall k :: 0 <= k < |sched| ==> !ListQueueTail.ReleasesObserved(Run(s, sched[..k]), sched[k].0)
  }

  ghost predicate Steady(s: State) { Inv(s) && ListQueueFresh.Fresh(s) && ListQueueTail.NearEnd(s) }

  lemma SteadyStep(s: State, t: nat, a: Action)
    requires Bounded(s) && Steady(s) && t < |s.pc| && !ListQueueTail.ReleasesObserved(s, t)
    ensures Steady(Step(s, t, a))
  {
    hide Step, ListQueueFresh.Fresh, ListQueueTail.NearEnd, ListQueueTail.ReleasesObserved;
    ListQueueTail.NearEndClean(s, t);
    FreshNotStale(s, t);
    ListQueueFresh.FreshStep(s, t, a);
    ListQueueTail.NearEndStep(s, t, a);
  }

  lemma {:induction false} SteadyRun(s: State, sched: Schedule, k: nat)
    requires Bounded(s) && Fits(sched, |s.pc|) && k <= |sched| && Steady(s) && KeepsObserved(s, sched)
    ensures Steady(Run(s, sched[..k]))
  {
    hide Bounded, Step, Steady, ListQueueTail.ReleasesObserved;
    if k > 0 {
      SteadyRun(s, sched, k - 1);
      RunOneMore(s, sched, k - 1);
      SteadyStep(Run(s, sched[..k - 1]), sched[k - 1].0, sched[k - 1].1);
    }
  }

  lemma SteadyEnd(s: State)
    requires Steady(s)
    ensures Bounded(s) && Sound(s) && FifoPrefix(s) && TailAtEnd(s)
  {
    InvSound(s);
    NearEndIsEnd(s);
  }

  /** Any number of pushers and poppers: with fresh release tags, and as long as no node is
      released while a pusher has it as its observed tail, every state of every run is sound,
      pops are a prefix of pushes, and in_ is at the last node or exactly one before it. */
  lemma {:induction false} ManyPushersAreSound(max: nat, seed: nat, data: seq<int>, threads: nat, sched: Schedule, k: nat)
    requires 1 <= max == |data| && max <= seed && Fits(sched, threads) && k <= |sched|
    requires KeepsObserved(Init(max, seed, data, threads), sched)
    ensures var s := Run(Init(max, seed, data, threads), sched[..k]); Sound(s) && FifoPrefix(s) && TailAtEnd(s)
  {
    hide Bounded, Step, Steady, Sound, FifoPrefix, TailAtEnd, ListQueueTail.ReleasesObserved;
    var s := Init(max, seed, data, threads);
    InitSteady(max, seed, data, threads);
    SteadyRun(s, sched, k);
    SteadyEnd(Run(s, sched[..k]));
  }

  lemma InitSteady(max: nat, seed: nat, data: seq<int>, threads: nat)
    requires 1 <= max == |data| && max <= seed
    ensures Steady(Init(max, seed, data, threads))
  {
    hide Inv, ListQueueFresh.Fresh;
    InitInv(max, seed, data, threads);
    ListQueueFresh.InitFresh(max, seed, data, threads);
    assert forall t :: 0 <= t < threads ==> Init(max, seed, data, threads).pc[t] == Idle(NoCall);
  }
}

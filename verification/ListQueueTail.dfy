/**
  If no node is released while a pusher has it as its observed tail, then no run has a stale
  link, and in_ is always the last node of the queue or the one before it.
 */
module ListQueueTail {
  import opened NodeList
  import opened ListQueue
  import opened ListQueueInv
  import opened ListQueueSound

  // The pusher has read in_ and is on its way to the compare-and-swap on that node's `next`.
  predicate Observes(c: Pc) { c.TailNext? || c.TailLink? }

  // ReleaseNode starts to reuse the `next` of a node that a pusher has as its observed tail.
  predicate ReleasesObserved(s: State, t: nat)
    requires t < |s.pc|
  {
    s.pc[t].RelStore? &&
    exists u :: 0 <= u < |s.pc| && Observes(s.pc[u]) && s.pc[u].tail.At? && s.pc[u].tail.node == s.pc[t].node
  }

  // The popper that took the node out of the queue has not touched its `next` yet.
  predicate Untouched(c: Pc) { c.RelId? || c.RelRead? || c.RelStore? }

  ghost predicate Anchored(s: State, tail: Ptr)
    requires Sizes(s)
  {
    && NodePtr(tail, |s.next|)
    && (match s.hist.place[tail.node]
        case InQueue(k) => s.hist.o <= k < |s.hist.link| && s.hist.link[k] == tail
        case HeldBy(w) => w < |s.pc| && Untouched(s.pc[w]) && s.next[tail.node] != Nil
        case InFree(_) => false)
  }

  ghost predicate NearEnd(s: State)
    requires Sizes(s)
  {
    && s.hist.i + 2 >= |s.hist.link|
    && (forall u :: 0 <= u < |s.pc| && Observes(s.pc[u]) ==> Anchored(s, s.pc[u].tail))
  }

  // An anchored tail whose `next` is null is the current in_ and the end of the queue.
  lemma AnchoredIsEnd(s: State, t: nat)
    requires Inv(s) && NearEnd(s) && t < |s.pc| && s.pc[t].TailLink? && s.next[s.pc[t].tail.node] == Nil
    ensures s.hist.place[s.pc[t].tail.node].InQueue? && s.hist.i == |s.hist.link| - 1 && s.inp == s.pc[t].tail
  {
    hide Tags, FreeList, Logs;
    var tail := s.pc[t].tail;
    LinkAtEnd(s, t);
    var j :| 0 <= j <= s.hist.i && j < |s.hist.link| && s.hist.link[j] == tail;
    assert s.hist.link[|s.hist.link| - 1] == tail;
    LastIsNew(s);
  }

  lemma LastIsNew(s: State)
    requires Sizes(s) && Tags(s)
    ensures forall k :: 0 <= k < |s.hist.link| - 1 ==> s.hist.link[k] != s.hist.link[|s.hist.link| - 1]
  {
  }

  lemma NearEndClean(s: State, t: nat)
    requires Inv(s) && NearEnd(s) && t < |s.pc|
    ensures !StaleLink(s, t)
  {
    if s.pc[t].TailLink? && s.next[s.pc[t].tail.node] == Nil {
      AnchoredIsEnd(s, t);
      QueueByPlace(s);
    }
  }

  // Nothing happens to the anchored node.
  ghost predicate Leaves(s: State, r: State, n: nat)
    requires Sizes(s) && Sizes(r) && n < |s.next|
  {
    && |r.next| == |s.next|
    && s.hist.link <= r.hist.link && s.hist.o <= r.hist.o
    && r.hist.place[n] == s.hist.place[n]
    && (s.hist.place[n].HeldBy? ==> s.hist.place[n].thread < |r.pc| && Untouched(r.pc[s.hist.place[n].thread]) && r.next[n] == s.next[n])
  }

  lemma AnchorStays(s: State, r: State, tail: Ptr)
    requires Sizes(s) && Chain(s) && Sizes(r) && Chain(r) && Anchored(s, tail) && Leaves(s, r, tail.node)
    ensures Anchored(r, tail)
  {
  }

  lemma AllocLeaves(s: State, t: nat, tail: Ptr)
    requires Sizes(s) && FreeList(s) && Holders(s) && Anchored(s, tail) && t < |s.pc| && IsAlloc(s.pc[t]) && Sizes(AllocStep(s, t))
    ensures Leaves(s, AllocStep(s, t), tail.node)
  {
    if s.pc[t].AllocCas? && s.head == s.pc[t].h {
      assert s.hist.place[s.head.node] == InFree(|s.hist.free| - 1);
    }
  }

  lemma PushLeaves(s: State, t: nat, tail: Ptr)
    requires Sizes(s) && Holders(s) && Anchored(s, tail) && t < |s.pc| && IsPush(s.pc[t]) && Sizes(PushStep(s, t))
    requires s.pc[t].TailLink? && s.next[s.pc[t].tail.node] == Nil ==> s.hist.place[s.pc[t].tail.node].InQueue?
    ensures Leaves(s, PushStep(s, t), tail.node)
  {
  }

  // Popping the anchored node keeps it anchored: its `next` is not null.
  lemma PopCasLeaves(s: State, t: nat, tail: Ptr)
    requires Sizes(s) && Chain(s) && Anchored(s, tail) && t < |s.pc| && s.pc[t].PopCas? && s.outp == s.pc[t].out
    requires Knows(s, s.pc[t]) && Sizes(PopStep(s, t)) && Chain(PopStep(s, t))
    ensures Anchored(PopStep(s, t), tail)
  {
    if tail.node == s.outp.node {
      ReadChain(s, s.hist.o);
    } else {
      AnchorStays(s, PopStep(s, t), tail);
    }
  }

  lemma PopLeaves(s: State, t: nat, tail: Ptr)
    requires Sizes(s) && Anchored(s, tail) && t < |s.pc| && IsPop(s.pc[t]) && Sizes(PopStep(s, t))
    requires !(s.pc[t].PopCas? && s.outp == s.pc[t].out)
    ensures Leaves(s, PopStep(s, t), tail.node)
  {
  }

  lemma ReleaseLeaves(s: State, t: nat, tail: Ptr)
    requires Sizes(s) && Holders(s) && Anchored(s, tail) && t < |s.pc| && IsRelease(s.pc[t]) && Sizes(ReleaseStep(s, t))
    requires s.pc[t].RelStore? ==> s.pc[t].node != tail.node
    ensures Leaves(s, ReleaseStep(s, t), tail.node)
  {
  }

  lemma AnchorStep(s: State, t: nat, a: Action, tail: Ptr)
    requires Inv(s) && Anchored(s, tail) && t < |s.pc|
    requires s.pc[t].RelStore? ==> s.pc[t].node != tail.node
    requires s.pc[t].TailLink? && s.next[s.pc[t].tail.node] == Nil ==> s.hist.place[s.pc[t].tail.node].InQueue?
    requires Sizes(Step(s, t, a)) && Chain(Step(s, t, a))
    ensures Anchored(Step(s, t, a), tail)
  {
    hide Knows, AllocStep, PushStep, PopStep, ReleaseStep;
    if IsAlloc(s.pc[t]) {
      AllocLeaves(s, t, tail);
      AnchorStays(s, AllocStep(s, t), tail);
    } else if IsPush(s.pc[t]) {
      PushLeaves(s, t, tail);
      AnchorStays(s, PushStep(s, t), tail);
    } else if s.pc[t].PopCas? && s.outp == s.pc[t].out {
      PopCasLeaves(s, t, tail);
    } else if IsPop(s.pc[t]) {
      PopLeaves(s, t, tail);
      AnchorStays(s, PopStep(s, t), tail);
    } else if IsRelease(s.pc[t]) {
      ReleaseLeaves(s, t, tail);
      AnchorStays(s, ReleaseStep(s, t), tail);
    } else {
      AnchorStays(s, Step(s, t, a), tail);
    }
  }

  // What thread t observes after its own step is in_ or what it observed before.
  lemma ObservesNew(s: State, t: nat, a: Action)
    requires Bounded(s) && t < |s.pc|
    ensures var r := Step(s, t, a); Observes(r.pc[t]) ==>
      (s.pc[t].TailRead? && r.pc[t].tail == s.inp && r.hist == s.hist && r.pc[t].tail == r.inp && |r.next| == |s.next|) ||
      (Observes(s.pc[t]) && r.pc[t].tail == s.pc[t].tail)
  {
    if IsPush(s.pc[t]) {
      ObservesNewPush(s, t);
    } else {
      ObservesNothing(s, t, a);
    }
  }

  lemma ObservesNothing(s: State, t: nat, a: Action)
    requires Bounded(s) && t < |s.pc| && !IsPush(s.pc[t])
    ensures !Observes(Step(s, t, a).pc[t])
  {
    if IsPop(s.pc[t]) {
      PopObservesNothing(s, t);
    } else if IsAlloc(s.pc[t]) {
      AllocObservesNothing(s, t);
    }
  }

  lemma PopObservesNothing(s: State, t: nat)
    requires Bounded(s) && t < |s.pc| && IsPop(s.pc[t])
    ensures !Observes(PopStep(s, t).pc[t])
  {
  }

  lemma AllocObservesNothing(s: State, t: nat)
    requires Bounded(s) && t < |s.pc| && IsAlloc(s.pc[t])
    ensures !Observes(AllocStep(s, t).pc[t])
  {
  }

  lemma ObservesNewPush(s: State, t: nat)
    requires Bounded(s) && t < |s.pc| && IsPush(s.pc[t])
    ensures var r := PushStep(s, t); Observes(r.pc[t]) ==>
      (s.pc[t].TailRead? && r.pc[t].tail == s.inp && r.hist == s.hist && r.pc[t].tail == r.inp && |r.next| == |s.next|) ||
      (Observes(s.pc[t]) && r.pc[t].tail == s.pc[t].tail)
  {
  }

  // A link starts at lag 0, and everything else keeps or shortens the lag.
  lemma LagStep(s: State, t: nat, a: Action)
    requires Inv(s) && NearEnd(s) && t < |s.pc|
    ensures var r := Step(s, t, a); r.hist.i + 2 >= |r.hist.link|
  {
    if s.pc[t].TailLink? && s.next[s.pc[t].tail.node] == Nil {
      AnchoredIsEnd(s, t);
    }
  }

  lemma {:induction false} NearEndStep(s: State, t: nat, a: Action)
    requires Inv(s) && NearEnd(s) && t < |s.pc| && !StaleAlloc(s, t) && !ReleasesObserved(s, t)
    ensures var r := Step(s, t, a); Inv(r) && NearEnd(r)
  {
    hide Step, Knows, Anchored;
    var r := Step(s, t, a);
    NearEndClean(s, t);
    StepInv(s, t, a);
    LagStep(s, t, a);
    ObservesNew(s, t, a);
    forall u | 0 <= u < |r.pc| && Observes(r.pc[u])
      ensures Anchored(r, r.pc[u].tail)
    {
      OnlyMoves(s, t, a);
      AnchorNext(s, t, a, u);
    }
  }

  lemma AnchorNext(s: State, t: nat, a: Action, u: nat)
    requires Inv(s) && NearEnd(s) && t < |s.pc| && !StaleLink(s, t) && !ReleasesObserved(s, t)
    requires Inv(Step(s, t, a)) && u < |s.pc| && Observes(Step(s, t, a).pc[u])
    ensures Anchored(Step(s, t, a), Step(s, t, a).pc[u].tail)
  {
    hide Step, Knows;
    var r := Step(s, t, a);
    OnlyMoves(s, t, a);
    ObservesNew(s, t, a);
    if u == t && s.pc[t].TailRead? {
      assert s.hist.place[s.hist.link[s.hist.i].node] == InQueue(s.hist.i);
    } else {
      QueueByPlace(s);
      assert Observes(s.pc[u]);
      AnchorStep(s, t, a, s.pc[u].tail);
    }
  }
}

/**
  If the first release tag exceeds every tag the free list starts with, a (tag, node) pair
  that has left the free list never comes back, and no run has a stale allocation.
 */
module ListQueueFresh {
  import opened NodeList
  import opened ListQueue
  import opened ListQueueInv
  import opened ListQueueSound

  // The tag that a releasing thread has fetched, or -1.
  function ReleaseTag(c: Pc): int {
    match c
    case RelRead(_, _, id) => id
    case RelStore(_, _, id, _) => id
    case RelCas(_, _, id, _) => id
    case _ => -1
  }

  // The head that an allocating thread has read, or null.
  function SavedHead(c: Pc): Ptr {
    match c
    case AllocNext(_, h) => h
    case AllocCas(_, h, _) => h
    case _ => Nil
  }

  // A pointer whose tag has been given out and is not about to be installed again.
  ghost predicate Used(s: State, p: Ptr) {
    p.At? ==> p.tag < s.id2 && forall t {:trigger ReleaseTag(s.pc[t])} :: 0 <= t < |s.pc| ==> ReleaseTag(s.pc[t]) != p.tag
  }

  // p is an entry of the free list: head_ or the `next` of a free node.
  ghost predicate Entry(s: State, p: Ptr)
    requires Sizes(s)
  {
    p.At? && (s.head == p || exists n :: 0 <= n < |s.next| && s.hist.place[n].InFree? && s.next[n] == p)
  }

  ghost predicate Fresh(s: State)
    requires Sizes(s)
  {
    && (forall t :: 0 <= t < |s.pc| ==> ReleaseTag(s.pc[t]) < s.id2)
    && (forall t, u :: 0 <= t < u < |s.pc| && ReleaseTag(s.pc[t]) >= 0 ==> ReleaseTag(s.pc[t]) != ReleaseTag(s.pc[u]))
    && Used(s, s.head)
    && (forall n :: 0 <= n < |s.next| && s.hist.place[n].InFree? ==> Used(s, s.next[n]))
    && (forall t :: 0 <= t < |s.pc| ==> Used(s, SavedHead(s.pc[t])))
    && (forall t :: 0 <= t < |s.pc| && s.pc[t].AllocCas? && Entry(s, s.pc[t].h) ==> s.next[s.pc[t].h.node] == s.pc[t].x)
  }

  lemma InitFresh(max: nat, seed: nat, data: seq<int>, threads: nat)
    requires 1 <= max == |data| && max <= seed
    ensures var s := Init(max, seed, data, threads); Sizes(s) && Fresh(s)
  {
    var s := Init(max, seed, data, threads);
    assert forall t :: 0 <= t < threads ==> s.pc[t] == Idle(NoCall);
  }

  lemma FreshClean(s: State, t: nat)
    requires Sizes(s) && Fresh(s) && t < |s.pc|
    ensures !StaleAlloc(s, t)
  {
  }

  // A step that brings no new entry and no new tag.
  ghost predicate NoNewEntry(s: State, r: State, t: nat)
    requires Sizes(s) && Sizes(r)
  {
    && OnlyMoved(s, r, t)
    && r.id2 == s.id2
    && ReleaseTag(r.pc[t]) in {-1, ReleaseTag(s.pc[t])}
    && (r.head == s.head || (Entry(s, s.head) && r.head == s.next[s.head.node]))
    && (forall n {:trigger r.next[n]} {:trigger r.hist.place[n]} :: 0 <= n < |s.next| && r.hist.place[n].InFree? ==>
          s.hist.place[n].InFree? && r.next[n] == s.next[n])
  }

  lemma EntryWas(s: State, r: State, t: nat, p: Ptr)
    requires Sizes(s) && FreeList(s) && Sizes(r) && NoNewEntry(s, r, t) && Entry(r, p)
    ensures Entry(s, p)
  {
    if r.head == p && r.head != s.head {
      assert s.hist.place[s.head.node].InFree?;
    } else if r.head != p {
      var n :| 0 <= n < |r.next| && r.hist.place[n].InFree? && r.next[n] == p;
      assert s.next[n] == p;
    }
  }

  lemma UsedStays(s: State, r: State, t: nat, p: Ptr)
    requires Sizes(s) && Sizes(r) && NoNewEntry(s, r, t) && Used(s, p)
    ensures Used(r, p)
  {
    if p.At? {
      assert ReleaseTag(s.pc[t]) != p.tag;
      assert forall u :: 0 <= u < |s.pc| ==> ReleaseTag(s.pc[u]) != p.tag;
    }
  }

  lemma EntryFree(s: State, p: Ptr)
    requires Sizes(s) && FreeList(s) && Entry(s, p)
    ensures p.node < |s.next| && s.hist.place[p.node].InFree?
  {
    if s.head == p {
      assert s.hist.place[s.hist.free[|s.hist.free| - 1]].InFree?;
    } else {
      var n :| 0 <= n < |s.next| && s.hist.place[n].InFree? && s.next[n] == p;
      assert PointsTo(s.next[s.hist.free[s.hist.place[n].at]], s.hist.free, s.hist.place[n].at);
    }
  }

  lemma FreshKept(s: State, r: State, t: nat)
    requires Sizes(s) && FreeList(s) && Fresh(s) && Sizes(r) && FreeList(r) && NoNewEntry(s, r, t)
    requires SavedHead(r.pc[t]) in {Nil, SavedHead(s.pc[t]), s.head}
    requires r.pc[t].AllocCas? && Entry(r, r.pc[t].h) ==> r.next[r.pc[t].h.node] == r.pc[t].x
    ensures Fresh(r)
  {
    assert Used(s, s.head) && Used(s, SavedHead(s.pc[t]));
    if r.head.At? {
      if r.head != s.head { EntryFree(s, s.head); }
      UsedStays(s, r, t, r.head);
    }
    forall n | 0 <= n < |r.next| && r.hist.place[n].InFree?
      ensures Used(r, r.next[n])
    {
      UsedStays(s, r, t, s.next[n]);
    }
    forall u | 0 <= u < |r.pc|
      ensures Used(r, SavedHead(r.pc[u]))
    {
      UsedStays(s, r, t, if u == t then SavedHead(r.pc[t]) else SavedHead(s.pc[u]));
    }
    forall u | 0 <= u < |r.pc| && r.pc[u].AllocCas? && Entry(r, r.pc[u].h)
      ensures r.next[r.pc[u].h.node] == r.pc[u].x
    {
      EntryFree(r, r.pc[u].h);
      if u != t { EntryWas(s, r, t, r.pc[u].h); }
    }
  }

  lemma AllocNoEntry(s: State, t: nat)
    requires Sizes(s) && FreeList(s) && Holders(s) && t < |s.pc| && IsAlloc(s.pc[t]) && Sizes(AllocStep(s, t))
    requires s.pc[t].AllocCas? && s.head == s.pc[t].h ==> s.next[s.pc[t].h.node] == s.pc[t].x
    ensures NoNewEntry(s, AllocStep(s, t), t)
  {
  }

  lemma PushNoEntry(s: State, t: nat)
    requires Sizes(s) && Chain(s) && Holders(s) && t < |s.pc| && IsPush(s.pc[t]) && Sizes(PushStep(s, t))
    requires s.pc[t].TailLink? && s.next[s.pc[t].tail.node] == Nil ==> s.hist.place[s.pc[t].tail.node].InQueue?
    ensures var r := PushStep(s, t); NoNewEntry(s, r, t) && SavedHead(r.pc[t]) == Nil && !r.pc[t].AllocCas?
  {
    hide PcOk;
  }

  lemma PopNoEntry(s: State, t: nat)
    requires Sizes(s) && t < |s.pc| && IsPop(s.pc[t]) && Sizes(PopStep(s, t))
    ensures var r := PopStep(s, t); NoNewEntry(s, r, t) && SavedHead(r.pc[t]) == Nil && !r.pc[t].AllocCas?
  {
  }

  lemma ReleaseNoEntry(s: State, t: nat)
    requires Sizes(s) && Holders(s) && t < |s.pc| && IsRelease(s.pc[t]) && !s.pc[t].RelId? && Sizes(ReleaseStep(s, t))
    requires s.pc[t].RelCas? ==> s.head != s.pc[t].h
    ensures var r := ReleaseStep(s, t); NoNewEntry(s, r, t) && SavedHead(r.pc[t]) == Nil && !r.pc[t].AllocCas?
  {
  }

  // A fetched release tag is new.
  lemma ReleaseIdFresh(s: State, t: nat)
    requires Sizes(s) && Fresh(s) && t < |s.pc| && s.pc[t].RelId? && Sizes(ReleaseStep(s, t))
    ensures Fresh(ReleaseStep(s, t))
  {
    var r := ReleaseStep(s, t);
    forall p | Used(s, p)
      ensures Used(r, p)
    {
      if p.At? { assert forall u :: 0 <= u < |s.pc| ==> ReleaseTag(s.pc[u]) != p.tag; }
    }
    forall p | Entry(r, p)
      ensures Entry(s, p)
    {
      if r.head != p {
        var n :| 0 <= n < |r.next| && r.hist.place[n].InFree? && r.next[n] == p;
        assert s.next[n] == p;
      }
    }
  }

  // A used pointer stays used, and is not the released pair.
  lemma ReleaseUses(s: State, t: nat, p: Ptr)
    requires Sizes(s) && Fresh(s) && t < |s.pc| && s.pc[t].RelCas? && s.head == s.pc[t].h && Used(s, p)
    ensures Used(ReleaseStep(s, t), p) && p != At(s.pc[t].id, s.pc[t].node)
  {
    assert ReleaseTag(s.pc[t]) == s.pc[t].id;
    if p.At? {
      assert ReleaseTag(s.pc[t]) != p.tag;
      assert forall u :: 0 <= u < |s.pc| ==> ReleaseTag(s.pc[u]) != p.tag;
    }
  }

  lemma ReleaseEntry(s: State, t: nat, p: Ptr)
    requires Sizes(s) && t < |s.pc| && s.pc[t].RelCas? && s.head == s.pc[t].h && Knows(s, s.pc[t])
    requires Sizes(ReleaseStep(s, t)) && Entry(ReleaseStep(s, t), p) && p != At(s.pc[t].id, s.pc[t].node)
    ensures Entry(s, p)
  {
    var r := ReleaseStep(s, t);
    var n :| 0 <= n < |r.next| && r.hist.place[n].InFree? && r.next[n] == p;
    assert n == s.pc[t].node || s.hist.place[n].InFree?;
  }

  // The released pair is a new entry and nobody has saved it.
  lemma ReleaseCasFresh(s: State, t: nat)
    requires Sizes(s) && FreeList(s) && Holders(s) && Fresh(s) && t < |s.pc| && s.pc[t].RelCas? && s.head == s.pc[t].h
    requires Knows(s, s.pc[t]) && Sizes(ReleaseStep(s, t))
    ensures Fresh(ReleaseStep(s, t))
  {
    hide PcOk, FreeList, Holders;
    var r := ReleaseStep(s, t);
    var c := s.pc[t];
    assert ReleaseTag(c) == c.id;
    forall p | Used(s, p)
      ensures Used(r, p) && p != At(c.id, c.node)
    {
      ReleaseUses(s, t, p);
    }
    assert Used(r, r.head) by {
      assert forall u :: 0 <= u < |s.pc| && u != t ==> ReleaseTag(s.pc[u]) != c.id;
    }
    forall p | Entry(r, p) && p != At(c.id, c.node)
      ensures Entry(s, p)
    {
      ReleaseEntry(s, t, p);
    }
    assert forall u :: 0 <= u < |s.pc| && u != t ==> r.pc[u] == s.pc[u];
    assert forall u :: 0 <= u < |s.pc| && u != t && s.pc[u].AllocCas? ==> SavedHead(s.pc[u]) == s.pc[u].h;
  }

  lemma FreshAlloc(s: State, t: nat)
    requires Inv(s) && Fresh(s) && t < |s.pc| && IsAlloc(s.pc[t])
    requires Sizes(AllocStep(s, t)) && FreeList(AllocStep(s, t))
    ensures Fresh(AllocStep(s, t))
  {
    AllocNoEntry(s, t);
    FreshKept(s, AllocStep(s, t), t);
  }

  lemma FreshPush(s: State, t: nat)
    requires Inv(s) && Fresh(s) && t < |s.pc| && IsPush(s.pc[t]) && !StaleLink(s, t)
    requires Sizes(PushStep(s, t)) && FreeList(PushStep(s, t))
    ensures Fresh(PushStep(s, t))
  {
    hide PushStep, Knows, Fresh;
    QueueByPlace(s);
    PushNoEntry(s, t);
    FreshKept(s, PushStep(s, t), t);
  }

  lemma FreshPop(s: State, t: nat, a: Action)
    requires Inv(s) && Fresh(s) && t < |s.pc| && (s.pc[t].Idle? || IsPop(s.pc[t]))
    requires Sizes(Step(s, t, a)) && FreeList(Step(s, t, a))
    ensures Fresh(Step(s, t, a))
  {
    hide PopStep, Knows, Fresh;
    if IsPop(s.pc[t]) { PopNoEntry(s, t); }
    FreshKept(s, Step(s, t, a), t);
  }

  lemma FreshRelease(s: State, t: nat)
    requires Inv(s) && Fresh(s) && t < |s.pc| && IsRelease(s.pc[t])
    requires Sizes(ReleaseStep(s, t)) && FreeList(ReleaseStep(s, t))
    ensures Fresh(ReleaseStep(s, t))
  {
    if s.pc[t].RelId? {
      ReleaseIdFresh(s, t);
    } else if s.pc[t].RelCas? && s.head == s.pc[t].h {
      ReleaseCasFresh(s, t);
    } else {
      ReleaseNoEntry(s, t);
      FreshKept(s, ReleaseStep(s, t), t);
    }
  }

  lemma {:induction false} FreshStep(s: State, t: nat, a: Action)
    requires Inv(s) && Fresh(s) && t < |s.pc| && !StaleLink(s, t)
    ensures var r := Step(s, t, a); Inv(r) && Fresh(r)
  {
    hide Fresh, Knows, AllocStep, PushStep, PopStep, ReleaseStep, Tags, Chain, FreeList, Holders, Logs, PcOk;
    assert !StaleAlloc(s, t) by { FreshClean(s, t); }
    StepInv(s, t, a);
    if IsAlloc(s.pc[t]) {
      FreshAlloc(s, t);
    } else if IsPush(s.pc[t]) {
      FreshPush(s, t);
    } else if s.pc[t].Idle? || IsPop(s.pc[t]) {
      FreshPop(s, t, a);
    } else {
      FreshRelease(s, t);
    }
  }
}

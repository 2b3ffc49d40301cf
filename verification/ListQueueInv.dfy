/** The invariant of the linked queue, kept by every step that is not a BadStep. */
module ListQueueInv {
  import opened NodeList
  import opened ListQueue

  // p is one of link[0..k].
  ghost predicate Before(link: seq<Ptr>, p: Ptr, k: nat) {
    exists j :: 0 <= j <= k && j < |link| && link[j] == p
  }

  ghost predicate Sizes(s: State) {
    && Bounded(s)
    && |s.hist.link| == |s.hist.val|
    && s.hist.o <= s.hist.i < |s.hist.link|
    && s.outp == s.hist.link[s.hist.o]
    && s.inp == s.hist.link[s.hist.i]
    && (forall k :: 0 <= k < |s.hist.link| ==> NodePtr(s.hist.link[k], |s.next|))
  }

  // The push tag that a thread has fetched and not linked yet, or -1.
  function PendingId(c: Pc): int {
    match c
    case TailRead(_, _, id) => id
    case TailNext(_, _, id, _) => id
    case TailHelp(_, _, id, _, _) => id
    case TailLink(_, _, id, _) => id
    case _ => -1
  }

  // No tag is linked twice.
  ghost predicate Tags(s: State)
    requires Sizes(s)
  {
    && (forall k :: 0 <= k < |s.hist.link| ==> s.hist.link[k].tag < s.id)
    && (forall k, l :: 0 <= k < l < |s.hist.link| ==> s.hist.link[k].tag != s.hist.link[l].tag)
    && (forall t :: 0 <= t < |s.pc| ==> PendingId(s.pc[t]) < s.id)
    && (forall t, k :: 0 <= t < |s.pc| && 0 <= k < |s.hist.link| ==> s.hist.link[k].tag != PendingId(s.pc[t]))
    && (forall t, u :: 0 <= t < u < |s.pc| && PendingId(s.pc[t]) >= 0 ==> PendingId(s.pc[t]) != PendingId(s.pc[u]))
  }

  // The links from the dummy on are the chain of `next` fields.
  ghost predicate Chain(s: State)
    requires Sizes(s)
  {
    && (forall k :: s.hist.o <= k < |s.hist.link| ==> s.hist.place[s.hist.link[k].node] == InQueue(k))
    && (forall n :: 0 <= n < |s.next| && s.hist.place[n].InQueue? ==>
          s.hist.o <= s.hist.place[n].index < |s.hist.link| && s.hist.link[s.hist.place[n].index].node == n)
    && (forall k {:trigger s.next[s.hist.link[k].node]} :: s.hist.o <= k < |s.hist.link| - 1 ==>
          s.next[s.hist.link[k].node] == s.hist.link[k + 1])
    && s.next[s.hist.link[|s.hist.link| - 1].node] == Nil
    && (forall k {:trigger s.data[s.hist.link[k].node]} :: s.hist.o < k < |s.hist.link| ==>
          s.data[s.hist.link[k].node] == s.hist.val[k])
  }

  // free, read downwards, is the chain from head_.
  ghost predicate FreeList(s: State)
    requires Sizes(s)
  {
    && (forall j :: 0 <= j < |s.hist.free| ==> s.hist.free[j] < |s.next| && s.hist.place[s.hist.free[j]] == InFree(j))
    && (forall n :: 0 <= n < |s.next| && s.hist.place[n].InFree? ==>
          s.hist.place[n].at < |s.hist.free| && s.hist.free[s.hist.place[n].at] == n)
    && PointsTo(s.head, s.hist.free, |s.hist.free|)
    && (forall j {:trigger s.next[s.hist.free[j]]} :: 0 <= j < |s.hist.free| ==>
          PointsTo(s.next[s.hist.free[j]], s.hist.free, j))
  }

  ghost predicate Holders(s: State)
    requires Sizes(s)
  {
    && (forall t :: 0 <= t < |s.pc| && HeldNode(s.pc[t]) >= 0 ==>
          HeldNode(s.pc[t]) < |s.next| && s.hist.place[HeldNode(s.pc[t])] == HeldBy(t))
    && (forall n :: 0 <= n < |s.next| && s.hist.place[n].HeldBy? ==>
          s.hist.place[n].thread < |s.pc| && HeldNode(s.pc[s.hist.place[n].thread]) == n)
  }

  // link[i] moves to link[i + 1]: if in_ is still `tail`, then nx is the next link.
  ghost predicate NextTail(s: State, tail: Ptr, nx: Ptr)
    requires Sizes(s)
  {
    && Before(s.hist.link, tail, s.hist.i)
    && (s.inp == tail ==> s.hist.i + 1 < |s.hist.link| && s.hist.link[s.hist.i + 1] == nx)
  }

  // out_ was `out` and in_ was `tail` afterwards.
  ghost predicate SawEnds(s: State, out: Ptr, tail: Ptr)
    requires Sizes(s)
  {
    && Before(s.hist.link, out, s.hist.o)
    && Before(s.hist.link, tail, s.hist.i)
    && (s.outp == out && tail != out ==> s.hist.o < s.hist.i)
  }

  // If out_ is still `out`, then nx is the link behind it.
  ghost predicate NextOut(s: State, out: Ptr, nx: Ptr)
    requires Sizes(s)
  {
    s.outp == out ==> s.hist.o + 1 < |s.hist.link| && s.hist.link[s.hist.o + 1] == nx
  }

  // What a thread at program point c may rely on.
  ghost predicate Knows(s: State, c: Pc)
    requires Sizes(s)
  {
    match c
    case PushClear(v, n) => n < |s.data| && s.data[n] == v
    case PushId(v, n) => n < |s.data| && s.data[n] == v && s.next[n] == Nil
    case TailRead(v, n, _) => n < |s.data| && s.data[n] == v && s.next[n] == Nil
    case TailNext(v, n, _, tail) =>
      n < |s.data| && s.data[n] == v && s.next[n] == Nil && Before(s.hist.link, tail, s.hist.i)
    case TailHelp(v, n, _, tail, nx) =>
      n < |s.data| && s.data[n] == v && s.next[n] == Nil && NextTail(s, tail, nx)
    case TailLink(v, n, _, tail) =>
      n < |s.data| && s.data[n] == v && s.next[n] == Nil && Before(s.hist.link, tail, s.hist.i)
    case TailSwing(tail, nx) => NextTail(s, tail, nx)
    case PopIn(out) => Before(s.hist.link, out, s.hist.o)
    case PopNext(out, tail) => SawEnds(s, out, tail)
    case PopHelp(tail, nx) => NextTail(s, tail, nx)
    case PopData(out, tail, nx) => tail != out && SawEnds(s, out, tail) && NextOut(s, out, nx)
    case PopCas(out, tail, nx, v) =>
      && tail != out && SawEnds(s, out, tail) && NextOut(s, out, nx)
      && (s.outp == out ==> s.hist.val[s.hist.o + 1] == v)
    case RelCas(n, _, _, h) => n < |s.next| && s.next[n] == h
    case _ => true
  }

  ghost predicate Logs(s: State)
    requires Sizes(s)
  {
    s.hist.pushed == s.hist.val[1..] && s.hist.popped == s.hist.val[1..s.hist.o + 1]
  }

  ghost predicate Inv(s: State) {
    && Sizes(s)
    && Tags(s)
    && Chain(s)
    && FreeList(s)
    && Holders(s)
    && Logs(s)
    && (forall t :: 0 <= t < |s.pc| ==> Knows(s, s.pc[t]))
  }

  lemma InitFree(max: nat, seed: nat, data: seq<int>, threads: nat)
    requires 1 <= max == |data|
    ensures var s := Init(max, seed, data, threads); Sizes(s) && FreeList(s)
  {
    var s := Init(max, seed, data, threads);
    assert Sizes(s);
    var free := s.hist.free;
    forall j | 0 <= j < |free|
      ensures free[j] < max && s.hist.place[free[j]] == InFree(j) && PointsTo(s.next[free[j]], free, j)
    {
      assert free[j] == max - 1 - j;
    }
    forall n | 0 <= n < max && s.hist.place[n].InFree?
      ensures s.hist.place[n].at < |free| && free[s.hist.place[n].at] == n
    {
    }
  }

  lemma InitChain(max: nat, seed: nat, data: seq<int>, threads: nat)
    requires 1 <= max == |data|
    ensures var s := Init(max, seed, data, threads); Sizes(s) && Tags(s) && Chain(s) && Holders(s) && Logs(s)
  {
    var s := Init(max, seed, data, threads);
    assert Tags(s);
    assert Chain(s);
    assert forall t :: 0 <= t < threads ==> s.pc[t] == Idle(NoCall);
    assert Holders(s);
  }

  lemma InitInv(max: nat, seed: nat, data: seq<int>, threads: nat)
    requires 1 <= max == |data|
    ensures Inv(Init(max, seed, data, threads))
  {
    hide Sizes, Tags, Chain, FreeList, Holders, Logs;
    InitFree(max, seed, data, threads);
    InitChain(max, seed, data, threads);
    assert forall t :: 0 <= t < threads ==> Init(max, seed, data, threads).pc[t] == Idle(NoCall);
  }

  // ----- What the other threads know survives a step of thread t -----

  ghost predicate Evolves(s: State, r: State, t: nat)
    requires Sizes(s) && Sizes(r)
  {
    && |r.next| == |s.next|
    && s.hist.link <= r.hist.link && s.hist.val <= r.hist.val
    && s.hist.o <= r.hist.o && s.hist.i <= r.hist.i
    && (forall n {:trigger r.next[n]} {:trigger r.data[n]} :: 0 <= n < |s.next| && s.hist.place[n].HeldBy? && s.hist.place[n].thread != t ==>
          r.next[n] == s.next[n] && r.data[n] == s.data[n])
  }

  lemma BeforeStays(link: seq<Ptr>, more: seq<Ptr>, p: Ptr, k: nat, l: nat)
    requires Before(link, p, k) && link <= more && k <= l
    ensures Before(more, p, l)
  {
    var j :| 0 <= j <= k && j < |link| && link[j] == p;
    assert more[j] == p;
  }

  // A pointer that was link[..k] and is link[l] with k <= l sits at k.
  lemma BeforeIsLast(s: State, p: Ptr, k: nat, l: nat)
    requires Sizes(s) && Tags(s) && Before(s.hist.link, p, k) && k <= l < |s.hist.link| && s.hist.link[l] == p
    ensures k == l
  {
    var j :| 0 <= j <= k && j < |s.hist.link| && s.hist.link[j] == p;
  }

  lemma KnowsStays(s: State, r: State, t: nat, u: nat)
    requires Sizes(s) && Tags(s) && Holders(s) && Sizes(r) && Tags(r) && Evolves(s, r, t)
    requires u < |s.pc| && u != t && Knows(s, s.pc[u])
    ensures Knows(r, s.pc[u])
  {
    var c := s.pc[u];
    if c.TailHelp? || c.TailSwing? || c.PopHelp? {
      NextTailStays(s, r, t, c.tail, c.nx);
    } else if c.TailNext? || c.TailLink? {
      BeforeStays(s.hist.link, r.hist.link, c.tail, s.hist.i, r.hist.i);
    } else if c.PopIn? || c.PopNext? || c.PopData? || c.PopCas? {
      OutStays(s, r, t, c.out);
      if !c.PopIn? {
        BeforeStays(s.hist.link, r.hist.link, c.tail, s.hist.i, r.hist.i);
      }
    }
    HeldStays(s, r, t, u);
  }

  lemma HeldStays(s: State, r: State, t: nat, u: nat)
    requires Sizes(s) && Holders(s) && Sizes(r) && Evolves(s, r, t) && u < |s.pc| && u != t
    ensures var n := HeldNode(s.pc[u]); n >= 0 ==> n < |s.next| && r.next[n] == s.next[n] && r.data[n] == s.data[n]
  {
  }

  lemma NextTailStays(s: State, r: State, t: nat, tail: Ptr, nx: Ptr)
    requires Sizes(s) && Sizes(r) && Tags(r) && Evolves(s, r, t) && NextTail(s, tail, nx)
    ensures NextTail(r, tail, nx)
  {
    BeforeStays(s.hist.link, r.hist.link, tail, s.hist.i, r.hist.i);
    if r.inp == tail {
      BeforeStays(s.hist.link, r.hist.link, tail, s.hist.i, s.hist.i);
      BeforeIsLast(r, tail, s.hist.i, r.hist.i);
    }
  }

  lemma OutStays(s: State, r: State, t: nat, out: Ptr)
    requires Sizes(s) && Sizes(r) && Tags(r) && Evolves(s, r, t) && Before(s.hist.link, out, s.hist.o)
    ensures Before(r.hist.link, out, r.hist.o)
    ensures r.outp == out ==> s.outp == out && r.hist.o == s.hist.o
  {
    BeforeStays(s.hist.link, r.hist.link, out, s.hist.o, r.hist.o);
    if r.outp == out {
      BeforeStays(s.hist.link, r.hist.link, out, s.hist.o, s.hist.o);
      BeforeIsLast(r, out, s.hist.o, r.hist.o);
    }
  }

  // ----- Each step keeps the invariant -----

  lemma OthersKnow(s: State, r: State, t: nat)
    requires Inv(s) && Sizes(r) && Tags(r) && Evolves(s, r, t)
    requires t < |s.pc| == |r.pc| && Knows(r, r.pc[t])
    requires forall u :: 0 <= u < |s.pc| && u != t ==> r.pc[u] == s.pc[u]
    ensures forall u :: 0 <= u < |r.pc| ==> Knows(r, r.pc[u])
  {
    forall u | 0 <= u < |r.pc| && u != t
      ensures Knows(r, r.pc[u])
    {
      KnowsStays(s, r, t, u);
    }
  }

  // A step that leaves the shared pointers and the history alone.
  ghost predicate Quiet(s: State, r: State, t: nat)
    requires Sizes(s) && Sizes(r)
  {
    && t < |s.pc| == |r.pc| && |r.next| == |s.next|
    && (forall u :: 0 <= u < |s.pc| && u != t ==> r.pc[u] == s.pc[u])
    && r.hist == s.hist && r.head == s.head
    && HeldNode(r.pc[t]) == HeldNode(s.pc[t])
    && s.id <= r.id
    && (PendingId(r.pc[t]) == -1 || PendingId(r.pc[t]) == PendingId(s.pc[t]) || PendingId(r.pc[t]) == s.id < r.id)
    && (forall n {:trigger r.next[n]} {:trigger r.data[n]} :: 0 <= n < |s.next| && s.hist.place[n] != HeldBy(t) ==>
          r.next[n] == s.next[n] && r.data[n] == s.data[n])
  }

  lemma QuietTags(s: State, r: State, t: nat)
    requires Sizes(s) && Sizes(r) && Tags(s) && Quiet(s, r, t)
    ensures Tags(r)
  {
  }

  lemma QuietChain(s: State, r: State, t: nat)
    requires Sizes(s) && Sizes(r) && Chain(s) && Quiet(s, r, t)
    ensures Chain(r)
  {
    ChainElsewhere(s, r);
  }

  lemma QuietFreeList(s: State, r: State, t: nat)
    requires Sizes(s) && Sizes(r) && FreeList(s) && Quiet(s, r, t)
    ensures FreeList(r)
  {
    FreeElsewhere(s, r);
  }

  lemma QuietHolders(s: State, r: State, t: nat)
    requires Sizes(s) && Sizes(r) && Holders(s) && Quiet(s, r, t)
    ensures Holders(r) && Evolves(s, r, t)
  {
  }

  lemma QuietRest(s: State, r: State, t: nat)
    requires Sizes(s) && Sizes(r) && Logs(s) && Quiet(s, r, t)
    ensures Logs(r) && t < |s.pc| == |r.pc| && forall u :: 0 <= u < |s.pc| && u != t ==> r.pc[u] == s.pc[u]
  {
  }

  lemma QuietInv(s: State, r: State, t: nat)
    requires Inv(s) && Sizes(r) && Quiet(s, r, t) && Knows(r, r.pc[t])
    ensures Inv(r)
  {
    hide Sizes, Tags, Chain, FreeList, Holders, Knows, Quiet, Logs;
    QuietRest(s, r, t);
    QuietTags(s, r, t);
    QuietChain(s, r, t);
    QuietFreeList(s, r, t);
    QuietHolders(s, r, t);
    OthersKnow(s, r, t);
  }

  // Everything but a compare-and-swap that succeeds, or may succeed, is quiet.
  predicate Private(s: State, t: nat)
    requires Bounded(s) && t < |s.pc|
  {
    match s.pc[t]
    case AllocCas(_, h, _) => s.head != h
    case TailHelp(_, _, _, _, _) => false
    case TailLink(_, _, _, tail) => s.next[tail.node] != Nil
    case TailSwing(_, _) => false
    case PopHelp(_, _) => false
    case PopCas(out, _, _, _) => s.outp != out
    case RelCas(_, _, _, h) => s.head != h
    case _ => true
  }

  lemma AllocQuiet(s: State, t: nat)
    requires Sizes(s) && Holders(s) && t < |s.pc| && Private(s, t) && IsAlloc(s.pc[t])
    ensures var r := AllocStep(s, t); Sizes(r) && Quiet(s, r, t)
  {
  }

  lemma PushQuiet(s: State, t: nat)
    requires Sizes(s) && Holders(s) && t < |s.pc| && Private(s, t) && IsPush(s.pc[t])
    ensures var r := PushStep(s, t); Sizes(r) && Quiet(s, r, t)
  {
  }

  lemma PopQuiet(s: State, t: nat)
    requires Sizes(s) && t < |s.pc| && Private(s, t) && IsPop(s.pc[t])
    ensures var r := PopStep(s, t); Sizes(r) && Quiet(s, r, t)
  {
  }

  lemma ReleaseQuiet(s: State, t: nat)
    requires Sizes(s) && Holders(s) && t < |s.pc| && Private(s, t) && IsRelease(s.pc[t])
    ensures var r := ReleaseStep(s, t); Sizes(r) && Quiet(s, r, t)
  {
  }

  // While link[k] is in the queue, its `next` is link[k + 1] or null.
  lemma ReadChain(s: State, k: nat)
    requires Sizes(s) && Chain(s) && s.hist.o <= k < |s.hist.link|
    ensures var nx := s.next[s.hist.link[k].node];
      if k + 1 < |s.hist.link| then nx == s.hist.link[k + 1] else nx == Nil
  {
  }

  lemma PushLearns(s: State, t: nat)
    requires Inv(s) && t < |s.pc| && Private(s, t) && IsPush(s.pc[t])
    ensures var r := PushStep(s, t); Sizes(r) && Knows(r, r.pc[t])
  {
    ReadChain(s, s.hist.i);
    assert s.hist.link[s.hist.i] == s.inp;
  }

  // What PopNext finds: the end of the queue, or the link behind the dummy.
  lemma PopNextLearns(s: State, t: nat)
    requires Inv(s) && t < |s.pc| && s.pc[t].PopNext?
    ensures var r := PopStep(s, t); Sizes(r) && Knows(r, r.pc[t])
  {
    var c := s.pc[t];
    assert s.hist.link[s.hist.o] == s.outp && s.hist.link[s.hist.i] == s.inp;
    ReadChain(s, s.hist.o);
    if c.tail == c.out == s.inp { BeforeIsLast(s, c.out, s.hist.o, s.hist.i); }
  }

  lemma PopLearns(s: State, t: nat)
    requires Inv(s) && t < |s.pc| && Private(s, t) && IsPop(s.pc[t])
    ensures var r := PopStep(s, t); Sizes(r) && Knows(r, r.pc[t])
  {
    hide Tags, FreeList, Holders, Logs;
    if s.pc[t].PopNext? {
      PopNextLearns(s, t);
    } else {
      assert s.hist.link[s.hist.o] == s.outp && s.hist.link[s.hist.i] == s.inp;
    }
  }

  lemma PrivateQuiet(s: State, t: nat, a: Action)
    requires Sizes(s) && Holders(s) && t < |s.pc| && Private(s, t)
    ensures var r := Step(s, t, a); Sizes(r) && Quiet(s, r, t)
  {
    if IsAlloc(s.pc[t]) {
      AllocQuiet(s, t);
    } else if IsPush(s.pc[t]) {
      PushQuiet(s, t);
    } else if IsPop(s.pc[t]) {
      PopQuiet(s, t);
    } else if IsRelease(s.pc[t]) {
      ReleaseQuiet(s, t);
    }
  }

  lemma PrivateLearns(s: State, t: nat, a: Action)
    requires Inv(s) && t < |s.pc| && Private(s, t)
    ensures var r := Step(s, t, a); Sizes(r) && Knows(r, r.pc[t])
  {
    PrivateQuiet(s, t, a);
    if IsPush(s.pc[t]) {
      PushLearns(s, t);
    } else if IsPop(s.pc[t]) {
      PopLearns(s, t);
    }
  }

  lemma PrivateInv(s: State, t: nat, a: Action)
    requires Inv(s) && t < |s.pc| && Private(s, t)
    ensures Inv(Step(s, t, a))
  {
    PrivateQuiet(s, t, a);
    PrivateLearns(s, t, a);
    QuietInv(s, Step(s, t, a), t);
  }

  // ----- The compare-and-swaps that succeed -----

  predicate OnlyMoved(s: State, r: State, t: nat) {
    && t < |s.pc| == |r.pc| && |r.next| == |s.next|
    && (forall u :: 0 <= u < |s.pc| && u != t ==> r.pc[u] == s.pc[u])
  }

  lemma OnlyMoves(s: State, t: nat, a: Action)
    requires Bounded(s) && t < |s.pc|
    ensures OnlyMoved(s, Step(s, t, a), t)
  {
  }

  lemma SameTags(s: State, r: State, t: nat)
    requires Sizes(s) && Sizes(r) && Tags(s) && OnlyMoved(s, r, t)
    requires r.id == s.id && r.hist.link == s.hist.link
    requires PendingId(r.pc[t]) == -1 || PendingId(r.pc[t]) == PendingId(s.pc[t])
    ensures Tags(r)
  {
  }

  // AllocNode takes the top of the free list.
  lemma AllocTakes(s: State, t: nat)
    requires Sizes(s) && FreeList(s) && t < |s.pc| && s.pc[t].AllocCas? && s.head == s.pc[t].h && !StaleAlloc(s, t)
    ensures var r := AllocStep(s, t); Sizes(r) && FreeList(r) && OnlyMoved(s, r, t)
    ensures |s.hist.free| > 0 && s.pc[t].h.node == s.hist.free[|s.hist.free| - 1]
  {
    var r := AllocStep(s, t);
    assert s.next[s.hist.free[|s.hist.free| - 1]] == s.next[s.pc[t].h.node];
  }

  lemma AllocKeeps(s: State, t: nat)
    requires Sizes(s) && Chain(s) && FreeList(s) && Holders(s)
    requires t < |s.pc| && s.pc[t].AllocCas? && s.head == s.pc[t].h && !StaleAlloc(s, t)
    ensures var r := AllocStep(s, t); Sizes(r) && Chain(r) && Holders(r) && Evolves(s, r, t)
  {
    AllocTakes(s, t);
    ChainElsewhere(s, AllocStep(s, t));
  }

  lemma AllocInv(s: State, t: nat)
    requires Inv(s) && t < |s.pc| && s.pc[t].AllocCas? && s.head == s.pc[t].h && !StaleAlloc(s, t)
    ensures Inv(AllocStep(s, t))
  {
    var r := AllocStep(s, t);
    AllocTakes(s, t);
    AllocKeeps(s, t);
    SameTags(s, r, t);
    OthersKnow(s, r, t);
  }

  // The chain only depends on the nodes in the queue.
  lemma ChainElsewhere(s: State, r: State)
    requires Sizes(s) && Sizes(r) && Chain(s) && |r.next| == |s.next|
    requires r.hist.link == s.hist.link && r.hist.val == s.hist.val && r.hist.o == s.hist.o
    requires forall n :: 0 <= n < |s.next| && s.hist.place[n].InQueue? ==> r.hist.place[n] == s.hist.place[n]
    requires forall n :: 0 <= n < |s.next| && r.hist.place[n].InQueue? ==> r.hist.place[n] == s.hist.place[n]
    requires forall n {:trigger r.next[n]} {:trigger r.data[n]} :: 0 <= n < |s.next| && s.hist.place[n].InQueue? ==>
               r.next[n] == s.next[n] && r.data[n] == s.data[n]
    ensures Chain(r)
  {
  }

  // The free list only depends on the free nodes.
  lemma FreeElsewhere(s: State, r: State)
    requires Sizes(s) && Sizes(r) && FreeList(s) && |r.next| == |s.next|
    requires r.hist.free == s.hist.free && r.head == s.head
    requires forall n :: 0 <= n < |s.next| && s.hist.place[n].InFree? ==> r.hist.place[n] == s.hist.place[n]
    requires forall n :: 0 <= n < |s.next| && r.hist.place[n].InFree? ==> r.hist.place[n] == s.hist.place[n]
    requires forall n {:trigger r.next[n]} :: 0 <= n < |s.next| && s.hist.place[n].InFree? ==> r.next[n] == s.next[n]
    ensures FreeList(r)
  {
  }

  // ReleaseNode puts a node on top of the free list.
  lemma ReleaseKeeps(s: State, t: nat)
    requires Sizes(s) && Chain(s) && Holders(s)
    requires t < |s.pc| && s.pc[t].RelCas? && s.head == s.pc[t].h
    ensures var r := ReleaseStep(s, t);
      Sizes(r) && OnlyMoved(s, r, t) && Chain(r) && Holders(r) && Evolves(s, r, t)
  {
    ChainElsewhere(s, ReleaseStep(s, t));
  }

  lemma ReleaseFrees(s: State, t: nat)
    requires Sizes(s) && FreeList(s) && Holders(s)
    requires t < |s.pc| && s.pc[t].RelCas? && s.head == s.pc[t].h && Knows(s, s.pc[t])
    ensures var r := ReleaseStep(s, t); Sizes(r) && FreeList(r)
  {
  }

  lemma ReleaseInv(s: State, t: nat)
    requires Inv(s) && t < |s.pc| && s.pc[t].RelCas? && s.head == s.pc[t].h
    ensures Inv(ReleaseStep(s, t))
  {
    var r := ReleaseStep(s, t);
    ReleaseKeeps(s, t);
    ReleaseFrees(s, t);
    SameTags(s, r, t);
    OthersKnow(s, r, t);
  }

  // Pop makes the first value node the new dummy and keeps the old dummy.
  lemma PopShape(s: State, t: nat)
    requires Sizes(s) && t < |s.pc| && s.pc[t].PopCas? && s.outp == s.pc[t].out && Knows(s, s.pc[t])
    ensures var r := PopStep(s, t);
      && Sizes(r) && OnlyMoved(s, r, t)
      && r.next == s.next && r.data == s.data && r.head == s.head && r.id == s.id
      && r.hist.link == s.hist.link && r.hist.val == s.hist.val && r.hist.free == s.hist.free
      && r.hist.o == s.hist.o + 1 && r.hist.i == s.hist.i
      && r.hist.place == s.hist.place[s.outp.node := HeldBy(t)]
      && HeldNode(r.pc[t]) == s.outp.node && HeldNode(s.pc[t]) == -1
      && PendingId(r.pc[t]) == -1
  {
  }

  lemma PopChain(s: State, r: State, t: nat)
    requires Sizes(s) && Sizes(r) && Chain(s)
    requires r.next == s.next && r.data == s.data && r.hist.link == s.hist.link && r.hist.val == s.hist.val
    requires r.hist.o == s.hist.o + 1 && r.hist.place == s.hist.place[s.outp.node := HeldBy(t)]
    ensures Chain(r)
  {
    assert s.hist.place[s.hist.link[s.hist.o].node] == InQueue(s.hist.o);
    assert forall k :: r.hist.o <= k < |r.hist.link| ==> s.hist.link[k].node != s.outp.node;
  }

  lemma PopKeeps(s: State, r: State, t: nat)
    requires Sizes(s) && Sizes(r) && Chain(s) && FreeList(s) && Holders(s) && OnlyMoved(s, r, t)
    requires r.next == s.next && r.data == s.data && r.head == s.head
    requires r.hist == s.hist.(o := s.hist.o + 1, place := s.hist.place[s.outp.node := HeldBy(t)], popped := r.hist.popped)
    requires HeldNode(r.pc[t]) == s.outp.node && HeldNode(s.pc[t]) == -1
    ensures FreeList(r) && Holders(r) && Evolves(s, r, t)
  {
    assert s.hist.place[s.hist.link[s.hist.o].node] == InQueue(s.hist.o);
    FreeElsewhere(s, r);
  }

  lemma PopLogs(s: State, t: nat)
    requires Sizes(s) && Logs(s) && t < |s.pc| && s.pc[t].PopCas? && s.outp == s.pc[t].out && Knows(s, s.pc[t])
    ensures var r := PopStep(s, t); Sizes(r) && Logs(r)
  {
    assert s.hist.val[1..s.hist.o + 2] == s.hist.val[1..s.hist.o + 1] + [s.hist.val[s.hist.o + 1]];
  }

  lemma PopInv(s: State, t: nat)
    requires Inv(s) && t < |s.pc| && s.pc[t].PopCas? && s.outp == s.pc[t].out
    ensures Inv(PopStep(s, t))
  {
    var r := PopStep(s, t);
    PopShape(s, t);
    PopChain(s, r, t);
    PopKeeps(s, r, t);
    PopLogs(s, t);
    SameTags(s, r, t);
    OthersKnow(s, r, t);
  }

  // Whoever swings in_, swings it to the next link.
  ghost predicate Swings(s: State, r: State, t: nat, tail: Ptr, nx: Ptr, c: Pc)
    requires Sizes(s)
  {
    && t < |s.pc| && PcOk(c, |s.next|) && NextTail(s, tail, nx)
    && r == Goto(SwingTail(s, tail, nx), t, c)
    && HeldNode(c) == HeldNode(s.pc[t])
    && (PendingId(c) == -1 || PendingId(c) == PendingId(s.pc[t]))
  }

  lemma SwingKeeps(s: State, r: State, t: nat, tail: Ptr, nx: Ptr, c: Pc)
    requires Sizes(s) && Holders(s) && Swings(s, r, t, tail, nx, c)
    ensures Sizes(r) && OnlyMoved(s, r, t) && Holders(r) && Evolves(s, r, t)
  {
  }

  lemma SwingsInv(s: State, r: State, t: nat, tail: Ptr, nx: Ptr, c: Pc)
    requires Inv(s) && Swings(s, r, t, tail, nx, c) && Sizes(r) && Knows(r, c)
    ensures Inv(r)
  {
    SwingKeeps(s, r, t, tail, nx, c);
    assert r.pc[t] == c && r.next == s.next && r.data == s.data && r.head == s.head && r.id == s.id;
    assert r.hist == s.hist.(i := r.hist.i);
    SwingsRest(s, r, t);
  }

  lemma SwingsRest(s: State, r: State, t: nat)
    requires Inv(s) && Sizes(r) && OnlyMoved(s, r, t) && Holders(r) && Evolves(s, r, t)
    requires r.next == s.next && r.data == s.data && r.head == s.head && r.id == s.id
    requires r.hist == s.hist.(i := r.hist.i) && Knows(r, r.pc[t])
    requires PendingId(r.pc[t]) == -1 || PendingId(r.pc[t]) == PendingId(s.pc[t])
    ensures Inv(r)
  {
    ChainElsewhere(s, r);
    FreeElsewhere(s, r);
    SameTags(s, r, t);
    OthersKnow(s, r, t);
  }

  lemma SwingInv(s: State, t: nat)
    requires Inv(s) && t < |s.pc| && (s.pc[t].TailHelp? || s.pc[t].TailSwing? || s.pc[t].PopHelp?)
    ensures Inv(Step(s, t, Go))
  {
    var r := Step(s, t, Go);
    var c := if s.pc[t].TailHelp? then TailRead(s.pc[t].v, s.pc[t].node, s.pc[t].id)
             else if s.pc[t].TailSwing? then Idle(PushDone) else PopOut;
    SwingKeeps(s, r, t, s.pc[t].tail, s.pc[t].nx, c);
    SwingsInv(s, r, t, s.pc[t].tail, s.pc[t].nx, c);
  }

  // A link on a node of the queue is a link on its last node.
  lemma LinkAtEnd(s: State, t: nat)
    requires Sizes(s) && Chain(s) && t < |s.pc| && s.pc[t].TailLink?
    requires s.next[s.pc[t].tail.node] == Nil && s.hist.place[s.pc[t].tail.node].InQueue?
    ensures s.pc[t].tail.node == s.hist.link[|s.hist.link| - 1].node
  {
    var n := s.pc[t].tail.node;
    ReadChain(s, s.hist.place[n].index);
  }

  lemma LinkMoves(s: State, t: nat)
    requires Sizes(s) && t < |s.pc| && s.pc[t].TailLink? && s.next[s.pc[t].tail.node] == Nil
    ensures var r := PushStep(s, t);
      && Sizes(r) && OnlyMoved(s, r, t) && r.id == s.id && r.pc[t].TailSwing?
      && r.hist.link == s.hist.link + [At(s.pc[t].id, s.pc[t].node)]
  {
  }

  lemma LinkTags(s: State, t: nat)
    requires Sizes(s) && Tags(s) && t < |s.pc| && s.pc[t].TailLink? && s.next[s.pc[t].tail.node] == Nil
    ensures var r := PushStep(s, t); Sizes(r) && OnlyMoved(s, r, t) && Tags(r)
  {
    hide PushStep, PcOk;
    LinkMoves(s, t);
    assert PendingId(s.pc[t]) == s.pc[t].id;
  }

  lemma LinkChain(s: State, t: nat)
    requires Sizes(s) && Chain(s) && Holders(s) && t < |s.pc| && Knows(s, s.pc[t])
    requires s.pc[t].TailLink? && s.next[s.pc[t].tail.node] == Nil && s.hist.place[s.pc[t].tail.node].InQueue?
    ensures var r := PushStep(s, t); Sizes(r) && Chain(r)
  {
    hide PcOk;
    LinkAtEnd(s, t);
    LinkMoves(s, t);
    var r := PushStep(s, t);
    var last := |s.hist.link| - 1;
    var n := s.pc[t].node;
    assert HeldNode(s.pc[t]) == n;
    assert r.next == s.next[s.hist.link[last].node := At(s.pc[t].id, n)] && r.data == s.data;
    assert r.hist.place == s.hist.place[n := InQueue(last + 1)] && r.hist.val == s.hist.val + [s.pc[t].v];
    assert forall k :: s.hist.o <= k <= last ==> r.hist.link[k] == s.hist.link[k] && s.hist.link[k].node != n;
    forall k {:trigger r.next[r.hist.link[k].node]} | r.hist.o <= k < |r.hist.link| - 1
      ensures r.next[r.hist.link[k].node] == r.hist.link[k + 1]
    {
      if k < last { assert s.hist.place[s.hist.link[k].node] != s.hist.place[s.hist.link[last].node]; }
    }
  }

  lemma LinkKeeps(s: State, t: nat)
    requires Sizes(s) && FreeList(s) && Holders(s) && t < |s.pc| && Knows(s, s.pc[t])
    requires s.pc[t].TailLink? && s.next[s.pc[t].tail.node] == Nil && s.hist.place[s.pc[t].tail.node].InQueue?
    ensures var r := PushStep(s, t); Sizes(r) && FreeList(r) && Holders(r) && Evolves(s, r, t)
  {
  }

  lemma LinkLogs(s: State, t: nat)
    requires Sizes(s) && Logs(s) && t < |s.pc| && s.pc[t].TailLink? && s.next[s.pc[t].tail.node] == Nil
    ensures var r := PushStep(s, t); Sizes(r) && Logs(r)
  {
  }

  lemma LinkLearns(s: State, t: nat)
    requires Inv(s) && t < |s.pc|
    requires s.pc[t].TailLink? && s.next[s.pc[t].tail.node] == Nil && s.hist.place[s.pc[t].tail.node].InQueue?
    ensures var r := PushStep(s, t); Sizes(r) && Knows(r, r.pc[t])
  {
    var r := PushStep(s, t);
    var c := s.pc[t];
    ReadChain(s, s.hist.i);
    BeforeStays(s.hist.link, r.hist.link, c.tail, s.hist.i, r.hist.i);
  }

  lemma LinkInv(s: State, t: nat)
    requires Inv(s) && t < |s.pc|
    requires s.pc[t].TailLink? && s.next[s.pc[t].tail.node] == Nil && s.hist.place[s.pc[t].tail.node].InQueue?
    ensures Inv(PushStep(s, t))
  {
    LinkTags(s, t);
    LinkChain(s, t);
    LinkKeeps(s, t);
    LinkLogs(s, t);
    LinkLearns(s, t);
    OthersKnow(s, PushStep(s, t), t);
  }
}

/**
  The linked queue loses, duplicates and reorders nothing, and leaks no node, exactly on the
  runs without a stale allocation and without a stale link.
 */
module ListQueueSound {
  import opened NodeList
  import opened ListQueue
  import opened ListQueueInv

  // ----- The walks from out_ and head_ meet the queue and the free list -----

  ghost function LinkNodes(s: State, k: nat): (r: seq<nat>)
    requires Sizes(s) && k <= |s.hist.link|
    ensures |r| == |s.hist.link| - k
    ensures forall j :: 0 <= j < |r| ==> r[j] == s.hist.link[k + j].node
  {
    seq(|s.hist.link| - k, j requires 0 <= j < |s.hist.link| - k => s.hist.link[k + j].node)
  }

  lemma ChainDistinct(s: State)
    requires Sizes(s) && Chain(s)
    ensures NoDup(LinkNodes(s, s.hist.o))
  {
    var nodes := LinkNodes(s, s.hist.o);
    forall a, b | 0 <= a < b < |nodes|
      ensures nodes[a] != nodes[b]
    {
      assert s.hist.place[s.hist.link[s.hist.o + a].node] == InQueue(s.hist.o + a);
      assert s.hist.place[s.hist.link[s.hist.o + b].node] == InQueue(s.hist.o + b);
    }
  }

  lemma QueueIsLinks(s: State)
    requires Sizes(s) && Chain(s)
    ensures QueueNodes(s) == LinkNodes(s, s.hist.o) && NoDup(QueueNodes(s))
  {
    ChainDistinct(s);
    DistinctFit(LinkNodes(s, s.hist.o), |s.next|);
    var nodes := LinkNodes(s, s.hist.o);
    forall j | 0 <= j < |nodes|
      ensures s.next[nodes[j]] == if j + 1 < |nodes| then s.hist.link[s.hist.o + j + 1] else Nil
    {
      ReadChain(s, s.hist.o + j);
    }
    WalkPath(s.next, s.outp, nodes, |s.next|);
  }

  lemma FreeFits(s: State)
    requires Sizes(s) && FreeList(s)
    ensures |s.hist.free| <= |s.next|
  {
    forall a, b | 0 <= a < b < |s.hist.free|
      ensures s.hist.free[a] != s.hist.free[b]
    {
      assert s.hist.place[s.hist.free[a]] == InFree(a) && s.hist.place[s.hist.free[b]] == InFree(b);
    }
    DistinctFit(s.hist.free, |s.next|);
  }

  lemma FreeIsFree(s: State)
    requires Sizes(s) && FreeList(s)
    ensures FreeNodes(s) == Down(s.hist.free, |s.hist.free|) && NoDup(FreeNodes(s))
  {
    FreeFits(s);
    var nodes := Down(s.hist.free, |s.hist.free|);
    DownPath(s.next, s.head, s.hist.free, |nodes|);
    WalkPath(s.next, s.head, nodes, |s.next|);
    forall a, b | 0 <= a < b < |nodes|
      ensures nodes[a] != nodes[b]
    {
      var f := s.hist.free;
      assert s.hist.place[f[|f| - 1 - a]] == InFree(|f| - 1 - a) && s.hist.place[f[|f| - 1 - b]] == InFree(|f| - 1 - b);
    }
  }

  lemma QueueByPlace(s: State)
    requires Sizes(s) && Chain(s)
    ensures forall n :: 0 <= n < |s.next| ==> (n in QueueNodes(s) <==> s.hist.place[n].InQueue?)
  {
    QueueIsLinks(s);
    var nodes := QueueNodes(s);
    assert forall j :: 0 <= j < |nodes| ==> s.hist.place[nodes[j]] == InQueue(s.hist.o + j);
    forall n | 0 <= n < |s.next| && s.hist.place[n].InQueue?
      ensures n in nodes
    {
      assert nodes[s.hist.place[n].index - s.hist.o] == n;
    }
  }

  lemma FreeByPlace(s: State)
    requires Sizes(s) && FreeList(s)
    ensures forall n :: 0 <= n < |s.next| ==> (n in FreeNodes(s) <==> s.hist.place[n].InFree?)
  {
    FreeIsFree(s);
    var nodes := FreeNodes(s);
    assert forall j :: 0 <= j < |nodes| ==> s.hist.place[nodes[j]] == InFree(|nodes| - 1 - j);
    forall n | 0 <= n < |s.next| && s.hist.place[n].InFree?
      ensures n in nodes
    {
      assert nodes[|nodes| - 1 - s.hist.place[n].at] == n;
    }
  }

  lemma HeldByPlace(s: State)
    requires Sizes(s) && Holders(s)
    ensures forall n :: 0 <= n < |s.next| ==> (Held(s, n) <==> s.hist.place[n].HeldBy?)
    ensures forall t, u :: 0 <= t < u < |s.pc| && HeldNode(s.pc[t]) >= 0 ==> HeldNode(s.pc[t]) != HeldNode(s.pc[u])
  {
    forall n | 0 <= n < |s.next| && s.hist.place[n].HeldBy?
      ensures Held(s, n)
    {
      assert HeldNode(s.pc[s.hist.place[n].thread]) == n;
    }
  }

  lemma InvConserved(s: State)
    requires Inv(s)
    ensures Conserved(s)
  {
    hide Tags, FreeList, Holders, Knows;
    QueueIsLinks(s);
    var held := QueueNodes(s)[1..];
    assert DataAt(s.data, held) == s.hist.val[s.hist.o + 1..] by {
      forall j | 0 <= j < |held|
        ensures s.data[held[j]] == s.hist.val[s.hist.o + 1 + j]
      {
        assert held[j] == s.hist.link[s.hist.o + 1 + j].node;
      }
    }
    assert s.hist.val[1..] == s.hist.val[1..s.hist.o + 1] + s.hist.val[s.hist.o + 1..];
  }

  lemma InvPartition(s: State)
    requires Inv(s)
    ensures Partition(s)
  {
    QueueIsLinks(s);
    FreeIsFree(s);
    QueueByPlace(s);
    FreeByPlace(s);
    HeldByPlace(s);
    PlacesPartition(s, QueueNodes(s), FreeNodes(s));
  }

  lemma PlacesPartition(s: State, queue: seq<nat>, free: seq<nat>)
    requires Sizes(s) && queue == QueueNodes(s) && free == FreeNodes(s) && NoDup(queue) && NoDup(free)
    requires forall n :: 0 <= n < |s.next| ==> (n in queue <==> s.hist.place[n].InQueue?)
    requires forall n :: 0 <= n < |s.next| ==> (n in free <==> s.hist.place[n].InFree?)
    requires forall n :: 0 <= n < |s.next| ==> (Held(s, n) <==> s.hist.place[n].HeldBy?)
    requires forall t, u :: 0 <= t < u < |s.pc| && HeldNode(s.pc[t]) >= 0 ==> HeldNode(s.pc[t]) != HeldNode(s.pc[u])
    ensures Partition(s)
  {
    assert forall n :: n in queue ==> n < |s.next|;
    assert forall n :: n in free ==> n < |s.next|;
  }

  lemma InvSound(s: State)
    requires Inv(s)
    ensures Sound(s)
  {
    InvConserved(s);
    InvPartition(s);
  }

  // ----- One step: the invariant survives, or soundness breaks -----

  lemma {:induction false} StepInv(s: State, t: nat, a: Action)
    requires Inv(s) && t < |s.pc| && !BadStep(s, t)
    ensures Inv(Step(s, t, a))
  {
    if Private(s, t) {
      PrivateInv(s, t, a);
    } else if s.pc[t].AllocCas? {
      AllocInv(s, t);
    } else if s.pc[t].PopCas? {
      PopInv(s, t);
    } else if s.pc[t].RelCas? {
      ReleaseInv(s, t);
    } else if s.pc[t].TailLink? {
      QueueByPlace(s);
      LinkInv(s, t);
    } else {
      SwingInv(s, t);
    }
  }

  lemma PathElsewhere(next: seq<Ptr>, p: Ptr, nodes: seq<nat>, n: nat, q: Ptr)
    requires Path(next, p, nodes) && n < |next| && n !in nodes
    ensures Path(next[n := q], p, nodes)
  {
    assert forall j :: 0 <= j < |nodes| ==> nodes[j] in nodes;
  }

  // The queue does not see a link on a node that has left it.
  lemma StaleLinkBreaks(s: State, t: nat)
    requires Inv(s) && t < |s.pc| && StaleLink(s, t)
    ensures !Sound(PushStep(s, t))
  {
    hide Tags, Chain, FreeList, Holders, Logs, Path, Walk, PcOk;
    var r := PushStep(s, t);
    var n := s.pc[t].tail.node;
    QueueIsLinks(s);
    DistinctFit(QueueNodes(s), |s.next|);
    assert Path(s.next, s.outp, QueueNodes(s)) by { LinksPath(s); }
    PathElsewhere(s.next, s.outp, QueueNodes(s), n, r.next[n]);
    assert r.next == s.next[n := r.next[n]] && r.outp == s.outp;
    WalkPath(r.next, r.outp, QueueNodes(s), |r.next|);
    InvConserved(s);
    assert |r.hist.pushed| == |s.hist.pushed| + 1;
  }

  lemma LinksPath(s: State)
    requires Sizes(s) && Chain(s)
    ensures Path(s.next, s.outp, LinkNodes(s, s.hist.o))
  {
    var nodes := LinkNodes(s, s.hist.o);
    forall j | 0 <= j < |nodes|
      ensures s.next[nodes[j]] == if j + 1 < |nodes| then s.hist.link[s.hist.o + j + 1] else Nil
    {
      ReadChain(s, s.hist.o + j);
    }
  }

  // After a stale allocation the node behind the taken one, if any, is lost ...
  lemma StaleAllocLoses(s: State, t: nat, lost: nat)
    requires Inv(s) && t < |s.pc| && StaleAlloc(s, t) && lost < |s.next|
    requires s.hist.place[lost].InFree? && lost != s.pc[t].h.node && lost !in FreeNodes(AllocStep(s, t))
    ensures !Sound(AllocStep(s, t))
  {
    var r := AllocStep(s, t);
    QueueByPlace(s);
    assert QueueNodes(r) == QueueNodes(s);
    HeldByPlace(s);
    assert forall u :: 0 <= u < |s.pc| && u != t ==> r.pc[u] == s.pc[u];
    assert !Held(r, lost) by {
      assert forall u :: 0 <= u < |r.pc| ==> HeldNode(r.pc[u]) == if u == t then s.pc[t].h.node else HeldNode(s.pc[u]);
      assert !Held(s, lost);
    }
  }

  // ... or a node that somebody already has becomes free.
  lemma StaleAllocShares(s: State, t: nat)
    requires Inv(s) && t < |s.pc| && StaleAlloc(s, t) && s.pc[t].x.At?
    requires !s.hist.place[s.pc[t].x.node].InFree? || s.pc[t].x.node == s.pc[t].h.node
    ensures !Sound(AllocStep(s, t))
  {
    var r := AllocStep(s, t);
    var n := s.pc[t].x.node;
    assert FreeNodes(r)[0] == n;
    QueueByPlace(s);
    assert QueueNodes(r) == QueueNodes(s);
    if s.hist.place[n].HeldBy? {
      var u := s.hist.place[n].thread;
      assert HeldNode(s.pc[u]) == n;
      assert u != t && HeldNode(r.pc[u]) == n;
      assert Held(r, n);
    } else if n == s.pc[t].h.node {
      assert HeldNode(r.pc[t]) == n;
      assert Held(r, n);
    }
  }

  // What a stale allocation installs lies further down the list than the true successor.
  lemma InstallsLower(s: State, t: nat) returns (len: nat)
    requires Inv(s) && t < |s.pc| && StaleAlloc(s, t)
    requires s.pc[t].x.At? ==> s.hist.place[s.pc[t].x.node].InFree? && s.pc[t].x.node != s.pc[t].h.node
    ensures var free := s.hist.free;
      && len + 1 < |free| && PointsTo(s.pc[t].x, free, len) && s.pc[t].h.node == free[|free| - 1]
      && s.hist.place[free[|free| - 2]] == InFree(|free| - 2) && free[|free| - 2] != s.pc[t].h.node
      && forall j :: 0 <= j < len ==> free[j] != free[|free| - 2]
  {
    hide Tags, Chain, Holders, Logs, Knows;
    var x, free := s.pc[t].x, s.hist.free;
    assert s.pc[t].h.node == free[|free| - 1] && PointsTo(s.next[free[|free| - 1]], free, |free| - 1);
    len := if x == Nil then 0 else s.hist.place[x.node].at + 1;
    assert forall j :: 0 <= j < |free| ==> s.hist.place[free[j]] == InFree(j);
  }

  lemma StaleAllocSkips(s: State, t: nat)
    requires Inv(s) && t < |s.pc| && StaleAlloc(s, t)
    requires s.pc[t].x.At? ==> s.hist.place[s.pc[t].x.node].InFree? && s.pc[t].x.node != s.pc[t].h.node
    ensures !Sound(AllocStep(s, t))
  {
    hide Tags, Chain, Holders, Logs, Knows, Sound, Path, Walk;
    var r := AllocStep(s, t);
    var free := s.hist.free;
    var len := InstallsLower(s, t);
    DownPath(s.next, s.pc[t].x, free, len);
    FreeFits(s);
    WalkPath(s.next, s.pc[t].x, Down(free, len), |s.next|);
    assert FreeNodes(r) == Down(free, len);
    StaleAllocLoses(s, t, free[|free| - 2]);
  }

  lemma StaleAllocBreaks(s: State, t: nat)
    requires Inv(s) && t < |s.pc| && StaleAlloc(s, t)
    ensures !Sound(AllocStep(s, t))
  {
    hide Tags, Chain, FreeList, Holders, Logs, Knows, Sound, AllocStep;
    var h, x := s.pc[t].h, s.pc[t].x;
    if x.At? && (!s.hist.place[x.node].InFree? || x.node == h.node) {
      StaleAllocShares(s, t);
    } else {
      StaleAllocSkips(s, t);
    }
  }

  lemma BadStepBreaks(s: State, t: nat, a: Action)
    requires Inv(s) && t < |s.pc| && BadStep(s, t)
    ensures !Sound(Step(s, t, a))
  {
    if StaleAlloc(s, t) { StaleAllocBreaks(s, t); } else { StaleLinkBreaks(s, t); }
  }

  // ----- Whole runs -----

  ghost predicate CleanRun(s: State, sched: Schedule)
    requires Bounded(s) && Fits(sched, |s.pc|)
  {
    forall k :: 0 <= k < |sched| ==> !BadStep(Run(s, sched[..k]), sched[k].0)
  }

  ghost predicate SoundRun(s: State, sched: Schedule)
    requires Bounded(s) && Fits(sched, |s.pc|)
  {
    forall k :: 0 <= k <= |sched| ==> Sound(Run(s, sched[..k]))
  }

  lemma {:induction false} RunOneMore(s: State, sched: Schedule, k: nat)
    requires Bounded(s) && Fits(sched, |s.pc|) && k < |sched|
    ensures Run(s, sched[..k + 1]) == Step(Run(s, sched[..k]), sched[k].0, sched[k].1)
  {
    assert sched[..k + 1][..k] == sched[..k];
  }

  // A clean run keeps the invariant.
  lemma {:induction false} CleanInv(s: State, sched: Schedule, k: nat)
    requires Bounded(s) && Inv(s) && Fits(sched, |s.pc|) && k <= |sched|
    requires forall j :: 0 <= j < k ==> !BadStep(Run(s, sched[..j]), sched[j].0)
    ensures Inv(Run(s, sched[..k]))
  {
    hide Bounded, Inv, Step, BadStep;
    if k > 0 {
      CleanInv(s, sched, k - 1);
      RunOneMore(s, sched, k - 1);
      StepInv(Run(s, sched[..k - 1]), sched[k - 1].0, sched[k - 1].1);
    }
  }

  /** The main theorem: every state of a run is sound if and only if no step of the run is bad. */
  lemma {:induction false} SoundIffClean(s: State, sched: Schedule)
    requires Bounded(s) && Inv(s) && Fits(sched, |s.pc|)
    ensures SoundRun(s, sched) <==> CleanRun(s, sched)
  {
    hide Bounded, Inv, Step, BadStep, Sound;
    if CleanRun(s, sched) {
      forall k | 0 <= k <= |sched|
        ensures Sound(Run(s, sched[..k]))
      {
        CleanInv(s, sched, k);
        InvSound(Run(s, sched[..k]));
      }
    } else {
      var k := FirstBad(s, sched);
      CleanInv(s, sched, k);
      RunOneMore(s, sched, k);
      BadStepBreaks(Run(s, sched[..k]), sched[k].0, sched[k].1);
    }
  }

  lemma {:induction false} FirstBad(s: State, sched: Schedule) returns (k: nat)
    requires Bounded(s) && Fits(sched, |s.pc|) && !CleanRun(s, sched)
    ensures k < |sched| && BadStep(Run(s, sched[..k]), sched[k].0)
    ensures forall j :: 0 <= j < k ==> !BadStep(Run(s, sched[..j]), sched[j].0)
  {
    hide Bounded, Step, BadStep;
    var bad := seq(|sched|, j requires 0 <= j < |sched| => BadStep(Run(s, sched[..j]), sched[j].0));
    var j :| 0 <= j < |sched| && BadStep(Run(s, sched[..j]), sched[j].0);
    assert bad[j];
    k := FirstTrue(bad, j);
    forall i | 0 <= i < k
      ensures !BadStep(Run(s, sched[..i]), sched[i].0)
    {
      assert !bad[i];
    }
  }
}

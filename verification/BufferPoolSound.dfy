/**
  No buffer has two holders and none leaks, exactly on the runs without a stale allocation; and
  with release tags that start above all initial tags no run has one.
 */
module BufferPoolSound {
  import opened NodeList
  import opened BufferPool

  // ----- The invariant is soundness -----

  lemma FreeFits(s: State)
    requires Inv(s)
    ensures NoDup(s.free) && |s.free| <= |s.next|
  {
    forall a, b | 0 <= a < b < |s.free|
      ensures s.free[a] != s.free[b]
    {
      assert s.place[s.free[a]] == InFree(a) && s.place[s.free[b]] == InFree(b);
    }
    DistinctFit(s.free, |s.next|);
  }

  lemma FreeIsFree(s: State)
    requires Inv(s)
    ensures FreeNodes(s) == Down(s.free, |s.free|) && NoDup(FreeNodes(s))
    ensures forall n :: 0 <= n < |s.next| ==> (n in FreeNodes(s) <==> s.place[n].InFree?)
  {
    hide Stored, Holders, Path, Walk;
    FreeFits(s);
    FreeWalk(s.next, s.head, s.free);
    forall n | 0 <= n < |s.next|
      ensures n in FreeNodes(s) <==> s.place[n].InFree?
    {
      DownHas(s.free, n);
    }
  }

  lemma InvSound(s: State)
    requires Inv(s)
    ensures Sound(s)
  {
    FreeIsFree(s);
    forall n | 0 <= n < |s.next| && s.place[n].HeldBy?
      ensures Held(s, n)
    {
      assert HeldNode(s.pc[s.place[n].thread]) == n;
    }
  }

  // ----- A stale allocation breaks it -----

  // A node that is both listed and held, or both listed and in use, has two owners.
  lemma TwoOwners(r: State, n: nat)
    requires Bounded(r) && n < |r.next| && n in FreeNodes(r) && (Held(r, n) || r.place[n] == InUse)
    ensures !Sound(r)
  {
  }

  lemma StaleShares(s: State, t: nat)
    requires Inv(s) && t < |s.pc| && StaleAlloc(s, t) && s.pc[t].x.At?
    requires !s.place[s.pc[t].x.node].InFree? || s.pc[t].x.node == s.pc[t].h.node
    ensures !Sound(Step(s, t, Go))
  {
    hide Sound, FreeList;
    var r := Step(s, t, Go);
    var n := s.pc[t].x.node;
    assert FreeNodes(r)[0] == n;
    if s.place[n].HeldBy? {
      var u := s.place[n].thread;
      assert HeldNode(s.pc[u]) == n;
      assert u != t && HeldNode(r.pc[u]) == n;
      assert Held(r, n);
    } else if n == s.pc[t].h.node {
      assert HeldNode(r.pc[t]) == n;
      assert Held(r, n);
    }
    TwoOwners(r, n);
  }

  lemma StaleLoses(s: State, t: nat, lost: nat)
    requires Inv(s) && t < |s.pc| && StaleAlloc(s, t) && lost < |s.next|
    requires s.place[lost].InFree? && lost != s.pc[t].h.node && lost !in FreeNodes(Step(s, t, Go))
    ensures !Sound(Step(s, t, Go))
  {
    var r := Step(s, t, Go);
    assert forall u :: 0 <= u < |s.pc| ==> HeldNode(r.pc[u]) == if u == t then s.pc[t].h.node else HeldNode(s.pc[u]);
    assert !Held(r, lost);
  }

  // The successor it installs is further down the list, so the top of the rest is lost.
  lemma InstallsLower(s: State, t: nat) returns (len: nat)
    requires Inv(s) && t < |s.pc| && StaleAlloc(s, t)
    requires s.pc[t].x.At? ==> s.place[s.pc[t].x.node].InFree? && s.pc[t].x.node != s.pc[t].h.node
    ensures len + 1 < |s.free| && PointsTo(s.pc[t].x, s.free, len) && s.pc[t].h.node == s.free[|s.free| - 1]
  {
    hide Holders, Stored;
    var x, free := s.pc[t].x, s.free;
    assert s.pc[t].h.node == free[|free| - 1] && PointsTo(s.next[free[|free| - 1]], free, |free| - 1);
    len := if x == Nil then 0 else s.place[x.node].at + 1;
  }

  lemma StaleSkips(s: State, t: nat)
    requires Inv(s) && t < |s.pc| && StaleAlloc(s, t)
    requires s.pc[t].x.At? ==> s.place[s.pc[t].x.node].InFree? && s.pc[t].x.node != s.pc[t].h.node
    ensures !Sound(Step(s, t, Go))
  {
    hide Sound, Holders, Stored, Path, Walk, PcOk;
    var r := Step(s, t, Go);
    var free := s.free;
    var len := InstallsLower(s, t);
    FreeFits(s);
    DownPath(s.next, s.pc[t].x, free, len);
    WalkPath(s.next, s.pc[t].x, Down(free, len), |s.next|);
    assert FreeNodes(r) == Down(free, len);
    StaleLoses(s, t, free[|free| - 2]);
  }

  lemma StaleBreaks(s: State, t: nat)
    requires Inv(s) && t < |s.pc| && StaleAlloc(s, t)
    ensures !Sound(Step(s, t, Go))
  {
    hide Sound, FreeList, Holders, Stored, Step;
    var h, x := s.pc[t].h, s.pc[t].x;
    if x.At? && (!s.place[x.node].InFree? || x.node == h.node) {
      StaleShares(s, t);
    } else {
      StaleSkips(s, t);
    }
  }

  // ----- Whole runs -----

  ghost predicate CleanRun(s: State, sched: Schedule)
    requires Bounded(s) && Fits(sched, |s.pc|)
  {
    forall k :: 0 <= k < |sched| ==> !StaleAlloc(Run(s, sched[..k]), sched[k].0)
  }

  ghost predicate SoundRun(s: State, sched: Schedule)
    requires Bounded(s) && Fits(sched, |s.pc|)
  {
    forall k :: 0 <= k <= |sched| ==> Sound(Run(s, sched[..k]))
  }

  lemma {:induction false} RunOneMore(s: State, sched: Schedule, k: nat)
    requires Bounded(s) && Fits(sched, |s.pc|) && k < |sched|
    ensures Run(s, sched[..k + 1]) == Step(Run(s, sched[..k]), sched[k].0, sched[k].1)
  {
    assert sched[..k + 1][..k] == sched[..k];
  }

  lemma {:induction false} CleanInv(s: State, sched: Schedule, k: nat)
    requires Bounded(s) && Inv(s) && Fits(sched, |s.pc|) && k <= |sched|
    requires forall j :: 0 <= j < k ==> !StaleAlloc(Run(s, sched[..j]), sched[j].0)
    ensures Inv(Run(s, sched[..k]))
  {
    hide Bounded, Inv, Step, StaleAlloc;
    if k > 0 {
      CleanInv(s, sched, k - 1);
      RunOneMore(s, sched, k - 1);
      StepInv(Run(s, sched[..k - 1]), sched[k - 1].0, sched[k - 1].1);
    }
  }

  /** Every state of a run is sound if and only if no allocation of the run is stale. */
  lemma {:induction false} SoundIffClean(s: State, sched: Schedule)
    requires Bounded(s) && Inv(s) && Fits(sched, |s.pc|)
    ensures SoundRun(s, sched) <==> CleanRun(s, sched)
  {
    hide Bounded, Inv, Step, StaleAlloc, Sound;
    if CleanRun(s, sched) {
      forall k | 0 <= k <= |sched|
        ensures Sound(Run(s, sched[..k]))
      {
        CleanInv(s, sched, k);
        InvSound(Run(s, sched[..k]));
      }
    } else {
      var stale := seq(|sched|, j requires 0 <= j < |sched| => StaleAlloc(Run(s, sched[..j]), sched[j].0));
      var j :| 0 <= j < |sched| && StaleAlloc(Run(s, sched[..j]), sched[j].0);
      assert stale[j];
      var k := FirstTrue(stale, j);
      forall i | 0 <= i < k
        ensures !StaleAlloc(Run(s, sched[..i]), sched[i].0)
      {
        assert !stale[i];
      }
      CleanInv(s, sched, k);
      RunOneMore(s, sched, k);
      StaleIsGo(Run(s, sched[..k]), sched[k].0, sched[k].1);
      StaleBreaks(Run(s, sched[..k]), sched[k].0);
    }
  }

  lemma StaleIsGo(s: State, t: nat, a: Action)
    requires Bounded(s) && t < |s.pc| && StaleAlloc(s, t)
    ensures Step(s, t, a) == Step(s, t, Go)
  {
  }

  // ----- Fresh tags: a (tag, buffer) pair that has left the free list never comes back -----

  function ReleaseTag(c: Pc): int {
    match c
    case RelRead(_, id) => id
    case RelStore(_, id, _) => id
    case RelCas(_, id, _) => id
    case _ => -1
  }

  function SavedHead(c: Pc): Ptr {
    match c
    case AllocNext(h) => h
    case AllocCas(h, _) => h
    case _ => Nil
  }

  // A pointer whose tag has been given out and is not about to be installed again.
  ghost predicate Used(s: State, p: Ptr) {
    p.At? ==> p.tag < s.id && forall t {:trigger ReleaseTag(s.pc[t])} :: 0 <= t < |s.pc| ==> ReleaseTag(s.pc[t]) != p.tag
  }

  // p is head_ or the `next_` of a free buffer.
  ghost predicate Entry(s: State, p: Ptr)
    requires Bounded(s)
  {
    p.At? && (s.head == p || exists n :: 0 <= n < |s.next| && s.place[n].InFree? && s.next[n] == p)
  }

  ghost predicate Fresh(s: State)
    requires Bounded(s)
  {
    && (forall t :: 0 <= t < |s.pc| ==> ReleaseTag(s.pc[t]) < s.id)
    && (forall t, u :: 0 <= t < u < |s.pc| && ReleaseTag(s.pc[t]) >= 0 ==> ReleaseTag(s.pc[t]) != ReleaseTag(s.pc[u]))
    && Used(s, s.head)
    && (forall n :: 0 <= n < |s.next| && s.place[n].InFree? ==> Used(s, s.next[n]))
    && (forall t :: 0 <= t < |s.pc| ==> Used(s, SavedHead(s.pc[t])))
    && (forall t :: 0 <= t < |s.pc| && s.pc[t].AllocCas? && Entry(s, s.pc[t].h) ==> s.next[s.pc[t].h.node] == s.pc[t].x)
  }

  lemma InitFresh(size: nat, seed: nat, threads: nat)
    requires 1 <= size <= seed
    ensures Fresh(Init(size, seed, threads))
  {
    var s := Init(size, seed, threads);
    assert forall t :: 0 <= t < threads ==> s.pc[t] == Idle(NoCall);
  }

  // A step that brings no new entry and no new tag.
  ghost predicate NoNewEntry(s: State, r: State, t: nat)
    requires Bounded(s) && Bounded(r)
  {
    && t < |s.pc| == |r.pc| && |r.next| == |s.next|
    && (forall u :: 0 <= u < |s.pc| && u != t ==> r.pc[u] == s.pc[u])
    && r.id == s.id
    && ReleaseTag(r.pc[t]) in {-1, ReleaseTag(s.pc[t])}
    && (r.head == s.head || (Entry(s, s.head) && r.head == s.next[s.head.node]))
    && (forall n {:trigger r.next[n]} {:trigger r.place[n]} :: 0 <= n < |s.next| && r.place[n].InFree? ==>
          s.place[n].InFree? && r.next[n] == s.next[n])
  }

  lemma EntryFree(s: State, p: Ptr)
    requires Inv(s) && Entry(s, p)
    ensures p.node < |s.next| && s.place[p.node].InFree?
  {
    if s.head == p {
      assert s.place[s.free[|s.free| - 1]].InFree?;
    } else {
      var n :| 0 <= n < |s.next| && s.place[n].InFree? && s.next[n] == p;
      assert PointsTo(s.next[s.free[s.place[n].at]], s.free, s.place[n].at);
    }
  }

  lemma EntryWas(s: State, r: State, t: nat, p: Ptr)
    requires Inv(s) && Bounded(r) && NoNewEntry(s, r, t) && Entry(r, p)
    ensures Entry(s, p)
  {
    if r.head == p && r.head != s.head {
      EntryFree(s, s.head);
    } else if r.head != p {
      var n :| 0 <= n < |r.next| && r.place[n].InFree? && r.next[n] == p;
      assert s.next[n] == p;
    }
  }

  lemma UsedStays(s: State, r: State, t: nat, p: Ptr)
    requires Bounded(s) && Bounded(r) && NoNewEntry(s, r, t) && Used(s, p)
    ensures Used(r, p)
  {
    if p.At? {
      assert ReleaseTag(s.pc[t]) != p.tag;
      assert forall u :: 0 <= u < |s.pc| ==> ReleaseTag(s.pc[u]) != p.tag;
    }
  }

  lemma FreshKept(s: State, r: State, t: nat)
    requires Inv(s) && Fresh(s) && Inv(r) && NoNewEntry(s, r, t)
    requires SavedHead(r.pc[t]) in {Nil, SavedHead(s.pc[t]), s.head}
    requires r.pc[t].AllocCas? && Entry(r, r.pc[t].h) ==> r.next[r.pc[t].h.node] == r.pc[t].x
    ensures Fresh(r)
  {
    assert Used(s, s.head) && Used(s, SavedHead(s.pc[t]));
    if r.head.At? {
      if r.head != s.head { EntryFree(s, s.head); }
      UsedStays(s, r, t, r.head);
    }
    forall n | 0 <= n < |r.next| && r.place[n].InFree?
      ensures Used(r, r.next[n])
    {
      UsedStays(s, r, t, s.next[n]);
    }
    forall u | 0 <= u < |r.pc|
      ensures Used(r, SavedHead(r.pc[u]))
    {
      UsedStays(s, r, t, if u == t then SavedHead(r.pc[t]) else SavedHead(s.pc[u]));
    }
    forall u | 0 <= u < |r.pc| && r.pc[u].AllocCas? && Entry(r, r.pc[u].h)
      ensures r.next[r.pc[u].h.node] == r.pc[u].x
    {
      EntryFree(r, r.pc[u].h);
      if u != t { EntryWas(s, r, t, r.pc[u].h); }
    }
  }

  lemma ReleaseIdFresh(s: State, t: nat)
    requires Bounded(s) && Fresh(s) && t < |s.pc| && s.pc[t].RelId?
    ensures Fresh(Step(s, t, Go))
  {
    var r := Step(s, t, Go);
    forall p | Used(s, p)
      ensures Used(r, p)
    {
      if p.At? { assert forall u :: 0 <= u < |s.pc| ==> ReleaseTag(s.pc[u]) != p.tag; }
    }
    forall p | Entry(r, p)
      ensures Entry(s, p)
    {
      if r.head != p {
        var n :| 0 <= n < |r.next| && r.place[n].InFree? && r.next[n] == p;
        assert s.next[n] == p;
      }
    }
  }

  lemma ReleaseCasFresh(s: State, t: nat)
    requires Inv(s) && Fresh(s) && t < |s.pc| && s.pc[t].RelCas? && s.head == s.pc[t].h
    ensures Fresh(Step(s, t, Go))
  {
    var r := Step(s, t, Go);
    var c := s.pc[t];
    assert ReleaseTag(c) == c.id;
    forall p | Used(s, p)
      ensures Used(r, p) && p != At(c.id, c.node)
    {
      if p.At? {
        assert ReleaseTag(s.pc[t]) != p.tag;
        assert forall u :: 0 <= u < |s.pc| ==> ReleaseTag(s.pc[u]) != p.tag;
      }
    }
    assert Used(r, r.head) by {
      assert forall u :: 0 <= u < |s.pc| && u != t ==> ReleaseTag(s.pc[u]) != c.id;
    }
    forall p | Entry(r, p) && p != At(c.id, c.node)
      ensures Entry(s, p)
    {
      var n :| 0 <= n < |r.next| && r.place[n].InFree? && r.next[n] == p;
      assert n == c.node || s.place[n].InFree?;
    }
    assert forall u :: 0 <= u < |s.pc| && u != t ==> r.pc[u] == s.pc[u];
    assert forall u :: 0 <= u < |s.pc| && u != t && s.pc[u].AllocCas? ==> SavedHead(s.pc[u]) == s.pc[u].h;
  }

  ghost predicate EntryKept(s: State, r: State, t: nat)
    requires Bounded(s) && Bounded(r) && t < |s.pc| == |r.pc|
  {
    && NoNewEntry(s, r, t) && SavedHead(r.pc[t]) in {Nil, SavedHead(s.pc[t]), s.head}
    && (r.pc[t].AllocCas? && Entry(r, r.pc[t].h) ==> r.next[r.pc[t].h.node] == r.pc[t].x)
  }

  lemma TakeEntry(s: State, t: nat)
    requires Bounded(s) && Fresh(s) && t < |s.pc| && s.pc[t].AllocCas? && s.head == s.pc[t].h
    ensures EntryKept(s, Step(s, t, Go), t)
  {
    assert Entry(s, s.head);
    assert s.next[s.head.node] == s.pc[t].x;
  }

  lemma MoveEntry(s: State, t: nat, a: Action)
    requires Bounded(s) && Fresh(s) && t < |s.pc| && !s.pc[t].RelId? && !s.pc[t].Idle? && !s.pc[t].AllocClear? && !s.pc[t].RelStore?
    requires s.pc[t].AllocCas? || s.pc[t].RelCas? ==> s.head != s.pc[t].h
    ensures EntryKept(s, Step(s, t, a), t)
  {
    var r := Step(s, t, a);
    assert r.next == s.next && r.head == s.head && r.place == s.place && r.id == s.id;
  }

  lemma HeldEntry(s: State, t: nat, a: Action)
    requires Bounded(s) && Holders(s) && t < |s.pc| && (s.pc[t].Idle? || s.pc[t].AllocClear? || s.pc[t].RelStore?)
    ensures EntryKept(s, Step(s, t, a), t)
  {
    hide PcOk;
    if !s.pc[t].Idle? { assert HeldNode(s.pc[t]) == s.pc[t].node; }
  }

  lemma OtherEntry(s: State, t: nat, a: Action)
    requires Inv(s) && Fresh(s) && t < |s.pc| && !s.pc[t].RelId? && (s.pc[t].RelCas? ==> s.head != s.pc[t].h)
    ensures EntryKept(s, Step(s, t, a), t)
  {
    hide Fresh, FreeList, Holders, Stored, EntryKept, Entry, NoNewEntry;
    if s.pc[t].AllocCas? && s.head == s.pc[t].h {
      TakeEntry(s, t);
      assert Step(s, t, a) == Step(s, t, Go);
    } else if s.pc[t].Idle? || s.pc[t].AllocClear? || s.pc[t].RelStore? {
      HeldEntry(s, t, a);
    } else {
      MoveEntry(s, t, a);
    }
  }

  lemma {:induction false} FreshStep(s: State, t: nat, a: Action)
    requires Inv(s) && Fresh(s) && t < |s.pc|
    ensures !StaleAlloc(s, t) && Inv(Step(s, t, a)) && Fresh(Step(s, t, a))
  {
    hide Step, Fresh, FreeList, Holders, Used, Entry;
    FreshClean(s, t);
    StepInv(s, t, a);
    if s.pc[t].RelId? {
      ReleaseIdFresh(s, t);
      ReleaseIgnoresAction(s, t, a);
    } else if s.pc[t].RelCas? && s.head == s.pc[t].h {
      ReleaseCasFresh(s, t);
      ReleaseIgnoresAction(s, t, a);
    } else {
      OtherEntry(s, t, a);
      FreshKept(s, Step(s, t, a), t);
    }
  }

  lemma FreshClean(s: State, t: nat)
    requires Bounded(s) && Fresh(s) && t < |s.pc|
    ensures !StaleAlloc(s, t)
  {
  }

  lemma ReleaseIgnoresAction(s: State, t: nat, a: Action)
    requires Bounded(s) && t < |s.pc| && (s.pc[t].RelId? || s.pc[t].RelCas?)
    ensures Step(s, t, a) == Step(s, t, Go)
  {
  }
}

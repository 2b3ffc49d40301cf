/** The untagged per-thread list is sound on every run: any releasers, one allocating owner. */
module ThreadListProofs {
  import opened NodeList
  import opened ThreadList

  lemma Moves(s: State, t: nat, a: Action)
    requires Bounded(s) && t < |s.pc|
    ensures var r := Step(s, t, a); r.pc == s.pc[t := r.pc[t]]
  {
  }

  // ----- The two compare-and-swaps -----

  predicate Unlinks(s: State, t: nat)
    requires t < |s.pc|
  {
    s.pc[t].AllocCas? && s.head == To(s.pc[t].node)
  }

  predicate Puts(s: State, t: nat)
    requires t < |s.pc|
  {
    s.pc[t].RelCas? && s.head == s.pc[t].h
  }

  // The owner's compare-and-swap takes the last node of `free` and installs its true successor.
  lemma UnlinksTop(s: State, t: nat)
    requires Bounded(s) && FreeList(s) && OwnerSees(s) && t < |s.pc| && Unlinks(s, t)
    ensures t == s.owner && s.free != [] && s.pc[t].node == s.free[|s.free| - 1] && s.next[s.pc[t].node] == s.pc[t].x
    ensures PointsTo(s.pc[t].x, s.free, |s.free| - 1)
  {
    assert IsAlloc(s.pc[t]);
    assert s.next[s.free[|s.free| - 1]] == s.pc[t].x;
  }

  lemma UnlinkList(s: State, t: nat)
    requires Bounded(s) && FreeList(s) && OwnerSees(s) && t < |s.pc| && Unlinks(s, t)
    ensures FreeList(Step(s, t, Go))
  {
    hide OwnerSees;
    UnlinksTop(s, t);
    var r := Step(s, t, Go);
    assert r.free == s.free[..|s.free| - 1] && r.next == s.next;
    assert forall j :: 0 <= j < |r.free| ==> r.free[j] == s.free[j] && r.free[j] != s.pc[t].node;
  }

  // Which nodes the list has, and where.
  ghost predicate Places(s: State)
    requires Bounded(s)
  {
    && (forall j :: 0 <= j < |s.free| ==> s.free[j] < |s.next| && s.place[s.free[j]] == InFree(j))
    && (forall n :: 0 <= n < |s.next| && s.place[n].InFree? ==>
          s.place[n].at < |s.free| && s.free[s.place[n].at] == n)
  }

  lemma ListIsListed(s: State)
    requires Bounded(s)
    ensures FreeList(s) <==> Places(s) && Listed(s.next, s.head, s.free)
  {
  }

  lemma PutPlaces(s: State, t: nat)
    requires Bounded(s) && Places(s) && Holders(s) && t < |s.pc| && Puts(s, t)
    ensures Places(Step(s, t, Go))
  {
    var r := Step(s, t, Go);
    assert HeldNode(s.pc[t]) == s.pc[t].node;
    assert r.free == s.free + [s.pc[t].node] && r.place == s.place[s.pc[t].node := InFree(|s.free|)] && r.next == s.next;
  }

  lemma PutList(s: State, t: nat)
    requires Bounded(s) && FreeList(s) && Holders(s) && Links(s) && t < |s.pc| && Puts(s, t)
    ensures FreeList(Step(s, t, Go))
  {
    hide FreeList, Listed, Places, Holders, Bounded;
    var r := Step(s, t, Go);
    ListIsListed(s);
    PutPlaces(s, t);
    assert NodePtr(To(s.pc[t].node), |s.next|) && s.next[s.pc[t].node] == s.head by { PutLinks(s, t); }
    ListedPush(s.next, s.head, s.free, To(s.pc[t].node));
    ListIsListed(r);
  }

  lemma PutLinks(s: State, t: nat)
    requires Bounded(s) && Links(s) && t < |s.pc| && Puts(s, t)
    ensures s.pc[t].node < |s.next| && s.next[s.pc[t].node] == s.head
  {
  }

  // ----- The list -----

  lemma ListElsewhere(s: State, r: State)
    requires Bounded(s) && Bounded(r) && FreeList(s) && |r.next| == |s.next| && r.free == s.free && r.head == s.head
    requires forall n :: 0 <= n < |s.next| && s.place[n].InFree? ==> r.place[n] == s.place[n]
    requires forall n :: 0 <= n < |s.next| && r.place[n].InFree? ==> r.place[n] == s.place[n]
    requires forall n {:trigger r.next[n]} :: 0 <= n < |s.next| && s.place[n].InFree? ==> r.next[n] == s.next[n]
    ensures FreeList(r)
  {
  }

  lemma OtherList(s: State, t: nat, a: Action)
    requires Bounded(s) && FreeList(s) && Holders(s) && t < |s.pc| && !Unlinks(s, t) && !Puts(s, t)
    ensures FreeList(Step(s, t, a))
  {
    ListElsewhere(s, Step(s, t, a));
  }

  lemma ListStep(s: State, t: nat, a: Action)
    requires Bounded(s) && FreeList(s) && Holders(s) && Links(s) && OwnerSees(s) && t < |s.pc|
    ensures FreeList(Step(s, t, a))
  {
    hide FreeList, Holders, Links, OwnerSees, Bounded;
    if Unlinks(s, t) {
      UnlinkList(s, t);
    } else if Puts(s, t) {
      PutList(s, t);
    } else {
      OtherList(s, t, a);
    }
  }

  // ----- Who holds what -----

  lemma HoldersAlloc(s: State, t: nat)
    requires Bounded(s) && Holders(s) && t < |s.pc| && IsAlloc(s.pc[t])
    requires Unlinks(s, t) ==> s.place[s.pc[t].node].InFree?
    ensures Holders(AllocStep(s, t))
  {
    hide PcOk;
  }

  lemma HoldersRelease(s: State, t: nat)
    requires Bounded(s) && Holders(s) && t < |s.pc| && IsRelease(s.pc[t]) && !ReleaseStep(s, t).pc[t].AssertFailed?
    ensures Holders(ReleaseStep(s, t))
  {
    hide PcOk;
    assert HeldNode(s.pc[t]) == s.pc[t].node;
  }

  lemma HoldersCall(s: State, t: nat, a: Action)
    requires Bounded(s) && Holders(s) && t < |s.pc| && s.pc[t].Idle?
    ensures Holders(Call(s, t, a))
  {
    hide PcOk;
  }

  lemma HoldersStep(s: State, t: nat, a: Action)
    requires Bounded(s) && FreeList(s) && Holders(s) && OwnerSees(s) && t < |s.pc| && Counter(Step(s, t, a))
    ensures Holders(Step(s, t, a))
  {
    hide FreeList, OwnerSees, Holders;
    if IsAlloc(s.pc[t]) {
      if Unlinks(s, t) { UnlinkPlace(s, t); }
      HoldersAlloc(s, t);
    } else if IsRelease(s.pc[t]) {
      HoldersRelease(s, t);
    } else if s.pc[t].Idle? {
      HoldersCall(s, t, a);
    }
  }

  lemma UnlinkPlace(s: State, t: nat)
    requires Bounded(s) && FreeList(s) && OwnerSees(s) && t < |s.pc| && Unlinks(s, t)
    ensures s.place[s.pc[t].node].InFree?
  {
    UnlinksTop(s, t);
  }

  // ----- Links of unlisted nodes -----

  lemma LinksAlloc(s: State, t: nat)
    requires Bounded(s) && Holders(s) && Links(s) && t < |s.pc| && IsAlloc(s.pc[t])
    ensures Links(AllocStep(s, t))
  {
    hide PcOk;
    assert forall u :: 0 <= u < |s.pc| && (s.pc[u].RelCas? || s.pc[u].RelAssert?) ==> HeldNode(s.pc[u]) == s.pc[u].node;
    assert s.pc[t].AllocClear? ==> HeldNode(s.pc[t]) == s.pc[t].node;
  }

  lemma LinksRelease(s: State, t: nat)
    requires Bounded(s) && Holders(s) && Links(s) && t < |s.pc| && IsRelease(s.pc[t])
    ensures Links(ReleaseStep(s, t))
  {
    hide PcOk;
    assert forall u :: 0 <= u < |s.pc| && (s.pc[u].RelCas? || s.pc[u].RelAssert?) ==> HeldNode(s.pc[u]) == s.pc[u].node;
    assert HeldNode(s.pc[t]) == s.pc[t].node;
  }

  lemma LinksCall(s: State, t: nat, a: Action)
    requires Bounded(s) && Links(s) && t < |s.pc| && s.pc[t].Idle?
    ensures Links(Call(s, t, a))
  {
    hide PcOk;
  }

  lemma LinksStep(s: State, t: nat, a: Action)
    requires Bounded(s) && Holders(s) && Links(s) && t < |s.pc|
    ensures Links(Step(s, t, a))
  {
    hide Holders, Links;
    if IsAlloc(s.pc[t]) {
      LinksAlloc(s, t);
    } else if IsRelease(s.pc[t]) {
      LinksRelease(s, t);
    } else if s.pc[t].Idle? {
      LinksCall(s, t, a);
    }
  }

  // ----- What the owner has seen -----

  lemma OwnerMoves(s: State)
    requires Bounded(s) && FreeList(s) && Links(s) && OwnerSees(s) && IsAlloc(s.pc[s.owner])
    ensures OwnerSees(AllocStep(s, s.owner))
  {
    var r := AllocStep(s, s.owner);
    if s.pc[s.owner].AllocRead? && s.head != Nil {
      assert s.place[s.free[|s.free| - 1]].InFree?;
    }
  }

  lemma OwnerUndisturbed(s: State, t: nat)
    requires Bounded(s) && Holders(s) && OwnerSees(s) && t < |s.pc| && IsRelease(s.pc[t])
    ensures OwnerSees(ReleaseStep(s, t))
  {
    var r := ReleaseStep(s, t);
    assert HeldNode(s.pc[t]) == s.pc[t].node;
    assert r.pc == s.pc[t := r.pc[t]] && !IsAlloc(r.pc[t]);
  }

  lemma OwnerCalls(s: State, t: nat, a: Action)
    requires Bounded(s) && OwnerSees(s) && t < |s.pc| && s.pc[t].Idle?
    ensures OwnerSees(Call(s, t, a))
  {
  }

  lemma OwnerStep(s: State, t: nat, a: Action)
    requires Bounded(s) && FreeList(s) && Holders(s) && Links(s) && OwnerSees(s) && t < |s.pc|
    ensures OwnerSees(Step(s, t, a))
  {
    hide FreeList, Holders, Links;
    if IsAlloc(s.pc[t]) {
      assert t == s.owner;
      OwnerMoves(s);
    } else if IsRelease(s.pc[t]) {
      OwnerUndisturbed(s, t);
    } else if s.pc[t].Idle? {
      OwnerCalls(s, t, a);
    }
  }

  // ----- node_number -----

  function One(c: Pc): nat { if CountedNode(c) then 1 else 0 }

  lemma {:induction false} CountedUpdate(pc: seq<Pc>, t: nat, c: Pc)
    requires t < |pc|
    ensures |Counted(pc[t := c])| == |Counted(pc)| - One(pc[t]) + One(c)
  {
    var k := |pc| - 1;
    if t == k {
      assert pc[t := c][..k] == pc[..k];
    } else {
      assert pc[t := c][..k] == pc[..k][t := c];
      CountedUpdate(pc[..k], t, c);
    }
  }

  lemma {:induction false} CountedDistinct(s: State, k: nat)
    requires Bounded(s) && Holders(s) && k <= |s.pc|
    ensures NoDup(Counted(s.pc[..k]))
    ensures forall n :: n in Counted(s.pc[..k]) ==>
              n < |s.next| && s.place[n].HeldBy? && s.place[n].thread < k && CountedNode(s.pc[s.place[n].thread])
  {
    if k > 0 {
      assert s.pc[..k][..k - 1] == s.pc[..k - 1];
      CountedDistinct(s, k - 1);
    }
  }

  // A releaser that has not counted yet keeps the count below population + 1.
  lemma CountFits(s: State, t: nat)
    requires Bounded(s) && FreeList(s) && Holders(s) && t < |s.pc| && s.pc[t].RelCount?
    ensures |s.free| + |Counted(s.pc)| < |s.next|
  {
    var n := s.pc[t].node;
    assert HeldNode(s.pc[t]) == n;
    CountedDistinct(s, |s.pc|);
    assert s.pc[..|s.pc|] == s.pc;
    var counted := Counted(s.pc);
    var xs := s.free + counted + [n];
    assert forall j :: 0 <= j < |counted| ==> counted[j] in counted;
    assert n !in counted;
    FreeDistinct(s);
    forall a, b | 0 <= a < b < |xs|
      ensures xs[a] != xs[b]
    {
      if a < |s.free| { assert s.place[xs[a]].InFree?; }
    }
    DistinctFit(xs, |s.next|);
  }

  lemma FreeDistinct(s: State)
    requires Bounded(s) && FreeList(s)
    ensures NoDup(s.free) && |s.free| <= |s.next|
  {
    forall a, b | 0 <= a < b < |s.free|
      ensures s.free[a] != s.free[b]
    {
      assert s.place[s.free[a]] == InFree(a) && s.place[s.free[b]] == InFree(b);
    }
    DistinctFit(s.free, |s.next|);
  }

  lemma AllocCounter(s: State, t: nat)
    requires Bounded(s) && FreeList(s) && OwnerSees(s) && Counter(s) && t == s.owner && IsAlloc(s.pc[t])
    ensures Counter(AllocStep(s, t))
  {
    hide FreeList, OwnerSees;
    var r := AllocStep(s, t);
    CountedUpdate(s.pc, t, r.pc[t]);
    assert s.pc[t].AllocCount? || Unlinking(s.pc[t]) ==> s.free != [] by { OwnerHasSeen(s); }
    assert s.pc[t].AllocRead? ==> s.head != Nil by { HeadIsTop(s); }
  }

  lemma OwnerHasSeen(s: State)
    requires Bounded(s) && OwnerSees(s)
    ensures var c := s.pc[s.owner]; c.AllocCount? || Unlinking(c) ==> s.free != []
  {
  }

  lemma HeadIsTop(s: State)
    requires Bounded(s) && FreeList(s)
    ensures s.head == Nil <==> s.free == []
  {
  }

  lemma ReleaseCounter(s: State, t: nat)
    requires Bounded(s) && FreeList(s) && Holders(s) && Links(s) && OwnerSees(s) && Counter(s)
    requires t < |s.pc| && IsRelease(s.pc[t])
    ensures Counter(ReleaseStep(s, t))
  {
    hide FreeList, OwnerSees, Holders, Bounded, Counted;
    var r := ReleaseStep(s, t);
    CountedUpdate(s.pc, t, r.pc[t]);
    if s.pc[t].RelCount? { CountFits(s, t); }
    ReleaseMoves(s, t);
  }

  lemma ReleaseMoves(s: State, t: nat)
    requires Bounded(s) && Links(s) && t < |s.pc| && IsRelease(s.pc[t])
    ensures var r := ReleaseStep(s, t);
      && r.pc == s.pc[t := r.pc[t]] && !IsAlloc(r.pc[t])
      && (Unlinking(r.pc[s.owner]) <==> Unlinking(s.pc[s.owner]))
      && (s.pc[t].RelAssert? ==> r.pc[t].RelCount?)
  {
  }

  lemma CallCounter(s: State, t: nat, a: Action)
    requires Bounded(s) && Counter(s) && t < |s.pc| && s.pc[t].Idle?
    ensures Counter(Call(s, t, a))
  {
    CountedUpdate(s.pc, t, Call(s, t, a).pc[t]);
  }

  lemma CounterStep(s: State, t: nat, a: Action)
    requires Inv(s) && t < |s.pc|
    ensures Counter(Step(s, t, a))
  {
    hide FreeList, Holders, Links, Counter;
    if IsAlloc(s.pc[t]) {
      AllocCounter(s, t);
    } else if IsRelease(s.pc[t]) {
      ReleaseCounter(s, t);
    } else if s.pc[t].Idle? {
      CallCounter(s, t, a);
    }
  }

  lemma StepInv(s: State, t: nat, a: Action)
    requires Inv(s) && t < |s.pc|
    ensures Inv(Step(s, t, a))
  {
    hide FreeList, Holders, Links, OwnerSees, Counter, Step;
    CounterStep(s, t, a);
    ListStep(s, t, a);
    HoldersStep(s, t, a);
    LinksStep(s, t, a);
    OwnerStep(s, t, a);
  }

  // ----- Whole runs -----

  lemma {:induction false} RunInv(s: State, sched: Schedule)
    requires Bounded(s) && Fits(sched, |s.pc|) && Inv(s)
    ensures Inv(Run(s, sched))
  {
    hide Bounded, Step, Inv;
    if sched != [] {
      var k := |sched| - 1;
      RunInv(s, sched[..k]);
      StepInv(Run(s, sched[..k]), sched[k].0, sched[k].1);
    }
  }

  lemma FreeIsFree(s: State)
    requires Inv(s)
    ensures FreeNodes(s) == Down(s.free, |s.free|) && NoDup(FreeNodes(s)) && Path(s.next, s.head, FreeNodes(s))
    ensures forall n :: 0 <= n < |s.next| ==> (n in FreeNodes(s) <==> s.place[n].InFree?)
  {
    hide Counter, Links, OwnerSees, Holders, Path, Walk;
    FreeDistinct(s);
    ListIsListed(s);
    FreeWalk(s.next, s.head, s.free);
    forall n | 0 <= n < |s.next|
      ensures n in FreeNodes(s) <==> s.place[n].InFree?
    {
      DownHas(s.free, n);
    }
  }

  lemma InvSound(s: State)
    requires Inv(s)
    ensures Sound(s)
  {
    hide Counter, Links, OwnerSees, FreeList;
    FreeIsFree(s);
    forall n | 0 <= n < |s.next| && s.place[n].HeldBy?
      ensures Held(s, n)
    {
      assert HeldNode(s.pc[s.place[n].thread]) == n;
    }
  }

  /** Any number of releasing threads, one allocating owner, any schedule: the list is acyclic
      and ends in null, and listed, used and in-flight nodes partition the population + 1 nodes. */
  lemma {:induction false} ListIsSound(population: nat, owner: nat, threads: nat, sched: Schedule)
    requires owner < threads && Fits(sched, threads)
    ensures Sound(Run(Init(population, owner, threads), sched))
  {
    hide Sound, Inv;
    InitInv(population, owner, threads);
    RunInv(Init(population, owner, threads), sched);
    InvSound(Run(Init(population, owner, threads), sched));
  }

  /** Without tags, the owner's successful compare-and-swap still sees an unchanged `next`. */
  lemma {:induction false} PopSeesSuccessor(population: nat, owner: nat, threads: nat, sched: Schedule, t: nat)
    requires owner < threads && Fits(sched, threads) && t < threads
    ensures var s := Run(Init(population, owner, threads), sched);
      |s.pc| == threads && (Unlinks(s, t) ==>
        t == owner && s.next[s.pc[t].node] == s.pc[t].x && FreeNodes(Step(s, t, Go)) == FreeNodes(s)[1..])
  {
    hide Bounded, Step, Inv;
    InitInv(population, owner, threads);
    RunInv(Init(population, owner, threads), sched);
    var s := Run(Init(population, owner, threads), sched);
    if Unlinks(s, t) {
      StepInv(s, t, Go);
      UnlinkDropsHead(s, t);
    }
  }

  lemma UnlinkFree(s: State, t: nat)
    requires Bounded(s) && FreeList(s) && OwnerSees(s) && t < |s.pc| && Unlinks(s, t)
    ensures Step(s, t, Go).free == s.free[..|s.free| - 1] && s.free != []
  {
    UnlinksTop(s, t);
  }

  lemma UnlinkDropsHead(s: State, t: nat)
    requires Inv(s) && t < |s.pc| && Unlinks(s, t) && Inv(Step(s, t, Go))
    ensures t == s.owner && s.next[s.pc[t].node] == s.pc[t].x && FreeNodes(Step(s, t, Go)) == FreeNodes(s)[1..]
  {
    hide FreeList, Holders, Links, Counter, OwnerSees, FreeNodes, Step, AllocStep, ReleaseStep, Call;
    var r := Step(s, t, Go);
    FreeIsFree(s);
    FreeIsFree(r);
    UnlinksTop(s, t);
    UnlinkFree(s, t);
    assert Down(r.free, |r.free|) == Down(s.free, |s.free|)[1..];
  }

  /** node_number is the listed nodes, plus the releases between counting and linking, minus the
      owner's allocation between counting and unlinking; no assertion fails and Cleaner is never
      called, not even by the release of the last node. */
  lemma {:induction false} NumberIsRight(population: nat, owner: nat, threads: nat, sched: Schedule)
    requires owner < threads && Fits(sched, threads)
    ensures var s := Run(Init(population, owner, threads), sched);
      && NumberIs(s)
      && forall t :: 0 <= t < |s.pc| ==> s.pc[t] != AssertFailed && s.pc[t] != Cleaning
  {
    InitInv(population, owner, threads);
    RunInv(Init(population, owner, threads), sched);
    FreeIsFree(Run(Init(population, owner, threads), sched));
  }

  // ----- At rest, Size() is what is not in use -----

  function Uses(place: seq<Place>): nat {
    if place == [] then 0 else Uses(place[..|place| - 1]) + (if place[|place| - 1] == InUse then 1 else 0)
  }

  function FreeSet(place: seq<Place>): (ns: set<nat>)
    ensures forall n: nat :: n in ns <==> n < |place| && place[n].InFree?
  {
    if place == [] then {}
    else
      var k := |place| - 1;
      FreeSet(place[..k]) + (if place[k].InFree? then {k} else {})
  }

  lemma {:induction false} UsesAndFree(place: seq<Place>)
    requires forall n :: 0 <= n < |place| ==> !place[n].HeldBy?
    ensures |FreeSet(place)| + Uses(place) == |place|
  {
    if place != [] {
      var k := |place| - 1;
      UsesAndFree(place[..k]);
      assert k !in FreeSet(place[..k]);
    }
  }

  function Elements(xs: seq<nat>): (ns: set<nat>)
    ensures forall n: nat :: n in ns <==> n in xs
  {
    if xs == [] then {} else Elements(xs[..|xs| - 1]) + {xs[|xs| - 1]}
  }

  lemma {:induction false} DistinctCount(xs: seq<nat>)
    requires NoDup(xs)
    ensures |Elements(xs)| == |xs|
  {
    if xs != [] {
      var k := |xs| - 1;
      DistinctCount(xs[..k]);
      assert xs[k] !in xs[..k];
    }
  }

  lemma FreeCount(place: seq<Place>, free: seq<nat>)
    requires NoDup(free) && forall n: nat :: n in free <==> n < |place| && place[n].InFree?
    ensures |free| == |FreeSet(place)|
  {
    DistinctCount(free);
    assert FreeSet(place) == Elements(free);
  }

  lemma FreeIsPlace(s: State)
    requires Bounded(s) && FreeList(s)
    ensures forall n: nat :: n in s.free <==> n < |s.place| && s.place[n].InFree?
  {
    forall n: nat | n in s.free
      ensures n < |s.place| && s.place[n].InFree?
    {
      var j :| 0 <= j < |s.free| && s.free[j] == n;
      assert s.place[s.free[j]] == InFree(j);
    }
  }

  lemma IdleHoldsNothing(s: State)
    requires Bounded(s) && Holders(s) && forall t :: 0 <= t < |s.pc| ==> s.pc[t].Idle?
    ensures forall n :: 0 <= n < |s.place| ==> !s.place[n].HeldBy?
  {
  }

  lemma SizeIdle(s: State)
    requires Inv(s) && forall t :: 0 <= t < |s.pc| ==> s.pc[t].Idle?
    ensures s.number == |s.next| - Uses(s.place)
  {
    hide Links, OwnerSees, FreeList, Holders, NoDup, Uses, FreeSet;
    NoneCounted(s.pc);
    FreeDistinct(s);
    FreeIsPlace(s);
    IdleHoldsNothing(s);
    UsesAndFree(s.place);
    FreeCount(s.place, s.free);
  }

  /** When no thread is inside an operation, Size() is population + 1 minus the nodes in use; the
      dummy counts as one of them until it is released. */
  lemma {:induction false} SizeAtRest(population: nat, owner: nat, threads: nat, sched: Schedule)
    requires owner < threads && Fits(sched, threads)
    requires var s := Run(Init(population, owner, threads), sched); forall t :: 0 <= t < |s.pc| ==> s.pc[t].Idle?
    ensures var s := Run(Init(population, owner, threads), sched);
      s.number == population + 1 - Uses(s.place)
  {
    hide Bounded, Inv, Step;
    InitInv(population, owner, threads);
    RunInv(Init(population, owner, threads), sched);
    SizeIdle(Run(Init(population, owner, threads), sched));
  }
}

/**
  Queues with one or two nodes: too few nodes for a tail to become stale, and with two nodes and a
  first release tag of at least 1 no allocation is stale either.
 */
module ListQueueSmall {
  import opened NodeList
  import opened ListQueue
  import opened ListQueueInv
  import opened ListQueueSound
  import opened ListQueueFresh

  // ----- One node: it is the dummy, and nothing is ever allocated -----

  ghost predicate OneNode(s: State) {
    && Inv(s) && |s.next| == 1
    && forall t :: 0 <= t < |s.pc| ==> !s.pc[t].AllocNext? && !s.pc[t].AllocCas?
  }

  lemma FreeAtPlace(s: State, j: nat)
    requires Sizes(s) && FreeList(s) && j < |s.hist.free|
    ensures s.hist.free[j] < |s.next| && s.hist.place[s.hist.free[j]] == InFree(j)
  {
  }

  lemma OnlyDummy(s: State)
    requires Sizes(s) && Chain(s) && FreeList(s) && |s.next| == 1
    ensures s.hist.place[0].InQueue? && s.hist.free == []
  {
    hide FreeList, PcOk;
    assert s.hist.place[s.hist.link[s.hist.o].node] == InQueue(s.hist.o);
    if s.hist.free != [] { FreeAtPlace(s, 0); }
  }

  lemma NoneFree(s: State)
    requires Sizes(s) && Chain(s) && FreeList(s) && Holders(s) && |s.next| == 1
    ensures s.head == Nil && forall t :: 0 <= t < |s.pc| ==> HeldNode(s.pc[t]) < 0
  {
    hide Chain, PcOk;
    OnlyDummy(s);
  }

  lemma OneNodeStep(s: State, t: nat, a: Action)
    requires OneNode(s) && t < |s.pc|
    ensures !BadStep(s, t) && OneNode(Step(s, t, a))
  {
    hide Tags, Chain, FreeList, Holders, Logs, Knows, Step;
    NoneFree(s);
    assert HeldNode(s.pc[t]) < 0;
    StepInv(s, t, a);
    OnlyMoves(s, t, a);
    OneNodeMoves(s, t, a);
  }

  lemma OneNodeMoves(s: State, t: nat, a: Action)
    requires Bounded(s) && t < |s.pc| && s.head == Nil && !s.pc[t].AllocNext? && !s.pc[t].AllocCas?
    ensures var r := Step(s, t, a); |r.next| == |s.next| && !r.pc[t].AllocNext? && !r.pc[t].AllocCas?
  {
    hide Bounded, AllocStep, PushStep, PopStep, ReleaseStep;
    if IsAlloc(s.pc[t]) {
      OneNodeAllocs(s, t);
    } else if !s.pc[t].Idle? {
      NoneAllocates(s, t);
    }
  }

  lemma OneNodeAllocs(s: State, t: nat)
    requires Bounded(s) && t < |s.pc| && IsAlloc(s.pc[t]) && s.head == Nil && !s.pc[t].AllocNext? && !s.pc[t].AllocCas?
    ensures var c := AllocStep(s, t).pc[t]; !c.AllocNext? && !c.AllocCas?
  {
  }

  lemma NoneAllocates(s: State, t: nat)
    requires Bounded(s) && t < |s.pc| && !s.pc[t].Idle? && !IsAlloc(s.pc[t])
    ensures var c := Step(s, t, Go).pc[t]; !c.AllocNext? && !c.AllocCas?
  {
    hide Bounded, AllocStep;
  }

  // ----- Two nodes -----

  lemma FewFree(s: State)
    requires Sizes(s) && Chain(s) && FreeList(s) && |s.next| <= 2
    ensures |s.hist.free| <= 1
  {
    hide FreeList, PcOk;
    assert s.hist.place[s.hist.link[s.hist.o].node] == InQueue(s.hist.o);
    if |s.hist.free| >= 2 {
      FreeAtPlace(s, 0);
      FreeAtPlace(s, 1);
    }
  }

  // At most one node is free, so the list ends behind it.
  lemma FreeEnds(s: State)
    requires Sizes(s) && Chain(s) && FreeList(s) && |s.next| <= 2 && s.head.At?
    ensures s.next[s.head.node] == Nil
  {
    hide Chain, PcOk;
    FewFree(s);
    assert s.head.node == s.hist.free[0] && PointsTo(s.next[s.hist.free[0]], s.hist.free, 0);
  }

  // Fetched tags are distinct and at least 1, and tag 1 is for node 0.
  ghost predicate ReleaseTags(s: State) {
    && 1 <= s.id2
    && (forall t :: 0 <= t < |s.pc| ==> ReleaseTag(s.pc[t]) == -1 || 1 <= ReleaseTag(s.pc[t]) < s.id2)
    && (forall t, u :: 0 <= t < u < |s.pc| && ReleaseTag(s.pc[t]) >= 0 ==> ReleaseTag(s.pc[t]) != ReleaseTag(s.pc[u]))
    && (forall t :: 0 <= t < |s.pc| && ReleaseTag(s.pc[t]) == 1 ==> HeldNode(s.pc[t]) == 0)
  }

  // While tag 1 is still to be fetched, node 0 is the dummy or about to be released.
  ghost predicate FirstTag(s: State)
    requires Sizes(s)
  {
    s.id2 == 1 ==>
      && (forall t :: 0 <= t < |s.pc| && s.pc[t].RelId? ==> s.pc[t].node == 0)
      && match s.hist.place[0]
         case InQueue(_) => s.outp.node == 0
         case HeldBy(u) => u < |s.pc| && s.pc[u].RelId?
         case InFree(_) => false
  }

  // The pair will not be installed by a release any more.
  ghost predicate Spent(s: State, p: Ptr) {
    || p == Nil
    || p == At(1, 1)
    || (p.tag < s.id2 && (forall t {:trigger ReleaseTag(s.pc[t])} :: 0 <= t < |s.pc| ==> ReleaseTag(s.pc[t]) != p.tag))
  }

  ghost predicate Heads(s: State) {
    && Spent(s, s.head)
    && (forall t :: 0 <= t < |s.pc| ==> Spent(s, SavedHead(s.pc[t])))
    && (forall t :: 0 <= t < |s.pc| && s.pc[t].AllocCas? && s.head == s.pc[t].h ==> s.pc[t].x == Nil)
  }

  predicate SeesTail(c: Pc) { c.TailNext? || c.TailHelp? || c.TailLink? }

  // A pusher does not have its own node as its observed tail.
  ghost predicate Tails(s: State) {
    forall t :: 0 <= t < |s.pc| && SeesTail(s.pc[t]) ==> s.pc[t].tail.At? && s.pc[t].tail.node != s.pc[t].node
  }

  ghost predicate TwoNodes(s: State) {
    Inv(s) && |s.next| == 2 && ReleaseTags(s) && FirstTag(s) && Heads(s) && Tails(s)
  }

  lemma InitTwoNodes(seed: nat, data: seq<int>, threads: nat)
    requires |data| == 2 && 1 <= seed
    ensures TwoNodes(Init(2, seed, data, threads))
  {
    var s := Init(2, seed, data, threads);
    InitInv(2, seed, data, threads);
    assert forall t :: 0 <= t < threads ==> s.pc[t] == Idle(NoCall);
  }

  // The observed tail is neither the pusher's node nor, with two nodes, another than the dummy.
  lemma TwoNodesClean(s: State, t: nat)
    requires TwoNodes(s) && t < |s.pc|
    ensures !BadStep(s, t)
  {
    hide Tags, Logs, Knows, ReleaseTags, FirstTag;
    if s.pc[t].AllocCas? && s.head == s.pc[t].h {
      FreeEnds(s);
    } else if s.pc[t].TailLink? {
      QueueByPlace(s);
      assert s.hist.place[s.outp.node] == InQueue(s.hist.o);
      assert HeldNode(s.pc[t]) == s.pc[t].node;
    }
  }

  // ----- The observed tails -----

  lemma TailsStep(s: State, t: nat, a: Action)
    requires Inv(s) && Tails(s) && t < |s.pc|
    ensures Tails(Step(s, t, a))
  {
    hide Tags, FreeList, Logs, Knows, Step;
    OnlyMoves(s, t, a);
    assert Bounded(s);
    TailsMove(s, t, a);
  }

  lemma TailsMove(s: State, t: nat, a: Action)
    requires Sizes(s) && Chain(s) && Holders(s) && Tails(s) && t < |s.pc|
    ensures var c := Step(s, t, a).pc[t]; SeesTail(c) ==> c.tail.At? && c.tail.node != c.node
  {
    if IsPush(s.pc[t]) {
      TailsPush(s, t);
    } else if IsPop(s.pc[t]) {
      PopSeesNone(s, t);
    }
  }

  lemma TailsPush(s: State, t: nat)
    requires Sizes(s) && Chain(s) && Holders(s) && Tails(s) && t < |s.pc| && IsPush(s.pc[t])
    ensures var c := PushStep(s, t).pc[t]; SeesTail(c) ==> c.tail.At? && c.tail.node != c.node
  {
    assert s.hist.place[s.hist.link[s.hist.i].node] == InQueue(s.hist.i);
    if s.pc[t].TailRead? { assert HeldNode(s.pc[t]) == s.pc[t].node; }
  }

  lemma PopSeesNone(s: State, t: nat)
    requires Bounded(s) && t < |s.pc| && IsPop(s.pc[t])
    ensures !SeesTail(PopStep(s, t).pc[t])
  {
  }

  // ----- The steps that change id2_, head_ or the place of node 0 -----

  predicate Quiet2(s: State, t: nat)
    requires t < |s.pc|
  {
    match s.pc[t]
    case AllocNext(_, _) => false
    case AllocCas(_, h, _) => s.head != h
    case TailLink(_, _, _, _) => false
    case PopCas(_, _, _, _) => false
    case RelId(_, _) => false
    case RelCas(_, _, _, h) => s.head != h
    case _ => true
  }

  // A step that fetches no tag, installs nothing and reads nothing from a node.
  ghost predicate Calm(s: State, r: State, t: nat) {
    && OnlyMoved(s, r, t)
    && r.id2 == s.id2 && r.head == s.head
    && ReleaseTag(r.pc[t]) == ReleaseTag(s.pc[t]) && (ReleaseTag(s.pc[t]) >= 0 ==> HeldNode(r.pc[t]) == HeldNode(s.pc[t]))
    && SavedHead(r.pc[t]) in {Nil, SavedHead(s.pc[t]), s.head} && !r.pc[t].AllocCas?
  }

  // The places stay, and no thread starts or leaves a release.
  predicate SamePlaces(s: State, r: State, t: nat) {
    && t < |s.pc| == |r.pc|
    && r.hist.place == s.hist.place && r.outp == s.outp
    && (r.pc[t].RelId? || s.pc[t].RelId? ==> r.pc[t] == s.pc[t])
  }

  lemma QuietAlloc(s: State, t: nat)
    requires Bounded(s) && t < |s.pc| && Quiet2(s, t) && IsAlloc(s.pc[t])
    ensures var r := AllocStep(s, t); Calm(s, r, t) && SamePlaces(s, r, t)
  {
    hide PcOk;
  }

  lemma QuietPush(s: State, t: nat)
    requires Bounded(s) && t < |s.pc| && Quiet2(s, t) && IsPush(s.pc[t])
    ensures var r := PushStep(s, t); Calm(s, r, t) && SamePlaces(s, r, t)
  {
    hide PcOk;
  }

  lemma QuietPop(s: State, t: nat)
    requires Bounded(s) && t < |s.pc| && Quiet2(s, t) && IsPop(s.pc[t])
    ensures var r := PopStep(s, t); Calm(s, r, t) && SamePlaces(s, r, t)
  {
    hide PcOk;
  }

  lemma QuietRelease(s: State, t: nat)
    requires Bounded(s) && t < |s.pc| && Quiet2(s, t) && IsRelease(s.pc[t])
    ensures var r := ReleaseStep(s, t); Calm(s, r, t) && SamePlaces(s, r, t)
  {
    hide PcOk;
  }

  lemma QuietCalm(s: State, t: nat, a: Action)
    requires Bounded(s) && t < |s.pc| && Quiet2(s, t)
    ensures var r := Step(s, t, a); Calm(s, r, t) && SamePlaces(s, r, t)
  {
    hide Bounded, AllocStep, PushStep, PopStep, ReleaseStep, Calm, SamePlaces;
    var c := s.pc[t];
    if c.Idle? {
      QuietCall(s, t, a);
    } else if IsAlloc(c) {
      QuietAlloc(s, t);
    } else if IsPush(c) {
      QuietPush(s, t);
    } else if IsPop(c) {
      QuietPop(s, t);
    } else {
      QuietRelease(s, t);
    }
  }

  lemma QuietCall(s: State, t: nat, a: Action)
    requires t < |s.pc| && s.pc[t].Idle?
    ensures var r := Call(s, t, a); Calm(s, r, t) && SamePlaces(s, r, t)
  {
  }

  lemma CalmTags(s: State, r: State, t: nat)
    requires ReleaseTags(s) && Heads(s) && Calm(s, r, t)
    ensures ReleaseTags(r) && Heads(r)
  {
    assert forall u :: 0 <= u < |s.pc| ==> ReleaseTag(r.pc[u]) == ReleaseTag(s.pc[u]);
    SpentStays(s, r, s.head);
    forall u | 0 <= u < |r.pc|
      ensures Spent(r, SavedHead(r.pc[u]))
    {
      SpentStays(s, r, SavedHead(s.pc[u]));
    }
  }

  lemma SamePlacesFirst(s: State, r: State, t: nat)
    requires Sizes(s) && Sizes(r) && FirstTag(s) && OnlyMoved(s, r, t) && SamePlaces(s, r, t) && r.id2 == s.id2
    ensures FirstTag(r)
  {
  }

  lemma QuietTagsKept(s: State, t: nat, a: Action)
    requires Sizes(s) && ReleaseTags(s) && FirstTag(s) && Heads(s) && t < |s.pc| && Quiet2(s, t) && Sizes(Step(s, t, a))
    ensures var r := Step(s, t, a); ReleaseTags(r) && FirstTag(r) && Heads(r)
  {
    hide Sizes, ReleaseTags, FirstTag, Heads, Step, SamePlaces;
    SizesBound(s);
    QuietCalm(s, t, a);
    CalmTags(s, Step(s, t, a), t);
    SamePlacesFirst(s, Step(s, t, a), t);
  }

  lemma SpentStays(s: State, r: State, p: Ptr)
    requires Spent(s, p) && |r.pc| == |s.pc| && s.id2 <= r.id2
    requires forall u :: 0 <= u < |s.pc| ==> ReleaseTag(r.pc[u]) in {-1, ReleaseTag(s.pc[u])} || ReleaseTag(r.pc[u]) >= s.id2
    ensures Spent(r, p)
  {
  }

  // AllocNext reads the end of the list, if its head is still head_.
  lemma ReadsEnd(s: State, t: nat)
    requires Sizes(s) && Chain(s) && FreeList(s) && |s.next| == 2 && ReleaseTags(s) && FirstTag(s) && Heads(s)
    requires t < |s.pc| && s.pc[t].AllocNext? && Sizes(AllocStep(s, t))
    ensures var r := AllocStep(s, t); ReleaseTags(r) && FirstTag(r) && Heads(r)
  {
    hide Chain, FreeList, PcOk;
    var r := AllocStep(s, t);
    if s.head == s.pc[t].h && s.head.At? { FreeEnds(s); }
    assert s.pc[t].h.At? by { SavedPtr(s, t); }
    assert SavedHead(r.pc[t]) == SavedHead(s.pc[t]) && Spent(s, SavedHead(s.pc[t]));
    assert forall u :: 0 <= u < |s.pc| ==> ReleaseTag(r.pc[u]) == ReleaseTag(s.pc[u]);
    forall u | 0 <= u < |r.pc|
      ensures Spent(r, SavedHead(r.pc[u]))
    {
      SpentStays(s, r, SavedHead(s.pc[u]));
    }
  }

  lemma SavedPtr(s: State, t: nat)
    requires Bounded(s) && t < |s.pc| && s.pc[t].AllocNext?
    ensures s.pc[t].h.At?
  {
  }

  // The only free node is taken.
  lemma TakesLast(s: State, t: nat)
    requires Sizes(s) && FreeList(s) && ReleaseTags(s) && FirstTag(s) && Heads(s)
    requires t < |s.pc| && s.pc[t].AllocCas? && s.head == s.pc[t].h && Sizes(AllocStep(s, t))
    ensures var r := AllocStep(s, t); ReleaseTags(r) && FirstTag(r) && Heads(r)
  {
    var r := AllocStep(s, t);
    assert s.hist.place[s.head.node].InFree? by { assert s.head.node == s.hist.free[|s.hist.free| - 1]; }
    assert r.head == Nil;
    assert forall u :: 0 <= u < |s.pc| ==> ReleaseTag(r.pc[u]) == ReleaseTag(s.pc[u]);
    forall u | 0 <= u < |r.pc|
      ensures Spent(r, SavedHead(r.pc[u]))
    {
      SpentStays(s, r, SavedHead(s.pc[u]));
    }
  }

  lemma LinkCalm(s: State, t: nat)
    requires Bounded(s) && t < |s.pc| && s.pc[t].TailLink?
    ensures var r := PushStep(s, t);
      && Calm(s, r, t) && r.outp == s.outp && !r.pc[t].RelId?
      && (r.hist.place == s.hist.place || r.hist.place == s.hist.place[s.pc[t].node := InQueue(|s.hist.link|)])
  {
    hide PcOk;
  }

  // A node that is linked is not node 0 while tag 1 is to come.
  lemma LinkTagsKept(s: State, t: nat)
    requires Sizes(s) && Holders(s) && ReleaseTags(s) && FirstTag(s) && Heads(s)
    requires t < |s.pc| && s.pc[t].TailLink? && Sizes(PushStep(s, t))
    ensures var r := PushStep(s, t); ReleaseTags(r) && FirstTag(r) && Heads(r)
  {
    hide PcOk, PushStep, ReleaseTags, Heads;
    var r := PushStep(s, t);
    SizesBound(s);
    LinkCalm(s, t);
    assert HeldNode(s.pc[t]) == s.pc[t].node && s.hist.place[s.pc[t].node] == HeldBy(t);
    CalmTags(s, r, t);
  }

  lemma PopCalm(s: State, t: nat)
    requires Bounded(s) && t < |s.pc| && s.pc[t].PopCas?
    ensures var r := PopStep(s, t);
      && Calm(s, r, t)
      && if s.outp == s.pc[t].out
         then r.pc[t].RelId? && r.pc[t].node == s.outp.node && r.hist.place == s.hist.place[s.outp.node := HeldBy(t)]
         else SamePlaces(s, r, t)
  {
    hide PcOk;
  }

  // With both nodes in the queue, node 0 is the dummy while tag 1 is to come.
  lemma FirstPop(s: State, t: nat)
    requires Sizes(s) && Chain(s) && |s.next| == 2 && FirstTag(s)
    requires t < |s.pc| && s.pc[t].PopCas? && s.outp == s.pc[t].out && Knows(s, s.pc[t]) && s.id2 == 1
    ensures s.outp.node == 0
  {
    hide PcOk;
    assert s.hist.place[s.hist.link[s.hist.o].node] == InQueue(s.hist.o);
    assert s.hist.place[s.hist.link[s.hist.o + 1].node] == InQueue(s.hist.o + 1);
  }

  // The first node that is popped is node 0.
  lemma PopTagsKept(s: State, t: nat)
    requires Sizes(s) && Chain(s) && |s.next| == 2 && ReleaseTags(s) && FirstTag(s) && Heads(s)
    requires t < |s.pc| && s.pc[t].PopCas? && Knows(s, s.pc[t]) && Sizes(PopStep(s, t))
    ensures var r := PopStep(s, t); ReleaseTags(r) && FirstTag(r) && Heads(r)
  {
    hide PcOk, PopStep, ReleaseTags, Heads, Knows, Chain;
    var r := PopStep(s, t);
    SizesBound(s);
    PopCalm(s, t);
    CalmTags(s, r, t);
    if s.outp == s.pc[t].out && s.id2 == 1 { FirstPop(s, t); }
  }

  lemma FetchTagsKept(s: State, t: nat)
    requires Sizes(s) && ReleaseTags(s) && FirstTag(s) && Heads(s)
    requires t < |s.pc| && s.pc[t].RelId? && Sizes(ReleaseStep(s, t))
    ensures var r := ReleaseStep(s, t); ReleaseTags(r) && FirstTag(r) && Heads(r)
  {
    hide PcOk;
    var r := ReleaseStep(s, t);
    assert ReleaseTag(r.pc[t]) == s.id2 && HeldNode(r.pc[t]) == s.pc[t].node;
    assert forall u :: 0 <= u < |s.pc| && u != t ==> r.pc[u] == s.pc[u];
    SpentStays(s, r, s.head);
    forall u | 0 <= u < |r.pc|
      ensures Spent(r, SavedHead(r.pc[u]))
    {
      SpentStays(s, r, SavedHead(s.pc[u]));
    }
  }

  // The installed pair is new, so no saved head equals it.
  lemma InstallTagsKept(s: State, t: nat)
    requires Sizes(s) && ReleaseTags(s) && FirstTag(s) && Heads(s)
    requires t < |s.pc| && s.pc[t].RelCas? && s.head == s.pc[t].h && Sizes(ReleaseStep(s, t))
    ensures var r := ReleaseStep(s, t); ReleaseTags(r) && FirstTag(r) && Heads(r)
  {
    hide PcOk;
    var r := ReleaseStep(s, t);
    var c := s.pc[t];
    assert ReleaseTag(c) == c.id && HeldNode(c) == c.node;
    assert forall u :: 0 <= u < |s.pc| && u != t ==> r.pc[u] == s.pc[u];
    assert Spent(r, r.head) by {
      assert forall u :: 0 <= u < |s.pc| && u != t ==> ReleaseTag(s.pc[u]) != c.id;
    }
    forall u | 0 <= u < |r.pc|
      ensures Spent(r, SavedHead(r.pc[u]))
      ensures SavedHead(r.pc[u]) != r.head
    {
      assert Spent(s, SavedHead(s.pc[u])) && ReleaseTag(s.pc[t]) == c.id;
      SpentStays(s, r, SavedHead(s.pc[u]));
    }
    assert forall u :: 0 <= u < |r.pc| && r.pc[u].AllocCas? ==> SavedHead(r.pc[u]) == r.pc[u].h;
  }

  lemma TagsStep(s: State, t: nat, a: Action)
    requires Inv(s) && |s.next| == 2 && ReleaseTags(s) && FirstTag(s) && Heads(s) && t < |s.pc| && Sizes(Step(s, t, a))
    ensures var r := Step(s, t, a); ReleaseTags(r) && FirstTag(r) && Heads(r)
  {
    hide Tags, Chain, FreeList, Holders, Logs, Knows, ReleaseTags, FirstTag, Heads, Bounded, Sizes,
         AllocStep, PushStep, PopStep, ReleaseStep;
    SizesBound(s);
    var c := s.pc[t];
    if Quiet2(s, t) {
      QuietTagsKept(s, t, a);
    } else if c.AllocNext? {
      ReadsEnd(s, t);
    } else if c.AllocCas? {
      TakesLast(s, t);
    } else if c.TailLink? {
      LinkTagsKept(s, t);
    } else if c.PopCas? {
      PopTagsKept(s, t);
    } else if c.RelId? {
      FetchTagsKept(s, t);
    } else {
      InstallTagsKept(s, t);
    }
  }

  lemma SizesBound(s: State)
    requires Sizes(s)
    ensures Bounded(s)
  {
  }

  lemma TwoNodesStep(s: State, t: nat, a: Action)
    requires TwoNodes(s) && t < |s.pc|
    ensures !BadStep(s, t) && TwoNodes(Step(s, t, a))
  {
    hide Tags, Chain, FreeList, Holders, Logs, Knows, ReleaseTags, FirstTag, Heads, Tails, Step, BadStep;
    TwoNodesClean(s, t);
    StepInv(s, t, a);
    TailsStep(s, t, a);
    TagsStep(s, t, a);
  }

  // ----- Whole runs -----

  lemma {:induction false} OneNodeRun(s: State, sched: Schedule, k: nat)
    requires Bounded(s) && OneNode(s) && Fits(sched, |s.pc|) && k <= |sched|
    ensures OneNode(Run(s, sched[..k]))
  {
    hide Bounded, Step, OneNode, BadStep;
    if k > 0 {
      OneNodeRun(s, sched, k - 1);
      RunOneMore(s, sched, k - 1);
      OneNodeStep(Run(s, sched[..k - 1]), sched[k - 1].0, sched[k - 1].1);
    }
  }

  lemma {:induction false} TwoNodesRun(s: State, sched: Schedule, k: nat)
    requires Bounded(s) && TwoNodes(s) && Fits(sched, |s.pc|) && k <= |sched|
    ensures TwoNodes(Run(s, sched[..k]))
  {
    hide Bounded, Step, TwoNodes, BadStep;
    if k > 0 {
      TwoNodesRun(s, sched, k - 1);
      RunOneMore(s, sched, k - 1);
      TwoNodesStep(Run(s, sched[..k - 1]), sched[k - 1].0, sched[k - 1].1);
    }
  }

  /** Any number of pushers and poppers: a queue with one node, or with two nodes and a first
      release tag of at least 1 (as the code's is), is sound in every state of every run. */
  lemma {:induction false} SmallIsSound(max: nat, seed: nat, data: seq<int>, threads: nat, sched: Schedule)
    requires 1 <= max == |data| && Fits(sched, threads) && (max == 1 || (max == 2 && 1 <= seed))
    ensures SoundRun(Init(max, seed, data, threads), sched)
  {
    hide Bounded, Step, Inv, Sound, OneNode, TwoNodes;
    var s := Init(max, seed, data, threads);
    assert |s.pc| == threads;
    if max == 1 {
      InitOneNode(seed, data, threads);
    } else {
      InitTwoNodes(seed, data, threads);
    }
    forall k | 0 <= k <= |sched|
      ensures Sound(Run(s, sched[..k]))
    {
      var r := Run(s, sched[..k]);
      if max == 1 { OneNodeRun(s, sched, k); } else { TwoNodesRun(s, sched, k); }
      assert Inv(r) by { SmallInv(r); }
      InvSound(r);
    }
  }

  lemma InitOneNode(seed: nat, data: seq<int>, threads: nat)
    requires |data| == 1
    ensures OneNode(Init(1, seed, data, threads))
  {
    InitInv(1, seed, data, threads);
    assert forall t :: 0 <= t < threads ==> Init(1, seed, data, threads).pc[t] == Idle(NoCall);
  }

  lemma SmallInv(s: State)
    requires OneNode(s) || TwoNodes(s)
    ensures Inv(s)
  {
  }
}

/**
  The premises are needed: two families of runs that lose a value or a node.
 */
module ListQueueCounter {
  import opened NodeList
  import opened ListQueue
  import opened ListQueueReach

  // ----- Two pushers: a link on a released tail loses a value -----

  // Thread a pushes 7, thread b pushes too, and thread q, which may be b, pops.
  predicate Cast(who: Sides, threads: nat, a: nat, b: nat, q: nat) {
    && a < threads && b < threads && q < threads && a != b && a != q
    && a in who.pushers && b in who.pushers && q in who.poppers
  }

  // Thread a has node 1 for the value 7 and has seen that node 0, the tail, has no successor.
  ghost predicate TailObserved(s: State, a: nat, b: nat, q: nat) {
    && Bounded(s) && a < |s.pc| && b < |s.pc| && q < |s.pc| && a != b && a != q && 3 <= |s.next|
    && s.pc[a] == TailLink(7, 1, 1, At(0, 0)) && s.pc[b].Idle? && s.pc[q].Idle?
    && s.next[0] == Nil && s.head == At(2, 2) && s.inp == At(0, 0) && s.outp == At(0, 0) && s.id == 2
    && s.hist.pushed == [] && s.hist.popped == []
  }

  lemma ObservesTail(init: State, who: Sides, seed: nat, a: nat, b: nat, q: nat) returns (s: State)
    requires 3 <= |init.data| && init == Init(|init.data|, seed, init.data, |init.pc|) && Cast(who, |init.pc|, a, b, q)
    ensures TailObserved(s, a, b, q) && Reachable(init, s, who) && |s.pc| == |init.pc|
  {
    hide Reachable;
    InitReachable(init, who);
    ReachTaken(init, init, who, a, 7);
    s := Taken(init, a, 7);
    ReachFilled(init, s, who, a);
    s := Filled(s, a);
    ReachStep(init, s, who, a, Go);
    s := Step(s, a, Go);
    assert s.pc[a] == TailNext(7, 1, 1, At(0, 0));
    ReachStep(init, s, who, a, Go);
    s := Step(s, a, Go);
  }

  // Thread b has pushed 8 in node 2, and thread q has popped it and has released node 0.
  ghost predicate TailReleased(s: State, a: nat, b: nat) {
    && Bounded(s) && a < |s.pc| && b < |s.pc| && a != b && 3 <= |s.next|
    && s.pc[a] == TailLink(7, 1, 1, At(0, 0)) && s.pc[b].Idle?
    && s.head.At? && s.head.node == 0 && s.outp == At(2, 2) && s.next[2] == Nil
    && s.hist.pushed == [8] && s.hist.popped == [8]
  }

  lemma PushesBehind(init: State, m: State, who: Sides, a: nat, b: nat, q: nat) returns (s: State)
    requires Bounded(init) && TailObserved(m, a, b, q) && Reachable(init, m, who) && |m.pc| == |init.pc| && b in who.pushers
    ensures Bounded(s) && Reachable(init, s, who) && |s.pc| == |init.pc| && |s.next| == |m.next|
    ensures s.pc == m.pc[b := Idle(PushDone)] && s.next[0] == At(2, 2) && s.next[2] == Nil && s.data[2] == 8
    ensures s.inp == At(2, 2) && s.outp == At(0, 0) && s.hist.pushed == [8] && s.hist.popped == []
  {
    hide Reachable;
    s := PushesLast(init, m, who, b, 8);
  }

  lemma ReleasesTail(init: State, m: State, who: Sides, a: nat, b: nat, q: nat) returns (s: State)
    requires Bounded(init) && TailObserved(m, a, b, q) && Reachable(init, m, who) && |m.pc| == |init.pc|
    requires b in who.pushers && q in who.poppers
    ensures TailReleased(s, a, b) && Reachable(init, s, who) && |s.pc| == |init.pc|
  {
    hide Reachable;
    s := PushesBehind(init, m, who, a, b, q);
    s := PopsFirst(init, s, who, q);
  }

  // Thread b takes node 0 again, whose `next` becomes null, and thread a links behind it.
  lemma LinksBehindReleased(init: State, m: State, who: Sides, a: nat, b: nat) returns (s: State)
    requires Bounded(init) && TailReleased(m, a, b) && Reachable(init, m, who) && |m.pc| == |init.pc| && b in who.pushers
    ensures Bounded(s) && Reachable(init, s, who) && |s.pc| == |init.pc| && 3 <= |s.next| && s.pc[a].TailSwing?
    ensures s.outp == At(2, 2) && s.next[2] == Nil && s.hist.pushed == [8, 7] && s.hist.popped == [8]
  {
    hide Reachable;
    ReachTaken(init, m, who, b, 9);
    s := Taken(m, b, 9);
    assert s.next[0] == Nil && s.pc[a] == m.pc[a];
    ReachStep(init, s, who, a, Go);
    s := Step(s, a, Go);
  }

  /** A queue with at least three nodes, any seed, any two pushers and any popper: the push of 7
      goes on to report success, and 7 is neither in the queue nor popped. */
  lemma {:induction false} StaleLinkLosesValue(max: nat, seed: nat, data: seq<int>, threads: nat, who: Sides, a: nat, b: nat, q: nat)
    requires 3 <= max == |data| && Cast(who, threads, a, b, q)
    ensures exists sched: Schedule :: Fits(sched, threads) && Obeys(sched, who) &&
              var s := Run(Init(max, seed, data, threads), sched);
              && a < |s.pc| && s.pc[a].TailSwing? && s.hist.pushed == [8, 7] && s.hist.popped == [8]
              && QueueNodes(s) == [2] && !Conserved(s)
  {
    hide Reachable;
    var init := Init(max, seed, data, threads);
    var s := ObservesTail(init, who, seed, a, b, q);
    s := ReleasesTail(init, s, who, a, b, q);
    s := LinksBehindReleased(init, s, who, a, b);
    assert QueueNodes(s) == [2] by { OneNodeQueue(s); }
    Reached(init, s, who);
  }

  lemma OneNodeQueue(s: State)
    requires Bounded(s) && 1 <= |s.next| && s.outp.node < |s.next| && s.next[s.outp.node] == Nil
    ensures QueueNodes(s) == [s.outp.node]
  {
    assert Walk(s.next, Nil, |s.next| - 1) == [];
  }

  // ----- The code's own seed: a release brings back an initial tag and a node is lost -----

  function Everyone(): Sides { Sides({0, 1, 2}, {0, 1, 2}) }

  // Thread 2 has a node, and thread 0 is about to take node 2 with the null successor it read.
  lemma SavedLast(init: State, who: Sides) returns (s: State)
    requires who == Everyone() && init == CodeInit(3, [0, 0, 0], 3)
    ensures Bounded(s) && Reachable(init, s, who)
    ensures s == State([Nil, Nil, Nil], [0, 0, 0], At(2, 2), At(0, 0), At(0, 0), 1, 2,
                       [AllocCas(2, At(2, 2), Nil), Idle(NoCall), PushStore(1, 1)],
                       History([At(0, 0)], [0], 0, 0, [2], [InQueue(0), HeldBy(2), InFree(0)], [], []))
  {
    hide Reachable;
    InitReachable(init, who);
    ReachTaken(init, init, who, 2, 1);
    s := Taken(init, 2, 1);
    ReachStep(init, s, who, 0, CallPush(2));
    s := Step(s, 0, CallPush(2));
    ReachStep(init, s, who, 0, Go);
    s := Step(s, 0, Go);
    ReachStep(init, s, who, 0, Go);
    s := Step(s, 0, Go);
  }

  // Thread 1 pushes node 2 and then thread 2 pushes node 1.
  lemma BothLinked(init: State, who: Sides) returns (s: State)
    requires who == Everyone() && init == CodeInit(3, [0, 0, 0], 3)
    ensures Bounded(s) && Reachable(init, s, who)
    ensures s == State([At(1, 2), Nil, At(2, 1)], [0, 1, 3], Nil, At(2, 1), At(0, 0), 3, 2,
                       [AllocCas(2, At(2, 2), Nil), Idle(PushDone), Idle(PushDone)],
                       History([At(0, 0), At(1, 2), At(2, 1)], [0, 3, 1], 0, 2, [],
                               [InQueue(0), InQueue(2), InQueue(1)], [3, 1], []))
  {
    hide Reachable;
    s := SavedLast(init, who);
    ReachTaken(init, s, who, 1, 3);
    s := Taken(s, 1, 3);
    ReachFilled(init, s, who, 1);
    s := Filled(s, 1);
    ReachLinked(init, s, who, 1);
    s := Linked(s, 1);
    ReachFilled(init, s, who, 2);
    s := Filled(s, 2);
    ReachLinked(init, s, who, 2);
    s := Linked(s, 2);
  }

  // Thread 1 pops node 0 and thread 2 pops node 2; thread 2 fetches tag 2 first.
  lemma TagIsBack(init: State, who: Sides) returns (s: State)
    requires who == Everyone() && init == CodeInit(3, [0, 0, 0], 3)
    ensures Bounded(s) && Reachable(init, s, who)
    ensures s == State([Nil, Nil, At(3, 0)], [0, 1, 3], At(2, 2), At(2, 1), At(2, 1), 3, 4,
                       [AllocCas(2, At(2, 2), Nil), Idle(Popped(3)), Idle(Popped(1))],
                       History([At(0, 0), At(1, 2), At(2, 1)], [0, 3, 1], 2, 2, [0, 2],
                               [InFree(0), InQueue(2), InFree(1)], [3, 1], [3, 1]))
  {
    hide Reachable;
    s := BothLinked(init, who);
    ReachTakenOut(init, s, who, 1);
    s := TakenOut(s, 1);
    ReachTakenOut(init, s, who, 2);
    s := TakenOut(s, 2);
    ReachStep(init, s, who, 2, Go);
    s := Step(s, 2, Go);
    ReachStep(init, s, who, 1, Go);
    s := Step(s, 1, Go);
    ReachFreed(init, s, who, 1);
    s := Freed(s, 1);
    ReachFreed(init, s, who, 2);
    s := Freed(s, 2);
  }

  // Thread 0's compare-and-swap succeeds and node 0 is in no list and in nobody's hands.
  lemma {:induction false} CodeSeedLosesNode()
    ensures var init := CodeInit(3, [0, 0, 0], 3);
      exists sched: Schedule :: Fits(sched, 3) && !Partition(Run(init, sched))
  {
    var init := CodeInit(3, [0, 0, 0], 3);
    var who := Everyone();
    var s := TagIsBack(init, who);
    ReachStep(init, s, who, 0, Go);
    var r := Step(s, 0, Go);
    assert r.head == Nil && r.outp == At(2, 1) && r.next == s.next;
    assert QueueNodes(r) == [1] && FreeNodes(r) == [];
    assert r.pc == [AllocClear(2, 2), Idle(Popped(3)), Idle(Popped(1))];
    assert !Held(r, 0);
  }
}

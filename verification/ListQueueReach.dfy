/**
  Which states some run reaches when given threads push and given threads pop, and the
  uninterrupted stretches of one thread from which the runs of the counterexamples are put together.
 */
module ListQueueReach {
  import opened NodeList
  import opened ListQueue

  // Who may push and who may pop.
  datatype Sides = Sides(pushers: set<nat>, poppers: set<nat>)

  predicate Allowed(t: nat, a: Action, who: Sides) {
    (a.CallPush? ==> t in who.pushers) && (a.CallPop? ==> t in who.poppers)
  }

  predicate Obeys(sched: Schedule, who: Sides) {
    forall k :: 0 <= k < |sched| ==> Allowed(sched[k].0, sched[k].1, who)
  }

  ghost predicate Reachable(init: State, s: State, who: Sides)
    requires Bounded(init)
  {
    exists sched: Schedule :: Fits(sched, |init.pc|) && Obeys(sched, who) && Run(init, sched) == s
  }

  lemma ReachStep(init: State, s: State, who: Sides, t: nat, a: Action)
    requires Bounded(init) && Reachable(init, s, who) && Bounded(s) && t < |s.pc| == |init.pc| && Allowed(t, a, who)
    ensures Reachable(init, Step(s, t, a), who)
  {
    hide Bounded, Step;
    var sched: Schedule :| Fits(sched, |init.pc|) && Obeys(sched, who) && Run(init, sched) == s;
    var more := sched + [(t, a)];
    assert more[..|sched|] == sched;
    assert Run(init, more) == Step(s, t, a);
  }

  // ----- Uninterrupted stretches of one thread -----

  // AllocNode.
  function Taken(s: State, t: nat, v: int): State
    requires Bounded(s) && s.head.At? && t < |s.pc|
  {
    var n := s.head.node;
    s.(head := s.next[n], next := s.next[n := Nil], pc := s.pc[t := PushStore(v, n)],
       hist := s.hist.(free := DropLast(s.hist.free), place := s.hist.place[n := HeldBy(t)]))
  }

  lemma ReachTaken(init: State, s: State, who: Sides, t: nat, v: int)
    requires Bounded(init) && Reachable(init, s, who) && Bounded(s) && t < |s.pc| == |init.pc| && s.pc[t].Idle? && s.head.At? && t in who.pushers
    ensures Reachable(init, Taken(s, t, v), who) && Bounded(Taken(s, t, v))
  {
    hide Reachable;
    var s1 := Step(s, t, CallPush(v));
    var s2 := Step(s1, t, Go);
    assert s2 == Goto(s, t, AllocNext(v, s.head));
    var s3 := Step(s2, t, Go);
    assert s3 == Goto(s, t, AllocCas(v, s.head, s.next[s.head.node]));
    var s4 := Step(s3, t, Go);
    var s5 := Step(s4, t, Go);
    assert s5 == Taken(s, t, v);
    ReachStep(init, s, who, t, CallPush(v));
    ReachStep(init, s1, who, t, Go);
    ReachStep(init, s2, who, t, Go);
    ReachStep(init, s3, who, t, Go);
    ReachStep(init, s4, who, t, Go);
  }

  // Push fills its node and fetches a tag.
  function Filled(s: State, t: nat): State
    requires Bounded(s) && t < |s.pc| && s.pc[t].PushStore?
  {
    var v, n := s.pc[t].v, s.pc[t].node;
    s.(data := s.data[n := v], next := s.next[n := Nil], id := s.id + 1, pc := s.pc[t := TailRead(v, n, s.id)])
  }

  lemma ReachFilled(init: State, s: State, who: Sides, t: nat)
    requires Bounded(init) && Reachable(init, s, who) && Bounded(s) && t < |s.pc| == |init.pc| && s.pc[t].PushStore?
    ensures Reachable(init, Filled(s, t), who) && Bounded(Filled(s, t))
  {
    hide Reachable;
    var s1 := Step(s, t, Go);
    var s2 := Step(s1, t, Go);
    var s3 := Step(s2, t, Go);
    assert s3 == Filled(s, t);
    ReachStep(init, s, who, t, Go);
    ReachStep(init, s1, who, t, Go);
    ReachStep(init, s2, who, t, Go);
  }

  // Push links its node behind the observed tail and swings in_.
  function Linked(s: State, t: nat): State
    requires Bounded(s) && t < |s.pc| && s.pc[t].TailRead?
  {
    var p := At(s.pc[t].id, s.pc[t].node);
    s.(next := s.next[s.inp.node := p], inp := p, pc := s.pc[t := Idle(PushDone)],
       hist := s.hist.(link := s.hist.link + [p], val := s.hist.val + [s.pc[t].v], i := s.hist.i + 1,
                       place := s.hist.place[p.node := InQueue(|s.hist.link|)],
                       pushed := s.hist.pushed + [s.pc[t].v]))
  }

  lemma ReachLinked(init: State, s: State, who: Sides, t: nat)
    requires Bounded(init) && Reachable(init, s, who) && Bounded(s) && t < |s.pc| == |init.pc|
    requires s.pc[t].TailRead? && s.next[s.inp.node] == Nil
    ensures Reachable(init, Linked(s, t), who) && Bounded(Linked(s, t))
  {
    hide Reachable;
    var c := s.pc[t];
    var s1 := Step(s, t, Go);
    var s2 := Step(s1, t, Go);
    assert s2 == Goto(s, t, TailLink(c.v, c.node, c.id, s.inp));
    var s3 := Step(s2, t, Go);
    var s4 := Step(s3, t, Go);
    assert s4 == Linked(s, t);
    ReachStep(init, s, who, t, Go);
    ReachStep(init, s1, who, t, Go);
    ReachStep(init, s2, who, t, Go);
    ReachStep(init, s3, who, t, Go);
  }

  // Pop moves out_ and keeps the old dummy.
  function TakenOut(s: State, t: nat): State
    requires Bounded(s) && t < |s.pc| && s.next[s.outp.node].At?
  {
    var nx := s.next[s.outp.node];
    var v := s.data[nx.node];
    s.(outp := nx, pc := s.pc[t := RelId(s.outp.node, v)],
       hist := s.hist.(o := s.hist.o + 1, place := s.hist.place[s.outp.node := HeldBy(t)], popped := s.hist.popped + [v]))
  }

  lemma ReachTakenOut(init: State, s: State, who: Sides, t: nat)
    requires Bounded(init) && Reachable(init, s, who) && Bounded(s) && t < |s.pc| == |init.pc|
    requires s.pc[t].Idle? && s.next[s.outp.node].At? && s.inp != s.outp && t in who.poppers
    ensures Reachable(init, TakenOut(s, t), who) && Bounded(TakenOut(s, t))
  {
    hide Reachable;
    var s1 := Step(s, t, CallPop);
    var s2 := Step(s1, t, Go);
    var s3 := Step(s2, t, Go);
    assert s3 == Goto(s, t, PopNext(s.outp, s.inp));
    var s4 := Step(s3, t, Go);
    assert s4 == Goto(s, t, PopData(s.outp, s.inp, s.next[s.outp.node]));
    var s5 := Step(s4, t, Go);
    var s6 := Step(s5, t, Go);
    assert s6 == TakenOut(s, t);
    ReachStep(init, s, who, t, CallPop);
    ReachStep(init, s1, who, t, Go);
    ReachStep(init, s2, who, t, Go);
    ReachStep(init, s3, who, t, Go);
    ReachStep(init, s4, who, t, Go);
    ReachStep(init, s5, who, t, Go);
  }

  // ReleaseNode after it has fetched its tag.
  function Freed(s: State, t: nat): State
    requires Bounded(s) && t < |s.pc| && s.pc[t].RelRead?
  {
    var n := s.pc[t].node;
    s.(next := s.next[n := s.head], head := At(s.pc[t].id, n), pc := s.pc[t := Idle(Popped(s.pc[t].value))],
       hist := s.hist.(free := s.hist.free + [n], place := s.hist.place[n := InFree(|s.hist.free|)]))
  }

  lemma ReachFreed(init: State, s: State, who: Sides, t: nat)
    requires Bounded(init) && Reachable(init, s, who) && Bounded(s) && t < |s.pc| == |init.pc| && s.pc[t].RelRead?
    ensures Reachable(init, Freed(s, t), who) && Bounded(Freed(s, t))
  {
    hide Reachable;
    var s1 := Step(s, t, Go);
    var s2 := Step(s1, t, Go);
    var s3 := Step(s2, t, Go);
    assert s3 == Freed(s, t);
    ReachStep(init, s, who, t, Go);
    ReachStep(init, s1, who, t, Go);
    ReachStep(init, s2, who, t, Go);
  }

  // Pop with its release, uninterrupted.
  lemma PopsFirst(init: State, m: State, who: Sides, t: nat) returns (s: State)
    requires Bounded(init) && Bounded(m) && Reachable(init, m, who) && t < |m.pc| == |init.pc|
    requires m.pc[t].Idle? && m.next[m.outp.node].At? && m.inp != m.outp && t in who.poppers
    ensures Bounded(s) && Reachable(init, s, who)
    ensures s == Freed(Step(TakenOut(m, t), t, Go), t)
  {
    hide Reachable;
    ReachTakenOut(init, m, who, t);
    s := TakenOut(m, t);
    ReachStep(init, s, who, t, Go);
    s := Step(s, t, Go);
    ReachFreed(init, s, who, t);
    s := Freed(s, t);
  }

  // Push, uninterrupted, with the tail at the end of the queue.
  lemma PushesLast(init: State, m: State, who: Sides, t: nat, v: int) returns (s: State)
    requires Bounded(init) && Bounded(m) && Reachable(init, m, who) && t < |m.pc| == |init.pc|
    requires m.pc[t].Idle? && m.head.At? && m.next[m.inp.node] == Nil && m.inp.node != m.head.node && t in who.pushers
    ensures Bounded(s) && Reachable(init, s, who)
    ensures s == Linked(Filled(Taken(m, t, v), t), t)
  {
    hide Reachable;
    ReachTaken(init, m, who, t, v);
    s := Taken(m, t, v);
    ReachFilled(init, s, who, t);
    s := Filled(s, t);
    ReachLinked(init, s, who, t);
    s := Linked(s, t);
  }

  lemma InitReachable(init: State, who: Sides)
    requires Bounded(init)
    ensures Reachable(init, init, who)
  {
    assert Run(init, []) == init;
  }

  lemma Reached(init: State, s: State, who: Sides)
    requires Bounded(init) && Reachable(init, s, who)
    ensures exists sched: Schedule :: Fits(sched, |init.pc|) && Obeys(sched, who) && Run(init, sched) == s
  {
  }
}

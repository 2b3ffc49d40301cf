/**
  LockFreeBuffer (misc/src/LockFreeBuffer.cc): a tagged Treiber stack of fixed-size buffers, as
  a machine of atomic steps.  Any thread may release a buffer that any thread was given.
 */
module BufferPool {
  import opened NodeList

  datatype Result = NoCall | Got(node: nat) | Exhausted | Released

  // The program counter names the next atomic action.
  datatype Pc =
    | Idle(result: Result)
    // AllocBuffer
    | AllocRead                                  // read head_
    | AllocNext(h: Ptr)                          // read h.node->next_
    | AllocCas(h: Ptr, x: Ptr)                   // CAS head_: h -> x
    | AllocClear(node: nat)                      // node->next_ = 0, return
    // ReleaseBuffer
    | RelId(node: nat)                           // id = id_++
    | RelRead(node: nat, id: nat)                // read head_
    | RelStore(node: nat, id: nat, h: Ptr)       // node->next_ = h
    | RelCas(node: nat, id: nat, h: Ptr)         // CAS head_: h -> (id, node)

  // Who has a buffer: the free list, a caller, or a thread inside AllocBuffer or ReleaseBuffer.
  datatype Place = InFree(at: nat) | InUse | HeldBy(thread: nat)

  // `place` says who was given which buffer; `free` lists the free nodes, bottom first.
  datatype State = State(next: seq<Ptr>, head: Ptr, id: nat, pc: seq<Pc>, free: seq<nat>, place: seq<Place>)

  datatype Action = CallAlloc | CallRelease(node: nat) | Go

  predicate PcOk(c: Pc, max: nat) {
    match c
    case Idle(_) => true
    case AllocRead => true
    case AllocNext(h) => NodePtr(h, max)
    case AllocCas(h, x) => NodePtr(h, max) && PtrOk(x, max)
    case AllocClear(n) => n < max
    case RelId(n) => n < max
    case RelRead(n, _) => n < max
    case RelStore(n, _, h) => n < max && PtrOk(h, max)
    case RelCas(n, _, h) => n < max && PtrOk(h, max)
  }

  predicate Bounded(s: State) {
    && |s.place| == |s.next|
    && PtrOk(s.head, |s.next|)
    && (forall n :: 0 <= n < |s.next| ==> PtrOk(s.next[n], |s.next|))
    && (forall t :: 0 <= t < |s.pc| ==> PcOk(s.pc[t], |s.next|))
  }

  // InitList threads the nodes with tags 1..size-1; head_ is node 0 with tag 0.  `seed` is the
  // first tag that ReleaseBuffer will use.
  function Init(size: nat, seed: nat, threads: nat): (s: State)
    requires 1 <= size
    ensures Bounded(s)
  {
    State(seq(size, n requires 0 <= n => if n + 1 == size then Nil else At(n + 1, n + 1)),
          At(0, 0), seed, seq(threads, t => Idle(NoCall)),
          seq(size, j requires 0 <= j < size => size - 1 - j),
          seq(size, n requires 0 <= n < size => InFree(size - 1 - n)))
  }

  function Goto(s: State, t: nat, c: Pc): State
    requires t < |s.pc|
  {
    s.(pc := s.pc[t := c])
  }

  function Step(s: State, t: nat, a: Action): (r: State)
    requires Bounded(s) && t < |s.pc|
    ensures Bounded(r) && |r.pc| == |s.pc| && |r.next| == |s.next|
  {
    match s.pc[t]
    case Idle(_) =>
      (match a
       case CallAlloc => Goto(s, t, AllocRead)
       // callers release what they were given, once
       case CallRelease(n) =>
         if n < |s.next| && s.place[n] == InUse then Goto(s, t, RelId(n)).(place := s.place[n := HeldBy(t)]) else s
       case Go => s)
    case AllocRead =>
      Goto(s, t, if s.head == Nil then Idle(Exhausted) else AllocNext(s.head))
    case AllocNext(h) =>
      Goto(s, t, AllocCas(h, s.next[h.node]))
    case AllocCas(h, x) =>
      if s.head == h then
        Goto(s, t, AllocClear(h.node)).(head := x, free := DropLast(s.free), place := s.place[h.node := HeldBy(t)])
      else
        Goto(s, t, AllocRead)
    case AllocClear(n) =>
      Goto(s, t, Idle(Got(n))).(next := s.next[n := Nil], place := s.place[n := InUse])
    case RelId(n) =>
      Goto(s, t, RelRead(n, s.id)).(id := s.id + 1)
    case RelRead(n, id) =>
      Goto(s, t, RelStore(n, id, s.head))
    case RelStore(n, id, h) =>
      Goto(s, t, RelCas(n, id, h)).(next := s.next[n := h])
    case RelCas(n, id, h) =>
      if s.head == h then
        Goto(s, t, Idle(Released)).(head := At(id, n), free := s.free + [n], place := s.place[n := InFree(|s.free|)])
      else
        Goto(s, t, RelRead(n, id))
  }

  type Schedule = seq<(nat, Action)>

  predicate Fits(sched: Schedule, threads: nat) {
    forall k :: 0 <= k < |sched| ==> sched[k].0 < threads
  }

  function Run(s: State, sched: Schedule): (r: State)
    requires Bounded(s) && Fits(sched, |s.pc|)
    ensures Bounded(r) && |r.pc| == |s.pc| && |r.next| == |s.next|
    decreases |sched|
  {
    if sched == [] then s
    else
      var k := |sched| - 1;
      Step(Run(s, sched[..k]), sched[k].0, sched[k].1)
  }

  // ----- What can be observed -----

  function FreeNodes(s: State): seq<nat> { Walk(s.next, s.head, |s.next|) }

  // The buffer that a thread inside AllocBuffer or ReleaseBuffer has to itself, or -1.
  function HeldNode(c: Pc): int {
    match c
    case AllocClear(n) => n
    case RelId(n) => n
    case RelRead(n, _) => n
    case RelStore(n, _, _) => n
    case RelCas(n, _, _) => n
    case _ => -1
  }

  ghost predicate Held(s: State, n: nat) {
    exists t :: 0 <= t < |s.pc| && HeldNode(s.pc[t]) == n
  }

  // Every buffer is in exactly one of the free list, one caller's hands and one thread's hands.
  ghost predicate Sound(s: State)
    requires Bounded(s)
  {
    && NoDup(FreeNodes(s))
    && (forall n :: 0 <= n < |s.next| ==> n in FreeNodes(s) || s.place[n] == InUse || Held(s, n))
    && (forall n :: 0 <= n < |s.next| && n in FreeNodes(s) ==> s.place[n] != InUse && !Held(s, n))
    && (forall n :: 0 <= n < |s.next| && s.place[n] == InUse ==> !Held(s, n))
    && (forall t, u :: 0 <= t < u < |s.pc| && HeldNode(s.pc[t]) >= 0 ==> HeldNode(s.pc[t]) != HeldNode(s.pc[u]))
  }

  // An allocation succeeds although the successor it read is no longer the successor.
  predicate StaleAlloc(s: State, t: nat)
    requires Bounded(s) && t < |s.pc|
  {
    && s.pc[t].AllocCas?
    && s.head == s.pc[t].h
    && !SameNode(s.next[s.pc[t].h.node], s.pc[t].x)
  }

  // ----- The invariant -----

  ghost predicate FreeList(s: State)
    requires Bounded(s)
  {
    && (forall j :: 0 <= j < |s.free| ==> s.free[j] < |s.next| && s.place[s.free[j]] == InFree(j))
    && (forall n :: 0 <= n < |s.next| && s.place[n].InFree? ==>
          s.place[n].at < |s.free| && s.free[s.place[n].at] == n)
    && PointsTo(s.head, s.free, |s.free|)
    && (forall j {:trigger s.next[s.free[j]]} :: 0 <= j < |s.free| ==> PointsTo(s.next[s.free[j]], s.free, j))
  }

  ghost predicate Holders(s: State)
    requires Bounded(s)
  {
    && (forall t :: 0 <= t < |s.pc| && HeldNode(s.pc[t]) >= 0 ==>
          HeldNode(s.pc[t]) < |s.next| && s.place[HeldNode(s.pc[t])] == HeldBy(t))
    && (forall n :: 0 <= n < |s.next| && s.place[n].HeldBy? ==>
          s.place[n].thread < |s.pc| && HeldNode(s.pc[s.place[n].thread]) == n)
  }

  // A released buffer points to the head its thread has read.
  ghost predicate Stored(s: State)
    requires Bounded(s)
  {
    forall t :: 0 <= t < |s.pc| && s.pc[t].RelCas? ==> s.next[s.pc[t].node] == s.pc[t].h
  }

  ghost predicate Inv(s: State) { Bounded(s) && FreeList(s) && Holders(s) && Stored(s) }

  lemma InitInv(size: nat, seed: nat, threads: nat)
    requires 1 <= size
    ensures Inv(Init(size, seed, threads))
  {
    var s := Init(size, seed, threads);
    assert forall t :: 0 <= t < threads ==> s.pc[t] == Idle(NoCall);
    forall j | 0 <= j < |s.free|
      ensures s.free[j] < size && s.place[s.free[j]] == InFree(j) && PointsTo(s.next[s.free[j]], s.free, j)
    {
      assert s.free[j] == size - 1 - j;
    }
  }

  lemma TakeInv(s: State, t: nat)
    requires Inv(s) && t < |s.pc| && s.pc[t].AllocCas? && s.head == s.pc[t].h && !StaleAlloc(s, t)
    ensures Inv(Step(s, t, Go))
  {
    hide FreeList, Holders, Stored, PcOk;
    TakeList(s, t);
    TakeHolders(s, t);
    OtherStored(s, t, Go);
  }

  lemma TakeList(s: State, t: nat)
    requires Bounded(s) && FreeList(s) && t < |s.pc| && s.pc[t].AllocCas? && s.head == s.pc[t].h && !StaleAlloc(s, t)
    ensures FreeList(Step(s, t, Go)) && s.place[s.pc[t].h.node].InFree?
  {
    var r := Step(s, t, Go);
    assert s.pc[t].h.node == s.free[|s.free| - 1];
    assert s.next[s.free[|s.free| - 1]] == s.next[s.pc[t].h.node];
  }

  lemma TakeHolders(s: State, t: nat)
    requires Bounded(s) && Holders(s) && t < |s.pc| && s.pc[t].AllocCas? && s.head == s.pc[t].h && s.place[s.pc[t].h.node].InFree?
    ensures Holders(Step(s, t, Go))
  {
  }

  lemma PutInv(s: State, t: nat)
    requires Inv(s) && t < |s.pc| && s.pc[t].RelCas? && s.head == s.pc[t].h
    ensures Inv(Step(s, t, Go))
  {
    var r := Step(s, t, Go);
    assert s.next[s.pc[t].node] == s.head;
    assert FreeList(r);
  }

  // The free list only depends on the free buffers.
  lemma FreeElsewhere(s: State, r: State)
    requires Bounded(s) && Bounded(r) && FreeList(s) && |r.next| == |s.next| && r.free == s.free && r.head == s.head
    requires forall n :: 0 <= n < |s.next| && s.place[n].InFree? ==> r.place[n] == s.place[n]
    requires forall n :: 0 <= n < |s.next| && r.place[n].InFree? ==> r.place[n] == s.place[n]
    requires forall n {:trigger r.next[n]} :: 0 <= n < |s.next| && s.place[n].InFree? ==> r.next[n] == s.next[n]
    ensures FreeList(r)
  {
  }

  lemma OtherFree(s: State, t: nat, a: Action)
    requires Inv(s) && t < |s.pc| && (s.pc[t].AllocCas? || s.pc[t].RelCas? ==> s.head != s.pc[t].h)
    ensures FreeList(Step(s, t, a))
  {
    FreeElsewhere(s, Step(s, t, a));
  }

  lemma CallHolders(s: State, t: nat, a: Action)
    requires Bounded(s) && Holders(s) && t < |s.pc| && s.pc[t].Idle?
    ensures Holders(Step(s, t, a))
  {
    hide PcOk;
  }

  lemma OtherHolders(s: State, t: nat, a: Action)
    requires Bounded(s) && Holders(s) && t < |s.pc| && (s.pc[t].AllocCas? || s.pc[t].RelCas? ==> s.head != s.pc[t].h)
    ensures Holders(Step(s, t, a))
  {
    hide PcOk;
    if s.pc[t].Idle? {
      CallHolders(s, t, a);
    } else {
      var r := Step(s, t, a);
      assert HeldNode(r.pc[t]) == if s.pc[t].AllocClear? then -1 else HeldNode(s.pc[t]);
    }
  }

  // A stored link is only written by the thread that holds its buffer.
  lemma KeepsLink(s: State, t: nat, a: Action, u: nat)
    requires Bounded(s) && Holders(s) && t < |s.pc| && u < |s.pc| && u != t && s.pc[u].RelCas?
    ensures var r := Step(s, t, a); r.pc[u] == s.pc[u] && r.next[s.pc[u].node] == s.next[s.pc[u].node]
  {
    hide PcOk;
    assert HeldNode(s.pc[u]) == s.pc[u].node;
  }

  lemma OtherStored(s: State, t: nat, a: Action)
    requires Bounded(s) && Holders(s) && Stored(s) && t < |s.pc|
    ensures Stored(Step(s, t, a))
  {
    hide Holders;
    var r := Step(s, t, a);
    forall u | 0 <= u < |r.pc| && r.pc[u].RelCas?
      ensures r.next[r.pc[u].node] == r.pc[u].h
    {
      if u != t { KeepsPc(s, t, a, u); KeepsLink(s, t, a, u); }
    }
  }

  lemma KeepsPc(s: State, t: nat, a: Action, u: nat)
    requires Bounded(s) && t < |s.pc| && u < |s.pc| && u != t
    ensures Step(s, t, a).pc[u] == s.pc[u]
  {
  }

  lemma OtherInv(s: State, t: nat, a: Action)
    requires Inv(s) && t < |s.pc| && (s.pc[t].AllocCas? || s.pc[t].RelCas? ==> s.head != s.pc[t].h)
    ensures Inv(Step(s, t, a))
  {
    hide PcOk, Holders, FreeList, Stored;
    OtherFree(s, t, a);
    OtherHolders(s, t, a);
    OtherStored(s, t, a);
  }

  lemma StepInv(s: State, t: nat, a: Action)
    requires Inv(s) && t < |s.pc| && !StaleAlloc(s, t)
    ensures Inv(Step(s, t, a))
  {
    if s.pc[t].AllocCas? && s.head == s.pc[t].h {
      TakeInv(s, t);
    } else if s.pc[t].RelCas? && s.head == s.pc[t].h {
      PutInv(s, t);
    } else {
      OtherInv(s, t, a);
    }
  }
}

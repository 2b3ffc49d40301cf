/**
  PerThreadMemoryAlloc (misc/src/PerThreadMemory.cc): one thread's free list without tags, as a
  machine of atomic steps.  Only the owner allocates; any thread releases.
 */
module ThreadList {
  import opened NodeList

  datatype Result = NoCall | Got(node: nat) | Exhausted | Released

  // The program counter names the next atomic action.
  datatype Pc =
    | Idle(result: Result)
    // AllocBuffer
    | AllocCheck                                 // read head->next: is it null?
    | AllocCount                                 // no = node_number--, assert no
    | AllocRead                                  // node = head->next, assert node
    | AllocNext(node: nat)                       // read node->next
    | AllocCas(node: nat, x: Ptr)                // CAS head->next: node -> x
    | AllocClear(node: nat)                      // node->next = 0, return
    // ReleaseBuffer
    | RelAssert(node: nat)                       // assert node->next == 0
    | RelCount(node: nat)                        // sz = node_number++, assert sz <= population + 1
    | RelRead(node: nat, sz: int)                // old_head = head->next
    | RelStore(node: nat, sz: int, h: Ptr)       // node->next = old_head
    | RelCas(node: nat, sz: int, h: Ptr)         // CAS head->next: old_head -> node
    | Cleaning                                   // Cleaner frees the whole list
    | AssertFailed

  // Who has a node: the list, a caller, or a thread inside an operation.
  datatype Place = InFree(at: nat) | InUse | HeldBy(thread: nat)

  // The pointers are untagged: At(0, node).  `free` lists the listed nodes, bottom first.
  datatype State = State(next: seq<Ptr>, head: Ptr, number: int, owner: nat, pc: seq<Pc>,
                         free: seq<nat>, place: seq<Place>)

  datatype Action = CallAlloc | CallRelease(node: nat) | Go

  function To(n: nat): Ptr { At(0, n) }

  predicate LinkOk(p: Ptr, max: nat) { p.At? ==> p.tag == 0 && p.node < max }

  predicate PcOk(c: Pc, max: nat) {
    match c
    case AllocNext(n) => n < max
    case AllocCas(n, x) => n < max && LinkOk(x, max)
    case AllocClear(n) => n < max
    case RelAssert(n) => n < max
    case RelCount(n) => n < max
    case RelRead(n, _) => n < max
    case RelStore(n, _, h) => n < max && LinkOk(h, max)
    case RelCas(n, _, h) => n < max && LinkOk(h, max)
    case _ => true
  }

  predicate Bounded(s: State) {
    && 1 <= |s.next| == |s.place| && s.owner < |s.pc|
    && LinkOk(s.head, |s.next|)
    && (forall n :: 0 <= n < |s.next| ==> LinkOk(s.next[n], |s.next|))
    && (forall t :: 0 <= t < |s.pc| ==> PcOk(s.pc[t], |s.next|))
  }

  // InitPerThreadList links population + 1 nodes and takes the first one as the dummy.
  function Init(population: nat, owner: nat, threads: nat): (s: State)
    requires owner < threads
    ensures Bounded(s)
  {
    State(seq(population + 1, n requires 0 <= n => if n == 0 || n == population then Nil else To(n + 1)),
          if population == 0 then Nil else To(1), population, owner, seq(threads, t => Idle(NoCall)),
          seq(population, j requires 0 <= j < population => population - j),
          seq(population + 1, n requires 0 <= n <= population => if n == 0 then InUse else InFree(population - n)))
  }

  function Goto(s: State, t: nat, c: Pc): State
    requires t < |s.pc|
  {
    s.(pc := s.pc[t := c])
  }

  predicate IsRelease(c: Pc) {
    c.RelAssert? || c.RelCount? || c.RelRead? || c.RelStore? || c.RelCas?
  }

  predicate IsAlloc(c: Pc) {
    c.AllocCheck? || c.AllocCount? || c.AllocRead? || c.AllocNext? || c.AllocCas? || c.AllocClear?
  }

  function AllocStep(s: State, t: nat): (r: State)
    requires Bounded(s) && t < |s.pc| && IsAlloc(s.pc[t])
    ensures Bounded(r) && |r.pc| == |s.pc| && |r.next| == |s.next| && r.owner == s.owner
  {
    match s.pc[t]
    case AllocCheck =>
      Goto(s, t, if s.head == Nil then Idle(Exhausted) else AllocCount)
    case AllocCount =>
      Goto(s, t, if s.number == 0 then AssertFailed else AllocRead).(number := s.number - 1)
    case AllocRead =>
      Goto(s, t, if s.head == Nil then AssertFailed else AllocNext(s.head.node))
    case AllocNext(n) =>
      Goto(s, t, AllocCas(n, s.next[n]))
    case AllocCas(n, x) =>
      if s.head == To(n) then
        Goto(s, t, AllocClear(n)).(head := x, free := DropLast(s.free), place := s.place[n := HeldBy(t)])
      else
        Goto(s, t, AllocRead)
    case AllocClear(n) =>
      Goto(s, t, Idle(Got(n))).(next := s.next[n := Nil], place := s.place[n := InUse])
  }

  function ReleaseStep(s: State, t: nat): (r: State)
    requires Bounded(s) && t < |s.pc| && IsRelease(s.pc[t])
    ensures Bounded(r) && |r.pc| == |s.pc| && |r.next| == |s.next| && r.owner == s.owner
  {
    match s.pc[t]
    case RelAssert(n) =>
      Goto(s, t, if s.next[n] == Nil then RelCount(n) else AssertFailed)
    case RelCount(n) =>
      Goto(s, t, if s.number <= |s.next| then RelRead(n, s.number) else AssertFailed).(number := s.number + 1)
    case RelRead(n, sz) =>
      Goto(s, t, RelStore(n, sz, s.head))
    case RelStore(n, sz, h) =>
      Goto(s, t, RelCas(n, sz, h)).(next := s.next[n := h])
    case RelCas(n, sz, h) =>
      if s.head == h then
        Goto(s, t, if sz == |s.next| then Cleaning else Idle(Released)).(
          head := To(n), free := s.free + [n], place := s.place[n := InFree(|s.free|)])
      else
        Goto(s, t, RelRead(n, sz))
  }

  function Call(s: State, t: nat, a: Action): (r: State)
    requires Bounded(s) && t < |s.pc|
    ensures Bounded(r) && |r.pc| == |s.pc| && |r.next| == |s.next| && r.owner == s.owner
  {
    match a
    // another thread's allocations are from its own list
    case CallAlloc => if t == s.owner then Goto(s, t, AllocCheck) else s
    // callers release what they were given, once
    case CallRelease(n) =>
      if n < |s.next| && s.place[n] == InUse then Goto(s, t, RelAssert(n)).(place := s.place[n := HeldBy(t)]) else s
    case Go => s
  }

  function Step(s: State, t: nat, a: Action): (r: State)
    requires Bounded(s) && t < |s.pc|
    ensures Bounded(r) && |r.pc| == |s.pc| && |r.next| == |s.next| && r.owner == s.owner
  {
    if IsAlloc(s.pc[t]) then AllocStep(s, t)
    else if IsRelease(s.pc[t]) then ReleaseStep(s, t)
    else if s.pc[t].Idle? then Call(s, t, a)
    else s
  }

  type Schedule = seq<(nat, Action)>

  predicate Fits(sched: Schedule, threads: nat) {
    forall k :: 0 <= k < |sched| ==> sched[k].0 < threads
  }

  function Run(s: State, sched: Schedule): (r: State)
    requires Bounded(s) && Fits(sched, |s.pc|)
    ensures Bounded(r) && |r.pc| == |s.pc| && |r.next| == |s.next| && r.owner == s.owner
    decreases |sched|
  {
    if sched == [] then s
    else
      var k := |sched| - 1;
      Step(Run(s, sched[..k]), sched[k].0, sched[k].1)
  }

  // ----- What can be observed -----

  function FreeNodes(s: State): seq<nat> { Walk(s.next, s.head, |s.next|) }

  // The node that a thread inside an operation has to itself, or -1.
  function HeldNode(c: Pc): int {
    match c
    case AllocClear(n) => n
    case RelAssert(n) => n
    case RelCount(n) => n
    case RelRead(n, _) => n
    case RelStore(n, _, _) => n
    case RelCas(n, _, _) => n
    case _ => -1
  }

  ghost predicate Held(s: State, n: nat) {
    exists t :: 0 <= t < |s.pc| && HeldNode(s.pc[t]) == n
  }

  // The list has no cycle and ends in null, and every node is in exactly one place.
  ghost predicate Sound(s: State)
    requires Bounded(s)
  {
    && NoDup(FreeNodes(s)) && Path(s.next, s.head, FreeNodes(s))
    && (forall n :: 0 <= n < |s.next| ==> n in FreeNodes(s) || s.place[n] == InUse || Held(s, n))
    && (forall n :: 0 <= n < |s.next| && n in FreeNodes(s) ==> s.place[n] != InUse && !Held(s, n))
    && (forall n :: 0 <= n < |s.next| && s.place[n] == InUse ==> !Held(s, n))
    && (forall t, u :: 0 <= t < u < |s.pc| && HeldNode(s.pc[t]) >= 0 ==> HeldNode(s.pc[t]) != HeldNode(s.pc[u]))
  }

  // The nodes of the releases that have counted but not yet linked.
  function Counted(pc: seq<Pc>): (nodes: seq<nat>)
    ensures forall n :: n in nodes ==> exists t :: 0 <= t < |pc| && CountedNode(pc[t]) && HeldNode(pc[t]) == n
  {
    if pc == [] then []
    else
      var k := |pc| - 1;
      if CountedNode(pc[k]) then Counted(pc[..k]) + [HeldNode(pc[k])] else Counted(pc[..k])
  }

  predicate CountedNode(c: Pc) { c.RelRead? || c.RelStore? || c.RelCas? }

  // The owner has counted an allocation down but not yet unlinked its node.
  predicate Unlinking(c: Pc) { c.AllocRead? || c.AllocNext? || c.AllocCas? }

  // node_number: listed nodes, plus releases between their two steps, minus the owner's
  // allocation between its two steps.
  ghost predicate NumberIs(s: State)
    requires Bounded(s)
  {
    s.number == |FreeNodes(s)| + |Counted(s.pc)| - (if Unlinking(s.pc[s.owner]) then 1 else 0)
  }

  // ----- The invariant -----

  ghost predicate FreeList(s: State)
    requires Bounded(s)
  {
    && (forall j :: 0 <= j < |s.free| ==> s.free[j] < |s.next| && s.place[s.free[j]] == InFree(j))
    && (forall n :: 0 <= n < |s.next| && s.place[n].InFree? ==>
          s.place[n].at < |s.free| && s.free[s.place[n].at] == n)
    && PointsTo(s.head, s.free, |s.free|)
    && (forall j {:trigger s.next[s.free[j]]} :: 0 <= j < |s.free| ==> PointsTo(s.next[s.free[j]], s.free, j))
  }

  ghost predicate Holders(s: State)
    requires Bounded(s)
  {
    && (forall t :: 0 <= t < |s.pc| && HeldNode(s.pc[t]) >= 0 ==>
          HeldNode(s.pc[t]) < |s.next| && s.place[HeldNode(s.pc[t])] == HeldBy(t))
    && (forall n :: 0 <= n < |s.next| && s.place[n].HeldBy? ==>
          s.place[n].thread < |s.pc| && HeldNode(s.pc[s.place[n].thread]) == n)
  }

  // Nodes outside the list have a null link until their release stores the head it has read.
  ghost predicate Links(s: State)
    requires Bounded(s)
  {
    && (forall n :: 0 <= n < |s.next| && s.place[n] == InUse ==> s.next[n] == Nil)
    && (forall t :: 0 <= t < |s.pc| && s.pc[t].RelAssert? ==> s.next[s.pc[t].node] == Nil)
    && (forall t :: 0 <= t < |s.pc| && s.pc[t].RelCas? ==> s.next[s.pc[t].node] == s.pc[t].h)
  }

  // Only the owner takes nodes out, so what it has seen listed stays listed, with its link.
  ghost predicate OwnerSees(s: State)
    requires Bounded(s)
  {
    && (forall t :: 0 <= t < |s.pc| && IsAlloc(s.pc[t]) ==> t == s.owner)
    && var c := s.pc[s.owner];
       && (c.AllocCount? || Unlinking(c) ==> s.free != [])
       && (c.AllocNext? || c.AllocCas? ==> s.place[c.node].InFree?)
       && (c.AllocCas? ==> s.next[c.node] == c.x)
  }

  ghost predicate Counter(s: State)
    requires Bounded(s)
  {
    && s.number == |s.free| + |Counted(s.pc)| - (if Unlinking(s.pc[s.owner]) then 1 else 0)
    && (forall t :: 0 <= t < |s.pc| && CountedNode(s.pc[t]) ==> s.pc[t].sz < |s.next|)
    && (forall t :: 0 <= t < |s.pc| ==> s.pc[t] != AssertFailed && s.pc[t] != Cleaning)
  }

  ghost predicate Inv(s: State) {
    Bounded(s) && FreeList(s) && Holders(s) && Links(s) && OwnerSees(s) && Counter(s)
  }

  lemma {:induction false} NoneCounted(pc: seq<Pc>)
    requires forall t :: 0 <= t < |pc| ==> !CountedNode(pc[t])
    ensures Counted(pc) == []
  {
    if pc != [] { NoneCounted(pc[..|pc| - 1]); }
  }

  lemma InitList(population: nat, owner: nat, threads: nat)
    requires owner < threads
    ensures FreeList(Init(population, owner, threads))
  {
    var s := Init(population, owner, threads);
    forall j | 0 <= j < |s.free|
      ensures s.free[j] < |s.next| && s.place[s.free[j]] == InFree(j) && PointsTo(s.next[s.free[j]], s.free, j)
    {
      assert s.free[j] == population - j;
    }
  }

  lemma InitInv(population: nat, owner: nat, threads: nat)
    requires owner < threads
    ensures Inv(Init(population, owner, threads))
  {
    hide FreeList, Bounded;
    var s := Init(population, owner, threads);
    assert forall t :: 0 <= t < threads ==> s.pc[t] == Idle(NoCall);
    NoneCounted(s.pc);
    InitList(population, owner, threads);
  }
}

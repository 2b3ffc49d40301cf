/**
  The linked lock-free queue of misc/src/LockFreeList.cc as a machine of atomic steps.

  Every thread has a program counter `Pc` that names its NEXT atomic action and carries the
  local variables that are live there.  One step is one atomic read, compare-and-swap,
  fetch-and-add or plain store, and memory is sequentially consistent.  Tags are unbounded.
  `Step` is total: a schedule is any sequence of (thread, action) pairs, and any number of
  threads may push and pop.
 */
module ListQueue {
  import opened NodeList

  // What the last call of a thread returned.
  datatype Result = NoCall | PushDone | PushFull | Popped(value: int) | PopNone

  datatype Pc =
    | Idle(result: Result)
    // AllocNode, called by Push(v)
    | AllocRead(v: int)                                              // read head_
    | AllocNext(v: int, h: Ptr)                                      // read h.node->next
    | AllocCas(v: int, h: Ptr, x: Ptr)                               // CAS head_: h -> x
    | AllocClear(v: int, node: nat)                                  // node->next = 0
    // Push(v), owning a node
    | PushStore(v: int, node: nat)                                   // node->data = v
    | PushClear(v: int, node: nat)                                   // node->next = 0
    | PushId(v: int, node: nat)                                      // id = id_++
    | TailRead(v: int, node: nat, id: nat)                           // read in_
    | TailNext(v: int, node: nat, id: nat, tail: Ptr)                // read tail.node->next
    | TailHelp(v: int, node: nat, id: nat, tail: Ptr, nx: Ptr)       // CAS in_: tail -> nx
    | TailLink(v: int, node: nat, id: nat, tail: Ptr)                // CAS tail.node->next: 0 -> (id, node)
    | TailSwing(tail: Ptr, nx: Ptr)                                  // CAS in_: tail -> (id, node)
    // Pop
    | PopOut                                                         // read out_
    | PopIn(out: Ptr)                                                // read in_
    | PopNext(out: Ptr, tail: Ptr)                                   // read out.node->next
    | PopHelp(tail: Ptr, nx: Ptr)                                    // CAS in_: tail -> nx
    | PopData(out: Ptr, tail: Ptr, nx: Ptr)                          // read nx.node->data
    | PopCas(out: Ptr, tail: Ptr, nx: Ptr, value: int)               // CAS out_: out -> nx
    // ReleaseNode, called by Pop with the value it will return
    | RelId(node: nat, value: int)                                   // id = id2_++
    | RelRead(node: nat, value: int, id: nat)                        // read head_
    | RelStore(node: nat, value: int, id: nat, h: Ptr)               // node->next = h
    | RelCas(node: nat, value: int, id: nat, h: Ptr)                 // CAS head_: h -> (id, node)

  // Who has a node: the free list (counted from its bottom), the queue (at an index of the
  // history of links), or one thread.
  datatype Place = InFree(at: nat) | InQueue(index: nat) | HeldBy(thread: nat)

  // History: `link` lists every pointer ever linked, oldest first, and `val` its value;
  // link[o] is the current dummy and link[i] the observed tail in_.  `pushed` and `popped`
  // log the values in the order of the linking and of the out_ compare-and-swaps.
  datatype History = History(link: seq<Ptr>, val: seq<int>, o: nat, i: nat,
                             free: seq<nat>, place: seq<Place>,
                             pushed: seq<int>, popped: seq<int>)

  datatype State = State(next: seq<Ptr>, data: seq<int>,
                         head: Ptr, inp: Ptr, outp: Ptr, id: nat, id2: nat,
                         pc: seq<Pc>, hist: History)

  datatype Action = CallPush(v: int) | CallPop | Go

  // ----- Memory bounds -----

  predicate PcOk(c: Pc, max: nat) {
    match c
    case Idle(_) => true
    case AllocRead(_) => true
    case AllocNext(_, h) => NodePtr(h, max)
    case AllocCas(_, h, x) => NodePtr(h, max) && PtrOk(x, max)
    case AllocClear(_, n) => n < max
    case PushStore(_, n) => n < max
    case PushClear(_, n) => n < max
    case PushId(_, n) => n < max
    case TailRead(_, n, _) => n < max
    case TailNext(_, n, _, tail) => n < max && NodePtr(tail, max)
    case TailHelp(_, n, _, tail, nx) => n < max && NodePtr(tail, max) && NodePtr(nx, max)
    case TailLink(_, n, _, tail) => n < max && NodePtr(tail, max)
    case TailSwing(tail, nx) => NodePtr(tail, max) && NodePtr(nx, max)
    case PopOut => true
    case PopIn(out) => NodePtr(out, max)
    case PopNext(out, tail) => NodePtr(out, max) && NodePtr(tail, max)
    case PopHelp(tail, nx) => NodePtr(tail, max) && NodePtr(nx, max)
    case PopData(out, tail, nx) => NodePtr(out, max) && NodePtr(tail, max) && NodePtr(nx, max)
    case PopCas(out, tail, nx, _) => NodePtr(out, max) && NodePtr(tail, max) && NodePtr(nx, max)
    case RelId(n, _) => n < max
    case RelRead(n, _, _) => n < max
    case RelStore(n, _, _, h) => n < max && PtrOk(h, max)
    case RelCas(n, _, _, h) => n < max && PtrOk(h, max)
  }

  // Every pointer in memory or in a local variable is null or points into the node array.
  predicate Bounded(s: State) {
    && |s.data| == |s.next|
    && |s.hist.place| == |s.next|
    && PtrOk(s.head, |s.next|)
    && NodePtr(s.inp, |s.next|)
    && NodePtr(s.outp, |s.next|)
    && (forall n :: 0 <= n < |s.next| ==> PtrOk(s.next[n], |s.next|))
    && (forall t :: 0 <= t < |s.pc| ==> PcOk(s.pc[t], |s.next|))
  }

  // ----- The constructor -----

  // InitInternalNodeList threads the nodes 1..max-1 with tags 1..max-1 and AllocNode has taken
  // node 0 as the first dummy.  `seed` is the first tag ReleaseNode will use.
  function Init(max: nat, seed: nat, data: seq<int>, threads: nat): (s: State)
    requires 1 <= max == |data|
    ensures Bounded(s)
  {
    State(seq(max, n requires 0 <= n => if n == 0 || n + 1 == max then Nil else At(n + 1, n + 1)),
          data,
          if max == 1 then Nil else At(1, 1),
          At(0, 0), At(0, 0), 1, seed,
          seq(threads, t => Idle(NoCall)),
          History([At(0, 0)], [data[0]], 0, 0,
                  seq(max - 1, j requires 0 <= j < max - 1 => max - 1 - j),
                  seq(max, n requires 0 <= n < max => if n == 0 then InQueue(0) else InFree(max - 1 - n)),
                  [], []))
  }

  // The seed of the code: id2_ is left at max_ - 1.
  function CodeInit(max: nat, data: seq<int>, threads: nat): State
    requires 1 <= max == |data|
  {
    Init(max, max - 1, data, threads)
  }

  // ----- One atomic step -----

  function Goto(s: State, t: nat, c: Pc): State
    requires t < |s.pc|
  {
    s.(pc := s.pc[t := c])
  }

  // A compare-and-swap that moves in_ one link further.
  function SwingTail(s: State, tail: Ptr, nx: Ptr): State {
    if s.inp == tail then s.(inp := nx, hist := s.hist.(i := s.hist.i + 1)) else s
  }

  function Call(s: State, t: nat, a: Action): State
    requires t < |s.pc| && s.pc[t].Idle?
  {
    match a
    case CallPush(v) => Goto(s, t, AllocRead(v))
    case CallPop => Goto(s, t, PopOut)
    case Go => s
  }

  predicate IsAlloc(c: Pc) { c.AllocRead? || c.AllocNext? || c.AllocCas? || c.AllocClear? }

  function AllocStep(s: State, t: nat): (r: State)
    requires Bounded(s) && t < |s.pc| && IsAlloc(s.pc[t])
    ensures Bounded(r) && |r.pc| == |s.pc| && |r.next| == |s.next|
  {
    match s.pc[t]
    case AllocRead(v) =>
      Goto(s, t, if s.head == Nil then Idle(PushFull) else AllocNext(v, s.head))
    case AllocNext(v, h) =>
      Goto(s, t, AllocCas(v, h, s.next[h.node]))
    case AllocCas(v, h, x) =>
      if s.head == h then
        Goto(s, t, AllocClear(v, h.node)).(
          head := x,
          hist := s.hist.(free := DropLast(s.hist.free), place := s.hist.place[h.node := HeldBy(t)]))
      else
        Goto(s, t, AllocRead(v))
    case AllocClear(v, n) =>
      Goto(s, t, PushStore(v, n)).(next := s.next[n := Nil])
  }

  predicate IsPush(c: Pc) {
    c.PushStore? || c.PushClear? || c.PushId? || c.TailRead? || c.TailNext? || c.TailHelp? || c.TailLink? || c.TailSwing?
  }

  function PushStep(s: State, t: nat): (r: State)
    requires Bounded(s) && t < |s.pc| && IsPush(s.pc[t])
    ensures Bounded(r) && |r.pc| == |s.pc| && |r.next| == |s.next|
  {
    match s.pc[t]
    case PushStore(v, n) =>
      Goto(s, t, PushClear(v, n)).(data := s.data[n := v])
    case PushClear(v, n) =>
      Goto(s, t, PushId(v, n)).(next := s.next[n := Nil])
    case PushId(v, n) =>
      Goto(s, t, TailRead(v, n, s.id)).(id := s.id + 1)
    case TailRead(v, n, id) =>
      Goto(s, t, TailNext(v, n, id, s.inp))
    case TailNext(v, n, id, tail) =>
      var nx := s.next[tail.node];
      Goto(s, t, if nx != Nil then TailHelp(v, n, id, tail, nx) else TailLink(v, n, id, tail))
    case TailHelp(v, n, id, tail, nx) =>
      Goto(SwingTail(s, tail, nx), t, TailRead(v, n, id))
    case TailLink(v, n, id, tail) =>
      if s.next[tail.node] == Nil then
        Goto(s, t, TailSwing(tail, At(id, n))).(
          next := s.next[tail.node := At(id, n)],
          hist := s.hist.(link := s.hist.link + [At(id, n)], val := s.hist.val + [v],
                          place := s.hist.place[n := InQueue(|s.hist.link|)],
                          pushed := s.hist.pushed + [v]))
      else
        Goto(s, t, TailRead(v, n, id))
    case TailSwing(tail, nx) =>
      Goto(SwingTail(s, tail, nx), t, Idle(PushDone))
  }

  predicate IsPop(c: Pc) {
    c.PopOut? || c.PopIn? || c.PopNext? || c.PopHelp? || c.PopData? || c.PopCas?
  }

  function PopStep(s: State, t: nat): (r: State)
    requires Bounded(s) && t < |s.pc| && IsPop(s.pc[t])
    ensures Bounded(r) && |r.pc| == |s.pc| && |r.next| == |s.next|
  {
    match s.pc[t]
    case PopOut =>
      Goto(s, t, PopIn(s.outp))
    case PopIn(out) =>
      Goto(s, t, PopNext(out, s.inp))
    case PopNext(out, tail) =>
      var nx := s.next[out.node];
      Goto(s, t, if nx == Nil then Idle(PopNone)
                 else if tail == out then PopHelp(tail, nx)
                 else PopData(out, tail, nx))
    case PopHelp(tail, nx) =>
      Goto(SwingTail(s, tail, nx), t, PopOut)
    case PopData(out, tail, nx) =>
      Goto(s, t, PopCas(out, tail, nx, s.data[nx.node]))
    case PopCas(out, tail, nx, v) =>
      if s.outp == out then
        Goto(s, t, RelId(out.node, v)).(
          outp := nx,
          hist := s.hist.(o := s.hist.o + 1, place := s.hist.place[out.node := HeldBy(t)],
                          popped := s.hist.popped + [v]))
      else
        Goto(s, t, PopOut)
  }

  predicate IsRelease(c: Pc) { c.RelId? || c.RelRead? || c.RelStore? || c.RelCas? }

  function ReleaseStep(s: State, t: nat): (r: State)
    requires Bounded(s) && t < |s.pc| && IsRelease(s.pc[t])
    ensures Bounded(r) && |r.pc| == |s.pc| && |r.next| == |s.next|
  {
    match s.pc[t]
    case RelId(n, v) =>
      Goto(s, t, RelRead(n, v, s.id2)).(id2 := s.id2 + 1)
    case RelRead(n, v, id) =>
      Goto(s, t, RelStore(n, v, id, s.head))
    case RelStore(n, v, id, h) =>
      Goto(s, t, RelCas(n, v, id, h)).(next := s.next[n := h])
    case RelCas(n, v, id, h) =>
      if s.head == h then
        Goto(s, t, Idle(Popped(v))).(
          head := At(id, n),
          hist := s.hist.(free := s.hist.free + [n], place := s.hist.place[n := InFree(|s.hist.free|)]))
      else
        Goto(s, t, RelRead(n, v, id))
  }

  // The next atomic action of thread t; an idle thread starts the call that `a` asks for.
  function Step(s: State, t: nat, a: Action): (r: State)
    requires Bounded(s) && t < |s.pc|
    ensures Bounded(r) && |r.pc| == |s.pc| && |r.next| == |s.next|
  {
    if s.pc[t].Idle? then Call(s, t, a)
    else if IsAlloc(s.pc[t]) then AllocStep(s, t)
    else if IsPush(s.pc[t]) then PushStep(s, t)
    else if IsPop(s.pc[t]) then PopStep(s, t)
    else ReleaseStep(s, t)
  }

  // ----- Runs -----

  type Schedule = seq<(nat, Action)>

  predicate Fits(sched: Schedule, threads: nat) {
    forall k :: 0 <= k < |sched| ==> sched[k].0 < threads
  }

  function Run(s: State, sched: Schedule): (r: State)
    requires Bounded(s) && Fits(sched, |s.pc|)
    ensures Bounded(r) && |r.pc| == |s.pc| && |r.next| == |s.next|
    decreases |sched|
  {
    if sched == [] then s
    else
      var k := |sched| - 1;
      Step(Run(s, sched[..k]), sched[k].0, sched[k].1)
  }

  // ----- What an observer of the memory sees -----

  function DataAt(data: seq<int>, nodes: seq<nat>): seq<int>
    requires forall k :: 0 <= k < |nodes| ==> nodes[k] < |data|
  {
    seq(|nodes|, k requires 0 <= k < |nodes| => data[nodes[k]])
  }

  // The dummy followed by the nodes that hold values.
  function QueueNodes(s: State): seq<nat> { Walk(s.next, s.outp, |s.next|) }

  function FreeNodes(s: State): seq<nat> { Walk(s.next, s.head, |s.next|) }

  // The node a thread has to itself, or -1.
  function HeldNode(c: Pc): int {
    match c
    case AllocClear(_, n) => n
    case PushStore(_, n) => n
    case PushClear(_, n) => n
    case PushId(_, n) => n
    case TailRead(_, n, _) => n
    case TailNext(_, n, _, _) => n
    case TailHelp(_, n, _, _, _) => n
    case TailLink(_, n, _, _) => n
    case RelId(n, _) => n
    case RelRead(n, _, _) => n
    case RelStore(n, _, _, _) => n
    case RelCas(n, _, _, _) => n
    case _ => -1
  }

  ghost predicate Held(s: State, n: nat) {
    exists t :: 0 <= t < |s.pc| && HeldNode(s.pc[t]) == n
  }

  // Every node is in exactly one of the queue, the free list and the hands of one thread.
  ghost predicate Partition(s: State) {
    && NoDup(QueueNodes(s))
    && NoDup(FreeNodes(s))
    && (forall n :: 0 <= n < |s.next| ==> n in QueueNodes(s) || n in FreeNodes(s) || Held(s, n))
    && (forall n :: n in QueueNodes(s) ==> n !in FreeNodes(s) && !Held(s, n))
    && (forall n :: n in FreeNodes(s) ==> !Held(s, n))
    && (forall t, u :: 0 <= t < u < |s.pc| && HeldNode(s.pc[t]) >= 0 ==> HeldNode(s.pc[t]) != HeldNode(s.pc[u]))
  }

  // What was pushed is what was popped followed by what the queue memory holds.
  ghost predicate Conserved(s: State)
    requires Bounded(s)
  {
    && QueueNodes(s) != []
    && s.hist.pushed == s.hist.popped + DataAt(s.data, QueueNodes(s)[1..])
  }

  ghost predicate Sound(s: State)
    requires Bounded(s)
  {
    Conserved(s) && Partition(s)
  }

  // ----- The two steps that can go wrong -----

  // An allocation succeeds although the successor it read is no longer the successor.
  predicate StaleAlloc(s: State, t: nat)
    requires Bounded(s) && t < |s.pc|
  {
    && s.pc[t].AllocCas?
    && s.head == s.pc[t].h
    && !SameNode(s.next[s.pc[t].h.node], s.pc[t].x)
  }

  // A link succeeds on a node that has left the queue.
  predicate StaleLink(s: State, t: nat)
    requires Bounded(s) && t < |s.pc|
  {
    && s.pc[t].TailLink?
    && s.next[s.pc[t].tail.node] == Nil
    && s.pc[t].tail.node !in QueueNodes(s)
  }

  predicate BadStep(s: State, t: nat)
    requires Bounded(s) && t < |s.pc|
  {
    StaleAlloc(s, t) || StaleLink(s, t)
  }
}

/**
  LockFreeQueue (misc/LockFreeContainer.h): a ring with separate cursors for reserving,
  publishing and consuming, as a machine of atomic steps.
 */
module RingQueue {
  import opened Modulus

  datatype Result = NoCall | Pushed | Full | Popped(v: int) | Empty

  // The program counter names the next atomic action.  `at` is, as history, the number of pushes
  // (or pops) that had succeeded when the cursor was read: its unwrapped value.
  datatype Pc =
    | Idle(result: Result)
    // Push(v)
    | PushRead(v: int)                            // read write_
    | PushCheck(v: int, w: nat, at: nat)          // read read_
    | PushCas(v: int, w: nat, at: nat)            // CAS write_: w -> w + 1
    | PushStore(v: int, w: nat, at: nat)          // arr_[w] = v
    | PushPublish(v: int, w: nat, at: nat)        // CAS maxRead_: w -> w + 1, until it succeeds
    // Pop
    | PopRead                                     // read read_
    | PopCheck(r: nat, at: nat)                   // read maxRead_
    | PopTake(r: nat, at: nat)                    // ret = arr_[r]
    | PopCas(r: nat, ret: int, at: nat)           // CAS read_: r -> r + 1

  // History: `pushed` are the values in the order in which their slots were reserved, by the
  // threads in `owner`; `published` counts the advances of maxRead_; `popped` are the values
  // returned by the successful pops.
  datatype State = State(arr: seq<int>, read: nat, write: nat, maxRead: nat, pc: seq<Pc>,
                         pushed: seq<int>, owner: seq<nat>, published: nat, popped: seq<int>)

  datatype Action = CallPush(v: int) | CallPop | Go

  function Next(i: nat, size: nat): (r: nat)
    requires 1 <= size
    ensures r < size
  {
    (i + 1) % size
  }

  function Init(arr: seq<int>, threads: nat): (s: State)
    requires 1 <= |arr|
    ensures Bounded(s)
  {
    State(arr, 0, 0, 0, seq(threads, t => Idle(NoCall)), [], [], 0, [])
  }

  predicate PcOk(c: Pc, size: nat) {
    match c
    case PushCheck(_, w, _) => w < size
    case PushCas(_, w, _) => w < size
    case PushStore(_, w, _) => w < size
    case PushPublish(_, w, _) => w < size
    case PopCheck(r, _) => r < size
    case PopTake(r, _) => r < size
    case PopCas(r, _, _) => r < size
    case _ => true
  }

  predicate Bounded(s: State) {
    && s.read < |s.arr| && s.write < |s.arr| && s.maxRead < |s.arr|
    && forall t :: 0 <= t < |s.pc| ==> PcOk(s.pc[t], |s.arr|)
  }

  function Goto(s: State, t: nat, c: Pc): State
    requires t < |s.pc|
  {
    s.(pc := s.pc[t := c])
  }

  function Step(s: State, t: nat, a: Action): (r: State)
    requires Bounded(s) && t < |s.pc|
    ensures Bounded(r) && |r.pc| == |s.pc| && |r.arr| == |s.arr|
  {
    match s.pc[t]
    case Idle(_) =>
      (match a
       case CallPush(v) => Goto(s, t, PushRead(v))
       case CallPop => Goto(s, t, PopRead)
       case Go => s)
    case PushRead(v) =>
      Goto(s, t, PushCheck(v, s.write, |s.pushed|))
    case PushCheck(v, w, at) =>
      Goto(s, t, if Next(w, |s.arr|) == s.read then Idle(Full) else PushCas(v, w, at))
    case PushCas(v, w, at) =>
      if s.write == w then
        Goto(s, t, PushStore(v, w, |s.pushed|)).(
          write := Next(w, |s.arr|), pushed := s.pushed + [v], owner := s.owner + [t])
      else
        Goto(s, t, PushRead(v))
    case PushStore(v, w, at) =>
      Goto(s, t, PushPublish(v, w, at)).(arr := s.arr[w := v])
    case PushPublish(v, w, at) =>
      if s.maxRead == w then
        Goto(s, t, Idle(Pushed)).(maxRead := Next(w, |s.arr|), published := s.published + 1)
      else
        s
    case PopRead =>
      Goto(s, t, PopCheck(s.read, |s.popped|))
    case PopCheck(r, at) =>
      Goto(s, t, if r == s.maxRead then Idle(Empty) else PopTake(r, at))
    case PopTake(r, at) =>
      Goto(s, t, PopCas(r, s.arr[r], at))
    case PopCas(r, ret, at) =>
      if s.read == r then
        Goto(s, t, Idle(Popped(ret))).(read := Next(r, |s.arr|), popped := s.popped + [ret])
      else
        Goto(s, t, PopRead)
  }

  type Schedule = seq<(nat, Action)>

  predicate Fits(sched: Schedule, threads: nat) {
    forall k :: 0 <= k < |sched| ==> sched[k].0 < threads
  }

  function Run(s: State, sched: Schedule): (r: State)
    requires Bounded(s) && Fits(sched, |s.pc|)
    ensures Bounded(r) && |r.pc| == |s.pc| && |r.arr| == |s.arr|
    decreases |sched|
  {
    if sched == [] then s
    else
      var k := |sched| - 1;
      Step(Run(s, sched[..k]), sched[k].0, sched[k].1)
  }

  // ----- What can be observed -----

  // The slot of the i-th pushed value.
  function Slot(i: nat, size: nat): (r: nat)
    requires 1 <= size
    ensures r < size
  {
    i % size
  }

  ghost predicate Sound(s: State)
    requires Bounded(s)
  {
    && |s.popped| <= s.published <= |s.pushed| < |s.popped| + |s.arr|
    && s.popped == s.pushed[..|s.popped|]
    && (forall i :: |s.popped| <= i < s.published ==> s.arr[Slot(i, |s.arr|)] == s.pushed[i])
  }

  // A push reserves a slot although the ring is full by now.
  predicate PushOverruns(s: State, t: nat)
    requires Bounded(s) && t < |s.pc|
  {
    s.pc[t].PushCas? && s.write == s.pc[t].w && |s.pushed| + 1 == |s.popped| + |s.arr|
  }

  // A pop takes a slot that is empty by now, or holds another value by now.
  predicate PopOverruns(s: State, t: nat)
    requires Bounded(s) && t < |s.pc|
  {
    && s.pc[t].PopCas? && s.read == s.pc[t].r
    && (|s.popped| == s.published || s.arr[s.pc[t].r] != s.pc[t].ret)
  }

  predicate BadStep(s: State, t: nat)
    requires Bounded(s) && t < |s.pc|
  {
    PushOverruns(s, t) || PopOverruns(s, t)
  }

  // The ring went round once or more between a thread's read of a cursor and its successful CAS.
  predicate Lapped(s: State, t: nat)
    requires Bounded(s) && t < |s.pc|
  {
    match s.pc[t]
    case PushCas(_, w, at) => s.write == w && |s.pushed| >= at + |s.arr|
    case PopCas(r, _, at) => s.read == r && |s.popped| >= at + |s.arr|
    case _ => false
  }

  // ----- The invariant -----

  ghost predicate Cursors(s: State)
    requires Bounded(s)
  {
    && |s.owner| == |s.pushed|
    && |s.popped| <= s.published <= |s.pushed| < |s.popped| + |s.arr|
    && s.read == Slot(|s.popped|, |s.arr|)
    && s.maxRead == Slot(s.published, |s.arr|)
    && s.write == Slot(|s.pushed|, |s.arr|)
  }

  ghost predicate Values(s: State)
    requires Bounded(s) && Cursors(s)
  {
    && s.popped == s.pushed[..|s.popped|]
    && (forall i :: |s.popped| <= i < s.published ==> s.arr[Slot(i, |s.arr|)] == s.pushed[i])
  }

  predicate Producing(c: Pc) { c.PushStore? || c.PushPublish? }

  ghost predicate Owns(s: State, c: Pc, t: nat)
    requires Bounded(s) && Cursors(s) && Producing(c)
  {
    && s.published <= c.at < |s.pushed|
    && s.owner[c.at] == t
    && c.w == Slot(c.at, |s.arr|)
    && c.v == s.pushed[c.at]
    && (c.PushPublish? ==> s.arr[c.w] == c.v)
  }

  // The reserved slots that are not published belong to one producer each.
  ghost predicate Producers(s: State)
    requires Bounded(s) && Cursors(s)
  {
    && (forall t :: 0 <= t < |s.pc| && Producing(s.pc[t]) ==> Owns(s, s.pc[t], t))
    && (forall i :: s.published <= i < |s.pushed| ==>
          s.owner[i] < |s.pc| && Producing(s.pc[s.owner[i]]) && s.pc[s.owner[i]].at == i)
  }

  // What a thread that is about to compare and swap knows, as long as the cursor has not moved.
  ghost predicate Knows(s: State, c: Pc)
    requires Bounded(s) && Cursors(s)
  {
    match c
    case PushCheck(_, w, at) => w == Slot(at, |s.arr|) && at <= |s.pushed|
    case PushCas(_, w, at) =>
      w == Slot(at, |s.arr|) && at <= |s.pushed| && (|s.pushed| == at ==> at + 1 < |s.popped| + |s.arr|)
    case PopCheck(r, at) => r == Slot(at, |s.arr|) && at <= |s.popped|
    case PopTake(r, at) =>
      r == Slot(at, |s.arr|) && at <= |s.popped| && (|s.popped| == at ==> at < s.published)
    case PopCas(r, ret, at) =>
      r == Slot(at, |s.arr|) && at <= |s.popped| && (|s.popped| == at ==> at < s.published && ret == s.pushed[at])
    case _ => true
  }

  ghost predicate Inv(s: State) {
    && Bounded(s) && Cursors(s) && Values(s) && Producers(s)
    && (forall t :: 0 <= t < |s.pc| ==> Knows(s, s.pc[t]))
  }

  // ----- Arithmetic of the ring -----

  // Within less than one lap, a slot belongs to one index only.
  lemma SlotInjective(i: nat, j: nat, size: nat)
    requires 1 <= size && i <= j < i + size && Slot(i, size) == Slot(j, size)
    ensures i == j
  {
    assert i == size * (i / size) + i % size;
    assert j == size * (j / size) + j % size;
    assert j - i == size * (j / size - i / size);
    SmallMultiple(size, j / size - i / size);
  }

  lemma SlotNext(i: nat, size: nat)
    requires 1 <= size
    ensures Next(Slot(i, size), size) == Slot(i + 1, size)
  {
    var q, r := i / size, i % size;
    assert i == size * q + r;
    if r + 1 < size {
      Remainder(i + 1, size, q, r + 1);
      Remainder(r + 1, size, 0, r + 1);
    } else {
      assert i + 1 == size * (q + 1) + 0;
      Remainder(i + 1, size, q + 1, 0);
      Remainder(r + 1, size, 1, 0);
    }
  }

  lemma SlotLap(i: nat, size: nat)
    requires 1 <= size
    ensures Slot(i + size, size) == Slot(i, size)
  {
    Remainder(i + size, size, i / size + 1, i % size);
  }

  lemma InitInv(arr: seq<int>, threads: nat)
    requires 1 <= |arr|
    ensures Inv(Init(arr, threads))
  {
    assert forall t :: 0 <= t < threads ==> Init(arr, threads).pc[t] == Idle(NoCall);
  }
}

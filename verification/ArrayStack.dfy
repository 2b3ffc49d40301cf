/**
  LockFreeStack (misc/LockFreeContainer.h): an array stack behind a group lock that lets many
  pushers or many poppers in, never both, as a machine of atomic steps.
 */
module ArrayStack {

  // What a linearised operation did.
  datatype Event = PushOk(v: int) | PushFull(v: int) | PopOk(v: int) | PopEmpty

  // The program counter names the next atomic action.  `ev` is, as history, the index of the
  // operation's event.
  datatype Pc =
    | Idle
    | Returned(event: Event, ev: nat)
    // Push(v)
    | PushMask(v: int)                              // read mask_
    | PushLock(v: int, m: nat)                      // CAS mask_: m -> m + 65536
    | PushTop(v: int)                               // read top_
    | PushReserve(v: int, top: nat)                 // CAS top_: top -> top + 1
    | PushWrite(v: int, slot: nat, ev: nat)         // arr_[slot] = v
    | PushAssert(event: Event, ev: nat)             // assert no popper is inside
    | PushLeave(event: Event, ev: nat)              // read mask_
    | PushUnlock(event: Event, ev: nat, m: nat)     // CAS mask_: m -> m - 65536
    // Pop
    | PopMask                                       // read mask_
    | PopLock(m: nat)                               // CAS mask_: m -> m + 1
    | PopTop                                        // read top_
    | PopReserve(top: nat)                          // CAS top_: top -> top - 1
    | PopRead(slot: nat, ev: nat)                   // ret = arr_[slot]
    | PopPoison(slot: nat, ret: int, ev: nat)       // arr_[slot] = 0xcdcd
    | PopAssert(event: Event, ev: nat)              // assert no pusher is inside
    | PopLeave(event: Event, ev: nat)               // read mask_
    | PopUnlock(event: Event, ev: nat, m: nat)      // CAS mask_: m -> m - 1
    | AssertFailed

  // History: `abs` is the abstract stack, `log` the events in the order of their linearisation,
  // `owner` the thread that still has to write or read a slot, or -1.
  datatype State = State(arr: seq<int>, top: nat, mask: nat, pc: seq<Pc>,
                         abs: seq<int>, log: seq<Event>, owner: seq<int>)

  datatype Action = CallPush(v: int) | CallPop | Go

  const WORD: nat := 0x1_0000_0000_0000_0000
  const POISON := 0xcdcd

  // size_t arithmetic.
  function Add(a: nat, b: nat): nat { (a + b) % WORD }

  function Sub(a: nat, b: nat): nat { if b <= a then a - b else (a + WORD - b % WORD) % WORD }

  // mask_ & ~readMask_ and mask_ & ~writeMask_.
  function PushBits(mask: nat): nat { mask - mask % 0x1_0000 }

  function PopBits(mask: nat): nat { mask % 0x1_0000 + mask - mask % 0x1_0000_0000 }

  function Init(size: nat, arr: seq<int>, threads: nat): State
    requires |arr| == size
  {
    State(arr, 0, 0, seq(threads, t => Idle), [], [], seq(size, j => -1))
  }

  predicate PcOk(c: Pc, size: nat) {
    match c
    case PushReserve(_, top) => top < size
    case PushWrite(_, slot, _) => slot < size
    case PopReserve(top) => 0 < top <= size
    case PopRead(slot, _) => slot < size
    case PopPoison(slot, _, _) => slot < size
    case _ => true
  }

  predicate Bounded(s: State) {
    && |s.owner| == |s.arr| && s.top <= |s.arr|
    && forall t :: 0 <= t < |s.pc| ==> PcOk(s.pc[t], |s.arr|)
  }

  function Goto(s: State, t: nat, c: Pc): State
    requires t < |s.pc|
  {
    s.(pc := s.pc[t := c])
  }

  predicate InPush(c: Pc) {
    c.PushTop? || c.PushReserve? || c.PushWrite? || c.PushAssert? || c.PushLeave? || c.PushUnlock?
  }

  predicate InPop(c: Pc) {
    c.PopTop? || c.PopReserve? || c.PopRead? || c.PopPoison? || c.PopAssert? || c.PopLeave? || c.PopUnlock?
  }

  predicate IsPush(c: Pc) { InPush(c) || c.PushMask? || c.PushLock? }

  predicate IsPop(c: Pc) { InPop(c) || c.PopMask? || c.PopLock? }

  function Call(s: State, t: nat, a: Action): (r: State)
    requires Bounded(s) && t < |s.pc|
    ensures Bounded(r) && |r.pc| == |s.pc| && |r.arr| == |s.arr|
  {
    match a
    case CallPush(v) => Goto(s, t, PushMask(v))
    case CallPop => Goto(s, t, PopMask)
    case Go => s
  }

  function PushStep(s: State, t: nat): (r: State)
    requires Bounded(s) && t < |s.pc| && IsPush(s.pc[t])
    ensures Bounded(r) && |r.pc| == |s.pc| && |r.arr| == |s.arr|
  {
    match s.pc[t]
    case PushMask(v) =>
      var m := PushBits(s.mask);
      if m / 0x1_0000 >= 0xff then s else Goto(s, t, PushLock(v, m))
    case PushLock(v, m) =>
      if s.mask == m then Goto(s, t, PushTop(v)).(mask := Add(m, 0x1_0000)) else Goto(s, t, PushMask(v))
    case PushTop(v) =>
      if s.top == |s.arr| then
        Goto(s, t, PushAssert(PushFull(v), |s.log|)).(log := s.log + [PushFull(v)])
      else
        Goto(s, t, PushReserve(v, s.top))
    case PushReserve(v, top) =>
      if s.top == top then
        Goto(s, t, PushWrite(v, top, |s.log|)).(
          top := top + 1, abs := s.abs + [v], log := s.log + [PushOk(v)], owner := s.owner[top := t])
      else
        Goto(s, t, PushTop(v))
    case PushWrite(v, slot, ev) =>
      Goto(s, t, PushAssert(PushOk(v), ev)).(arr := s.arr[slot := v], owner := s.owner[slot := -1])
    case PushAssert(e, ev) =>
      Goto(s, t, if PopBits(s.mask) == 0 then PushLeave(e, ev) else AssertFailed)
    case PushLeave(e, ev) =>
      Goto(s, t, PushUnlock(e, ev, s.mask))
    case PushUnlock(e, ev, m) =>
      if s.mask == m then Goto(s, t, Returned(e, ev)).(mask := Sub(m, 0x1_0000)) else Goto(s, t, PushLeave(e, ev))
  }

  function PopStep(s: State, t: nat): (r: State)
    requires Bounded(s) && t < |s.pc| && IsPop(s.pc[t])
    ensures Bounded(r) && |r.pc| == |s.pc| && |r.arr| == |s.arr|
  {
    match s.pc[t]
    case PopMask =>
      var m := PopBits(s.mask);
      if m >= 0xff then s else Goto(s, t, PopLock(m))
    case PopLock(m) =>
      if s.mask == m then Goto(s, t, PopTop).(mask := Add(m, 1)) else Goto(s, t, PopMask)
    case PopTop =>
      if s.top == 0 then
        Goto(s, t, PopAssert(PopEmpty, |s.log|)).(log := s.log + [PopEmpty])
      else
        Goto(s, t, PopReserve(s.top))
    case PopReserve(top) =>
      if s.top == top then
        Goto(s, t, PopRead(top - 1, |s.log|)).(
          top := top - 1,
          abs := if s.abs == [] then [] else s.abs[..|s.abs| - 1],
          log := s.log + [PopOk(if s.abs == [] then 0 else s.abs[|s.abs| - 1])],
          owner := s.owner[top - 1 := t])
      else
        Goto(s, t, PopTop)
    case PopRead(slot, ev) =>
      Goto(s, t, PopPoison(slot, s.arr[slot], ev))
    case PopPoison(slot, ret, ev) =>
      Goto(s, t, PopAssert(PopOk(ret), ev)).(arr := s.arr[slot := POISON], owner := s.owner[slot := -1])
    case PopAssert(e, ev) =>
      Goto(s, t, if PushBits(s.mask) == 0 then PopLeave(e, ev) else AssertFailed)
    case PopLeave(e, ev) =>
      Goto(s, t, PopUnlock(e, ev, s.mask))
    case PopUnlock(e, ev, m) =>
      if s.mask == m then Goto(s, t, Returned(e, ev)).(mask := Sub(m, 1)) else Goto(s, t, PopLeave(e, ev))
  }

  function Step(s: State, t: nat, a: Action): (r: State)
    requires Bounded(s) && t < |s.pc|
    ensures Bounded(r) && |r.pc| == |s.pc| && |r.arr| == |s.arr|
  {
    if IsPush(s.pc[t]) then PushStep(s, t)
    else if IsPop(s.pc[t]) then PopStep(s, t)
    else if s.pc[t].AssertFailed? then s
    else Call(s, t, a)
  }

  type Schedule = seq<(nat, Action)>

  predicate Fits(sched: Schedule, threads: nat) {
    forall k :: 0 <= k < |sched| ==> sched[k].0 < threads
  }

  function Run(s: State, sched: Schedule): (r: State)
    requires Bounded(s) && Fits(sched, |s.pc|)
    ensures Bounded(r) && |r.pc| == |s.pc| && |r.arr| == |s.arr|
    decreases |sched|
  {
    if sched == [] then s
    else
      var k := |sched| - 1;
      Step(Run(s, sched[..k]), sched[k].0, sched[k].1)
  }

  // ----- The bounded LIFO stack that the events must be a run of -----

  datatype Replayed = Illegal | Stack(items: seq<int>)

  function Apply(cap: nat, r: Replayed, e: Event): Replayed {
    if r.Illegal? then Illegal
    else
      match e
      case PushOk(v) => if |r.items| < cap then Stack(r.items + [v]) else Illegal
      case PushFull(_) => if |r.items| == cap then r else Illegal
      case PopOk(v) =>
        if |r.items| > 0 && r.items[|r.items| - 1] == v then Stack(r.items[..|r.items| - 1]) else Illegal
      case PopEmpty => if r.items == [] then r else Illegal
  }

  function Replay(cap: nat, log: seq<Event>): Replayed {
    if log == [] then Stack([]) else Apply(cap, Replay(cap, log[..|log| - 1]), log[|log| - 1])
  }

  // The event is one that the call may have.
  predicate Answers(a: Action, e: Event) {
    match a
    case CallPush(v) => e == PushOk(v) || e == PushFull(v)
    case CallPop => e.PopOk? || e.PopEmpty?
    case Go => false
  }

  predicate Busy(c: Pc) { IsPush(c) || IsPop(c) }

  // Thread sched[k].0 calls at step j of the run, is in that call until step k, and returns there.
  ghost predicate Finished(s: State, sched: Schedule, j: nat, k: nat)
    requires Bounded(s) && Fits(sched, |s.pc|)
  {
    && j < k < |sched| && sched[j].0 == sched[k].0
    && !Busy(Run(s, sched[..j]).pc[sched[k].0])
    && (forall i :: j < i <= k ==> Busy(Run(s, sched[..i]).pc[sched[k].0]))
    && Run(s, sched[..k + 1]).pc[sched[k].0].Returned?
  }

  // What the thread has returned that made step k of the run.
  function ReturnAt(s: State, sched: Schedule, k: nat): Pc
    requires Bounded(s) && Fits(sched, |s.pc|) && k < |sched|
  {
    Run(s, sched[..k + 1]).pc[sched[k].0]
  }

  // The events are a run of the stack, and each finished call has one of them to itself: one
  // that it may have, and that came after its call and before its return.
  ghost predicate Linearised(s: State, sched: Schedule)
    requires Bounded(s) && Fits(sched, |s.pc|)
  {
    var log := Run(s, sched).log;
    && Replay(|s.arr|, log).Stack?
    && (forall j: nat, k: nat :: Finished(s, sched, j, k) ==>
          var c := ReturnAt(s, sched, k);
          && |Run(s, sched[..j]).log| <= c.ev < |Run(s, sched[..k]).log| <= |log|
          && log[c.ev] == c.event && Answers(sched[j].1, c.event))
    && (forall j: nat, k: nat, jj: nat, kk: nat :: Finished(s, sched, j, k) && Finished(s, sched, jj, kk) && k < kk ==>
          ReturnAt(s, sched, k).ev != ReturnAt(s, sched, kk).ev)
  }

  // ----- The group lock -----

  function Count(pc: seq<Pc>, push: bool): nat {
    if pc == [] then 0
    else Count(pc[..|pc| - 1], push) +
         (if (if push then InPush(pc[|pc| - 1]) else InPop(pc[|pc| - 1])) then 1 else 0)
  }

  function One(c: Pc, push: bool): nat { if (if push then InPush(c) else InPop(c)) then 1 else 0 }

  lemma {:induction false} CountUpdate(pc: seq<Pc>, t: nat, c: Pc, push: bool)
    requires t < |pc|
    ensures Count(pc[t := c], push) == Count(pc, push) - One(pc[t], push) + One(c, push)
  {
    var k := |pc| - 1;
    if t == k {
      assert pc[t := c][..k] == pc[..k];
    } else {
      assert pc[t := c][..k] == pc[..k][t := c];
      CountUpdate(pc[..k], t, c, push);
    }
  }

  lemma {:induction false} CountInside(pc: seq<Pc>, t: nat, push: bool)
    requires t < |pc|
    ensures Count(pc, push) >= One(pc[t], push)
  {
    var k := |pc| - 1;
    if t < k { CountInside(pc[..k], t, push); }
  }

  lemma {:induction false} CountNone(pc: seq<Pc>, push: bool)
    requires forall t :: 0 <= t < |pc| ==> One(pc[t], push) == 0
    ensures Count(pc, push) == 0
  {
    if pc != [] { CountNone(pc[..|pc| - 1], push); }
  }

  // mask_ counts the pushers and the poppers inside, never both, at most 255 of each.
  ghost predicate GroupLock(s: State) {
    && s.mask == 0x1_0000 * Count(s.pc, true) + Count(s.pc, false)
    && (Count(s.pc, true) == 0 || Count(s.pc, false) == 0)
    && Count(s.pc, true) <= 0xff && Count(s.pc, false) <= 0xff
    && (forall t :: 0 <= t < |s.pc| && s.pc[t].PushLock? ==> s.pc[t].m % 0x1_0000 == 0 && s.pc[t].m / 0x1_0000 < 0xff)
    && (forall t :: 0 <= t < |s.pc| && s.pc[t].PopLock? ==>
          (s.pc[t].m == PopBits(s.pc[t].m)) && s.pc[t].m < 0xff)
    && (forall t :: 0 <= t < |s.pc| ==> s.pc[t] != AssertFailed)
  }

  // ----- Slots -----

  predicate Pops(c: Pc, slot: nat) { (c.PopRead? || c.PopPoison?) && c.slot == slot }

  ghost predicate Slots(s: State)
    requires Bounded(s)
  {
    && s.top == |s.abs|
    && (forall j :: 0 <= j < s.top && s.owner[j] < 0 ==> s.arr[j] == s.abs[j])
    && (forall j :: 0 <= j < s.top && s.owner[j] >= 0 ==>
          s.owner[j] < |s.pc| && s.pc[s.owner[j]].PushWrite? && s.pc[s.owner[j]].slot == j && s.pc[s.owner[j]].v == s.abs[j])
    && (forall j :: s.top <= j < |s.arr| && s.owner[j] >= 0 ==> s.owner[j] < |s.pc| && Pops(s.pc[s.owner[j]], j))
    && (forall t :: 0 <= t < |s.pc| && s.pc[t].PushWrite? ==> s.pc[t].slot < s.top && s.owner[s.pc[t].slot] == t)
    && (forall t :: 0 <= t < |s.pc| && (s.pc[t].PopRead? || s.pc[t].PopPoison?) ==>
          s.top <= s.pc[t].slot && s.owner[s.pc[t].slot] == t)
  }

  // What a thread has done so far is what its event says.
  ghost predicate Knows(s: State, c: Pc)
    requires Bounded(s)
  {
    match c
    case Returned(e, ev) => ev < |s.log| && s.log[ev] == e
    case PushWrite(v, _, ev) => ev < |s.log| && s.log[ev] == PushOk(v)
    case PushAssert(e, ev) => ev < |s.log| && s.log[ev] == e
    case PushLeave(e, ev) => ev < |s.log| && s.log[ev] == e
    case PushUnlock(e, ev, _) => ev < |s.log| && s.log[ev] == e
    case PopRead(slot, ev) => slot < |s.arr| && ev < |s.log| && s.log[ev] == PopOk(s.arr[slot])
    case PopPoison(_, ret, ev) => ev < |s.log| && s.log[ev] == PopOk(ret)
    case PopAssert(e, ev) => ev < |s.log| && s.log[ev] == e
    case PopLeave(e, ev) => ev < |s.log| && s.log[ev] == e
    case PopUnlock(e, ev, _) => ev < |s.log| && s.log[ev] == e
    case _ => true
  }

  ghost predicate Inv(s: State) {
    && Bounded(s)
    && GroupLock(s)
    && Slots(s)
    && Replay(|s.arr|, s.log) == Stack(s.abs)
    && (forall t :: 0 <= t < |s.pc| ==> Knows(s, s.pc[t]))
  }
}

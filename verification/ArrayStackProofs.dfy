/** The invariant of the array stack: its group lock, its slots and its events. */
module ArrayStackProofs {
  import opened ArrayStack

  lemma InitInv(size: nat, arr: seq<int>, threads: nat)
    requires |arr| == size
    ensures Inv(Init(size, arr, threads))
  {
    var s := Init(size, arr, threads);
    assert forall t :: 0 <= t < threads ==> s.pc[t] == Idle;
    CountNone(s.pc, true);
    CountNone(s.pc, false);
  }

  // ----- The group lock -----

  lemma MaskBits(p: nat, r: nat)
    requires p <= 0xff && r <= 0xff
    ensures PushBits(0x1_0000 * p + r) == 0x1_0000 * p && PopBits(0x1_0000 * p + r) == r
    ensures (0x1_0000 * p) % 0x1_0000 == 0 && PopBits(r) == r
  {
  }

  lemma PushLockBits(m: nat, p: nat, r: nat)
    requires m == 0x1_0000 * p + r && p <= 0xff && r <= 0xff && m % 0x1_0000 == 0 && m / 0x1_0000 < 0xff
    ensures r == 0 && p < 0xff && Add(m, 0x1_0000) == 0x1_0000 * (p + 1)
  {
  }

  lemma PopLockBits(m: nat, p: nat, r: nat)
    requires m == 0x1_0000 * p + r && p <= 0xff && r <= 0xff && m == PopBits(m) && m < 0xff
    ensures p == 0 && r < 0xff && Add(m, 1) == r + 1
  {
  }

  lemma InsideOne(s: State, t: nat)
    requires GroupLock(s) && t < |s.pc|
    ensures InPush(s.pc[t]) ==> Count(s.pc, true) >= 1 && Count(s.pc, false) == 0
    ensures InPop(s.pc[t]) ==> Count(s.pc, false) >= 1 && Count(s.pc, true) == 0
  {
    CountInside(s.pc, t, true);
    CountInside(s.pc, t, false);
  }

  lemma Moves(s: State, t: nat, a: Action)
    requires Bounded(s) && t < |s.pc|
    ensures var r := Step(s, t, a); r.pc == s.pc[t := r.pc[t]]
  {
  }

  ghost predicate LockOk(c: Pc) {
    match c
    case PushLock(_, m) => m % 0x1_0000 == 0 && m / 0x1_0000 < 0xff
    case PopLock(m) => m == PopBits(m) && m < 0xff
    case AssertFailed => false
    case _ => true
  }

  lemma GroupMoved(s: State, r: State, t: nat, c: Pc)
    requires GroupLock(s) && t < |s.pc| && r.pc == s.pc[t := c] && LockOk(c)
    requires var p, q := Count(s.pc, true) - One(s.pc[t], true) + One(c, true),
                         Count(s.pc, false) - One(s.pc[t], false) + One(c, false);
      r.mask == 0x1_0000 * p + q && (p == 0 || q == 0) && p <= 0xff && q <= 0xff
    ensures GroupLock(r)
  {
    CountUpdate(s.pc, t, c, true);
    CountUpdate(s.pc, t, c, false);
  }

  // Only the four compare-and-swaps on mask_ change who is inside.
  predicate ChangesLock(s: State, t: nat)
    requires t < |s.pc|
  {
    match s.pc[t]
    case PushLock(_, m) => s.mask == m
    case PopLock(m) => s.mask == m
    case PushUnlock(_, _, m) => s.mask == m
    case PopUnlock(_, _, m) => s.mask == m
    case _ => false
  }

  lemma GroupChange(s: State, t: nat)
    requires Bounded(s) && GroupLock(s) && t < |s.pc| && ChangesLock(s, t)
    ensures GroupLock(Step(s, t, Go))
  {
    hide Count, Add, PushBits, PopBits;
    var r := Step(s, t, Go);
    var p, q := Count(s.pc, true), Count(s.pc, false);
    InsideOne(s, t);
    if s.pc[t].PushLock? {
      PushLockBits(s.mask, p, q);
    } else if s.pc[t].PopLock? {
      PopLockBits(s.mask, p, q);
    }
    GroupMoved(s, r, t, r.pc[t]);
  }

  // Reading mask_ for a lock, and the two assertions.
  lemma GroupRead(s: State, t: nat)
    requires Bounded(s) && GroupLock(s) && t < |s.pc| && !ChangesLock(s, t)
    requires IsPush(s.pc[t]) || IsPop(s.pc[t])
    ensures var c := Step(s, t, Go).pc[t]; LockOk(c) && One(c, true) == One(s.pc[t], true) && One(c, false) == One(s.pc[t], false)
  {
    hide Count, PushBits, PopBits;
    InsideOne(s, t);
    MaskBits(Count(s.pc, true), Count(s.pc, false));
  }

  lemma GroupStep(s: State, t: nat, a: Action)
    requires Bounded(s) && GroupLock(s) && t < |s.pc|
    ensures GroupLock(Step(s, t, a))
  {
    hide Count, PushBits, PopBits, Add, Sub;
    var r := Step(s, t, a);
    if ChangesLock(s, t) {
      GroupChange(s, t);
    } else {
      if IsPush(s.pc[t]) || IsPop(s.pc[t]) { GroupRead(s, t); }
      Moves(s, t, a);
      GroupMoved(s, r, t, r.pc[t]);
    }
  }

  // ----- The slots -----

  // While a pusher is inside, no popper still has to read a slot, and the other way round.
  lemma Exclusive(s: State, t: nat)
    requires GroupLock(s) && t < |s.pc|
    ensures InPush(s.pc[t]) ==> forall u :: 0 <= u < |s.pc| ==> !InPop(s.pc[u])
    ensures InPop(s.pc[t]) ==> forall u :: 0 <= u < |s.pc| ==> !InPush(s.pc[u])
  {
    InsideOne(s, t);
    forall u | 0 <= u < |s.pc|
      ensures InPush(s.pc[t]) ==> !InPop(s.pc[u])
      ensures InPop(s.pc[t]) ==> !InPush(s.pc[u])
    {
      InsideOne(s, u);
    }
  }

  predicate TouchesSlots(s: State, t: nat)
    requires t < |s.pc|
  {
    match s.pc[t]
    case PushReserve(_, top) => s.top == top
    case PushWrite(_, _, _) => true
    case PopReserve(top) => s.top == top
    case PopPoison(_, _, _) => true
    case _ => false
  }

  lemma SlotsPush(s: State, t: nat)
    requires Bounded(s) && GroupLock(s) && Slots(s) && t < |s.pc| && TouchesSlots(s, t) && IsPush(s.pc[t])
    ensures Slots(PushStep(s, t))
  {
    hide GroupLock, PushBits, PopBits, Add, Sub;
    Exclusive(s, t);
  }

  lemma SlotsTaken(s: State, t: nat)
    requires Bounded(s) && GroupLock(s) && Slots(s) && t < |s.pc| && s.pc[t].PopReserve? && s.top == s.pc[t].top
    ensures Slots(PopStep(s, t))
  {
    hide GroupLock, PushBits, PopBits, Add, Sub;
    Exclusive(s, t);
  }

  lemma SlotsPoisoned(s: State, t: nat)
    requires Bounded(s) && GroupLock(s) && Slots(s) && t < |s.pc| && s.pc[t].PopPoison?
    ensures Slots(PopStep(s, t))
  {
    hide GroupLock, PushBits, PopBits, Add, Sub;
    Exclusive(s, t);
  }

  lemma SlotsChange(s: State, t: nat)
    requires Bounded(s) && GroupLock(s) && Slots(s) && t < |s.pc| && TouchesSlots(s, t)
    ensures Slots(Step(s, t, Go))
  {
    hide GroupLock, Slots;
    if IsPush(s.pc[t]) {
      SlotsPush(s, t);
    } else if s.pc[t].PopReserve? {
      SlotsTaken(s, t);
    } else {
      SlotsPoisoned(s, t);
    }
  }

  lemma SlotsStay(s: State, t: nat, a: Action)
    requires Bounded(s) && Slots(s) && t < |s.pc| && !TouchesSlots(s, t)
    ensures var r := Step(s, t, a); Slots(r) && r.arr == s.arr && r.abs == s.abs
  {
    hide PushBits, PopBits, Add, Sub;
    var r := Step(s, t, a);
    assert r.arr == s.arr && r.top == s.top && r.abs == s.abs && r.owner == s.owner;
    Moves(s, t, a);
    SlotPcs(s, r, t, r.pc[t]);
  }

  lemma SlotPcs(s: State, r: State, t: nat, c: Pc)
    requires Bounded(s) && Slots(s) && Bounded(r) && t < |s.pc| && r.pc == s.pc[t := c]
    requires r.arr == s.arr && r.top == s.top && r.abs == s.abs && r.owner == s.owner
    requires s.pc[t].PushWrite? || c.PushWrite? ==> c == s.pc[t]
    requires (s.pc[t].PopRead? || s.pc[t].PopPoison? || c.PopRead? || c.PopPoison?) ==>
               (s.pc[t].PopRead? || s.pc[t].PopPoison?) && Pops(c, s.pc[t].slot)
    ensures Slots(r)
  {
  }

  // ----- The events -----

  lemma ReplayMore(cap: nat, log: seq<Event>, e: Event)
    ensures Replay(cap, log + [e]) == Apply(cap, Replay(cap, log), e)
  {
    assert (log + [e])[..|log|] == log;
  }

  lemma EventStep(s: State, t: nat, a: Action)
    requires Bounded(s) && Slots(s) && Replay(|s.arr|, s.log) == Stack(s.abs) && t < |s.pc|
    ensures var r := Step(s, t, a);
      Replay(|r.arr|, r.log) == Stack(r.abs) && s.log <= r.log
  {
    hide PushBits, PopBits, Add, Sub, Replay;
    var c := s.pc[t];
    if c.PushTop? && s.top == |s.arr| {
      ReplayMore(|s.arr|, s.log, PushFull(c.v));
    } else if c.PushReserve? && s.top == c.top {
      ReplayMore(|s.arr|, s.log, PushOk(c.v));
    } else if c.PopTop? && s.top == 0 {
      ReplayMore(|s.arr|, s.log, PopEmpty);
    } else if c.PopReserve? && s.top == c.top {
      ReplayMore(|s.arr|, s.log, PopOk(s.abs[|s.abs| - 1]));
    }
  }

  // ----- What the threads know -----

  lemma KnowsStays(s: State, r: State, c: Pc)
    requires Bounded(s) && Bounded(r) && Knows(s, c) && s.log <= r.log && |r.arr| == |s.arr|
    requires c.PopRead? ==> r.arr[c.slot] == s.arr[c.slot]
    ensures Knows(r, c)
  {
  }

  // Nobody writes the slot that a popper is about to read.
  lemma ReadsStay(s: State, t: nat, a: Action, u: nat)
    requires Bounded(s) && Slots(s) && t < |s.pc| && u < |s.pc| && u != t && s.pc[u].PopRead?
    ensures Step(s, t, a).arr[s.pc[u].slot] == s.arr[s.pc[u].slot]
  {
    hide PushBits, PopBits, Add, Sub;
  }

  lemma LearnsPush(s: State, t: nat)
    requires Bounded(s) && Slots(s) && t < |s.pc| && Knows(s, s.pc[t]) && IsPush(s.pc[t])
    ensures var r := PushStep(s, t); Knows(r, r.pc[t])
  {
    hide PushBits, PopBits, Add, Sub;
  }

  // A popper reserves a slot that no pusher still has to write.
  lemma LearnsPop(s: State, t: nat)
    requires Bounded(s) && GroupLock(s) && Slots(s) && t < |s.pc| && Knows(s, s.pc[t]) && IsPop(s.pc[t])
    ensures var r := PopStep(s, t); Knows(r, r.pc[t])
  {
    hide PushBits, PopBits, Add, Sub, GroupLock;
    Exclusive(s, t);
  }

  lemma Learns(s: State, t: nat, a: Action)
    requires Bounded(s) && GroupLock(s) && Slots(s) && t < |s.pc| && Knows(s, s.pc[t])
    ensures var r := Step(s, t, a); Knows(r, r.pc[t])
  {
    hide GroupLock, Slots;
    if IsPush(s.pc[t]) { LearnsPush(s, t); } else if IsPop(s.pc[t]) { LearnsPop(s, t); }
  }

  lemma KnowsStep(s: State, t: nat, a: Action)
    requires Inv(s) && t < |s.pc|
    ensures var r := Step(s, t, a); forall u :: 0 <= u < |r.pc| ==> Knows(r, r.pc[u])
  {
    hide GroupLock, Slots, Step, Knows;
    var r := Step(s, t, a);
    Moves(s, t, a);
    EventStep(s, t, a);
    forall u | 0 <= u < |r.pc|
      ensures Knows(r, r.pc[u])
    {
      if u == t {
        Learns(s, t, a);
      } else {
        if s.pc[u].PopRead? { ReadsStay(s, t, a, u); }
        KnowsStays(s, r, s.pc[u]);
      }
    }
  }

  lemma StepInv(s: State, t: nat, a: Action)
    requires Inv(s) && t < |s.pc|
    ensures Inv(Step(s, t, a))
  {
    hide GroupLock, Slots, Knows, Step, Replay;
    GroupStep(s, t, a);
    KnowsStep(s, t, a);
    EventStep(s, t, a);
    if TouchesSlots(s, t) {
      SlotsChange(s, t);
      TouchIgnores(s, t, a);
    } else {
      SlotsStay(s, t, a);
    }
  }

  lemma TouchIgnores(s: State, t: nat, a: Action)
    requires Bounded(s) && t < |s.pc| && TouchesSlots(s, t)
    ensures Step(s, t, a) == Step(s, t, Go)
  {
  }

  // ----- Whole runs -----

  lemma {:induction false} RunInv(s: State, sched: Schedule)
    requires Bounded(s) && Fits(sched, |s.pc|) && Inv(s)
    ensures Inv(Run(s, sched))
  {
    hide Bounded, Step, Inv;
    if sched != [] {
      var k := |sched| - 1;
      RunInv(s, sched[..k]);
      StepInv(Run(s, sched[..k]), sched[k].0, sched[k].1);
    }
  }

  /** mask_ is 65536 times the pushers inside plus the poppers inside, one of the two counts is
      zero, both are at most 255, and no assertion ever fails. */
  lemma {:induction false} GroupLockHolds(size: nat, arr: seq<int>, threads: nat, sched: Schedule)
    requires |arr| == size && Fits(sched, threads)
    ensures var s := Run(Init(size, arr, threads), sched);
      var pushers, poppers := Count(s.pc, true), Count(s.pc, false);
      && s.mask == 0x1_0000 * pushers + poppers
      && (pushers == 0 || poppers == 0) && pushers <= 0xff && poppers <= 0xff
      && forall t :: 0 <= t < |s.pc| ==> s.pc[t] != AssertFailed
  {
    InitInv(size, arr, threads);
    RunInv(Init(size, arr, threads), sched);
  }

  /** A popper never takes a slot that is still unwritten or already poisoned: what it will
      return is what the matching Push was given. */
  lemma {:induction false} PopReadsPushed(size: nat, arr: seq<int>, threads: nat, sched: Schedule, t: nat)
    requires |arr| == size && Fits(sched, threads) && t < threads
    ensures var s := Run(Init(size, arr, threads), sched);
      |s.pc| == threads && (s.pc[t].PopRead? ==> s.pc[t].ev < |s.log| && s.log[s.pc[t].ev] == PopOk(s.arr[s.pc[t].slot]))
  {
    InitInv(size, arr, threads);
    RunInv(Init(size, arr, threads), sched);
    var s := Run(Init(size, arr, threads), sched);
    assert Knows(s, s.pc[t]);
  }

  // ----- Popped slots -----

  // A slot that is not in use holds what it held before the first push, or the poison.
  ghost predicate Wiped(s: State, arr: seq<int>)
    requires Bounded(s)
  {
    |s.arr| == |arr| && forall j :: s.top <= j < |s.arr| && s.owner[j] < 0 ==> s.arr[j] == arr[j] || s.arr[j] == POISON
  }

  lemma WipedStep(s: State, t: nat, a: Action, arr: seq<int>)
    requires Bounded(s) && Slots(s) && Wiped(s, arr) && t < |s.pc|
    ensures Wiped(Step(s, t, a), arr)
  {
    hide PushBits, PopBits, Add, Sub, PcOk;
  }

  lemma {:induction false} WipedRun(s: State, sched: Schedule, arr: seq<int>)
    requires Bounded(s) && Fits(sched, |s.pc|) && Inv(s) && Wiped(s, arr)
    ensures Wiped(Run(s, sched), arr)
  {
    hide Bounded, Step, Inv, Wiped;
    if sched != [] {
      var k := |sched| - 1;
      WipedRun(s, sched[..k], arr);
      RunInv(s, sched[..k]);
      assert Slots(Run(s, sched[..k])) by { InvSlots(Run(s, sched[..k])); }
      WipedStep(Run(s, sched[..k]), sched[k].0, sched[k].1, arr);
    }
  }

  lemma InvSlots(s: State)
    requires Inv(s)
    ensures Bounded(s) && Slots(s)
  {
  }

  /** No popped value stays behind: a slot above top_ that no popper is still busy with holds the
      poison, or what it held before any push. */
  lemma {:induction false} PoppedSlotsAreWiped(size: nat, arr: seq<int>, threads: nat, sched: Schedule)
    requires |arr| == size && Fits(sched, threads)
    ensures Wiped(Run(Init(size, arr, threads), sched), arr)
  {
    InitInv(size, arr, threads);
    WipedRun(Init(size, arr, threads), sched, arr);
  }
}

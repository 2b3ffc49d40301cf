/** LockFreeStack in place: every step is the step of the machine in module ArrayStack. */
module LockFreeStack {
  import opened ArrayStack

  class Stack {
    const arr: array<int>
    var top: nat
    var mask: nat
    var pc: seq<Pc>                 // where each thread is, with its locals
    var abs: seq<int>               // history: the abstract stack
    var log: seq<Event>             // history: the linearised operations
    ghost var owner: seq<int>

    ghost function St(): State
      reads this, arr
    {
      State(arr[..], top, mask, pc, abs, log, owner)
    }

    ghost predicate Valid()
      reads this, arr
    {
      Bounded(St())
    }

    constructor (size: nat, threads: nat)
      ensures Valid() && fresh(arr) && arr.Length == size && St() == Init(size, arr[..], threads)
    {
      arr := new int[size];
      top, mask := 0, 0;
      pc := seq(threads, t => Idle);
      abs, log, owner := [], [], seq(size, j => -1);
    }

    // The next step of Push.
    method Push(t: nat)
      requires Valid() && t < |pc| && IsPush(pc[t])
      modifies this, arr
      ensures St() == Step(old(St()), t, Go) && Valid()
    {
      hide PushBits, PopBits, Add, Sub;
      match pc[t]
      case PushMask(v) =>
        var m := PushBits(mask);
        if m / 0x1_0000 < 0xff { pc := pc[t := PushLock(v, m)]; }
      case PushLock(v, m) =>
        if mask == m {
          mask := Add(m, 0x1_0000);
          pc := pc[t := PushTop(v)];
        } else {
          pc := pc[t := PushMask(v)];
        }
      case PushTop(v) =>
        if top == arr.Length {
          pc := pc[t := PushAssert(PushFull(v), |log|)];
          log := log + [PushFull(v)];
        } else {
          pc := pc[t := PushReserve(v, top)];
        }
      case PushReserve(v, old_top) =>
        if top == old_top {
          top := old_top + 1;
          pc := pc[t := PushWrite(v, old_top, |log|)];
          abs, log, owner := abs + [v], log + [PushOk(v)], owner[old_top := t];
        } else {
          pc := pc[t := PushTop(v)];
        }
      case PushWrite(v, slot, ev) =>
        arr[slot] := v;
        pc := pc[t := PushAssert(PushOk(v), ev)];
        owner := owner[slot := -1];
      case PushAssert(e, ev) =>
        pc := pc[t := if PopBits(mask) == 0 then PushLeave(e, ev) else AssertFailed];
      case PushLeave(e, ev) =>
        pc := pc[t := PushUnlock(e, ev, mask)];
      case PushUnlock(e, ev, m) =>
        if mask == m {
          mask := Sub(m, 0x1_0000);
          pc := pc[t := Returned(e, ev)];
        } else {
          pc := pc[t := PushLeave(e, ev)];
        }
    }

    // Pop's compare-and-swap on top_.
    method TakeTop(t: nat)
      requires Valid() && t < |pc| && pc[t].PopReserve?
      modifies this
      ensures St() == Step(old(St()), t, Go) && Valid()
    {
      var old_top := pc[t].top;
      if top == old_top {
        top := old_top - 1;
        pc := pc[t := PopRead(old_top - 1, |log|)];
        log := log + [PopOk(if abs == [] then 0 else abs[|abs| - 1])];
        abs := if abs == [] then [] else abs[..|abs| - 1];
        owner := owner[old_top - 1 := t];
      } else {
        pc := pc[t := PopTop];
      }
    }

    // The next step of Pop.
    method Pop(t: nat)
      requires Valid() && t < |pc| && IsPop(pc[t])
      modifies this, arr
      ensures St() == Step(old(St()), t, Go) && Valid()
    {
      hide PushBits, PopBits, Add, Sub;
      match pc[t]
      case PopMask =>
        var m := PopBits(mask);
        if m < 0xff { pc := pc[t := PopLock(m)]; }
      case PopLock(m) =>
        if mask == m {
          mask := Add(m, 1);
          pc := pc[t := PopTop];
        } else {
          pc := pc[t := PopMask];
        }
      case PopTop =>
        if top == 0 {
          pc := pc[t := PopAssert(PopEmpty, |log|)];
          log := log + [PopEmpty];
        } else {
          pc := pc[t := PopReserve(top)];
        }
      case PopReserve(_) => TakeTop(t);
      case PopRead(slot, ev) =>
        pc := pc[t := PopPoison(slot, arr[slot], ev)];
      case PopPoison(slot, ret, ev) =>
        arr[slot] := POISON;
        pc := pc[t := PopAssert(PopOk(ret), ev)];
        owner := owner[slot := -1];
      case PopAssert(e, ev) =>
        pc := pc[t := if PushBits(mask) == 0 then PopLeave(e, ev) else AssertFailed];
      case PopLeave(e, ev) =>
        pc := pc[t := PopUnlock(e, ev, mask)];
      case PopUnlock(e, ev, m) =>
        if mask == m {
          mask := Sub(m, 1);
          pc := pc[t := Returned(e, ev)];
        } else {
          pc := pc[t := PopLeave(e, ev)];
        }
    }

    method Start(t: nat, a: Action)
      requires Valid() && t < |pc| && (pc[t].Idle? || pc[t].Returned?)
      modifies this
      ensures St() == Step(old(St()), t, a) && Valid()
    {
      match a
      case CallPush(v) => pc := pc[t := PushMask(v)];
      case CallPop => pc := pc[t := PopMask];
      case Go =>
    }

    // An arbitrary interleaving.
    method RunSchedule(sched: Schedule)
      requires Valid() && Fits(sched, |pc|)
      modifies this, arr
      ensures St() == Run(old(St()), sched) && Valid()
    {
      for k := 0 to |sched|
        invariant Valid() && |pc| == old(|pc|) && St() == Run(old(St()), sched[..k])
      {
        assert sched[..k + 1][..k] == sched[..k];
        var t, a := sched[k].0, sched[k].1;
        if IsPush(pc[t]) {
          Push(t);
        } else if IsPop(pc[t]) {
          Pop(t);
        } else if !pc[t].AssertFailed? {
          Start(t, a);
        }
      }
      assert sched[..|sched|] == sched;
    }
  }
}

/** One thread's list in place: every step is the step of the machine in module ThreadList. */
module PerThreadMemory {
  import opened NodeList
  import opened ThreadList

  class NodeHead {
    const next: array<Ptr>          // the next of each Node
    const owner: nat
    const dummy: nat
    var head: Ptr
    var number: int
    var pc: seq<Pc>                 // where each thread is, with its locals
    ghost var free: seq<nat>
    ghost var place: seq<Place>

    ghost function St(): State
      reads this, next
    {
      State(next[..], head, number, owner, pc, free, place)
    }

    ghost predicate Valid()
      reads this, next
    {
      Bounded(St())
    }

    // InitPerThreadList.
    constructor (population: nat, owner: nat, threads: nat)
      requires owner < threads
      ensures Valid() && fresh(next) && St() == Init(population, owner, threads) && dummy < |place| && place[dummy] == InUse
    {
      this.owner := owner;
      next := new Ptr[population + 1](n => Nil);
      pc := seq(threads, t => Idle(NoCall));
      head, number, dummy := To(0), population + 1, 0;
      ghost var built := Init(population, owner, threads);
      free, place := built.free, built.place;
      new;
      var i := 0;
      while i < population
        invariant 0 <= i <= population
        invariant forall n :: 0 <= n < i ==> next[n] == To(n + 1)
        invariant forall n :: i <= n <= population ==> next[n] == Nil
        invariant pc == built.pc && free == built.free && place == built.place && head == To(0) && number == population + 1
      {
        next[i] := To(i + 1);
        i := i + 1;
      }
      next[i] := Nil;
      // the dummy is allocated before anyone else can reach the list
      number := number - 1;
      head := next[dummy];
      next[dummy] := Nil;
      assert next[..] == built.next;
    }

    // The next step of GetFreeBufferFromList.
    method GetFreeBufferFromList(t: nat)
      requires Valid() && t < |pc| && IsAlloc(pc[t])
      modifies this, next
      ensures St() == AllocStep(old(St()), t) && Valid()
    {
      match pc[t]
      case AllocCheck =>
        if head == Nil { pc := pc[t := Idle(Exhausted)]; } else { pc := pc[t := AllocCount]; }
      case AllocCount =>
        pc := pc[t := if number == 0 then AssertFailed else AllocRead];
        number := number - 1;
      case AllocRead =>
        if head == Nil { pc := pc[t := AssertFailed]; } else { pc := pc[t := AllocNext(head.node)]; }
      case AllocNext(n) =>
        pc := pc[t := AllocCas(n, next[n])];
      case AllocCas(n, x) =>
        if head == To(n) {
          head := x;
          pc := pc[t := AllocClear(n)];
          free := DropLast(free);
          place := place[n := HeldBy(t)];
        } else {
          pc := pc[t := AllocRead];
        }
      case AllocClear(n) =>
        next[n] := Nil;
        pc := pc[t := Idle(Got(n))];
        place := place[n := InUse];
    }

    // The next step of DoReleaseBuffer.
    method DoReleaseBuffer(t: nat)
      requires Valid() && t < |pc| && IsRelease(pc[t])
      modifies this, next
      ensures St() == ReleaseStep(old(St()), t) && Valid()
    {
      match pc[t]
      case RelAssert(n) =>
        pc := pc[t := if next[n] == Nil then RelCount(n) else AssertFailed];
      case RelCount(n) =>
        pc := pc[t := if number <= next.Length then RelRead(n, number) else AssertFailed];
        number := number + 1;
      case RelRead(n, sz) =>
        pc := pc[t := RelStore(n, sz, head)];
      case RelStore(n, sz, h) =>
        next[n] := h;
        pc := pc[t := RelCas(n, sz, h)];
      case RelCas(n, sz, h) =>
        if head == h {
          head := To(n);
          pc := pc[t := if sz == next.Length then Cleaning else Idle(Released)];
          place := place[n := InFree(|free|)];
          free := free + [n];
        } else {
          pc := pc[t := RelRead(n, sz)];
        }
    }

    // A call: releases are of nodes that are in use.
    method Start(t: nat, a: Action)
      requires Valid() && t < |pc| && pc[t].Idle?
      requires a.CallRelease? ==> a.node < next.Length && place[a.node] == InUse
      modifies this
      ensures St() == Step(old(St()), t, a) && Valid()
    {
      match a
      case CallAlloc => if t == owner { pc := pc[t := AllocCheck]; }
      case CallRelease(n) =>
        pc := pc[t := RelAssert(n)];
        place := place[n := HeldBy(t)];
      case Go =>
    }

    // An arbitrary interleaving, in which callers release only what they were given.
    method RunSchedule(sched: Schedule)
      requires Valid() && Fits(sched, |pc|)
      requires forall k :: 0 <= k < |sched| && sched[k].1.CallRelease? ==>
                 var s := Run(St(), sched[..k]);
                 s.pc[sched[k].0].Idle? ==> sched[k].1.node < |s.next| && s.place[sched[k].1.node] == InUse
      modifies this, next
      ensures St() == Run(old(St()), sched) && Valid()
    {
      for k := 0 to |sched|
        invariant Valid() && |pc| == old(|pc|) && St() == Run(old(St()), sched[..k])
      {
        assert sched[..k + 1][..k] == sched[..k];
        var t, a := sched[k].0, sched[k].1;
        if IsAlloc(pc[t]) {
          GetFreeBufferFromList(t);
        } else if IsRelease(pc[t]) {
          DoReleaseBuffer(t);
        } else if pc[t].Idle? {
          Start(t, a);
        }
      }
      assert sched[..|sched|] == sched;
    }
  }
}

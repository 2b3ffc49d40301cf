/** LockFreeBuffer in place: every step is the step of the machine in module BufferPool. */
module LockFreeBuffer {
  import opened NodeList
  import opened BufferPool

  class Pool {
    const next: array<Ptr>          // the next_ of each BufferNode
    var head: Ptr
    var id: nat
    var pc: seq<Pc>                 // where each thread is, with its locals
    ghost var free: seq<nat>
    ghost var place: seq<Place>

    ghost function St(): State
      reads this, next
    {
      State(next[..], head, id, pc, free, place)
    }

    ghost predicate Valid()
      reads this, next
    {
      Bounded(St())
    }

    // InitList.
    constructor (size: nat, threads: nat)
      requires 1 <= size
      ensures Valid() && fresh(next) && St() == Init(size, size - 1, threads)
    {
      next := new Ptr[size](n => Nil);
      pc := seq(threads, t => Idle(NoCall));
      head, id := Nil, 0;
      free := Init(size, size - 1, threads).free;
      place := Init(size, size - 1, threads).place;
      new;
      ghost var built := Init(size, size - 1, threads);
      var i := 0;
      while i < size - 1
        invariant 0 <= i <= size - 1
        invariant forall n :: 0 <= n < i ==> next[n] == At(n + 1, n + 1)
        invariant forall n :: i <= n < size ==> next[n] == Nil
        invariant pc == built.pc && free == built.free && place == built.place
      {
        next[i] := At(i + 1, i + 1);
        i := i + 1;
      }
      next[i] := Nil;
      head := At(0, 0);
      id := i;
      assert next[..] == built.next;
    }

    // The next step of AllocBuffer.
    method AllocBuffer(t: nat)
      requires Valid() && t < |pc| && (pc[t].AllocRead? || pc[t].AllocNext? || pc[t].AllocCas? || pc[t].AllocClear?)
      modifies this, next
      ensures St() == Step(old(St()), t, Go) && Valid()
    {
      match pc[t]
      case AllocRead =>
        if head == Nil { pc := pc[t := Idle(Exhausted)]; } else { pc := pc[t := AllocNext(head)]; }
      case AllocNext(h) =>
        pc := pc[t := AllocCas(h, next[h.node])];
      case AllocCas(h, x) =>
        if head == h {
          head := x;
          pc := pc[t := AllocClear(h.node)];
          free := DropLast(free);
          place := place[h.node := HeldBy(t)];
        } else {
          pc := pc[t := AllocRead];
        }
      case AllocClear(n) =>
        next[n] := Nil;
        pc := pc[t := Idle(Got(n))];
        place := place[n := InUse];
    }

    // The next step of ReleaseBuffer.
    method ReleaseBuffer(t: nat)
      requires Valid() && t < |pc| && (pc[t].RelId? || pc[t].RelRead? || pc[t].RelStore? || pc[t].RelCas?)
      modifies this, next
      ensures St() == Step(old(St()), t, Go) && Valid()
    {
      match pc[t]
      case RelId(n) =>
        pc := pc[t := RelRead(n, id)];
        id := id + 1;
      case RelRead(n, d) =>
        pc := pc[t := RelStore(n, d, head)];
      case RelStore(n, d, h) =>
        next[n] := h;
        pc := pc[t := RelCas(n, d, h)];
      case RelCas(n, d, h) =>
        if head == h {
          head := At(d, n);
          pc := pc[t := Idle(Released)];
          free := free + [n];
          place := place[n := InFree(|free| - 1)];
        } else {
          pc := pc[t := RelRead(n, d)];
        }
    }

    // A call: releases are of buffers that are in use.
    method Start(t: nat, a: Action)
      requires Valid() && t < |pc| && pc[t].Idle?
      requires a.CallRelease? ==> a.node < next.Length && place[a.node] == InUse
      modifies this
      ensures St() == Step(old(St()), t, a) && Valid()
    {
      match a
      case CallAlloc => pc := pc[t := AllocRead];
      case CallRelease(n) =>
        pc := pc[t := RelId(n)];
        place := place[n := HeldBy(t)];
      case Go =>
    }

    // An arbitrary interleaving, in which callers release only what they were given.
    method RunSchedule(sched: Schedule)
      requires Valid() && Fits(sched, |pc|)
      requires forall k :: 0 <= k < |sched| && sched[k].1.CallRelease? ==>
                 var s := Run(St(), sched[..k]);
                 s.pc[sched[k].0].Idle? ==> sched[k].1.node < |s.next| && s.place[sched[k].1.node] == InUse
      modifies this, next
      ensures St() == Run(old(St()), sched) && Valid()
    {
      for k := 0 to |sched|
        invariant Valid() && |pc| == old(|pc|) && St() == Run(old(St()), sched[..k])
      {
        assert sched[..k + 1][..k] == sched[..k];
        var t, a := sched[k].0, sched[k].1;
        if pc[t].Idle? {
          Start(t, a);
        } else if pc[t].RelId? || pc[t].RelRead? || pc[t].RelStore? || pc[t].RelCas? {
          ReleaseBuffer(t);
        } else {
          AllocBuffer(t);
        }
      }
      assert sched[..|sched|] == sched;
    }
  }
}

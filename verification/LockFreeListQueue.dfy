/**
  LockFreeListQueue in place: the shared fields, the node array and the threads' locals are
  updated step by step, and every step is the step of the machine in module ListQueue.
 */
module LockFreeListQueue {
  import opened NodeList
  import opened ListQueue
  import opened ListQueueInv
  import ListQueueSound
  import ListQueueOnePusher
  import ListQueueTheorems

  class Queue {
    // freeList_[n].next and freeList_[n].data
    const next: array<Ptr>
    const data: array<int>
    var head: Ptr
    var inp: Ptr
    var outp: Ptr
    var id: nat
    var id2: nat
    // Where each thread is in Push or Pop, with its local variables.
    var pc: seq<Pc>
    ghost var hist: History

    ghost function St(): State
      reads this, next, data
    {
      State(next[..], data[..], head, inp, outp, id, id2, pc, hist)
    }

    ghost predicate Valid()
      reads this, next, data
    {
      next as object != data && Bounded(St())
    }

    // InitInternalNodeList links all nodes; then AllocNode takes the first dummy.
    constructor (max: nat, threads: nat)
      requires 1 <= max
      ensures fresh(next) && fresh(data)
      ensures data.Length == max && St() == CodeInit(max, data[..], threads)
      ensures Valid()
    {
      next := new Ptr[max](n => Nil);
      data := new int[max];
      pc := seq(threads, t => Idle(NoCall));
      head, inp, outp, id, id2 := Nil, Nil, Nil, 0, 0;
      new;
      var i := 0;
      while i < max - 1
        invariant 0 <= i <= max - 1
        invariant forall n :: 0 <= n < i ==> next[n] == At(n + 1, n + 1)
        invariant forall n :: i <= n < max ==> next[n] == Nil
        invariant id == 0 && |pc| == threads && forall t :: 0 <= t < threads ==> pc[t] == Idle(NoCall)
      {
        next[i] := At(i + 1, i + 1);
        i := i + 1;
      }
      next[i] := Nil;
      head := At(0, 0);
      id2 := i;
      var dummy := head.node;
      head := next[dummy];
      next[dummy] := Nil;
      inp := At(id, dummy);
      id := 1;
      outp := inp;
      hist := CodeInit(max, data[..], threads).hist;
      ghost var built := CodeInit(max, data[..], threads);
      assert next[..] == built.next && pc == built.pc;
    }

    // The next step of AllocNode.
    method AllocNode(t: nat)
      requires Valid() && t < |pc| && IsAlloc(pc[t])
      modifies this, next
      ensures St() == AllocStep(old(St()), t) && Valid()
    {
      match pc[t]
      case AllocRead(v) =>
        if head == Nil { pc := pc[t := Idle(PushFull)]; } else { pc := pc[t := AllocNext(v, head)]; }
      case AllocNext(v, h) =>
        pc := pc[t := AllocCas(v, h, next[h.node])];
      case AllocCas(v, h, x) =>
        if head == h {
          head := x;
          pc := pc[t := AllocClear(v, h.node)];
          hist := hist.(free := DropLast(hist.free), place := hist.place[h.node := HeldBy(t)]);
        } else {
          pc := pc[t := AllocRead(v)];
        }
      case AllocClear(v, n) =>
        next[n] := Nil;
        pc := pc[t := PushStore(v, n)];
    }

    // A compare-and-swap on in_.
    method SwingIn(tail: Ptr, nx: Ptr)
      requires Valid() && NodePtr(nx, next.Length)
      modifies this
      ensures St() == SwingTail(old(St()), tail, nx) && Valid()
    {
      if inp == tail {
        inp := nx;
        hist := hist.(i := hist.i + 1);
      }
    }

    // The next step of Push that fills its own node.
    method FillNode(t: nat)
      requires Valid() && t < |pc| && (pc[t].PushStore? || pc[t].PushClear? || pc[t].PushId?)
      modifies this, next, data
      ensures St() == PushStep(old(St()), t) && Valid()
    {
      match pc[t]
      case PushStore(v, n) =>
        data[n] := v;
        pc := pc[t := PushClear(v, n)];
      case PushClear(v, n) =>
        next[n] := Nil;
        pc := pc[t := PushId(v, n)];
      case PushId(v, n) =>
        pc := pc[t := TailRead(v, n, id)];
        id := id + 1;
    }

    // The next step of Push that reads in_, links the node or swings in_.
    method LinkNode(t: nat)
      requires Valid() && t < |pc| && (pc[t].TailRead? || pc[t].TailNext? || pc[t].TailHelp? || pc[t].TailLink? || pc[t].TailSwing?)
      modifies this, next
      ensures St() == PushStep(old(St()), t) && Valid()
    {
      match pc[t]
      case TailRead(v, n, d) =>
        pc := pc[t := TailNext(v, n, d, inp)];
      case TailNext(v, n, d, tail) =>
        var nx := next[tail.node];
        if nx != Nil { pc := pc[t := TailHelp(v, n, d, tail, nx)]; } else { pc := pc[t := TailLink(v, n, d, tail)]; }
      case TailHelp(v, n, d, tail, nx) =>
        SwingIn(tail, nx);
        pc := pc[t := TailRead(v, n, d)];
      case TailLink(v, n, d, tail) =>
        if next[tail.node] == Nil {
          next[tail.node] := At(d, n);
          pc := pc[t := TailSwing(tail, At(d, n))];
          hist := hist.(link := hist.link + [At(d, n)], val := hist.val + [v],
                        place := hist.place[n := InQueue(|hist.link|)], pushed := hist.pushed + [v]);
        } else {
          pc := pc[t := TailRead(v, n, d)];
        }
      case TailSwing(tail, nx) =>
        SwingIn(tail, nx);
        pc := pc[t := Idle(PushDone)];
    }

    // The next step of Pop up to its compare-and-swap on out_.
    method Pop(t: nat)
      requires Valid() && t < |pc| && IsPop(pc[t])
      modifies this
      ensures St() == PopStep(old(St()), t) && Valid()
    {
      match pc[t]
      case PopOut =>
        pc := pc[t := PopIn(outp)];
      case PopIn(out) =>
        pc := pc[t := PopNext(out, inp)];
      case PopNext(out, tail) =>
        var nx := next[out.node];
        if nx == Nil {
          pc := pc[t := Idle(PopNone)];
        } else if tail == out {
          pc := pc[t := PopHelp(tail, nx)];
        } else {
          pc := pc[t := PopData(out, tail, nx)];
        }
      case PopHelp(tail, nx) =>
        SwingIn(tail, nx);
        pc := pc[t := PopOut];
      case PopData(out, tail, nx) =>
        pc := pc[t := PopCas(out, tail, nx, data[nx.node])];
      case PopCas(out, tail, nx, v) =>
        if outp == out {
          outp := nx;
          pc := pc[t := RelId(out.node, v)];
          hist := hist.(o := hist.o + 1, place := hist.place[out.node := HeldBy(t)], popped := hist.popped + [v]);
        } else {
          pc := pc[t := PopOut];
        }
    }

    // The next step of ReleaseNode.
    method ReleaseNode(t: nat)
      requires Valid() && t < |pc| && IsRelease(pc[t])
      modifies this, next
      ensures St() == ReleaseStep(old(St()), t) && Valid()
    {
      match pc[t]
      case RelId(n, v) =>
        pc := pc[t := RelRead(n, v, id2)];
        id2 := id2 + 1;
      case RelRead(n, v, d) =>
        pc := pc[t := RelStore(n, v, d, head)];
      case RelStore(n, v, d, h) =>
        next[n] := h;
        pc := pc[t := RelCas(n, v, d, h)];
      case RelCas(n, v, d, h) =>
        if head == h {
          head := At(d, n);
          pc := pc[t := Idle(Popped(v))];
          hist := hist.(free := hist.free + [n], place := hist.place[n := InFree(|hist.free|)]);
        } else {
          pc := pc[t := RelRead(n, v, d)];
        }
    }

    method TakeStep(t: nat, a: Action)
      requires Valid() && t < |pc|
      modifies this, next, data
      ensures St() == Step(old(St()), t, a) && Valid()
    {
      if pc[t].Idle? {
        match a
        case CallPush(v) => pc := pc[t := AllocRead(v)];
        case CallPop => pc := pc[t := PopOut];
        case Go =>
      } else if IsAlloc(pc[t]) {
        AllocNode(t);
      } else if IsPush(pc[t]) {
        if pc[t].PushStore? || pc[t].PushClear? || pc[t].PushId? { FillNode(t); } else { LinkNode(t); }
      } else if IsPop(pc[t]) {
        Pop(t);
      } else {
        ReleaseNode(t);
      }
    }

    // An arbitrary interleaving of the threads.
    method RunSchedule(sched: Schedule)
      requires Valid() && Fits(sched, |pc|)
      modifies this, next, data
      ensures St() == Run(old(St()), sched) && Valid()
    {
      for k := 0 to |sched|
        invariant Valid() && St() == Run(old(St()), sched[..k])
      {
        assert sched[..k + 1][..k] == sched[..k];
        TakeStep(sched[k].0, sched[k].1);
      }
      assert sched[..|sched|] == sched;
    }
  }

  // The queue as it is built, one pushing thread, any schedule.
  method OnePusherSession(max: nat, threads: nat, sched: Schedule, p: nat) returns (q: Queue)
    requires 1 <= max && Fits(sched, threads) && p < threads && ListQueueOnePusher.OnlyPusher(sched, p)
    ensures q.Valid() && Sound(q.St()) && ListQueueTheorems.FifoPrefix(q.St())
  {
    q := new Queue(max, threads);
    ghost var data := q.data[..];
    q.RunSchedule(sched);
    ListQueueTheorems.OnePusherIsSound(max, max - 1, data, threads, sched, p);
  }
}

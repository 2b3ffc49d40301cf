/** LockFreeQueue in place: every step is the step of the machine in module RingQueue. */
module LockFreeQueue {
  import opened RingQueue

  class Queue {
    const arr: array<int>
    var read: nat
    var write: nat
    var maxRead: nat
    var pc: seq<Pc>                 // where each thread is, with its locals
    var pushed: seq<int>            // history
    var popped: seq<int>            // history
    ghost var owner: seq<nat>
    ghost var published: nat

    ghost function St(): State
      reads this, arr
    {
      State(arr[..], read, write, maxRead, pc, pushed, owner, published, popped)
    }

    ghost predicate Valid()
      reads this, arr
    {
      Bounded(St())
    }

    constructor (size: nat, threads: nat)
      requires 1 <= size
      ensures Valid() && fresh(arr) && arr.Length == size && St() == Init(arr[..], threads)
    {
      arr := new int[size];
      read, write, maxRead := 0, 0, 0;
      pc := seq(threads, t => Idle(NoCall));
      pushed, popped, owner, published := [], [], [], 0;
    }

    // The next step of Push.
    method Push(t: nat)
      requires Valid() && t < |pc|
      requires pc[t].PushRead? || pc[t].PushCheck? || pc[t].PushCas? || pc[t].PushStore? || pc[t].PushPublish?
      modifies this, arr
      ensures St() == Step(old(St()), t, Go) && Valid()
    {
      hide Next;
      match pc[t]
      case PushRead(v) =>
        pc := pc[t := PushCheck(v, write, |pushed|)];
      case PushCheck(v, w, at) =>
        if Next(w, arr.Length) == read { pc := pc[t := Idle(Full)]; } else { pc := pc[t := PushCas(v, w, at)]; }
      case PushCas(v, w, _) =>
        if write == w {
          write := Next(w, arr.Length);
          pc := pc[t := PushStore(v, w, |pushed|)];
          pushed, owner := pushed + [v], owner + [t];
        } else {
          pc := pc[t := PushRead(v)];
        }
      case PushStore(v, w, at) =>
        arr[w] := v;
        pc := pc[t := PushPublish(v, w, at)];
      case PushPublish(v, w, _) =>
        if maxRead == w {
          maxRead := Next(w, arr.Length);
          pc := pc[t := Idle(Pushed)];
          published := published + 1;
        }
    }

    // The next step of Pop.
    method Pop(t: nat)
      requires Valid() && t < |pc| && (pc[t].PopRead? || pc[t].PopCheck? || pc[t].PopTake? || pc[t].PopCas?)
      modifies this
      ensures St() == Step(old(St()), t, Go) && Valid()
    {
      hide Next;
      match pc[t]
      case PopRead =>
        pc := pc[t := PopCheck(read, |popped|)];
      case PopCheck(r, at) =>
        if r == maxRead { pc := pc[t := Idle(Empty)]; } else { pc := pc[t := PopTake(r, at)]; }
      case PopTake(r, at) =>
        pc := pc[t := PopCas(r, arr[r], at)];
      case PopCas(r, ret, _) =>
        if read == r {
          read := Next(r, arr.Length);
          pc := pc[t := Idle(Popped(ret))];
          popped := popped + [ret];
        } else {
          pc := pc[t := PopRead];
        }
    }

    method Start(t: nat, a: Action)
      requires Valid() && t < |pc| && pc[t].Idle?
      modifies this
      ensures St() == Step(old(St()), t, a) && Valid()
    {
      match a
      case CallPush(v) => pc := pc[t := PushRead(v)];
      case CallPop => pc := pc[t := PopRead];
      case Go =>
    }

    // An arbitrary interleaving.
    method RunSchedule(sched: Schedule)
      requires Valid() && Fits(sched, |pc|)
      modifies this, arr
      ensures St() == Run(old(St()), sched) && Valid()
    {
      for k := 0 to |sched|
        invariant Valid() && |pc| == old(|pc|) && St() == Run(old(St()), sched[..k])
      {
        assert sched[..k + 1][..k] == sched[..k];
        var t, a := sched[k].0, sched[k].1;
        if pc[t].Idle? {
          Start(t, a);
        } else if pc[t].PopRead? || pc[t].PopCheck? || pc[t].PopTake? || pc[t].PopCas? {
          Pop(t);
        } else {
          Push(t);
        }
      }
      assert sched[..|sched|] == sched;
    }
  }
}

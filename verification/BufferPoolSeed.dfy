/** The first release tag decides whether LockFreeBuffer is safe. */
module BufferPoolSeed {
  import opened NodeList
  import opened BufferPool
  import opened BufferPoolSound

  // Every run of every number of threads is sound.
  ghost predicate SafeSeed(size: nat, seed: nat)
    requires 1 <= size
  {
    forall threads: nat, sched: Schedule | Fits(sched, threads) :: SoundRun(Init(size, seed, threads), sched)
  }

  // ----- Tags above all initial tags are safe -----

  lemma {:induction false} FreshRun(s: State, sched: Schedule, k: nat)
    requires Bounded(s) && Fits(sched, |s.pc|) && k <= |sched| && Inv(s) && Fresh(s)
    ensures Inv(Run(s, sched[..k])) && Fresh(Run(s, sched[..k]))
  {
    hide Bounded, Step, Inv, Fresh;
    if k > 0 {
      FreshRun(s, sched, k - 1);
      RunOneMore(s, sched, k - 1);
      FreshStep(Run(s, sched[..k - 1]), sched[k - 1].0, sched[k - 1].1);
    }
  }

  lemma FreshSafe(size: nat, seed: nat)
    requires 1 <= size <= seed
    ensures SafeSeed(size, seed)
  {
    hide Bounded, Step, Inv, Fresh, Sound;
    forall threads: nat, sched: Schedule | Fits(sched, threads)
      ensures SoundRun(Init(size, seed, threads), sched)
    {
      var s := Init(size, seed, threads);
      InitInv(size, seed, threads);
      InitFresh(size, seed, threads);
      InitThreads(size, seed, threads);
      forall k | 0 <= k <= |sched|
        ensures Sound(Run(s, sched[..k]))
      {
        FreshRun(s, sched, k);
        InvSound(Run(s, sched[..k]));
      }
    }
  }

  lemma InitThreads(size: nat, seed: nat, threads: nat)
    requires 1 <= size
    ensures |Init(size, seed, threads).pc| == threads
  {
  }

  // ----- One buffer is safe with any seed: there is never a successor -----

  ghost predicate Alone(s: State) {
    && Inv(s) && |s.next| == 1 && s.next[0] == Nil
    && (forall t :: 0 <= t < |s.pc| && s.pc[t].AllocCas? ==> s.pc[t].x == Nil)
    && (forall t :: 0 <= t < |s.pc| && (s.pc[t].RelStore? || s.pc[t].RelCas?) ==> s.pc[t].h == Nil)
  }

  lemma AloneClean(s: State, t: nat)
    requires Alone(s) && t < |s.pc|
    ensures !StaleAlloc(s, t)
  {
  }

  lemma HeadIsFree(s: State)
    requires Bounded(s) && FreeList(s)
    ensures s.head.At? ==> s.place[s.head.node].InFree?
  {
  }

  // Whoever has the only buffer finds the list empty.
  lemma AloneHolder(s: State, t: nat)
    requires Alone(s) && t < |s.pc| && s.pc[t].RelRead?
    ensures s.head == Nil
  {
    assert HeldNode(s.pc[t]) == 0 && s.place[0] == HeldBy(t);
    HeadIsFree(s);
  }

  lemma AloneStep(s: State, t: nat, a: Action)
    requires Alone(s) && t < |s.pc|
    ensures Alone(Step(s, t, a))
  {
    hide FreeList, Holders, Stored;
    AloneClean(s, t);
    StepInv(s, t, a);
    if s.pc[t].RelRead? {
      AloneHolder(s, t);
    }
  }

  lemma {:induction false} AloneRun(s: State, sched: Schedule, k: nat)
    requires Bounded(s) && Fits(sched, |s.pc|) && k <= |sched| && Alone(s)
    ensures Alone(Run(s, sched[..k]))
  {
    hide Bounded, Step, Alone;
    if k > 0 {
      AloneRun(s, sched, k - 1);
      RunOneMore(s, sched, k - 1);
      AloneStep(Run(s, sched[..k - 1]), sched[k - 1].0, sched[k - 1].1);
    }
  }

  lemma AloneSafe(seed: nat)
    ensures SafeSeed(1, seed)
  {
    hide Bounded, Step, Sound;
    forall threads: nat, sched: Schedule | Fits(sched, threads)
      ensures SoundRun(Init(1, seed, threads), sched)
    {
      var s := Init(1, seed, threads);
      InitInv(1, seed, threads);
      assert forall t :: 0 <= t < threads ==> s.pc[t] == Idle(NoCall);
      forall k | 0 <= k <= |sched|
        ensures Sound(Run(s, sched[..k]))
      {
        AloneRun(s, sched, k);
        InvSound(Run(s, sched[..k]));
      }
    }
  }

  // ----- With at least two buffers, a seed that is an initial tag is not safe -----

  ghost predicate Reachable(init: State, s: State)
    requires Bounded(init)
  {
    Bounded(s) && |s.pc| == |init.pc| && exists sched: Schedule :: Fits(sched, |init.pc|) && Run(init, sched) == s
  }

  lemma ReachStep(init: State, s: State, t: nat, a: Action)
    requires Bounded(init) && Reachable(init, s) && t < |s.pc|
    ensures Bounded(s) && Reachable(init, Step(s, t, a))
  {
    hide Bounded, Step;
    var sched: Schedule :| Fits(sched, |init.pc|) && Run(init, sched) == s;
    var more := sched + [(t, a)];
    assert more[..|sched|] == sched;
    assert Run(init, more) == Step(s, t, a);
  }

  // An uninterrupted AllocBuffer.
  function Given(s: State, t: nat): State
    requires Bounded(s) && s.head.At? && t < |s.pc|
  {
    var n := s.head.node;
    s.(head := s.next[n], next := s.next[n := Nil], pc := s.pc[t := Idle(Got(n))],
       free := DropLast(s.free), place := s.place[n := InUse])
  }

  lemma ReachGiven(init: State, s: State, t: nat)
    requires Bounded(init) && Reachable(init, s) && t < |s.pc| && s.pc[t].Idle? && s.head.At?
    ensures Reachable(init, Given(s, t))
  {
    hide Reachable;
    ReachStep(init, s, t, CallAlloc);
    var s1 := Step(s, t, CallAlloc);
    ReachStep(init, s1, t, Go);
    var s2 := Step(s1, t, Go);
    assert s2 == Goto(s, t, AllocNext(s.head));
    ReachStep(init, s2, t, Go);
    var s3 := Step(s2, t, Go);
    assert s3 == Goto(s, t, AllocCas(s.head, s.next[s.head.node]));
    ReachStep(init, s3, t, Go);
    var s4 := Step(s3, t, Go);
    ReachStep(init, s4, t, Go);
    assert Step(s4, t, Go) == Given(s, t);
  }

  // The start of ReleaseBuffer up to its fetched tag.
  function Tagged(s: State, t: nat, n: nat): State
    requires t < |s.pc| && n < |s.place|
  {
    s.(id := s.id + 1, pc := s.pc[t := RelRead(n, s.id)], place := s.place[n := HeldBy(t)])
  }

  lemma ReachTagged(init: State, s: State, t: nat, n: nat)
    requires Bounded(init) && Reachable(init, s) && t < |s.pc| && s.pc[t].Idle? && n < |s.next| && s.place[n] == InUse
    ensures Reachable(init, Tagged(s, t, n))
  {
    hide Reachable;
    ReachStep(init, s, t, CallRelease(n));
    var s1 := Step(s, t, CallRelease(n));
    ReachStep(init, s1, t, Go);
    assert Step(s1, t, Go) == Tagged(s, t, n);
  }

  // The rest of ReleaseBuffer.
  function Freed(s: State, t: nat): State
    requires Bounded(s) && t < |s.pc| && s.pc[t].RelRead?
  {
    var n := s.pc[t].node;
    s.(next := s.next[n := s.head], head := At(s.pc[t].id, n), pc := s.pc[t := Idle(Released)],
       free := s.free + [n], place := s.place[n := InFree(|s.free|)])
  }

  lemma ReachFreed(init: State, s: State, t: nat)
    requires Bounded(init) && Reachable(init, s) && t < |s.pc| && s.pc[t].RelRead?
    ensures Reachable(init, Freed(s, t))
  {
    hide Reachable;
    ReachStep(init, s, t, Go);
    var s1 := Step(s, t, Go);
    ReachStep(init, s1, t, Go);
    var s2 := Step(s1, t, Go);
    ReachStep(init, s2, t, Go);
    assert Step(s2, t, Go) == Freed(s, t);
  }

  // The head after k allocations from the initial list.
  function HeadAfter(size: nat, k: nat): Ptr { if k < size then At(k, k) else Nil }

  // The first k buffers are in use, the others are as InitList left them.
  function Allocated(size: nat, seed: nat, k: nat, pc: seq<Pc>): State
    requires 1 <= size && k <= size
  {
    State(seq(size, n requires 0 <= n => if n < k || n + 1 == size then Nil else At(n + 1, n + 1)),
          HeadAfter(size, k), seed, pc,
          seq(size - k, j requires 0 <= j < size - k => size - 1 - j),
          seq(size, n requires 0 <= n < size => if n < k then InUse else InFree(size - 1 - n)))
  }

  lemma GivenNext(size: nat, seed: nat, k: nat, pc: seq<Pc>)
    requires 1 <= size && k < size && |pc| == 3 && pc[1].Idle? && Bounded(Allocated(size, seed, k, pc))
    ensures Given(Allocated(size, seed, k, pc), 1) == Allocated(size, seed, k + 1, pc[1 := Idle(Got(k))])
  {
    var s := Given(Allocated(size, seed, k, pc), 1);
    var r := Allocated(size, seed, k + 1, pc[1 := Idle(Got(k))]);
    assert s.next == r.next && s.free == r.free && s.place == r.place;
  }

  lemma GiveOne(init: State, size: nat, seed: nat, k: nat, pc: seq<Pc>)
    requires 1 <= size && k < size && |pc| == 3 && pc[1].Idle?
    requires Bounded(init) && Reachable(init, Allocated(size, seed, k, pc))
    ensures Reachable(init, Allocated(size, seed, k + 1, pc[1 := Idle(Got(k))]))
  {
    hide Reachable;
    assert Bounded(Allocated(size, seed, k, pc)) by { ReachBounded(init, Allocated(size, seed, k, pc)); }
    GivenNext(size, seed, k, pc);
    ReachGiven(init, Allocated(size, seed, k, pc), 1);
  }

  lemma ReachBounded(init: State, s: State)
    requires Bounded(init) && Reachable(init, s)
    ensures Bounded(s)
  {
  }

  // Thread 1 allocates the first k buffers.
  lemma {:induction false} GiveMany(size: nat, seed: nat, k: nat) returns (pc: seq<Pc>)
    requires 1 <= size && k <= size
    ensures |pc| == 3 && pc[0] == Idle(NoCall) && pc[1].Idle? && pc[2] == Idle(NoCall)
    ensures Reachable(Init(size, seed, 3), Allocated(size, seed, k, pc))
  {
    var init := Init(size, seed, 3);
    if k == 0 {
      pc := [Idle(NoCall), Idle(NoCall), Idle(NoCall)];
      var s := Allocated(size, seed, 0, pc);
      assert s.next == init.next && s.free == init.free && s.place == init.place && s.pc == init.pc;
      assert Run(init, []) == init;
    } else {
      pc := GiveMany(size, seed, k - 1);
      GiveOne(init, size, seed, k - 1, pc);
      pc := pc[1 := Idle(Got(k - 1))];
    }
  }

  // Thread 0 has read the head with tag `seed` and its successor, and that buffer is in use.
  lemma SavedPair(size: nat, seed: nat) returns (pc: seq<Pc>)
    requires seed < size
    ensures |pc| == 3 && pc[1].Idle? && pc[2] == Idle(NoCall)
    ensures pc[0] == AllocCas(At(seed, seed), HeadAfter(size, seed + 1))
    ensures Reachable(Init(size, seed, 3), Allocated(size, seed, seed + 1, pc))
  {
    hide Reachable;
    var init := Init(size, seed, 3);
    pc := GiveMany(size, seed, seed);
    var s := Allocated(size, seed, seed, pc);
    ReachStep(init, s, 0, CallAlloc);
    var s1 := Step(s, 0, CallAlloc);
    ReachStep(init, s1, 0, Go);
    var s2 := Step(s1, 0, Go);
    assert s2 == Goto(s, 0, AllocNext(At(seed, seed)));
    ReachStep(init, s2, 0, Go);
    var s3 := Step(s2, 0, Go);
    pc := pc[0 := AllocCas(At(seed, seed), HeadAfter(size, seed + 1))];
    assert s3 == Allocated(size, seed, seed, pc);
    GiveOne(init, size, seed, seed, pc);
    pc := pc[1 := Idle(Got(seed))];
  }

  // The seed is not the last initial tag: the buffer behind the saved pair is taken as well.
  lemma EarlySeedStale(size: nat, seed: nat) returns (s: State)
    requires seed + 1 < size
    ensures Reachable(Init(size, seed, 3), s) && |s.pc| == 3 && StaleAlloc(s, 0)
  {
    hide Reachable;
    var init := Init(size, seed, 3);
    var pc := SavedPair(size, seed);
    GiveOne(init, size, seed, seed + 1, pc);
    pc := pc[1 := Idle(Got(seed + 1))];
    s := Allocated(size, seed, seed + 2, pc);
    ReachTagged(init, s, 1, seed);
    s := Tagged(s, 1, seed);
    ReachFreed(init, s, 1);
    s := Freed(s, 1);
    ReachBounded(init, s);
    assert s.head == At(seed, seed) && s.next[seed] == HeadAfter(size, seed + 2);
  }

  // The code's seed: another release gets in between the fetched tag and its link.
  lemma LastSeedStale(size: nat) returns (s: State)
    requires 2 <= size
    ensures Reachable(Init(size, size - 1, 3), s) && |s.pc| == 3 && StaleAlloc(s, 0)
  {
    hide Reachable;
    var seed := size - 1;
    var init := Init(size, seed, 3);
    var pc := SavedPair(size, seed);
    s := Allocated(size, seed, size, pc);
    ReachTagged(init, s, 1, seed);
    s := Tagged(s, 1, seed);
    ReachTagged(init, s, 2, seed - 1);
    s := Tagged(s, 2, seed - 1);
    ReachBounded(init, s);
    ReachFreed(init, s, 2);
    s := Freed(s, 2);
    ReachBounded(init, s);
    ReachFreed(init, s, 1);
    s := Freed(s, 1);
    ReachBounded(init, s);
    assert s.head == At(seed, seed) && s.next[seed] == At(seed + 1, seed - 1);
  }

  lemma StaleUnsafe(size: nat, seed: nat, s: State)
    requires 1 <= size && Reachable(Init(size, seed, 3), s) && |s.pc| == 3 && StaleAlloc(s, 0)
    ensures !SafeSeed(size, seed)
  {
    hide Bounded, Step, Inv, Sound, StaleAlloc;
    var init := Init(size, seed, 3);
    InitThreads(size, seed, 3);
    var sched: Schedule :| Fits(sched, 3) && Run(init, sched) == s;
    var more := sched + [(0, Go)];
    assert more[..|sched|] == sched;
    assert StaleAlloc(Run(init, more[..|sched|]), more[|sched|].0);
    InitInv(size, seed, 3);
    SoundIffClean(init, more);
    assert !SoundRun(init, more);
  }

  /** All runs of all numbers of threads are sound if and only if the first release tag exceeds
      every initial tag or there is a single buffer. */
  lemma {:induction false} SafeSeedIff(size: nat, seed: nat)
    requires 1 <= size
    ensures SafeSeed(size, seed) <==> size <= seed || size == 1
  {
    if size <= seed {
      FreshSafe(size, seed);
    } else if size == 1 {
      AloneSafe(seed);
    } else if seed + 1 < size {
      var s := EarlySeedStale(size, seed);
      StaleUnsafe(size, seed, s);
    } else {
      var s := LastSeedStale(size);
      StaleUnsafe(size, seed, s);
    }
  }

  /** InitList leaves id_ at size_ - 1, the tag of the last buffer in the initial list: as it
      stands, LockFreeBuffer is safe exactly when it has one buffer. */
  lemma {:induction false} CodeSeedSafeIff(size: nat)
    requires 1 <= size
    ensures SafeSeed(size, size - 1) <==> size == 1
  {
    SafeSeedIff(size, size - 1);
  }
}

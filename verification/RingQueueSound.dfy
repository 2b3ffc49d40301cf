/** The ring queue is sound on exactly the runs on which no compare-and-swap overruns. */
module RingQueueSound {
  import opened NodeList
  import opened RingQueue

  lemma Moves(s: State, t: nat, a: Action)
    requires Bounded(s) && t < |s.pc|
    ensures var r := Step(s, t, a); r.pc == s.pc[t := r.pc[t]]
  {
  }

  // The steps that change a cursor or a slot.
  predicate Acts(s: State, t: nat)
    requires t < |s.pc|
  {
    match s.pc[t]
    case PushCas(_, w, _) => s.write == w
    case PushStore(_, _, _) => true
    case PushPublish(_, w, _) => s.maxRead == w
    case PopCas(r, _, _) => s.read == r
    case _ => false
  }

  // ----- Steps that only read -----

  lemma ReadOnly(s: State, t: nat, a: Action)
    requires Bounded(s) && t < |s.pc| && !Acts(s, t)
    ensures var r := Step(s, t, a);
      r == s.(pc := r.pc) && (Producing(r.pc[t]) || Producing(s.pc[t]) ==> r.pc[t] == s.pc[t])
  {
  }

  lemma ReadKnows(s: State, t: nat, a: Action)
    requires Inv(s) && t < |s.pc| && !Acts(s, t)
    ensures var r := Step(s, t, a); Knows(s, r.pc[t])
  {
    hide Slot, Next, Producers;
    var c := s.pc[t];
    assert Knows(s, c);
    if c.PushCheck? {
      SlotNext(c.at, |s.arr|);
      SlotLap(|s.popped|, |s.arr|);
    }
  }

  lemma ReadInv(s: State, t: nat, a: Action)
    requires Inv(s) && t < |s.pc| && !Acts(s, t)
    ensures Inv(Step(s, t, a))
  {
    hide Slot, Next, Step, Knows;
    ReadOnly(s, t, a);
    Moves(s, t, a);
    ReadKnows(s, t, a);
    var r := Step(s, t, a);
    forall u | 0 <= u < |r.pc|
      ensures Knows(r, r.pc[u])
    {
      SameKnows(s, r, r.pc[u]);
    }
  }

  lemma SameKnows(s: State, r: State, c: Pc)
    requires Bounded(s) && Cursors(s) && Knows(s, c) && r == s.(pc := r.pc) && Bounded(r)
    ensures Knows(r, c)
  {
  }

  // ----- Reserving a slot -----

  lemma ReserveCursors(s: State, t: nat)
    requires Inv(s) && t < |s.pc| && s.pc[t].PushCas? && s.write == s.pc[t].w && !PushOverruns(s, t)
    ensures var r := Step(s, t, Go); Cursors(r) && Values(r) && Producers(r)
  {
    hide Slot, Next, Knows;
    var r := Step(s, t, Go);
    SlotNext(|s.pushed|, |s.arr|);
    assert Cursors(r);
    assert r.pc[t] == PushStore(s.pc[t].v, s.write, |s.pushed|);
    assert forall u :: 0 <= u < |s.pc| && u != t ==> r.pc[u] == s.pc[u];
    assert forall i :: 0 <= i < |s.pushed| ==> r.pushed[i] == s.pushed[i] && r.owner[i] == s.owner[i];
    assert r.popped == r.pushed[..|r.popped|];
  }

  lemma ReserveInv(s: State, t: nat)
    requires Inv(s) && t < |s.pc| && s.pc[t].PushCas? && s.write == s.pc[t].w && !PushOverruns(s, t)
    ensures Inv(Step(s, t, Go))
  {
    hide Slot, Next, Producers, Values;
    ReserveCursors(s, t);
    var r := Step(s, t, Go);
    Moves(s, t, Go);
    assert forall i :: 0 <= i < |s.pushed| ==> r.pushed[i] == s.pushed[i];
    forall u | 0 <= u < |r.pc|
      ensures Knows(r, r.pc[u])
    {
      if u != t { assert Knows(s, s.pc[u]); }
    }
  }

  // ----- Storing the value -----

  // A producer's slot is not the slot of another index in the window.
  lemma OtherSlot(s: State, i: nat, j: nat)
    requires Bounded(s) && Cursors(s) && |s.popped| <= i < |s.pushed| && |s.popped| <= j < |s.pushed| && i != j
    ensures Slot(i, |s.arr|) != Slot(j, |s.arr|)
  {
    hide Slot;
    if Slot(i, |s.arr|) == Slot(j, |s.arr|) {
      if i < j { SlotInjective(i, j, |s.arr|); } else { SlotInjective(j, i, |s.arr|); }
    }
  }

  lemma StoreValues(s: State, t: nat)
    requires Bounded(s) && Cursors(s) && Values(s) && Producers(s) && t < |s.pc| && s.pc[t].PushStore?
    ensures var r := Step(s, t, Go); Cursors(r) && Values(r)
  {
    hide Slot, Next;
    var r := Step(s, t, Go);
    assert Owns(s, s.pc[t], t);
    forall i | |s.popped| <= i < s.published
      ensures r.arr[Slot(i, |r.arr|)] == r.pushed[i]
    {
      OtherSlot(s, i, s.pc[t].at);
    }
  }

  lemma StoreProducers(s: State, t: nat)
    requires Bounded(s) && Cursors(s) && Producers(s) && t < |s.pc| && s.pc[t].PushStore?
    requires Cursors(Step(s, t, Go))
    ensures Producers(Step(s, t, Go))
  {
    hide Slot, Next;
    var r := Step(s, t, Go);
    assert Owns(s, s.pc[t], t);
    forall u | 0 <= u < |r.pc| && Producing(r.pc[u])
      ensures Owns(r, r.pc[u], u)
    {
      if u != t {
        assert Owns(s, s.pc[u], u);
        if s.pc[u].at != s.pc[t].at { OtherSlot(s, s.pc[u].at, s.pc[t].at); }
      }
    }
  }

  lemma StoreInv(s: State, t: nat)
    requires Inv(s) && t < |s.pc| && s.pc[t].PushStore?
    ensures Inv(Step(s, t, Go))
  {
    hide Slot, Next, Values, Producers;
    StoreValues(s, t);
    StoreProducers(s, t);
    var r := Step(s, t, Go);
    Moves(s, t, Go);
    forall u | 0 <= u < |r.pc|
      ensures Knows(r, r.pc[u])
    {
      if u != t { assert Knows(s, s.pc[u]); }
    }
  }

  // ----- Publishing -----

  // The producer whose publication succeeds owns the slot at maxRead_.
  lemma PublishesNext(s: State, t: nat)
    requires Bounded(s) && Cursors(s) && Producers(s) && t < |s.pc| && s.pc[t].PushPublish?
    ensures s.published <= s.pc[t].at < |s.pushed| && s.owner[s.pc[t].at] == t
    ensures s.maxRead == s.pc[t].w <==> s.published == s.pc[t].at
  {
    hide Slot, Next;
    assert Owns(s, s.pc[t], t);
    if s.maxRead == s.pc[t].w { SlotInjective(s.published, s.pc[t].at, |s.arr|); }
  }

  lemma PublishProducers(s: State, t: nat)
    requires Bounded(s) && Cursors(s) && Values(s) && Producers(s)
    requires t < |s.pc| && s.pc[t].PushPublish? && s.maxRead == s.pc[t].w
    ensures var r := Step(s, t, Go); Cursors(r) && Values(r) && Producers(r)
  {
    hide Slot, Next;
    var r := Step(s, t, Go);
    PublishesNext(s, t);
    SlotNext(s.published, |s.arr|);
    assert Owns(s, s.pc[t], t);
    assert Cursors(r);
    forall u | 0 <= u < |r.pc| && Producing(r.pc[u])
      ensures Owns(r, r.pc[u], u)
    {
      assert Owns(s, s.pc[u], u);
      assert s.pc[u].at != s.published;
    }
    forall i | r.published <= i < |r.pushed|
      ensures r.owner[i] < |r.pc| && Producing(r.pc[r.owner[i]]) && r.pc[r.owner[i]].at == i
    {
      assert s.owner[i] != t;
    }
  }

  lemma PublishInv(s: State, t: nat)
    requires Inv(s) && t < |s.pc| && s.pc[t].PushPublish? && s.maxRead == s.pc[t].w
    ensures Inv(Step(s, t, Go))
  {
    hide Slot, Next, Values, Producers;
    PublishProducers(s, t);
    var r := Step(s, t, Go);
    Moves(s, t, Go);
    forall u | 0 <= u < |r.pc|
      ensures Knows(r, r.pc[u])
    {
      if u != t { assert Knows(s, s.pc[u]); }
    }
  }

  // ----- Popping -----

  lemma TakeValues(s: State, t: nat)
    requires Bounded(s) && Cursors(s) && Values(s) && Producers(s)
    requires t < |s.pc| && s.pc[t].PopCas? && s.read == s.pc[t].r && !PopOverruns(s, t)
    ensures var r := Step(s, t, Go); Cursors(r) && Values(r) && Producers(r)
  {
    hide Slot, Next;
    var r := Step(s, t, Go);
    SlotNext(|s.popped|, |s.arr|);
    assert Cursors(r);
    assert s.pushed[..|s.popped| + 1] == s.pushed[..|s.popped|] + [s.pushed[|s.popped|]];
    forall u | 0 <= u < |r.pc| && Producing(r.pc[u])
      ensures Owns(r, r.pc[u], u)
    {
      assert Owns(s, s.pc[u], u);
    }
  }

  lemma TakeInv(s: State, t: nat)
    requires Inv(s) && t < |s.pc| && s.pc[t].PopCas? && s.read == s.pc[t].r && !PopOverruns(s, t)
    ensures Inv(Step(s, t, Go))
  {
    hide Slot, Next, Values, Producers;
    TakeValues(s, t);
    var r := Step(s, t, Go);
    Moves(s, t, Go);
    forall u | 0 <= u < |r.pc|
      ensures Knows(r, r.pc[u])
    {
      if u != t { assert Knows(s, s.pc[u]); }
    }
  }

  lemma StepInv(s: State, t: nat, a: Action)
    requires Inv(s) && t < |s.pc| && !BadStep(s, t)
    ensures Inv(Step(s, t, a))
  {
    hide Slot, Next, Values, Producers, Cursors, Knows, Inv;
    if !Acts(s, t) {
      ReadInv(s, t, a);
    } else {
      assert Bounded(s) by { InvBounded(s); }
      assert Step(s, t, a) == Step(s, t, Go);
      match s.pc[t]
      case PushCas(_, _, _) => ReserveInv(s, t);
      case PushStore(_, _, _) => StoreInv(s, t);
      case PushPublish(_, _, _) => PublishInv(s, t);
      case PopCas(_, _, _) => TakeInv(s, t);
    }
  }

  // ----- Whole runs: sound exactly when nothing overruns -----

  lemma BadStepBreaks(s: State, t: nat, a: Action)
    requires Inv(s) && t < |s.pc| && BadStep(s, t)
    ensures !Sound(Step(s, t, a))
  {
    hide Slot, Next, Producers, Knows;
    var r := Step(s, t, a);
    if PushOverruns(s, t) {
      assert |r.pushed| == |r.popped| + |r.arr|;
    } else if |s.popped| < s.published {
      assert s.arr[s.pc[t].r] == s.pushed[|s.popped|];
      assert r.popped[|s.popped|] != r.pushed[..|r.popped|][|s.popped|];
    }
  }

  ghost predicate CleanRun(s: State, sched: Schedule)
    requires Bounded(s) && Fits(sched, |s.pc|)
  {
    forall k :: 0 <= k < |sched| ==> !BadStep(Run(s, sched[..k]), sched[k].0)
  }

  ghost predicate SoundRun(s: State, sched: Schedule)
    requires Bounded(s) && Fits(sched, |s.pc|)
  {
    forall k :: 0 <= k <= |sched| ==> Sound(Run(s, sched[..k]))
  }

  lemma {:induction false} RunOneMore(s: State, sched: Schedule, k: nat)
    requires Bounded(s) && Fits(sched, |s.pc|) && k < |sched|
    ensures Run(s, sched[..k + 1]) == Step(Run(s, sched[..k]), sched[k].0, sched[k].1)
  {
    assert sched[..k + 1][..k] == sched[..k];
  }

  lemma {:induction false} CleanInv(s: State, sched: Schedule, k: nat)
    requires Inv(s) && Fits(sched, |s.pc|) && k <= |sched|
    requires forall j :: 0 <= j < k ==> !BadStep(Run(s, sched[..j]), sched[j].0)
    ensures Inv(Run(s, sched[..k]))
  {
    hide Bounded, Step, Inv, BadStep;
    assert Bounded(s) by { InvBounded(s); }
    if k > 0 {
      CleanInv(s, sched, k - 1);
      RunOneMore(s, sched, k - 1);
      StepInv(Run(s, sched[..k - 1]), sched[k - 1].0, sched[k - 1].1);
    } else {
      assert sched[..0] == [];
    }
  }

  lemma InvBounded(s: State)
    requires Inv(s)
    ensures Bounded(s) && Sound(s)
  {
  }

  /** Any number of pushers and poppers, any schedule: the cursors stay in order, the published
      slots hold their finished values and the pops return the pushed values in the order of
      their reservation, all along the run, exactly when no successful compare-and-swap reserves
      a slot of a full ring, or takes an empty slot or one that was refilled. */
  lemma {:induction false} SoundIffClean(arr: seq<int>, threads: nat, sched: Schedule)
    requires 1 <= |arr| && Fits(sched, threads)
    ensures SoundRun(Init(arr, threads), sched) <==> CleanRun(Init(arr, threads), sched)
  {
    hide Step, Inv, BadStep, Sound, Bounded;
    var s := Init(arr, threads);
    InitInv(arr, threads);
    if CleanRun(s, sched) {
      forall k | 0 <= k <= |sched|
        ensures Sound(Run(s, sched[..k]))
      {
        CleanInv(s, sched, k);
        InvBounded(Run(s, sched[..k]));
      }
    } else {
      var bad := seq(|sched|, j requires 0 <= j < |sched| => BadStep(Run(s, sched[..j]), sched[j].0));
      var j :| 0 <= j < |sched| && BadStep(Run(s, sched[..j]), sched[j].0);
      assert bad[j];
      var k := FirstTrue(bad, j);
      forall i | 0 <= i < k
        ensures !BadStep(Run(s, sched[..i]), sched[i].0)
      {
        assert !bad[i];
      }
      CleanInv(s, sched, k);
      RunOneMore(s, sched, k);
      BadStepBreaks(Run(s, sched[..k]), sched[k].0, sched[k].1);
    }
  }
}

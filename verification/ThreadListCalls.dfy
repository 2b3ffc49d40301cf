/** What the calls of the per-thread list answer is what they did, on every run. */
module ThreadListCalls {
  import opened NodeList
  import opened CallTrace
  import opened ThreadList
  import opened ThreadListProofs

  // A step takes the first node of the list, or puts a node in front.
  datatype Change = Takes(node: nat) | Puts(node: nat)

  function Added(s: State, r: State): Entry<Change> {
    if |FreeNodes(r)| < |FreeNodes(s)| then Entry(Takes(FreeNodes(s)[0]))
    else if |FreeNodes(s)| < |FreeNodes(r)| then Entry(Puts(FreeNodes(r)[0]))
    else NoEntry
  }

  // What the steps of thread t add, one after the other.
  ghost function Made(s: State, sched: Schedule, t: nat): (made: seq<Entry<Change>>)
    requires Bounded(s) && Fits(sched, |s.pc|)
    ensures |made| == |sched|
  {
    seq(|sched|, i requires 0 <= i < |sched| =>
      if sched[i].0 == t then Added(Run(s, sched[..i]), Run(s, sched[..i + 1])) else NoEntry)
  }

  ghost function IdleAt(s: State, sched: Schedule, t: nat): (idle: seq<bool>)
    requires Bounded(s) && Fits(sched, |s.pc|) && t < |s.pc|
    ensures |idle| == |sched| + 1
  {
    seq(|sched| + 1, i requires 0 <= i <= |sched| => Run(s, sched[..i]).pc[t].Idle?)
  }

  // Thread t calls at step j and returns at step k.
  ghost predicate Finished(s: State, sched: Schedule, t: nat, j: nat, k: nat)
    requires Bounded(s) && Fits(sched, |s.pc|)
  {
    && t < |s.pc| && j < |sched| && k < |sched| && sched[j].0 == t && sched[k].0 == t
    && Spans(IdleAt(s, sched, t), j, k)
  }

  // The call's answer is what it did between its call and its return.
  ghost predicate Answered(s: State, sched: Schedule, t: nat, j: nat, k: nat)
    requires Bounded(s) && Fits(sched, |s.pc|) && Finished(s, sched, t, j, k)
  {
    var made := Made(s, sched, t);
    var a, r := sched[j].1, Run(s, sched[..k + 1]);
    match r.pc[t].result
    case Got(n) => a == CallAlloc && Once(made, j + 1, k + 1, Takes(n)) && n < |r.place| && r.place[n] == InUse
    case Exhausted => a == CallAlloc && Never(made, j + 1, k + 1) && FreeNodes(Run(s, sched[..k])) == []
    case Released => a.CallRelease? && Once(made, j + 1, k + 1, Puts(a.node))
    case NoCall => false
  }

  // ----- One step of a call -----

  // AllocBuffer has unlinked its node; ReleaseBuffer has linked it.
  function PhaseOf(c: Pc, a: Action): Phase<Change> {
    match a
    case Go => Elsewhere
    case CallAlloc =>
      (match c
       case AllocClear(n) => After(Takes(n))
       case Idle(Got(n)) => After(Takes(n))
       case Idle(Exhausted) => Before
       case _ => if IsAlloc(c) then Before else Elsewhere)
    case CallRelease(x) =>
      (match c
       case RelAssert(n) => if n == x then Before else Elsewhere
       case RelCount(n) => if n == x then Before else Elsewhere
       case RelRead(n, _) => if n == x then Before else Elsewhere
       case RelStore(n, _, _) => if n == x then Before else Elsewhere
       case RelCas(n, _, _) => if n == x then Before else Elsewhere
       case Idle(Released) => After(Puts(x))
       case _ => Elsewhere)
  }

  // The same change, seen in the history.
  function Listed(s: State, r: State): Entry<Change> {
    if |r.free| < |s.free| then Entry(Takes(s.free[|s.free| - 1]))
    else if |s.free| < |r.free| then Entry(Puts(r.free[|r.free| - 1]))
    else NoEntry
  }

  lemma ListedIsAdded(s: State, r: State)
    requires Inv(s) && Inv(r)
    ensures Added(s, r) == Listed(s, r)
  {
    hide FreeList, Holders, Links, OwnerSees, Counter, FreeNodes;
    FreeIsFree(s);
    FreeIsFree(r);
  }

  ghost predicate CallStep(s: State, r: State, t: nat, a: Action)
    requires t < |s.pc| == |r.pc|
  {
    && PhaseStep(PhaseOf(s.pc[t], a), Listed(s, r), PhaseOf(r.pc[t], a))
    && (r.pc[t] == Idle(Exhausted) ==> s.head == Nil)
    && (r.pc[t].Idle? && r.pc[t].result.Got? ==>
          var n := r.pc[t].result.node; s.pc[t] == AllocClear(n) && n < |r.place| && r.place[n] == InUse)
  }

  lemma AllocCall(s: State, t: nat, a: Action)
    requires Bounded(s) && FreeList(s) && OwnerSees(s) && t < |s.pc| && IsAlloc(s.pc[t]) && !PhaseOf(s.pc[t], a).Elsewhere?
    requires AllocStep(s, t).pc[t] != AssertFailed
    ensures CallStep(s, AllocStep(s, t), t, a)
  {
    hide FreeList, OwnerSees;
    if Unlinks(s, t) { UnlinksTop(s, t); }
  }

  lemma ReleaseCall(s: State, t: nat, a: Action)
    requires Bounded(s) && t < |s.pc| && IsRelease(s.pc[t]) && !PhaseOf(s.pc[t], a).Elsewhere?
    requires ReleaseStep(s, t).pc[t] != AssertFailed && ReleaseStep(s, t).pc[t] != Cleaning
    ensures CallStep(s, ReleaseStep(s, t), t, a)
  {
    hide PcOk;
  }

  lemma OneStep(s: State, t: nat, b: Action, a: Action)
    requires Bounded(s) && Inv(s) && t < |s.pc| && !s.pc[t].Idle? && !PhaseOf(s.pc[t], a).Elsewhere?
    ensures var r := Step(s, t, b);
      && CallStep(s, r, t, a) && PhaseStep(PhaseOf(s.pc[t], a), Added(s, r), PhaseOf(r.pc[t], a))
      && (r.pc[t] == Idle(Exhausted) ==> FreeNodes(s) == [])
  {
    hide FreeList, Holders, Links, OwnerSees, AllocStep, ReleaseStep, CallStep, Added, FreeNodes, PhaseOf;
    var r := Step(s, t, b);
    StepInv(s, t, b);
    NotFailed(r, t);
    ListedIsAdded(s, r);
    if IsAlloc(s.pc[t]) {
      AllocCall(s, t, a);
    } else {
      assert IsRelease(s.pc[t]) by { InACall(s.pc[t], a); }
      ReleaseCall(s, t, a);
    }
    assert PhaseStep(PhaseOf(s.pc[t], a), Added(s, r), PhaseOf(r.pc[t], a)) by { CallStepParts(s, r, t, a); }
    if r.pc[t] == Idle(Exhausted) {
      CallStepParts(s, r, t, a);
      assert FreeNodes(s) == [] by { NilIsEmpty(s); }
    }
  }

  lemma CallStepParts(s: State, r: State, t: nat, a: Action)
    requires t < |s.pc| == |r.pc| && CallStep(s, r, t, a)
    ensures PhaseStep(PhaseOf(s.pc[t], a), Listed(s, r), PhaseOf(r.pc[t], a)) && (r.pc[t] == Idle(Exhausted) ==> s.head == Nil)
  {
  }

  lemma NilIsEmpty(s: State)
    requires s.head == Nil
    ensures FreeNodes(s) == []
  {
  }

  lemma InACall(c: Pc, a: Action)
    requires !PhaseOf(c, a).Elsewhere? && !c.Idle?
    ensures IsAlloc(c) || IsRelease(c)
  {
  }

  lemma NotFailed(s: State, t: nat)
    requires Inv(s) && t < |s.pc|
    ensures s.pc[t] != AssertFailed && s.pc[t] != Cleaning
  {
  }

  lemma CallBegins(s: State, t: nat, a: Action)
    requires Bounded(s) && t < |s.pc| && s.pc[t].Idle?
    ensures var c := Step(s, t, a).pc[t]; if c.Idle? then c == s.pc[t] else PhaseOf(c, a).Before?
  {
    hide PcOk;
  }

  lemma Others(s: State, u: nat, b: Action)
    requires Bounded(s) && u < |s.pc|
    ensures forall t :: 0 <= t < |s.pc| && t != u ==> Step(s, u, b).pc[t] == s.pc[t]
  {
    hide Bounded, Step;
    Moves(s, u, b);
  }

  lemma {:induction false} RunOneMore(s: State, sched: Schedule, k: nat)
    requires Bounded(s) && Fits(sched, |s.pc|) && k < |sched|
    ensures Run(s, sched[..k + 1]) == Step(Run(s, sched[..k]), sched[k].0, sched[k].1)
  {
    assert sched[..k + 1][..k] == sched[..k];
  }

  lemma {:induction false} InvAt(s: State, sched: Schedule, k: nat)
    requires Bounded(s) && Fits(sched, |s.pc|) && Inv(s) && k <= |sched|
    ensures Inv(Run(s, sched[..k]))
  {
    RunInv(s, sched[..k]);
  }

  // A step of thread u, seen from the call of thread t.
  lemma StepPhase(s: State, u: nat, b: Action, t: nat, a: Action)
    requires Bounded(s) && Inv(s) && u < |s.pc| && t < |s.pc| && !s.pc[t].Idle? && !PhaseOf(s.pc[t], a).Elsewhere?
    ensures var r := Step(s, u, b);
      PhaseStep(PhaseOf(s.pc[t], a), if u == t then Added(s, r) else NoEntry, PhaseOf(r.pc[t], a))
  {
    hide Bounded, Step, PhaseOf, Added, Inv, CallStep;
    Others(s, u, b);
    if u == t { OneStep(s, t, b, a); }
  }

  // ----- A whole call -----

  lemma {:induction false} BusyUntil(s: State, sched: Schedule, t: nat, j: nat, k: nat)
    requires Bounded(s) && Fits(sched, |s.pc|) && Finished(s, sched, t, j, k)
    ensures j < k < |sched| && Run(s, sched[..j]).pc[t].Idle? && Run(s, sched[..k + 1]).pc[t].Idle?
    ensures forall i :: j < i <= k ==> !Run(s, sched[..i]).pc[t].Idle?
  {
    hide Bounded, Run;
    assert forall i :: 0 <= i <= |sched| ==> IdleAt(s, sched, t)[i] == Run(s, sched[..i]).pc[t].Idle?;
  }

  // What the call has added by its return.
  lemma {:induction false} CallAdds(s: State, sched: Schedule, t: nat, j: nat, k: nat)
    requires Bounded(s) && Fits(sched, |s.pc|) && Inv(s) && Finished(s, sched, t, j, k)
    ensures !PhaseOf(Run(s, sched[..k]).pc[t], sched[j].1).Elsewhere?
    ensures match PhaseOf(Run(s, sched[..k + 1]).pc[t], sched[j].1)
            case Elsewhere => false
            case Before => Never(Made(s, sched, t), j + 1, k + 1)
            case After(e) => Once(Made(s, sched, t), j + 1, k + 1, e)
  {
    hide Bounded, Run, Step, Once, Never, Added, PhaseOf, PhaseStep, Spans, Inv;
    var a := sched[j].1;
    BusyUntil(s, sched, t, j, k);
    var phase := seq(|sched| + 1, i requires 0 <= i <= |sched| => PhaseOf(Run(s, sched[..i]).pc[t], a));
    forall i {:trigger Made(s, sched, t)[i]} | j + 1 <= i < k + 1 && !phase[i].Elsewhere?
      ensures PhaseStep(phase[i], Made(s, sched, t)[i], phase[i + 1])
    {
      RunOneMore(s, sched, i);
      InvAt(s, sched, i);
      StepPhase(Run(s, sched[..i]), sched[i].0, sched[i].1, t, a);
    }
    RunOneMore(s, sched, j);
    CallBegins(Run(s, sched[..j]), t, a);
    CallTells(Made(s, sched, t), phase, j + 1, k);
    CallTells(Made(s, sched, t), phase, j + 1, k + 1);
  }

  lemma {:induction false} CallAnswers(s: State, sched: Schedule, t: nat, j: nat, k: nat)
    requires Bounded(s) && Fits(sched, |s.pc|) && Inv(s) && Finished(s, sched, t, j, k)
    ensures Answered(s, sched, t, j, k)
  {
    hide Bounded, Run, Step, Made, Once, Never, Added, Inv, FreeNodes;
    CallAdds(s, sched, t, j, k);
    BusyUntil(s, sched, t, j, k);
    RunOneMore(s, sched, k);
    InvAt(s, sched, k);
    OneStep(Run(s, sched[..k]), t, sched[k].1, sched[j].1);
  }

  // ----- Two calls -----

  // Step m is the one at which this call makes its change.
  ghost predicate Changes(s: State, sched: Schedule, t: nat, j: nat, k: nat, m: nat)
    requires Bounded(s) && Fits(sched, |s.pc|)
  {
    Finished(s, sched, t, j, k) && j < m <= k && Made(s, sched, t)[m].Entry?
  }

  lemma {:induction false} ChangesDiffer(s: State, sched: Schedule, t: nat, j: nat, k: nat, m: nat, u: nat, jj: nat, kk: nat, n: nat)
    requires Bounded(s) && Fits(sched, |s.pc|)
    requires Changes(s, sched, t, j, k, m) && Changes(s, sched, u, jj, kk, n) && (t, k) != (u, kk)
    ensures m != n
  {
    hide Bounded, Run, Added;
    if t == u && k < kk {
      SpansDisjoint(IdleAt(s, sched, t), j, k, jj, kk);
    } else if t == u && kk < k {
      SpansDisjoint(IdleAt(s, sched, t), jj, kk, j, k);
    }
  }

  // ----- A node that was given out -----

  // Only a release takes a node out of use.
  lemma UseEnds(s: State, t: nat, a: Action, n: nat)
    requires Inv(s) && t < |s.pc| && n < |s.place| && s.place[n] == InUse && Step(s, t, a).place[n] != InUse
    ensures a == CallRelease(n) && s.pc[t].Idle?
  {
    hide FreeList, Links, Counter, OwnerSees, PcOk;
    if Unlinks(s, t) { UnlinkPlace(s, t); }
    if s.pc[t].RelCas? { ReleaserHolds(s, t); }
  }

  lemma ReleaserHolds(s: State, t: nat)
    requires Bounded(s) && Holders(s) && t < |s.pc| && s.pc[t].RelCas?
    ensures s.place[s.pc[t].node] == HeldBy(t)
  {
    assert HeldNode(s.pc[t]) == s.pc[t].node;
  }

  ghost predicate ReleasedBetween(s: State, sched: Schedule, n: nat, lo: nat, hi: nat)
    requires Bounded(s) && Fits(sched, |s.pc|) && hi <= |sched|
  {
    exists m :: lo <= m < hi && sched[m].1 == CallRelease(n) && Run(s, sched[..m]).pc[sched[m].0].Idle?
  }

  lemma {:induction false} LeavesUse(s: State, sched: Schedule, n: nat, lo: nat, hi: nat)
    requires Bounded(s) && Fits(sched, |s.pc|) && Inv(s) && lo <= hi <= |sched| && n < |s.next|
    requires Run(s, sched[..lo]).place[n] == InUse && Run(s, sched[..hi]).place[n] != InUse
    ensures ReleasedBetween(s, sched, n, lo, hi)
    decreases hi
  {
    hide Bounded, Run, Step, Inv;
    assert |s.place| == |s.next| by { PlacesAll(s); }
    var m := Run(s, sched[..hi - 1]);
    InvAt(s, sched, hi - 1);
    PlacesAll(m);
    RunOneMore(s, sched, hi - 1);
    if m.place[n] == InUse {
      UseEnds(m, sched[hi - 1].0, sched[hi - 1].1, n);
    } else {
      LeavesUse(s, sched, n, lo, hi - 1);
    }
  }

  lemma PlacesAll(s: State)
    requires Bounded(s)
    ensures |s.place| == |s.next|
  {
  }

  // The call answers with node n.
  ghost predicate Gives(s: State, sched: Schedule, t: nat, j: nat, k: nat, n: nat)
    requires Bounded(s) && Fits(sched, |s.pc|)
  {
    Finished(s, sched, t, j, k) && Run(s, sched[..k + 1]).pc[t] == Idle(Got(n))
  }

  lemma GivesUnlinked(s: State, t: nat, b: Action, a: Action, n: nat)
    requires Bounded(s) && Inv(s) && t < |s.pc| && !s.pc[t].Idle? && !PhaseOf(s.pc[t], a).Elsewhere?
    requires Step(s, t, b).pc[t] == Idle(Got(n))
    ensures n < |s.next| && s.place[n] == HeldBy(t)
  {
    hide FreeList, Links, OwnerSees, Counter, PhaseOf, Added, FreeNodes, Step;
    OneStep(s, t, b, a);
    assert HeldNode(s.pc[t]) == n;
  }

  // As a call answers with n, n is in use, and just before it was in the hands of the thread.
  lemma {:induction false} GivesInUse(s: State, sched: Schedule, t: nat, j: nat, k: nat, n: nat)
    requires Bounded(s) && Fits(sched, |s.pc|) && Inv(s) && Gives(s, sched, t, j, k, n)
    ensures n < |s.next| && Run(s, sched[..k]).place[n] == HeldBy(t) && Run(s, sched[..k + 1]).place[n] == InUse
  {
    hide Bounded, Run, Step, Made, Once, Never, Added, Inv, FreeNodes;
    CallAnswers(s, sched, t, j, k);
    CallAdds(s, sched, t, j, k);
    BusyUntil(s, sched, t, j, k);
    RunOneMore(s, sched, k);
    InvAt(s, sched, k);
    GivesUnlinked(Run(s, sched[..k]), t, sched[k].1, sched[j].1, n);
    PlacesAll(Run(s, sched[..k]));
  }

  // A node that is given out a second time was released in between.
  lemma {:induction false} GivenAgain(s: State, sched: Schedule, t: nat, j: nat, k: nat, u: nat, jj: nat, kk: nat, n: nat)
    requires Bounded(s) && Fits(sched, |s.pc|) && Inv(s)
    requires Gives(s, sched, t, j, k, n) && Gives(s, sched, u, jj, kk, n) && k < kk
    ensures ReleasedBetween(s, sched, n, k + 1, kk)
  {
    hide Bounded, Run, Inv;
    GivesInUse(s, sched, t, j, k, n);
    GivesInUse(s, sched, u, jj, kk, n);
    LeavesUse(s, sched, n, k + 1, kk);
  }

  // The dummy is only given out after it was released.
  lemma {:induction false} DummyGiven(s: State, sched: Schedule, t: nat, j: nat, k: nat)
    requires Bounded(s) && Fits(sched, |s.pc|) && Inv(s) && 0 < |s.place| && s.place[0] == InUse && Gives(s, sched, t, j, k, 0)
    ensures ReleasedBetween(s, sched, 0, 0, k)
  {
    hide Bounded, Inv;
    GivesInUse(s, sched, t, j, k, 0);
    assert sched[..0] == [];
    LeavesUse(s, sched, 0, 0, k);
  }

  /** Every run of one allocating owner and any releasers: an allocation answers with the node that
      it has unlinked from the front of the list, once, between its call and its return, and which
      is in use when it returns; null only with an empty list, and then it has unlinked nothing; a
      release puts its own node in front, once.  No node is given out a second time, and the dummy
      not even once, unless it was released before. */
  lemma {:induction false} AnswersAreTrue(population: nat, owner: nat, threads: nat, sched: Schedule)
    requires owner < threads && Fits(sched, threads)
    ensures var s := Init(population, owner, threads);
      && (forall t: nat, j: nat, k: nat :: Finished(s, sched, t, j, k) ==> Answered(s, sched, t, j, k))
      && (forall t: nat, j: nat, k: nat, u: nat, jj: nat, kk: nat, n: nat ::
            Gives(s, sched, t, j, k, n) && Gives(s, sched, u, jj, kk, n) && k < kk ==> kk <= |sched| && ReleasedBetween(s, sched, n, k + 1, kk))
      && (forall t: nat, j: nat, k: nat :: Gives(s, sched, t, j, k, 0) ==> k <= |sched| && ReleasedBetween(s, sched, 0, 0, k))
      && (forall t: nat, j: nat, k: nat, m: nat, u: nat, jj: nat, kk: nat, n: nat ::
            Changes(s, sched, t, j, k, m) && Changes(s, sched, u, jj, kk, n) && (t, k) != (u, kk) ==> m != n)
  {
    hide Bounded, Run, Finished, Answered, Changes, Gives, Inv;
    var s := Init(population, owner, threads);
    InitInv(population, owner, threads);
    assert |s.pc| == threads && 0 < |s.place| && s.place[0] == InUse;
    forall t: nat, j: nat, k: nat | Finished(s, sched, t, j, k)
      ensures Answered(s, sched, t, j, k)
    {
      CallAnswers(s, sched, t, j, k);
    }
    forall t: nat, j: nat, k: nat, u: nat, jj: nat, kk: nat, n: nat
      | Gives(s, sched, t, j, k, n) && Gives(s, sched, u, jj, kk, n) && k < kk
      ensures kk <= |sched| && ReleasedBetween(s, sched, n, k + 1, kk)
    {
      GivesWithin(s, sched, u, jj, kk, n);
      GivenAgain(s, sched, t, j, k, u, jj, kk, n);
    }
    forall t: nat, j: nat, k: nat | Gives(s, sched, t, j, k, 0)
      ensures k <= |sched| && ReleasedBetween(s, sched, 0, 0, k)
    {
      GivesWithin(s, sched, t, j, k, 0);
      DummyGiven(s, sched, t, j, k);
    }
    forall t: nat, j: nat, k: nat, m: nat, u: nat, jj: nat, kk: nat, n: nat
      | Changes(s, sched, t, j, k, m) && Changes(s, sched, u, jj, kk, n) && (t, k) != (u, kk)
      ensures m != n
    {
      ChangesDiffer(s, sched, t, j, k, m, u, jj, kk, n);
    }
  }

  lemma GivesWithin(s: State, sched: Schedule, t: nat, j: nat, k: nat, n: nat)
    requires Bounded(s) && Fits(sched, |s.pc|) && Gives(s, sched, t, j, k, n)
    ensures k < |sched|
  {
    hide Run;
  }
}

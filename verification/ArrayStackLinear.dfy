/** Every run of the array stack is a run of a bounded LIFO stack. */
module ArrayStackLinear {
  import opened ArrayStack
  import opened ArrayStackProofs

  // The index of the event that a thread has, or -1.
  function EventIndex(c: Pc): int {
    match c
    case Returned(_, ev) => ev
    case PushWrite(_, _, ev) => ev
    case PushAssert(_, ev) => ev
    case PushLeave(_, ev) => ev
    case PushUnlock(_, ev, _) => ev
    case PopRead(_, ev) => ev
    case PopPoison(_, _, ev) => ev
    case PopAssert(_, ev) => ev
    case PopLeave(_, ev) => ev
    case PopUnlock(_, ev, _) => ev
    case _ => -1
  }

  // The event that c carries, or that its value will make.
  predicate FitsCall(c: Pc, a: Action) {
    match c
    case PushMask(v) => a == CallPush(v)
    case PushLock(v, _) => a == CallPush(v)
    case PushTop(v) => a == CallPush(v)
    case PushReserve(v, _) => a == CallPush(v)
    case PushWrite(v, _, _) => a == CallPush(v)
    case PushAssert(e, _) => Answers(a, e)
    case PushLeave(e, _) => Answers(a, e)
    case PushUnlock(e, _, _) => Answers(a, e)
    case PopAssert(e, _) => Answers(a, e)
    case PopLeave(e, _) => Answers(a, e)
    case PopUnlock(e, _, _) => Answers(a, e)
    case Returned(e, _) => Answers(a, e)
    case Idle => false
    case AssertFailed => true
    case _ => a == CallPop
  }

  // An event index is the thread's old one or that of a new event.
  predicate NextIndex(s: State, r: State, t: nat)
    requires t < |s.pc| && t < |r.pc|
  {
    && s.log <= r.log
    && EventIndex(r.pc[t]) < |r.log|
    && (EventIndex(r.pc[t]) >= 0 ==> EventIndex(r.pc[t]) == EventIndex(s.pc[t]) || EventIndex(r.pc[t]) == |s.log|)
  }

  lemma PushIndex(s: State, t: nat)
    requires Bounded(s) && t < |s.pc| && IsPush(s.pc[t]) && EventIndex(s.pc[t]) < |s.log|
    ensures NextIndex(s, PushStep(s, t), t)
  {
    hide Add, Sub, PushBits, PopBits, PcOk;
  }

  lemma PopIndex(s: State, t: nat)
    requires Bounded(s) && t < |s.pc| && IsPop(s.pc[t]) && EventIndex(s.pc[t]) < |s.log|
    ensures NextIndex(s, PopStep(s, t), t)
  {
    hide Add, Sub, PushBits, PopBits, PcOk;
  }

  lemma StepIndex(s: State, t: nat, a: Action)
    requires Bounded(s) && t < |s.pc| && EventIndex(s.pc[t]) < |s.log|
    ensures var r := Step(s, t, a); NextIndex(s, r, t) && r.pc == s.pc[t := r.pc[t]]
  {
    hide Bounded, PushStep, PopStep;
    if IsPush(s.pc[t]) { PushIndex(s, t); } else if IsPop(s.pc[t]) { PopIndex(s, t); }
    Moves(s, t, a);
  }

  lemma FitsStep(s: State, t: nat, a: Action, call: Action)
    requires Bounded(s) && t < |s.pc| && Busy(s.pc[t]) && FitsCall(s.pc[t], call)
    ensures FitsCall(Step(s, t, a).pc[t], call)
  {
    hide Add, Sub, PushBits, PopBits, PcOk;
  }

  // Every thread's event exists, and no two threads have the same.
  ghost predicate OwnEvents(s: State) {
    && (forall t :: 0 <= t < |s.pc| ==> EventIndex(s.pc[t]) < |s.log|)
    && (forall t, u :: 0 <= t < u < |s.pc| && EventIndex(s.pc[t]) >= 0 ==> EventIndex(s.pc[t]) != EventIndex(s.pc[u]))
  }

  lemma OwnStep(s: State, t: nat, a: Action)
    requires Bounded(s) && t < |s.pc| && OwnEvents(s)
    ensures OwnEvents(Step(s, t, a))
  {
    hide Bounded, Step, EventIndex;
    StepIndex(s, t, a);
  }

  lemma {:induction false} OwnRun(s: State, sched: Schedule)
    requires Bounded(s) && Fits(sched, |s.pc|) && OwnEvents(s)
    ensures OwnEvents(Run(s, sched))
  {
    hide Bounded, Step, OwnEvents;
    if sched != [] {
      var k := |sched| - 1;
      OwnRun(s, sched[..k]);
      OwnStep(Run(s, sched[..k]), sched[k].0, sched[k].1);
    }
  }

  lemma {:induction false} RunOneMore(s: State, sched: Schedule, k: nat)
    requires Bounded(s) && Fits(sched, |s.pc|) && k < |sched|
    ensures Run(s, sched[..k + 1]) == Step(Run(s, sched[..k]), sched[k].0, sched[k].1)
  {
    assert sched[..k + 1][..k] == sched[..k];
  }

  lemma {:induction false} LogGrows(s: State, sched: Schedule, j: nat, k: nat)
    requires Bounded(s) && Fits(sched, |s.pc|) && OwnEvents(s) && j <= k <= |sched|
    ensures Run(s, sched[..j]).log <= Run(s, sched[..k]).log
  {
    hide Bounded, Step;
    if j < k {
      LogGrows(s, sched, j, k - 1);
      OwnRun(s, sched[..k - 1]);
      RunOneMore(s, sched, k - 1);
      StepIndex(Run(s, sched[..k - 1]), sched[k - 1].0, sched[k - 1].1);
    }
  }

  // ----- One call -----

  // In the call `a` that was made when the log had n events.
  predicate During(c: Pc, a: Action, n: nat) {
    FitsCall(c, a) && (EventIndex(c) >= 0 ==> EventIndex(c) >= n)
  }

  lemma CallBegins(s: State, t: nat, a: Action)
    requires Bounded(s) && t < |s.pc| && !Busy(s.pc[t]) && Busy(Step(s, t, a).pc[t])
    ensures During(Step(s, t, a).pc[t], a, |s.log|)
  {
  }

  lemma DuringStep(s: State, u: nat, a: Action, t: nat, call: Action, n: nat)
    requires Bounded(s) && OwnEvents(s) && u < |s.pc| && t < |s.pc|
    requires Busy(s.pc[t]) && During(s.pc[t], call, n) && n <= |s.log|
    ensures During(Step(s, u, a).pc[t], call, n)
  {
    hide Bounded, Step, FitsCall, EventIndex;
    StepIndex(s, u, a);
    if u == t { FitsStep(s, t, a, call); }
  }

  lemma {:induction false} DuringRun(s: State, sched: Schedule, j: nat, k: nat, t: nat)
    requires Bounded(s) && Fits(sched, |s.pc|) && OwnEvents(s) && j < k <= |sched| && t < |s.pc| && sched[j].0 == t
    requires !Busy(Run(s, sched[..j]).pc[t]) && Busy(Run(s, sched[..j + 1]).pc[t])
    requires forall i :: j < i < k ==> Busy(Run(s, sched[..i]).pc[t])
    ensures During(Run(s, sched[..k]).pc[t], sched[j].1, |Run(s, sched[..j]).log|)
  {
    hide Bounded, Step, OwnEvents, Busy, During;
    RunOneMore(s, sched, k - 1);
    if k == j + 1 {
      CallBegins(Run(s, sched[..j]), t, sched[j].1);
    } else {
      DuringRun(s, sched, j, k - 1, t);
      OwnRun(s, sched[..k - 1]);
      LogGrows(s, sched, j, k - 1);
      DuringStep(Run(s, sched[..k - 1]), sched[k - 1].0, sched[k - 1].1, t, sched[j].1, |Run(s, sched[..j]).log|);
    }
  }

  // ----- Two calls -----

  // Nobody has event e, unless it is thread t and has returned with it.
  ghost predicate Gone(s: State, e: nat, t: nat) {
    && e < |s.log|
    && (forall u :: 0 <= u < |s.pc| && EventIndex(s.pc[u]) == e ==> u == t && s.pc[u].Returned?)
  }

  lemma ReturnedRests(s: State, t: nat, a: Action)
    requires Bounded(s) && t < |s.pc| && s.pc[t].Returned?
    ensures var c := Step(s, t, a).pc[t]; c == s.pc[t] || EventIndex(c) == -1
  {
  }

  lemma GoneStep(s: State, u: nat, a: Action, e: nat, t: nat)
    requires Bounded(s) && OwnEvents(s) && u < |s.pc| && Gone(s, e, t)
    ensures Gone(Step(s, u, a), e, t)
  {
    hide Bounded, Step, EventIndex;
    StepIndex(s, u, a);
    if s.pc[u].Returned? { ReturnedRests(s, u, a); }
  }

  lemma {:induction false} GoneRun(s: State, sched: Schedule, j: nat, k: nat, e: nat, t: nat)
    requires Bounded(s) && Fits(sched, |s.pc|) && OwnEvents(s) && j <= k <= |sched| && Gone(Run(s, sched[..j]), e, t)
    ensures Gone(Run(s, sched[..k]), e, t)
  {
    hide Bounded, Step, OwnEvents, Gone;
    if j < k {
      GoneRun(s, sched, j, k - 1, e, t);
      OwnRun(s, sched[..k - 1]);
      RunOneMore(s, sched, k - 1);
      GoneStep(Run(s, sched[..k - 1]), sched[k - 1].0, sched[k - 1].1, e, t);
    }
  }

  // A call returns with the event that it had.
  lemma ReturnKeeps(s: State, t: nat, a: Action)
    requires Bounded(s) && t < |s.pc| && Busy(s.pc[t]) && Step(s, t, a).pc[t].Returned?
    ensures var r := Step(s, t, a);
      EventIndex(s.pc[t]) == r.pc[t].ev && r.log == s.log && EventIndex(r.pc[t]) == r.pc[t].ev
  {
    hide Add, Sub, PushBits, PopBits, PcOk;
  }

  lemma OwnIsGone(s: State, t: nat)
    requires OwnEvents(s) && t < |s.pc| && s.pc[t].Returned?
    ensures Gone(s, s.pc[t].ev, t)
  {
    assert EventIndex(s.pc[t]) == s.pc[t].ev;
  }

  lemma {:induction false} ReturnsDiffer(s: State, sched: Schedule, j: nat, k: nat, jj: nat, kk: nat)
    requires Bounded(s) && Fits(sched, |s.pc|) && OwnEvents(s)
    requires Finished(s, sched, j, k) && Finished(s, sched, jj, kk) && k < kk
    ensures ReturnAt(s, sched, k).ev != ReturnAt(s, sched, kk).ev
  {
    hide Bounded, Step, OwnEvents, Busy, EventIndex;
    var e := ReturnAt(s, sched, k).ev;
    OwnRun(s, sched[..k + 1]);
    OwnIsGone(Run(s, sched[..k + 1]), sched[k].0);
    GoneRun(s, sched, k + 1, kk, e, sched[k].0);
    RunOneMore(s, sched, kk);
    var m := Run(s, sched[..kk]);
    assert Busy(m.pc[sched[kk].0]);
    ReturnKeeps(m, sched[kk].0, sched[kk].1);
    BusyIsOut(m.pc[sched[kk].0]);
  }

  lemma BusyIsOut(c: Pc)
    requires Busy(c)
    ensures !c.Returned?
  {
  }

  // ----- The theorem -----

  lemma {:induction false} FinishedInside(s: State, sched: Schedule, j: nat, k: nat)
    requires Bounded(s) && Fits(sched, |s.pc|) && OwnEvents(s) && Inv(s) && Finished(s, sched, j, k)
    ensures var c := ReturnAt(s, sched, k); var log := Run(s, sched).log;
      && |Run(s, sched[..j]).log| <= c.ev < |Run(s, sched[..k]).log| <= |log|
      && log[c.ev] == c.event && Answers(sched[j].1, c.event)
  {
    hide Bounded, Step, OwnEvents, Busy, Inv;
    var t := sched[k].0;
    DuringRun(s, sched, j, k + 1, t);
    var m, r := Run(s, sched[..k]), Run(s, sched[..k + 1]);
    RunOneMore(s, sched, k);
    assert Busy(m.pc[t]);
    ReturnKeeps(m, t, sched[k].1);
    RunInv(s, sched[..k + 1]);
    assert Knows(r, r.pc[t]) by { InvKnows(r, t); }
    LogGrows(s, sched, k + 1, |sched|);
    assert sched[..|sched|] == sched;
  }

  lemma InvKnows(s: State, t: nat)
    requires Inv(s) && t < |s.pc|
    ensures Bounded(s) && Knows(s, s.pc[t])
  {
  }

  /** Any number of threads, any schedule: the events, in the order of the accesses to top_, are
      a run of a bounded LIFO stack; every finished call has an event of its own, between its call
      and its return, that says what was called and what was returned. */
  lemma {:induction false} StackIsLinearisable(size: nat, arr: seq<int>, threads: nat, sched: Schedule)
    requires |arr| == size && Fits(sched, threads)
    ensures Linearised(Init(size, arr, threads), sched)
  {
    hide Bounded, Step, OwnEvents, Inv, Busy, Replay;
    var s := Init(size, arr, threads);
    InitInv(size, arr, threads);
    InitOwn(size, arr, threads);
    RunInv(s, sched);
    assert Replay(|s.arr|, Run(s, sched).log).Stack? by { InvReplays(Run(s, sched)); }
    forall j: nat, k: nat | Finished(s, sched, j, k)
      ensures k < |sched| && ReturnAt(s, sched, k).Returned?
      ensures var c := ReturnAt(s, sched, k); var log := Run(s, sched).log;
        && |Run(s, sched[..j]).log| <= c.ev < |Run(s, sched[..k]).log| <= |log|
        && log[c.ev] == c.event && Answers(sched[j].1, c.event)
    {
      FinishedInside(s, sched, j, k);
    }
    forall j: nat, k: nat, jj: nat, kk: nat | Finished(s, sched, j, k) && Finished(s, sched, jj, kk) && k < kk
      ensures ReturnAt(s, sched, k).ev != ReturnAt(s, sched, kk).ev
    {
      ReturnsDiffer(s, sched, j, k, jj, kk);
    }
  }

  lemma InitOwn(size: nat, arr: seq<int>, threads: nat)
    requires |arr| == size
    ensures OwnEvents(Init(size, arr, threads)) && |Init(size, arr, threads).pc| == threads
  {
    assert forall t :: 0 <= t < threads ==> Init(size, arr, threads).pc[t] == Idle;
  }

  lemma InvReplays(s: State)
    requires Inv(s)
    ensures Replay(|s.arr|, s.log).Stack?
  {
  }
}

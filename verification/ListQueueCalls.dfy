/** What the calls of the linked queue answer is what they did, on every run. */
module ListQueueCalls {
  import opened NodeList
  import opened CallTrace
  import opened ListQueue
  import opened ListQueueInv
  import opened ListQueueSound

  // A step adds a value to `pushed` or to `popped`.
  datatype Change = Pushes(v: int) | Pops(v: int)

  function Added(s: State, r: State): Entry<Change> {
    if |s.hist.pushed| < |r.hist.pushed| then Entry(Pushes(r.hist.pushed[|s.hist.pushed|]))
    else if |s.hist.popped| < |r.hist.popped| then Entry(Pops(r.hist.popped[|s.hist.popped|]))
    else NoEntry
  }

  // What the steps of thread t add, one after the other.
  ghost function Made(s: State, sched: Schedule, t: nat): (made: seq<Entry<Change>>)
    requires Bounded(s) && Fits(sched, |s.pc|)
    ensures |made| == |sched|
  {
    seq(|sched|, i requires 0 <= i < |sched| =>
      if sched[i].0 == t then Added(Run(s, sched[..i]), Run(s, sched[..i + 1])) else NoEntry)
  }

  ghost function IdleAt(s: State, sched: Schedule, t: nat): (idle: seq<bool>)
    requires Bounded(s) && Fits(sched, |s.pc|) && t < |s.pc|
    ensures |idle| == |sched| + 1
  {
    seq(|sched| + 1, i requires 0 <= i <= |sched| => Run(s, sched[..i]).pc[t].Idle?)
  }

  // Thread t calls at step j and returns at step k.
  ghost predicate Finished(s: State, sched: Schedule, t: nat, j: nat, k: nat)
    requires Bounded(s) && Fits(sched, |s.pc|)
  {
    && t < |s.pc| && j < |sched| && k < |sched| && sched[j].0 == t && sched[k].0 == t
    && Spans(IdleAt(s, sched, t), j, k)
  }

  // The call's answer is what it did between its call and its return.
  ghost predicate Answered(s: State, sched: Schedule, t: nat, j: nat, k: nat)
    requires Bounded(s) && Fits(sched, |s.pc|) && Finished(s, sched, t, j, k)
  {
    var made := Made(s, sched, t);
    var a := sched[j].1;
    match Run(s, sched[..k + 1]).pc[t].result
    case PushDone => a.CallPush? && Once(made, j + 1, k + 1, Pushes(a.v))
    case PushFull => a.CallPush? && Never(made, j + 1, k + 1) && FreeNodes(Run(s, sched[..k])) == []
    case Popped(v) => a.CallPop? && Once(made, j + 1, k + 1, Pops(v))
    case PopNone => a.CallPop? && Never(made, j + 1, k + 1)
    case NoCall => false
  }

  // ----- One step of a call -----

  // A push that has not linked its value x yet.
  predicate Carries(c: Pc, x: int) {
    match c
    case AllocRead(v) => v == x
    case AllocNext(v, _) => v == x
    case AllocCas(v, _, _) => v == x
    case AllocClear(v, _) => v == x
    case PushStore(v, _) => v == x
    case PushClear(v, _) => v == x
    case PushId(v, _) => v == x
    case TailRead(v, _, _) => v == x
    case TailNext(v, _, _, _) => v == x
    case TailHelp(v, _, _, _, _) => v == x
    case TailLink(v, _, _, _) => v == x
    case _ => false
  }

  // Push changes the queue when it has linked its value, Pop when it has moved out_.
  function PhaseOf(c: Pc, a: Action): Phase<Change> {
    match a
    case Go => Elsewhere
    case CallPush(v) =>
      if c.TailSwing? || c == Idle(PushDone) then After(Pushes(v))
      else if c == Idle(PushFull) || Carries(c, v) then Before
      else Elsewhere
    case CallPop =>
      (match c
       case RelId(_, v) => After(Pops(v))
       case RelRead(_, v, _) => After(Pops(v))
       case RelStore(_, v, _, _) => After(Pops(v))
       case RelCas(_, v, _, _) => After(Pops(v))
       case Idle(Popped(v)) => After(Pops(v))
       case _ => if IsPop(c) || c == Idle(PopNone) then Before else Elsewhere)
  }

  ghost predicate CallStep(s: State, r: State, t: nat, a: Action)
    requires t < |s.pc| == |r.pc|
  {
    && PhaseStep(PhaseOf(s.pc[t], a), Added(s, r), PhaseOf(r.pc[t], a))
    && (r.pc[t] == Idle(PushFull) ==> s.head == Nil)
  }

  lemma AllocCall(s: State, t: nat, a: Action)
    requires Bounded(s) && t < |s.pc| && IsAlloc(s.pc[t]) && !PhaseOf(s.pc[t], a).Elsewhere?
    ensures CallStep(s, AllocStep(s, t), t, a)
  {
    hide PcOk;
  }

  lemma PushCall(s: State, t: nat, a: Action)
    requires Bounded(s) && t < |s.pc| && IsPush(s.pc[t]) && !PhaseOf(s.pc[t], a).Elsewhere?
    ensures CallStep(s, PushStep(s, t), t, a)
  {
    hide PcOk;
  }

  lemma PopCall(s: State, t: nat, a: Action)
    requires Bounded(s) && t < |s.pc| && IsPop(s.pc[t]) && !PhaseOf(s.pc[t], a).Elsewhere?
    ensures CallStep(s, PopStep(s, t), t, a)
  {
    hide PcOk;
  }

  lemma ReleaseCall(s: State, t: nat, a: Action)
    requires Bounded(s) && t < |s.pc| && IsRelease(s.pc[t]) && !PhaseOf(s.pc[t], a).Elsewhere?
    ensures CallStep(s, ReleaseStep(s, t), t, a)
  {
    hide PcOk;
  }

  lemma OneStep(s: State, t: nat, b: Action, a: Action)
    requires Bounded(s) && t < |s.pc| && !s.pc[t].Idle? && !PhaseOf(s.pc[t], a).Elsewhere?
    ensures CallStep(s, Step(s, t, b), t, a)
  {
    hide Bounded, AllocStep, PushStep, PopStep, ReleaseStep, CallStep;
    if IsAlloc(s.pc[t]) {
      AllocCall(s, t, a);
    } else if IsPush(s.pc[t]) {
      PushCall(s, t, a);
    } else if IsPop(s.pc[t]) {
      PopCall(s, t, a);
    } else {
      ReleaseCall(s, t, a);
    }
  }

  lemma CallBegins(s: State, t: nat, a: Action)
    requires Bounded(s) && t < |s.pc| && s.pc[t].Idle?
    ensures var c := Step(s, t, a).pc[t];
      if a == Go then c == s.pc[t] else !c.Idle? && PhaseOf(c, a).Before?
  {
  }

  // A step of thread u, seen from the call of thread t.
  lemma StepPhase(s: State, u: nat, b: Action, t: nat, a: Action)
    requires Bounded(s) && u < |s.pc| && t < |s.pc| && !s.pc[t].Idle? && !PhaseOf(s.pc[t], a).Elsewhere?
    ensures var r := Step(s, u, b);
      PhaseStep(PhaseOf(s.pc[t], a), if u == t then Added(s, r) else NoEntry, PhaseOf(r.pc[t], a))
  {
    hide Bounded, Step, PhaseOf, Added;
    OnlyMoves(s, u, b);
    if u == t { OneStep(s, t, b, a); }
  }

  // ----- A whole call -----

  lemma {:induction false} BusyUntil(s: State, sched: Schedule, t: nat, j: nat, k: nat)
    requires Bounded(s) && Fits(sched, |s.pc|) && Finished(s, sched, t, j, k)
    ensures j < k < |sched| && Run(s, sched[..j]).pc[t].Idle? && Run(s, sched[..k + 1]).pc[t].Idle?
    ensures forall i :: j < i <= k ==> !Run(s, sched[..i]).pc[t].Idle?
  {
    hide Bounded, Run;
    assert forall i :: 0 <= i <= |sched| ==> IdleAt(s, sched, t)[i] == Run(s, sched[..i]).pc[t].Idle?;
  }

  // What the call has added by its return.
  lemma {:induction false} CallAdds(s: State, sched: Schedule, t: nat, j: nat, k: nat)
    requires Bounded(s) && Fits(sched, |s.pc|) && Finished(s, sched, t, j, k)
    ensures !PhaseOf(Run(s, sched[..k]).pc[t], sched[j].1).Elsewhere?
    ensures match PhaseOf(Run(s, sched[..k + 1]).pc[t], sched[j].1)
            case Elsewhere => false
            case Before => Never(Made(s, sched, t), j + 1, k + 1)
            case After(e) => Once(Made(s, sched, t), j + 1, k + 1, e)
  {
    hide Bounded, Run, Step, Once, Never, Added, PhaseOf, PhaseStep, Spans;
    var a := sched[j].1;
    BusyUntil(s, sched, t, j, k);
    var phase := seq(|sched| + 1, i requires 0 <= i <= |sched| => PhaseOf(Run(s, sched[..i]).pc[t], a));
    forall i {:trigger Made(s, sched, t)[i]} | j + 1 <= i < k + 1 && !phase[i].Elsewhere?
      ensures PhaseStep(phase[i], Made(s, sched, t)[i], phase[i + 1])
    {
      RunOneMore(s, sched, i);
      StepPhase(Run(s, sched[..i]), sched[i].0, sched[i].1, t, a);
    }
    RunOneMore(s, sched, j);
    CallBegins(Run(s, sched[..j]), t, a);
    CallTells(Made(s, sched, t), phase, j + 1, k);
    CallTells(Made(s, sched, t), phase, j + 1, k + 1);
  }

  // Between its call and its return, on every run from every state, a Push that reports success
  // adds one value to the queue, its argument; a Pop that reports success takes one value from it,
  // its answer; the others change nothing, and "full" is answered when no node is free.
  lemma {:induction false} CallAnswers(s: State, sched: Schedule, t: nat, j: nat, k: nat)
    requires Bounded(s) && Fits(sched, |s.pc|) && Finished(s, sched, t, j, k)
    ensures Answered(s, sched, t, j, k)
  {
    hide Bounded, Run, Step, Made, Once, Never, Added;
    CallAdds(s, sched, t, j, k);
    BusyUntil(s, sched, t, j, k);
    RunOneMore(s, sched, k);
    OneStep(Run(s, sched[..k]), t, sched[k].1, sched[j].1);
  }

  // ----- Two calls -----

  // Step m is the one at which this call makes its change.
  ghost predicate Changes(s: State, sched: Schedule, t: nat, j: nat, k: nat, m: nat)
    requires Bounded(s) && Fits(sched, |s.pc|)
  {
    Finished(s, sched, t, j, k) && j < m <= k && Made(s, sched, t)[m].Entry?
  }

  lemma {:induction false} ChangesDiffer(s: State, sched: Schedule, t: nat, j: nat, k: nat, m: nat, u: nat, jj: nat, kk: nat, n: nat)
    requires Bounded(s) && Fits(sched, |s.pc|)
    requires Changes(s, sched, t, j, k, m) && Changes(s, sched, u, jj, kk, n) && (t, k) != (u, kk)
    ensures m != n
  {
    hide Bounded, Run, Added;
    if t == u && k < kk {
      SpansDisjoint(IdleAt(s, sched, t), j, k, jj, kk);
    } else if t == u && kk < k {
      SpansDisjoint(IdleAt(s, sched, t), jj, kk, j, k);
    }
  }

  // An idle thread that calls is in its call, and nothing else wakes it.
  ghost predicate CallsStart(s: State, sched: Schedule)
    requires Bounded(s) && Fits(sched, |s.pc|)
  {
    forall k :: 0 <= k < |sched| ==>
      var before, after := Run(s, sched[..k]).pc[sched[k].0], Run(s, sched[..k + 1]).pc[sched[k].0];
      before.Idle? ==> if sched[k].1 == Go then after == before else !after.Idle?
  }

  /** Every run of every number of threads, from any state and without any premise: between its
      call and its return, a Push that answers true links one value, its argument, and a Pop that
      answers true pops one value, its answer; a call that answers false changes neither log, and
      Push does so only when no node is free.  Different calls make different changes. */
  lemma {:induction false} AnswersAreTrue(s: State, sched: Schedule)
    requires Bounded(s) && Fits(sched, |s.pc|)
    ensures forall t: nat, j: nat, k: nat :: Finished(s, sched, t, j, k) ==> Answered(s, sched, t, j, k)
    ensures forall t: nat, j: nat, k: nat, m: nat, u: nat, jj: nat, kk: nat, n: nat ::
              Changes(s, sched, t, j, k, m) && Changes(s, sched, u, jj, kk, n) && (t, k) != (u, kk) ==> m != n
    ensures CallsStart(s, sched)
  {
    hide Bounded, Run, Finished, Answered, Changes, Step, PhaseOf;
    forall k | 0 <= k < |sched| && Run(s, sched[..k]).pc[sched[k].0].Idle?
      ensures var before, after := Run(s, sched[..k]).pc[sched[k].0], Run(s, sched[..k + 1]).pc[sched[k].0];
        if sched[k].1 == Go then after == before else !after.Idle?
    {
      RunOneMore(s, sched, k);
      CallBegins(Run(s, sched[..k]), sched[k].0, sched[k].1);
    }
    forall t: nat, j: nat, k: nat | Finished(s, sched, t, j, k)
      ensures Answered(s, sched, t, j, k)
    {
      CallAnswers(s, sched, t, j, k);
    }
    forall t: nat, j: nat, k: nat, m: nat, u: nat, jj: nat, kk: nat, n: nat
      | Changes(s, sched, t, j, k, m) && Changes(s, sched, u, jj, kk, n) && (t, k) != (u, kk)
      ensures m != n
    {
      ChangesDiffer(s, sched, t, j, k, m, u, jj, kk, n);
    }
  }
}

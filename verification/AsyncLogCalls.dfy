/** What a call of Append does, on every run. */
module AsyncLogCalls {
  import opened CallTrace
  import opened LogFile
  import opened AsyncLog
  import opened AsyncLogInv
  import opened AsyncLogWriters
  import opened AsyncLogTheorems

  predicate Rests(c: Pc) { c.Idle? || c.Gone? || c.AssertFailed? || c.Overrun? }

  predicate ByWriter(e: Event, t: nat) { e.Writer? && e.t == t }

  // A step queues a message.  A record that only gives a buffer back has no bytes.
  function Added(s: State, r: State): Entry<string> {
    if |s.hist.texts| < |r.hist.texts| && r.hist.texts[|s.hist.texts|] != "" then Entry(r.hist.texts[|s.hist.texts|])
    else NoEntry
  }

  // What the steps of thread t queue, one after the other.
  ghost function Made(s: State, sched: Schedule, t: nat): (made: seq<Entry<string>>)
    requires Bounded(s) && Fits(sched, |s.pc|)
    ensures |made| == |sched|
  {
    seq(|sched|, i requires 0 <= i < |sched| =>
      if ByWriter(sched[i], t) then Added(Run(s, sched[..i]), Run(s, sched[..i + 1])) else NoEntry)
  }

  ghost function RestsAt(s: State, sched: Schedule, t: nat): (rests: seq<bool>)
    requires Bounded(s) && Fits(sched, |s.pc|) && t < |s.pc|
    ensures |rests| == |sched| + 1
  {
    seq(|sched| + 1, i requires 0 <= i <= |sched| => Rests(Run(s, sched[..i]).pc[t]))
  }

  // Thread t calls Append at step j, and the call ends at step k.
  ghost predicate Finished(s: State, sched: Schedule, t: nat, j: nat, k: nat)
    requires Bounded(s) && Fits(sched, |s.pc|)
  {
    && t < |s.pc| && j < |sched| && k < |sched| && ByWriter(sched[j], t) && ByWriter(sched[k], t)
    && sched[j].a.Append? && Spans(RestsAt(s, sched, t), j, k)
  }

  // The call has queued its message, once; or nothing, because the pool was empty and too many
  // buffers were outside; or nothing, because the appender had been stopped.
  ghost predicate Answered(s: State, sched: Schedule, t: nat, j: nat, k: nat)
    requires Bounded(s) && Fits(sched, |s.pc|) && Finished(s, sched, t, j, k)
  {
    var made := Made(s, sched, t);
    var m, r := Run(s, sched[..k]), Run(s, sched[..k + 1]);
    || (r.pc[t] == Idle && Once(made, j + 1, k + 1, sched[j].a.msg))
    || (r.pc[t] == Idle && Never(made, j + 1, k + 1) && m.pool == [] && Outside(m.hist.place) > 1024 * m.fix)
    || (r.pc[t] == AssertFailed && Never(made, j + 1, k + 1) && !m.running)
  }

  // ----- One step of a call -----

  // Everywhere in Append the message is still to be queued.
  function PhaseOf(c: Pc, a: Action): Phase<string> {
    match a
    case Append(x) =>
      (match c
       case First(msg) => if msg == x then Before else Elsewhere
       case Check(msg) => if msg == x then Before else Elsewhere
       case GiveBack(msg) => if msg == x then Before else Elsewhere
       case Get(msg) => if msg == x then Before else Elsewhere
       case Copy(msg) => if msg == x then Before else Elsewhere
       case Queue(msg, _) => if msg == x then Before else Elsewhere
       case _ => Elsewhere)
    case _ => Elsewhere
  }

  // A step inside the call queues nothing; the last one queues the message, or drops it, or fails.
  ghost predicate CallStep(s: State, r: State, t: nat, a: Action)
    requires t < |s.pc| == |r.pc| && a.Append?
  {
    if !Rests(r.pc[t]) then Added(s, r) == NoEntry && PhaseOf(r.pc[t], a).Before?
    else
      || (r.pc[t] == Idle && Added(s, r) == Entry(a.msg))
      || (r.pc[t] == Idle && Added(s, r) == NoEntry && s.pool == [] && s.unrecycled > 1024 * s.fix)
      || (r.pc[t] == AssertFailed && Added(s, r) == NoEntry && !s.running)
  }

  lemma RefilledKeeps(s: State)
    requires Bounded(s)
    ensures var e := Refilled(s);
      && e.hist.texts == s.hist.texts && e.pc == s.pc && |e.pc| == |e.slot|
      && (e.pool == [] ==> s.pool == [] && s.unrecycled > 1024 * s.fix)
  {
    hide PcOk, RecOk, Blank;
  }

  lemma GetBuffCall(s: State, t: nat, got: Pc, none: Pc)
    requires Bounded(s) && t < |s.pc| && PcOk(got, Buff(0)) && PcOk(none, NullBuff)
    ensures var r := GetBuff(s, t, got, none);
      && r.hist.texts == s.hist.texts && r.pc == s.pc[t := r.pc[t]] && r.pc[t] in {got, none}
      && (r.pc[t] == none && got != none ==> s.pool == [] && s.unrecycled > 1024 * s.fix)
  {
    hide PcOk, Bounded, Refilled;
    RefilledKeeps(s);
  }

  lemma AskingStep(s: State, t: nat, b: Action, a: Action)
    requires Bounded(s) && t < |s.pc| && Asks(s.pc[t]) && PhaseOf(s.pc[t], a).Before?
    ensures CallStep(s, WriterStep(s, t, b), t, a)
  {
    hide GetBuff, PcOk, Bounded;
    var msg := s.pc[t].msg;
    assert PcOk(Check(msg), Buff(0)) && PcOk(Check(msg), NullBuff) && PcOk(Copy(msg), Buff(0)) && PcOk(Idle, NullBuff) by { CheckFits(s, t); }
    if s.pc[t].First? {
      GetBuffCall(s, t, Check(msg), Check(msg));
    } else {
      GetBuffCall(s, t, Copy(msg), Idle);
    }
  }

  lemma OtherStep(s: State, t: nat, b: Action, a: Action)
    requires Bounded(s) && t < |s.pc| && WriterOk(s, s.pc[t], s.slot[t]) && !Asks(s.pc[t]) && PhaseOf(s.pc[t], a).Before?
    ensures CallStep(s, WriterStep(s, t, b), t, a)
  {
    hide GetBuff, Splice, RecOk;
  }

  lemma OneStep(s: State, t: nat, b: Action, a: Action)
    requires Bounded(s) && Writers(s) && t < |s.pc| && PhaseOf(s.pc[t], a).Before?
    ensures CallStep(s, WriterStep(s, t, b), t, a)
  {
    hide WriterStep, CallStep, PhaseOf, WriterOk;
    if Asks(s.pc[t]) {
      AskingStep(s, t, b, a);
    } else {
      assert WriterOk(s, s.pc[t], s.slot[t]);
      OtherStep(s, t, b, a);
    }
  }

  lemma CallBegins(s: State, t: nat, a: Action)
    requires Bounded(s) && t < |s.pc| && Rests(s.pc[t]) && a.Append?
    ensures var c := WriterStep(s, t, a).pc[t];
      if s.pc[t].Idle? && MsgOk(a.msg) then PhaseOf(c, a).Before? && !Rests(c) else c == s.pc[t]
  {
  }

  lemma WriterMoves(s: State, u: nat, a: Action)
    requires Bounded(s) && u < |s.pc|
    ensures var r := WriterStep(s, u, a); r.pc == s.pc[u := r.pc[u]]
  {
    hide GetBuff, Splice, RecOk, PcOk, MsgOk, Bounded;
    if Asks(s.pc[u]) {
      var msg := s.pc[u].msg;
      assert PcOk(Check(msg), Buff(0)) && PcOk(Check(msg), NullBuff) && PcOk(Copy(msg), Buff(0)) && PcOk(Idle, NullBuff) by { CheckFits(s, u); }
      GetBuffCall(s, u, Check(msg), Check(msg));
      GetBuffCall(s, u, Copy(msg), Idle);
    }
  }

  lemma Others(s: State, e: Event, t: nat)
    requires Bounded(s) && (e.Writer? ==> e.t < |s.pc|) && t < |s.pc| && !ByWriter(e, t)
    ensures Step(s, e).pc[t] == s.pc[t]
  {
    hide WriterStep, LoggerStep, Bounded;
    if e.Writer? { WriterMoves(s, e.t, e.a); }
  }

  lemma {:induction false} RunOneMore(s: State, sched: Schedule, k: nat)
    requires Bounded(s) && Fits(sched, |s.pc|) && k < |sched|
    ensures Run(s, sched[..k + 1]) == Step(Run(s, sched[..k]), sched[k])
  {
    assert sched[..k + 1][..k] == sched[..k];
  }

  // ----- A whole call -----

  lemma {:induction false} BusyUntil(s: State, sched: Schedule, t: nat, j: nat, k: nat)
    requires Bounded(s) && Fits(sched, |s.pc|) && Finished(s, sched, t, j, k)
    ensures j < k < |sched| && Rests(Run(s, sched[..j]).pc[t]) && Rests(Run(s, sched[..k + 1]).pc[t])
    ensures forall i :: j < i <= k ==> !Rests(Run(s, sched[..i]).pc[t])
  {
    hide Bounded, Run, Rests;
    assert forall i :: 0 <= i <= |sched| ==> RestsAt(s, sched, t)[i] == Rests(Run(s, sched[..i]).pc[t]);
  }

  // The invariant holds along the run.
  ghost predicate InvAlong(s: State, sched: Schedule)
    requires Bounded(s) && Fits(sched, |s.pc|)
  {
    forall i :: 0 <= i <= |sched| ==> Writers(Run(s, sched[..i])) && CountOk(Run(s, sched[..i]))
  }

  // A step seen from the call of thread t, unless it ends the call.
  lemma StepPhase(s: State, e: Event, t: nat, a: Action)
    requires Bounded(s) && Writers(s) && (e.Writer? ==> e.t < |s.pc|) && t < |s.pc| && PhaseOf(s.pc[t], a).Before?
    requires a.Append? && !Rests(Step(s, e).pc[t])
    ensures var r := Step(s, e);
      PhaseOf(r.pc[t], a).Before? && (if ByWriter(e, t) then Added(s, r) else NoEntry) == NoEntry
  {
    hide Bounded, Writers, WriterStep, LoggerStep, PhaseOf, Added, Rests;
    if ByWriter(e, t) {
      OneStep(s, t, e.a, a);
      CallStepInside(s, WriterStep(s, t, e.a), t, a);
    } else {
      Others(s, e, t);
    }
  }

  lemma CallStepInside(s: State, r: State, t: nat, a: Action)
    requires t < |s.pc| == |r.pc| && PhaseOf(s.pc[t], a).Before? && a.Append? && CallStep(s, r, t, a) && !Rests(r.pc[t])
    ensures Added(s, r) == NoEntry && PhaseOf(r.pc[t], a).Before?
  {
  }

  // Before its last step the call has queued nothing.
  lemma {:induction false} QueuesLast(s: State, sched: Schedule, t: nat, j: nat, k: nat)
    requires Bounded(s) && Fits(sched, |s.pc|) && InvAlong(s, sched) && Finished(s, sched, t, j, k)
    ensures PhaseOf(Run(s, sched[..k]).pc[t], sched[j].a).Before? && Never(Made(s, sched, t), j + 1, k)
    ensures Run(s, sched[..j]).pc[t].Idle? && MsgOk(sched[j].a.msg)
  {
    hide Bounded, Run, Step, Once, Never, Added, PhaseOf, PhaseStep, Spans, Writers, CountOk, Rests, MsgOk;
    var a := sched[j].a;
    BusyUntil(s, sched, t, j, k);
    var phase := seq(|sched| + 1, i requires 0 <= i <= |sched| => PhaseOf(Run(s, sched[..i]).pc[t], a));
    RunOneMore(s, sched, j);
    StartsCall(Run(s, sched[..j]), sched[j], t);
    forall i {:trigger Made(s, sched, t)[i]} | j + 1 <= i < k && !phase[i].Elsewhere?
      ensures PhaseStep(phase[i], Made(s, sched, t)[i], phase[i + 1])
    {
      RunOneMore(s, sched, i);
      PhaseIsBefore(Run(s, sched[..i]).pc[t], a);
      StepPhase(Run(s, sched[..i]), sched[i], t, a);
      BothBefore(phase[i], Made(s, sched, t)[i], phase[i + 1]);
    }
    CallTells(Made(s, sched, t), phase, j + 1, k);
    PhaseIsBefore(Run(s, sched[..k]).pc[t], a);
  }

  lemma StartsCall(s: State, e: Event, t: nat)
    requires Bounded(s) && t < |s.pc| && ByWriter(e, t) && Rests(s.pc[t]) && e.a.Append? && !Rests(Step(s, e).pc[t])
    ensures PhaseOf(Step(s, e).pc[t], e.a).Before? && s.pc[t].Idle? && MsgOk(e.a.msg)
  {
    hide Bounded, WriterStep, MsgOk;
    CallBegins(s, t, e.a);
  }

  lemma PhaseIsBefore(c: Pc, a: Action)
    ensures !PhaseOf(c, a).Elsewhere? ==> PhaseOf(c, a) == Before
  {
  }

  lemma BothBefore(p: Phase<string>, made: Entry<string>, q: Phase<string>)
    requires p.Before? && made == NoEntry && q.Before?
    ensures PhaseStep(p, made, q)
  {
  }

  lemma NeverMore<E>(made: seq<Entry<E>>, lo: nat, hi: nat)
    requires lo <= hi < |made| && Never(made, lo, hi)
    ensures made[hi].NoEntry? ==> Never(made, lo, hi + 1)
    ensures made[hi].Entry? ==> Once(made, lo, hi + 1, made[hi].e)
  {
  }

  lemma {:induction false} CallAnswers(s: State, sched: Schedule, t: nat, j: nat, k: nat)
    requires Bounded(s) && Fits(sched, |s.pc|) && InvAlong(s, sched) && Finished(s, sched, t, j, k)
    ensures Answered(s, sched, t, j, k)
  {
    hide Bounded, Run, WriterStep, LoggerStep, Once, Never, Added, PhaseOf, Writers, Outside, Rests;
    var a := sched[j].a;
    BusyUntil(s, sched, t, j, k);
    QueuesLast(s, sched, t, j, k);
    NeverMore(Made(s, sched, t), j + 1, k);
    RunOneMore(s, sched, k);
    var m := Run(s, sched[..k]);
    OneStep(m, t, sched[k].a, a);
    assert Writers(m) && CountOk(m);
  }

  // ----- Two calls -----

  // Step m is the one at which this call queues its message.
  ghost predicate Queues(s: State, sched: Schedule, t: nat, j: nat, k: nat, m: nat)
    requires Bounded(s) && Fits(sched, |s.pc|)
  {
    Finished(s, sched, t, j, k) && j < m <= k && Made(s, sched, t)[m].Entry?
  }

  lemma {:induction false} QueuesDiffer(s: State, sched: Schedule, t: nat, j: nat, k: nat, m: nat, u: nat, jj: nat, kk: nat, n: nat)
    requires Bounded(s) && Fits(sched, |s.pc|)
    requires Queues(s, sched, t, j, k, m) && Queues(s, sched, u, jj, kk, n) && (t, k) != (u, kk)
    ensures m != n
  {
    hide Bounded, Run, Added;
    if t == u && k < kk {
      SpansDisjoint(RestsAt(s, sched, t), j, k, jj, kk);
    } else if t == u && kk < k {
      SpansDisjoint(RestsAt(s, sched, t), jj, kk, j, k);
    }
  }

  // An idle thread that calls Append with a message is in its call.
  ghost predicate CallsStart(s: State, sched: Schedule)
    requires Bounded(s) && Fits(sched, |s.pc|)
  {
    forall k :: 0 <= k < |sched| && sched[k].Writer? && sched[k].a.Append? && MsgOk(sched[k].a.msg) ==>
      var t := sched[k].t; Run(s, sched[..k]).pc[t].Idle? ==> !Rests(Run(s, sched[..k + 1]).pc[t])
  }

  lemma {:induction false} CallStarts(s: State, sched: Schedule)
    requires Bounded(s) && Fits(sched, |s.pc|)
    ensures CallsStart(s, sched)
  {
    hide Bounded, Run, WriterStep, LoggerStep, MsgOk, PhaseOf;
    forall k | 0 <= k < |sched| && sched[k].Writer? && sched[k].a.Append? && MsgOk(sched[k].a.msg)
      ensures var t := sched[k].t; Run(s, sched[..k]).pc[t].Idle? ==> !Rests(Run(s, sched[..k + 1]).pc[t])
    {
      RunOneMore(s, sched, k);
      if Run(s, sched[..k]).pc[sched[k].t].Idle? { CallBegins(Run(s, sched[..k]), sched[k].t, sched[k].a); }
    }
  }

  lemma {:induction false} InvHolds(fix: nat, before: string, threads: nat, sched: Schedule)
    requires 1 <= fix && Fits(sched, threads)
    ensures InvAlong(Init(fix, before, threads), sched)
  {
    hide Bounded, Step, Run, Writers, CountOk;
    assert |Init(fix, before, threads).pc| == threads;
    forall i | 0 <= i <= |sched|
      ensures var m := Run(Init(fix, before, threads), sched[..i]); Writers(m) && CountOk(m)
    {
      Reached(fix, before, threads, sched[..i]);
      InvParts(Run(Init(fix, before, threads), sched[..i]), before);
    }
  }

  lemma InvParts(s: State, before: string)
    requires Inv(s, before)
    ensures Bounded(s) && Writers(s) && CountOk(s)
  {
  }

  /** Any number of writers, any schedule: a call of Append that has ended has queued its message,
      exactly once, between its call and its end; or it has queued nothing, and then it ended where
      the pool was empty and more than 1024 * m_fix_sz buffers were outside, or it came after Stop
      and its assertion failed.  Different calls have queued different messages of the log. */
  lemma {:induction false} AppendQueuesOnce(fix: nat, before: string, threads: nat, sched: Schedule)
    requires 1 <= fix && Fits(sched, threads)
    ensures var s := Init(fix, before, threads);
      && (forall t: nat, j: nat, k: nat :: Finished(s, sched, t, j, k) ==> Answered(s, sched, t, j, k))
      && (forall t: nat, j: nat, k: nat, m: nat, u: nat, jj: nat, kk: nat, n: nat ::
            Queues(s, sched, t, j, k, m) && Queues(s, sched, u, jj, kk, n) && (t, k) != (u, kk) ==> m != n)
      && CallsStart(s, sched)
  {
    hide Bounded, Run, Finished, Answered, Queues, CallsStart, InvAlong;
    var s := Init(fix, before, threads);
    assert |s.pc| == threads;
    InvHolds(fix, before, threads, sched);
    CallStarts(s, sched);
    forall t: nat, j: nat, k: nat | Finished(s, sched, t, j, k)
      ensures Answered(s, sched, t, j, k)
    {
      CallAnswers(s, sched, t, j, k);
    }
    forall t: nat, j: nat, k: nat, m: nat, u: nat, jj: nat, kk: nat, n: nat
      | Queues(s, sched, t, j, k, m) && Queues(s, sched, u, jj, kk, n) && (t, k) != (u, kk)
      ensures m != n
    {
      QueuesDiffer(s, sched, t, j, k, m, u, jj, kk, n);
    }
  }
}

/** What becomes of the messages and of the buffers behind the log worker's queue. */
module LogPrints {
  import opened NodeList
  import opened ListQueue
  import opened ListQueueInv
  import opened ListQueueSound
  import opened LogWorker

  // The buffers of these lines.
  function Buffers(shown: seq<Line>): (bs: seq<int>)
    ensures |bs| == |shown|
  {
    seq(|shown|, i requires 0 <= i < |shown| => shown[i].b)
  }

  // The buffers that some thread has popped and has not dealt with yet.
  function Taken(at: seq<BufferAt>): set<int> { set b: int | 0 <= b < |at| && at[b].TakenBy? }

  // Every popped buffer has been dealt with once, or is in the hands of its flushing thread; and
  // the buffers that are gone are those of lines that could not be printed.
  ghost predicate Accounted(s: LogState) {
    && multiset(s.q.hist.popped) == multiset(Buffers(s.shown)) + multiset(Taken(s.at))
    && (forall i :: 0 <= i < |s.shown| ==> s.shown[i].b < |s.at|)
    && (forall b :: 0 <= b < |s.at| ==> (s.at[b] == Dropped <==> Line(b, false) in s.shown))
  }

  // ----- One step -----

  lemma PoppedStays(q: ListQueue.State, t: nat, a: ListQueue.Action)
    requires Bounded(q) && t < |q.pc| && !PopsNow(q, t)
    ensures Step(q, t, a).hist.popped == q.hist.popped
  {
    hide PcOk;
  }

  lemma SameAccounts(s: LogState, r: LogState)
    requires Accounted(s) && r.q.hist.popped == s.q.hist.popped && r.shown == s.shown && |r.at| == |s.at|
    requires forall b :: 0 <= b < |s.at| ==> (r.at[b].TakenBy? <==> s.at[b].TakenBy?) && (r.at[b] == Dropped <==> s.at[b] == Dropped)
    ensures Accounted(r)
  {
    assert Taken(r.at) == Taken(s.at);
  }

  lemma PopAccounts(s: LogState, r: LogState, t: nat, v: nat)
    requires Accounted(s) && v < |s.at| && s.at[v].Queued?
    requires r.q.hist.popped == s.q.hist.popped + [v] && r.shown == s.shown && r.at == s.at[v := TakenBy(t)]
    ensures Accounted(r)
  {
    assert Taken(r.at) == Taken(s.at) + {v as int};
    assert v !in Taken(s.at);
  }

  lemma PrintAccounts(s: LogState, r: LogState, t: nat, b: nat, good: bool)
    requires Accounted(s) && b < |s.at| && s.at[b] == TakenBy(t)
    requires r.q.hist.popped == s.q.hist.popped && r.shown == s.shown + [Line(b, good)]
    requires r.at == s.at[b := if good then InPool else Dropped]
    ensures Accounted(r)
  {
    assert Taken(s.at) == Taken(r.at) + {b as int};
    assert b !in Taken(r.at);
    assert Buffers(r.shown) == Buffers(s.shown) + [b];
    assert multiset(Taken(s.at)) == multiset(Taken(r.at)) + multiset{b as int};
    forall c | 0 <= c < |r.at|
      ensures r.at[c] == Dropped <==> Line(c, false) in r.shown
    {
      assert s.at[c] == Dropped <==> Line(c, false) in s.shown;
    }
  }

  lemma GoAccounts(s: LogState, t: nat)
    requires CapInv(s) && Accounted(s) && t < |s.client| && InQueueCode(s.client[t]) && !s.q.pc[t].Idle?
    ensures Accounted(QueueGo(s, t))
  {
    hide Inv, Bounded, Accounted;
    assert ClientOk(s, t);
    assert Bounded(s.q);
    var r := QueueGo(s, t);
    if PopsNow(s.q, t) {
      PopFacts(s.q, t);
      var v := s.q.pc[t].value;
      assert s.at[v] == Queued(s.q.hist.o + 1);
      assert r.q.hist.popped == s.q.hist.popped + [v] by { PopAdds(s.q, t); }
      PopAccounts(s, r, t, v);
    } else {
      PoppedStays(s.q, t, Go);
      SameAccounts(s, r);
    }
  }

  lemma PopAdds(q: ListQueue.State, t: nat)
    requires Bounded(q) && t < |q.pc| && PopsNow(q, t)
    ensures Step(q, t, Go).hist.popped == q.hist.popped + [q.pc[t].value]
  {
  }

  lemma StepAccounts(s: LogState, t: nat, a: LogAction)
    requires CapInv(s) && Accounted(s) && t < |s.client|
    ensures Accounted(LogStep(s, t, a))
  {
    hide Inv, Bounded, Accounted, Step;
    assert ClientOk(s, t);
    assert Bounded(s.q);
    var r := LogStep(s, t, a);
    if InQueueCode(s.client[t]) && !s.q.pc[t].Idle? {
      GoAccounts(s, t);
    } else {
      var b := StepOfQueue(s, t, a);
      IdlePops(s.q, t);
      PoppedStays(s.q, t, b);
      assert r.q.hist.popped == s.q.hist.popped;
      if s.client[t].Printing? && a.Print? {
        PrintAccounts(s, r, t, s.client[t].b, a.good);
      } else {
        SameAccounts(s, r);
      }
    }
  }

  lemma IdlePops(q: ListQueue.State, t: nat)
    requires Bounded(q) && t < |q.pc|
    ensures q.pc[t].Idle? ==> !PopsNow(q, t)
  {
  }

  lemma InitAccounts(size: nat, seed: nat, data: seq<int>, threads: nat)
    requires |data| == size + 1
    ensures Accounted(LogInit(size, seed, data, threads))
  {
    var s := LogInit(size, seed, data, threads);
    assert Taken(s.at) == {} && Buffers(s.shown) == [];
  }

  lemma {:induction false} AccountsRun(s: LogState, sched: LogSchedule)
    requires Fine(s) && LogFits(sched, |s.q.pc|) && CapInv(s) && Accounted(s) && LogClean(s, sched)
    ensures Accounted(LogRun(s, sched)) && CapInv(LogRun(s, sched))
  {
    hide Fine, LogStep, BadStep, CapInv, Accounted;
    if sched != [] {
      var k := |sched| - 1;
      assert forall j :: 0 <= j <= k ==> sched[..k][..j] == sched[..j];
      AccountsRun(s, sched[..k]);
      AccountsStep(LogRun(s, sched[..k]), sched[k].0, sched[k].1);
    }
  }

  lemma AccountsStep(s: LogState, t: nat, a: LogAction)
    requires Fine(s) && CapInv(s) && Accounted(s) && t < |s.q.pc| && !BadStep(s.q, t)
    ensures Accounted(LogStep(s, t, a)) && CapInv(LogStep(s, t, a))
  {
    hide Accounted, LogStep, BadStep;
    StepAccounts(s, t, a);
    CapStepFine(s, t, a);
  }

  /** Any number of logging and flushing threads, every run without a bad step of the queue: each
      buffer that was popped has been dealt with once, or a flushing thread still has it; so no
      message is printed more often than it was logged; and the buffers that have left the pool for
      good are exactly those of lines that met a bad stream. */
  lemma {:induction false} EachLineOnce(size: nat, seed: nat, data: seq<int>, threads: nat, sched: LogSchedule)
    requires |data| == size + 1 && LogFits(sched, threads)
    requires LogClean(LogInit(size, seed, data, threads), sched)
    ensures var s := LogRun(LogInit(size, seed, data, threads), sched);
      && multiset(s.q.hist.popped) == multiset(Buffers(s.shown)) + multiset(Taken(s.at))
      && multiset(Buffers(s.shown)) <= multiset(s.q.hist.pushed)
      && (forall b :: 0 <= b < |s.at| ==> (s.at[b] == Dropped <==> Line(b, false) in s.shown))
  {
    hide CapInv, LogStep, BadStep, Bounded;
    InitCap(size, seed, data, threads);
    InitAccounts(size, seed, data, threads);
    AccountsRun(LogInit(size, seed, data, threads), sched);
    PoppedPrefix(LogRun(LogInit(size, seed, data, threads), sched));
  }

  lemma PoppedPrefix(s: LogState)
    requires CapInv(s)
    ensures multiset(s.q.hist.popped) <= multiset(s.q.hist.pushed)
  {
    var p, q := s.q.hist.popped, s.q.hist.pushed;
    assert p == q[..|p|] by { LogsPrefix(s.q); }
    assert q == q[..|p|] + q[|p|..];
  }

  lemma LogsPrefix(q: ListQueue.State)
    requires Inv(q)
    ensures |q.hist.popped| <= |q.hist.pushed| && q.hist.popped == q.hist.pushed[..|q.hist.popped|]
  {
  }

  // ----- One flushing thread: the lines come out in the order of the queue -----

  ghost predicate OnlyFlusher(sched: LogSchedule, f: nat) {
    forall k :: 0 <= k < |sched| && sched[k].1.Flush? ==> sched[k].0 == f
  }

  // The buffer that thread f has popped and has not dealt with yet.
  function InFlight(s: LogState, f: nat): seq<int>
    requires Fine(s)
  {
    if f >= |s.client| then []
    else
      match s.client[f]
      case Flushing => if Carried(s.q.pc[f]) >= 0 && !InPush(s.q.pc[f]) then [Carried(s.q.pc[f])] else []
      case Printing(b) => [b]
      case _ => []
  }

  ghost predicate FlushesAlone(s: LogState, f: nat)
    requires Fine(s)
  {
    && (forall t :: 0 <= t < |s.client| && t != f ==> !s.client[t].Flushing? && !s.client[t].Printing?)
    && s.q.hist.popped == Buffers(s.shown) + InFlight(s, f)
  }

  lemma OtherAlone(s: LogState, t: nat, a: LogAction, f: nat)
    requires CapInv(s) && FlushesAlone(s, f) && t < |s.client| && t != f && !a.Flush?
    ensures FlushesAlone(LogStep(s, t, a), f)
  {
    hide Inv, Bounded, Step;
    var r := LogStep(s, t, a);
    assert ClientOk(s, t);
    assert Bounded(s.q);
    var b := StepOfQueue(s, t, a);
    NoPop(s, t);
    PoppedStays(s.q, t, b);
    OnlyMoves(s.q, t, b);
    assert r.shown == s.shown;
  }

  lemma NoPop(s: LogState, t: nat)
    requires Fine(s) && t < |s.client| && ClientOk(s, t) && !s.client[t].Flushing?
    ensures !PopsNow(s.q, t)
  {
  }

  lemma FlusherGoes(s: LogState, f: nat)
    requires CapInv(s) && FlushesAlone(s, f) && f < |s.client| && s.client[f].Flushing? && !s.q.pc[f].Idle?
    ensures var r := QueueGo(s, f);
      && r.client == s.client && r.shown == s.shown
      && r.q.hist.popped == Buffers(r.shown) + InFlight(r, f)
  {
    hide Inv, Bounded, Step;
    assert ClientOk(s, f);
    assert Bounded(s.q);
    PopCarries(s.q, f);
    if PopsNow(s.q, f) {
      PopFacts(s.q, f);
      PopAdds(s.q, f);
      assert s.at[s.q.pc[f].value] == Queued(s.q.hist.o + 1);
      PopKeepsValue(s.q, f);
    } else {
      PoppedStays(s.q, f, Go);
      CarriedInPop(s.q.pc[f]);
      CarriedInPop(Step(s.q, f, Go).pc[f]);
      if IsRelease(s.q.pc[f]) { ReleaseGoesOn(s.q, f); }
    }
  }

  lemma ReleaseGoesOn(q: ListQueue.State, f: nat)
    requires Bounded(q) && f < |q.pc| && IsRelease(q.pc[f])
    ensures var c := Step(q, f, Go).pc[f]; IsRelease(c) || (c.Idle? && c.result.Popped?)
  {
  }

  lemma CarriedInPop(c: Pc)
    ensures IsPop(c) || c == Idle(PopNone) ==> Carried(c) == -1
    ensures IsPop(c) || IsRelease(c) || c.Idle? ==> !InPush(c)
  {
  }

  lemma PopKeepsValue(q: ListQueue.State, f: nat)
    requires Bounded(q) && f < |q.pc| && PopsNow(q, f)
    ensures Step(q, f, Go).pc[f] == RelId(q.pc[f].out.node, q.pc[f].value) && Carried(q.pc[f]) == -1
  {
  }

  lemma FlusherCalls(s: LogState, f: nat, a: LogAction)
    requires CapInv(s) && FlushesAlone(s, f) && f < |s.client| && (s.q.pc[f].Idle? || !s.client[f].Flushing?)
    ensures var r := LogStep(s, f, a); r.q.hist.popped == Buffers(r.shown) + InFlight(r, f)
  {
    hide Inv, Bounded;
    assert ClientOk(s, f);
    assert Bounded(s.q);
    var r := LogStep(s, f, a);
    var b := StepOfQueue(s, f, a);
    assert !PopsNow(s.q, f) by { if s.client[f].Flushing? { IdlePops(s.q, f); } else { NoPop(s, f); } }
    PoppedStays(s.q, f, b);
    if s.client[f].Printing? && a.Print? {
      assert Buffers(r.shown) == Buffers(s.shown) + [s.client[f].b];
    }
  }

  lemma AloneStep(s: LogState, t: nat, a: LogAction, f: nat)
    requires Fine(s) && CapInv(s) && FlushesAlone(s, f) && t < |s.q.pc| && (a.Flush? ==> t == f)
    ensures FlushesAlone(LogStep(s, t, a), f)
  {
    hide CapInv, Bounded, Step, InFlight, QueueGo, QueueCall;
    var r := LogStep(s, t, a);
    assert |s.client| == |s.q.pc|;
    if t != f {
      OtherAlone(s, t, a, f);
    } else {
      var b := StepOfQueue(s, t, a);
      if s.client[f].Flushing? && !s.q.pc[f].Idle? {
        FlusherGoes(s, f);
        assert r == QueueGo(s, f) by { GoesOn(s, f, a); }
      } else {
        FlusherCalls(s, f, a);
      }
    }
  }

  lemma GoesOn(s: LogState, f: nat, a: LogAction)
    requires Fine(s) && f < |s.client| && s.client[f].Flushing? && !s.q.pc[f].Idle?
    ensures LogStep(s, f, a) == QueueGo(s, f)
  {
  }

  lemma {:induction false} AloneRun(s: LogState, sched: LogSchedule, f: nat)
    requires Fine(s) && LogFits(sched, |s.q.pc|) && CapInv(s) && FlushesAlone(s, f) && LogClean(s, sched) && OnlyFlusher(sched, f)
    ensures FlushesAlone(LogRun(s, sched), f) && CapInv(LogRun(s, sched))
  {
    hide Fine, LogStep, BadStep, CapInv, FlushesAlone;
    if sched != [] {
      var k := |sched| - 1;
      assert forall j :: 0 <= j <= k ==> sched[..k][..j] == sched[..j];
      AloneRun(s, sched[..k], f);
      AloneStep(LogRun(s, sched[..k]), sched[k].0, sched[k].1, f);
      CapStepFine(LogRun(s, sched[..k]), sched[k].0, sched[k].1);
    }
  }

  /** With one flushing thread and any number of logging ones, on every run without a bad step of
      the queue, the lines come out in the order of the pops, which is the order of the pushes:
      what was pushed starts with the lines dealt with, followed by the one in the thread's hands. */
  lemma {:induction false} LinesInOrder(size: nat, seed: nat, data: seq<int>, threads: nat, sched: LogSchedule, f: nat)
    requires |data| == size + 1 && LogFits(sched, threads) && OnlyFlusher(sched, f)
    requires LogClean(LogInit(size, seed, data, threads), sched)
    ensures var s := LogRun(LogInit(size, seed, data, threads), sched);
      && Fine(s) && |InFlight(s, f)| <= 1
      && s.q.hist.popped == Buffers(s.shown) + InFlight(s, f) && s.q.hist.popped <= s.q.hist.pushed
  {
    hide CapInv, LogStep, BadStep, Bounded, FlushesAlone;
    InitCap(size, seed, data, threads);
    InitAlone(size, seed, data, threads, f);
    AloneRun(LogInit(size, seed, data, threads), sched, f);
    AloneOrder(LogRun(LogInit(size, seed, data, threads), sched), f);
  }

  lemma InitAlone(size: nat, seed: nat, data: seq<int>, threads: nat, f: nat)
    requires |data| == size + 1
    ensures FlushesAlone(LogInit(size, seed, data, threads), f)
  {
  }

  lemma AloneOrder(s: LogState, f: nat)
    requires CapInv(s) && FlushesAlone(s, f)
    ensures s.q.hist.popped == Buffers(s.shown) + InFlight(s, f) && s.q.hist.popped <= s.q.hist.pushed
  {
    LogsPrefix(s.q);
  }

  // ----- A line that is printed gives its buffer back -----

  /** Whenever a line meets a good stream it is printed from its thread's buffer, and that buffer is
      free for the next message; with a bad stream the buffer is gone. */
  lemma {:induction false} PrintingFreesBuffer(size: nat, seed: nat, data: seq<int>, threads: nat, sched: LogSchedule, t: nat, good: bool)
    requires |data| == size + 1 && LogFits(sched, threads) && t < threads
    requires LogClean(LogInit(size, seed, data, threads), sched)
    ensures var s := LogRun(LogInit(size, seed, data, threads), sched);
      && Fine(s) && t < |s.client|
      && (s.client[t].Printing? ==>
            var r, b := LogStep(s, t, Print(good)), s.client[t].b;
            b < |s.at| && s.at[b] == TakenBy(t) && r.shown == s.shown + [Line(b, good)] && b < |r.at| && (r.at[b] == InPool <==> good))
  {
    hide CapInv, BadStep, Bounded, Step;
    InitCap(size, seed, data, threads);
    CapRun(LogInit(size, seed, data, threads), sched);
    var s := LogRun(LogInit(size, seed, data, threads), sched);
    assert |s.client| == threads by { assert |LogInit(size, seed, data, threads).q.pc| == threads; }
    if s.client[t].Printing? { PrinterHas(s, t); }
  }

  lemma PrinterHas(s: LogState, t: nat)
    requires CapInv(s) && t < |s.client| && s.client[t].Printing?
    ensures s.client[t].b < |s.at| && s.at[s.client[t].b] == TakenBy(t)
  {
    assert ClientOk(s, t);
  }
}

/**
  The capacity argument of sys/src/Logger.cc: a pool of `size` buffers feeds a linked queue
  with size + 1 nodes, and DoLog never finds the queue full.
 */
module LogWorker {
  import opened NodeList
  import opened ListQueue
  import opened ListQueueInv
  import opened ListQueueSound
  import ListQueueFresh
  import ListQueueOnePusher
  import ListQueueTail
  import ListQueueTheorems

  // What a thread is doing: Log with buffer b (and how often DoLog has retried), or Flush.
  datatype Client = Ready | Logging(b: nat, retry: nat) | Flushing | Printing(b: nat)

  // Where each buffer is: in the pool buffer_, or, as history, who has it.
  datatype BufferAt = InPool | LoggedBy(thread: nat) | Queued(index: nat) | TakenBy(thread: nat) | Dropped

  // A line that Flush has printed from buffer b, or has not printed because its stream is bad.
  datatype Line = Line(b: nat, good: bool)

  // History: `shown` lists the lines in the order in which Flush has dealt with them.
  datatype LogState = LogState(q: ListQueue.State, client: seq<Client>, at: seq<BufferAt>, failed: nat, shown: seq<Line>)

  datatype LogAction = Log(b: nat) | Flush | Print(good: bool) | Proceed

  predicate Fine(s: LogState) { Bounded(s.q) && |s.client| == |s.q.pc| }

  // LogWorker's constructor: buffer_ has `size` buffers and pendingMsg_ has size_ + 1 nodes.
  function LogInit(size: nat, seed: nat, data: seq<int>, threads: nat): (s: LogState)
    requires |data| == size + 1
    ensures Fine(s)
  {
    LogState(ListQueue.Init(size + 1, seed, data, threads),
          seq(threads, t => Ready), seq(size, b => InPool), 0, [])
  }

  function Put(s: LogState, t: nat, c: Client): LogState
    requires t < |s.client|
  {
    s.(client := s.client[t := c])
  }

  function SetAt(at: seq<BufferAt>, b: int, p: BufferAt): seq<BufferAt> {
    if 0 <= b < |at| then at[b := p] else at
  }

  // What a step of the queue does to the place of the buffer it carries.
  function Moved(s: LogState, t: nat): seq<BufferAt>
    requires Fine(s) && t < |s.q.pc|
  {
    match s.q.pc[t]
    case TailLink(v, _, _, tail) =>
      if s.q.next[tail.node] == Nil then SetAt(s.at, v, Queued(|s.q.hist.link|)) else s.at
    case PopCas(out, _, _, v) =>
      if s.q.outp == out then SetAt(s.at, v, TakenBy(t)) else s.at
    case _ => s.at
  }

  function QueueGo(s: LogState, t: nat): (r: LogState)
    requires Fine(s) && t < |s.q.pc|
    ensures Fine(r) && |r.q.pc| == |s.q.pc|
  {
    s.(q := ListQueue.Step(s.q, t, Go), at := Moved(s, t))
  }

  function QueueCall(s: LogState, t: nat, a: ListQueue.Action): (r: LogState)
    requires Fine(s) && t < |s.q.pc|
    ensures Fine(r) && |r.q.pc| == |s.q.pc|
  {
    s.(q := ListQueue.Step(s.q, t, a))
  }

  function LogStep(s: LogState, t: nat, a: LogAction): (r: LogState)
    requires Fine(s) && t < |s.q.pc|
    ensures Fine(r) && |r.q.pc| == |s.q.pc|
  {
    match s.client[t]
    case Ready =>
      (match a
       case Log(b) =>
         // AllocBuffer, then DoLog calls Push
         if b < |s.at| && s.at[b] == InPool then
           QueueCall(Put(s, t, Logging(b, 0)), t, CallPush(b)).(at := SetAt(s.at, b, LoggedBy(t)))
         else s
       case Flush => QueueCall(Put(s, t, Flushing), t, CallPop)
       case _ => s)
    case Logging(b, retry) =>
      (match s.q.pc[t]
       case Idle(result) =>
         // at the 33rd attempt DoLog answers 0 even if that attempt has pushed
         if retry >= 32 then Put(s, t, Ready).(failed := s.failed + 1)
         else if result.PushFull? then QueueCall(Put(s, t, Logging(b, retry + 1)), t, CallPush(b))
         else Put(s, t, Ready)
       case _ => QueueGo(s, t))
    case Flushing =>
      (match s.q.pc[t]
       case Idle(Popped(v)) => if v < 0 then s else Put(s, t, Printing(v))
       case Idle(_) => Put(s, t, Ready)
       case _ => QueueGo(s, t))
    case Printing(b) =>
      (match a
       case Print(good) =>
         // a stream that is not good skips ReleaseBuffer
         QueueCall(Put(s, t, Flushing), t, CallPop).(
           at := SetAt(s.at, b, if good then InPool else Dropped), shown := s.shown + [Line(b, good)])
       case _ => s)
  }

  // The buffer that a thread carries through Push or Pop, or -1.
  function Carried(c: Pc): int {
    match c
    case AllocRead(v) => v
    case AllocNext(v, _) => v
    case AllocCas(v, _, _) => v
    case AllocClear(v, _) => v
    case PushStore(v, _) => v
    case PushClear(v, _) => v
    case PushId(v, _) => v
    case TailRead(v, _, _) => v
    case TailNext(v, _, _, _) => v
    case TailHelp(v, _, _, _, _) => v
    case TailLink(v, _, _, _) => v
    case RelId(_, v) => v
    case RelRead(_, v, _) => v
    case RelStore(_, v, _, _) => v
    case RelCas(_, v, _, _) => v
    case Idle(Popped(v)) => v
    case _ => -1
  }

  predicate InPush(c: Pc) { IsAlloc(c) || IsPush(c) }

  // What the client's activity says about its thread and its buffer.
  ghost predicate ClientOk(s: LogState, t: nat)
    requires Fine(s) && t < |s.client|
  {
    var c := s.q.pc[t];
    match s.client[t]
    case Ready => c.Idle? && !c.result.PushFull?
    case Logging(b, retry) =>
      && retry == 0 && b < |s.at|
      && (InPush(c) || c == Idle(PushDone))
      && (InPush(c) && !c.TailSwing? ==> Carried(c) == b && s.at[b] == LoggedBy(t))
    case Flushing =>
      && (IsPop(c) || IsRelease(c) || c == Idle(PopNone) || (c.Idle? && c.result.Popped?))
      && (IsRelease(c) || (c.Idle? && c.result.Popped?) ==>
            0 <= Carried(c) < |s.at| && s.at[Carried(c)] == TakenBy(t))
    case Printing(b) => c.Idle? && !c.result.PushFull? && b < |s.at| && s.at[b] == TakenBy(t)
  }

  ghost predicate CapInv(s: LogState) {
    && Fine(s) && Inv(s.q) && |s.q.next| == |s.at| + 1 && s.failed == 0
    && (forall t :: 0 <= t < |s.client| ==> ClientOk(s, t))
    && (forall k :: s.q.hist.o < k < |s.q.hist.link| ==>
          0 <= s.q.hist.val[k] < |s.at| && s.at[s.q.hist.val[k]] == Queued(k))
  }

  lemma InitCap(size: nat, seed: nat, data: seq<int>, threads: nat)
    requires |data| == size + 1
    ensures CapInv(LogInit(size, seed, data, threads))
  {
    var s := LogInit(size, seed, data, threads);
    InitInv(size + 1, seed, data, threads);
    assert forall t :: 0 <= t < threads ==> s.q.pc[t] == Idle(NoCall);
  }

  // ----- The pigeonhole: a thread that holds a buffer and needs a node finds one -----

  // The buffer that keeps a node from being free; the dummy is charged to thread t's buffer.
  ghost function Charge(s: LogState, t: nat, n: nat): int
    requires CapInv(s) && t < |s.client| && n < |s.q.next| && !s.q.hist.place[n].InFree?
  {
    match s.q.hist.place[n]
    case InQueue(k) => if k == s.q.hist.o then Carried(s.q.pc[t]) else s.q.hist.val[k]
    case HeldBy(u) => Carried(s.q.pc[u])
  }

  lemma ChargeBounds(s: LogState, t: nat, n: nat)
    requires CapInv(s) && t < |s.client| && s.client[t].Logging? && s.q.pc[t].AllocRead?
    requires n < |s.q.next| && !s.q.hist.place[n].InFree?
    ensures 0 <= Charge(s, t, n) < |s.at|
    ensures match s.q.hist.place[n]
            case InQueue(k) => s.at[Charge(s, t, n)] == if k == s.q.hist.o then LoggedBy(t) else Queued(k)
            case HeldBy(u) => u != t && s.at[Charge(s, t, n)] in {LoggedBy(u), TakenBy(u)}
  {
    match s.q.hist.place[n]
    case InQueue(k) =>
      assert ClientOk(s, t);
    case HeldBy(u) =>
      assert HeldNode(s.q.pc[u]) == n;
      assert ClientOk(s, u);
  }

  lemma {:induction false} NeverFull(s: LogState, t: nat)
    requires CapInv(s) && t < |s.client| && s.client[t].Logging? && s.q.pc[t].AllocRead?
    ensures s.q.head != Nil
  {
    if s.q.head == Nil {
      var max := |s.q.next|;
      assert forall n :: 0 <= n < max ==> !s.q.hist.place[n].InFree?;
      forall n | 0 <= n < max
        ensures 0 <= Charge(s, t, n) < |s.at|
      {
        ChargeBounds(s, t, n);
      }
      var charges: seq<nat> := seq(max, n requires 0 <= n < max => Charge(s, t, n));
      forall m, n | 0 <= m < n < max
        ensures charges[m] != charges[n]
      {
        ChargeDistinct(s, t, m, n);
      }
      DistinctFit(charges, |s.at|);
    }
  }

  lemma ChargeDistinct(s: LogState, t: nat, m: nat, n: nat)
    requires CapInv(s) && t < |s.client| && s.client[t].Logging? && s.q.pc[t].AllocRead?
    requires m < n < |s.q.next| && !s.q.hist.place[m].InFree? && !s.q.hist.place[n].InFree?
    ensures Charge(s, t, m) != Charge(s, t, n)
  {
    ChargeBounds(s, t, m);
    ChargeBounds(s, t, n);
    PlaceDistinct(s.q, m, n);
  }

  lemma PlaceDistinct(q: ListQueue.State, m: nat, n: nat)
    requires Inv(q) && m < n < |q.next| && !q.hist.place[m].InFree? && !q.hist.place[n].InFree?
    ensures q.hist.place[m] != q.hist.place[n]
  {
  }

  // ----- Every step keeps it -----

  // The links and the dummy of the queue are as before.
  predicate SameQueue(q: ListQueue.State, r: ListQueue.State) {
    r.hist.link == q.hist.link && r.hist.val == q.hist.val && r.hist.o == q.hist.o
  }

  predicate LinksNow(q: ListQueue.State, t: nat)
    requires Bounded(q) && t < |q.pc|
  {
    q.pc[t].TailLink? && q.next[q.pc[t].tail.node] == Nil
  }

  predicate PopsNow(q: ListQueue.State, t: nat)
    requires Bounded(q) && t < |q.pc|
  {
    q.pc[t].PopCas? && q.outp == q.pc[t].out
  }

  lemma QueueKeeps(q: ListQueue.State, t: nat)
    requires Bounded(q) && t < |q.pc| && !LinksNow(q, t) && !PopsNow(q, t)
    ensures SameQueue(q, Step(q, t, Go))
  {
  }

  // Within Push and within Pop the carried buffer stays the same.
  lemma PushCarries(q: ListQueue.State, t: nat)
    requires Bounded(q) && t < |q.pc| && InPush(q.pc[t]) && (q.pc[t].AllocRead? ==> q.head != Nil)
    ensures var c := Step(q, t, Go).pc[t];
      && (InPush(c) || c == Idle(PushDone))
      && (InPush(c) && !c.TailSwing? ==> !q.pc[t].TailSwing? && Carried(c) == Carried(q.pc[t]) && !LinksNow(q, t))
  {
  }

  lemma PopCarries(q: ListQueue.State, t: nat)
    requires Bounded(q) && t < |q.pc| && (IsPop(q.pc[t]) || IsRelease(q.pc[t]))
    ensures var c := Step(q, t, Go).pc[t];
      && (IsPop(c) || IsRelease(c) || c == Idle(PopNone) || (c.Idle? && c.result.Popped?))
      && (IsRelease(c) || (c.Idle? && c.result.Popped?) ==>
            if IsRelease(q.pc[t]) then Carried(c) == Carried(q.pc[t]) else PopsNow(q, t) && Carried(c) == q.pc[t].value)
  {
  }

  lemma OtherClients(s: LogState, r: LogState, t: nat, b: int)
    requires CapInv(s) && Fine(r) && t < |s.client| == |r.client| && |r.at| == |s.at|
    requires forall u :: 0 <= u < |s.client| && u != t ==> r.client[u] == s.client[u] && r.q.pc[u] == s.q.pc[u]
    requires forall c :: 0 <= c < |s.at| && c != b ==> r.at[c] == s.at[c]
    requires 0 <= b < |s.at| ==> s.at[b] in {InPool, LoggedBy(t), TakenBy(t)} || s.at[b].Queued?
    ensures forall u :: 0 <= u < |s.client| && u != t ==> ClientOk(r, u)
  {
    forall u | 0 <= u < |s.client| && u != t
      ensures ClientOk(r, u)
    {
      assert ClientOk(s, u);
    }
  }

  lemma QueuedStays(s: LogState, r: LogState, b: int)
    requires CapInv(s) && Fine(r) && |r.at| == |s.at| && SameQueue(s.q, r.q)
    requires forall c :: 0 <= c < |s.at| && c != b ==> r.at[c] == s.at[c]
    requires 0 <= b < |s.at| ==> !s.at[b].Queued?
    ensures forall k :: r.q.hist.o < k < |r.q.hist.link| && k < |r.q.hist.val| ==>
              0 <= r.q.hist.val[k] < |r.at| && r.at[r.q.hist.val[k]] == Queued(k)
  {
  }

  lemma GoQuiet(s: LogState, t: nat)
    requires CapInv(s) && t < |s.client| && (s.client[t].Logging? || s.client[t].Flushing?) && !s.q.pc[t].Idle?
    requires !BadStep(s.q, t) && !LinksNow(s.q, t) && !PopsNow(s.q, t)
    ensures CapInv(QueueGo(s, t))
  {
    hide Inv, Bounded, ListQueue.Step;
    var r := QueueGo(s, t);
    assert ClientOk(s, t);
    assert Bounded(s.q) && Bounded(r.q);
    if InPush(s.q.pc[t]) {
      if s.q.pc[t].AllocRead? { NeverFull(s, t); }
      PushCarries(s.q, t);
    } else {
      PopCarries(s.q, t);
    }
    OnlyMoves(s.q, t, Go);
    StepInv(s.q, t, Go);
    QueueKeeps(s.q, t);
    OtherClients(s, r, t, -1);
    QueuedStays(s, r, -1);
    assert ClientOk(r, t);
  }

  lemma GoLink(s: LogState, t: nat)
    requires CapInv(s) && t < |s.client| && s.client[t].Logging? && LinksNow(s.q, t) && !BadStep(s.q, t)
    ensures CapInv(QueueGo(s, t))
  {
    hide Inv, Bounded;
    var r := QueueGo(s, t);
    var b := s.q.pc[t].v;
    assert ClientOk(s, t);
    assert r.at == s.at[b := Queued(|s.q.hist.link|)];
    OnlyMoves(s.q, t, Go);
    StepInv(s.q, t, Go);
    assert Bounded(s.q) && Bounded(r.q);
    OtherClients(s, r, t, b);
    assert |s.q.hist.val| == |s.q.hist.link| by { SizesOf(s.q); }
    assert ClientOk(r, t);
  }

  lemma GoPop(s: LogState, t: nat)
    requires CapInv(s) && t < |s.client| && s.client[t].Flushing? && PopsNow(s.q, t)
    ensures CapInv(QueueGo(s, t))
  {
    hide Inv, Bounded;
    var r := QueueGo(s, t);
    var b := s.q.pc[t].value;
    assert ClientOk(s, t);
    OnlyMoves(s.q, t, Go);
    StepInv(s.q, t, Go);
    assert Bounded(s.q) && Bounded(r.q);
    PopFacts(s.q, t);
    assert s.at[b] == Queued(s.q.hist.o + 1);
    OtherClients(s, r, t, b);
    assert ClientOk(r, t);
  }

  lemma SizesOf(q: ListQueue.State)
    requires Inv(q)
    ensures Bounded(q) && |q.hist.val| == |q.hist.link|
  {
  }

  lemma PopFacts(q: ListQueue.State, t: nat)
    requires Inv(q) && t < |q.pc| && PopsNow(q, t)
    ensures |q.hist.val| == |q.hist.link| && q.hist.o + 1 < |q.hist.link| && q.hist.val[q.hist.o + 1] == q.pc[t].value
  {
    assert Knows(q, q.pc[t]);
  }

  lemma GoCap(s: LogState, t: nat)
    requires CapInv(s) && t < |s.client| && (s.client[t].Logging? || s.client[t].Flushing?) && !s.q.pc[t].Idle?
    requires !BadStep(s.q, t)
    ensures CapInv(QueueGo(s, t))
  {
    hide Inv, Bounded, BadStep;
    assert ClientOk(s, t);
    if LinksNow(s.q, t) {
      GoLink(s, t);
    } else if PopsNow(s.q, t) {
      GoPop(s, t);
    } else {
      GoQuiet(s, t);
    }
  }

  // Starting a call, or returning from one, only moves the thread and its own buffer b.
  lemma CallCap(s: LogState, r: LogState, t: nat, a: ListQueue.Action, b: int)
    requires CapInv(s) && t < |s.client| && s.q.pc[t].Idle? && Fine(r) && r.q == Step(s.q, t, a)
    requires |r.client| == |s.client| && forall u :: 0 <= u < |s.client| && u != t ==> r.client[u] == s.client[u]
    requires |r.at| == |s.at| && forall c :: 0 <= c < |s.at| && c != b ==> r.at[c] == s.at[c]
    requires 0 <= b < |s.at| ==> s.at[b] in {InPool, LoggedBy(t), TakenBy(t)}
    requires r.failed == s.failed && ClientOk(r, t)
    ensures CapInv(r)
  {
    hide Inv, Bounded;
    assert Bounded(s.q);
    OnlyMoves(s.q, t, a);
    IdleIsClean(s.q, t);
    StepInv(s.q, t, a);
    OtherClients(s, r, t, b);
    QueuedStays(s, r, b);
  }

  lemma IdleIsClean(q: ListQueue.State, t: nat)
    requires Bounded(q) && t < |q.pc| && q.pc[t].Idle?
    ensures !BadStep(q, t)
  {
  }

  predicate InQueueCode(c: Client) { c.Logging? || c.Flushing? }

  lemma ReturnCap(s: LogState, t: nat)
    requires CapInv(s) && t < |s.client| && InQueueCode(s.client[t]) && s.q.pc[t].Idle?
    ensures CapInv(LogStep(s, t, Proceed))
    ensures forall a :: LogStep(s, t, a) == LogStep(s, t, Proceed)
  {
    hide Inv, Bounded;
    assert ClientOk(s, t);
    assert Bounded(s.q);
    var r := LogStep(s, t, Proceed);
    assert r.q == Step(s.q, t, Go);
    CallCap(s, r, t, Go, -1);
  }

  lemma CapStep(s: LogState, t: nat, a: LogAction)
    requires CapInv(s) && t < |s.client| && !BadStep(s.q, t)
    ensures CapInv(LogStep(s, t, a))
  {
    hide Inv, Bounded, BadStep;
    assert ClientOk(s, t);
    assert Bounded(s.q);
    var r := LogStep(s, t, a);
    if InQueueCode(s.client[t]) {
      if s.q.pc[t].Idle? { ReturnCap(s, t); } else { GoCap(s, t); }
    } else if s.client[t].Printing? && a.Print? {
      CallCap(s, r, t, CallPop, s.client[t].b);
    } else if s.client[t].Ready? && a.Log? && a.b < |s.at| && s.at[a.b] == InPool {
      CallCap(s, r, t, CallPush(a.b), a.b);
    } else if s.client[t].Ready? && a.Flush? {
      CallCap(s, r, t, CallPop, -1);
    }
  }

  // ----- Whole runs -----

  type LogSchedule = seq<(nat, LogAction)>

  ghost predicate LogFits(sched: LogSchedule, threads: nat) {
    forall k :: 0 <= k < |sched| ==> sched[k].0 < threads
  }

  ghost function LogRun(s: LogState, sched: LogSchedule): (r: LogState)
    requires Fine(s) && LogFits(sched, |s.q.pc|)
    ensures Fine(r) && |r.q.pc| == |s.q.pc|
    decreases |sched|
  {
    if sched == [] then s
    else
      var k := |sched| - 1;
      LogStep(LogRun(s, sched[..k]), sched[k].0, sched[k].1)
  }

  // AllocBuffer only gives out buffers that are in the pool.
  ghost predicate Allocates(s: LogState, sched: LogSchedule)
    requires Fine(s) && LogFits(sched, |s.q.pc|)
  {
    forall k :: 0 <= k < |sched| && sched[k].1.Log? ==>
      var m := LogRun(s, sched[..k]);
      m.client[sched[k].0].Ready? ==> sched[k].1.b < |m.at| && m.at[sched[k].1.b] == InPool
  }

  // ----- How DoLog ends -----

  // DoLog asks the queue again as long as it is full, and gives up at the 33rd attempt.
  ghost predicate DoLogStep(s: LogState, r: LogState, t: nat)
    requires Fine(s) && t < |s.client| && t < |r.client| && s.client[t].Logging?
  {
    var c := s.client[t];
    if r.client[t].Logging? then
      && r.client[t].b == c.b && r.failed == s.failed
      && (r.client[t].retry == c.retry || (r.client[t].retry == c.retry + 1 <= 32 && s.q.pc[t] == Idle(PushFull)))
    else
      && r.client[t].Ready? && s.q.pc[t].Idle?
      && (if c.retry >= 32 then r.failed == s.failed + 1 else r.failed == s.failed && s.q.pc[t] != Idle(PushFull))
  }

  /** Every step of every run: while DoLog is under way it pushes the same buffer, again only after
      the queue was full and at most 32 times; it ends with a success only if its last push was
      not refused, and with a failure only at the 33rd attempt. */
  lemma {:induction false} DoLogRetries(size: nat, seed: nat, data: seq<int>, threads: nat, sched: LogSchedule, t: nat, a: LogAction)
    requires |data| == size + 1 && LogFits(sched, threads) && t < threads
    ensures var s := LogRun(LogInit(size, seed, data, threads), sched);
      && Fine(s) && t < |s.client| && t < |s.q.pc|
      && (s.client[t].Logging? ==> DoLogStep(s, LogStep(s, t, a), t))
  {
    hide Bounded, Step, LogRun;
    var i := LogInit(size, seed, data, threads);
    assert |i.q.pc| == threads;
    var s := LogRun(i, sched);
    assert |s.client| == |s.q.pc| == threads;
  }

  // Every call of DoLog so far pushed at its first attempt.
  ghost predicate FirstAttempt(s: LogState) {
    && s.failed == 0
    && (forall t :: 0 <= t < |s.client| && s.client[t].Logging? ==> s.client[t].retry == 0)
    && (forall t :: 0 <= t < |s.q.pc| ==> s.q.pc[t] != Idle(PushFull))
  }

  ghost predicate LogClean(s: LogState, sched: LogSchedule)
    requires Fine(s) && LogFits(sched, |s.q.pc|)
  {
    forall k :: 0 <= k < |sched| ==> !BadStep(LogRun(s, sched[..k]).q, sched[k].0)
  }

  lemma {:induction false} CapRun(s: LogState, sched: LogSchedule)
    requires Fine(s) && LogFits(sched, |s.q.pc|) && CapInv(s) && LogClean(s, sched)
    ensures CapInv(LogRun(s, sched))
  {
    hide Fine, LogStep, BadStep, CapInv;
    if sched != [] {
      var k := |sched| - 1;
      assert forall j :: 0 <= j <= k ==> sched[..k][..j] == sched[..j];
      CapRun(s, sched[..k]);
      CapStepFine(LogRun(s, sched[..k]), sched[k].0, sched[k].1);
    }
  }

  lemma CapStepFine(s: LogState, t: nat, a: LogAction)
    requires Fine(s) && CapInv(s) && t < |s.q.pc| && !BadStep(s.q, t)
    ensures CapInv(LogStep(s, t, a))
  {
    CapStep(s, t, a);
  }

  /** Any number of logging and flushing threads, any schedule of a pool of `size` buffers over
      a queue with size + 1 nodes: as long as the queue takes no bad step, DoLog always pushes
      at its first attempt. */
  lemma {:induction false} DoLogNeverWaits(size: nat, seed: nat, data: seq<int>, threads: nat, sched: LogSchedule)
    requires |data| == size + 1 && LogFits(sched, threads)
    requires LogClean(LogInit(size, seed, data, threads), sched)
    ensures FirstAttempt(LogRun(LogInit(size, seed, data, threads), sched))
  {
    InitCap(size, seed, data, threads);
    CapRun(LogInit(size, seed, data, threads), sched);
    CapFirst(LogRun(LogInit(size, seed, data, threads), sched));
  }

  lemma CapFirst(s: LogState)
    requires CapInv(s)
    ensures FirstAttempt(s)
  {
    forall t | 0 <= t < |s.client|
      ensures s.client[t].Logging? ==> s.client[t].retry == 0
      ensures s.q.pc[t] != Idle(PushFull)
    {
      assert ClientOk(s, t);
    }
  }

  // ----- One logging thread, any number of flushing ones -----

  ghost predicate OnlyLogger(sched: LogSchedule, p: nat) {
    forall k :: 0 <= k < |sched| && sched[k].1.Log? ==> sched[k].0 == p
  }

  ghost predicate OneLogger(s: LogState, p: nat) {
    && CapInv(s) && ListQueueOnePusher.OnePusher(s.q, p)
    && (forall t :: 0 <= t < |s.client| && t != p ==> !s.client[t].Logging?)
  }

  // What a step of a client does to the queue, and to the client.
  lemma StepOfQueue(s: LogState, t: nat, a: LogAction) returns (b: ListQueue.Action)
    requires Fine(s) && t < |s.q.pc|
    ensures var r := LogStep(s, t, a);
      && (r.q == s.q || r.q == Step(s.q, t, b))
      && (forall u :: 0 <= u < |s.client| && u != t ==> r.client[u] == s.client[u])
      && (b.CallPush? || r.client[t].Logging? ==> s.client[t].Logging? || a.Log?)
  {
    hide Step, Bounded;
    b := if a.Log? && s.client[t].Ready? then CallPush(a.b)
         else if s.client[t].Ready? || s.client[t].Printing? then CallPop
         else if s.client[t].Logging? && s.q.pc[t].Idle? then CallPush(s.client[t].b)
         else Go;
  }

  lemma OneLoggerStep(s: LogState, t: nat, a: LogAction, p: nat)
    requires Fine(s) && OneLogger(s, p) && t < |s.q.pc| && (a.Log? ==> t == p)
    ensures OneLogger(LogStep(s, t, a), p)
  {
    hide Bounded, CapInv, Step, LogStep, BadStep, ListQueueOnePusher.OnePusher;
    assert |s.client| == |s.q.pc|;
    PusherBound(s.q, p);
    ListQueueOnePusher.OnePusherClean(s.q, p, t);
    CapStepFine(s, t, a);
    var b := StepOfQueue(s, t, a);
    if LogStep(s, t, a).q == Step(s.q, t, b) { ListQueueOnePusher.OnePusherStep(s.q, p, t, b); }
  }

  lemma PusherBound(q: ListQueue.State, p: nat)
    requires ListQueueOnePusher.OnePusher(q, p)
    ensures Bounded(q) && p < |q.pc|
  {
  }

  lemma {:induction false} OneLoggerRun(s: LogState, sched: LogSchedule, p: nat)
    requires Fine(s) && LogFits(sched, |s.q.pc|) && OneLogger(s, p) && OnlyLogger(sched, p)
    ensures OneLogger(LogRun(s, sched), p)
  {
    hide Fine, LogStep, OneLogger;
    if sched != [] {
      var k := |sched| - 1;
      OneLoggerRun(s, sched[..k], p);
      OneLoggerStep(LogRun(s, sched[..k]), sched[k].0, sched[k].1, p);
    }
  }

  /** With one logging thread, any number of flushing threads and any first release tag, the
      code's included, DoLog always pushes at its first attempt. */
  lemma {:induction false} OneLoggerNeverWaits(size: nat, seed: nat, data: seq<int>, threads: nat, sched: LogSchedule, p: nat)
    requires |data| == size + 1 && LogFits(sched, threads) && p < threads && OnlyLogger(sched, p)
    ensures FirstAttempt(LogRun(LogInit(size, seed, data, threads), sched))
  {
    hide OneLogger, CapInv, FirstAttempt, LogStep;
    InitOneLogger(size, seed, data, threads, p);
    OneLoggerRun(LogInit(size, seed, data, threads), sched, p);
    OneLoggerFirst(LogRun(LogInit(size, seed, data, threads), sched), p);
  }

  lemma InitOneLogger(size: nat, seed: nat, data: seq<int>, threads: nat, p: nat)
    requires |data| == size + 1 && p < threads
    ensures OneLogger(LogInit(size, seed, data, threads), p)
  {
    var s := LogInit(size, seed, data, threads);
    InitCap(size, seed, data, threads);
    assert forall t :: 0 <= t < threads ==> s.q.pc[t] == Idle(NoCall);
  }

  lemma OneLoggerFirst(s: LogState, p: nat)
    requires OneLogger(s, p)
    ensures FirstAttempt(s)
  {
    CapFirst(s);
  }

  // ----- The premises of the linked queue -----

  ghost predicate SteadyCap(s: LogState) { CapInv(s) && ListQueueTheorems.Steady(s.q) }

  lemma SteadyCapStep(s: LogState, t: nat, a: LogAction)
    requires Fine(s) && SteadyCap(s) && t < |s.q.pc| && !ListQueueTail.ReleasesObserved(s.q, t)
    ensures SteadyCap(LogStep(s, t, a))
  {
    hide Bounded, CapInv, Step, ListQueueFresh.Fresh, ListQueueTail.NearEnd, ListQueueTail.ReleasesObserved;
    assert Bounded(s.q);
    ListQueueTail.NearEndClean(s.q, t);
    ListQueueTheorems.FreshNotStale(s.q, t);
    CapStepFine(s, t, a);
    var r := LogStep(s, t, a);
    var b: ListQueue.Action :| r.q == s.q || r.q == Step(s.q, t, b);
    ListQueueTheorems.SteadyStep(s.q, t, b);
  }

  lemma {:induction false} SteadyCapRun(s: LogState, sched: LogSchedule)
    requires Fine(s) && LogFits(sched, |s.q.pc|) && SteadyCap(s)
    requires forall k :: 0 <= k < |sched| ==> !ListQueueTail.ReleasesObserved(LogRun(s, sched[..k]).q, sched[k].0)
    ensures SteadyCap(LogRun(s, sched))
  {
    hide Fine, LogStep, ListQueueTail.ReleasesObserved, SteadyCap;
    if sched != [] {
      var k := |sched| - 1;
      assert forall j :: 0 <= j <= k ==> sched[..k][..j] == sched[..j];
      SteadyCapRun(s, sched[..k]);
      SteadyCapStep(LogRun(s, sched[..k]), sched[k].0, sched[k].1);
    }
  }

  /** The same under the premises of the linked queue: fresh release tags, and no node released
      while a logging thread has it as its observed tail. */
  lemma {:induction false} DoLogNeverWaitsFresh(size: nat, seed: nat, data: seq<int>, threads: nat, sched: LogSchedule)
    requires |data| == size + 1 <= seed && LogFits(sched, threads)
    requires var s := LogInit(size, seed, data, threads);
      forall k :: 0 <= k < |sched| ==> !ListQueueTail.ReleasesObserved(LogRun(s, sched[..k]).q, sched[k].0)
    ensures FirstAttempt(LogRun(LogInit(size, seed, data, threads), sched))
  {
    hide SteadyCap, CapInv, FirstAttempt, LogStep;
    InitSteadyCap(size, seed, data, threads);
    SteadyCapRun(LogInit(size, seed, data, threads), sched);
    SteadyCapFirst(LogRun(LogInit(size, seed, data, threads), sched));
  }

  lemma InitSteadyCap(size: nat, seed: nat, data: seq<int>, threads: nat)
    requires |data| == size + 1 <= seed
    ensures SteadyCap(LogInit(size, seed, data, threads))
  {
    var s := LogInit(size, seed, data, threads);
    InitCap(size, seed, data, threads);
    ListQueueFresh.InitFresh(size + 1, seed, data, threads);
    assert forall t :: 0 <= t < threads ==> s.q.pc[t] == Idle(NoCall);
  }

  lemma SteadyCapFirst(s: LogState)
    requires SteadyCap(s)
    ensures FirstAttempt(s)
  {
    CapFirst(s);
  }
}

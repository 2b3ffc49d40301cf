/** The dispatcher never waits for a token while every worker sleeps. */
module PoolLiveness {
  import opened WorkerMask
  import opened PoolDispatch

  // ----- The dispatcher's steps -----

  lemma DispatcherBalance(s: State, pick: nat)
    requires Bounded(s) && Balanced(s) && Chosen(s)
    ensures var r := DispatcherStep(s, pick); Balanced(r) && Chosen(r)
  {
    hide FirstFree, RemoveAt;
    if s.disp.Select? { var c := FirstFree(s.free); }
  }

  lemma DispatcherCleared(s: State, pick: nat)
    requires Bounded(s) && Balanced(s) && Cleared(s)
    ensures Cleared(DispatcherStep(s, pick))
  {
    hide FirstFree, RemoveAt;
    var r := DispatcherStep(s, pick);
    forall w | 0 <= w < |r.free| && !r.free[w]
      ensures Holds(r, w)
    {
      if s.free[w] { assert s.disp.ClearBits? && s.disp.w == w; } else { assert Holds(s, w); }
    }
  }

  lemma DispatcherAlive(s: State, pick: nat)
    requires Inv(s) && Cleared(DispatcherStep(s, pick))
    ensures Alive(DispatcherStep(s, pick))
  {
    hide FirstFree, RemoveAt;
    var r := DispatcherStep(s, pick);
    match s.disp
    case Prepare => KeepsBusy(s, r);
    case WaitToken => KeepsBusy(s, r);
    case Select => if FirstFree(s.free) == |s.free| { assert Busy(r, 0); }
    case Fetch =>
    case ClearBits(_, w, _) => assert Busy(r, w);
    case Push(_, w, _) => assert Busy(r, w);
    case Signal(w, _) => assert Busy(r, w);
  }

  // A step that leaves the workers alone leaves busy workers busy.
  lemma KeepsBusy(s: State, r: State)
    requires Bounded(s) && Bounded(r) && |r.free| == |s.free| && r.box == s.box && r.wpc == s.wpc
    requires !s.disp.Push? && !s.disp.Signal?
    ensures (exists w :: Busy(s, w)) ==> exists w :: Busy(r, w)
  {
    if w :| Busy(s, w) { assert Busy(r, w); }
  }

  // ----- A worker's steps -----

  ghost predicate BalancedAt(s: State, w: nat)
    requires Bounded(s) && w < |s.free|
  {
    && s.wpc[w] != NullTask
    && |s.box[w]| == s.permits[w] + (if s.disp.Signal? && s.disp.w == w then 1 else 0) + (if s.wpc[w].Take? then 1 else 0)
  }

  lemma WorkerBalanceAt(s: State, w: nat, timeout: bool)
    requires Bounded(s) && w < |s.free| && BalancedAt(s, w)
    ensures BalancedAt(WorkerStep(s, w, timeout), w)
  {
  }

  lemma WorkerElsewhere(s: State, w: nat, timeout: bool, u: nat)
    requires Bounded(s) && w < |s.free| && u < |s.free| && u != w
    ensures var r := WorkerStep(s, w, timeout);
      r.wpc[u] == s.wpc[u] && r.box[u] == s.box[u] && r.permits[u] == s.permits[u] && r.free[u] == s.free[u]
  {
  }

  lemma WorkerBalance(s: State, w: nat, timeout: bool)
    requires Bounded(s) && Balanced(s) && Chosen(s) && w < |s.free|
    ensures var r := WorkerStep(s, w, timeout); Balanced(r) && Chosen(r)
  {
    hide WorkerStep;
    WorkerKeepsDispatcher(s, w, timeout);
    var r := WorkerStep(s, w, timeout);
    forall u | 0 <= u < |r.free|
      ensures r.wpc[u] != NullTask
      ensures |r.box[u]| == r.permits[u] + (if r.disp.Signal? && r.disp.w == u then 1 else 0) + (if r.wpc[u].Take? then 1 else 0)
    {
      assert BalancedAt(s, u);
      if u == w { WorkerBalanceAt(s, w, timeout); } else { WorkerElsewhere(s, w, timeout, u); }
      assert BalancedAt(r, u);
    }
  }

  lemma WorkerKeepsDispatcher(s: State, w: nat, timeout: bool)
    requires Bounded(s) && w < |s.free|
    ensures var r := WorkerStep(s, w, timeout); r.disp == s.disp && r.freeWorker == s.freeWorker
  {
  }

  lemma WorkerCleared(s: State, w: nat, timeout: bool)
    requires Bounded(s) && Balanced(s) && Cleared(s) && w < |s.free|
    ensures Cleared(WorkerStep(s, w, timeout))
  {
    var r := WorkerStep(s, w, timeout);
    forall u | 0 <= u < |r.free| && !r.free[u]
      ensures Holds(r, u)
    {
      assert Holds(s, u);
    }
  }

  // Whoever stops being busy has posted a token.
  lemma WorkerAlive(s: State, w: nat, timeout: bool)
    requires Bounded(s) && Balanced(s) && Alive(s) && w < |s.free|
    ensures Alive(WorkerStep(s, w, timeout))
  {
    var r := WorkerStep(s, w, timeout);
    if u :| Busy(s, u) {
      if u != w || !s.wpc[w].Request? { assert Busy(r, u); }
    }
  }

  lemma PostedInv(s: State, affinity: int)
    requires Inv(s)
    ensures Inv(Posted(s, affinity))
  {
    var r := Posted(s, affinity);
    assert forall w :: 0 <= w < |s.free| && Holds(s, w) ==> Holds(r, w);
    if w :| Busy(s, w) { assert Busy(r, w); }
  }

  lemma StepInv(s: State, e: Event)
    requires Inv(s) && (e.Work? ==> e.w < |s.free|)
    ensures Inv(Step(s, e))
  {
    hide Balanced, Chosen, Cleared, Alive, DispatcherStep, WorkerStep, Posted;
    match e
    case Post(affinity) => PostedInv(s, affinity);
    case Dispatch(pick) =>
      DispatcherBalance(s, pick);
      DispatcherCleared(s, pick);
      DispatcherAlive(s, pick);
    case Work(w, timeout) =>
      WorkerBalance(s, w, timeout);
      WorkerCleared(s, w, timeout);
      WorkerAlive(s, w, timeout);
  }

  lemma {:induction false} RunInv(s: State, sched: Schedule)
    requires Bounded(s) && Fits(sched, |s.free|) && Inv(s)
    ensures Inv(Run(s, sched))
  {
    hide Bounded, Step, Inv;
    if sched != [] {
      var k := |sched| - 1;
      RunInv(s, sched[..k]);
      StepInv(Run(s, sched[..k]), sched[k]);
    }
  }

  // ----- Theorems -----

  /** With any affinities: there is always a token, a token being spent, a chosen free worker, a
      task on its way, or a worker that has work or still owes the first request of its round. */
  lemma {:induction false} NeverWedges(workers: nat, queueCap: nat, boxCap: nat, sched: Schedule)
    requires 1 <= workers && 1 <= boxCap && Fits(sched, workers)
    ensures Alive(Run(Init(workers, queueCap, boxCap), sched))
  {
    InitInv(workers, queueCap, boxCap);
    RunInv(Init(workers, queueCap, boxCap), sched);
  }

  // What worker w does on its own.
  function Solo(s: State, w: nat, steps: nat): (r: State)
    requires Bounded(s) && w < |s.free|
    ensures Bounded(r) && |r.free| == |s.free|
    decreases steps
  {
    if steps == 0 then s else Solo(WorkerStep(s, w, false), w, steps - 1)
  }

  // How far a worker is from posting a token.
  function Distance(s: State, w: nat): nat
    requires Bounded(s) && w < |s.free|
  {
    5 * |s.box[w]| +
    match s.wpc[w]
    case Try(req) => if req == 0 then 2 else if req > THRESHOLD then 6 else 5
    case Request(_) => 1
    case Take => 0
    case RunTask(_) => 4
    case Done => 3
    case _ => 5
  }

  // A worker that can move: it is not asleep, or it has a permit.
  predicate Awake(s: State, w: nat)
    requires Bounded(s) && w < |s.free|
  {
    (s.wpc[w].Timed? || s.wpc[w].Block? || (s.wpc[w].Try? && s.wpc[w].req > 0)) ==> s.permits[w] > 0
  }

  // One step of an awake worker posts a token or brings it closer to one, and leaves it awake.
  lemma SoloStep(s: State, w: nat)
    requires Bounded(s) && Balanced(s) && w < |s.free| && !s.disp.Signal? && Awake(s, w)
    ensures var r := WorkerStep(s, w, false);
      && Balanced(r) && r.disp == s.disp
      && (r.tokens > s.tokens || (r.tokens == s.tokens && Awake(r, w) && Distance(r, w) < Distance(s, w)))
  {
    var r := WorkerStep(s, w, false);
  }

  lemma {:induction false} SoloPosts(s: State, w: nat) returns (steps: nat)
    requires Bounded(s) && Balanced(s) && w < |s.free| && !s.disp.Signal? && Awake(s, w)
    ensures Solo(s, w, steps).tokens > s.tokens
    decreases Distance(s, w)
  {
    hide Distance, Awake, WorkerStep, Balanced;
    SoloStep(s, w);
    var r := WorkerStep(s, w, false);
    if r.tokens > s.tokens {
      steps := 1;
      assert Solo(s, w, 1) == Solo(r, w, 0) == r;
    } else {
      var more := SoloPosts(r, w);
      steps := more + 1;
    }
  }

  /** While the dispatcher waits for a token and there is none, some worker is awake, and running
      it alone posts a token after finitely many steps. */
  lemma {:induction false} SomeWorkerWakesDispatcher(workers: nat, queueCap: nat, boxCap: nat, sched: Schedule)
    requires 1 <= workers && 1 <= boxCap && Fits(sched, workers)
    ensures var s := Run(Init(workers, queueCap, boxCap), sched);
      (s.disp.WaitToken? && s.tokens == 0) ==>
        exists w: nat, steps: nat :: w < |s.free| && Awake(s, w) && Solo(s, w, steps).tokens > 0
  {
    hide Bounded, Step, Solo, Awake;
    InitInv(workers, queueCap, boxCap);
    RunInv(Init(workers, queueCap, boxCap), sched);
    var s := Run(Init(workers, queueCap, boxCap), sched);
    if s.disp.WaitToken? && s.tokens == 0 {
      var w :| Busy(s, w);
      BusyIsAwake(s, w);
      var steps := SoloPosts(s, w);
    }
  }

  lemma BusyIsAwake(s: State, w: nat)
    requires Bounded(s) && Balanced(s) && s.disp.WaitToken? && Busy(s, w)
    ensures Awake(s, w)
  {
  }

  /** A worker never takes a null task out of its mailbox. */
  lemma {:induction false} NoNullTask(workers: nat, queueCap: nat, boxCap: nat, sched: Schedule, w: nat)
    requires 1 <= workers && 1 <= boxCap && Fits(sched, workers) && w < workers
    ensures var s := Run(Init(workers, queueCap, boxCap), sched);
      |s.wpc| == workers && s.wpc[w] != NullTask && (s.wpc[w].Take? ==> s.box[w] != [])
  {
    InitInv(workers, queueCap, boxCap);
    RunInv(Init(workers, queueCap, boxCap), sched);
  }

  // ----- A worker asks four times before it sleeps -----

  // The requests of a worker since it has begun to look for work, or -1 while it has some.
  function Asked(c: WorkerPc): int {
    match c
    case Try(req) => req
    case Request(req) => req
    case Timed(req) => req
    case Block => THRESHOLD + 1
    case _ => -1
  }

  predicate Looking(c: WorkerPc) {
    && Asked(c) >= 0 && (c.Try? ==> c.req <= THRESHOLD + 1) && (c.Request? ==> c.req <= THRESHOLD)
    && (c.Timed? ==> 1 <= c.req <= THRESHOLD + 1)
  }

  // The tokens that worker w posts in this run.
  ghost function PostedBy(s: State, sched: Schedule, w: nat): nat
    requires Bounded(s) && Fits(sched, |s.free|)
    decreases |sched|
  {
    if sched == [] then 0
    else
      var k := |sched| - 1;
      var m := Run(s, sched[..k]);
      PostedBy(s, sched[..k], w) + (if sched[k].Work? && sched[k].w == w && Step(m, sched[k]).tokens == m.tokens + 1 then 1 else 0)
  }

  lemma OwnAsk(s: State, w: nat, timeout: bool)
    requires Bounded(s) && w < |s.free| && Looking(s.wpc[w]) && Asked(WorkerStep(s, w, timeout).wpc[w]) >= 0
    ensures var r := WorkerStep(s, w, timeout);
      && Looking(r.wpc[w])
      && Asked(r.wpc[w]) == Asked(s.wpc[w]) + (if r.tokens == s.tokens + 1 then 1 else 0)
  {
  }

  lemma DispatcherAsk(s: State, pick: nat)
    requires Bounded(s)
    ensures DispatcherStep(s, pick).wpc == s.wpc
  {
    hide FirstFree, RemoveAt;
  }

  lemma AskStep(s: State, e: Event, w: nat)
    requires Bounded(s) && (e.Work? ==> e.w < |s.free|) && w < |s.free| && Looking(s.wpc[w]) && Asked(Step(s, e).wpc[w]) >= 0
    ensures var r := Step(s, e);
      && Looking(r.wpc[w])
      && Asked(r.wpc[w]) == Asked(s.wpc[w]) + (if e.Work? && e.w == w && r.tokens == s.tokens + 1 then 1 else 0)
  {
    hide DispatcherStep, WorkerStep, Looking, Asked;
    match e
    case Post(_) =>
    case Dispatch(pick) => DispatcherAsk(s, pick);
    case Work(u, timeout) => if u == w { OwnAsk(s, w, timeout); } else { WorkerElsewhere(s, u, timeout, w); }
  }

  /** From the moment a worker begins to look for work, and as long as it finds none, it has posted
      a token for each of its timed waits, and it sleeps without a time-out only after four. */
  lemma {:induction false} AsksBeforeSleeping(s: State, sched: Schedule, w: nat)
    requires Bounded(s) && Fits(sched, |s.free|) && w < |s.free| && s.wpc[w] == Try(0)
    requires forall k :: 0 <= k <= |sched| ==> Asked(Run(s, sched[..k]).wpc[w]) >= 0
    ensures var c := Run(s, sched).wpc[w];
      Looking(c) && PostedBy(s, sched, w) == Asked(c) && (c.Block? ==> PostedBy(s, sched, w) == 4)
    decreases |sched|
  {
    hide Bounded, Step;
    if sched != [] {
      var k := |sched| - 1;
      assert forall j :: 0 <= j <= k ==> sched[..k][..j] == sched[..j];
      assert sched[..|sched|] == sched;
      AsksBeforeSleeping(s, sched[..k], w);
      AskStep(Run(s, sched[..k]), sched[k], w);
    }
  }
}

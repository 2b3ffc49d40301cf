/** Which worker gets a task, and in which order a worker runs what it gets. */
module PoolAffinity {
  import opened NodeList
  import opened WorkerMask
  import opened PoolDispatch
  import opened PoolLiveness
  import opened PoolTasks

  // ----- The worker of a task -----

  // Task k is with worker w, or on its way to it.
  predicate With(s: State, k: nat, w: nat)
    requires Bounded(s) && k < |s.stage|
  {
    || s.stage[k] == InBox(w) || s.stage[k] == Running(w) || s.stage[k] == Finished(w)
    || (s.stage[k] == InHand && InHandOf(s.disp, k) && s.disp.w == w)
  }

  ghost predicate Given(s: State, k: nat, w: nat)
    requires Bounded(s)
  {
    k < |s.stage| && (With(s, k, w) || s.stage[k] == Lost)
  }

  // freeWorker_ has its bit set until its own task clears it.
  ghost predicate FreeIsSet(s: State)
    requires Bounded(s)
  {
    && (s.freeWorker >= 0 && !((s.disp.Push? || s.disp.Signal?) && s.disp.own) ==> s.free[s.freeWorker])
    && (s.disp.ClearBits? ==> (s.disp.own <==> s.freeWorker == s.disp.w))
  }

  lemma DispatcherSets(s: State, pick: nat)
    requires Bounded(s) && FreeIsSet(s)
    ensures FreeIsSet(DispatcherStep(s, pick))
  {
    hide RemoveAt;
  }

  lemma StepSets(s: State, e: Event)
    requires Bounded(s) && FreeIsSet(s) && (e.Work? ==> e.w < |s.free|)
    ensures FreeIsSet(Step(s, e))
  {
    hide DispatcherStep;
    match e
    case Post(_) =>
    case Dispatch(pick) => DispatcherSets(s, pick);
    case Work(w, timeout) => WorkerKeepsDispatcher(s, w, timeout);
  }

  // Task k leaves the pool's queue for worker w: the one of its affinity, or freeWorker_.
  ghost predicate Fetches(s: State, r: State, k: nat, w: nat)
    requires Bounded(s) && Bounded(r)
  {
    && k < |s.stage| && |r.stage| == |s.stage| && w < |s.free|
    && s.stage[k] == Queued && r.stage[k] == InHand && With(r, k, w)
    && if 0 <= s.affinity[k] < |s.free| then w == s.affinity[k] else w == s.freeWorker && s.free[w]
  }

  // ----- One step -----

  // A task leaves the queue only by being fetched.
  lemma FetchStep(s: State, e: Event, k: nat)
    requires Bounded(s) && Tasks(s) && FreeIsSet(s) && (e.Work? ==> e.w < |s.free|) && k < |s.stage| && s.stage[k] == Queued
    ensures var r := Step(s, e); |s.stage| <= |r.stage| && (r.stage[k] != Queued ==> r.disp.ClearBits? && Fetches(s, r, k, r.disp.w))
  {
    hide FirstFree, NoDup, RemoveAt, QueueOk;
    var r := Step(s, e);
    match e
    case Post(_) =>
    case Dispatch(_) => assert s.disp.Push? ==> InHandOf(s.disp, s.disp.task);
    case Work(w, _) => assert s.wpc[w].Take? && s.box[w] != [] ==> s.stage[s.box[w][0]] == InBox(w);
  }

  // A task that was fetched for w stays with w, or is lost to its full mailbox.
  lemma GivenStays(s: State, e: Event, k: nat, w: nat)
    requires Bounded(s) && Tasks(s) && (e.Work? ==> e.w < |s.free|) && Given(s, k, w)
    ensures Given(Step(s, e), k, w)
  {
    hide FirstFree, NoDup, RemoveAt;
    var r := Step(s, e);
    match e
    case Post(_) =>
    case Dispatch(pick) =>
      assert s.disp.Fetch? && pick < |s.queue| ==> s.stage[s.queue[pick]] == Queued;
      assert s.disp.Push? ==> InHandOf(s.disp, s.disp.task);
    case Work(u, _) =>
      assert s.wpc[u].Take? && s.box[u] != [] ==> s.stage[s.box[u][0]] == InBox(u);
  }

  // A new task is queued.
  lemma NewIsQueued(s: State, e: Event, k: nat)
    requires Bounded(s) && (e.Work? ==> e.w < |s.free|) && |s.stage| <= k < |Step(s, e).stage|
    ensures Step(s, e).stage[k] == Queued
  {
    hide FirstFree, RemoveAt;
  }

  lemma StagesGrow(s: State, e: Event)
    requires Bounded(s) && (e.Work? ==> e.w < |s.free|)
    ensures var r := Step(s, e); |s.stage| <= |r.stage| && s.affinity <= r.affinity
  {
    hide FirstFree, RemoveAt;
  }

  // ----- Whole runs -----

  lemma {:induction false} RunOneMore(s: State, sched: Schedule, k: nat)
    requires Bounded(s) && Fits(sched, |s.free|) && k < |sched|
    ensures Run(s, sched[..k + 1]) == Step(Run(s, sched[..k]), sched[k])
  {
    assert sched[..k + 1][..k] == sched[..k];
  }

  lemma {:induction false} SetsAt(s: State, sched: Schedule, k: nat)
    requires Bounded(s) && Fits(sched, |s.free|) && FreeIsSet(s) && Tasks(s) && k <= |sched|
    ensures FreeIsSet(Run(s, sched[..k])) && Tasks(Run(s, sched[..k]))
  {
    hide Bounded, Run, Step, FreeIsSet, Tasks;
    RunTasks(s, sched[..k]);
    if k > 0 {
      SetsAt(s, sched, k - 1);
      RunOneMore(s, sched, k - 1);
      StepSets(Run(s, sched[..k - 1]), sched[k - 1]);
    } else {
      assert sched[..0] == [] && Run(s, []) == s by { RunNothing(s); }
    }
  }

  lemma RunNothing(s: State)
    requires Bounded(s)
    ensures Run(s, []) == s
  {
  }

  // Step i of the run fetches task k for worker w.
  ghost predicate FetchedAt(s: State, sched: Schedule, k: nat, i: nat, w: nat)
    requires Bounded(s) && Fits(sched, |s.free|) && i < |sched|
  {
    Fetches(Run(s, sched[..i]), Run(s, sched[..i + 1]), k, w)
  }

  lemma {:induction false} WasFetched(s: State, sched: Schedule, n: nat, k: nat) returns (i: nat, w: nat)
    requires Bounded(s) && Fits(sched, |s.free|) && FreeIsSet(s) && Tasks(s) && s.stage == [] && n <= |sched|
    requires var r := Run(s, sched[..n]); k < |r.stage| && r.stage[k] != Queued
    ensures i < n && FetchedAt(s, sched, k, i, w) && Given(Run(s, sched[..n]), k, w)
  {
    hide Bounded, Run, Step, FreeIsSet, Tasks, Fetches, Given;
    if n == 0 {
      assert sched[..0] == [];
      RunNothing(s);
    }
    RunOneMore(s, sched, n - 1);
    var m, e := Run(s, sched[..n - 1]), sched[n - 1];
    SetsAt(s, sched, n - 1);
    if k >= |m.stage| { NewIsQueued(m, e, k); }
    if m.stage[k] == Queued {
      FetchStep(m, e, k);
      i, w := n - 1, Step(m, e).disp.w;
      FetchedIsGiven(m, Step(m, e), k, w);
    } else {
      i, w := WasFetched(s, sched, n - 1, k);
      GivenStays(m, e, k, w);
    }
  }

  lemma FetchedIsGiven(s: State, r: State, k: nat, w: nat)
    requires Bounded(s) && Bounded(r) && Fetches(s, r, k, w)
    ensures Given(r, k, w)
  {
  }

  // At the end of the run each task that was taken from the pool's queue was fetched for a worker,
  // and has stayed with it, or was refused by its full mailbox.
  ghost predicate Dispatched(s: State, sched: Schedule, k: nat)
    requires Bounded(s) && Fits(sched, |s.free|)
  {
    exists i: nat, w: nat :: i < |sched| && FetchedAt(s, sched, k, i, w) && Given(Run(s, sched), k, w)
  }

  predicate BoxFull(s: State, w: nat) { w < |s.box| && |s.box[w]| >= s.boxCap }

  predicate Loses(s: State, r: State, k: nat) {
    k < |s.stage| && k < |r.stage| && s.stage[k] != Lost && r.stage[k] == Lost
  }

  // Step i of the run loses task k.
  ghost predicate LosesAt(s: State, sched: Schedule, i: nat, k: nat)
    requires Bounded(s) && Fits(sched, |s.free|) && i < |sched|
  {
    Loses(Run(s, sched[..i]), Run(s, sched[..i + 1]), k)
  }

  // A task is lost only where its worker's mailbox is full.
  ghost predicate RefusedWhenFull(s: State, sched: Schedule)
    requires Bounded(s) && Fits(sched, |s.free|)
  {
    forall i: nat, k: nat :: i < |sched| && LosesAt(s, sched, i, k) ==>
      var m := Run(s, sched[..i]); m.disp.Push? && m.disp.task == k && BoxFull(m, m.disp.w)
  }

  lemma LostStep(s: State, e: Event, k: nat)
    requires Bounded(s) && (e.Work? ==> e.w < |s.free|) && k < |s.stage| && s.stage[k] != Lost
    requires k < |Step(s, e).stage| && Step(s, e).stage[k] == Lost
    ensures s.disp.Push? && s.disp.task == k && BoxFull(s, s.disp.w)
  {
    hide FirstFree, RemoveAt;
  }

  /** With any affinities, every run: a task that has left the pool's queue was fetched, at some
      step, for the worker that its affinity names, or, without a valid affinity, for freeWorker_,
      whose bit was set then; and it is on its way to that worker, in its mailbox, run by it or
      finished by it, or was refused by its full mailbox. */
  lemma {:induction false} TasksGoWhereTheyShould(workers: nat, queueCap: nat, boxCap: nat, sched: Schedule)
    requires 1 <= workers && 1 <= boxCap && Fits(sched, workers)
    ensures var i := Init(workers, queueCap, boxCap); var s := Run(i, sched);
      && (forall k :: 0 <= k < |s.stage| && s.stage[k] != Queued ==> Dispatched(i, sched, k))
      && RefusedWhenFull(i, sched)
  {
    hide Bounded, Run, Step, FreeIsSet, Tasks, FetchedAt, Given;
    var i := Init(workers, queueCap, boxCap);
    assert FreeIsSet(i) && Tasks(i) && i.stage == [] && |i.free| == workers by { InitSets(workers, queueCap, boxCap); }
    assert sched[..|sched|] == sched;
    forall k | 0 <= k < |Run(i, sched).stage| && Run(i, sched).stage[k] != Queued
      ensures Dispatched(i, sched, k)
    {
      var at, w := WasFetched(i, sched, |sched|, k);
    }
    forall n: nat, k: nat | n < |sched| && LosesAt(i, sched, n, k)
      ensures var m := Run(i, sched[..n]); m.disp.Push? && m.disp.task == k && BoxFull(m, m.disp.w)
    {
      RunOneMore(i, sched, n);
      LostStep(Run(i, sched[..n]), sched[n], k);
    }
  }

  lemma InitSets(workers: nat, queueCap: nat, boxCap: nat)
    requires 1 <= workers && 1 <= boxCap
    ensures var i := Init(workers, queueCap, boxCap); FreeIsSet(i) && Tasks(i) && i.stage == [] && |i.free| == workers
  {
  }

  /** In particular a task with a valid affinity is only ever in the mailbox of that worker, run by
      it, or finished by it. */
  lemma {:induction false} AffinityIsKept(workers: nat, queueCap: nat, boxCap: nat, sched: Schedule, k: nat)
    requires 1 <= workers && 1 <= boxCap && Fits(sched, workers)
    ensures var s := Run(Init(workers, queueCap, boxCap), sched);
      k < |s.stage| && 0 <= s.affinity[k] < workers ==>
        s.stage[k] in {Queued, InHand, Lost, InBox(s.affinity[k]), Running(s.affinity[k]), Finished(s.affinity[k])}
  {
    hide Bounded, Run, Step, FetchedAt, Tasks, FreeIsSet;
    var i := Init(workers, queueCap, boxCap);
    assert FreeIsSet(i) && Tasks(i) && i.stage == [] && |i.free| == workers by { InitSets(workers, queueCap, boxCap); }
    var s := Run(i, sched);
    assert |s.stage| == |s.affinity| by { OneAffinityEach(s); }
    assert sched[..|sched|] == sched;
    if k < |s.stage| && 0 <= s.affinity[k] < workers && s.stage[k] != Queued {
      var at, w := WasFetched(i, sched, |sched|, k);
      FetchedPinned(i, sched, k, at, w);
    }
  }

  lemma OneAffinityEach(s: State)
    requires Bounded(s)
    ensures |s.stage| == |s.affinity|
  {
  }

  lemma {:induction false} AffinityStays(s: State, sched: Schedule, lo: nat, hi: nat)
    requires Bounded(s) && Fits(sched, |s.free|) && lo <= hi <= |sched|
    ensures Run(s, sched[..lo]).affinity <= Run(s, sched[..hi]).affinity
  {
    hide Bounded, Run, Step;
    if lo < hi {
      AffinityStays(s, sched, lo, hi - 1);
      RunOneMore(s, sched, hi - 1);
      StagesGrow(Run(s, sched[..hi - 1]), sched[hi - 1]);
    }
  }

  lemma {:induction false} FetchedPinned(s: State, sched: Schedule, k: nat, i: nat, w: nat)
    requires Bounded(s) && Fits(sched, |s.free|) && i < |sched| && FetchedAt(s, sched, k, i, w)
    requires var r := Run(s, sched); k < |r.affinity| && 0 <= r.affinity[k] < |s.free|
    ensures w == Run(s, sched).affinity[k]
  {
    hide Run, Step;
    assert sched[..|sched|] == sched;
    AffinityStays(s, sched, i, |sched|);
  }

  // ----- The chosen worker -----

  // The dispatcher is giving worker w a task.
  predicate Serves(d: DispatcherPc, w: int) { (d.ClearBits? || d.Push? || d.Signal?) && d.w == w }

  // A worker that is chosen is the first whose bit is set; it stays chosen until it gets a task.
  ghost predicate ChoiceStep(s: State, r: State)
    requires Bounded(s) && Bounded(r) && |r.free| == |s.free|
  {
    && (s.freeWorker < 0 <= r.freeWorker ==> s.free[r.freeWorker] && forall u :: 0 <= u < r.freeWorker ==> !s.free[u])
    && (s.freeWorker >= 0 && r.freeWorker != s.freeWorker ==>
          r.freeWorker == -1 && (Serves(s.disp, s.freeWorker) || Serves(r.disp, s.freeWorker)))
  }

  lemma ChoosesFirst(s: State, e: Event)
    requires Bounded(s) && Chosen(s) && (e.Work? ==> e.w < |s.free|)
    ensures ChoiceStep(s, Step(s, e))
  {
    hide DispatcherStep;
    match e
    case Post(_) =>
    case Dispatch(pick) => DispatcherChooses(s, pick);
    case Work(w, timeout) => WorkerKeepsDispatcher(s, w, timeout);
  }

  lemma DispatcherChooses(s: State, pick: nat)
    requires Bounded(s) && Chosen(s)
    ensures ChoiceStep(s, DispatcherStep(s, pick))
  {
    hide FirstFree, RemoveAt;
    if s.disp.Select? { var c := FirstFree(s.free); }
  }

  /** Every step of every run: the dispatcher chooses the first worker whose bit is set, and a
      worker stays chosen until the dispatcher gives it a task. */
  lemma {:induction false} ChoiceIsKept(workers: nat, queueCap: nat, boxCap: nat, sched: Schedule, e: Event)
    requires 1 <= workers && 1 <= boxCap && Fits(sched, workers) && (e.Work? ==> e.w < workers)
    ensures var s := Run(Init(workers, queueCap, boxCap), sched); |s.free| == workers && ChoiceStep(s, Step(s, e))
  {
    hide Bounded, Run, Step, Inv, ChoiceStep;
    var i := Init(workers, queueCap, boxCap);
    InitInv(workers, queueCap, boxCap);
    assert |i.free| == workers && Bounded(i) by { InitSets(workers, queueCap, boxCap); }
    RunInv(i, sched);
    assert Chosen(Run(i, sched)) by { InvChosen(Run(i, sched)); }
    ChoosesFirst(Run(i, sched), e);
  }

  // ----- Accepted tasks are the posts that found room -----

  ghost function AcceptedPosts(s: State, sched: Schedule): seq<int>
    requires Bounded(s) && Fits(sched, |s.free|)
    decreases |sched|
  {
    if sched == [] then []
    else
      var k := |sched| - 1;
      AcceptedPosts(s, sched[..k]) +
        (if sched[k].Post? && |Run(s, sched[..k]).queue| < s.queueCap then [sched[k].affinity] else [])
  }

  lemma PostStep(s: State, e: Event)
    requires Bounded(s) && (e.Work? ==> e.w < |s.free|)
    ensures var r := Step(s, e);
      && r.queueCap == s.queueCap
      && r.affinity == s.affinity + (if e.Post? && |s.queue| < s.queueCap then [e.affinity] else [])
  {
    hide FirstFree, RemoveAt;
  }

  /** PostTask refuses a task exactly when the queue is full; the tasks of the pool are the others,
      with their affinities, in the order in which they were posted. */
  lemma {:induction false} TasksAreThePosts(workers: nat, queueCap: nat, boxCap: nat, sched: Schedule)
    requires 1 <= workers && 1 <= boxCap && Fits(sched, workers)
    ensures var i := Init(workers, queueCap, boxCap); var s := Run(i, sched);
      s.queueCap == queueCap && s.affinity == AcceptedPosts(i, sched)
    decreases |sched|
  {
    hide Bounded, Step;
    if sched != [] {
      var k := |sched| - 1;
      TasksAreThePosts(workers, queueCap, boxCap, sched[..k]);
      PostStep(Run(Init(workers, queueCap, boxCap), sched[..k]), sched[k]);
    }
  }
}

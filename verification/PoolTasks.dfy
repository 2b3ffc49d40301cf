/** Where the pool's tasks are, with and without affinities. */
module PoolTasks {
  import opened NodeList
  import opened WorkerMask
  import opened PoolDispatch
  import opened PoolLiveness

  // ----- Every accepted task is in exactly one stage -----

  ghost predicate QueueOk(s: State)
    requires Bounded(s)
  {
    && NoDup(s.queue)
    && (forall i :: 0 <= i < |s.queue| ==> s.stage[s.queue[i]] == Queued)
    && (forall k :: 0 <= k < |s.stage| && s.stage[k] == Queued ==> k in s.queue)
  }

  predicate InHandOf(d: DispatcherPc, k: nat) { (d.ClearBits? || d.Push?) && d.task == k }

  ghost predicate HandOk(s: State)
    requires Bounded(s)
  {
    forall k :: 0 <= k < |s.stage| ==> (s.stage[k] == InHand <==> InHandOf(s.disp, k))
  }

  ghost predicate BoxesOk(s: State)
    requires Bounded(s)
  {
    && (forall w :: 0 <= w < |s.box| ==> NoDup(s.box[w]))
    && (forall w, i :: 0 <= w < |s.box| && 0 <= i < |s.box[w]| ==> s.stage[s.box[w][i]] == InBox(w))
    && (forall k :: 0 <= k < |s.stage| && s.stage[k].InBox? ==> s.stage[k].w < |s.box| && k in s.box[s.stage[k].w])
  }

  ghost predicate RunningOk(s: State)
    requires Bounded(s)
  {
    && (forall w :: 0 <= w < |s.wpc| && s.wpc[w].RunTask? ==> s.stage[s.wpc[w].task] == Running(w))
    && (forall k :: 0 <= k < |s.stage| && s.stage[k].Running? ==> s.stage[k].w < |s.wpc| && s.wpc[s.stage[k].w] == RunTask(k))
  }

  ghost predicate RanOk(s: State)
    requires Bounded(s)
  {
    && NoDup(s.ran)
    && (forall i :: 0 <= i < |s.ran| ==> s.ran[i] < |s.stage|)
    && (forall k :: 0 <= k < |s.stage| ==> (k in s.ran <==> s.stage[k].Running? || s.stage[k].Finished?))
  }

  ghost predicate Tasks(s: State)
    requires Bounded(s)
  {
    QueueOk(s) && HandOk(s) && BoxesOk(s) && RunningOk(s) && RanOk(s)
  }

  lemma Removed(xs: seq<nat>, k: nat)
    requires NoDup(xs) && k < |xs|
    ensures NoDup(RemoveAt(xs, k)) && forall x :: x in RemoveAt(xs, k) <==> x in xs && x != xs[k]
    ensures forall i :: 0 <= i < |RemoveAt(xs, k)| ==> RemoveAt(xs, k)[i] in xs
  {
    var ys := RemoveAt(xs, k);
    assert forall i :: 0 <= i < |ys| ==> ys[i] == xs[if i < k then i else i + 1];
    forall x | x in xs && x != xs[k]
      ensures x in ys
    {
      var i :| 0 <= i < |xs| && xs[i] == x;
      assert ys[if i < k then i else i - 1] == x;
    }
  }

  lemma PostedTasks(s: State, affinity: int)
    requires Bounded(s) && Tasks(s)
    ensures Tasks(Posted(s, affinity))
  {
    var r := Posted(s, affinity);
    assert forall k :: 0 <= k < |s.stage| ==> r.stage[k] == s.stage[k];
    if |s.queue| < s.queueCap { assert r.queue[|s.queue|] == |s.stage|; }
    assert forall k :: k in s.queue ==> k in r.queue;
  }

  lemma FetchedTasks(s: State, pick: nat)
    requires Bounded(s) && Tasks(s) && s.disp.Fetch? && pick < |s.queue| && 0 <= s.freeWorker
    ensures Tasks(Fetched(s, pick))
  {
    hide RemoveAt;
    Removed(s.queue, pick);
    var r := Fetched(s, pick);
    var task := s.queue[pick];
    assert r.stage == s.stage[task := InHand] && r.box == s.box && r.wpc == s.wpc && r.ran == s.ran;
    assert r.queue == RemoveAt(s.queue, pick) && InHandOf(r.disp, task);
  }

  lemma PushedStages(s: State)
    requires Bounded(s) && QueueOk(s) && HandOk(s) && RunningOk(s) && RanOk(s) && s.disp.Push?
    ensures var r := DispatcherStep(s, 0); QueueOk(r) && HandOk(r) && RunningOk(r) && RanOk(r)
  {
    hide NoDup;
    var r := DispatcherStep(s, 0);
    var task := s.disp.task;
    assert InHandOf(s.disp, task);
    assert r.stage == s.stage[task := r.stage[task]] && (r.stage[task].InBox? || r.stage[task].Lost?);
    assert r.queue == s.queue && r.wpc == s.wpc && r.ran == s.ran;
  }

  lemma PushedBoxes(s: State)
    requires Bounded(s) && HandOk(s) && BoxesOk(s) && s.disp.Push?
    ensures BoxesOk(DispatcherStep(s, 0))
  {
    var r := DispatcherStep(s, 0);
    var task, w := s.disp.task, s.disp.w;
    assert InHandOf(s.disp, task);
    assert forall k :: 0 <= k < |s.stage| && k != task ==> r.stage[k] == s.stage[k];
    if |s.box[w]| < s.boxCap {
      assert r.box[w] == s.box[w] + [task];
      assert forall k :: k in s.box[w] ==> k in r.box[w];
      assert task in r.box[w];
    }
  }

  lemma PushedTasks(s: State)
    requires Bounded(s) && Tasks(s) && s.disp.Push?
    ensures Tasks(DispatcherStep(s, 0))
  {
    hide DispatcherStep, QueueOk, HandOk, BoxesOk, RunningOk, RanOk;
    PushedStages(s);
    PushedBoxes(s);
  }

  lemma DispatcherTasks(s: State, pick: nat)
    requires Bounded(s) && Tasks(s)
    ensures Tasks(DispatcherStep(s, pick))
  {
    hide Fetched, RemoveAt;
    if s.disp.Fetch? && pick < |s.queue| && s.freeWorker >= 0 {
      FetchedTasks(s, pick);
    } else if s.disp.Push? {
      PushedTasks(s);
    } else {
      OtherDispatch(s, pick);
    }
  }

  lemma OtherDispatch(s: State, pick: nat)
    requires Bounded(s) && Tasks(s) && !s.disp.Push? && !(s.disp.Fetch? && pick < |s.queue| && s.freeWorker >= 0)
    ensures Tasks(DispatcherStep(s, pick))
  {
    hide FirstFree, NoDup;
    var r := DispatcherStep(s, pick);
    assert r.stage == s.stage && r.queue == s.queue && r.box == s.box && r.wpc == s.wpc && r.ran == s.ran;
  }

  lemma TakenTasks(s: State, w: nat)
    requires Bounded(s) && Tasks(s) && w < |s.free| && s.wpc[w].Take? && s.box[w] != []
    ensures var r := WorkerStep(s, w, false); QueueOk(r) && HandOk(r) && RunningOk(r) && RanOk(r)
  {
    var r := WorkerStep(s, w, false);
    var task := s.box[w][0];
    assert s.stage[task] == InBox(w);
    assert forall k :: 0 <= k < |s.stage| && k != task ==> r.stage[k] == s.stage[k];
    assert task !in s.ran;
    assert r.ran[|s.ran|] == task;
  }

  lemma TakenBoxes(s: State, w: nat)
    requires Bounded(s) && BoxesOk(s) && w < |s.free| && s.wpc[w].Take? && s.box[w] != []
    ensures BoxesOk(WorkerStep(s, w, false))
  {
    var r := WorkerStep(s, w, false);
    var task := s.box[w][0];
    assert s.stage[task] == InBox(w);
    assert r.box[w] == s.box[w][1..] == RemoveAt(s.box[w], 0);
    Removed(s.box[w], 0);
    assert forall k :: 0 <= k < |s.stage| && k != task ==> r.stage[k] == s.stage[k];
  }

  lemma FinishedTasks(s: State, w: nat)
    requires Bounded(s) && Tasks(s) && w < |s.free| && s.wpc[w].RunTask?
    ensures Tasks(WorkerStep(s, w, false))
  {
    var r := WorkerStep(s, w, false);
    var task := s.wpc[w].task;
    assert forall k :: 0 <= k < |s.stage| && k != task ==> r.stage[k] == s.stage[k];
  }

  lemma OtherWork(s: State, w: nat, timeout: bool)
    requires Bounded(s) && Tasks(s) && w < |s.free| && !(s.wpc[w].Take? && s.box[w] != []) && !s.wpc[w].RunTask?
    ensures Tasks(WorkerStep(s, w, timeout))
  {
    hide NoDup;
    var r := WorkerStep(s, w, timeout);
    assert r.stage == s.stage && r.queue == s.queue && r.box == s.box && r.disp == s.disp && r.ran == s.ran;
    assert forall u :: 0 <= u < |s.wpc| && u != w ==> r.wpc[u] == s.wpc[u];
    assert !r.wpc[w].RunTask?;
  }

  lemma WorkerTasks(s: State, w: nat, timeout: bool)
    requires Bounded(s) && Tasks(s) && w < |s.free|
    ensures Tasks(WorkerStep(s, w, timeout))
  {
    hide QueueOk, HandOk, BoxesOk, RunningOk, RanOk;
    if s.wpc[w].Take? && s.box[w] != [] {
      TakenTasks(s, w);
      TakenBoxes(s, w);
    } else if s.wpc[w].RunTask? {
      FinishedTasks(s, w);
    } else {
      OtherWork(s, w, timeout);
    }
  }

  lemma {:induction false} RunTasks(s: State, sched: Schedule)
    requires Bounded(s) && Fits(sched, |s.free|) && Tasks(s)
    ensures Tasks(Run(s, sched))
  {
    hide Bounded, Tasks, DispatcherStep, WorkerStep, Posted;
    if sched != [] {
      var k := |sched| - 1;
      RunTasks(s, sched[..k]);
      var m := Run(s, sched[..k]);
      match sched[k]
      case Post(affinity) => PostedTasks(m, affinity);
      case Dispatch(pick) => DispatcherTasks(m, pick);
      case Work(w, timeout) => WorkerTasks(m, w, timeout);
    }
  }

  /** With any affinities: each accepted task is in exactly one of the pool's queue, the
      dispatcher's hands, one mailbox and one worker's hands, or is finished, or was refused by a
      full mailbox; and no task is started twice. */
  lemma {:induction false} EachTaskInOneStage(workers: nat, queueCap: nat, boxCap: nat, sched: Schedule)
    requires 1 <= workers && 1 <= boxCap && Fits(sched, workers)
    ensures Tasks(Run(Init(workers, queueCap, boxCap), sched))
  {
    RunTasks(Init(workers, queueCap, boxCap), sched);
  }

  // ----- Without affinities: a set bit means nothing outstanding -----

  predicate Unpinned(sched: Schedule, workers: nat) {
    forall k :: 0 <= k < |sched| && sched[k].Post? ==> !(0 <= sched[k].affinity < workers)
  }

  ghost predicate NoPins(s: State)
    requires Bounded(s)
  {
    forall k :: 0 <= k < |s.stage| ==> !Pinned(s, k) && s.stage[k] != Lost
  }

  // The tasks that worker w has been given and has not finished.
  function Load(s: State, w: nat): nat
    requires Bounded(s) && w < |s.free|
  {
    |s.box[w]| + (if s.wpc[w].RunTask? || s.wpc[w].Done? then 1 else 0) + (if s.disp.Push? && s.disp.w == w then 1 else 0)
  }

  ghost predicate Loads(s: State)
    requires Bounded(s)
  {
    forall w :: 0 <= w < |s.free| ==> Load(s, w) == if s.free[w] then 0 else 1
  }

  ghost predicate ChosenIsFree(s: State)
    requires Bounded(s)
  {
    && (s.freeWorker >= 0 && !s.disp.Push? && !s.disp.Signal? ==> s.free[s.freeWorker])
    && (s.disp.ClearBits? || s.disp.Push? || s.disp.Signal? ==> s.disp.own)
  }

  ghost predicate Light(s: State)
    requires Bounded(s)
  {
    NoPins(s) && Loads(s) && ChosenIsFree(s)
  }

  lemma PostedLight(s: State, affinity: int)
    requires Bounded(s) && Light(s) && !(0 <= affinity < |s.free|)
    ensures Light(Posted(s, affinity))
  {
    var r := Posted(s, affinity);
    assert forall w :: 0 <= w < |s.free| ==> Load(r, w) == Load(s, w);
    assert forall k :: 0 <= k < |s.stage| ==> (Pinned(r, k) <==> Pinned(s, k)) && r.stage[k] == s.stage[k];
  }

  lemma DispatcherLight(s: State, pick: nat)
    requires Bounded(s) && Chosen(s) && Light(s)
    ensures Light(DispatcherStep(s, pick))
  {
    hide FirstFree, RemoveAt;
    var r := DispatcherStep(s, pick);
    if s.disp.Push? { assert Load(s, s.disp.w) >= 1; }
    if s.disp.ClearBits? { assert s.free[s.disp.w]; }
    assert forall k :: 0 <= k < |s.stage| ==> (Pinned(r, k) <==> Pinned(s, k));
    forall w | 0 <= w < |r.free|
      ensures Load(r, w) == if r.free[w] then 0 else 1
    {
      assert Load(s, w) == if s.free[w] then 0 else 1;
    }
  }

  lemma WorkerLoad(s: State, w: nat, timeout: bool)
    requires Bounded(s) && w < |s.free| && Load(s, w) == if s.free[w] then 0 else 1
    ensures var r := WorkerStep(s, w, timeout); Load(r, w) == if r.free[w] then 0 else 1
  {
  }

  lemma WorkerPins(s: State, w: nat, timeout: bool)
    requires Bounded(s) && NoPins(s) && ChosenIsFree(s) && w < |s.free|
    ensures var r := WorkerStep(s, w, timeout); NoPins(r) && ChosenIsFree(r)
  {
    var r := WorkerStep(s, w, timeout);
    assert r.affinity == s.affinity;
    assert forall k :: 0 <= k < |s.stage| ==> (Pinned(r, k) <==> Pinned(s, k));
  }

  lemma WorkerLight(s: State, w: nat, timeout: bool)
    requires Bounded(s) && Light(s) && w < |s.free|
    ensures Light(WorkerStep(s, w, timeout))
  {
    hide WorkerStep, NoPins, ChosenIsFree;
    var r := WorkerStep(s, w, timeout);
    WorkerPins(s, w, timeout);
    WorkerKeepsDispatcher(s, w, timeout);
    forall u | 0 <= u < |r.free|
      ensures Load(r, u) == if r.free[u] then 0 else 1
    {
      assert Load(s, u) == if s.free[u] then 0 else 1;
      if u != w { WorkerElsewhere(s, w, timeout, u); } else { WorkerLoad(s, w, timeout); }
    }
  }

  lemma {:induction false} RunLight(s: State, sched: Schedule)
    requires Bounded(s) && Fits(sched, |s.free|) && Inv(s) && Light(s) && Unpinned(sched, |s.free|)
    ensures Light(Run(s, sched)) && Inv(Run(s, sched))
  {
    hide Bounded, Light, Inv, DispatcherStep, WorkerStep, Posted;
    if sched != [] {
      var k := |sched| - 1;
      RunLight(s, sched[..k]);
      var m := Run(s, sched[..k]);
      StepInv(m, sched[k]);
      match sched[k]
      case Post(affinity) => PostedLight(m, affinity);
      case Dispatch(pick) =>
        assert Chosen(m) by { InvChosen(m); }
        DispatcherLight(m, pick);
      case Work(w, timeout) => WorkerLight(m, w, timeout);
    }
  }

  lemma InvChosen(s: State)
    requires Inv(s)
    ensures Bounded(s) && Chosen(s)
  {
  }

  /** Without affinities, a worker's bit is set exactly when it has nothing outstanding, otherwise
      it has exactly one task; so no mailbox overflows and no accepted task is lost. */
  lemma {:induction false} FreeMeansIdle(workers: nat, queueCap: nat, boxCap: nat, sched: Schedule, w: nat)
    requires 1 <= workers && 1 <= boxCap && Fits(sched, workers) && Unpinned(sched, workers) && w < workers
    ensures var s := Run(Init(workers, queueCap, boxCap), sched);
      && |s.free| == workers
      && Load(s, w) == (if s.free[w] then 0 else 1) && (s.free[w] <==> !Holds(s, w))
      && (s.disp.Push? ==> s.box[s.disp.w] == [])
      && forall k :: 0 <= k < |s.stage| ==> s.stage[k] != Lost
  {
    hide Bounded, Step;
    var i := Init(workers, queueCap, boxCap);
    InitInv(workers, queueCap, boxCap);
    assert Light(i) by { InitLight(workers, queueCap, boxCap); }
    RunLight(i, sched);
    LightHolds(Run(i, sched), w);
  }

  lemma InitLight(workers: nat, queueCap: nat, boxCap: nat)
    requires 1 <= workers && 1 <= boxCap
    ensures Light(Init(workers, queueCap, boxCap))
  {
  }

  lemma LightHolds(s: State, w: nat)
    requires Inv(s) && Light(s) && w < |s.free|
    ensures s.free[w] <==> !Holds(s, w)
    ensures s.disp.Push? ==> s.box[s.disp.w] == []
  {
    assert Load(s, w) == if s.free[w] then 0 else 1;
    if s.disp.Push? { assert Load(s, s.disp.w) <= 1; }
  }
}

/**
  Dispatcher and its workers (thread/src/ThreadPool.cc, thread/src/WorkerBodyBase.cc) before any
  shutdown, as a machine of steps: free-worker bits, notification tokens, mailboxes.
 */
module PoolDispatch {
  import opened WorkerMask

  // The dispatcher's next step.  `own` says that the task goes to freeWorker_.
  datatype DispatcherPc =
    | Prepare                                  // if (freeWorker_) return
    | WaitToken                                // sem_wait(&workerNotify_)
    | Select                                   // SelectFreeWorker
    | Fetch                                    // GetRunTask
    | ClearBits(task: nat, w: nat, own: bool)  // freeWorkerBit_ &= ~(1 << w)
    | Push(task: nat, w: nat, own: bool)       // PushTaskToContainer
    | Signal(w: nat, own: bool)                // SignalPost

  // A worker's next step; there are no commands before shutdown.
  datatype WorkerPc =
    | Try(req: nat)                            // TryConsume, or go to sleep past the threshold
    | Request(req: nat)                        // Notify(): sem_post(&workerNotify_)
    | Timed(req: nat)                          // SignalConsumeTimeout
    | Block                                    // SignalConsume
    | Take                                     // GetTaskFromContainer
    | RunTask(task: nat)                       // task->Run()
    | Done                                     // NotifyDone(): freeWorkerBit_ |= 1 << w
    | NullTask

  // History: where each accepted task is.
  datatype Stage = Queued | InHand | InBox(w: nat) | Running(w: nat) | Finished(w: nat) | Lost

  // Tasks are numbered in the order of their acceptance; affinity[k] is task k's GetAffinity().
  // `ran` lists, as history, the tasks in the order in which they were started.
  datatype State = State(queueCap: nat, boxCap: nat, affinity: seq<int>, queue: seq<nat>,
                         free: seq<bool>, tokens: nat, freeWorker: int, disp: DispatcherPc,
                         box: seq<seq<nat>>, permits: seq<nat>, wpc: seq<WorkerPc>,
                         stage: seq<Stage>, ran: seq<nat>)

  // A task is posted to the pool; the dispatcher moves, fetching the pick-th queued task; or a
  // worker moves, perhaps because its wait timed out.
  datatype Event = Post(affinity: int) | Dispatch(pick: nat) | Work(w: nat, timeout: bool)

  const THRESHOLD: nat := 3

  predicate DispOk(d: DispatcherPc, workers: nat, tasks: nat) {
    match d
    case ClearBits(task, w, _) => task < tasks && w < workers
    case Push(task, w, _) => task < tasks && w < workers
    case Signal(w, _) => w < workers
    case _ => true
  }

  predicate Bounded(s: State) {
    && 1 <= |s.free| && |s.box| == |s.permits| == |s.wpc| == |s.free| && 1 <= s.boxCap
    && |s.stage| == |s.affinity|
    && -1 <= s.freeWorker < |s.free|
    && (forall i :: 0 <= i < |s.queue| ==> s.queue[i] < |s.stage|)
    && (forall w :: 0 <= w < |s.box| ==> forall i :: 0 <= i < |s.box[w]| ==> s.box[w][i] < |s.stage|)
    && (forall w :: 0 <= w < |s.wpc| ==> s.wpc[w].RunTask? ==> s.wpc[w].task < |s.stage|)
    && DispOk(s.disp, |s.free|, |s.stage|)
  }

  function Init(workers: nat, queueCap: nat, boxCap: nat): (s: State)
    requires 1 <= workers && 1 <= boxCap
    ensures Bounded(s)
  {
    State(queueCap, boxCap, [], [], seq(workers, w => true), workers, -1, Prepare,
          seq(workers, w => []), seq(workers, w => 0), seq(workers, w => Try(0)), [], [])
  }

  function RemoveAt(xs: seq<nat>, k: nat): seq<nat>
    requires k < |xs|
  {
    xs[..k] + xs[k + 1..]
  }

  // ThreadPool::PostTask.
  function Posted(s: State, affinity: int): (r: State)
    requires Bounded(s)
    ensures Bounded(r) && |r.free| == |s.free|
  {
    if |s.queue| >= s.queueCap then s
    else s.(queue := s.queue + [|s.stage|], affinity := s.affinity + [affinity], stage := s.stage + [Queued])
  }

  // A task without a valid affinity goes to freeWorker_.
  predicate Pinned(s: State, task: nat)
    requires |s.stage| == |s.affinity| && task < |s.stage|
  {
    0 <= s.affinity[task] < |s.free|
  }

  function Fetched(s: State, pick: nat): (r: State)
    requires Bounded(s) && pick < |s.queue| && 0 <= s.freeWorker
    ensures Bounded(r) && |r.free| == |s.free|
  {
    var task := s.queue[pick];
    var h := s.(queue := RemoveAt(s.queue, pick), stage := s.stage[task := InHand]);
    if !Pinned(s, task) then
      h.(disp := ClearBits(task, s.freeWorker, true))
    else
      var w := s.affinity[task];
      h.(disp := ClearBits(task, w, false), freeWorker := if s.freeWorker == w then -1 else s.freeWorker)
  }

  function DispatcherStep(s: State, pick: nat): (r: State)
    requires Bounded(s)
    ensures Bounded(r) && |r.free| == |s.free|
  {
    match s.disp
    case Prepare => s.(disp := if s.freeWorker >= 0 then Fetch else WaitToken)
    case WaitToken => if s.tokens == 0 then s else s.(tokens := s.tokens - 1, disp := Select)
    case Select =>
      var c := FirstFree(s.free);
      if c == |s.free| then s.(disp := WaitToken) else s.(freeWorker := c, disp := Fetch)
    case Fetch => if pick >= |s.queue| || s.freeWorker < 0 then s else Fetched(s, pick)
    case ClearBits(task, w, own) => s.(free := s.free[w := false], disp := Push(task, w, own))
    case Push(task, w, own) =>
      if |s.box[w]| >= s.boxCap then
        // the result of PostTask is ignored
        s.(disp := Prepare, freeWorker := if own then -1 else s.freeWorker, stage := s.stage[task := Lost])
      else
        s.(disp := Signal(w, own), box := s.box[w := s.box[w] + [task]], stage := s.stage[task := InBox(w)])
    case Signal(w, own) =>
      s.(disp := Prepare, permits := s.permits[w := s.permits[w] + 1], freeWorker := if own then -1 else s.freeWorker)
  }

  function Consume(s: State, w: nat, otherwise: WorkerPc): (r: State)
    requires Bounded(s) && w < |s.free| && !otherwise.RunTask?
    ensures Bounded(r) && |r.free| == |s.free|
  {
    if s.permits[w] > 0 then s.(permits := s.permits[w := s.permits[w] - 1], wpc := s.wpc[w := Take])
    else s.(wpc := s.wpc[w := otherwise])
  }

  function WorkerStep(s: State, w: nat, timeout: bool): (r: State)
    requires Bounded(s) && w < |s.free|
    ensures Bounded(r) && |r.free| == |s.free|
  {
    match s.wpc[w]
    case Try(req) => if req > THRESHOLD then s.(wpc := s.wpc[w := Block]) else Consume(s, w, Request(req))
    case Request(req) => s.(tokens := s.tokens + 1, wpc := s.wpc[w := Timed(req + 1)])
    case Timed(req) => if timeout then s.(wpc := s.wpc[w := Try(req)]) else Consume(s, w, Timed(req))
    case Block => Consume(s, w, Block)
    case Take =>
      if s.box[w] == [] then s.(wpc := s.wpc[w := NullTask])
      else
        var task := s.box[w][0];
        s.(box := s.box[w := s.box[w][1..]], wpc := s.wpc[w := RunTask(task)],
           stage := s.stage[task := Running(w)], ran := s.ran + [task])
    case RunTask(task) => s.(wpc := s.wpc[w := Done], stage := s.stage[task := Finished(w)])
    case Done => s.(free := s.free[w := true], wpc := s.wpc[w := Try(0)])
    case NullTask => s
  }

  function Step(s: State, e: Event): (r: State)
    requires Bounded(s) && (e.Work? ==> e.w < |s.free|)
    ensures Bounded(r) && |r.free| == |s.free|
  {
    match e
    case Post(affinity) => Posted(s, affinity)
    case Dispatch(pick) => DispatcherStep(s, pick)
    case Work(w, timeout) => WorkerStep(s, w, timeout)
  }

  type Schedule = seq<Event>

  predicate Fits(sched: Schedule, workers: nat) {
    forall k :: 0 <= k < |sched| && sched[k].Work? ==> sched[k].w < workers
  }

  function Run(s: State, sched: Schedule): (r: State)
    requires Bounded(s) && Fits(sched, |s.free|)
    ensures Bounded(r) && |r.free| == |s.free|
    decreases |sched|
  {
    if sched == [] then s
    else
      var k := |sched| - 1;
      Step(Run(s, sched[..k]), sched[k])
  }

  // ----- The pool does not wedge -----

  // The dispatcher has cleared w's bit and is posting to it.
  predicate Bringing(d: DispatcherPc, w: nat) { (d.Push? || d.Signal?) && d.w == w }

  // Worker w has work: in its mailbox, in its hands, or on its way.
  ghost predicate Holds(s: State, w: nat)
    requires Bounded(s) && w < |s.free|
  {
    s.box[w] != [] || s.wpc[w].Take? || s.wpc[w].RunTask? || s.wpc[w].Done? || Bringing(s.disp, w)
  }

  // Worker w still owes the first request of its round.
  predicate Owes(c: WorkerPc) { c == Try(0) || c == Request(0) }

  ghost predicate Busy(s: State, w: nat)
    requires Bounded(s)
  {
    w < |s.free| && (Holds(s, w) || Owes(s.wpc[w]))
  }

  ghost predicate Alive(s: State)
    requires Bounded(s)
  {
    s.tokens > 0 || s.disp.Select? || s.freeWorker >= 0 || s.disp.ClearBits? || exists w :: Busy(s, w)
  }

  // A worker's mailbox is its permits, plus a task not yet signalled, plus a permit not yet used.
  ghost predicate Balanced(s: State)
    requires Bounded(s)
  {
    forall w :: 0 <= w < |s.free| ==>
      && s.wpc[w] != NullTask
      && |s.box[w]| == s.permits[w] + (if s.disp.Signal? && s.disp.w == w then 1 else 0) + (if s.wpc[w].Take? then 1 else 0)
  }

  ghost predicate Chosen(s: State)
    requires Bounded(s)
  {
    && (s.disp.WaitToken? || s.disp.Select? ==> s.freeWorker == -1)
    && (s.disp.Fetch? ==> s.freeWorker >= 0)
    && ((s.disp.ClearBits? || s.disp.Push? || s.disp.Signal?) && s.disp.own ==> s.freeWorker == s.disp.w)
  }

  // A cleared bit means work.
  ghost predicate Cleared(s: State)
    requires Bounded(s)
  {
    forall w :: 0 <= w < |s.free| && !s.free[w] ==> Holds(s, w)
  }

  ghost predicate Inv(s: State) { Bounded(s) && Balanced(s) && Chosen(s) && Cleared(s) && Alive(s) }

  lemma InitInv(workers: nat, queueCap: nat, boxCap: nat)
    requires 1 <= workers && 1 <= boxCap
    ensures Inv(Init(workers, queueCap, boxCap))
  {
  }
}

/**
  Dispatcher in place, with its 64-bit mask: every step is the step of the machine in module
  PoolDispatch, whose free workers the mask stands for.
 */
module ThreadPool {
  import opened WorkerMask
  import opened PoolDispatch

  class Dispatcher {
    const workerNum: nat
    const queueCap: nat
    const boxCap: nat
    var freeWorkerBit: nat
    var workerNotify: nat
    var freeWorker: int             // -1 is null
    var queue: seq<nat>
    var mailbox: seq<seq<nat>>      // of each worker
    var sem: seq<nat>               // of each worker
    var disp: DispatcherPc
    var wpc: seq<WorkerPc>
    var affinity: seq<int>
    ghost var free: seq<bool>
    ghost var stage: seq<Stage>
    ghost var ran: seq<nat>

    ghost function St(): State
      reads this
    {
      State(queueCap, boxCap, affinity, queue, free, workerNotify, freeWorker, disp, mailbox, sem, wpc, stage, ran)
    }

    ghost predicate Valid()
      reads this
    {
      Bounded(St()) && |free| == workerNum && Stands(freeWorkerBit, free)
    }

    constructor (workers: nat, queueCap: nat, boxCap: nat)
      requires 1 <= workers <= 32 && 1 <= boxCap
      ensures Valid() && St() == Init(workers, queueCap, boxCap)
    {
      workerNum, this.queueCap, this.boxCap := workers, queueCap, boxCap;
      freeWorkerBit := FirstMask(workers);
      workerNotify, freeWorker, queue, affinity := workers, -1, [], [];
      mailbox, sem, wpc := seq(workers, w => []), seq(workers, w => 0), seq(workers, w => Try(0));
      disp := Prepare;
      free, stage, ran := seq(workers, w => true), [], [];
      FirstStands(workers);
    }

    // ThreadPool::PostTask.
    method PostTask(aff: int) returns (ok: bool)
      requires Valid()
      modifies this
      ensures St() == Posted(old(St()), aff) && Valid() && ok == (|old(queue)| < queueCap)
    {
      ok := |queue| < queueCap;
      if ok {
        queue, affinity, stage := queue + [|affinity|], affinity + [aff], stage + [Queued];
      }
    }

    method SelectFree() returns (c: int)
      requires Valid()
      ensures var f := FirstFree(free); c == if f == |free| then -1 else f
    {
      hide Pow2, Bit, SetBit, ClearBit;
      LowestIsFirstFree(freeWorkerBit, free);
      c := SelectFreeWorker(freeWorkerBit, workerNum);
    }

    // The next step of PrepareWorker.
    method PrepareWorker()
      requires Valid() && (disp.Prepare? || disp.WaitToken? || disp.Select?)
      modifies this
      ensures St() == DispatcherStep(old(St()), 0) && Valid()
    {
      hide Stands, FirstFree, DispOk;
      match disp
      case Prepare => disp := if freeWorker >= 0 then Fetch else WaitToken;
      case WaitToken =>
        if workerNotify > 0 {
          workerNotify := workerNotify - 1;
          disp := Select;
        }
      case Select =>
        var c := SelectFree();
        if c < 0 {
          disp := WaitToken;
        } else {
          freeWorker := c;
          disp := Fetch;
        }
    }

    // GetRunTask takes some queued task; DispatchTask looks at its affinity.
    method FetchTask(pick: nat)
      requires Valid() && disp.Fetch? && pick < |queue| && freeWorker >= 0
      modifies this
      ensures St() == Fetched(old(St()), pick) && Valid()
    {
      hide Stands;
      var task := queue[pick];
      queue := RemoveAt(queue, pick);
      stage := stage[task := InHand];
      if affinity[task] < 0 || affinity[task] >= workerNum {
        disp := ClearBits(task, freeWorker, true);
      } else {
        var worker := affinity[task];
        if worker == freeWorker { freeWorker := -1; }
        disp := ClearBits(task, worker, false);
      }
    }

    // The next step of DispatchTask.
    method DispatchTask()
      requires Valid() && (disp.ClearBits? || disp.Push? || disp.Signal?)
      modifies this
      ensures St() == DispatcherStep(old(St()), 0) && Valid()
    {
      hide Stands;
      match disp
      case ClearBits(task, w, own) =>
        assert w < 32 && |free| <= 32 by { AtMost32(); }
        ClearStands(freeWorkerBit, free, w);
        freeWorkerBit := ClearBit(freeWorkerBit, w);
        free := free[w := false];
        disp := Push(task, w, own);
      case Push(task, w, own) =>
        if |mailbox[w]| >= boxCap {
          if own { freeWorker := -1; }
          stage := stage[task := Lost];
          disp := Prepare;
        } else {
          mailbox := mailbox[w := mailbox[w] + [task]];
          stage := stage[task := InBox(w)];
          disp := Signal(w, own);
        }
      case Signal(w, own) =>
        sem := sem[w := sem[w] + 1];
        if own { freeWorker := -1; }
        disp := Prepare;
    }

    lemma AtMost32()
      requires Valid()
      ensures |free| <= 32
    {
    }

    // SetWorkerNotify: a worker asks for a task, or tells that it has finished one.
    method SetWorkerNotify(w: nat, type_: int)
      requires Valid() && w < workerNum
      modifies this`workerNotify, this`freeWorkerBit, this`free
      ensures Valid()
      ensures type_ >= 0 ==> workerNotify == old(workerNotify) + 1 && free == old(free)
      ensures type_ < 0 ==> workerNotify == old(workerNotify) && free == old(free)[w := true]
    {
      if type_ < 0 {
        SetStands(freeWorkerBit, free, w);
        freeWorkerBit := SetBit(freeWorkerBit, w);
        free := free[w := true];
      } else {
        workerNotify := workerNotify + 1;
      }
    }

    method TryConsume(w: nat, otherwise: WorkerPc)
      requires Valid() && w < workerNum && !otherwise.RunTask?
      modifies this`sem, this`wpc
      ensures St() == Consume(old(St()), w, otherwise) && Valid()
    {
      hide Stands;
      if sem[w] > 0 {
        sem := sem[w := sem[w] - 1];
        wpc := wpc[w := Take];
      } else {
        wpc := wpc[w := otherwise];
      }
    }

    // The next step of a worker's Run.
    method WorkerRun(w: nat, timeout: bool)
      requires Valid() && w < workerNum
      modifies this
      ensures St() == WorkerStep(old(St()), w, timeout) && Valid()
    {
      hide Stands;
      match wpc[w]
      case Try(req) => if req > THRESHOLD { wpc := wpc[w := Block]; } else { TryConsume(w, Request(req)); }
      case Request(req) =>
        SetWorkerNotify(w, 0);
        wpc := wpc[w := Timed(req + 1)];
      case Timed(req) => if timeout { wpc := wpc[w := Try(req)]; } else { TryConsume(w, Timed(req)); }
      case Block => TryConsume(w, Block);
      case Take =>
        if mailbox[w] == [] {
          wpc := wpc[w := NullTask];
        } else {
          var task := mailbox[w][0];
          mailbox := mailbox[w := mailbox[w][1..]];
          wpc := wpc[w := RunTask(task)];
          stage := stage[task := Running(w)];
          ran := ran + [task];
        }
      case RunTask(task) =>
        wpc := wpc[w := Done];
        stage := stage[task := Finished(w)];
      case Done =>
        SetWorkerNotify(w, -1);
        wpc := wpc[w := Try(0)];
      case NullTask =>
    }

    // An arbitrary interleaving.
    method RunSchedule(sched: Schedule)
      requires Valid() && Fits(sched, workerNum)
      modifies this
      ensures St() == Run(old(St()), sched) && Valid()
    {
      hide Stands, WorkerStep;
      for k := 0 to |sched|
        invariant Valid() && St() == Run(old(St()), sched[..k])
      {
        assert sched[..k + 1][..k] == sched[..k];
        match sched[k]
        case Post(aff) => var _ := PostTask(aff);
        case Dispatch(pick) =>
          if disp.Fetch? {
            if pick < |queue| && freeWorker >= 0 { FetchTask(pick); }
          } else if disp.Prepare? || disp.WaitToken? || disp.Select? {
            PrepareWorker();
          } else {
            DispatchTask();
          }
        case Work(w, timeout) => WorkerRun(w, timeout);
      }
      assert sched[..|sched|] == sched;
    }
  }
}

/**
  LogWorker (sys/src/Logger.cc) in place, over the linked queue object: every step is the step of
  the machine in module LogWorker.  AllocBuffer's result is an argument of Log.
 */
module Logger {
  import NodeList
  import opened ListQueue
  import opened LockFreeListQueue
  import opened LogWorker

  class Worker {
    const pendingMsg: Queue
    var client: seq<Client>         // where each thread is, with its locals
    var failed: nat                 // calls of DoLog that have given up
    ghost var at: seq<BufferAt>     // where each buffer is
    ghost var shown: seq<Line>      // history: the lines that Flush has dealt with

    ghost function St(): LogState
      reads this, pendingMsg, pendingMsg.next, pendingMsg.data
    {
      LogState(pendingMsg.St(), client, at, failed, shown)
    }

    ghost predicate Valid()
      reads this, pendingMsg, pendingMsg.next, pendingMsg.data
    {
      pendingMsg.Valid() && Fine(St())
    }

    // The queue has one node more than the pool has buffers.
    constructor (size: nat, threads: nat)
      ensures fresh(pendingMsg) && fresh(pendingMsg.next) && fresh(pendingMsg.data)
      ensures pendingMsg.data.Length == size + 1 && St() == LogInit(size, size, pendingMsg.data[..], threads)
      ensures Valid()
    {
      pendingMsg := new Queue(size + 1, threads);
      client := seq(threads, t => Ready);
      at := seq(size, b => InPool);
      failed := 0;
      shown := [];
    }

    // A step of the queue under Log or Flush.
    method QueueStep(t: nat)
      requires Valid() && t < |client|
      modifies this, pendingMsg, pendingMsg.next, pendingMsg.data
      ensures St() == QueueGo(old(St()), t) && Valid()
    {
      hide Step;
      ghost var moved := Moved(St(), t);
      pendingMsg.TakeStep(t, Go);
      at := moved;
    }

    method QueueCalled(t: nat, a: ListQueue.Action, c: Client)
      requires Valid() && t < |client|
      modifies this, pendingMsg, pendingMsg.next, pendingMsg.data
      ensures St() == QueueCall(Put(old(St()), t, c), t, a) && Valid() && at == old(at) && shown == old(shown)
    {
      hide Step;
      client := client[t := c];
      pendingMsg.TakeStep(t, a);
    }

    // The next step of DoLog.
    method DoLog(t: nat)
      requires Valid() && t < |client| && client[t].Logging?
      modifies this, pendingMsg, pendingMsg.next, pendingMsg.data
      ensures St() == LogStep(old(St()), t, Proceed) && Valid()
    {
      hide Step, QueueGo, QueueCall;
      var b, retry := client[t].b, client[t].retry;
      if !pendingMsg.pc[t].Idle? {
        QueueStep(t);
      } else if retry >= 32 {
        failed := failed + 1;
        client := client[t := Ready];
      } else if pendingMsg.pc[t].result.PushFull? {
        QueueCalled(t, CallPush(b), Logging(b, retry + 1));
      } else {
        client := client[t := Ready];
      }
    }

    // The next step of Flush; `good` says whether the stream takes the line.
    method FlushStep(t: nat, good: bool)
      requires Valid() && t < |client| && (client[t].Flushing? || client[t].Printing?)
      modifies this, pendingMsg, pendingMsg.next, pendingMsg.data
      ensures St() == LogStep(old(St()), t, Print(good)) && Valid()
    {
      hide Step, QueueGo, QueueCall;
      match client[t]
      case Flushing =>
        if !pendingMsg.pc[t].Idle? {
          QueueStep(t);
        } else if pendingMsg.pc[t].result.Popped? {
          if pendingMsg.pc[t].result.value >= 0 { client := client[t := Printing(pendingMsg.pc[t].result.value)]; }
        } else {
          client := client[t := Ready];
        }
      case Printing(b) =>
        PrintAndPop(t, b, good);
    }

    method PrintAndPop(t: nat, b: nat, good: bool)
      requires Valid() && t < |client| && client[t] == Printing(b)
      modifies this, pendingMsg, pendingMsg.next, pendingMsg.data
      ensures St() == LogStep(old(St()), t, Print(good)) && Valid()
    {
      hide Step;
      ghost var before := St();
      QueueCalled(t, CallPop, Flushing);
      at, shown := SetAt(at, b, if good then InPool else Dropped), shown + [Line(b, good)];
    }

    // Log with a buffer that AllocBuffer has just taken from the pool.
    method Log(t: nat, b: nat)
      requires Valid() && t < |client| && client[t].Ready? && b < |at| && at[b] == InPool
      modifies this, pendingMsg, pendingMsg.next, pendingMsg.data
      ensures St() == LogStep(old(St()), t, LogAction.Log(b)) && Valid()
    {
      hide Step;
      QueueCalled(t, CallPush(b), Logging(b, 0));
      at := SetAt(at, b, LoggedBy(t));
    }

    method Flush(t: nat)
      requires Valid() && t < |client| && client[t].Ready?
      modifies this, pendingMsg, pendingMsg.next, pendingMsg.data
      ensures St() == LogStep(old(St()), t, LogAction.Flush) && Valid()
    {
      hide Step;
      QueueCalled(t, CallPop, Flushing);
    }

    // An arbitrary interleaving.
    method RunSchedule(sched: LogSchedule)
      requires Valid() && LogFits(sched, |client|) && Allocates(St(), sched)
      modifies this, pendingMsg, pendingMsg.next, pendingMsg.data
      ensures St() == LogRun(old(St()), sched) && Valid()
    {
      hide Bounded, LogStep;
      for k := 0 to |sched|
        invariant Valid() && |client| == old(|client|) && St() == LogRun(old(St()), sched[..k])
      {
        assert sched[..k + 1][..k] == sched[..k];
        TakeStep(sched[k].0, sched[k].1);
      }
      assert sched[..|sched|] == sched;
    }

    // One step of a thread; an idle one starts what `a` asks for.
    method TakeStep(t: nat, a: LogAction)
      requires Valid() && t < |client|
      requires a.Log? && client[t].Ready? ==> a.b < |at| && at[a.b] == InPool
      modifies this, pendingMsg, pendingMsg.next, pendingMsg.data
      ensures St() == LogStep(old(St()), t, a) && Valid()
    {
      hide Step, QueueGo, QueueCall;
      match client[t]
      case Logging(_, _) => DoLog(t);
      case Flushing => FlushStep(t, true);
      case Printing(_) =>
        if a.Print? { FlushStep(t, a.good); }
      case Ready =>
        if a.Log? {
          Log(t, a.b);
        } else if a.Flush? {
          Flush(t);
        }
    }
  }
}

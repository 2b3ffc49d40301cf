/** AsynLogAppender in place: every step is the step of the machine in module AsyncLog. */
module AsynLogAppender {
  import opened LogFile
  import opened AsyncLog

  class Appender {
    // FixedBufferPool
    const fix: nat
    var pool: seq<nat>
    var unrecycled: int
    var mem: seq<string>            // m_buff of each buffer
    var cur: seq<nat>               // m_cur of each buffer
    // AsynLogAppender
    var running: bool
    var pending: nat                // m_curPendingMsg
    var pb1: seq<Rec>               // *m_pb1
    var pb2: seq<Rec>               // *m_pb2
    var disk: string
    var buff: string                // m_file_buff[..m_cur]
    // Where the logging thread and each writer are, with their locals and thread-local items.
    var logger: LoggerPc
    var pc: seq<Pc>
    var slot: seq<Slot>
    ghost var hist: History

    ghost function St(): State
      reads this
    {
      State(fix, slot, pc, logger, running, pending, pb1, pb2, pool, unrecycled, mem, cur, File(disk, buff), hist)
    }

    ghost predicate Valid()
      reads this
    {
      Bounded(St())
    }

    constructor (num: nat, old_contents: string, threads: nat)
      requires 1 <= num
      ensures St() == Init(num, old_contents, threads) && Valid()
    {
      fix := num;
      pool := seq(num, i requires 0 <= i => i);
      unrecycled, mem, cur := 0, seq(num, b => Blank()), seq(num, b => 0);
      running, pending, pb1, pb2, disk, buff := true, 0, [], [], old_contents, "";
      logger, pc, slot := Top, seq(threads, t => Idle), seq(threads, t => NoItem);
      hist := Init(num, old_contents, threads).hist;
    }

    // ----- The pool -----

    method EnlargePoolUnsafe()
      requires Valid()
      modifies this
      ensures St() == Enlarged(old(St())) && Valid()
    {
      if unrecycled > 1024 * fix { return; }
      ghost var e := Enlarged(St());
      var had := |mem|;
      hist := e.hist;
      pool := pool + seq(GRAN, i requires 0 <= i => had + i);
      mem := mem + seq(GRAN, i => Blank());
      cur := cur + seq(GRAN, i => 0);
      assert pool == e.pool && mem == e.mem && cur == e.cur;
    }

    // The buffer at the back of the pool goes to the thread's item.
    method TakeBack(t: nat, got: Pc, none: Pc)
      requires Valid() && t < |pc| && PcOk(got, Buff(0)) && PcOk(none, NullBuff) && pool != []
      modifies this
      ensures St() == GetBuff(old(St()), t, got, none) && Valid()
    {
      hide PcOk, Enlarged;
      var ret := pool[|pool| - 1];
      pool := pool[..|pool| - 1];
      unrecycled := unrecycled + 1;
      slot, pc := slot[t := Buff(ret)], pc[t := got];
      hist := hist.(place := hist.place[ret := InSlot(t)]);
    }

    // The result goes to the thread's item.
    method GetBuffInto(t: nat, got: Pc, none: Pc)
      requires Valid() && t < |pc| && PcOk(got, Buff(0)) && PcOk(none, NullBuff)
      modifies this
      ensures St() == GetBuff(old(St()), t, got, none) && Valid()
    {
      hide PcOk, Enlarged;
      if pool == [] { EnlargePoolUnsafe(); }
      if pool == [] {
        slot, pc := slot[t := NullBuff], pc[t := none];
      } else {
        TakeBack(t, got, none);
      }
    }

    method Recycle(b: nat)
      requires Valid() && b < |mem|
      modifies this
      ensures St() == Recycled(old(St()), b) && Valid()
    {
      hist := hist.(place := hist.place[b := InPool(|pool|)]);
      cur := cur[b := 0];
      pool := pool + [b];
      unrecycled := unrecycled - 1;
    }

    method Shrink()
      requires Valid()
      modifies this
      ensures St() == Shrunk(old(St())) && Valid()
    {
      if |pool| > fix {
        hist := Shrunk(St()).hist;
        pool := pool[..fix];
      }
    }

    // ----- Writers -----

    method AddToWriter(t: nat, msg: Rec, text: string, ghost place: seq<Place>, next: Pc)
      requires Valid() && t < |pc| && RecOk(msg, |mem|) && |place| == |mem| && PcOk(next, slot[t])
      modifies this
      ensures St() == Queued(old(St()), t, msg, text, place, next) && Valid()
    {
      if !running {
        pc := pc[t := AssertFailed];
      } else {
        pb1 := pb1 + [msg];
        pending := pending + 1;
        pc := pc[t := next];
        hist := hist.(recs := hist.recs + [msg], texts := hist.texts + [text], place := place);
      }
    }

    method Start(t: nat, a: Action)
      requires Valid() && t < |pc| && pc[t].Idle?
      modifies this
      ensures St() == Called(old(St()), t, a) && Valid()
    {
      match a
      case Append(msg) =>
        if MsgOk(msg) { pc := pc[t := if slot[t].NoItem? then First(msg) else Check(msg)]; }
      case ExitThread =>
        pc := pc[t := match slot[t] case NoItem => Gone case NullBuff => AssertFailed case Buff(_) => Exiting];
      case Go =>
    }

    // buff->Append.
    method CopyMessage(t: nat)
      requires Valid() && t < |pc| && pc[t].Copy?
      modifies this
      ensures St() == WriterStep(old(St()), t, Go) && Valid()
    {
      var msg, b := pc[t].msg, slot[t].b;
      if cur[b] + |msg| > BUFF {
        pc := pc[t := Overrun];
      } else {
        pc := pc[t := AsyncLog.Queue(msg, cur[b])];
        mem := mem[b := Splice(mem[b], cur[b], msg)];
        cur := cur[b := cur[b] + |msg|];
      }
    }

    // The next step of Append, or of the thread's exit.
    method AppendStep(t: nat, a: Action)
      requires Valid() && t < |pc|
      modifies this
      ensures St() == WriterStep(old(St()), t, a) && Valid()
    {
      hide Splice, Blank;
      match pc[t]
      case Idle => Start(t, a);
      case First(msg) => GetBuffInto(t, Check(msg), Check(msg));
      case Check(msg) =>
        if slot[t].Buff? {
          pc := pc[t := if BUFF - cur[slot[t].b] < |msg| then GiveBack(msg) else Copy(msg)];
        } else {
          pc := pc[t := Get(msg)];
        }
      case GiveBack(msg) =>
        AddToWriter(t, Rec(0, slot[t].b, 0), "", hist.place[slot[t].b := Pending(|hist.recs|)], Get(msg));
      case Get(msg) => GetBuffInto(t, Copy(msg), Idle);
      case Copy(_) => CopyMessage(t);
      case Queue(msg, off) => AddToWriter(t, Rec(|msg|, slot[t].b, off), msg, hist.place, Idle);
      case Exiting =>
        AddToWriter(t, Rec(0, slot[t].b, 0), "", hist.place[slot[t].b := Pending(|hist.recs|)], Gone);
      case _ =>
    }

    method StopRunning()
      requires Valid()
      modifies this`running
      ensures St() == Step(old(St()), Stop) && Valid()
    {
      running := false;
    }

    // ----- The logging thread -----

    method ShrinkMemoryUsageUnlock(big1: bool, big2: bool)
      requires Valid() && !logger.Drain?
      modifies this
      ensures St() == ShrunkAll(old(St()), big1, big2) && Valid()
    {
      Shrink();
      if big1 { pb1 := []; }
      if big2 { pb2 := []; }
    }

    method ExitOrSwap()
      requires Valid()
      modifies this
      ensures St() == Swapped(old(St())) && Valid()
    {
      if !running && pb1 == [] {
        logger := Exited;
      } else {
        pending := 0;
        pb1, pb2 := pb2, pb1;
        logger := Drain(0);
      }
    }

    method WakeUp(big1: bool, big2: bool)
      requires Valid() && logger.Wait?
      modifies this
      ensures St() == Woken(old(St()), old(logger.idle), big1, big2) && Valid()
    {
      hide Shrunk;
      var idle := logger.idle;
      if pb1 != [] {
        ExitOrSwap();
      } else {
        if idle + 1 == 8 { ShrinkMemoryUsageUnlock(big1, big2); }
        if running { logger := Wait(idle + 1); } else { ExitOrSwap(); }
      }
    }

    method HandleRecord(i: nat, replies: seq<Reply>)
      requires Valid() && logger == Drain(i) && i < |pb2|
      modifies this
      ensures St() == Handled(old(St()), i, replies) && Valid()
    {
      var rec := pb2[i];
      if rec.len == 0 {
        hist := hist.(done := hist.done + 1);
        Recycle(rec.buf);
        logger := Drain(i + 1);
      } else {
        var msg := Bytes(mem, rec);
        var f := Appended(File(disk, buff), msg, replies);
        hist := hist.(done := hist.done + 1, lost := hist.lost + Dropped(File(disk, buff), msg, replies));
        disk, buff := f.disk, f.buff;
        logger := Drain(i + 1);
      }
    }

    // The next step of LoggingThreadFunc.
    method LoggingThreadStep(replies: seq<Reply>, big1: bool, big2: bool)
      requires Valid()
      modifies this
      ensures St() == LoggerStep(old(St()), replies, big1, big2) && Valid()
    {
      hide Handled, Woken, Swapped;
      match logger
      case Top => if running { logger := Wait(0); } else { ExitOrSwap(); }
      case Wait(_) => WakeUp(big1, big2);
      case Drain(i) =>
        if i < |pb2| {
          HandleRecord(i, replies);
        } else {
          var f := Flushed(File(disk, buff), replies);
          hist := hist.(lost := hist.lost + |buff| - Accepted(|buff|, replies));
          disk, buff := f.disk, f.buff;
          logger := Clear;
        }
      case Clear =>
        pb2 := [];
        logger := Top;
      case Exited =>
    }

    // An arbitrary interleaving.
    method RunSchedule(sched: Schedule)
      requires Valid() && Fits(sched, |pc|)
      modifies this
      ensures St() == Run(old(St()), sched) && Valid()
    {
      hide WriterStep, LoggerStep;
      for k := 0 to |sched|
        invariant Valid() && |pc| == old(|pc|) && St() == Run(old(St()), sched[..k])
      {
        assert sched[..k + 1][..k] == sched[..k];
        match sched[k]
        case Writer(t, a) => AppendStep(t, a);
        case Logger(replies, big1, big2) => LoggingThreadStep(replies, big1, big2);
        case Stop => StopRunning();
      }
      assert sched[..|sched|] == sched;
    }
  }
}

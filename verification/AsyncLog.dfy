/**
  AsynLogAppender (slog/AsynLogAppender.cc) over FixedBufferPool (slog/FixedBuffer.h) and LogFile:
  writers copy messages into buffers of their own and queue records that point to them; one
  logging thread copies the bytes to the file and gives the buffers back.  A machine whose steps
  are critical sections and accesses to memory that one thread has to itself.
 */
module AsyncLog {
  import opened LogFile

  const BUFF: nat := 256 * 1024       // S_BUFF_SIZE
  const GRAN: nat := 16               // m_inc_gran

  // len == 0: the buffer itself is given back.  Otherwise len bytes of it, from off.
  datatype Rec = Rec(len: nat, buf: nat, off: nat)

  // The thread-local item.
  datatype Slot = NoItem | NullBuff | Buff(b: nat)

  // The program counter of a writer names its next step.
  datatype Pc =
    | Idle
    | First(msg: string)                 // the item is created: m_pool.GetBuff
    | Check(msg: string)                 // is there a buffer, and room in it?
    | GiveBack(msg: string)              // AddToWriter(NULL, 0, buff)
    | Get(msg: string)                   // m_pool.GetBuff
    | Copy(msg: string)                  // buff->Append
    | Queue(msg: string, off: nat)       // AddToWriter(addr, len, buff)
    | Exiting                            // AddToWriter(NULL, 0, buff) at thread exit
    | Gone
    | AssertFailed
    | Overrun                            // a copy beyond the end of the buffer

  // The program counter of the logging thread.
  datatype LoggerPc =
    | Top                                // takes m_lock
    | Wait(idle: nat)                    // in timed_wait
    | Drain(i: nat)                      // handles record i of *vp
    | Clear                              // vp->clear()
    | Exited

  // Where each buffer is.
  datatype Place = InPool(at: nat) | InSlot(thread: nat) | Pending(record: nat) | Deleted

  // History: all records in the order of m_lock, what their bytes were, how many are handled.
  datatype History = History(recs: seq<Rec>, texts: seq<string>, done: nat, place: seq<Place>, lost: nat)

  datatype State = State(fix: nat, slot: seq<Slot>, pc: seq<Pc>, logger: LoggerPc, running: bool,
                         pending: nat, pb1: seq<Rec>, pb2: seq<Rec>, pool: seq<nat>, unrecycled: int,
                         mem: seq<string>, cur: seq<nat>, file: File, hist: History)

  datatype Action = Append(msg: string) | ExitThread | Go

  // A step of a writer; of the logging thread, with what write and the vectors' capacities do;
  // or Stop.
  datatype Event = Writer(t: nat, a: Action) | Logger(replies: seq<Reply>, big1: bool, big2: bool) | Stop

  predicate RecOk(r: Rec, buffers: nat) { r.buf < buffers && r.off + r.len <= BUFF }

  predicate MsgOk(msg: string) { 0 < |msg| <= BUFF }

  predicate PcOk(c: Pc, slot: Slot) {
    match c
    case First(msg) => MsgOk(msg)
    case Check(msg) => MsgOk(msg)
    case GiveBack(msg) => MsgOk(msg) && slot.Buff?
    case Get(msg) => MsgOk(msg)
    case Copy(msg) => MsgOk(msg) && slot.Buff?
    case Queue(msg, off) => MsgOk(msg) && slot.Buff? && off + |msg| <= BUFF
    case Exiting => slot.Buff?
    case _ => true
  }

  predicate Bounded(s: State) {
    && 1 <= s.fix && |s.slot| == |s.pc|
    && |s.cur| == |s.hist.place| == |s.mem|
    && (forall b :: 0 <= b < |s.mem| ==> |s.mem[b]| == BUFF && s.cur[b] <= BUFF)
    && (forall i :: 0 <= i < |s.pool| ==> s.pool[i] < |s.mem|)
    && (forall t :: 0 <= t < |s.pc| ==> PcOk(s.pc[t], s.slot[t]) && (s.slot[t].Buff? ==> s.slot[t].b < |s.mem|))
    && (forall i :: 0 <= i < |s.pb1| ==> RecOk(s.pb1[i], |s.mem|))
    && (forall i :: 0 <= i < |s.pb2| ==> RecOk(s.pb2[i], |s.mem|))
    && (s.logger.Drain? ==> s.logger.i <= |s.pb2|)
  }

  function Blank(): string { seq(BUFF, i => '\0') }

  // fix is m_fix_sz, 32 for this pool.
  function Init(fix: nat, disk: string, threads: nat): (s: State)
    requires 1 <= fix
    ensures Bounded(s)
  {
    State(fix, seq(threads, t => NoItem), seq(threads, t => Idle), Top, true, 0, [], [],
          seq(fix, i requires 0 <= i => i), 0, seq(fix, b => Blank()), seq(fix, b => 0), File(disk, ""),
          History([], [], 0, seq(fix, b requires 0 <= b => InPool(b)), 0))
  }

  // ----- The pool -----

  // EnlargePoolUnsafe, when the pool is empty.
  function Enlarged(s: State): (r: State)
    requires Bounded(s)
    ensures Bounded(r) && r.pc == s.pc && r.slot == s.slot
  {
    if s.unrecycled > 1024 * s.fix then s
    else
      s.(pool := s.pool + seq(GRAN, i requires 0 <= i => |s.mem| + i),
         mem := s.mem + seq(GRAN, i => Blank()),
         cur := s.cur + seq(GRAN, i => 0),
         hist := s.hist.(place := s.hist.place + seq(GRAN, i requires 0 <= i => InPool(|s.pool| + i))))
  }

  function Refilled(s: State): (r: State)
    requires Bounded(s)
    ensures Bounded(r) && r.pc == s.pc && r.slot == s.slot
  {
    if s.pool == [] then Enlarged(s) else s
  }

  // GetBuff, whose result goes to the thread's item; then the thread goes on at `got` or `none`.
  function GetBuff(s: State, t: nat, got: Pc, none: Pc): (r: State)
    requires Bounded(s) && t < |s.pc| && PcOk(got, Buff(0)) && PcOk(none, NullBuff)
    ensures Bounded(r) && |r.pc| == |s.pc|
  {
    var e := Refilled(s);
    if e.pool == [] then
      e.(slot := e.slot[t := NullBuff], pc := e.pc[t := none])
    else
      var b := e.pool[|e.pool| - 1];
      e.(slot := e.slot[t := Buff(b)], pc := e.pc[t := got], pool := e.pool[..|e.pool| - 1],
         unrecycled := e.unrecycled + 1, hist := e.hist.(place := e.hist.place[b := InSlot(t)]))
  }

  // Recycle.
  function Recycled(s: State, b: nat): (r: State)
    requires Bounded(s) && b < |s.mem|
    ensures Bounded(r) && r.pc == s.pc && r.pb2 == s.pb2 && r.logger == s.logger && r.mem == s.mem
  {
    s.(cur := s.cur[b := 0], pool := s.pool + [b], unrecycled := s.unrecycled - 1,
       hist := s.hist.(place := s.hist.place[b := InPool(|s.pool|)]))
  }

  // Shrink(1) deletes the buffers beyond the first m_fix_sz.
  function Shrunk(s: State): (r: State)
    requires Bounded(s)
    ensures Bounded(r) && r.pc == s.pc
  {
    if |s.pool| <= s.fix then s
    else
      s.(pool := s.pool[..s.fix],
         hist := s.hist.(place := seq(|s.mem|, b requires 0 <= b < |s.mem| && |s.hist.place| == |s.mem| =>
           if s.hist.place[b].InPool? && s.hist.place[b].at >= s.fix then Deleted else s.hist.place[b])))
  }

  // ----- Writers -----

  function Splice(m: string, off: nat, msg: string): (r: string)
    requires off + |msg| <= |m|
    ensures |r| == |m|
  {
    m[..off] + msg + m[off + |msg|..]
  }

  function Goto(s: State, t: nat, c: Pc): (r: State)
    requires Bounded(s) && t < |s.pc| && PcOk(c, s.slot[t])
    ensures Bounded(r) && |r.pc| == |s.pc|
  {
    s.(pc := s.pc[t := c])
  }

  // The critical section of AddToWriter.
  function Queued(s: State, t: nat, r: Rec, text: string, p: seq<Place>, c: Pc): (q: State)
    requires Bounded(s) && t < |s.pc| && RecOk(r, |s.mem|) && |p| == |s.mem| && PcOk(c, s.slot[t])
    ensures Bounded(q) && |q.pc| == |s.pc|
  {
    if !s.running then Goto(s, t, AssertFailed)
    else
      Goto(s, t, c).(pb1 := s.pb1 + [r], pending := s.pending + 1,
                     hist := s.hist.(recs := s.hist.recs + [r], texts := s.hist.texts + [text], place := p))
  }

  function GivenBack(s: State, t: nat, c: Pc): (q: State)
    requires Bounded(s) && t < |s.pc| && s.slot[t].Buff? && PcOk(c, s.slot[t])
    ensures Bounded(q) && |q.pc| == |s.pc|
  {
    var b := s.slot[t].b;
    Queued(s, t, Rec(0, b, 0), "", s.hist.place[b := Pending(|s.hist.recs|)], c)
  }

  function Called(s: State, t: nat, a: Action): (r: State)
    requires Bounded(s) && t < |s.pc|
    ensures Bounded(r) && |r.pc| == |s.pc|
  {
    match a
    case Append(msg) =>
      if !MsgOk(msg) then s else Goto(s, t, if s.slot[t].NoItem? then First(msg) else Check(msg))
    case ExitThread =>
      (match s.slot[t]
       case NoItem => Goto(s, t, Gone)
       case NullBuff => Goto(s, t, AssertFailed)
       case Buff(_) => Goto(s, t, Exiting))
    case Go => s
  }

  function WriterStep(s: State, t: nat, a: Action): (r: State)
    requires Bounded(s) && t < |s.pc|
    ensures Bounded(r) && |r.pc| == |s.pc|
  {
    match s.pc[t]
    case Idle => Called(s, t, a)
    case First(msg) => GetBuff(s, t, Check(msg), Check(msg))
    case Check(msg) =>
      (match s.slot[t]
       case Buff(b) => Goto(s, t, if BUFF - s.cur[b] < |msg| then GiveBack(msg) else Copy(msg))
       case _ => Goto(s, t, Get(msg)))
    case GiveBack(msg) => GivenBack(s, t, Get(msg))
    case Get(msg) => GetBuff(s, t, Copy(msg), Idle)
    case Copy(msg) =>
      var b := s.slot[t].b;
      if s.cur[b] + |msg| > BUFF then Goto(s, t, Overrun)
      else
        Goto(s, t, Queue(msg, s.cur[b])).(
          mem := s.mem[b := Splice(s.mem[b], s.cur[b], msg)], cur := s.cur[b := s.cur[b] + |msg|])
    case Queue(msg, off) => Queued(s, t, Rec(|msg|, s.slot[t].b, off), msg, s.hist.place, Idle)
    case Exiting => GivenBack(s, t, Gone)
    case _ => s
  }

  // ----- The logging thread -----

  // ShrinkMemoryUsageUnlock; a vector that has grown is replaced by an empty one.
  function ShrunkAll(s: State, big1: bool, big2: bool): (r: State)
    requires Bounded(s) && !s.logger.Drain?
    ensures Bounded(r) && r.pc == s.pc
  {
    Shrunk(s).(pb1 := if big1 then [] else s.pb1, pb2 := if big2 then [] else s.pb2)
  }

  // Leaves the waiting loop with m_lock held: ends the thread or swaps the two vectors.
  function Swapped(s: State): (r: State)
    requires Bounded(s)
    ensures Bounded(r) && r.pc == s.pc
  {
    if !s.running && s.pb1 == [] then s.(logger := Exited)
    else s.(pb1 := s.pb2, pb2 := s.pb1, pending := 0, logger := Drain(0))
  }

  // One turn of the waiting loop, after timed_wait has taken m_lock again.
  function Woken(s: State, idle: nat, big1: bool, big2: bool): (r: State)
    requires Bounded(s) && s.logger.Wait?
    ensures Bounded(r) && r.pc == s.pc
  {
    if s.pb1 != [] then Swapped(s)
    else
      var u := if idle + 1 == 8 then ShrunkAll(s, big1, big2) else s;
      if u.running then u.(logger := Wait(idle + 1)) else Swapped(u)
  }

  // The bytes a record points to.
  function Bytes(mem: seq<string>, r: Rec): string
    requires r.buf < |mem| && r.off + r.len <= |mem[r.buf]|
  {
    mem[r.buf][r.off..r.off + r.len]
  }

  function Handled(s: State, i: nat, replies: seq<Reply>): (r: State)
    requires Bounded(s) && s.logger.Drain? && i < |s.pb2|
    ensures Bounded(r) && r.pc == s.pc
  {
    var rec := s.pb2[i];
    var h := s.hist.(done := s.hist.done + 1);
    if rec.len == 0 then
      Recycled(s.(hist := h), rec.buf).(logger := Drain(i + 1))
    else
      var msg := Bytes(s.mem, rec);
      s.(file := Appended(s.file, msg, replies), logger := Drain(i + 1),
         hist := h.(lost := h.lost + Dropped(s.file, msg, replies)))
  }

  function LoggerStep(s: State, replies: seq<Reply>, big1: bool, big2: bool): (r: State)
    requires Bounded(s)
    ensures Bounded(r) && r.pc == s.pc
  {
    match s.logger
    case Top => if s.running then s.(logger := Wait(0)) else Swapped(s)
    case Wait(idle) => Woken(s, idle, big1, big2)
    case Drain(i) =>
      if i < |s.pb2| then Handled(s, i, replies)
      else
        s.(file := Flushed(s.file, replies), logger := Clear,
           hist := s.hist.(lost := s.hist.lost + |s.file.buff| - Accepted(|s.file.buff|, replies)))
    case Clear => s.(pb2 := [], logger := Top)
    case Exited => s
  }

  function Step(s: State, e: Event): (r: State)
    requires Bounded(s) && (e.Writer? ==> e.t < |s.pc|)
    ensures Bounded(r) && |r.pc| == |s.pc|
  {
    match e
    case Writer(t, a) => WriterStep(s, t, a)
    case Logger(replies, big1, big2) => LoggerStep(s, replies, big1, big2)
    case Stop => s.(running := false)
  }

  type Schedule = seq<Event>

  predicate Fits(sched: Schedule, threads: nat) {
    forall k :: 0 <= k < |sched| && sched[k].Writer? ==> sched[k].t < threads
  }

  function Run(s: State, sched: Schedule): (r: State)
    requires Bounded(s) && Fits(sched, |s.pc|)
    ensures Bounded(r) && |r.pc| == |s.pc|
    decreases |sched|
  {
    if sched == [] then s
    else
      var k := |sched| - 1;
      Step(Run(s, sched[..k]), sched[k])
  }
}

/** What the asynchronous log promises on every run. */
module AsyncLogTheorems {
  import opened LogFile
  import opened AsyncLog
  import opened AsyncLogInv
  import opened AsyncLogWriters
  import opened AsyncLogLogger

  // ----- The bytes, in order -----

  function Concat(texts: seq<string>): string {
    if texts == [] then "" else Concat(texts[..|texts| - 1]) + texts[|texts| - 1]
  }

  lemma {:induction false} ConcatSplit(a: seq<string>, b: seq<string>)
    ensures Concat(a + b) == Concat(a) + Concat(b)
    decreases |b|
  {
    if b == [] {
      assert a + b == a;
    } else {
      var k := |b| - 1;
      assert (a + b)[..|a| + k] == a + b[..k];
      ConcatSplit(a, b[..k]);
    }
  }

  lemma ConcatMore(texts: seq<string>, k: nat)
    requires k < |texts|
    ensures Concat(texts[..k + 1]) == Concat(texts[..k]) + texts[k]
  {
    assert texts[..k + 1][..k] == texts[..k];
  }

  // The bytes that records point to now.
  function ReadAll(mem: seq<string>, recs: seq<Rec>): string
    requires forall k :: 0 <= k < |recs| ==> recs[k].buf < |mem| && recs[k].off + recs[k].len <= |mem[recs[k].buf]|
  {
    if recs == [] then "" else ReadAll(mem, recs[..|recs| - 1]) + Bytes(mem, recs[|recs| - 1])
  }

  lemma {:induction false} ReadsTexts(mem: seq<string>, recs: seq<Rec>, texts: seq<string>)
    requires |recs| == |texts|
    requires forall k :: 0 <= k < |recs| ==> recs[k].buf < |mem| && recs[k].off + recs[k].len <= |mem[recs[k].buf]|
    requires forall k :: 0 <= k < |recs| ==> Bytes(mem, recs[k]) == texts[k]
    ensures ReadAll(mem, recs) == Concat(texts)
  {
    if recs != [] {
      var k := |recs| - 1;
      ReadsTexts(mem, recs[..k], texts[..k]);
    }
  }

  ghost predicate FileOk(s: State, before: string)
    requires Bounded(s)
  {
    && s.hist.done <= |s.hist.texts|
    && |s.file.buff| <= FILE_BUFF
    && (!s.logger.Drain? ==> s.file.buff == "")
    && |Text(s.file)| + s.hist.lost == |before| + |Concat(s.hist.texts[..s.hist.done])|
    && (s.hist.lost == 0 ==> Text(s.file) == before + Concat(s.hist.texts[..s.hist.done]))
  }

  lemma FileHandled(s: State, before: string, replies: seq<Reply>)
    requires BuffersOk(s) && FileOk(s, before) && s.logger.Drain? && s.logger.i < |s.pb2|
    ensures FileOk(Handled(s, s.logger.i, replies), before)
  {
    hide PoolOk, Slots, Returns, Writers, Concat;
    HandledFirst(s);
    var k := s.hist.done;
    assert Points(s, s.hist.recs[k], s.hist.texts[k], k);
    ConcatMore(s.hist.texts, k);
    if s.hist.recs[k].len == 0 {
      assert s.hist.texts[k] == "";
    } else {
      AppendText(s.file, s.hist.texts[k], replies);
      assert before + Concat(s.hist.texts[..k]) + s.hist.texts[k] == before + (Concat(s.hist.texts[..k]) + s.hist.texts[k]);
    }
  }

  // Before and after draining, the logging thread leaves the file and the records' texts alone.
  lemma WaitingKeepsFile(s: State, replies: seq<Reply>, big1: bool, big2: bool)
    requires Bounded(s) && !s.logger.Drain?
    ensures var r := LoggerStep(s, replies, big1, big2);
      && r.file == s.file && r.hist.texts == s.hist.texts && r.hist.done == s.hist.done && r.hist.lost == s.hist.lost
  {
    hide PcOk, RecOk;
  }

  lemma FileLogger(s: State, before: string, replies: seq<Reply>, big1: bool, big2: bool)
    requires BuffersOk(s) && FileOk(s, before)
    ensures FileOk(LoggerStep(s, replies, big1, big2), before)
  {
    hide Concat, Handled, Woken, Swapped, Records, PoolOk, Slots, Returns, Pointers, Writers, Bounded;
    BuffersBounded(s);
    if s.logger.Drain? {
      if s.logger.i < |s.pb2| { FileHandled(s, before, replies); } else { FlushText(s.file, replies); }
    } else {
      WaitingKeepsFile(s, replies, big1, big2);
    }
  }

  predicate SameLog(s: State, r: State) {
    && r.file == s.file && r.logger == s.logger && r.running == s.running
    && r.hist.done == s.hist.done && r.hist.lost == s.hist.lost
  }

  lemma GetBuffKeepsFile(s: State, t: nat, got: Pc, none: Pc)
    requires Bounded(s) && t < |s.pc| && PcOk(got, Buff(0)) && PcOk(none, NullBuff)
    ensures var r := GetBuff(s, t, got, none); SameLog(s, r) && r.hist.texts == s.hist.texts && r.pb1 == s.pb1
  {
    hide PcOk, Blank;
  }

  // A writer queues at most one text, and only while the appender is running.
  lemma WriterKeepsFile(s: State, t: nat, a: Action)
    requires Bounded(s) && t < |s.pc|
    ensures var r := WriterStep(s, t, a);
      SameLog(s, r) && s.hist.texts <= r.hist.texts && (!s.running ==> r.hist.texts == s.hist.texts && r.pb1 == s.pb1)
  {
    hide GetBuff, Splice, PcOk, MsgOk, Bounded;
    match s.pc[t]
    case First(msg) => assert PcOk(Check(msg), Buff(0)) && PcOk(Check(msg), NullBuff) by { CheckFits(s, t); }
                       GetBuffKeepsFile(s, t, Check(msg), Check(msg));
    case Get(msg) => assert PcOk(Copy(msg), Buff(0)) && PcOk(Idle, NullBuff) by { CheckFits(s, t); }
                     GetBuffKeepsFile(s, t, Copy(msg), Idle);
    case _ =>
  }

  lemma CheckFits(s: State, t: nat)
    requires Bounded(s) && t < |s.pc| && (s.pc[t].First? || s.pc[t].Get?)
    ensures var msg := s.pc[t].msg;
      PcOk(Check(msg), Buff(0)) && PcOk(Check(msg), NullBuff) && PcOk(Copy(msg), Buff(0)) && PcOk(Idle, NullBuff)
  {
  }

  lemma FileWriter(s: State, before: string, t: nat, a: Action)
    requires BuffersOk(s) && FileOk(s, before) && t < |s.pc|
    ensures FileOk(WriterStep(s, t, a), before)
  {
    hide Concat, WriterStep, Records, PoolOk, Slots, Returns, Pointers, Writers, Bounded;
    BuffersBounded(s);
    WriterKeepsFile(s, t, a);
    var r := WriterStep(s, t, a);
    assert r.hist.texts[..s.hist.done] == s.hist.texts[..s.hist.done];
  }

  // ----- The count of the buffers outside the pool -----

  predicate Out(p: Place) { p.InSlot? || p.Pending? }

  function Outside(place: seq<Place>): nat {
    if place == [] then 0 else Outside(place[..|place| - 1]) + (if Out(place[|place| - 1]) then 1 else 0)
  }

  lemma {:induction false} OutsideUpdate(place: seq<Place>, b: nat, p: Place)
    requires b < |place|
    ensures Outside(place[b := p]) == Outside(place) - (if Out(place[b]) then 1 else 0) + (if Out(p) then 1 else 0)
  {
    var k := |place| - 1;
    if b == k {
      assert place[b := p][..k] == place[..k];
    } else {
      assert place[b := p][..k] == place[..k][b := p];
      OutsideUpdate(place[..k], b, p);
    }
  }

  lemma {:induction false} OutsideSame(p: seq<Place>, q: seq<Place>)
    requires |p| <= |q| && forall b :: 0 <= b < |p| ==> (Out(p[b]) <==> Out(q[b]))
    requires forall b :: |p| <= b < |q| ==> !Out(q[b])
    ensures Outside(q) == Outside(p)
    decreases |q|
  {
    if q != [] {
      if |p| == |q| { OutsideSame(p[..|p| - 1], q[..|q| - 1]); } else { OutsideSame(p, q[..|q| - 1]); }
    }
  }

  ghost predicate CountOk(s: State)
    requires Bounded(s)
  {
    && s.unrecycled == Outside(s.hist.place)
    && |s.pool| + s.unrecycled <= 1024 * s.fix + GRAN
  }

  lemma CountGetBuff(s: State, t: nat, got: Pc, none: Pc)
    requires Bounded(s) && PoolOk(s) && CountOk(s) && t < |s.pc| && PcOk(got, Buff(0)) && PcOk(none, NullBuff)
    ensures CountOk(GetBuff(s, t, got, none))
  {
    hide Outside, Blank, PcOk;
    var e := Refilled(s);
    if s.pool == [] { OutsideSame(s.hist.place, e.hist.place); }
    if e.pool != [] {
      var b := e.pool[|e.pool| - 1];
      assert e.hist.place[b].InPool?;
      OutsideUpdate(e.hist.place, b, InSlot(t));
    }
  }

  lemma CountGivenBack(s: State, t: nat, c: Pc)
    requires Bounded(s) && Slots(s) && CountOk(s) && t < |s.pc| && Owns(s.pc[t]) && s.slot[t].Buff? && PcOk(c, s.slot[t])
    ensures CountOk(GivenBack(s, t, c))
  {
    hide Outside, PcOk;
    OutsideUpdate(s.hist.place, s.slot[t].b, Pending(|s.hist.recs|));
  }

  lemma CountWriter(s: State, t: nat, a: Action)
    requires Bounded(s) && PoolOk(s) && Slots(s) && CountOk(s) && t < |s.pc|
    ensures CountOk(WriterStep(s, t, a))
  {
    hide Outside, GetBuff, GivenBack, PoolOk, Slots, Splice;
    match s.pc[t]
    case First(msg) => CountGetBuff(s, t, Check(msg), Check(msg));
    case Get(msg) => CountGetBuff(s, t, Copy(msg), Idle);
    case GiveBack(msg) => CountGivenBack(s, t, Get(msg));
    case Exiting => CountGivenBack(s, t, Gone);
    case _ =>
  }

  lemma CountHandled(s: State, replies: seq<Reply>)
    requires BuffersOk(s) && CountOk(s) && s.logger.Drain? && s.logger.i < |s.pb2|
    ensures CountOk(Handled(s, s.logger.i, replies))
  {
    hide Outside, PoolOk, Slots, Pointers, Writers, Bytes;
    HandledFirst(s);
    var b := s.pb2[s.logger.i].buf;
    if s.pb2[s.logger.i].len == 0 {
      assert s.hist.place[b].Pending?;
      OutsideUpdate(s.hist.place, b, InPool(|s.pool|));
    }
  }

  lemma CountShrunk(s: State)
    requires Bounded(s) && CountOk(s)
    ensures CountOk(Shrunk(s))
  {
    hide Outside;
    OutsideSame(s.hist.place, Shrunk(s).hist.place);
  }

  lemma CountLogger(s: State, replies: seq<Reply>, big1: bool, big2: bool)
    requires BuffersOk(s) && CountOk(s)
    ensures CountOk(LoggerStep(s, replies, big1, big2))
  {
    hide Outside, Handled, Shrunk, Records, PoolOk, Slots, Returns, Pointers, Writers;
    if s.logger.Drain? && s.logger.i < |s.pb2| {
      CountHandled(s, replies);
    } else if s.logger.Wait? {
      CountShrunk(s);
    }
  }

  // ----- Whole runs -----

  ghost predicate Inv(s: State, before: string) { BuffersOk(s) && FileOk(s, before) && CountOk(s) }

  lemma InitInv(fix: nat, before: string, threads: nat)
    requires 1 <= fix
    ensures Inv(Init(fix, before, threads), before)
  {
    InitBuffers(fix, before, threads);
    OutsideSame([], Init(fix, before, threads).hist.place);
  }

  lemma StepInv(s: State, before: string, e: Event)
    requires Inv(s, before) && (e.Writer? ==> e.t < |s.pc|)
    ensures Inv(Step(s, e), before)
  {
    hide BuffersOk, FileOk, CountOk, WriterStep, LoggerStep;
    BuffersBounded(s);
    match e
    case Writer(t, a) =>
      WriterStepOk(s, t, a);
      FileWriter(s, before, t, a);
      assert PoolOk(s) && Slots(s) by { BuffersParts(s); }
      CountWriter(s, t, a);
    case Logger(replies, big1, big2) =>
      LoggerStepOk(s, replies, big1, big2);
      FileLogger(s, before, replies, big1, big2);
      CountLogger(s, replies, big1, big2);
    case Stop =>
      StopOk(s);
      assert FileOk(s.(running := false), before) && CountOk(s.(running := false)) by { StopRest(s, before); }
  }

  lemma BuffersParts(s: State)
    requires BuffersOk(s)
    ensures Bounded(s) && PoolOk(s) && Slots(s)
  {
  }

  lemma StopRest(s: State, before: string)
    requires Bounded(s) && FileOk(s, before) && CountOk(s)
    ensures FileOk(s.(running := false), before) && CountOk(s.(running := false))
  {
  }

  lemma {:induction false} RunInv(s: State, before: string, sched: Schedule)
    requires Bounded(s) && Fits(sched, |s.pc|) && Inv(s, before)
    ensures Inv(Run(s, sched), before)
  {
    hide Bounded, Step, Inv;
    if sched != [] {
      var k := |sched| - 1;
      RunInv(s, before, sched[..k]);
      StepInv(Run(s, sched[..k]), before, sched[k]);
    }
  }

  lemma {:induction false} Reached(fix: nat, before: string, threads: nat, sched: Schedule)
    requires 1 <= fix && Fits(sched, threads)
    ensures var s := Run(Init(fix, before, threads), sched); Inv(s, before) && BuffersOk(s)
  {
    hide Bounded, BuffersOk, FileOk, CountOk, Step;
    InitInv(fix, before, threads);
    RunInv(Init(fix, before, threads), before, sched);
  }

  // The records that are not handled yet, in the order of m_lock.
  function Waiting(s: State): seq<Rec>
    requires Bounded(s)
  {
    Remaining(s) + s.pb1
  }

  ghost predicate Readable(s: State)
    requires Bounded(s)
  {
    forall k :: 0 <= k < |Waiting(s)| ==> RecOk(Waiting(s)[k], |s.mem|)
  }

  lemma WaitingTexts(s: State)
    requires BuffersOk(s)
    ensures Readable(s) && |Waiting(s)| == |s.hist.texts| - s.hist.done
    ensures forall k :: 0 <= k < |Waiting(s)| ==> Bytes(s.mem, Waiting(s)[k]) == s.hist.texts[s.hist.done + k]
  {
    hide PoolOk, Slots, Returns, Writers;
    forall k | 0 <= k < |Waiting(s)|
      ensures RecOk(Waiting(s)[k], |s.mem|) && Bytes(s.mem, Waiting(s)[k]) == s.hist.texts[s.hist.done + k]
    {
      var j := s.hist.done + k;
      assert Waiting(s)[k] == s.hist.recs[j];
      assert Points(s, s.hist.recs[j], s.hist.texts[j], j);
    }
  }

  /** Any number of writers, any schedule: what is in the file, in the file's buffer and behind
      the waiting records, read from memory now, is everything ever queued, in the order of
      m_lock, if no write has dropped bytes. */
  lemma {:induction false} NothingLostOrReordered(fix: nat, before: string, threads: nat, sched: Schedule)
    requires 1 <= fix && Fits(sched, threads)
    ensures var s := Run(Init(fix, before, threads), sched);
      && Readable(s)
      && (s.hist.lost == 0 ==> Text(s.file) + ReadAll(s.mem, Waiting(s)) == before + Concat(s.hist.texts))
  {
    hide Concat, ReadAll, Records, PoolOk, Slots, Returns, Pointers, Writers, CountOk;
    Reached(fix, before, threads, sched);
    var s := Run(Init(fix, before, threads), sched);
    WaitingTexts(s);
    var texts, done := s.hist.texts, s.hist.done;
    ReadsTexts(s.mem, Waiting(s), texts[done..]);
    ConcatSplit(texts[..done], texts[done..]);
    assert texts[..done] + texts[done..] == texts;
    assert before + Concat(texts[..done]) + Concat(texts[done..]) == before + (Concat(texts[..done]) + Concat(texts[done..]));
  }

  /** The bytes a waiting record points to stay what they were when it was queued. */
  lemma {:induction false} BytesStay(fix: nat, before: string, threads: nat, sched: Schedule, k: nat)
    requires 1 <= fix && Fits(sched, threads)
    ensures var s := Run(Init(fix, before, threads), sched);
      && Readable(s) && |Waiting(s)| == |s.hist.texts| - s.hist.done
      && (k < |Waiting(s)| ==> Bytes(s.mem, Waiting(s)[k]) == s.hist.texts[s.hist.done + k])
  {
    hide FileOk, CountOk, Bounded, BuffersOk, Step, Inv;
    Reached(fix, before, threads, sched);
    WaitingTexts(Run(Init(fix, before, threads), sched));
  }

  // ----- Exactly once on disk -----

  predicate NoFailure(sched: Schedule) {
    forall k :: 0 <= k < |sched| && sched[k].Logger? ==>
      forall j :: 0 <= j < |sched[k].replies| ==> !sched[k].replies[j].Failed?
  }

  lemma LostStep(s: State, e: Event)
    requires Bounded(s) && (e.Writer? ==> e.t < |s.pc|) && s.hist.lost == 0
    requires e.Logger? ==> forall j :: 0 <= j < |e.replies| ==> !e.replies[j].Failed?
    ensures Step(s, e).hist.lost == 0
  {
    hide Splice, Blank, PcOk, Bytes;
    if e.Logger? { AllAccepted(|s.file.buff|, e.replies); }
  }

  lemma {:induction false} NoFailureNoLoss(s: State, sched: Schedule)
    requires Bounded(s) && Fits(sched, |s.pc|) && s.hist.lost == 0 && NoFailure(sched)
    ensures Run(s, sched).hist.lost == 0
  {
    hide Bounded, Step;
    if sched != [] {
      var k := |sched| - 1;
      NoFailureNoLoss(s, sched[..k]);
      LostStep(Run(s, sched[..k]), sched[k]);
    }
  }

  /** When the logging thread has ended, every record is handled, nothing is left in a buffer, and
      the file holds everything ever queued exactly once and in order if and only if no write has
      dropped bytes. */
  lemma {:induction false} AllOnDiskAtExit(fix: nat, before: string, threads: nat, sched: Schedule)
    requires 1 <= fix && Fits(sched, threads)
    ensures var s := Run(Init(fix, before, threads), sched);
      s.logger.Exited? ==>
        && !s.running && s.hist.done == |s.hist.texts| && s.file.buff == ""
        && (s.file.disk == before + Concat(s.hist.texts) <==> s.hist.lost == 0)
  {
    hide Concat, PoolOk, Slots, Returns, Pointers, Writers, CountOk;
    Reached(fix, before, threads, sched);
    var s := Run(Init(fix, before, threads), sched);
    if s.logger.Exited? {
      assert s.hist.recs[s.hist.done..] == [];
      assert s.hist.texts[..s.hist.done] == s.hist.texts;
      assert Text(s.file) == s.file.disk;
    }
  }

  /** A write that fails only with EINTR drops nothing. */
  lemma {:induction false} InterruptsAreHarmless(fix: nat, before: string, threads: nat, sched: Schedule)
    requires 1 <= fix && Fits(sched, threads) && NoFailure(sched)
    ensures var s := Run(Init(fix, before, threads), sched);
      s.hist.lost == 0 && (s.logger.Exited? ==> s.file.disk == before + Concat(s.hist.texts))
  {
    hide Bounded, Concat;
    NoFailureNoLoss(Init(fix, before, threads), sched);
    AllOnDiskAtExit(fix, before, threads, sched);
  }

  /** Nothing is queued or written after the logging thread has ended. */
  lemma {:induction false} ExitIsFinal(fix: nat, before: string, threads: nat, sched: Schedule, e: Event)
    requires 1 <= fix && Fits(sched, threads) && (e.Writer? ==> e.t < threads)
    ensures var s := Run(Init(fix, before, threads), sched);
      |s.pc| == threads && (s.logger.Exited? ==>
        var r := Step(s, e); r.logger.Exited? && r.file == s.file && r.hist.texts == s.hist.texts && r.pb1 == [])
  {
    hide PoolOk, Slots, Returns, Pointers, Writers, CountOk, FileOk, WriterStep, Bounded;
    Reached(fix, before, threads, sched);
    var s := Run(Init(fix, before, threads), sched);
    if e.Writer? { WriterKeepsFile(s, e.t, e.a); }
  }

  // ----- Who has the buffers -----

  ghost predicate HasSlot(s: State, b: nat)
    requires Bounded(s)
  {
    exists t :: 0 <= t < |s.pc| && Owns(s.pc[t]) && s.slot[t] == Buff(b)
  }

  predicate GivesBack(r: Rec, b: nat) { r.len == 0 && r.buf == b }

  ghost predicate Returning(s: State, b: nat)
    requires Bounded(s)
  {
    exists k :: 0 <= k < |Waiting(s)| && GivesBack(Waiting(s)[k], b)
  }

  // Each buffer is in one place, and in it once.
  ghost predicate OnePlace(s: State)
    requires Bounded(s)
  {
    && (forall b :: 0 <= b < |s.mem| ==>
          && (s.hist.place[b].InPool? <==> b in s.pool)
          && (s.hist.place[b].InSlot? <==> HasSlot(s, b))
          && (s.hist.place[b].Pending? <==> Returning(s, b)))
    && (forall i, j :: 0 <= i < j < |s.pool| ==> s.pool[i] != s.pool[j])
    && (forall t, u :: 0 <= t < u < |s.pc| && Owns(s.pc[t]) && Owns(s.pc[u]) && s.slot[t].Buff? ==> s.slot[t] != s.slot[u])
    && (forall j, k :: 0 <= j < k < |Waiting(s)| && Waiting(s)[j].len == 0 ==> !GivesBack(Waiting(s)[k], Waiting(s)[j].buf))
  }

  lemma PoolPlaces(s: State, b: nat)
    requires Bounded(s) && PoolOk(s) && b < |s.mem|
    ensures s.hist.place[b].InPool? <==> b in s.pool
  {
  }

  lemma SlotPlaces(s: State, b: nat)
    requires Bounded(s) && Slots(s) && b < |s.mem|
    ensures s.hist.place[b].InSlot? <==> HasSlot(s, b)
  {
  }

  lemma PendingPlaces(s: State, b: nat)
    requires Bounded(s) && Records(s) && Returns(s) && b < |s.mem|
    ensures s.hist.place[b].Pending? <==> Returning(s, b)
  {
    var w := Waiting(s);
    assert forall k :: 0 <= k < |w| ==> w[k] == s.hist.recs[s.hist.done + k];
    if s.hist.place[b].Pending? {
      assert GivesBack(w[s.hist.place[b].record - s.hist.done], b);
    }
  }

  lemma ReturnsOnce(s: State, j: nat, k: nat)
    requires Bounded(s) && Records(s) && Returns(s) && j < k < |Waiting(s)| && Waiting(s)[j].len == 0
    ensures !GivesBack(Waiting(s)[k], Waiting(s)[j].buf)
  {
    var d := s.hist.done;
    assert Waiting(s)[j] == s.hist.recs[d + j] && Waiting(s)[k] == s.hist.recs[d + k];
    assert s.hist.place[s.hist.recs[d + j].buf] == Pending(d + j);
  }

  lemma InvOnePlace(s: State)
    requires BuffersOk(s)
    ensures OnePlace(s)
  {
    hide HasSlot, Returning, Pointers, Writers, Waiting, GivesBack;
    forall b | 0 <= b < |s.mem|
      ensures s.hist.place[b].InPool? <==> b in s.pool
      ensures s.hist.place[b].InSlot? <==> HasSlot(s, b)
      ensures s.hist.place[b].Pending? <==> Returning(s, b)
    {
      PoolPlaces(s, b);
      SlotPlaces(s, b);
      PendingPlaces(s, b);
    }
    forall j, k | 0 <= j < k < |Waiting(s)| && Waiting(s)[j].len == 0
      ensures !GivesBack(Waiting(s)[k], Waiting(s)[j].buf)
    {
      ReturnsOnce(s, j, k);
    }
    assert forall i, j :: 0 <= i < j < |s.pool| ==> s.hist.place[s.pool[i]] != s.hist.place[s.pool[j]];
  }

  /** Each buffer is in the pool, in one writer's slot, in one record that gives it back, or
      deleted; m_unrecyled counts those in slots and records; and no copy overruns a buffer. */
  lemma {:induction false} BuffersHaveOnePlace(fix: nat, before: string, threads: nat, sched: Schedule)
    requires 1 <= fix && Fits(sched, threads)
    ensures var s := Run(Init(fix, before, threads), sched);
      OnePlace(s) && s.unrecycled == Outside(s.hist.place) && forall t :: 0 <= t < |s.pc| ==> s.pc[t] != Overrun
  {
    hide Bounded, OnePlace, BuffersOk, FileOk, Outside;
    Reached(fix, before, threads, sched);
    var s := Run(Init(fix, before, threads), sched);
    InvOnePlace(s);
    NoOverrun(s);
  }

  lemma NoOverrun(s: State)
    requires BuffersOk(s)
    ensures forall t :: 0 <= t < |s.pc| ==> s.pc[t] != Overrun
  {
    hide Records, PoolOk, Slots, Returns, Pointers;
    forall t | 0 <= t < |s.pc|
      ensures s.pc[t] != Overrun
    {
      assert WriterOk(s, s.pc[t], s.slot[t]);
    }
  }

  /** There are never more than 1024 * m_fix_sz + 16 buffers, and a message is dropped only when
      more than 1024 * m_fix_sz of them are outside the pool. */
  lemma {:induction false} MemoryIsBounded(fix: nat, before: string, threads: nat, sched: Schedule, t: nat)
    requires 1 <= fix && Fits(sched, threads) && t < threads
    ensures var s := Run(Init(fix, before, threads), sched);
      && |s.pc| == threads && |s.pool| + Outside(s.hist.place) <= 1024 * s.fix + GRAN
      && (s.pc[t].Get? && Step(s, Writer(t, Go)).pc[t] == Idle ==> Outside(s.hist.place) > 1024 * s.fix)
  {
    hide BuffersOk, FileOk, Outside, Bounded, PcOk, Splice, Blank;
    Reached(fix, before, threads, sched);
  }

  // A step takes buffers from the pool for good only in the eighth idle turn, and never one of the
  // first m_fix_sz.
  ghost predicate ShrinkStep(s: State, r: State)
    requires Bounded(s) && Bounded(r)
  {
    forall b :: 0 <= b < |s.mem| && b < |r.mem| && s.hist.place[b] != Deleted && r.hist.place[b] == Deleted ==>
      s.logger == Wait(7) && s.pb1 == [] && s.hist.place[b].InPool? && s.fix <= s.hist.place[b].at < |s.pool|
  }

  // Nothing is deleted.
  predicate Deletes(s: State, r: State, b: nat) {
    b < |s.hist.place| && b < |r.hist.place| && s.hist.place[b] != Deleted && r.hist.place[b] == Deleted
  }

  lemma NothingDeleted(s: State, r: State)
    requires Bounded(s) && Bounded(r) && forall b: nat :: !Deletes(s, r, b)
    ensures ShrinkStep(s, r)
  {
    hide PcOk, RecOk;
    forall b | 0 <= b < |s.mem| && b < |r.mem| && s.hist.place[b] != Deleted
      ensures r.hist.place[b] != Deleted
    {
      assert !Deletes(s, r, b);
    }
  }

  lemma ShrunkDeletes(s: State, b: nat)
    requires Bounded(s) && PoolOk(s) && Deletes(s, Shrunk(s), b)
    ensures s.hist.place[b].InPool? && s.fix <= s.hist.place[b].at < |s.pool|
  {
    hide PcOk, RecOk;
  }

  lemma LoggerDeletes(s: State, replies: seq<Reply>, big1: bool, big2: bool, b: nat)
    requires Bounded(s) && PoolOk(s) && Deletes(s, LoggerStep(s, replies, big1, big2), b)
    ensures s.logger == Wait(7) && s.pb1 == [] && s.hist.place[b].InPool? && s.fix <= s.hist.place[b].at < |s.pool|
  {
    hide PcOk, RecOk, Bytes, Shrunk, PoolOk;
    if s.logger == Wait(7) && s.pb1 == [] { assert Deletes(s, Shrunk(s), b); ShrunkDeletes(s, b); }
  }

  lemma LoggerShrinks(s: State, replies: seq<Reply>, big1: bool, big2: bool)
    requires Bounded(s) && PoolOk(s)
    ensures ShrinkStep(s, LoggerStep(s, replies, big1, big2))
  {
    hide PcOk, RecOk, PoolOk, LoggerStep;
    var r := LoggerStep(s, replies, big1, big2);
    forall b | 0 <= b < |s.mem| && b < |r.mem| && s.hist.place[b] != Deleted && r.hist.place[b] == Deleted
      ensures s.logger == Wait(7) && s.pb1 == [] && s.hist.place[b].InPool? && s.fix <= s.hist.place[b].at < |s.pool|
    {
      LoggerDeletes(s, replies, big1, big2, b);
    }
  }

  lemma GetBuffDeletes(s: State, t: nat, got: Pc, none: Pc)
    requires Bounded(s) && t < |s.pc| && PcOk(got, Buff(0)) && PcOk(none, NullBuff)
    ensures forall b: nat :: !Deletes(s, GetBuff(s, t, got, none), b)
  {
    hide PcOk, RecOk, Blank;
  }

  lemma WriterKeepsAll(s: State, t: nat, a: Action)
    requires Bounded(s) && t < |s.pc|
    ensures forall b: nat :: !Deletes(s, WriterStep(s, t, a), b)
  {
    hide PcOk, RecOk, MsgOk, Splice, GetBuff, Bounded;
    if s.pc[t].First? || s.pc[t].Get? {
      var msg := s.pc[t].msg;
      CheckFits(s, t);
      GetBuffDeletes(s, t, Check(msg), Check(msg));
      GetBuffDeletes(s, t, Copy(msg), Idle);
    }
  }

  lemma StopKeepsAll(s: State)
    requires Bounded(s)
    ensures Bounded(s.(running := false)) && ShrinkStep(s, s.(running := false))
  {
  }

  /** Every step of every run: buffers are deleted only from the pool, in the eighth idle turn with
      nothing queued, and the first m_fix_sz of the pool stay. */
  lemma {:induction false} ShrinksOnlyWhenIdle(fix: nat, before: string, threads: nat, sched: Schedule, e: Event)
    requires 1 <= fix && Fits(sched, threads) && (e.Writer? ==> e.t < threads)
    ensures var s := Run(Init(fix, before, threads), sched); |s.pc| == threads && ShrinkStep(s, Step(s, e))
  {
    hide Bounded, BuffersOk, FileOk, CountOk, WriterStep, LoggerStep, Run;
    Reached(fix, before, threads, sched);
    var s := Run(Init(fix, before, threads), sched);
    assert |s.pc| == threads by { assert |Init(fix, before, threads).pc| == threads; }
    match e
    case Writer(t, a) =>
      WriterKeepsAll(s, t, a);
      NothingDeleted(s, WriterStep(s, t, a));
    case Logger(replies, big1, big2) =>
      BuffersParts(s);
      LoggerShrinks(s, replies, big1, big2);
    case Stop => StopKeepsAll(s);
  }

  /** m_curPendingMsg is the number of records in *m_pb1. */
  lemma {:induction false} PendingIsLength(fix: nat, before: string, threads: nat, sched: Schedule)
    requires 1 <= fix && Fits(sched, threads)
    ensures var s := Run(Init(fix, before, threads), sched); s.pending == |s.pb1|
  {
    hide Bounded;
    Reached(fix, before, threads, sched);
  }
}

/** On its own the logging thread writes out whatever is queued, and after Stop it ends as well. */
module AsyncLogStop {
  import opened LogFile
  import opened AsyncLog
  import opened AsyncLogInv
  import opened AsyncLogLogger
  import opened AsyncLogTheorems

  // The logging thread runs alone, and write takes all it is given.
  function Alone(s: State, steps: nat): (r: State)
    requires Bounded(s)
    ensures Bounded(r) && r.pc == s.pc
    decreases steps
  {
    if steps == 0 then s else Alone(LoggerStep(s, [], true, true), steps - 1)
  }

  // The steps that are left once m_running is false.
  function StepsLeft(s: State): nat
    requires Bounded(s)
  {
    var rest := if s.pb1 == [] then 1 else |s.pb1| + 5;
    match s.logger
    case Top => rest
    case Wait(_) => rest
    case Drain(i) => |s.pb2| - i + 2 + rest
    case Clear => 1 + rest
    case Exited => 0
  }

  lemma {:induction false} OneLess(s: State)
    requires Bounded(s) && Records(s) && !s.running && !s.logger.Exited?
    ensures var r := LoggerStep(s, [], true, true);
      !r.running && StepsLeft(r) < StepsLeft(s) && r.hist.texts == s.hist.texts
  {
    hide PcOk, RecOk, Bytes;
  }

  lemma {:induction false} DrainsAndEnds(s: State, before: string) returns (steps: nat)
    requires Inv(s, before) && !s.running && s.hist.lost == 0
    ensures steps <= StepsLeft(s)
    ensures var r := Alone(s, steps);
      Inv(r, before) && r.logger.Exited? && r.hist.lost == 0 && r.hist.texts == s.hist.texts
    decreases StepsLeft(s)
  {
    hide PoolOk, Slots, Returns, Pointers, Writers, FileOk, CountOk, LoggerStep, StepsLeft;
    if s.logger.Exited? {
      steps := 0;
    } else {
      var e := Logger([], true, true);
      var r := LoggerStep(s, [], true, true);
      OneLess(s);
      StepInv(s, before, e);
      LostStep(s, e);
      assert Step(s, e) == r;
      var more := DrainsAndEnds(r, before);
      steps := more + 1;
    }
  }

  /** From every state of every run in which Stop has been called and no write has dropped bytes,
      the logging thread on its own ends, and then everything queued so far is in the file,
      exactly once and in order. */
  lemma {:induction false} StopWritesEverything(fix: nat, before: string, threads: nat, sched: Schedule)
    requires 1 <= fix && Fits(sched, threads)
    ensures var s := Run(Init(fix, before, threads), sched);
      !s.running && s.hist.lost == 0 ==>
        exists steps: nat :: Alone(s, steps).logger.Exited? && Alone(s, steps).file.disk == before + Concat(s.hist.texts)
  {
    hide Bounded, BuffersOk, FileOk, CountOk, Concat, Step;
    Reached(fix, before, threads, sched);
    var s := Run(Init(fix, before, threads), sched);
    if !s.running && s.hist.lost == 0 {
      var steps := DrainsAndEnds(s, before);
      ExitedHasAll(Alone(s, steps), before);
    }
  }

  lemma {:induction false} ExitedHasAll(s: State, before: string)
    requires Inv(s, before) && s.logger.Exited? && s.hist.lost == 0
    ensures s.file.disk == before + Concat(s.hist.texts)
  {
    hide PoolOk, Slots, Returns, Pointers, Writers, CountOk, Concat;
    assert s.hist.recs[s.hist.done..] == [];
    assert s.hist.texts[..s.hist.done] == s.hist.texts;
    assert Text(s.file) == s.file.disk;
  }

  // ----- Before and after Stop: it catches up -----

  // Nothing is queued, and nothing is left in the file's buffer.
  predicate CaughtUp(s: State) { s.pb1 == [] && !s.logger.Drain? }

  function StepsBehind(s: State): nat
    requires Bounded(s)
  {
    var n := |s.pb1|;
    match s.logger
    case Top => if n == 0 then 0 else n + 4
    case Wait(_) => if n == 0 then 0 else n + 3
    case Drain(i) => |s.pb2| - i + 1 + (if n == 0 then 0 else n + 5)
    case Clear => if n == 0 then 0 else n + 5
    case Exited => 0
  }

  lemma {:induction false} OneCloser(s: State)
    requires Bounded(s) && Records(s) && !CaughtUp(s)
    ensures var r := LoggerStep(s, [], true, true); StepsBehind(r) < StepsBehind(s) && r.hist.texts == s.hist.texts
  {
    hide PcOk, RecOk, Bytes;
  }

  lemma {:induction false} Drains(s: State, before: string) returns (steps: nat)
    requires Inv(s, before) && s.hist.lost == 0
    ensures steps <= StepsBehind(s)
    ensures var r := Alone(s, steps);
      Inv(r, before) && CaughtUp(r) && r.hist.lost == 0 && r.hist.texts == s.hist.texts
    decreases StepsBehind(s)
  {
    hide PoolOk, Slots, Returns, Pointers, Writers, FileOk, CountOk, LoggerStep, StepsBehind;
    if CaughtUp(s) {
      steps := 0;
    } else {
      var e := Logger([], true, true);
      var r := LoggerStep(s, [], true, true);
      OneCloser(s);
      StepInv(s, before, e);
      LostStep(s, e);
      assert Step(s, e) == r;
      var more := Drains(r, before);
      steps := more + 1;
    }
  }

  lemma {:induction false} CaughtUpHasAll(s: State, before: string)
    requires Inv(s, before) && CaughtUp(s) && s.hist.lost == 0
    ensures s.file.disk == before + Concat(s.hist.texts) && s.hist.done == |s.hist.texts|
  {
    hide PoolOk, Slots, Returns, Pointers, Writers, CountOk, Concat;
    assert s.hist.recs[s.hist.done..] == [];
    assert s.hist.texts[..s.hist.done] == s.hist.texts;
    assert Text(s.file) == s.file.disk;
  }

  /** From every state of every run in which no write has dropped bytes, stopped or not, a bounded
      number of steps of the logging thread on its own brings everything queued so far into the
      file, exactly once and in order. */
  lemma {:induction false} LoggerCatchesUp(fix: nat, before: string, threads: nat, sched: Schedule)
    requires 1 <= fix && Fits(sched, threads)
    ensures var s := Run(Init(fix, before, threads), sched);
      s.hist.lost == 0 ==>
        exists steps: nat :: steps <= |s.pb1| + |s.pb2| + 6 && Alone(s, steps).file.disk == before + Concat(s.hist.texts)
  {
    hide Bounded, BuffersOk, FileOk, CountOk, Concat, Step;
    Reached(fix, before, threads, sched);
    var s := Run(Init(fix, before, threads), sched);
    if s.hist.lost == 0 {
      var steps := Drains(s, before);
      CaughtUpHasAll(Alone(s, steps), before);
      assert StepsBehind(s) <= |s.pb1| + |s.pb2| + 6;
    }
  }
}

/**
  WorkerBodyBase with the mailbox of WorkerBody (thread/src/WorkerBodyBase.cc, thread/src/Worker.cc):
  one semaphore in front of two queues, filled by any number of posters, as a machine of steps.
 */
module Mailbox {

  // The program counter of the worker names its next step.
  datatype Pc =
    | Stopped                       // before Run, or after it has returned
    | Starting                      // ShouldStop_ = false
    | Try(req: nat)                 // TryConsume, or SignalConsume if req is past the threshold
    | Request(req: nat)             // Notify()
    | Timed(req: nat)               // SignalConsumeTimeout
    | Block                         // SignalConsume
    | CmdEmpty                      // cmd_.IsEmpty()
    | CmdPop                        // cmd_.PopFront
    | TaskPop                       // GetTaskFromContainer
    | Handle(task: int)             // task->Run(); a null task is -1
    | Execute                       // ProcessInternalCmd: the exit command sets ShouldStop_
    | Finish                        // leave the loop, or NotifyDone()

  // A poster in PostTask or PostExit.
  datatype Poster =
    | Out(accepted: bool)
    | PushTask(task: nat)           // PushTaskToContainer
    | PushExit                      // PushInternalCmd
    | Signal                        // SignalPost

  // The exit commands of cmd_ are all alike, so cmd_ is their number.  History: the tasks that
  // were accepted, and those that were handed to HandleTask.
  datatype State = State(cap: nat, notify: bool, tasks: seq<nat>, cmds: nat, permits: nat,
                         stop: bool, done: nat, requests: nat, pc: Pc, poster: seq<Poster>,
                         accepted: seq<nat>, ran: seq<int>)

  datatype Action = Start | PostTask(task: nat) | PostExit | Go | TimeOut

  // A step of the worker or of a poster.
  datatype Event = Worker(a: Action) | Post(p: nat, a: Action)

  const THRESHOLD: nat := 3           // reqThreshold_

  function Init(cap: nat, notify: bool, posters: nat): State {
    State(cap, notify, [], 0, 0, false, 0, 0, Stopped, seq(posters, p => Out(false)), [], [])
  }

  function Consume(s: State, otherwise: Pc): State {
    if s.permits > 0 then s.(permits := s.permits - 1, pc := CmdEmpty) else s.(pc := otherwise)
  }

  function WorkerStep(s: State, a: Action): State {
    match s.pc
    case Stopped => if a.Start? then s.(pc := Starting) else s
    case Starting => s.(stop := false, pc := Try(0))
    case Try(req) => if !s.notify || req > THRESHOLD then s.(pc := Block) else Consume(s, Request(req))
    case Request(req) => s.(requests := s.requests + 1, pc := Timed(req + 1))
    case Timed(req) => if a.TimeOut? then s.(pc := Try(req)) else Consume(s, Timed(req))
    case Block => Consume(s, Block)
    case CmdEmpty => s.(pc := if s.cmds == 0 then TaskPop else CmdPop)
    case CmdPop => if s.cmds > 0 then s.(cmds := s.cmds - 1, pc := Execute) else s.(pc := TaskPop)
    case TaskPop =>
      if s.tasks == [] then s.(pc := Handle(-1), ran := s.ran + [-1])
      else s.(tasks := s.tasks[1..], pc := Handle(s.tasks[0]), ran := s.ran + [s.tasks[0]])
    case Handle(_) => s.(done := s.done + 1, pc := Finish)
    case Execute => s.(stop := true, pc := Finish)
    case Finish => s.(pc := if s.stop then Stopped else Try(0))
  }

  function PosterStep(s: State, p: nat, a: Action): (r: State)
    requires p < |s.poster|
    ensures |r.poster| == |s.poster|
  {
    match s.poster[p]
    case Out(_) =>
      (match a
       case PostTask(task) => s.(poster := s.poster[p := PushTask(task)])
       case PostExit => s.(poster := s.poster[p := PushExit])
       case _ => s)
    case PushTask(task) =>
      if |s.tasks| >= s.cap then s.(poster := s.poster[p := Out(false)])
      else s.(tasks := s.tasks + [task], accepted := s.accepted + [task], poster := s.poster[p := Signal])
    case PushExit =>
      if s.cmds >= s.cap then s.(poster := s.poster[p := Out(false)])
      else s.(cmds := s.cmds + 1, poster := s.poster[p := Signal])
    case Signal => s.(permits := s.permits + 1, poster := s.poster[p := Out(true)])
  }

  function Step(s: State, e: Event): (r: State)
    requires e.Post? ==> e.p < |s.poster|
    ensures |r.poster| == |s.poster|
  {
    match e
    case Worker(a) => WorkerStep(s, a)
    case Post(p, a) => PosterStep(s, p, a)
  }

  type Schedule = seq<Event>

  predicate Fits(sched: Schedule, posters: nat) {
    forall k :: 0 <= k < |sched| && sched[k].Post? ==> sched[k].p < posters
  }

  function Run(s: State, sched: Schedule): (r: State)
    requires Fits(sched, |s.poster|)
    ensures |r.poster| == |s.poster|
    decreases |sched|
  {
    if sched == [] then s
    else
      var k := |sched| - 1;
      Step(Run(s, sched[..k]), sched[k])
  }

  // ----- The balance of the semaphore -----

  // Posters that have pushed but not yet signalled.
  function Unsignalled(poster: seq<Poster>): nat {
    if poster == [] then 0
    else Unsignalled(poster[..|poster| - 1]) + (if poster[|poster| - 1].Signal? then 1 else 0)
  }

  // The worker has consumed a permit but not yet taken what it stands for.
  function Untaken(c: Pc): nat { if c.CmdEmpty? || c.CmdPop? || c.TaskPop? then 1 else 0 }

  ghost predicate Balanced(s: State) {
    |s.tasks| + s.cmds == s.permits + Unsignalled(s.poster) + Untaken(s.pc)
  }

  ghost predicate Counts(s: State) {
    && Balanced(s)
    && (s.pc.CmdPop? ==> s.cmds > 0)
    && (s.pc.TaskPop? ==> s.cmds <= s.permits + Unsignalled(s.poster))
    && |s.tasks| <= s.cap && s.cmds <= s.cap
  }

  // The tasks run so far are the first accepted ones; the others are queued.
  ghost predicate InOrder(s: State) {
    && |s.ran| <= |s.accepted|
    && (forall k :: 0 <= k < |s.ran| ==> s.ran[k] == s.accepted[k])
    && s.tasks == s.accepted[|s.ran|..]
    && (s.pc.Handle? ==> s.ran != [] && s.pc.task == s.ran[|s.ran| - 1])
  }

  // done_ counts the tasks that are finished.
  ghost predicate DoneCounts(s: State) {
    s.done + (if s.pc.Handle? then 1 else 0) == |s.ran|
  }

  ghost predicate Inv(s: State) { Counts(s) && InOrder(s) && DoneCounts(s) }

  lemma {:induction false} UnsignalledUpdate(poster: seq<Poster>, p: nat, c: Poster)
    requires p < |poster|
    ensures Unsignalled(poster[p := c]) ==
              Unsignalled(poster) - (if poster[p].Signal? then 1 else 0) + (if c.Signal? then 1 else 0)
  {
    var k := |poster| - 1;
    if p == k {
      assert poster[p := c][..k] == poster[..k];
    } else {
      assert poster[p := c][..k] == poster[..k][p := c];
      UnsignalledUpdate(poster[..k], p, c);
    }
  }

  lemma {:induction false} NoneUnsignalled(poster: seq<Poster>)
    requires forall p :: 0 <= p < |poster| ==> !poster[p].Signal?
    ensures Unsignalled(poster) == 0
  {
    if poster != [] { NoneUnsignalled(poster[..|poster| - 1]); }
  }

  lemma InitInv(cap: nat, notify: bool, posters: nat)
    ensures Inv(Init(cap, notify, posters))
  {
    NoneUnsignalled(Init(cap, notify, posters).poster);
  }

  lemma WorkerCountsWait(s: State, a: Action)
    requires Counts(s) && (s.pc.Try? || s.pc.Timed? || s.pc.Block?)
    ensures Counts(WorkerStep(s, a))
  {
    hide Unsignalled;
  }

  lemma WorkerCountsOther(s: State, a: Action)
    requires Counts(s) && Untaken(s.pc) == 0 && !s.pc.Try? && !s.pc.Timed? && !s.pc.Block?
    ensures Counts(WorkerStep(s, a))
  {
    hide Unsignalled;
  }

  lemma WorkerCounts(s: State, a: Action)
    requires Counts(s)
    ensures Counts(WorkerStep(s, a))
  {
    hide Counts, WorkerStep;
    if Untaken(s.pc) == 1 {
      WorkerCountsTake(s, a);
    } else if s.pc.Try? || s.pc.Timed? || s.pc.Block? {
      WorkerCountsWait(s, a);
    } else {
      WorkerCountsOther(s, a);
    }
  }

  lemma WorkerQuiet(s: State, a: Action)
    requires !s.pc.TaskPop?
    ensures var r := WorkerStep(s, a);
      r.tasks == s.tasks && r.ran == s.ran && r.accepted == s.accepted && (r.pc.Handle? ==> r.pc == s.pc)
  {
  }

  // The worker has a permit for a task when it finds no command.
  lemma WorkerOrder(s: State, a: Action)
    requires Counts(s) && InOrder(s)
    ensures InOrder(WorkerStep(s, a))
  {
    hide Counts, WorkerStep;
    if s.pc.TaskPop? { TaskOrder(s, a); } else { WorkerQuiet(s, a); }
  }

  lemma TaskOrder(s: State, a: Action)
    requires Counts(s) && InOrder(s) && s.pc.TaskPop?
    ensures InOrder(WorkerStep(s, a))
  {
    hide Unsignalled;
    assert s.tasks[0] == s.accepted[|s.ran|];
    assert s.tasks[1..] == s.accepted[|s.ran| + 1..];
  }

  lemma WorkerCountsTake(s: State, a: Action)
    requires Counts(s) && Untaken(s.pc) == 1
    ensures Counts(WorkerStep(s, a))
  {
    hide Unsignalled;
  }

  lemma WorkerDone(s: State, a: Action)
    requires DoneCounts(s)
    ensures DoneCounts(WorkerStep(s, a))
  {
  }

  lemma WorkerInv(s: State, a: Action)
    requires Inv(s)
    ensures Inv(WorkerStep(s, a))
  {
    hide Counts, InOrder, DoneCounts, WorkerStep;
    WorkerDone(s, a);
    WorkerCounts(s, a);
    WorkerOrder(s, a);
  }

  lemma PosterDone(s: State, p: nat, a: Action)
    requires DoneCounts(s) && p < |s.poster|
    ensures DoneCounts(PosterStep(s, p, a))
  {
  }

  lemma PosterInv(s: State, p: nat, a: Action)
    requires Inv(s) && p < |s.poster|
    ensures Inv(PosterStep(s, p, a))
  {
    hide Unsignalled, DoneCounts;
    var r := PosterStep(s, p, a);
    assert DoneCounts(r) by { PosterDone(s, p, a); }
    UnsignalledUpdate(s.poster, p, r.poster[p]);
    assert r.poster == s.poster[p := r.poster[p]];
  }

  lemma {:induction false} RunInv(s: State, sched: Schedule)
    requires Inv(s) && Fits(sched, |s.poster|)
    ensures Inv(Run(s, sched))
  {
    hide Inv, WorkerStep, PosterStep;
    if sched != [] {
      var k := |sched| - 1;
      RunInv(s, sched[..k]);
      match sched[k]
      case Worker(a) => WorkerInv(Run(s, sched[..k]), a);
      case Post(p, a) => PosterInv(Run(s, sched[..k]), p, a);
    }
  }

  // ----- What it promises, for any number of posters, stops and restarts -----

  /** Queued tasks and commands are the permits, plus what is pushed but not signalled, plus what
      the worker has consumed but not taken. */
  lemma {:induction false} PermitsBalance(cap: nat, notify: bool, posters: nat, sched: Schedule)
    requires Fits(sched, posters)
    ensures Balanced(Run(Init(cap, notify, posters), sched))
  {
    hide WorkerStep, PosterStep;
    InitInv(cap, notify, posters);
    RunInv(Init(cap, notify, posters), sched);
  }

  /** The tasks that were handed to HandleTask are the first accepted ones, in the order in which
      they were pushed, never null, and the others are still queued in that order; done_ counts
      those that are finished. */
  lemma {:induction false} TasksRunInOrder(cap: nat, notify: bool, posters: nat, sched: Schedule)
    requires Fits(sched, posters)
    ensures var s := Run(Init(cap, notify, posters), sched);
      && |s.ran| <= |s.accepted| && s.tasks == s.accepted[|s.ran|..]
      && (forall k :: 0 <= k < |s.ran| ==> s.ran[k] == s.accepted[k])
      && s.pc != Handle(-1) && s.done + (if s.pc.Handle? then 1 else 0) == |s.ran|
  {
    hide WorkerStep, PosterStep;
    InitInv(cap, notify, posters);
    RunInv(Init(cap, notify, posters), sched);
  }

  /** A worker that sleeps without a permit has nothing to do, unless a poster has yet to signal. */
  lemma {:induction false} SleepsOnlyWhenEmpty(cap: nat, notify: bool, posters: nat, sched: Schedule)
    requires Fits(sched, posters)
    ensures var s := Run(Init(cap, notify, posters), sched);
      ((s.pc.Timed? || s.pc.Block?) && s.permits == 0 && (forall p :: 0 <= p < |s.poster| ==> !s.poster[p].Signal?)) ==>
        s.tasks == [] && s.cmds == 0
  {
    hide WorkerStep, PosterStep, Unsignalled;
    InitInv(cap, notify, posters);
    RunInv(Init(cap, notify, posters), sched);
    var s := Run(Init(cap, notify, posters), sched);
    if forall p :: 0 <= p < |s.poster| ==> !s.poster[p].Signal? { NoneUnsignalled(s.poster); }
  }

  /** After a stop, and until the next start, every task that has not run is still queued and has
      its permit, as has every command that was not executed. */
  lemma {:induction false} StopKeepsTasks(cap: nat, notify: bool, posters: nat, sched: Schedule)
    requires Fits(sched, posters)
    ensures var s := Run(Init(cap, notify, posters), sched);
      (s.pc.Stopped? && (forall p :: 0 <= p < |s.poster| ==> !s.poster[p].Signal?)) ==>
        |s.ran| <= |s.accepted| && s.tasks == s.accepted[|s.ran|..] && s.permits == |s.tasks| + s.cmds
  {
    hide WorkerStep, PosterStep, Unsignalled;
    InitInv(cap, notify, posters);
    RunInv(Init(cap, notify, posters), sched);
    var s := Run(Init(cap, notify, posters), sched);
    if forall p :: 0 <= p < |s.poster| ==> !s.poster[p].Signal? { NoneUnsignalled(s.poster); }
  }

  // ----- Commands come before tasks -----

  function WorkerSteps(sched: Schedule): nat {
    if sched == [] then 0
    else WorkerSteps(sched[..|sched| - 1]) + (if sched[|sched| - 1].Worker? then 1 else 0)
  }

  // Where a worker with a permit is after n of its steps, if it has found a command.
  function TowardsStop(n: nat): Pc {
    if n == 0 then CmdEmpty else if n == 1 then CmdPop else if n == 2 then Execute else if n == 3 then Finish else Stopped
  }

  predicate Stopping(s: State, n: nat) {
    s.pc == TowardsStop(n) && (n <= 1 ==> s.cmds > 0) && (n == 3 ==> s.stop)
  }

  lemma StoppingStep(s: State, e: Event, n: nat)
    requires Stopping(s, n) && (e.Post? ==> e.p < |s.poster|) && e != Worker(Start)
    ensures var r := Step(s, e);
      && Stopping(r, if e.Worker? then n + 1 else n)
      && r.ran == s.ran && r.done == s.done && s.tasks <= r.tasks
  {
  }

  /** A command that is queued when the worker has a permit is executed before any queued task,
      whatever the posters do meanwhile: the worker stops after four steps of its own, until the
      next start, and every queued task stays queued. */
  lemma {:induction false} CommandsFirst(s: State, sched: Schedule)
    requires Fits(sched, |s.poster|) && s.pc.CmdEmpty? && s.cmds > 0
    requires forall k :: 0 <= k < |sched| ==> sched[k] != Worker(Start)
    ensures var r := Run(s, sched);
      && Stopping(r, WorkerSteps(sched)) && (WorkerSteps(sched) >= 4 ==> r.pc.Stopped?)
      && r.ran == s.ran && r.done == s.done && s.tasks <= r.tasks
  {
    hide WorkerStep, PosterStep, Stopping;
    if sched == [] {
      FirstStage(s);
    } else {
      var k := |sched| - 1;
      CommandsFirst(s, sched[..k]);
      StoppingStep(Run(s, sched[..k]), sched[k], WorkerSteps(sched[..k]));
      StagePc(Run(s, sched), WorkerSteps(sched));
    }
  }

  lemma FirstStage(s: State)
    requires s.pc.CmdEmpty? && s.cmds > 0
    ensures Stopping(s, 0)
  {
  }

  lemma StagePc(s: State, n: nat)
    requires Stopping(s, n)
    ensures n >= 4 ==> s.pc.Stopped?
  {
  }

  // ----- A permit is used -----

  // The worker on its own.
  function Alone(s: State, steps: nat): State
    decreases steps
  {
    if steps == 0 then s else Alone(WorkerStep(s, Go), steps - 1)
  }

  // It has a task, or a command, in its hands.
  predicate Took(s: State) { (s.pc.Handle? && s.pc.task >= 0) || s.pc.Execute? }

  // It is running, and there is a permit, or it has consumed one and has not used it.
  predicate Supplied(s: State) {
    && !s.pc.Stopped? && !s.pc.Execute? && (s.stop ==> s.pc.Starting?)
    && (s.permits > 0 || Untaken(s.pc) == 1)
  }

  // The steps until it takes what the permit stands for.
  function StepsToTake(c: Pc): nat {
    match c
    case Starting => 6
    case Try(_) => 5
    case Request(_) => 5
    case Timed(_) => 4
    case Block => 4
    case CmdEmpty => 3
    case CmdPop => 2
    case TaskPop => 2
    case Handle(_) => 7
    case Finish => 6
    case _ => 0
  }

  lemma OneCloser(s: State)
    requires Counts(s) && Supplied(s) && !Took(s)
    ensures var r := WorkerStep(s, Go); Took(r) || (Supplied(r) && StepsToTake(r.pc) < StepsToTake(s.pc))
  {
    hide Unsignalled;
  }

  lemma InvCounts(s: State)
    requires Inv(s)
    ensures Counts(s)
  {
  }

  /** In every state of every run in which the worker is running, has nothing in its hands and there
      is a permit for it, it takes a task or a command within seven steps of its own. */
  lemma {:induction false} PermitIsUsed(s: State) returns (steps: nat)
    requires Inv(s) && Supplied(s) && !Took(s)
    ensures 1 <= steps <= 7 && Took(Alone(s, steps)) && steps <= StepsToTake(s.pc)
    decreases StepsToTake(s.pc)
  {
    hide Inv, WorkerStep, Supplied, Took;
    var r := WorkerStep(s, Go);
    InvCounts(s);
    OneCloser(s);
    WorkerInv(s, Go);
    if Took(r) {
      steps := 1;
      assert Alone(s, 1) == Alone(r, 0);
      assert StepsToTake(s.pc) >= 1 by { NearTake(s); }
    } else {
      var more := PermitIsUsed(r);
      steps := more + 1;
    }
  }

  lemma NearTake(s: State)
    requires Supplied(s)
    ensures StepsToTake(s.pc) >= 1
  {
  }

  // ----- A worker asks before it sleeps -----

  // The requests since it has begun to look for work, or -1 while it has something to do.
  function Asked(c: Pc): int {
    match c
    case Try(req) => req
    case Request(req) => req
    case Timed(req) => req
    case Block => THRESHOLD + 1
    case _ => -1
  }

  lemma AsksStep(s: State, e: Event, from: nat)
    requires s.notify && (e.Post? ==> e.p < |s.poster|) && Asked(s.pc) >= 0 && s.requests == from + Asked(s.pc)
    requires s.pc.Try? ==> s.pc.req <= THRESHOLD + 1
    requires s.pc.Request? ==> s.pc.req <= THRESHOLD
    requires s.pc.Timed? ==> 1 <= s.pc.req <= THRESHOLD + 1
    ensures var r := Step(s, e);
      && r.notify && (r.pc.Try? ==> r.pc.req <= THRESHOLD + 1) && (r.pc.Request? ==> r.pc.req <= THRESHOLD)
      && (r.pc.Timed? ==> 1 <= r.pc.req <= THRESHOLD + 1)
      && (Asked(r.pc) >= 0 ==> r.requests == from + Asked(r.pc))
  {
  }

  ghost predicate Asks(s: State, from: nat) {
    && s.notify && s.requests == from + Asked(s.pc)
    && (s.pc.Try? ==> s.pc.req <= THRESHOLD + 1) && (s.pc.Request? ==> s.pc.req <= THRESHOLD)
    && (s.pc.Timed? ==> 1 <= s.pc.req <= THRESHOLD + 1)
  }

  /** From the moment a worker that notifies begins to look for work, and as long as it finds none,
      it has made as many requests as it has begun timed waits, and it goes to sleep without a
      time-out only after four of them. */
  lemma {:induction false} AsksBeforeSleeping(s: State, sched: Schedule)
    requires Fits(sched, |s.poster|) && s.notify && s.pc == Try(0)
    requires forall k :: 0 <= k <= |sched| ==> Asked(Run(s, sched[..k]).pc) >= 0
    ensures var r := Run(s, sched);
      Asks(r, s.requests) && (r.pc.Block? ==> r.requests == s.requests + 4)
  {
    hide WorkerStep, PosterStep, Asked;
    if sched == [] {
      assert Asked(Try(0)) == 0 by { AskedAtFirst(); }
    } else {
      var k := |sched| - 1;
      assert forall j :: 0 <= j <= k ==> sched[..k][..j] == sched[..j];
      assert sched[..|sched|] == sched;
      AsksBeforeSleeping(s, sched[..k]);
      AsksStep(Run(s, sched[..k]), sched[k], s.requests);
      BlockAsked(Run(s, sched));
    }
  }

  lemma AskedAtFirst()
    ensures Asked(Try(0)) == 0
  {
  }

  lemma BlockAsked(s: State)
    ensures s.pc.Block? ==> Asked(s.pc) == 4
  {
  }
}

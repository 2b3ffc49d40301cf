/** WorkerBodyBase in place: every step is the step of the machine in module Mailbox. */
module WorkerBody {
  import opened Mailbox

  class Worker {
    const maxSz: nat
    const notify: bool
    var mailbox: seq<nat>
    var cmd: nat                    // the size of cmd_
    var sem: nat
    var shouldStop: bool
    var done: nat
    var requests: nat               // calls of Notify()
    var pc: Pc                      // where the worker is, with its locals
    var poster: seq<Poster>         // where each poster is
    ghost var accepted: seq<nat>
    ghost var ran: seq<int>

    ghost function St(): State
      reads this
    {
      State(maxSz, notify, mailbox, cmd, sem, shouldStop, done, requests, pc, poster, accepted, ran)
    }

    constructor (maxSz: nat, notify: bool, posters: nat)
      ensures St() == Init(maxSz, notify, posters)
    {
      this.maxSz, this.notify := maxSz, notify;
      mailbox, cmd, sem, shouldStop, done, requests := [], 0, 0, false, 0, 0;
      pc, poster := Stopped, seq(posters, p => Out(false));
      accepted, ran := [], [];
    }

    // sem_trywait, or a sem_wait that has to wait.
    method TryConsume(otherwise: Pc)
      modifies this`sem, this`pc
      ensures St() == Consume(old(St()), otherwise)
    {
      if sem > 0 {
        sem := sem - 1;
        pc := CmdEmpty;
      } else {
        pc := otherwise;
      }
    }

    // The next step of GetRunTask.
    method GetRunTask(a: Action)
      requires pc.Try? || pc.Request? || pc.Timed? || pc.Block? || pc.CmdEmpty? || pc.CmdPop? || pc.TaskPop?
      modifies this
      ensures St() == WorkerStep(old(St()), a)
    {
      match pc
      case Try(req) => if !notify || req > THRESHOLD { pc := Block; } else { TryConsume(Request(req)); }
      case Request(req) =>
        requests := requests + 1;
        pc := Timed(req + 1);
      case Timed(req) => if a.TimeOut? { pc := Try(req); } else { TryConsume(Timed(req)); }
      case Block => TryConsume(Block);
      case CmdEmpty => pc := if cmd == 0 then TaskPop else CmdPop;
      case CmdPop =>
        if cmd > 0 {
          cmd := cmd - 1;
          pc := Execute;
        } else {
          pc := TaskPop;
        }
      case TaskPop =>
        var msg := if mailbox == [] then -1 else mailbox[0];
        if mailbox != [] { mailbox := mailbox[1..]; }
        pc := Handle(msg);
        ran := ran + [msg];
    }

    // The next step of Run.
    method RunStep(a: Action)
      modifies this
      ensures St() == WorkerStep(old(St()), a)
    {
      match pc
      case Stopped => if a.Start? { pc := Starting; }
      case Starting =>
        shouldStop := false;
        pc := Try(0);
      case Handle(_) =>
        done := done + 1;
        pc := Finish;
      case Execute =>
        shouldStop := true;
        pc := Finish;
      case Finish => pc := if shouldStop then Stopped else Try(0);
      case _ => GetRunTask(a);
    }

    // The next step of PostTask or PostExit.
    method PostStep(p: nat, a: Action)
      requires p < |poster|
      modifies this
      ensures St() == PosterStep(old(St()), p, a)
    {
      match poster[p]
      case Out(_) =>
        match a {
          case PostTask(task) => poster := poster[p := PushTask(task)];
          case PostExit => poster := poster[p := PushExit];
          case _ =>
        }
      case PushTask(task) =>
        if |mailbox| >= maxSz {
          poster := poster[p := Out(false)];
        } else {
          mailbox := mailbox + [task];
          accepted := accepted + [task];
          poster := poster[p := Signal];
        }
      case PushExit =>
        if cmd >= maxSz {
          poster := poster[p := Out(false)];
        } else {
          cmd := cmd + 1;
          poster := poster[p := Signal];
        }
      case Signal =>
        sem := sem + 1;
        poster := poster[p := Out(true)];
    }

    // An arbitrary interleaving.
    method RunSchedule(sched: Schedule)
      requires Fits(sched, |poster|)
      modifies this
      ensures St() == Run(old(St()), sched)
    {
      hide WorkerStep, PosterStep;
      for k := 0 to |sched|
        invariant |poster| == old(|poster|) && St() == Run(old(St()), sched[..k])
      {
        assert sched[..k + 1][..k] == sched[..k];
        match sched[k] {
          case Worker(a) => RunStep(a);
          case Post(p, a) => PostStep(p, a);
        }
        assert St() == Run(old(St()), sched[..k + 1]);
      }
      assert sched[..|sched|] == sched;
    }
  }
}

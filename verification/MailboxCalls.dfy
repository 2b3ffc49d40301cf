/** What PostTask and PostExit answer is what they did, on every run. */
module MailboxCalls {
  import opened CallTrace
  import opened Mailbox

  predicate ByPoster(e: Event, p: nat) { e.Post? && e.p == p }

  // A step of a poster puts a task, or an exit command, into the mailbox.
  datatype Change = Task(task: nat) | Exit

  function Added(s: State, r: State): Entry<Change> {
    if |s.accepted| < |r.accepted| then Entry(Task(r.accepted[|s.accepted|]))
    else if s.cmds < r.cmds then Entry(Exit)
    else NoEntry
  }

  // What the steps of poster p add, one after the other.
  ghost function Made(s: State, sched: Schedule, p: nat): (made: seq<Entry<Change>>)
    requires Fits(sched, |s.poster|)
    ensures |made| == |sched|
  {
    seq(|sched|, i requires 0 <= i < |sched| =>
      if ByPoster(sched[i], p) then Added(Run(s, sched[..i]), Run(s, sched[..i + 1])) else NoEntry)
  }

  ghost function OutAt(s: State, sched: Schedule, p: nat): (out: seq<bool>)
    requires Fits(sched, |s.poster|) && p < |s.poster|
    ensures |out| == |sched| + 1
  {
    seq(|sched| + 1, i requires 0 <= i <= |sched| => Run(s, sched[..i]).poster[p].Out?)
  }

  // Poster p calls at step j and returns at step k.
  ghost predicate Finished(s: State, sched: Schedule, p: nat, j: nat, k: nat)
    requires Fits(sched, |s.poster|)
  {
    && p < |s.poster| && j < |sched| && k < |sched| && ByPoster(sched[j], p) && ByPoster(sched[k], p)
    && Spans(OutAt(s, sched, p), j, k)
  }

  // True: the task, or the command, was put into the mailbox once.  False: nothing was, because
  // the queue that it was for was full.
  ghost predicate Answered(s: State, sched: Schedule, p: nat, j: nat, k: nat)
    requires Fits(sched, |s.poster|) && Finished(s, sched, p, j, k)
  {
    var made := Made(s, sched, p);
    var m := Run(s, sched[..k]);
    var answer := Run(s, sched[..k + 1]).poster[p].accepted;
    match sched[j].a
    case PostTask(x) =>
      if answer then Once(made, j + 1, k + 1, Task(x)) else Never(made, j + 1, k + 1) && |m.tasks| >= m.cap
    case PostExit =>
      if answer then Once(made, j + 1, k + 1, Exit) else Never(made, j + 1, k + 1) && m.cmds >= m.cap
    case _ => false
  }

  // ----- One step of a call -----

  function PhaseOf(c: Poster, a: Action): Phase<Change> {
    match a
    case PostTask(x) =>
      (match c
       case PushTask(task) => if task == x then Before else Elsewhere
       case PushExit => Elsewhere
       case Signal => After(Task(x))
       case Out(accepted) => if accepted then After(Task(x)) else Before)
    case PostExit =>
      (match c
       case PushTask(_) => Elsewhere
       case PushExit => Before
       case Signal => After(Exit)
       case Out(accepted) => if accepted then After(Exit) else Before)
    case _ => Elsewhere
  }

  lemma OneStep(s: State, p: nat, b: Action, a: Action)
    requires p < |s.poster| && !s.poster[p].Out? && !PhaseOf(s.poster[p], a).Elsewhere?
    ensures var r := PosterStep(s, p, b);
      && PhaseStep(PhaseOf(s.poster[p], a), Added(s, r), PhaseOf(r.poster[p], a))
      && (r.poster[p] == Out(false) ==> if a.PostTask? then |s.tasks| >= s.cap else s.cmds >= s.cap)
  {
  }

  lemma CallBegins(s: State, p: nat, a: Action)
    requires p < |s.poster| && s.poster[p].Out?
    ensures var c := PosterStep(s, p, a).poster[p];
      if a.PostTask? || a.PostExit? then !c.Out? && PhaseOf(c, a).Before? else c == s.poster[p]
  {
  }

  lemma Others(s: State, e: Event, p: nat)
    requires p < |s.poster| && (e.Post? ==> e.p < |s.poster|) && !ByPoster(e, p)
    ensures Step(s, e).poster[p] == s.poster[p]
  {
  }

  lemma {:induction false} RunOneMore(s: State, sched: Schedule, k: nat)
    requires Fits(sched, |s.poster|) && k < |sched|
    ensures Run(s, sched[..k + 1]) == Step(Run(s, sched[..k]), sched[k])
  {
    assert sched[..k + 1][..k] == sched[..k];
  }

  // A step seen from the call of poster p.
  lemma StepPhase(s: State, e: Event, p: nat, a: Action)
    requires p < |s.poster| && (e.Post? ==> e.p < |s.poster|) && !s.poster[p].Out? && !PhaseOf(s.poster[p], a).Elsewhere?
    ensures var r := Step(s, e);
      PhaseStep(PhaseOf(s.poster[p], a), if ByPoster(e, p) then Added(s, r) else NoEntry, PhaseOf(r.poster[p], a))
  {
    hide WorkerStep, PosterStep, PhaseOf, Added;
    if ByPoster(e, p) { OneStep(s, p, e.a, a); } else { Others(s, e, p); }
  }

  // ----- A whole call -----

  lemma {:induction false} BusyUntil(s: State, sched: Schedule, p: nat, j: nat, k: nat)
    requires Fits(sched, |s.poster|) && Finished(s, sched, p, j, k)
    ensures j < k < |sched| && Run(s, sched[..j]).poster[p].Out? && Run(s, sched[..k + 1]).poster[p].Out?
    ensures forall i :: j < i <= k ==> !Run(s, sched[..i]).poster[p].Out?
  {
    hide Run;
    assert forall i :: 0 <= i <= |sched| ==> OutAt(s, sched, p)[i] == Run(s, sched[..i]).poster[p].Out?;
  }

  // What the call has added by its return.
  lemma {:induction false} CallAdds(s: State, sched: Schedule, p: nat, j: nat, k: nat)
    requires Fits(sched, |s.poster|) && Finished(s, sched, p, j, k)
    ensures sched[j].a.PostTask? || sched[j].a.PostExit?
    ensures !PhaseOf(Run(s, sched[..k]).poster[p], sched[j].a).Elsewhere?
    ensures match PhaseOf(Run(s, sched[..k + 1]).poster[p], sched[j].a)
            case Elsewhere => false
            case Before => Never(Made(s, sched, p), j + 1, k + 1)
            case After(e) => Once(Made(s, sched, p), j + 1, k + 1, e)
  {
    hide Run, WorkerStep, PosterStep, Once, Never, Added, PhaseOf, PhaseStep, Spans;
    var a := sched[j].a;
    BusyUntil(s, sched, p, j, k);
    var phase := seq(|sched| + 1, i requires 0 <= i <= |sched| => PhaseOf(Run(s, sched[..i]).poster[p], a));
    forall i {:trigger Made(s, sched, p)[i]} | j + 1 <= i < k + 1 && !phase[i].Elsewhere?
      ensures PhaseStep(phase[i], Made(s, sched, p)[i], phase[i + 1])
    {
      RunOneMore(s, sched, i);
      StepPhase(Run(s, sched[..i]), sched[i], p, a);
    }
    RunOneMore(s, sched, j);
    CallBegins(Run(s, sched[..j]), p, a);
    CallTells(Made(s, sched, p), phase, j + 1, k);
    CallTells(Made(s, sched, p), phase, j + 1, k + 1);
  }

  lemma {:induction false} CallAnswers(s: State, sched: Schedule, p: nat, j: nat, k: nat)
    requires Fits(sched, |s.poster|) && Finished(s, sched, p, j, k)
    ensures Answered(s, sched, p, j, k)
  {
    hide Run, WorkerStep, PosterStep, Made, Once, Never, Added;
    CallAdds(s, sched, p, j, k);
    BusyUntil(s, sched, p, j, k);
    RunOneMore(s, sched, k);
    OneStep(Run(s, sched[..k]), p, sched[k].a, sched[j].a);
  }

  // ----- Two calls -----

  // Step m is the one at which this call makes its change.
  ghost predicate Changes(s: State, sched: Schedule, p: nat, j: nat, k: nat, m: nat)
    requires Fits(sched, |s.poster|)
  {
    Finished(s, sched, p, j, k) && j < m <= k && Made(s, sched, p)[m].Entry?
  }

  lemma {:induction false} ChangesDiffer(s: State, sched: Schedule, p: nat, j: nat, k: nat, m: nat, q: nat, jj: nat, kk: nat, n: nat)
    requires Fits(sched, |s.poster|)
    requires Changes(s, sched, p, j, k, m) && Changes(s, sched, q, jj, kk, n) && (p, k) != (q, kk)
    ensures m != n
  {
    hide Run, Added;
    if p == q && k < kk {
      SpansDisjoint(OutAt(s, sched, p), j, k, jj, kk);
    } else if p == q && kk < k {
      SpansDisjoint(OutAt(s, sched, p), jj, kk, j, k);
    }
  }

  /** Every run of any number of posters, from any state: a PostTask that answers true has put its
      own task into the mailbox, once, between its call and its return, and PostExit one command;
      one that answers false has put in nothing, and the queue that it was for was full.
      Different calls put in different ones. */
  lemma {:induction false} AnswersAreTrue(s: State, sched: Schedule)
    requires Fits(sched, |s.poster|)
    ensures forall p: nat, j: nat, k: nat :: Finished(s, sched, p, j, k) ==> Answered(s, sched, p, j, k)
    ensures forall p: nat, j: nat, k: nat, m: nat, q: nat, jj: nat, kk: nat, n: nat ::
              Changes(s, sched, p, j, k, m) && Changes(s, sched, q, jj, kk, n) && (p, k) != (q, kk) ==> m != n
  {
    hide Run, Finished, Answered, Changes;
    forall p: nat, j: nat, k: nat | Finished(s, sched, p, j, k)
      ensures Answered(s, sched, p, j, k)
    {
      CallAnswers(s, sched, p, j, k);
    }
    forall p: nat, j: nat, k: nat, m: nat, q: nat, jj: nat, kk: nat, n: nat
      | Changes(s, sched, p, j, k, m) && Changes(s, sched, q, jj, kk, n) && (p, k) != (q, kk)
      ensures m != n
    {
      ChangesDiffer(s, sched, p, j, k, m, q, jj, kk, n);
    }
  }
}

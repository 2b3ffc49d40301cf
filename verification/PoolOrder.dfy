/** A worker runs the tasks of its mailbox in the order in which they were put there. */
module PoolOrder {
  import opened NodeList
  import opened WorkerMask
  import opened PoolDispatch
  import opened PoolLiveness
  import opened PoolTasks
  import opened PoolAffinity

  // The tasks that have been started, followed by those that wait for worker w.
  function Line(s: State, w: nat): seq<nat>
    requires Bounded(s) && w < |s.free|
  {
    s.ran + s.box[w]
  }

  ghost predicate InOrder(line: seq<nat>, x: nat, y: nat) {
    exists i, j :: 0 <= i < j < |line| && line[i] == x && line[j] == y
  }

  // Task y is put into w's mailbox, behind everything that is there.
  ghost predicate Delivered(s: State, r: State, y: nat, w: nat)
    requires Bounded(s) && Bounded(r)
  {
    && y < |s.stage| && |r.stage| == |s.stage| && w < |s.free|
    && s.stage[y] != InBox(w) && r.stage[y] == InBox(w)
  }

  // A step keeps the line of w, starts a task of another worker, or adds a task at the end.
  ghost predicate Advances(old_line: seq<nat>, line: seq<nat>) {
    || line == old_line
    || (exists cut: nat, z: nat :: cut <= |old_line| && line == old_line[..cut] + [z] + old_line[cut..])
  }

  lemma InsertKeeps(p: seq<nat>, cut: nat, z: nat, x: nat, y: nat)
    requires cut <= |p|
    ensures x in p ==> x in p[..cut] + [z] + p[cut..]
    ensures InOrder(p, x, y) ==> InOrder(p[..cut] + [z] + p[cut..], x, y)
  {
    var q := p[..cut] + [z] + p[cut..];
    assert forall i :: 0 <= i < |p| ==> q[if i < cut then i else i + 1] == p[i];
    if InOrder(p, x, y) {
      var i, j :| 0 <= i < j < |p| && p[i] == x && p[j] == y;
      var a, b := if i < cut then i else i + 1, if j < cut then j else j + 1;
      assert 0 <= a < b < |q| && q[a] == x && q[b] == y;
    }
  }

  lemma AdvancesKeeps(p: seq<nat>, q: seq<nat>, x: nat, y: nat)
    requires Advances(p, q)
    ensures x in p ==> x in q
    ensures InOrder(p, x, y) ==> InOrder(q, x, y)
  {
    hide InOrder;
    if p != q {
      var cut: nat, z: nat :| cut <= |p| && q == p[..cut] + [z] + p[cut..];
      InsertKeeps(p, cut, z, x, y);
    }
  }

  lemma Appended(p: seq<nat>, z: nat)
    ensures Advances(p, p + [z])
  {
    assert p + [z] == p[..|p|] + [z] + p[|p|..];
  }

  lemma Inserted(a: seq<nat>, z: nat, b: seq<nat>)
    ensures Advances(a + b, (a + [z]) + b)
  {
    assert (a + b)[..|a|] == a && (a + b)[|a|..] == b;
    assert (a + [z]) + b == (a + b)[..|a|] + [z] + (a + b)[|a|..];
  }

  lemma TakenLine(s: State, u: nat, w: nat)
    requires Bounded(s) && u < |s.free| && w < |s.free| && s.wpc[u].Take? && s.box[u] != []
    ensures Advances(Line(s, w), Line(WorkerStep(s, u, false), w))
  {
    var r := WorkerStep(s, u, false);
    var z := s.box[u][0];
    if u == w {
      assert s.ran + s.box[w] == (s.ran + [z]) + s.box[w][1..];
    } else {
      Inserted(s.ran, z, s.box[w]);
    }
  }

  lemma WorkerLine(s: State, u: nat, timeout: bool, w: nat)
    requires Bounded(s) && u < |s.free| && w < |s.free|
    ensures Advances(Line(s, w), Line(WorkerStep(s, u, timeout), w))
  {
    if s.wpc[u].Take? && s.box[u] != [] {
      TakenLine(s, u, w);
    } else {
      var r := WorkerStep(s, u, timeout);
      assert r.ran == s.ran && r.box == s.box;
    }
  }

  lemma DispatcherLine(s: State, pick: nat, w: nat)
    requires Bounded(s) && w < |s.free|
    ensures Advances(Line(s, w), Line(DispatcherStep(s, pick), w))
  {
    hide FirstFree, RemoveAt;
    var r := DispatcherStep(s, pick);
    if s.disp.Push? && |s.box[s.disp.w]| < s.boxCap && s.disp.w == w {
      Appended(Line(s, w), s.disp.task);
      assert s.ran + (s.box[w] + [s.disp.task]) == (s.ran + s.box[w]) + [s.disp.task];
    } else {
      assert r.ran == s.ran && r.box[w] == s.box[w];
    }
  }

  lemma LineStep(s: State, e: Event, w: nat)
    requires Bounded(s) && (e.Work? ==> e.w < |s.free|) && w < |s.free|
    ensures Advances(Line(s, w), Line(Step(s, e), w))
  {
    hide DispatcherStep, WorkerStep, Advances;
    match e
    case Post(_) => assert Line(Step(s, e), w) == Line(s, w) && Advances(Line(s, w), Line(s, w)) by { SameLine(Line(s, w)); }
    case Dispatch(pick) => DispatcherLine(s, pick, w);
    case Work(u, timeout) => WorkerLine(s, u, timeout, w);
  }

  lemma SameLine(p: seq<nat>)
    ensures Advances(p, p)
  {
  }

  lemma OnlyPushDelivers(s: State, e: Event, y: nat, w: nat)
    requires Bounded(s) && (e.Work? ==> e.w < |s.free|) && Delivered(s, Step(s, e), y, w)
    ensures e.Dispatch? && s.disp.Push? && s.disp.task == y && s.disp.w == w && |s.box[w]| < s.boxCap
  {
    hide FirstFree, RemoveAt;
  }

  // A delivered task is the last of its line.
  lemma DeliveredLast(s: State, e: Event, y: nat, w: nat)
    requires Bounded(s) && (e.Work? ==> e.w < |s.free|) && Delivered(s, Step(s, e), y, w)
    ensures Line(Step(s, e), w) == Line(s, w) + [y]
  {
    hide FirstFree, RemoveAt, Delivered;
    OnlyPushDelivers(s, e, y, w);
    assert s.ran + (s.box[w] + [y]) == (s.ran + s.box[w]) + [y];
  }

  lemma DeliveredIn(s: State, e: Event, x: nat, w: nat)
    requires Bounded(s) && (e.Work? ==> e.w < |s.free|) && Delivered(s, Step(s, e), x, w)
    ensures x in Line(Step(s, e), w)
  {
    DeliveredLast(s, e, x, w);
  }

  // ----- Whole runs -----

  lemma {:induction false} LineRun(s: State, sched: Schedule, lo: nat, hi: nat, w: nat, x: nat, y: nat)
    requires Bounded(s) && Fits(sched, |s.free|) && lo <= hi <= |sched| && w < |s.free|
    ensures x in Line(Run(s, sched[..lo]), w) ==> x in Line(Run(s, sched[..hi]), w)
    ensures InOrder(Line(Run(s, sched[..lo]), w), x, y) ==> InOrder(Line(Run(s, sched[..hi]), w), x, y)
  {
    hide Bounded, Run, Step, Line, InOrder;
    if lo < hi {
      LineRun(s, sched, lo, hi - 1, w, x, y);
      RunOneMore(s, sched, hi - 1);
      var m := Run(s, sched[..hi - 1]);
      LineStep(m, sched[hi - 1], w);
      AdvancesKeeps(Line(m, w), Line(Step(m, sched[hi - 1]), w), x, y);
    }
  }

  // Step i of the run puts task y into w's mailbox.
  ghost predicate DeliveredAt(s: State, sched: Schedule, y: nat, w: nat, i: nat)
    requires Bounded(s) && Fits(sched, |s.free|) && i < |sched|
  {
    Delivered(Run(s, sched[..i]), Run(s, sched[..i + 1]), y, w)
  }

  lemma {:induction false} DeliveredInOrder(s: State, sched: Schedule, w: nat, x: nat, i: nat, y: nat, j: nat)
    requires Bounded(s) && Fits(sched, |s.free|) && FreeIsSet(s) && Tasks(s) && i < j < |sched| && w < |s.free|
    requires DeliveredAt(s, sched, x, w, i) && DeliveredAt(s, sched, y, w, j)
    ensures InOrder(Line(Run(s, sched), w), x, y)
  {
    hide Bounded, Run, Step, Tasks, FreeIsSet, Delivered;
    SetsAt(s, sched, i);
    SetsAt(s, sched, j);
    RunOneMore(s, sched, i);
    RunOneMore(s, sched, j);
    DeliveredIn(Run(s, sched[..i]), sched[i], x, w);
    LineRun(s, sched, i + 1, j, w, x, y);
    DeliveredLast(Run(s, sched[..j]), sched[j], y, w);
    var line := Line(Run(s, sched[..j]), w);
    assert InOrder(line + [y], x, y) by {
      var a :| 0 <= a < |line| && line[a] == x;
      assert (line + [y])[a] == x && (line + [y])[|line|] == y;
    }
    LineRun(s, sched, j + 1, |sched|, w, x, y);
    assert sched[..|sched|] == sched;
  }

  // x was started before y, if y was started.
  ghost predicate StartsFirst(ran: seq<nat>, x: nat, y: nat) {
    y in ran ==> InOrder(ran, x, y)
  }

  lemma StartedLeft(s: State, w: nat, y: nat)
    requires Bounded(s) && Tasks(s) && w < |s.free| && y in s.ran
    ensures y !in s.box[w]
  {
    assert forall i :: 0 <= i < |s.box[w]| ==> s.stage[s.box[w][i]] == InBox(w);
    assert y < |s.stage|;
  }

  lemma LineToRan(s: State, w: nat, x: nat, y: nat)
    requires Bounded(s) && Tasks(s) && w < |s.free| && InOrder(Line(s, w), x, y)
    ensures StartsFirst(s.ran, x, y)
  {
    hide Tasks;
    if y in s.ran {
      StartedLeft(s, w, y);
      var i, j :| 0 <= i < j < |Line(s, w)| && Line(s, w)[i] == x && Line(s, w)[j] == y;
      assert j < |s.ran|;
      assert s.ran[i] == x && s.ran[j] == y;
    }
  }

  /** With any affinities, every run: of two tasks that were put into the same mailbox, the one that
      was put there first is started first. */
  lemma {:induction false} MailboxesAreInOrder(workers: nat, queueCap: nat, boxCap: nat, sched: Schedule, w: nat, x: nat, i: nat, y: nat, j: nat)
    requires 1 <= workers && 1 <= boxCap && Fits(sched, workers) && w < workers && i < j < |sched|
    requires DeliveredAt(Init(workers, queueCap, boxCap), sched, x, w, i)
    requires DeliveredAt(Init(workers, queueCap, boxCap), sched, y, w, j)
    ensures StartsFirst(Run(Init(workers, queueCap, boxCap), sched).ran, x, y)
  {
    hide Bounded, Run, Step, Tasks, FreeIsSet, DeliveredAt, InOrder;
    var s := Init(workers, queueCap, boxCap);
    assert FreeIsSet(s) && Tasks(s) && |s.free| == workers by { InitSets(workers, queueCap, boxCap); }
    DeliveredInOrder(s, sched, w, x, i, y, j);
    RunTasks(s, sched);
    LineToRan(Run(s, sched), w, x, y);
  }
}

/** With a single pushing thread no run has a stale allocation or a stale link. */
module ListQueueOnePusher {
  import opened NodeList
  import opened ListQueue
  import opened ListQueueInv
  import opened ListQueueSound

  ghost predicate OnlyPusher(sched: Schedule, p: nat) {
    forall k :: 0 <= k < |sched| && sched[k].1.CallPush? ==> sched[k].0 == p
  }

  // The only pusher always finds the tail up to date and its free node still free.
  ghost predicate PusherKnows(s: State, c: Pc)
    requires Sizes(s)
  {
    && (!c.TailSwing? ==> s.hist.i == |s.hist.link| - 1)
    && s.hist.i + 2 >= |s.hist.link|
    && (c.TailSwing? && s.hist.i + 2 == |s.hist.link| ==> s.inp == c.tail)
    && (c.AllocNext? ==> NodePtr(c.h, |s.next|) && s.hist.place[c.h.node].InFree?)
    && (c.AllocCas? ==> NodePtr(c.h, |s.next|) && s.hist.place[c.h.node].InFree? && SameNode(s.next[c.h.node], c.x))
    && !c.TailHelp?
    && (c.TailNext? ==> c.tail == s.inp)
    && (c.TailLink? ==> c.tail == s.inp)
  }

  ghost predicate OnePusher(s: State, p: nat) {
    && Inv(s) && p < |s.pc|
    && (forall u :: 0 <= u < |s.pc| && u != p ==> !IsAlloc(s.pc[u]) && !IsPush(s.pc[u]))
    && PusherKnows(s, s.pc[p])
  }

  lemma OnePusherClean(s: State, p: nat, t: nat)
    requires OnePusher(s, p) && t < |s.pc|
    ensures !BadStep(s, t)
  {
    QueueByPlace(s);
    assert s.hist.place[s.hist.link[s.hist.i].node] == InQueue(s.hist.i);
  }

  lemma OnePusherAllocs(s: State, p: nat)
    requires OnePusher(s, p) && IsAlloc(s.pc[p])
    ensures var r := AllocStep(s, p); Sizes(r) ==> PusherKnows(r, r.pc[p])
  {
    if s.pc[p].AllocRead? && s.head.At? {
      assert s.hist.place[s.head.node] == InFree(|s.hist.free| - 1);
    }
  }

  lemma OnePusherPushes(s: State, p: nat)
    requires OnePusher(s, p) && IsPush(s.pc[p])
    ensures var r := PushStep(s, p); Sizes(r) ==> PusherKnows(r, r.pc[p])
  {
    if s.pc[p].TailNext? {
      ReadChain(s, s.hist.i);
    }
  }

  // A thread that does not push leaves the links and the free nodes alone.
  ghost predicate LeavesFree(s: State, r: State) {
    && |r.next| == |s.next| && |r.hist.place| == |s.hist.place|
    && r.hist.link == s.hist.link
    && (r.hist.i == s.hist.i ==> r.inp == s.inp)
    && (forall n {:trigger r.next[n]} {:trigger r.hist.place[n]} ::
          0 <= n < |s.next| && n < |s.hist.place| && s.hist.place[n].InFree? ==> r.hist.place[n].InFree? && r.next[n] == s.next[n])
  }

  lemma PopLeavesFree(s: State, t: nat)
    requires Sizes(s) && Chain(s) && t < |s.pc| && IsPop(s.pc[t])
    ensures var r := PopStep(s, t); LeavesFree(s, r) && s.hist.i <= r.hist.i && !IsAlloc(r.pc[t]) && !IsPush(r.pc[t])
  {
    assert s.hist.place[s.hist.link[s.hist.o].node] == InQueue(s.hist.o);
  }

  lemma ReleaseLeavesFree(s: State, t: nat)
    requires Sizes(s) && Holders(s) && t < |s.pc| && IsRelease(s.pc[t])
    ensures var r := ReleaseStep(s, t); LeavesFree(s, r) && r.hist.i == s.hist.i && !IsAlloc(r.pc[t]) && !IsPush(r.pc[t])
  {
  }

  lemma OtherLeavesFree(s: State, t: nat, a: Action)
    requires Inv(s) && t < |s.pc| && !IsAlloc(s.pc[t]) && !IsPush(s.pc[t]) && !a.CallPush?
    ensures var r := Step(s, t, a); LeavesFree(s, r) && s.hist.i <= r.hist.i && !IsAlloc(r.pc[t]) && !IsPush(r.pc[t])
  {
    if IsPop(s.pc[t]) {
      PopLeavesFree(s, t);
    } else if IsRelease(s.pc[t]) {
      ReleaseLeavesFree(s, t);
    }
  }

  lemma PusherStillKnows(s: State, r: State, c: Pc)
    requires Sizes(s) && Sizes(r) && LeavesFree(s, r) && s.hist.i <= r.hist.i && PusherKnows(s, c)
    ensures PusherKnows(r, c)
  {
  }

  // A thread that is outside Push, or has just called it, knows what holds of the tail.
  lemma PusherOutside(s: State, c: Pc)
    requires Sizes(s) && s.hist.i == |s.hist.link| - 1 && !IsPush(c) && (IsAlloc(c) ==> c.AllocRead?)
    ensures PusherKnows(s, c)
  {
  }

  lemma PusherCalls(s: State, p: nat, a: Action)
    requires OnePusher(s, p) && !IsAlloc(s.pc[p]) && !IsPush(s.pc[p]) && a.CallPush? && Sizes(Step(s, p, a))
    ensures var r := Step(s, p, a); PusherKnows(r, r.pc[p])
  {
    hide Tags, Chain, FreeList, Holders, Logs, Knows;
    var r := Step(s, p, a);
    if IsPop(s.pc[p]) {
      PusherPops(s, p);
    } else if IsRelease(s.pc[p]) {
      PusherReleases(s, p);
    }
    PusherOutside(r, r.pc[p]);
  }

  lemma PusherPops(s: State, p: nat)
    requires Sizes(s) && p < |s.pc| && IsPop(s.pc[p]) && s.hist.i == |s.hist.link| - 1 && Sizes(PopStep(s, p))
    ensures var r := PopStep(s, p); r.hist.i == |r.hist.link| - 1 && !IsPush(r.pc[p]) && !IsAlloc(r.pc[p])
  {
  }

  lemma PusherReleases(s: State, p: nat)
    requires Sizes(s) && p < |s.pc| && IsRelease(s.pc[p]) && s.hist.i == |s.hist.link| - 1
    ensures var r := ReleaseStep(s, p); r.hist.i == |r.hist.link| - 1 && !IsPush(r.pc[p]) && !IsAlloc(r.pc[p])
  {
  }

  lemma OnePusherMoves(s: State, p: nat, a: Action)
    requires OnePusher(s, p) && Sizes(Step(s, p, a))
    ensures var r := Step(s, p, a); PusherKnows(r, r.pc[p])
  {
    hide Tags, Chain, FreeList, Holders, Logs, Knows, AllocStep, PushStep, PopStep, ReleaseStep, PcOk;
    if IsAlloc(s.pc[p]) {
      OnePusherAllocs(s, p);
    } else if IsPush(s.pc[p]) {
      OnePusherPushes(s, p);
    } else if a.CallPush? {
      PusherCalls(s, p, a);
    } else {
      OtherLeavesFree(s, p, a);
      var r := Step(s, p, a);
      PusherStillKnows(s, r, s.pc[p]);
      PusherOutside(r, r.pc[p]);
    }
  }

  lemma OnePusherStep(s: State, p: nat, t: nat, a: Action)
    requires OnePusher(s, p) && t < |s.pc| && (a.CallPush? ==> t == p)
    ensures OnePusher(Step(s, t, a), p)
  {
    hide Step, PusherKnows, IsAlloc, IsPush, Tags, Chain, FreeList, Holders, Logs, Knows;
    var r := Step(s, t, a);
    OnePusherClean(s, p, t);
    StepInv(s, t, a);
    OnlyMoves(s, t, a);
    if t == p {
      OnePusherMoves(s, p, a);
    } else {
      OtherLeavesFree(s, t, a);
      PusherStillKnows(s, r, s.pc[p]);
    }
  }
}

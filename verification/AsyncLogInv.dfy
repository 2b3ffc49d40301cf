/** What every step of the asynchronous log keeps: who has each buffer, and what records point to. */
module AsyncLogInv {
  import opened LogFile
  import opened AsyncLog

  // The records of the batch that are not handled yet.
  function Remaining(s: State): seq<Rec>
    requires Bounded(s)
  {
    if s.logger.Drain? then s.pb2[s.logger.i..] else []
  }

  ghost predicate Records(s: State)
    requires Bounded(s)
  {
    && |s.hist.recs| == |s.hist.texts| && s.hist.done <= |s.hist.recs|
    && Remaining(s) + s.pb1 == s.hist.recs[s.hist.done..]
    && s.pending == |s.pb1|
    && (s.logger.Top? || s.logger.Wait? || s.logger.Exited? ==> s.pb2 == [])
    && (s.logger.Exited? ==> !s.running && s.pb1 == [])
  }

  ghost predicate PoolOk(s: State)
    requires Bounded(s)
  {
    && (forall i :: 0 <= i < |s.pool| ==> s.hist.place[s.pool[i]] == InPool(i))
    && (forall b :: 0 <= b < |s.mem| && s.hist.place[b].InPool? ==>
          s.hist.place[b].at < |s.pool| && s.pool[s.hist.place[b].at] == b && s.cur[b] == 0)
  }

  // Between giving a full buffer back and getting the next one, the item is stale.
  predicate Owns(c: Pc) { !c.Get? && !c.Gone? }

  ghost predicate Slots(s: State)
    requires Bounded(s)
  {
    && (forall t :: 0 <= t < |s.pc| && Owns(s.pc[t]) && s.slot[t].Buff? ==> s.hist.place[s.slot[t].b] == InSlot(t))
    && (forall b :: 0 <= b < |s.mem| && s.hist.place[b].InSlot? ==>
          var t := s.hist.place[b].thread; t < |s.pc| && Owns(s.pc[t]) && s.slot[t] == Buff(b))
    && (forall t :: 0 <= t < |s.pc| && s.pc[t].First? ==> s.slot[t].NoItem?)
  }

  ghost predicate Returns(s: State)
    requires Bounded(s) && Records(s)
  {
    && (forall k :: s.hist.done <= k < |s.hist.recs| && s.hist.recs[k].len == 0 ==>
          s.hist.recs[k].buf < |s.mem| && s.hist.place[s.hist.recs[k].buf] == Pending(k))
    && (forall b :: 0 <= b < |s.mem| && s.hist.place[b].Pending? ==>
          var k := s.hist.place[b].record;
          s.hist.done <= k < |s.hist.recs| && s.hist.recs[k].len == 0 && s.hist.recs[k].buf == b)
  }

  // Record k still points to the bytes that were queued: its buffer is in its writer's slot, and
  // the bytes are behind the write position, or the buffer is given back by a later record.
  ghost predicate Points(s: State, r: Rec, text: string, k: nat)
    requires Bounded(s)
  {
    && RecOk(r, |s.mem|) && |text| == r.len
    && (r.len > 0 ==>
          && Bytes(s.mem, r) == text
          && match s.hist.place[r.buf]
             case InSlot(_) => r.off + r.len <= s.cur[r.buf]
             case Pending(j) => k < j
             case _ => false)
  }

  ghost predicate Pointers(s: State)
    requires Bounded(s) && Records(s)
  {
    forall k :: s.hist.done <= k < |s.hist.recs| ==> Points(s, s.hist.recs[k], s.hist.texts[k], k)
  }

  ghost predicate WriterOk(s: State, c: Pc, slot: Slot)
    requires Bounded(s) && PcOk(c, slot) && (slot.Buff? ==> slot.b < |s.mem|)
  {
    match c
    case Copy(msg) => s.cur[slot.b] + |msg| <= BUFF
    case Queue(msg, off) => off + |msg| <= s.cur[slot.b] && s.mem[slot.b][off..off + |msg|] == msg
    case Overrun => false
    case _ => true
  }

  ghost predicate Writers(s: State)
    requires Bounded(s)
  {
    forall t :: 0 <= t < |s.pc| ==> WriterOk(s, s.pc[t], s.slot[t])
  }

  ghost predicate BuffersOk(s: State) {
    Bounded(s) && Records(s) && PoolOk(s) && Slots(s) && Returns(s) && Pointers(s) && Writers(s)
  }

  lemma InitBuffers(fix: nat, disk: string, threads: nat)
    requires 1 <= fix
    ensures BuffersOk(Init(fix, disk, threads))
  {
    var s := Init(fix, disk, threads);
    assert forall t :: 0 <= t < threads ==> s.pc[t] == Idle && s.slot[t] == NoItem;
  }

  // ----- The pool -----

  // r has more buffers than s, all of them in the pool.
  ghost predicate Extends(s: State, r: State)
    requires Bounded(s) && Bounded(r)
  {
    && r == s.(pool := r.pool, mem := r.mem, cur := r.cur, hist := s.hist.(place := r.hist.place))
    && |s.mem| <= |r.mem|
    && s.pool == [] && |r.pool| == |r.mem| - |s.mem|
    && (forall i :: 0 <= i < |r.pool| ==> r.pool[i] == |s.mem| + i)
    && (forall b :: 0 <= b < |s.mem| ==> r.mem[b] == s.mem[b] && r.cur[b] == s.cur[b] && r.hist.place[b] == s.hist.place[b])
    && (forall b :: |s.mem| <= b < |r.mem| ==> r.cur[b] == 0 && r.hist.place[b] == InPool(b - |s.mem|))
  }

  lemma Grown(s: State)
    requires Bounded(s) && s.pool == []
    ensures Extends(s, Enlarged(s))
  {
  }

  lemma ExtendedPool(s: State, r: State)
    requires Bounded(s) && Bounded(r) && Extends(s, r) && PoolOk(s)
    ensures PoolOk(r)
  {
    hide PcOk, RecOk;
    assert forall b :: 0 <= b < |s.mem| ==> !s.hist.place[b].InPool?;
    forall i | 0 <= i < |r.pool|
      ensures r.hist.place[r.pool[i]] == InPool(i)
    {
      assert r.pool[i] == |s.mem| + i;
    }
    forall b | 0 <= b < |r.mem| && r.hist.place[b].InPool?
      ensures r.hist.place[b].at < |r.pool| && r.pool[r.hist.place[b].at] == b && r.cur[b] == 0
    {
    }
  }

  lemma ExtendedSlots(s: State, r: State)
    requires Bounded(s) && Bounded(r) && Extends(s, r) && Slots(s)
    ensures Slots(r)
  {
    hide PcOk, RecOk;
  }

  lemma ExtendedRecords(s: State, r: State)
    requires Bounded(s) && Bounded(r) && Extends(s, r) && Records(s) && Returns(s) && Pointers(s) && Writers(s)
    ensures Records(r) && Returns(r) && Pointers(r) && Writers(r)
  {
    assert Remaining(r) == Remaining(s);
    forall k | r.hist.done <= k < |r.hist.recs|
      ensures Points(r, r.hist.recs[k], r.hist.texts[k], k)
    {
      assert Points(s, s.hist.recs[k], s.hist.texts[k], k);
    }
  }

  lemma EnlargedOk(s: State)
    requires BuffersOk(s) && s.pool == []
    ensures BuffersOk(Enlarged(s))
  {
    hide Enlarged, Records, PoolOk, Slots, Returns, Pointers, Writers, Extends;
    Grown(s);
    ExtendedPool(s, Enlarged(s));
    ExtendedSlots(s, Enlarged(s));
    ExtendedRecords(s, Enlarged(s));
  }
}

/** The writers' steps keep the buffers in order. */
module AsyncLogWriters {
  import opened LogFile
  import opened AsyncLog
  import opened AsyncLogInv

  // ----- Steps that only move the program counter -----

  lemma MovesOk(s: State, t: nat, c: Pc)
    requires BuffersOk(s) && t < |s.pc| && PcOk(c, s.slot[t]) && WriterOk(s, c, s.slot[t])
    requires (Owns(c) <==> Owns(s.pc[t])) || !s.slot[t].Buff?
    requires c.First? ==> s.slot[t].NoItem?
    ensures BuffersOk(Goto(s, t, c))
  {
    var r := Goto(s, t, c);
    assert Remaining(r) == Remaining(s);
    hide Bytes;
    forall k | r.hist.done <= k < |r.hist.recs|
      ensures Points(r, r.hist.recs[k], r.hist.texts[k], k)
    {
      assert Points(s, s.hist.recs[k], s.hist.texts[k], k);
    }
  }

  // ----- GetBuff -----

  // The thread's item may be overwritten: it holds no buffer of its own.
  predicate Asks(c: Pc) { c.First? || c.Get? }

  lemma TakePool(s: State, t: nat, got: Pc, none: Pc)
    requires Bounded(s) && PoolOk(s) && Slots(s) && t < |s.pc| && Asks(s.pc[t]) && s.pool != []
    requires PcOk(got, Buff(0)) && PcOk(none, NullBuff) && Owns(got) && !got.First?
    ensures var r := GetBuff(s, t, got, none); PoolOk(r) && Slots(r)
  {
    hide PcOk;
  }

  lemma TakeRecords(s: State, t: nat, got: Pc, none: Pc)
    requires Bounded(s) && PoolOk(s) && Records(s) && Returns(s) && Pointers(s) && t < |s.pc| && s.pool != []
    requires PcOk(got, Buff(0)) && PcOk(none, NullBuff)
    ensures var r := GetBuff(s, t, got, none); Records(r) && Returns(r) && Pointers(r)
  {
    hide PcOk, Bytes;
    var r := GetBuff(s, t, got, none);
    assert Remaining(r) == Remaining(s);
    forall k | r.hist.done <= k < |r.hist.recs|
      ensures Points(r, r.hist.recs[k], r.hist.texts[k], k)
    {
      assert Points(s, s.hist.recs[k], s.hist.texts[k], k);
    }
  }

  lemma TakeWriters(s: State, t: nat, got: Pc, none: Pc)
    requires Bounded(s) && PoolOk(s) && Writers(s) && t < |s.pc| && s.pool != []
    requires PcOk(got, Buff(0)) && PcOk(none, NullBuff) && (got.Check? || got.Copy?)
    ensures Writers(GetBuff(s, t, got, none))
  {
    var r := GetBuff(s, t, got, none);
    var b := s.pool[|s.pool| - 1];
    assert s.hist.place[b] == InPool(|s.pool| - 1) && s.cur[b] == 0;
    assert r.mem == s.mem && r.cur == s.cur;
    forall u | 0 <= u < |r.pc|
      ensures WriterOk(r, r.pc[u], r.slot[u])
    {
      if u != t { assert r.pc[u] == s.pc[u] && r.slot[u] == s.slot[u]; }
    }
  }

  lemma TakeOk(s: State, t: nat, got: Pc, none: Pc)
    requires BuffersOk(s) && t < |s.pc| && Asks(s.pc[t]) && s.pool != []
    requires PcOk(got, Buff(0)) && PcOk(none, NullBuff) && (got.Check? || got.Copy?)
    ensures BuffersOk(GetBuff(s, t, got, none))
  {
    hide GetBuff, PoolOk, Slots, Records, Returns, Pointers, Writers;
    TakePool(s, t, got, none);
    TakeRecords(s, t, got, none);
    TakeWriters(s, t, got, none);
  }

  lemma RefusedOk(s: State, t: nat, got: Pc, none: Pc)
    requires BuffersOk(s) && t < |s.pc| && Asks(s.pc[t]) && s.pool == [] && s.unrecycled > 1024 * s.fix
    requires PcOk(got, Buff(0)) && PcOk(none, NullBuff) && (none.Check? || none.Idle?)
    ensures BuffersOk(GetBuff(s, t, got, none))
  {
    hide Bytes, Blank;
    var r := GetBuff(s, t, got, none);
    assert Remaining(r) == Remaining(s);
    assert r == s.(slot := r.slot, pc := r.pc);
    forall k | r.hist.done <= k < |r.hist.recs|
      ensures Points(r, r.hist.recs[k], r.hist.texts[k], k)
    {
      assert Points(s, s.hist.recs[k], s.hist.texts[k], k);
    }
    forall u | 0 <= u < |r.pc|
      ensures WriterOk(r, r.pc[u], r.slot[u])
    {
      if u != t { assert r.pc[u] == s.pc[u] && r.slot[u] == s.slot[u]; }
    }
  }

  lemma GetBuffOk(s: State, t: nat, got: Pc, none: Pc)
    requires BuffersOk(s) && t < |s.pc| && Asks(s.pc[t])
    requires PcOk(got, Buff(0)) && PcOk(none, NullBuff) && (got.Check? || got.Copy?) && (none.Check? || none.Idle?)
    ensures BuffersOk(GetBuff(s, t, got, none))
  {
    hide PoolOk, Slots, Records, Returns, Pointers, Writers, Bounded;
    assert Bounded(s) by { BuffersBounded(s); }
    if s.pool != [] {
      TakeOk(s, t, got, none);
    } else if s.unrecycled > 1024 * s.fix {
      RefusedOk(s, t, got, none);
    } else {
      EnlargedOk(s);
      TakeOk(Enlarged(s), t, got, none);
    }
  }

  lemma BuffersBounded(s: State)
    requires BuffersOk(s)
    ensures Bounded(s)
  {
  }

  // ----- A record that points to bytes -----

  lemma QueuedRecords(s: State, t: nat)
    requires Bounded(s) && Records(s) && Slots(s) && Returns(s) && t < |s.pc| && s.pc[t].Queue? && s.running
    ensures var r := WriterStep(s, t, Go); Records(r) && Returns(r)
  {
    var r := WriterStep(s, t, Go);
    assert Remaining(r) == Remaining(s);
  }

  lemma QueuedPointers(s: State, t: nat)
    requires Bounded(s) && Records(s) && Slots(s) && Pointers(s) && Writers(s) && t < |s.pc| && s.pc[t].Queue? && s.running
    requires Records(WriterStep(s, t, Go))
    ensures Pointers(WriterStep(s, t, Go))
  {
    var r := WriterStep(s, t, Go);
    assert WriterOk(s, s.pc[t], s.slot[t]);
    assert Owns(s.pc[t]);
    forall k | r.hist.done <= k < |r.hist.recs|
      ensures Points(r, r.hist.recs[k], r.hist.texts[k], k)
    {
      if k < |s.hist.recs| { assert Points(s, s.hist.recs[k], s.hist.texts[k], k); }
    }
  }

  lemma QueuedSlots(s: State, t: nat)
    requires Bounded(s) && PoolOk(s) && Slots(s) && Writers(s) && t < |s.pc| && s.pc[t].Queue? && s.running
    ensures var r := WriterStep(s, t, Go); PoolOk(r) && Slots(r) && Writers(r)
  {
    hide MsgOk;
  }

  lemma QueuedOk(s: State, t: nat)
    requires BuffersOk(s) && t < |s.pc| && s.pc[t].Queue? && s.running
    ensures BuffersOk(WriterStep(s, t, Go))
  {
    hide WriterStep, PoolOk, Slots, Records, Returns, Pointers, Writers;
    QueuedRecords(s, t);
    QueuedPointers(s, t);
    QueuedSlots(s, t);
  }

  // ----- A record that gives the buffer back -----

  lemma GivenPlaces(s: State, t: nat, c: Pc)
    requires Bounded(s) && Records(s) && PoolOk(s) && Slots(s) && Returns(s) && t < |s.pc|
    requires Owns(s.pc[t]) && s.slot[t].Buff? && (c.Get? || c.Gone?) && PcOk(c, s.slot[t]) && s.running
    ensures var r := GivenBack(s, t, c); Records(r) && PoolOk(r) && Slots(r) && Returns(r)
  {
    hide MsgOk;
    var r := GivenBack(s, t, c);
    assert Remaining(r) == Remaining(s);
  }

  lemma GivenPointers(s: State, t: nat, c: Pc)
    requires Bounded(s) && Records(s) && Slots(s) && Pointers(s) && t < |s.pc|
    requires Owns(s.pc[t]) && s.slot[t].Buff? && (c.Get? || c.Gone?) && PcOk(c, s.slot[t]) && s.running
    requires Records(GivenBack(s, t, c))
    ensures Pointers(GivenBack(s, t, c))
  {
    hide Bytes;
    var r := GivenBack(s, t, c);
    forall k | r.hist.done <= k < |r.hist.recs|
      ensures Points(r, r.hist.recs[k], r.hist.texts[k], k)
    {
      if k < |s.hist.recs| { assert Points(s, s.hist.recs[k], s.hist.texts[k], k); }
    }
  }

  lemma GivenWriters(s: State, t: nat, c: Pc)
    requires Bounded(s) && Writers(s) && t < |s.pc| && s.slot[t].Buff? && (c.Get? || c.Gone?) && PcOk(c, s.slot[t]) && s.running
    ensures Writers(GivenBack(s, t, c))
  {
    hide MsgOk;
  }

  lemma GivenOk(s: State, t: nat, c: Pc)
    requires BuffersOk(s) && t < |s.pc|
    requires Owns(s.pc[t]) && s.slot[t].Buff? && (c.Get? || c.Gone?) && PcOk(c, s.slot[t]) && s.running
    ensures BuffersOk(GivenBack(s, t, c))
  {
    hide GivenBack, PoolOk, Slots, Records, Returns, Pointers, Writers;
    GivenPlaces(s, t, c);
    GivenPointers(s, t, c);
    GivenWriters(s, t, c);
  }

  // ----- Copying a message into the thread's own buffer -----

  lemma SpliceKeeps(m: string, off: nat, msg: string, i: nat, j: nat)
    requires i <= j <= off && off + |msg| <= |m|
    ensures Splice(m, off, msg)[i..j] == m[i..j] && Splice(m, off, msg)[off..off + |msg|] == msg
  {
  }

  lemma CopyPointers(s: State, t: nat)
    requires Bounded(s) && Records(s) && Slots(s) && Pointers(s) && t < |s.pc| && s.pc[t].Copy?
    requires s.cur[s.slot[t].b] + |s.pc[t].msg| <= BUFF
    ensures var r := WriterStep(s, t, Go); Records(r) && Pointers(r)
  {
    hide Splice;
    var r := WriterStep(s, t, Go);
    var b, msg := s.slot[t].b, s.pc[t].msg;
    assert Remaining(r) == Remaining(s);
    assert Owns(s.pc[t]);
    assert s.hist.place[b] == InSlot(t);
    forall k | r.hist.done <= k < |r.hist.recs|
      ensures Points(r, r.hist.recs[k], r.hist.texts[k], k)
    {
      var rec := s.hist.recs[k];
      assert Points(s, rec, s.hist.texts[k], k);
      if rec.buf == b && rec.len > 0 { SpliceKeeps(s.mem[b], s.cur[b], msg, rec.off, rec.off + rec.len); }
    }
  }

  lemma CopyWriters(s: State, t: nat)
    requires Bounded(s) && Slots(s) && Writers(s) && t < |s.pc| && s.pc[t].Copy?
    requires s.cur[s.slot[t].b] + |s.pc[t].msg| <= BUFF
    ensures Writers(WriterStep(s, t, Go))
  {
    hide Splice;
    var r := WriterStep(s, t, Go);
    var b, msg := s.slot[t].b, s.pc[t].msg;
    SpliceKeeps(s.mem[b], s.cur[b], msg, 0, 0);
    assert Owns(s.pc[t]);
    forall u | 0 <= u < |r.pc|
      ensures WriterOk(r, r.pc[u], r.slot[u])
    {
      if u != t {
        assert r.pc[u] == s.pc[u] && r.slot[u] == s.slot[u];
        assert WriterOk(s, s.pc[u], s.slot[u]);
      }
    }
  }

  lemma CopyPlaces(s: State, t: nat)
    requires Bounded(s) && Records(s) && PoolOk(s) && Slots(s) && Returns(s) && t < |s.pc| && s.pc[t].Copy?
    requires s.cur[s.slot[t].b] + |s.pc[t].msg| <= BUFF && Records(WriterStep(s, t, Go))
    ensures var r := WriterStep(s, t, Go); PoolOk(r) && Slots(r) && Returns(r)
  {
    hide Splice, MsgOk;
    assert Owns(s.pc[t]);
  }

  lemma CopyOk(s: State, t: nat)
    requires BuffersOk(s) && t < |s.pc| && s.pc[t].Copy?
    ensures BuffersOk(WriterStep(s, t, Go))
  {
    assert WriterOk(s, s.pc[t], s.slot[t]);
    hide WriterStep, PoolOk, Slots, Records, Returns, Pointers, Writers;
    CopyPointers(s, t);
    CopyWriters(s, t);
    CopyPlaces(s, t);
  }

  // ----- All of them -----

  lemma CallOk(s: State, t: nat, a: Action)
    requires BuffersOk(s) && t < |s.pc| && s.pc[t].Idle?
    ensures BuffersOk(Called(s, t, a))
  {
    hide PoolOk, Slots, Records, Returns, Pointers, Writers;
    match a
    case Append(msg) =>
      if MsgOk(msg) { MovesOk(s, t, if s.slot[t].NoItem? then First(msg) else Check(msg)); }
    case ExitThread =>
      match s.slot[t] {
        case NoItem => MovesOk(s, t, Gone);
        case NullBuff => MovesOk(s, t, AssertFailed);
        case Buff(_) => MovesOk(s, t, Exiting);
      }
    case Go =>
  }

  lemma CheckOk(s: State, t: nat)
    requires BuffersOk(s) && t < |s.pc| && s.pc[t].Check?
    ensures BuffersOk(WriterStep(s, t, Go))
  {
    hide PoolOk, Slots, Records, Returns, Pointers, Writers;
    var msg := s.pc[t].msg;
    match s.slot[t]
    case Buff(b) =>
      MovesOk(s, t, if BUFF - s.cur[b] < |msg| then GiveBack(msg) else Copy(msg));
    case _ =>
      MovesOk(s, t, Get(msg));
  }

  lemma WriterStepOk(s: State, t: nat, a: Action)
    requires BuffersOk(s) && t < |s.pc|
    ensures BuffersOk(WriterStep(s, t, a))
  {
    hide PoolOk, Slots, Records, Returns, Pointers, Writers;
    match s.pc[t]
    case Idle => CallOk(s, t, a);
    case First(msg) => GetBuffOk(s, t, Check(msg), Check(msg));
    case Check(_) => CheckOk(s, t);
    case GiveBack(msg) =>
      if s.running { GivenOk(s, t, Get(msg)); } else { MovesOk(s, t, AssertFailed); }
    case Get(msg) => GetBuffOk(s, t, Copy(msg), Idle);
    case Copy(_) => CopyOk(s, t);
    case Queue(_, _) =>
      if s.running { QueuedOk(s, t); } else { MovesOk(s, t, AssertFailed); }
    case Exiting =>
      if s.running { GivenOk(s, t, Gone); } else { MovesOk(s, t, AssertFailed); }
    case _ =>
  }
}

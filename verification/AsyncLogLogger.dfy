/** The logging thread's steps keep the buffers in order. */
module AsyncLogLogger {
  import opened LogFile
  import opened AsyncLog
  import opened AsyncLogInv

  // ----- Steps that leave buffers, places and records alone -----

  lemma SameBuffers(s: State, r: State)
    requires BuffersOk(s) && Bounded(r) && r.slot == s.slot && r.pc == s.pc && r.pool == s.pool
    requires r.mem == s.mem && r.cur == s.cur && r.hist == s.hist.(lost := r.hist.lost)
    requires Records(r)
    ensures BuffersOk(r)
  {
    hide Bytes;
    forall k | r.hist.done <= k < |r.hist.recs|
      ensures Points(r, r.hist.recs[k], r.hist.texts[k], k)
    {
      assert Points(s, s.hist.recs[k], s.hist.texts[k], k);
    }
  }

  lemma SwappedOk(s: State)
    requires BuffersOk(s) && (s.logger.Top? || s.logger.Wait?)
    ensures BuffersOk(Swapped(s))
  {
    var r := Swapped(s);
    assert Remaining(r) + r.pb1 == Remaining(s) + s.pb1;
    hide PoolOk, Slots, Returns, Pointers, Writers;
    SameBuffers(s, r);
  }

  lemma FlushOk(s: State, replies: seq<Reply>)
    requires BuffersOk(s) && s.logger.Drain? && s.logger.i == |s.pb2|
    ensures BuffersOk(LoggerStep(s, replies, false, false))
  {
    var r := LoggerStep(s, replies, false, false);
    assert Remaining(r) == Remaining(s);
    hide PoolOk, Slots, Returns, Pointers, Writers;
    SameBuffers(s, r);
  }

  lemma ClearOk(s: State)
    requires BuffersOk(s) && s.logger.Clear?
    ensures BuffersOk(LoggerStep(s, [], false, false))
  {
    var r := LoggerStep(s, [], false, false);
    assert Remaining(r) == Remaining(s);
    hide PoolOk, Slots, Returns, Pointers, Writers;
    SameBuffers(s, r);
  }

  // ----- Shrinking: both vectors are empty, and deleted buffers come from the pool -----

  lemma ShrunkPlaces(s: State)
    requires Bounded(s) && PoolOk(s) && Slots(s) && Records(s) && Returns(s)
    ensures var r := Shrunk(s); PoolOk(r) && Slots(r) && Records(r) && Returns(r)
  {
    hide PcOk, MsgOk;
    assert Remaining(Shrunk(s)) == Remaining(s);
  }

  lemma ShrunkPointers(s: State)
    requires Bounded(s) && Records(s) && Pointers(s) && Writers(s) && Records(Shrunk(s))
    ensures Pointers(Shrunk(s)) && Writers(Shrunk(s))
  {
    hide Bytes;
    var r := Shrunk(s);
    forall k | r.hist.done <= k < |r.hist.recs|
      ensures Points(r, r.hist.recs[k], r.hist.texts[k], k)
    {
      assert Points(s, s.hist.recs[k], s.hist.texts[k], k);
    }
  }

  lemma ShrunkOk(s: State)
    requires BuffersOk(s)
    ensures BuffersOk(Shrunk(s))
  {
    hide Shrunk, PoolOk, Slots, Returns, Pointers, Writers, Records;
    ShrunkPlaces(s);
    ShrunkPointers(s);
  }

  // Replacing the vectors loses nothing.
  lemma {:induction false} ShrinkDropsNothing(s: State, big1: bool, big2: bool)
    requires BuffersOk(s) && s.logger.Wait? && s.pb1 == []
    ensures ShrunkAll(s, big1, big2) == Shrunk(s)
  {
  }

  lemma WokenOk(s: State, big1: bool, big2: bool)
    requires BuffersOk(s) && s.logger.Wait?
    ensures BuffersOk(Woken(s, s.logger.idle, big1, big2))
  {
    hide PoolOk, Slots, Records, Returns, Pointers, Writers, Shrunk, ShrunkAll, Swapped;
    var idle := s.logger.idle;
    if s.pb1 != [] {
      SwappedOk(s);
    } else {
      ShrinkDropsNothing(s, big1, big2);
      ShrunkOk(s);
      var u := if idle + 1 == 8 then Shrunk(s) else s;
      assert u.logger.Wait? by { ShrunkWaits(s); }
      if u.running { WaitOk(u, idle + 1); } else { SwappedOk(u); }
    }
  }

  lemma ShrunkWaits(s: State)
    requires Bounded(s)
    ensures Shrunk(s).logger == s.logger && Shrunk(s).running == s.running
  {
  }

  lemma WaitOk(s: State, idle: nat)
    requires BuffersOk(s) && (s.logger.Wait? || s.logger.Top?)
    ensures BuffersOk(s.(logger := Wait(idle)))
  {
    var r := s.(logger := Wait(idle));
    assert Remaining(r) == Remaining(s);
    hide PoolOk, Slots, Returns, Pointers, Writers;
    SameBuffers(s, r);
  }

  // ----- Handling a record -----

  lemma HandledFirst(s: State)
    requires Bounded(s) && Records(s) && s.logger.Drain? && s.logger.i < |s.pb2|
    ensures s.hist.done < |s.hist.recs| && s.pb2[s.logger.i] == s.hist.recs[s.hist.done]
  {
    assert (Remaining(s) + s.pb1)[0] == s.pb2[s.logger.i];
  }

  lemma HandledRecords(s: State, replies: seq<Reply>)
    requires Bounded(s) && Records(s) && s.logger.Drain? && s.logger.i < |s.pb2|
    ensures Records(Handled(s, s.logger.i, replies))
  {
    HandledFirst(s);
    var r := Handled(s, s.logger.i, replies);
    assert Remaining(r) == Remaining(s)[1..];
    assert Remaining(r) + r.pb1 == (Remaining(s) + s.pb1)[1..];
  }

  lemma WrittenPlaces(s: State, replies: seq<Reply>)
    requires Bounded(s) && Records(s) && PoolOk(s) && Slots(s) && Returns(s) && Writers(s)
    requires s.logger.Drain? && s.logger.i < |s.pb2| && s.pb2[s.logger.i].len > 0
    requires Records(Handled(s, s.logger.i, replies))
    ensures var r := Handled(s, s.logger.i, replies); PoolOk(r) && Slots(r) && Returns(r) && Writers(r)
  {
    hide Bytes;
    HandledFirst(s);
  }

  lemma WrittenPointers(s: State, replies: seq<Reply>)
    requires Bounded(s) && Records(s) && Pointers(s)
    requires s.logger.Drain? && s.logger.i < |s.pb2| && s.pb2[s.logger.i].len > 0
    requires Records(Handled(s, s.logger.i, replies))
    ensures Pointers(Handled(s, s.logger.i, replies))
  {
    hide Bytes;
    var r := Handled(s, s.logger.i, replies);
    forall k | r.hist.done <= k < |r.hist.recs|
      ensures Points(r, r.hist.recs[k], r.hist.texts[k], k)
    {
      assert Points(s, s.hist.recs[k], s.hist.texts[k], k);
    }
  }

  lemma WrittenOk(s: State, replies: seq<Reply>)
    requires BuffersOk(s) && s.logger.Drain? && s.logger.i < |s.pb2| && s.pb2[s.logger.i].len > 0
    ensures BuffersOk(Handled(s, s.logger.i, replies))
  {
    hide Handled, PoolOk, Slots, Records, Returns, Pointers, Writers;
    HandledRecords(s, replies);
    WrittenPlaces(s, replies);
    WrittenPointers(s, replies);
  }

  lemma RecycledPool(s: State, replies: seq<Reply>)
    requires Bounded(s) && Records(s) && PoolOk(s) && Slots(s) && Returns(s)
    requires s.logger.Drain? && s.logger.i < |s.pb2| && s.pb2[s.logger.i].len == 0
    ensures var r := Handled(s, s.logger.i, replies); PoolOk(r) && Slots(r)
  {
    HandledFirst(s);
    assert s.hist.place[s.pb2[s.logger.i].buf] == Pending(s.hist.done);
  }

  lemma RecycledReturns(s: State, replies: seq<Reply>)
    requires Bounded(s) && Records(s) && Returns(s)
    requires s.logger.Drain? && s.logger.i < |s.pb2| && s.pb2[s.logger.i].len == 0
    requires Records(Handled(s, s.logger.i, replies))
    ensures Returns(Handled(s, s.logger.i, replies))
  {
    hide PcOk, MsgOk, Bytes, RecOk;
    HandledFirst(s);
    var r := Handled(s, s.logger.i, replies);
    var b := s.pb2[s.logger.i].buf;
    assert s.hist.place[b] == Pending(s.hist.done);
    assert r.hist.place == s.hist.place[b := InPool(|s.pool|)] && r.hist.recs == s.hist.recs && r.hist.done == s.hist.done + 1;
  }

  lemma RecycledPlaces(s: State, replies: seq<Reply>)
    requires Bounded(s) && Records(s) && PoolOk(s) && Slots(s) && Returns(s)
    requires s.logger.Drain? && s.logger.i < |s.pb2| && s.pb2[s.logger.i].len == 0
    requires Records(Handled(s, s.logger.i, replies))
    ensures var r := Handled(s, s.logger.i, replies); PoolOk(r) && Slots(r) && Returns(r)
  {
    hide Handled, PoolOk, Slots, Records, Returns;
    RecycledPool(s, replies);
    RecycledReturns(s, replies);
  }

  // No record that is still to be handled points into the recycled buffer.
  lemma RecycledPointers(s: State, replies: seq<Reply>)
    requires Bounded(s) && Records(s) && Slots(s) && Returns(s) && Pointers(s) && Writers(s)
    requires s.logger.Drain? && s.logger.i < |s.pb2| && s.pb2[s.logger.i].len == 0
    requires Records(Handled(s, s.logger.i, replies))
    ensures var r := Handled(s, s.logger.i, replies); Pointers(r) && Writers(r)
  {
    hide Bytes;
    HandledFirst(s);
    var r := Handled(s, s.logger.i, replies);
    var b := s.pb2[s.logger.i].buf;
    assert s.hist.place[b] == Pending(s.hist.done);
    forall k | r.hist.done <= k < |r.hist.recs|
      ensures Points(r, r.hist.recs[k], r.hist.texts[k], k)
    {
      assert Points(s, s.hist.recs[k], s.hist.texts[k], k);
    }
    forall t | 0 <= t < |r.pc|
      ensures WriterOk(r, r.pc[t], r.slot[t])
    {
      assert WriterOk(s, s.pc[t], s.slot[t]);
      if s.pc[t].Copy? || s.pc[t].Queue? { assert Owns(s.pc[t]) && s.slot[t].b != b; }
    }
  }

  lemma RecycledOk(s: State, replies: seq<Reply>)
    requires BuffersOk(s) && s.logger.Drain? && s.logger.i < |s.pb2| && s.pb2[s.logger.i].len == 0
    ensures BuffersOk(Handled(s, s.logger.i, replies))
  {
    hide Handled, PoolOk, Slots, Records, Returns, Pointers, Writers;
    HandledRecords(s, replies);
    RecycledPlaces(s, replies);
    RecycledPointers(s, replies);
  }

  lemma LoggerStepOk(s: State, replies: seq<Reply>, big1: bool, big2: bool)
    requires BuffersOk(s)
    ensures BuffersOk(LoggerStep(s, replies, big1, big2))
  {
    hide PoolOk, Slots, Records, Returns, Pointers, Writers, Handled, Swapped, Woken;
    match s.logger
    case Top => if s.running { WaitOk(s, 0); } else { SwappedOk(s); }
    case Wait(idle) => WokenOk(s, big1, big2);
    case Drain(i) =>
      if i == |s.pb2| {
        FlushOk(s, replies);
      } else if s.pb2[i].len == 0 {
        RecycledOk(s, replies);
      } else {
        WrittenOk(s, replies);
      }
    case Clear => ClearOk(s);
    case Exited =>
  }

  lemma StopOk(s: State)
    requires BuffersOk(s)
    ensures BuffersOk(s.(running := false))
  {
    var r := s.(running := false);
    assert Remaining(r) == Remaining(s);
    hide PoolOk, Slots, Returns, Pointers, Writers;
    SameBuffers(s, r);
  }
}

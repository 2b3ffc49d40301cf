/**
  The steps of one call of one thread, as they show in a run: when it begins and ends, and what it
  adds to a log.
 */
module CallTrace {

  // What one step adds to the log, if anything.
  datatype Entry<E> = NoEntry | Entry(e: E)

  // The thread is idle, calls, is busy until step k, and is idle again.
  predicate Spans(idle: seq<bool>, j: nat, k: nat) {
    j < k && k + 1 < |idle| && idle[j] && idle[k + 1] && forall i :: j < i <= k ==> !idle[i]
  }

  lemma BusyInside(idle: seq<bool>, j: nat, k: nat, i: nat)
    requires Spans(idle, j, k) && j < i <= k
    ensures !idle[i]
  {
  }

  lemma SpanEnds(idle: seq<bool>, j: nat, k: nat)
    requires Spans(idle, j, k)
    ensures j < k && k + 1 < |idle| && idle[j] && idle[k + 1]
  {
  }

  // A later call of the same thread begins after the end of the earlier one.
  lemma SpansDisjoint(idle: seq<bool>, j: nat, k: nat, jj: nat, kk: nat)
    requires Spans(idle, j, k) && Spans(idle, jj, kk) && k < kk
    ensures k < jj
  {
    hide Spans;
    SpanEnds(idle, j, k);
    SpanEnds(idle, jj, kk);
    if jj < j {
      BusyInside(idle, jj, kk, j);
    } else if jj == j {
      BusyInside(idle, jj, kk, k + 1);
    } else if jj <= k {
      BusyInside(idle, j, k, jj);
    }
  }

  // Exactly one of the steps lo..hi adds something, and it adds e.
  ghost predicate Once<E>(made: seq<Entry<E>>, lo: nat, hi: nat, e: E)
    requires hi <= |made|
  {
    exists m :: lo <= m < hi && made[m] == Entry(e) && forall i :: lo <= i < hi && i != m ==> made[i] == NoEntry
  }

  predicate Never<E>(made: seq<Entry<E>>, lo: nat, hi: nat)
    requires hi <= |made|
  {
    forall i :: lo <= i < hi ==> made[i].NoEntry?
  }

  // Where a call stands: before its entry, or after it.  Elsewhere is no point of this call.
  datatype Phase<E> = Elsewhere | Before | After(e: E)

  ghost predicate PhaseStep<E>(p: Phase<E>, made: Entry<E>, q: Phase<E>) {
    (made.NoEntry? && q == p) || (p.Before? && made.Entry? && q == After(made.e))
  }

  // What the phase says of the entries, if every step between goes from phase to phase.
  lemma {:induction false} CallTells<E>(made: seq<Entry<E>>, phase: seq<Phase<E>>, lo: nat, hi: nat)
    requires lo <= hi <= |made| && |phase| == |made| + 1 && phase[lo].Before?
    requires forall i {:trigger made[i]} :: lo <= i < hi && !phase[i].Elsewhere? ==> PhaseStep(phase[i], made[i], phase[i + 1])
    ensures !phase[hi].Elsewhere?
    ensures phase[hi].Before? ==> Never(made, lo, hi)
    ensures phase[hi].After? ==> Once(made, lo, hi, phase[hi].e)
    decreases hi
  {
    if lo < hi {
      CallTells(made, phase, lo, hi - 1);
      assert PhaseStep(phase[hi - 1], made[hi - 1], phase[hi]);
      if phase[hi - 1].After? {
        var m :| lo <= m < hi - 1 && made[m] == Entry(phase[hi].e) && forall i :: lo <= i < hi - 1 && i != m ==> made[i] == NoEntry;
        assert forall i :: lo <= i < hi && i != m ==> made[i] == NoEntry;
      } else if phase[hi].After? {
        assert made[hi - 1] == Entry(phase[hi].e);
        assert forall i :: lo <= i < hi && i != hi - 1 ==> made[i] == NoEntry;
      }
    }
  }
}

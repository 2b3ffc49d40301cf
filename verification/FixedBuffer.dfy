/** FixedBuffer and FixedBufferPool (slog/FixedBuffer.h) in place. */
module FixedBuffer {
  import opened AsyncLog

  class Buffer {
    const m_buff: array<char>
    var m_cur: nat

    ghost predicate Valid()
      reads this
    {
      m_buff.Length == BUFF && m_cur <= BUFF
    }

    constructor ()
      ensures Valid() && fresh(m_buff) && m_cur == 0
    {
      m_buff := new char[BUFF](i => '\0');
      m_cur := 0;
    }

    function Available(): (n: nat)
      requires Valid()
      reads this
      ensures m_cur + n == BUFF
    {
      BUFF - m_cur
    }

    // The caller has checked Available(); the result is where the message begins.
    method Append(data: string) returns (ret: nat)
      requires Valid() && |data| <= Available()
      modifies this, m_buff
      ensures Valid() && ret == old(m_cur) && m_cur == ret + |data|
      ensures m_buff[..] == Splice(old(m_buff[..]), ret, data)
      ensures m_buff[ret..m_cur] == data && m_buff[..ret] == old(m_buff[..ret])
    {
      ret := m_cur;
      m_cur := m_cur + |data|;
      var i := 0;
      while i < |data|
        invariant 0 <= i <= |data| && Valid() && m_cur == ret + |data|
        invariant m_buff[..ret] == old(m_buff[..ret]) && m_buff[ret..ret + i] == data[..i]
        invariant m_buff[ret + i..] == old(m_buff[..])[ret + i..]
      {
        m_buff[ret + i] := data[i];
        i := i + 1;
      }
      assert m_buff[..] == m_buff[..ret] + m_buff[ret..ret + |data|] + m_buff[ret + |data|..];
    }

    method Reset()
      requires Valid()
      modifies this`m_cur
      ensures Valid() && m_cur == 0
    {
      m_cur := 0;
    }
  }

  class Pool {
    const m_fix_sz: nat
    var m_unrecyled: nat
    var m_pool: seq<Buffer>

    // The pool's buffers are distinct and empty.
    ghost predicate Valid()
      reads this, m_pool
    {
      && 1 <= m_fix_sz
      && (forall i, j :: 0 <= i < j < |m_pool| ==> m_pool[i] != m_pool[j])
      && (forall i :: 0 <= i < |m_pool| ==> m_pool[i].Valid() && m_pool[i].m_cur == 0)
    }

    constructor (num: nat)
      requires 1 <= num
      ensures Valid() && m_fix_sz == num && |m_pool| == num && m_unrecyled == 0
      ensures forall i :: 0 <= i < num ==> fresh(m_pool[i])
    {
      m_fix_sz, m_unrecyled, m_pool := num, 0, [];
      new;
      for i := 0 to num
        invariant |m_pool| == i && m_unrecyled == 0 && Valid()
        invariant forall j :: 0 <= j < i ==> fresh(m_pool[j])
      {
        var b := new Buffer();
        m_pool := m_pool + [b];
      }
    }

    method EnlargePoolUnsafe()
      requires Valid()
      modifies this`m_pool
      ensures Valid() && |m_pool| == old(|m_pool|) + (if m_unrecyled > 1024 * m_fix_sz then 0 else GRAN)
      ensures m_pool[..old(|m_pool|)] == old(m_pool)
      ensures forall i :: old(|m_pool|) <= i < |m_pool| ==> fresh(m_pool[i])
    {
      if m_unrecyled > 1024 * m_fix_sz { return; }
      ghost var before := m_pool;
      for i := 0 to GRAN
        invariant |m_pool| == |before| + i && m_pool[..|before|] == before && Valid()
        invariant forall j :: |before| <= j < |m_pool| ==> fresh(m_pool[j])
      {
        var b := new Buffer();
        m_pool := m_pool + [b];
      }
    }

    // Null exactly if the pool is empty and too many buffers are outside; otherwise the buffer
    // that was recycled last, or a new one.
    method GetBuff() returns (ret: Buffer?)
      requires Valid()
      modifies this
      ensures Valid()
      ensures ret == null <==> old(m_pool) == [] && old(m_unrecyled) > 1024 * m_fix_sz
      ensures ret == null ==> m_pool == old(m_pool) && m_unrecyled == old(m_unrecyled)
      ensures ret != null ==>
                && ret.Valid() && ret.m_cur == 0 && ret !in m_pool && m_unrecyled == old(m_unrecyled) + 1
                && (old(m_pool) != [] ==> m_pool + [ret] == old(m_pool))
                && (old(m_pool) == [] ==> |m_pool| + 1 == GRAN && fresh(ret) && forall i :: 0 <= i < |m_pool| ==> fresh(m_pool[i]))
    {
      if m_pool == [] {
        EnlargePoolUnsafe();
        if m_pool == [] { return null; }
      }
      ghost var before := m_pool;
      ret := m_pool[|m_pool| - 1];
      m_pool := m_pool[..|m_pool| - 1];
      m_unrecyled := m_unrecyled + 1;
      assert m_pool + [ret] == before;
    }

    method Recycle(buff: Buffer)
      requires Valid() && buff.Valid() && buff !in m_pool && 0 < m_unrecyled
      modifies this, buff`m_cur
      ensures Valid() && m_pool == old(m_pool) + [buff] && m_unrecyled == old(m_unrecyled) - 1 && buff.m_cur == 0
    {
      buff.Reset();
      m_pool := m_pool + [buff];
      m_unrecyled := m_unrecyled - 1;
    }

    method Shrink()
      requires Valid()
      modifies this`m_pool
      ensures Valid() && m_pool == if |old(m_pool)| > m_fix_sz then old(m_pool)[..m_fix_sz] else old(m_pool)
    {
      if |m_pool| > m_fix_sz { m_pool := m_pool[..m_fix_sz]; }
    }
  }
}

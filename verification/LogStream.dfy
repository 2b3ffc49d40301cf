/** LogStream (slog/LogStream.cc): number printing in a shared character buffer. */
module LogStream {
  import opened Numerals

  type int64 = v: int | -0x8000_0000_0000_0000 <= v < 0x8000_0000_0000_0000
  type uint64 = v: int | 0 <= v < 0x1_0000_0000_0000_0000

  const DIGITS: string := "9876543210123456789"    // g_digits; g_zero points to index 9
  const RESERVE: nat := 32

  // C++ division and remainder truncate toward zero.
  function Quot(a: int, b: nat): (q: int)
    requires 1 <= b
    ensures Abs(q) == Abs(a) / b
  {
    if a >= 0 then a / b else -((-a) / b)
  }

  function Rem(a: int, b: nat): (r: int)
    requires 1 <= b
    ensures a == b * Quot(a, b) + r && Abs(r) == Abs(a) % b
  {
    if a >= 0 then a % b else -((-a) % b)
  }

  lemma TableDigit(lsd: int)
    requires -9 <= lsd <= 9
    ensures DIGITS[9 + lsd] == DigitChar(Abs(lsd))
  {
    assert |DIGITS| == 19;
  }

  // One turn of the loop takes the last digit off.
  lemma LastDigit(i: int)
    ensures var lsd := Rem(i, 10);
      && -9 <= lsd <= 9
      && RevDigits(Abs(i), 10) == [DIGITS[9 + lsd]] + if Quot(i, 10) == 0 then "" else RevDigits(Abs(Quot(i, 10)), 10)
  {
    TableDigit(Rem(i, 10));
  }

  // ----- Writing into the middle of a buffer -----

  // m with t written at position at.
  function Laid(m: string, at: nat, t: string): (r: string)
    requires at + |t| <= |m|
    ensures |r| == |m|
  {
    m[..at] + t + m[at + |t|..]
  }

  lemma LaidAt(m: string, at: nat, t: string, k: nat)
    requires at + |t| <= |m| && k < |m|
    ensures Laid(m, at, t)[k] == if at <= k < at + |t| then t[k - at] else m[k]
  {
  }

  lemma LaidMore(m: string, at: nat, t: string, c: char)
    requires at + |t| < |m|
    ensures Laid(m, at, t)[at + |t| := c] == Laid(m, at, t + [c])
  {
  }

  lemma LaidReads(m: string, at: nat, t: string, rest: string)
    requires at + |t| + |rest| <= |m|
    ensures Laid(m, at, t + rest)[at..at + |t|] == t
  {
  }

  // Rewriting the first part of what was laid.
  lemma LaidAgain(m: string, at: nat, t: string, u: string, rest: string)
    requires |t| == |u| && at + |t| + |rest| <= |m|
    ensures Laid(Laid(m, at, t + rest), at, u) == Laid(m, at, u + rest)
  {
  }

  lemma OneMore(done: string, c: char, rest: string)
    ensures done + ([c] + rest) == (done + [c]) + rest
    ensures rest == "" ==> done + ([c] + rest) == done + [c]
  {
  }

  // An assignment to an element, on the whole contents.
  method Put(buf: array<char>, p: nat, c: char)
    requires p < buf.Length
    modifies buf
    ensures buf[..] == old(buf[..])[p := c]
  {
    buf[p] := c;
  }

  // convert<T>: the digits of |value|, least significant first, and a NUL.
  method Convert(buf: array<char>, at: nat, value: int) returns (len: nat)
    requires at + |RevDigits(Abs(value), 10)| < buf.Length
    modifies buf
    ensures len == |RevDigits(Abs(value), 10)|
    ensures buf[..] == Laid(old(buf[..]), at, RevDigits(Abs(value), 10) + "\0")
  {
    hide RevDigits, Quot, Rem, Laid;
    ghost var was, done := buf[..], "";
    assert Laid(was, at, "") == was by { LaidNothing(was, at); }
    var i, p, more := value, at, true;
    while more
      invariant p == at + |done| && at + |RevDigits(Abs(value), 10)| < buf.Length
      invariant RevDigits(Abs(value), 10) == if more then done + RevDigits(Abs(i), 10) else done
      invariant buf[..] == Laid(was, at, done)
      decreases buf.Length - p
    {
      var lsd := Rem(i, 10);
      LastDigit(i);
      i := Quot(i, 10);
      var c := DIGITS[9 + lsd];
      Put(buf, p, c);
      p := p + 1;
      more := i != 0;
      LaidMore(was, at, done, c);
      OneMore(done, c, if more then RevDigits(Abs(i), 10) else "");
      done := done + [c];
    }
    Put(buf, p, '\0');
    LaidMore(was, at, done, '\0');
    len := p - at;
  }

  lemma LaidNothing(m: string, at: nat)
    requires at <= |m|
    ensures Laid(m, at, "") == m
  {
  }

  // std::reverse(buf + lo, buf + hi).
  method Reverse(buf: array<char>, lo: nat, hi: nat)
    requires lo <= hi <= buf.Length
    modifies buf
    ensures buf[..] == Laid(old(buf[..]), lo, Reversed(old(buf[..])[lo..hi]))
  {
    hide Reversed, Laid;
    ghost var was := buf[..];
    var i, j := lo, hi;
    while i + 1 < j
      invariant lo <= i <= j + 1 <= hi + 1 && i - lo == hi - j
      invariant forall k :: lo <= k < i || j <= k < hi ==> buf[k] == was[lo + hi - 1 - k]
      invariant forall k :: 0 <= k < lo || i <= k < j || hi <= k < buf.Length ==> buf[k] == was[k]
    {
      j := j - 1;
      buf[i], buf[j] := buf[j], buf[i];
      i := i + 1;
    }
    assert i < j ==> i == lo + hi - 1 - i;
    IsReversed(was, lo, hi, buf[..]);
  }

  lemma IsReversed(was: string, lo: nat, hi: nat, now: string)
    requires lo <= hi <= |was| == |now|
    requires forall k :: lo <= k < hi ==> now[k] == was[lo + hi - 1 - k]
    requires forall k :: 0 <= k < lo || hi <= k < |was| ==> now[k] == was[k]
    ensures now == Laid(was, lo, Reversed(was[lo..hi]))
  {
    hide Reversed;
    var t := Reversed(was[lo..hi]);
    forall k | 0 <= k < |was|
      ensures now[k] == Laid(was, lo, t)[k]
    {
      LaidAt(was, lo, t, k);
      if lo <= k < hi { assert t[k - lo] == was[lo..hi][hi - 1 - k]; }
    }
  }

  lemma {:induction false} ReversedMore(s: string, c: char)
    ensures Reversed(s + [c]) == [c] + Reversed(s)
  {
    var r := Reversed(s + [c]);
    assert forall k :: 0 <= k < |r| ==> r[k] == ([c] + Reversed(s))[k];
  }

  lemma LastHexDigit(i: nat)
    ensures RevDigits(i, 16) == [HEX_DIGITS[i % 16]] + if i / 16 == 0 then "" else RevDigits(i / 16, 16)
  {
  }

  lemma HexText(value: nat)
    ensures Hex(value) == Reversed(RevDigits(value, 16) + "x" + "0") && |Hex(value)| == |RevDigits(value, 16)| + 2
  {
    hide RevDigits, Reversed;
    var all := RevDigits(value, 16);
    ReversedMore(all + "x", '0');
    ReversedMore(all, 'x');
    assert Hex(value) == ['0'] + (['x'] + Reversed(all));
  }

  // ConvertHex's loop: the hexadecimal digits, least significant first.
  method HexDigits(buf: array<char>, at: nat, value: nat) returns (p: nat)
    requires at + |RevDigits(value, 16)| < buf.Length
    modifies buf
    ensures p == at + |RevDigits(value, 16)|
    ensures buf[..] == Laid(old(buf[..]), at, RevDigits(value, 16))
  {
    hide RevDigits, Laid;
    ghost var was, done := buf[..], "";
    assert Laid(was, at, "") == was by { LaidNothing(was, at); }
    var i, more := value, true;
    p := at;
    while more
      invariant p == at + |done| && at + |RevDigits(value, 16)| < buf.Length
      invariant RevDigits(value, 16) == if more then done + RevDigits(i, 16) else done
      invariant buf[..] == Laid(was, at, done)
      decreases buf.Length - p
    {
      var lsd := i % 16;
      LastHexDigit(i);
      i := i / 16;
      var c := HEX_DIGITS[lsd];
      Put(buf, p, c);
      p := p + 1;
      more := i != 0;
      LaidMore(was, at, done, c);
      OneMore(done, c, if more then RevDigits(i, 16) else "");
      done := done + [c];
    }
  }

  class Stream {
    const m_buff: array<char>
    var m_cur: nat

    ghost predicate Valid()
      reads this
    {
      m_cur <= m_buff.Length
    }

    constructor (buff: array<char>)
      ensures Valid() && m_buff == buff && m_cur == 0
    {
      m_buff, m_cur := buff, 0;
    }

    // `text` is appended and a NUL follows it; nothing else changes.
    twostate predicate Printed(text: string)
      reads this, m_buff
    {
      && m_cur == old(m_cur) + |text| < m_buff.Length
      && m_buff[..] == Laid(old(m_buff[..]), old(m_cur), text + "\0")
    }

    // Reverses what was printed backwards.
    method TurnRound(ps: nat, ghost was: string, ghost back: string)
      requires Valid() && m_cur == ps + |back| < m_buff.Length == |was|
      requires m_buff[..] == Laid(was, ps, back + "\0")
      modifies m_buff
      ensures m_buff[..] == Laid(was, ps, Reversed(back) + "\0")
    {
      hide Reversed, Laid;
      LaidReads(was, ps, back, "\0");
      Reverse(m_buff, ps, m_cur);
      LaidAgain(was, ps, back, Reversed(back), "\0");
    }

    method Convert64(value: int64) returns (n: nat)
      requires Valid()
      modifies this, m_buff
      ensures Valid()
      ensures m_buff.Length - old(m_cur) < RESERVE ==> n == 0 && unchanged(this) && unchanged(m_buff)
      ensures m_buff.Length - old(m_cur) >= RESERVE ==> n == |Decimal(value)| && Printed(Decimal(value))
    {
      hide RevDigits, Reversed, Laid;
      if m_buff.Length - m_cur < RESERVE { return 0; }
      NumbersFit(value);
      ghost var was, back := m_buff[..], RevDigits(Abs(value), 10);
      var ps := m_cur;
      var len := Convert(m_buff, ps, value);
      m_cur := m_cur + len;
      if value < 0 {
        Put(m_buff, m_cur, '-');
        m_cur := m_cur + 1;
        Put(m_buff, m_cur, '\0');
        SignLaid(was, ps, back);
        ReversedMore(back, '-');
        back := back + "-";
      }
      TurnRound(ps, was, back);
      n := m_cur - ps;
      assert Reversed(back) == Decimal(value);
    }

    method Convert64U(value: uint64) returns (n: nat)
      requires Valid()
      modifies this, m_buff
      ensures Valid()
      ensures m_buff.Length - old(m_cur) < RESERVE ==> n == 0 && unchanged(this) && unchanged(m_buff)
      ensures m_buff.Length - old(m_cur) >= RESERVE ==> n == |Decimal(value)| && Printed(Decimal(value))
    {
      hide RevDigits, Reversed, Laid;
      if m_buff.Length - m_cur < RESERVE { return 0; }
      NumbersFit(value);
      ghost var was := m_buff[..];
      var ps := m_cur;
      n := Convert(m_buff, ps, value);
      m_cur := m_cur + n;
      TurnRound(ps, was, RevDigits(value, 10));
      assert Reversed(RevDigits(value, 10)) == Decimal(value);
    }

    // The code does not check for room here; this is what it needs.
    method ConvertHex(value: uint64) returns (n: nat)
      requires Valid() && |Hex(value)| < m_buff.Length - m_cur
      modifies this, m_buff
      ensures Valid() && n == |Hex(value)| && Printed(Hex(value))
    {
      hide RevDigits, Reversed, Laid, Hex;
      HexText(value);
      ghost var was, back := m_buff[..], RevDigits(value, 16);
      var buff := m_cur;
      var p := HexDigits(m_buff, buff, value);
      Put(m_buff, p, 'x');
      LaidMore(was, buff, back, 'x');
      Put(m_buff, p + 1, '0');
      LaidMore(was, buff, back + "x", '0');
      p := p + 2;
      Put(m_buff, p, '\0');
      LaidMore(was, buff, back + "x" + "0", '\0');
      m_cur := p;
      TurnRound(buff, was, back + "x" + "0");
      n := p - buff;
    }
  }

  // Convert64's sign: it overwrites the NUL and is followed by a new one.
  lemma SignLaid(m: string, at: nat, back: string)
    requires at + |back| + 1 < |m|
    ensures Laid(m, at, back + "\0")[at + |back| := '-'][at + |back| + 1 := '\0'] == Laid(m, at, back + "-" + "\0")
  {
  }
}

/** Numerals as text: what slog/LogStream.cc prints, and how it reads back. */
module Numerals {
  import opened Modulus

  const HEX_DIGITS: string := "0123456789ABCDEF"

  function DigitChar(d: nat): char
    requires d < 16
  {
    HEX_DIGITS[d]
  }

  function DigitValue(c: char): (d: int)
    ensures -1 <= d < 16 && (d >= 0 ==> DigitChar(d) == c)
  {
    if '0' <= c <= '9' then c as int - '0' as int
    else if 'A' <= c <= 'F' then c as int - 'A' as int + 10
    else -1
  }

  lemma DigitRoundTrip(d: nat)
    requires d < 16
    ensures DigitValue(DigitChar(d)) == d
  {
  }

  // The digits of n, least significant first.
  function RevDigits(n: nat, base: nat): (s: string)
    requires 2 <= base <= 16
    ensures 1 <= |s|
  {
    [DigitChar(n % base)] + if n < base then "" else RevDigits(n / base, base)
  }

  function Reversed(s: string): (r: string)
    ensures |r| == |s| && forall k :: 0 <= k < |s| ==> r[k] == s[|s| - 1 - k]
  {
    if s == "" then "" else Reversed(s[1..]) + [s[0]]
  }

  function Digits(n: nat, base: nat): string
    requires 2 <= base <= 16
  {
    Reversed(RevDigits(n, base))
  }

  function Abs(v: int): nat { if v < 0 then -v else v }

  function Decimal(v: int): string { (if v < 0 then "-" else "") + Digits(Abs(v), 10) }

  function Hex(v: nat): string { "0x" + Digits(v, 16) }

  // ----- Reading -----

  predicate AllDigits(s: string, base: nat) {
    forall k :: 0 <= k < |s| ==> 0 <= DigitValue(s[k]) < base
  }

  function ParseDigits(s: string, base: nat): nat
    requires AllDigits(s, base)
  {
    if s == "" then 0 else ParseDigits(s[..|s| - 1], base) * base + DigitValue(s[|s| - 1])
  }

  // A numeral: at least one digit, and no leading zero unless it is the only digit.
  predicate Numeral(s: string, base: nat) {
    s != "" && AllDigits(s, base) && (s[0] == '0' ==> |s| == 1)
  }

  // A decimal number: a numeral, with a sign if it is negative; there is no "-0".
  predicate DecimalNumber(s: string) {
    if s != "" && s[0] == '-' then Numeral(s[1..], 10) && s[1] != '0' else Numeral(s, 10)
  }

  function ParseDecimal(s: string): int
    requires DecimalNumber(s)
  {
    if s[0] == '-' then -(ParseDigits(s[1..], 10) as int) else ParseDigits(s, 10)
  }

  predicate HexNumber(s: string) { |s| > 2 && s[..2] == "0x" && Numeral(s[2..], 16) }

  // ----- Writing and reading -----

  lemma DigitsUnfold(n: nat, base: nat)
    requires 2 <= base <= 16
    ensures Digits(n, base) == (if n < base then "" else Digits(n / base, base)) + [DigitChar(n % base)]
  {
    var tail := if n < base then "" else RevDigits(n / base, base);
    assert RevDigits(n, base)[1..] == tail;
  }

  lemma ParseMore(s: string, d: nat, base: nat)
    requires AllDigits(s, base) && d < base <= 16
    ensures AllDigits(s + [DigitChar(d)], base)
    ensures ParseDigits(s + [DigitChar(d)], base) == ParseDigits(s, base) * base + d
  {
    DigitRoundTrip(d);
    assert (s + [DigitChar(d)])[..|s|] == s;
  }

  lemma {:induction false} DigitsReadBack(n: nat, base: nat)
    requires 2 <= base <= 16
    ensures Numeral(Digits(n, base), base) && ParseDigits(Digits(n, base), base) == n
    ensures n > 0 ==> Digits(n, base)[0] != '0'
    decreases n
  {
    hide DigitChar, DigitValue, Digits, ParseDigits;
    DigitsUnfold(n, base);
    if n < base {
      ParseMore("", n, base);
      assert ParseDigits("", base) == 0 by { EmptyIsZero(base); }
      assert n % base == n && DigitValue(DigitChar(n)) == n by { DigitRoundTrip(n); Remainder(n, base, 0, n); }
      assert DigitChar(n) == '0' ==> n == 0 by { ZeroDigit(); }
    } else {
      Smaller(n, base);
      DigitsReadBack(n / base, base);
      ParseMore(Digits(n / base, base), n % base, base);
    }
  }

  lemma EmptyIsZero(base: nat)
    ensures ParseDigits("", base) == 0
  {
  }

  lemma ZeroDigit()
    ensures DigitValue('0') == 0
  {
  }

  lemma Smaller(n: nat, base: nat)
    requires 2 <= base <= n
    ensures 1 <= n / base < n && n == n / base * base + n % base
  {
    assert n == base * (n / base) + n % base;
  }

  lemma {:induction false} NumeralIsDigits(s: string, base: nat)
    requires 2 <= base <= 16 && Numeral(s, base)
    ensures Digits(ParseDigits(s, base), base) == s
    ensures ParseDigits(s, base) == 0 ==> s == "0"
    decreases |s|
  {
    hide Digits, DigitChar;
    var k := |s| - 1;
    var d := DigitValue(s[k]);
    var n := ParseDigits(s, base);
    assert DigitChar(d) == s[k];
    DigitsUnfold(n, base);
    if k == 0 {
      assert ParseDigits(s[..0], base) == 0;
      Remainder(d, base, 0, d);
      assert s == [s[0]];
      assert d == 0 ==> s[0] == '0' by { ZeroChar(); }
    } else {
      var m := ParseDigits(s[..k], base);
      NumeralIsDigits(s[..k], base);
      assert s[..k] != "0" by { assert s[..k][0] == s[0]; }
      DivMod(n, m, base, d);
      assert s == s[..k] + [s[k]];
    }
  }

  lemma ZeroChar()
    ensures DigitChar(0) == '0'
  {
  }

  lemma DivMod(n: nat, m: nat, base: nat, d: nat)
    requires n == m * base + d && d < base && 1 <= m
    ensures n >= base && n / base == m && n % base == d
  {
    Remainder(n, base, m, d);
    assert m * base >= base;
  }

  /** Every integer's text is a decimal number that reads back as the integer. */
  lemma {:induction false} DecimalReadsBack(v: int)
    ensures DecimalNumber(Decimal(v)) && ParseDecimal(Decimal(v)) == v
  {
    DigitsReadBack(Abs(v), 10);
    var d := Digits(Abs(v), 10);
    assert DigitValue('-') == -1;
    if v < 0 {
      assert Decimal(v)[1..] == d;
    } else {
      assert Decimal(v) == d;
    }
  }

  /** Every decimal number is the text of the integer it reads as: the text is canonical. */
  lemma {:induction false} DecimalIsCanonical(s: string)
    requires DecimalNumber(s)
    ensures Decimal(ParseDecimal(s)) == s
  {
    if s[0] == '-' {
      NumeralIsDigits(s[1..], 10);
      assert s == "-" + s[1..];
    } else {
      NumeralIsDigits(s, 10);
    }
  }

  /** The same for hexadecimal. */
  lemma {:induction false} HexReadsBack(v: nat)
    ensures HexNumber(Hex(v)) && ParseDigits(Hex(v)[2..], 16) == v
  {
    DigitsReadBack(v, 16);
    assert Hex(v)[2..] == Digits(v, 16);
  }

  lemma {:induction false} HexIsCanonical(s: string)
    requires HexNumber(s)
    ensures Hex(ParseDigits(s[2..], 16)) == s
  {
    hide Digits, ParseDigits, Numeral;
    NumeralIsDigits(s[2..], 16);
    assert s == s[..2] + s[2..];
  }

  // ----- How long -----

  function Power(base: nat, k: nat): nat { if k == 0 then 1 else base * Power(base, k - 1) }

  lemma {:induction false} DigitsFit(n: nat, base: nat, k: nat)
    requires 2 <= base <= 16 && 1 <= k && n < Power(base, k)
    ensures |RevDigits(n, base)| <= k
    decreases k
  {
    if n >= base {
      assert k > 1;
      Quotient(n, base, Power(base, k - 1));
      DigitsFit(n / base, base, k - 1);
    }
  }

  lemma Quotient(n: nat, base: nat, p: nat)
    requires 1 <= base && n < base * p
    ensures n / base < p
  {
  }

  lemma {:induction false} PowerAdd(base: nat, i: nat, j: nat)
    ensures Power(base, i + j) == Power(base, i) * Power(base, j)
  {
    if i > 0 {
      PowerAdd(base, i - 1, j);
      MulAssoc(base, Power(base, i - 1), Power(base, j));
    }
  }

  lemma Powers()
    ensures Power(10, 19) == 10000000000000000000 && Power(10, 20) == 100000000000000000000
    ensures Power(16, 16) == 0x1_0000_0000_0000_0000
  {
    assert Power(10, 2) == 100;
    assert Power(10, 4) == 10000 by { PowerAdd(10, 2, 2); }
    assert Power(10, 5) == 100000;
    PowerAdd(10, 5, 5);
    PowerAdd(10, 10, 10);
    assert Power(10, 20) == 10 * Power(10, 19);
    assert Power(16, 2) == 256;
    PowerAdd(16, 2, 2);
    PowerAdd(16, 4, 4);
    PowerAdd(16, 8, 8);
  }

  /** 64-bit values and the terminating NUL fit into the 32-byte reserve. */
  lemma {:induction false} NumbersFit(v: int)
    ensures -0x8000_0000_0000_0000 <= v < 0x1_0000_0000_0000_0000 ==> |Decimal(v)| <= 20
    ensures 0 <= v < 0x1_0000_0000_0000_0000 ==> |Hex(v)| <= 18
  {
    hide Power;
    Powers();
    if -0x8000_0000_0000_0000 <= v < 0 {
      DigitsFit(Abs(v), 10, 19);
    } else if 0 <= v < 0x1_0000_0000_0000_0000 {
      DigitsFit(v, 10, 20);
      DigitsFit(v, 16, 16);
    }
  }
}

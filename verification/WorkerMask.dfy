/**
  The free-worker mask of Dispatcher (thread/src/ThreadPool.cc): a 64-bit word, one bit a worker.
  Words are naturals below 2^64, with the shifts and bit operations of the code written out.
 */
module WorkerMask {
  import opened Modulus

  function Pow2(n: nat): (p: nat)
    ensures 1 <= p
  {
    if n == 0 then 1 else 2 * Pow2(n - 1)
  }

  // Bit i of x.
  predicate Bit(x: nat, i: nat) {
    if i == 0 then x % 2 == 1 else Bit(x / 2, i - 1)
  }

  // x & y and x | y, on words of `width` bits.
  function And(x: nat, y: nat, width: nat): nat {
    if width == 0 then 0
    else (if x % 2 == 1 && y % 2 == 1 then 1 else 0) + 2 * And(x / 2, y / 2, width - 1)
  }

  function Or(x: nat, y: nat, width: nat): nat {
    if width == 0 then 0
    else (if x % 2 == 1 || y % 2 == 1 then 1 else 0) + 2 * Or(x / 2, y / 2, width - 1)
  }

  // ~x, x << k and x >> k on unsigned words, and the value of -x as an unsigned word.
  function Not(x: nat, width: nat): nat
    requires x < Pow2(width)
  {
    Pow2(width) - 1 - x
  }

  function Negate(x: nat, width: nat): nat { (Not(x % Pow2(width), width) + 1) % Pow2(width) }

  function ShiftLeft(x: nat, k: nat, width: nat): nat { (x * Pow2(k)) % Pow2(width) }

  function ShiftRight(x: nat, k: nat): nat { Div(x, Pow2(k)) }

  // ----- Bits of the results -----

  lemma {:induction false} BitAnd(x: nat, y: nat, width: nat, i: nat)
    ensures Bit(And(x, y, width), i) <==> i < width && Bit(x, i) && Bit(y, i)
    decreases width
  {
    if width == 0 {
      ZeroBits(i);
    } else {
      var a := And(x / 2, y / 2, width - 1);
      assert And(x, y, width) / 2 == a;
      if i > 0 { BitAnd(x / 2, y / 2, width - 1, i - 1); }
    }
  }

  lemma {:induction false} BitOr(x: nat, y: nat, width: nat, i: nat)
    ensures Bit(Or(x, y, width), i) <==> i < width && (Bit(x, i) || Bit(y, i))
    decreases width
  {
    if width == 0 {
      ZeroBits(i);
    } else {
      var a := Or(x / 2, y / 2, width - 1);
      assert Or(x, y, width) / 2 == a;
      if i > 0 { BitOr(x / 2, y / 2, width - 1, i - 1); }
    }
  }

  lemma {:induction false} ZeroBits(i: nat)
    ensures !Bit(0, i)
  {
    if i > 0 { ZeroBits(i - 1); }
  }

  lemma {:induction false} BitPow2(n: nat, i: nat)
    ensures Bit(Pow2(n), i) <==> i == n
  {
    if n == 0 {
      if i > 0 { ZeroBits(i - 1); }
    } else {
      assert Pow2(n) / 2 == Pow2(n - 1);
      if i > 0 { BitPow2(n - 1, i - 1); }
    }
  }

  lemma {:induction false} BitNot(x: nat, width: nat, i: nat)
    requires x < Pow2(width)
    ensures Bit(Not(x, width), i) <==> i < width && !Bit(x, i)
    decreases width
  {
    if width == 0 {
      ZeroBits(i);
    } else {
      assert Not(x, width) / 2 == Not(x / 2, width - 1);
      assert Not(x, width) % 2 == 1 - x % 2;
      if i > 0 { BitNot(x / 2, width - 1, i - 1); }
    }
  }

  lemma {:induction false} AndBound(x: nat, y: nat, width: nat)
    ensures And(x, y, width) < Pow2(width) && Or(x, y, width) < Pow2(width)
  {
    if width > 0 { AndBound(x / 2, y / 2, width - 1); }
  }

  lemma {:induction false} HighBits(x: nat, n: nat, i: nat)
    requires x < Pow2(n) && n <= i
    ensures !Bit(x, i)
    decreases n
  {
    if n == 0 { ZeroBits(i); } else { HighBits(x / 2, n - 1, i - 1); }
  }

  // The word whose bits are exactly those below n.
  lemma {:induction false} BitOnes(n: nat, i: nat)
    ensures Bit(Pow2(n) - 1, i) <==> i < n
  {
    if n == 0 {
      ZeroBits(i);
    } else {
      assert (Pow2(n) - 1) / 2 == Pow2(n - 1) - 1;
      if i > 0 { BitOnes(n - 1, i - 1); }
    }
  }

  // ----- sel & (~sel + 1) -----

  // The lowest set bit.
  function Lowest(x: nat): (c: nat)
    requires 0 < x
    ensures Bit(x, c) && forall i :: 0 <= i < c ==> !Bit(x, i)
  {
    if x % 2 == 1 then 0
    else
      var c := Lowest(x / 2) + 1;
      assert forall i :: 0 < i < c ==> Bit(x, i) == Bit(x / 2, i - 1);
      c
  }

  lemma {:induction false} AndNot(x: nat, width: nat)
    requires x < Pow2(width)
    ensures And(x, Not(x, width), width) == 0
  {
    if width > 0 {
      assert Not(x, width) / 2 == Not(x / 2, width - 1) && Not(x, width) % 2 == 1 - x % 2;
      AndNot(x / 2, width - 1);
    }
  }

  lemma NegateIs(x: nat, width: nat)
    requires 0 < x < Pow2(width)
    ensures Negate(x, width) == Pow2(width) - x
  {
    hide Pow2;
    var p := Pow2(width);
    Remainder(x, p, 0, x);
    Remainder(p - x, p, 0, p - x);
  }

  lemma {:induction false} IsolatesLowest(x: nat, width: nat)
    requires 0 < x < Pow2(width)
    ensures And(x, Negate(x, width), width) == Pow2(Lowest(x))
    decreases width
  {
    hide Negate, Bit;
    var y := x / 2;
    var p := Pow2(width - 1);
    NegateIs(x, width);
    if x % 2 == 1 {
      assert Negate(x, width) / 2 == Not(y, width - 1) && Negate(x, width) % 2 == 1;
      AndNot(y, width - 1);
    } else {
      NegateIs(y, width - 1);
      assert Negate(x, width) / 2 == Negate(y, width - 1) && Negate(x, width) % 2 == 0;
      IsolatesLowest(y, width - 1);
    }
  }

  lemma {:induction false} Pow2Mono(a: nat, b: nat)
    requires a < b
    ensures Pow2(a) < Pow2(b)
  {
    if a + 1 < b { Pow2Mono(a, b - 1); }
  }

  lemma {:induction false} Pow2Add(a: nat, b: nat)
    ensures Pow2(a + b) == Pow2(a) * Pow2(b)
  {
    if a > 0 {
      Pow2Add(a - 1, b);
      MulAssoc(2, Pow2(a - 1), Pow2(b));
    }
  }

  const WORD: nat := 64

  /** The search loop: -1 if no worker is free, otherwise the lowest free worker. */
  method SelectFreeWorker(freeWorkerBit: nat, workerNum: nat) returns (c: int)
    requires freeWorkerBit < Pow2(WORD) && workerNum <= WORD
    requires 0 < freeWorkerBit ==> Lowest(freeWorkerBit) < workerNum
    ensures c == -1 <==> freeWorkerBit == 0
    ensures freeWorkerBit > 0 ==>
              c == Lowest(freeWorkerBit) < workerNum && Bit(freeWorkerBit, c) && forall i :: 0 <= i < c ==> !Bit(freeWorkerBit, i)
  {
    hide And, Negate, Bit;
    c := -1;
    var sel := And(freeWorkerBit, Negate(freeWorkerBit, WORD), WORD);
    if freeWorkerBit == 0 {
      ZeroAnd(Negate(0, WORD), WORD);
    } else {
      IsolatesLowest(freeWorkerBit, WORD);
    }
    if sel != 0 {
      ghost var low := Lowest(freeWorkerBit);
      var s, e := 0, workerNum - 1;
      while s <= e
        invariant 0 <= s <= low <= e < workerNum && sel == Pow2(low) && c == -1
        decreases e - s
      {
        var m := (s + e) / 2;
        var i := Pow2(m);
        if m < low { Pow2Mono(m, low); } else if low < m { Pow2Mono(low, m); }
        if i == sel {
          c := m;
          break;
        } else if i < sel {
          s := m + 1;
        } else {
          e := m - 1;
        }
      }
    }
  }

  lemma {:induction false} ZeroAnd(y: nat, width: nat)
    ensures And(0, y, width) == 0
  {
    if width > 0 { ZeroAnd(y / 2, width - 1); }
  }

  // ----- The constructor's mask -----

  function FirstMask(workerNum: nat): nat
    requires 1 <= workerNum <= WORD
  {
    ShiftRight(ShiftLeft(Not(0, WORD), WORD - workerNum, WORD), WORD - workerNum)
  }

  lemma {:induction false} FirstMaskIs(workerNum: nat)
    requires 1 <= workerNum <= WORD
    ensures FirstMask(workerNum) == Pow2(workerNum) - 1
  {
    hide Pow2;
    var k := WORD - workerNum;
    var p, q, w := Pow2(k), Pow2(workerNum), Pow2(WORD);
    Pow2Add(k, workerNum);
    Shifted(p, q, w);
    assert Not(0, WORD) == w - 1;
  }

  lemma Shifted(p: nat, q: nat, w: nat)
    requires 1 <= p && 1 <= q && w == p * q
    ensures ((w - 1) * p) % w / p == q - 1
  {
    assert w - p == p * (q - 1);
    assert p * (q - 1) >= 0;
    assert (w - 1) * p == w * (p - 1) + (w - p);
    Remainder((w - 1) * p, w, p - 1, w - p);
    Remainder(w - p, p, q - 1, 0);
  }

  // ----- 1 << id is an int: setting and clearing a worker's bit -----

  // The value of the int 1 << id after its conversion to unsigned long long: bit 31 is the sign
  // of an int and is extended.
  function IntBit(id: nat): nat
    requires id < 32
  {
    if id < 31 then Pow2(id) else (Pow2Mono(31, WORD); Pow2(WORD) - Pow2(31))
  }

  // freeWorkerBit_ | (1 << id) and freeWorkerBit_ & ~(1 << id).
  function SetBit(mask: nat, id: nat): (r: nat)
    requires id < 32
  {
    Or(mask, IntBit(id), WORD)
  }

  function ClearBit(mask: nat, id: nat): (r: nat)
    requires id < 32
  {
    IntBitFits(id);
    And(mask, Not(IntBit(id), WORD), WORD)
  }

  lemma IntBitFits(id: nat)
    requires id < 32
    ensures IntBit(id) < Pow2(WORD)
  {
    hide Pow2;
    if id < 31 { Pow2Mono(id, WORD); }
    Pow2Mono(31, WORD);
  }

  // Bits 31 to 63 go together once worker 31 exists.
  lemma BitIntBit(id: nat, i: nat)
    requires id < 32 && i < WORD
    ensures Bit(IntBit(id), i) <==> i == id || (id == 31 && 31 <= i)
  {
    hide Pow2, Bit;
    if id < 31 {
      BitPow2(id, i);
    } else {
      Pow2Mono(31, WORD);
      Pow2Mono(0, 31);
      assert Not(Pow2(31) - 1, WORD) == Pow2(WORD) - Pow2(31);
      BitNot(Pow2(31) - 1, WORD, i);
      BitOnes(31, i);
    }
  }

  /** The int shift names exactly one worker's bit if and only if the id is at most 30. */
  lemma {:induction false} IntBitIsOneBit(id: nat)
    requires id < 32
    ensures IntBit(id) == Pow2(id) <==> id <= 30
  {
    hide Pow2, Bit;
    if id == 31 {
      BitIntBit(31, 32);
      BitPow2(31, 32);
    }
  }

  // ----- The mask stands for the set of free workers -----

  // With at most 31 workers the bits above the workers are clear; with 32 they follow bit 31.
  ghost predicate Stands(mask: nat, free: seq<bool>) {
    && 1 <= |free| <= 32 && mask < Pow2(WORD)
    && (forall i :: 0 <= i < |free| ==> (Bit(mask, i) <==> free[i]))
    && (forall i :: |free| <= i < WORD && Bit(mask, i) ==> |free| == 32 && free[31])
  }

  lemma FirstStands(n: nat)
    requires 1 <= n <= 32
    ensures Stands(FirstMask(n), seq(n, i => true))
  {
    hide Pow2, Bit, FirstMask;
    FirstMaskIs(n);
    Pow2Mono(n, WORD);
    forall i: nat
      ensures Bit(FirstMask(n), i) <==> i < n
    {
      BitOnes(n, i);
    }
  }

  lemma {:induction false} SetStands(mask: nat, free: seq<bool>, id: nat)
    requires Stands(mask, free) && id < |free|
    ensures Stands(SetBit(mask, id), free[id := true])
  {
    hide Pow2, Bit, Or, IntBit;
    var r := SetBit(mask, id);
    AndBound(mask, IntBit(id), WORD);
    forall i | 0 <= i < WORD
      ensures Bit(r, i) <==> Bit(mask, i) || i == id || (id == 31 && 31 <= i)
    {
      BitOr(mask, IntBit(id), WORD, i);
      BitIntBit(id, i);
    }
  }

  lemma {:induction false} ClearStands(mask: nat, free: seq<bool>, id: nat)
    requires Stands(mask, free) && id < |free|
    ensures Stands(ClearBit(mask, id), free[id := false])
  {
    hide Pow2, Bit, And, IntBit, Not;
    var r := ClearBit(mask, id);
    IntBitFits(id);
    AndBound(mask, Not(IntBit(id), WORD), WORD);
    forall i | 0 <= i < WORD
      ensures Bit(r, i) <==> Bit(mask, i) && !(i == id || (id == 31 && 31 <= i))
    {
      BitAnd(mask, Not(IntBit(id), WORD), WORD, i);
      BitNot(IntBit(id), WORD, i);
      BitIntBit(id, i);
    }
  }

  // The first free worker, or |free|.
  function FirstFree(free: seq<bool>): (c: nat)
    ensures c <= |free| && (c < |free| ==> free[c]) && forall i :: 0 <= i < c ==> !free[i]
  {
    if free == [] || free[0] then 0
    else
      var c := FirstFree(free[1..]) + 1;
      assert forall i :: 0 < i < c ==> free[i] == free[1..][i - 1];
      c
  }

  /** For up to 32 workers, the lowest bit of the mask is the first free worker. */
  lemma {:induction false} LowestIsFirstFree(mask: nat, free: seq<bool>)
    requires Stands(mask, free)
    ensures mask == 0 <==> FirstFree(free) == |free|
    ensures mask > 0 ==> Lowest(mask) == FirstFree(free)
  {
    hide Pow2, Bit;
    var c := FirstFree(free);
    if mask == 0 {
      if c < |free| { ZeroBits(c); }
    } else {
      var low := Lowest(mask);
      if low >= WORD { HighBits(mask, WORD, low); }
    }
  }
}

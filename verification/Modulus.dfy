/** Products, quotients and remainders with variable factors and divisors. */
module Modulus {

  lemma SmallMultiple(size: nat, k: int)
    requires 0 <= size * k < size
    ensures k == 0
  {
  }

  lemma Remainder(n: nat, size: nat, q: int, r: nat)
    requires 1 <= size && n == size * q + r && r < size
    ensures n % size == r && n / size == q
  {
    assert n == size * (n / size) + n % size;
    assert n % size - r == size * (q - n / size);
    if n % size >= r {
      SmallMultiple(size, q - n / size);
    } else {
      assert size * (n / size - q) == r - n % size;
      SmallMultiple(size, n / size - q);
    }
  }

  lemma MulAssoc(a: nat, b: nat, c: nat)
    ensures a * (b * c) == (a * b) * c
  {
  }

  function Div(x: nat, d: nat): nat
    requires 1 <= d
  {
    x / d
  }
}

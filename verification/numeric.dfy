/**
  Fixed-width integers of the Arduino sources and the small arithmetic
  helpers both smoothing classes rely on: the `constrain` macro, setting the
  lowest bit of a length, the `int16_t` temporary inside `swapdata`, the
  wrap-around of a `uint16_t` accumulator, and the rounding `divide` macro.
 */
module Numeric {

  /** `uint8_t`, `uint16_t` and `int16_t`. */
  type uint8 = x: int | 0 <= x < 0x100
  type uint16 = x: int | 0 <= x < 0x1_0000
  type int16 = x: int | -0x8000 <= x < 0x8000

  const UINT16_MODULUS := 0x1_0000

  /** Distance between two integers on the number line. */
  function Dist(a: int, b: int): nat {
    if a <= b then b - a else a - b
  }

  /** The smaller and the larger of two integers. */
  function Least(a: int, b: int): int {
    if a <= b then a else b
  }

  function Greatest(a: int, b: int): int {
    if a <= b then b else a
  }

  /** Arduino's `constrain(x, lo, hi)`: the point of [lo, hi] nearest to x. */
  function Clamp(x: int, lo: int, hi: int): (r: int)
    requires lo <= hi
    ensures lo <= r <= hi
    ensures forall y :: lo <= y <= hi ==> Dist(r, x) <= Dist(y, x)
    ensures lo <= x <= hi ==> r == x
  {
    if x < lo then lo else if x > hi then hi else x
  }

  /** `n | 1` on an unsigned byte: the lowest bit is cleared and set again,
      so an even value is raised by one and an odd value is kept. */
  function SetLowBit(n: uint8): (r: uint8)
    ensures r % 2 == 1
    ensures n % 2 == 0 ==> r == n + 1
    ensures n % 2 == 1 ==> r == n
  {
    n - n % 2 + 1
  }

  /** `x | 1` on a byte adds one to an even byte and keeps an odd one. */
  lemma OrOneBits(x: bv8)
    ensures x & 1 == 0 ==> x | 1 == x + 1
    ensures x & 1 == 1 ==> x | 1 == x
  {
  }

  /** The lowest bit of a byte is its parity, and incrementing an even byte
      does not wrap. */
  lemma LowBitParity(x: bv8)
    ensures (x & 1 == 0) == ((x as int) % 2 == 0)
    ensures x & 1 == 0 ==> (x + 1) as int == x as int + 1
  {
  }

  /** The arithmetic form agrees with the bitwise `n | 1` on every byte. */
  lemma SetLowBitIsOr(n: uint8)
    ensures SetLowBit(n) == ((n as bv8) | 1) as int
  {
    var x := n as bv8;
    assert x as int == n;
    OrOneBits(x);
    LowBitParity(x);
  }

  /** `int16_t t = a` for a `uint16_t` a: two's-complement reinterpretation. */
  function ToInt16(x: uint16): int16 {
    if x < 0x8000 then x else x - UINT16_MODULUS
  }

  /** Assigning an `int16_t` (or any integer) to a `uint16_t`: reduction
      modulo 2^16. */
  function ToUint16(t: int): uint16 {
    t % UINT16_MODULUS
  }

  /** A value the type can hold is stored unchanged. */
  lemma ToUint16Small(t: int)
    ensures 0 <= t < UINT16_MODULUS ==> ToUint16(t) == t
  {
  }

  /** The `int16_t` temporary loses nothing: every `uint16_t` value comes
      back unchanged, and every `int16_t` value survives the opposite trip. */
  lemma Int16RoundTrip(x: uint16, t: int16)
    ensures ToUint16(ToInt16(x)) == x
    ensures ToInt16(ToUint16(t)) == t
  {
  }

  /** Multiplying by a non-negative factor keeps the order. */
  lemma MulMonotone(k: nat, x: int, y: int)
    requires x <= y
    ensures k * x <= k * y
  {
    assert k * y - k * x == k * (y - x);
  }

  /** One more summand: (n + 1) * x == n * x + x. */
  lemma MulSucc(n: int, x: int)
    ensures (n + 1) * x == n * x + x
  {
  }

  /** Multiplying by a non-negative factor k keeps a strict order at a
      distance of at least k. */
  lemma MulStep(k: nat, x: int, y: int)
    requires x < y
    ensures k * x + k <= k * y
  {
    MulMonotone(k, x + 1, y);
    assert k * (x + 1) == k * x + k;
  }

  /** The `divide(a, b)` macro, `(uint16_t)round((float)a / (float)b)`, on
      non-negative operands: the exact quotient rounded half up. The
      quotient never exceeds the dividend, so it fits wherever the dividend
      does. */
  function Divide(a: nat, b: nat): (q: nat)
    requires 1 <= b
    ensures q <= a
  {
    var q := (2 * a + b) / (2 * b);
    assert q <= a by {
      if q > a {
        MulMonotone(2 * b, a + 1, q);
        MulMonotone(a, 1, b);
      }
    }
    q
  }

  /** Rounding half up: twice the dividend plus the divisor lies in
      [2bq, 2bq + 2b), that is, a/b lies in [q - 1/2, q + 1/2). */
  lemma DivideBracket(a: nat, b: nat)
    requires 1 <= b
    ensures 2 * b * Divide(a, b) <= 2 * a + b < 2 * b * Divide(a, b) + 2 * b
  {
  }

  /** Two quotients that both satisfy the round-half-up bracket are equal,
      so `Divide` is the only function meeting its contract. */
  lemma DivideUnique(a: nat, b: nat, q: nat)
    requires 1 <= b
    requires 2 * b * q <= 2 * a + b < 2 * b * q + 2 * b
    ensures q == Divide(a, b)
  {
    var d := Divide(a, b);
    DivideBracket(a, b);
    if q < d {
      MulStep(2 * b, q, d);
    } else if q > d {
      MulStep(2 * b, d, q);
    }
  }

  /** A larger dividend never gives a smaller rounded quotient. */
  lemma DivideMonotone(a: nat, a': nat, b: nat)
    requires 1 <= b && a <= a'
    ensures Divide(a, b) <= Divide(a', b)
  {
    var q, q' := Divide(a, b), Divide(a', b);
    DivideBracket(a, b);
    DivideBracket(a', b);
    if q' < q {
      MulStep(2 * b, q', q);
    }
  }

  /** A quotient of a sum bracketed by b*lo and b*hi lies in [lo, hi]: the
      rounded mean of values in a range stays in that range. */
  lemma DivideWithin(a: nat, b: nat, lo: nat, hi: nat)
    requires 1 <= b
    requires b * lo <= a <= b * hi
    ensures lo <= Divide(a, b) <= hi
  {
    var q := Divide(a, b);
    DivideBracket(a, b);
    assert 2 * b * lo == 2 * (b * lo) && 2 * b * hi == 2 * (b * hi);
    if q < lo {
      MulStep(2 * b, q, lo);
    }
    if q > hi {
      MulStep(2 * b, hi, q);
    }
  }
}

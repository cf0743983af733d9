/**
  The parameter limits shared by both smoothing classes (the `#define`s of
  the older class and the `Limits` enum of the newer one carry the same
  numbers) and the clamping rules the constructors and setters apply.
 */
module Limits {
  import opened Numeric

  const FILTER_MIN: uint16 := 0x0000
  const FILTER_MAX: uint16 := 0xFFFF
  const BUFFERLEN_MIN: uint8 := 3
  const BUFFERLEN_MAX: uint8 := 11
  const BUFFERLEN_DFT: uint8 := 5
  const DELAY_MIN: uint8 := 0
  const DELAY_MAX: uint8 := 100
  const DELAY_DFT: uint8 := 20

  /** `constrain(n | 1, BUFFERLEN_MIN, BUFFERLEN_MAX)`: a requested batch
      length forced odd, then limited. The valid lengths are exactly the odd
      numbers of [3, 11], and those are the ones kept unchanged. */
  function BufferLen(n: uint8): (r: uint8)
    ensures r % 2 == 1 && BUFFERLEN_MIN <= r <= BUFFERLEN_MAX
    ensures r == n <==> (n % 2 == 1 && BUFFERLEN_MIN <= n <= BUFFERLEN_MAX)
    ensures n % 2 == 0 && BUFFERLEN_MIN <= n < BUFFERLEN_MAX ==> r == n + 1
    ensures n < BUFFERLEN_MIN ==> r == BUFFERLEN_MIN
    ensures n > BUFFERLEN_MAX ==> r == BUFFERLEN_MAX
  {
    Clamp(SetLowBit(n), BUFFERLEN_MIN, BUFFERLEN_MAX)
  }

  /** `constrain(d, DELAY_MIN, DELAY_MAX)`: a settle delay of at most 100 ms;
      an allowed delay is kept, a longer one becomes the maximum. */
  function Delay(d: uint8): (r: uint8)
    ensures r <= DELAY_MAX
    ensures r == d <==> d <= DELAY_MAX
    ensures d > DELAY_MAX ==> r == DELAY_MAX
  {
    Clamp(d, DELAY_MIN, DELAY_MAX)
  }

  /** `constrain(v, FILTER_MIN, FILTER_MAX)` on a `uint16_t`: the limits are
      the whole range of the type, so every bound is stored as given. */
  function FilterValue(v: uint16): (r: uint16)
    ensures r == v
  {
    Clamp(v, FILTER_MIN, FILTER_MAX)
  }

  /** Re-applying the length and delay rules to their own results changes
      nothing, and the documented defaults are valid settings. */
  lemma ClampingIdempotent(n: uint8, d: uint8)
    ensures BufferLen(BufferLen(n)) == BufferLen(n)
    ensures Delay(Delay(d)) == Delay(d)
    ensures BufferLen(BUFFERLEN_DFT) == BUFFERLEN_DFT
    ensures Delay(DELAY_DFT) == DELAY_DFT
  {
  }
}

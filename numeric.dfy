/** The repository's decimal rounding (`math.Round(x*scale)/scale`) and
    truncating float-to-integer conversion, on exact reals. */
module Numeric {

  /** Go's `math.Round`: the nearest integer, halves rounded away from zero. */
  function RoundHalfAway(y: real): (k: int)
    ensures y >= 0.0 ==> k as real - 0.5 <= y < k as real + 0.5
    ensures y < 0.0 ==> k as real - 0.5 < y <= k as real + 0.5
  {
    if y >= 0.0 then (y + 0.5).Floor else -((-y + 0.5).Floor)
  }

  /** Go's `int64(f)` conversion: truncation toward zero. */
  function TruncToward0(y: real): (k: int)
    ensures 0.0 <= y ==> 0 <= k && k as real <= y < k as real + 1.0
    ensures y < 0.0 ==> k <= 0 && k as real - 1.0 < y <= k as real
  {
    if y >= 0.0 then y.Floor else -((-y).Floor)
  }

  /** `formatPrice` / `formatPercent`: rounding to 2 decimals. */
  function Round2(x: real): (r: real)
    ensures -1.0 / 200.0 <= r - x <= 1.0 / 200.0
    ensures RoundHalfAway(x * 100.0) as real == r * 100.0
  {
    RoundHalfAway(x * 100.0) as real / 100.0
  }

  /** `formatMACD`: rounding to 4 decimals. */
  function Round4(x: real): (r: real)
    ensures -1.0 / 20000.0 <= r - x <= 1.0 / 20000.0
    ensures RoundHalfAway(x * 10000.0) as real == r * 10000.0
  {
    RoundHalfAway(x * 10000.0) as real / 10000.0
  }

  /** Rounding an integer gives it back. */
  lemma RoundOfInteger(k: int)
    ensures RoundHalfAway(k as real) == k
  {
  }

  /** A value already on the 2-decimal grid is left as it is: rounding twice is
      rounding once. */
  lemma Round2Idempotent(x: real)
    ensures Round2(Round2(x)) == Round2(x)
  {
    var k := RoundHalfAway(x * 100.0);
    assert Round2(x) * 100.0 == k as real;
    RoundOfInteger(k);
  }

  /** `math.Round` never reverses the order of two values. */
  lemma RoundHalfAwayMonotone(x: real, y: real)
    requires x <= y
    ensures RoundHalfAway(x) <= RoundHalfAway(y)
  {
  }

  /** Rounding to 2 decimals preserves order. */
  lemma Round2Monotone(x: real, y: real)
    requires x <= y
    ensures Round2(x) <= Round2(y)
  {
    RoundHalfAwayMonotone(x * 100.0, y * 100.0);
  }

  /** Rounding is symmetric about zero (halves go away from zero on both sides). */
  lemma Round2Odd(x: real)
    ensures Round2(-x) == -Round2(x)
  {
    var y := x * 100.0;
    assert -x * 100.0 == -y;
    if y > 0.0 {
      assert RoundHalfAway(-y) == -RoundHalfAway(y);
    } else if y < 0.0 {
      assert RoundHalfAway(-y) == -RoundHalfAway(y);
    }
  }
}

/**
 * Rounding of a monetary or percentage value to two decimal places.
 *
 * Values are exact reals, so the rounding is done on the exact decimal
 * value: the hundredths are kept, and a value exactly half-way between two
 * hundredths goes to the one whose last digit is even.
 */
module Rounding {

  /** `x` is a whole number of hundredths. */
  predicate IsCents(x: real) {
    (x * 100.0).Floor as real == x * 100.0
  }

  /** The whole number of hundredths nearest to `scaled`, ties to even. */
  function NearestEven(scaled: real): (k: int)
    ensures -0.5 <= k as real - scaled <= 0.5
  {
    var n := scaled.Floor;
    var frac := scaled - n as real;
    if frac < 0.5 then n
    else if frac > 0.5 then n + 1
    else if n % 2 == 0 then n
    else n + 1
  }

  /** `round(x, 2)`: the nearest whole number of hundredths, ties to even. */
  function Round2(x: real): (r: real)
    ensures IsCents(r)
    ensures -0.005 <= r - x <= 0.005
  {
    var k := NearestEven(x * 100.0);
    var r := k as real / 100.0;
    assert r * 100.0 == k as real;
    assert (k as real).Floor == k;
    r
  }

  /** A value that already is a whole number of hundredths is left as it is. */
  lemma Round2OfCents(x: real)
    requires IsCents(x)
    ensures Round2(x) == x
  {
    var n := (x * 100.0).Floor;
    assert NearestEven(x * 100.0) == n;
  }

  /** Rounding twice is rounding once. */
  lemma Round2Idempotent(x: real)
    ensures Round2(Round2(x)) == Round2(x)
  {
    Round2OfCents(Round2(x));
  }

  /** Rounding never reverses the order of two values. */
  lemma Round2Monotone(x: real, y: real)
    requires x <= y
    ensures Round2(x) <= Round2(y)
  {
    var nx, ny := (x * 100.0).Floor, (y * 100.0).Floor;
    assert nx <= ny;
    assert NearestEven(x * 100.0) <= NearestEven(y * 100.0);
  }

  /** Half-way values go to the even hundredth, up or down. */
  /**
   * A value exactly half-way between the hundredths k and k + 1 rounds to
   * whichever of the two is even, for every integer k.
   */
  lemma Round2Tie(k: int)
    ensures Round2((k as real + 0.5) / 100.0) == (if k % 2 == 0 then k else k + 1) as real / 100.0
  {
    var x := (k as real + 0.5) / 100.0;
    assert x * 100.0 == k as real + 0.5;
    assert (x * 100.0).Floor == k;
  }

  lemma Round2TiesToEven()
    ensures Round2(0.125) == 0.12
    ensures Round2(0.135) == 0.14
    ensures Round2(-0.125) == -0.12
  {
    Round2Tie(12);
    Round2Tie(13);
    Round2Tie(-13);
  }
}

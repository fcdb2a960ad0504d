/**
 * The rounding the core applies to ratios, over exact rationals `num / den`
 * (an idealisation of the IEEE arithmetic of the source). Every bound below has the
 * form `den * (2 * r - 1) <= 2 * num < den * (2 * r + 1)`: `r` is within one half
 * of `num / den`.
 */
module JsNumber {

  /** `Math.round(num / den)`: the nearest integer, halves rounded up. */
  function RoundHalfUp(num: int, den: int): (r: int)
    requires den > 0
    ensures den * (2 * r - 1) <= 2 * num < den * (2 * r + 1)
  {
    var q := (2 * num + den) / (2 * den);
    var m := (2 * num + den) % (2 * den);
    assert 2 * num + den == (2 * den) * q + m && 0 <= m < 2 * den;
    assert den * (2 * q - 1) == (2 * den) * q - den;
    assert den * (2 * q + 1) == (2 * den) * q + den;
    q
  }

  /** `Number((num / den).toFixed(d))` times `scale == 10^d`: the nearest multiple
      of `1 / scale`, halves rounded away from zero (toFixed rounds the magnitude). */
  function ToFixedScaled(num: int, den: int, scale: nat): (r: int)
    requires den > 0 && scale > 0
    ensures num >= 0 ==> den * (2 * r - 1) <= 2 * (scale * num) < den * (2 * r + 1)
    ensures num < 0 ==> den * (2 * r - 1) < 2 * (scale * num) <= den * (2 * r + 1)
    ensures num >= 0 ==> r >= 0
    ensures num < 0 ==> r <= 0
  {
    if num >= 0 then
      var r := RoundHalfUp(scale * num, den);
      assert scale * num >= 0 by { MulLeMono(scale, 0, num); }
      assert r >= 0 by { if r < 0 { MulLeMono(den, 2 * r + 1, 0); } }
      r
    else
      var q := RoundHalfUp(scale * -num, den);
      assert scale * -num == -(scale * num);
      assert q >= 0 by { MulLeMono(scale, 0, -num); if q < 0 { MulLeMono(den, 2 * q + 1, 0); } }
      assert den * (2 * -q - 1) == -(den * (2 * q + 1));
      assert den * (2 * -q + 1) == -(den * (2 * q - 1));
      -q
  }

  /** A win rate in percent: `Math.round(wins / total * 100)`, or 0 when `total <= 0`. */
  function RoundPercent(wins: int, total: int): (r: int)
    ensures total <= 0 ==> r == 0
    ensures total > 0 ==> total * (2 * r - 1) <= 200 * wins < total * (2 * r + 1)
    ensures 0 <= wins <= total ==> 0 <= r <= 100
  {
    if total > 0 then
      var r := RoundHalfUp(100 * wins, total);
      assert 0 <= wins <= total ==> 0 <= r <= 100 by {
        if 0 <= wins <= total {
          PercentBounds(wins, total, r);
        }
      }
      r
    else 0
  }

  /** The nearest integer to `100 * wins / total` lies in [0, 100] when `0 <= wins <= total`. */
  lemma PercentBounds(wins: int, total: int, r: int)
    requires 0 <= wins <= total && total > 0
    requires total * (2 * r - 1) <= 200 * wins < total * (2 * r + 1)
    ensures 0 <= r <= 100
  {
    if r < 0 {
      MulLeMono(total, 2 * r + 1, 0);
    }
    if r > 100 {
      MulLeMono(total, 200, 2 * r - 1);
    }
  }

  /** Multiplying by a non-negative factor keeps the order. */
  lemma MulLeMono(a: int, b: int, c: int)
    requires a >= 0 && b <= c
    ensures a * b <= a * c
  {
    var d := c - b;
    assert a * c == a * b + a * d;
    assert a * d >= 0;
  }

  /** A positive factor can be cancelled from a strict inequality. */
  lemma MulLtCancel(a: int, b: int, c: int)
    requires a > 0 && a * b < a * c
    ensures b < c
  {
    if c <= b {
      MulLeMono(a, c, b);
    }
  }

  /** Rounding to the nearest integer has one answer: two integers within half a unit of the
      same ratio are equal. */
  lemma RoundUnique(num: int, den: int, r1: int, r2: int)
    requires den > 0
    requires den * (2 * r1 - 1) <= 2 * num < den * (2 * r1 + 1)
    requires den * (2 * r2 - 1) <= 2 * num < den * (2 * r2 + 1)
    ensures r1 == r2
  {
    if r1 < r2 {
      MulLeMono(den, 2 * r1 + 1, 2 * r2 - 1);
    } else if r2 < r1 {
      MulLeMono(den, 2 * r2 + 1, 2 * r1 - 1);
    }
  }
}

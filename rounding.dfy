/** PHP's `round($x, 1)` applied to an exact ratio, computed without floating
    point: every "rounded to one decimal" value of the statistics engine is an
    integer number of tenths (66.7 is 667). PHP rounds halves away from zero. */
module Rounding {

  /** `round(num / den, 1)` in tenths, for a positive denominator. */
  function RoundTenths(num: int, den: int): (r: int)
    requires den > 0
    // r is the nearest tenth to num/den; a tie goes away from zero
    ensures num >= 0 ==> r >= 0 && den * (2 * r - 1) <= 20 * num < den * (2 * r + 1)
    ensures num < 0 ==> r <= 0 && den * (2 * r - 1) < 20 * num <= den * (2 * r + 1)
  {
    if num >= 0 then
      DivBounds(20 * num + den, 2 * den);
      (20 * num + den) / (2 * den)
    else
      DivBounds(-20 * num + den, 2 * den);
      -((-20 * num + den) / (2 * den))
  }

  /** Euclidean division brackets its dividend. */
  lemma DivBounds(n: int, d: int)
    requires n >= 0 && d > 0
    ensures d * (n / d) <= n < d * (n / d) + d
    ensures n / d >= 0
  {
  }

  /** Multiplying by a positive factor keeps a strict order. */
  lemma MulStrict(d: int, x: int, y: int)
    requires d > 0 && x < y
    ensures d * x < d * y
  {
    var k := y - x;
    assert d * y == d * x + d * k;
  }

  /** Multiplying by a non-negative factor keeps a weak order. */
  lemma MulWeak(d: int, x: int, y: int)
    requires d >= 0 && x <= y
    ensures d * x <= d * y
  {
    var k := y - x;
    assert d * y == d * x + d * k;
  }

  /** The rounded tenths of a ratio between 0 and 1, scaled by `scale`, lie
      between 0 and 10 * scale: a made/attempted ratio times 100 is a
      percentage between 0.0 and 100.0. */
  lemma RoundTenthsOfFraction(num: int, den: int, scale: nat)
    requires den > 0
    ensures 0 <= num <= den ==> 0 <= RoundTenths(scale * num, den) <= 10 * scale
  {
    if num < 0 || num > den {
      return;
    }
    var r := RoundTenths(scale * num, den);
    MulWeak(20 * scale, num, den);
    assert 20 * (scale * num) == (20 * scale) * num;
    assert den * (2 * r - 1) <= den * (20 * scale);
    if 2 * r - 1 > 20 * scale {
      MulStrict(den, 20 * scale, 2 * r - 1);
    }
  }
}

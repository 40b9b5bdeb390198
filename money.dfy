/**
 * Exact money arithmetic: minimum, maximum and PHP's `round($x, 2)`.
 * Amounts and rates are exact reals; PHP's IEEE doubles are not modelled.
 */
module Money {

  function Min(a: real, b: real): (m: real)
    ensures m <= a && m <= b
    ensures m == a || m == b
  {
    if a <= b then a else b
  }

  function Max(a: real, b: real): (m: real)
    ensures m >= a && m >= b
    ensures m == a || m == b
  {
    if a >= b then a else b
  }

  /** A whole number of cents. */
  predicate IsCents(r: real) {
    (r * 100.0).Floor as real == r * 100.0
  }

  /**
   * PHP's `round($x, 2)`: to the nearest cent, halves away from zero.
   */
  function Round2(x: real): (r: real)
    ensures IsCents(r)
    ensures x >= 0.0 ==> 0.0 <= r && x - 1.0 / 200.0 < r <= x + 1.0 / 200.0
    ensures x <= 0.0 ==> r <= 0.0 && x - 1.0 / 200.0 <= r < x + 1.0 / 200.0
  {
    if x >= 0.0 then
      var r := Cents(x * 100.0 + 0.5);
      assert x * 100.0 - 0.5 < r * 100.0 <= x * 100.0 + 0.5;
      r
    else
      var p := Cents((-x) * 100.0 + 0.5);
      NegateCents(p);
      assert (-x) * 100.0 - 0.5 < p * 100.0 <= (-x) * 100.0 + 0.5;
      -p
  }

  lemma NegateCents(r: real)
    requires IsCents(r)
    ensures IsCents(-r)
  {
    var k := (r * 100.0).Floor;
    assert (-r) * 100.0 == (-k) as real;
  }

  /** The whole number of cents below `c`, as an amount. */
  function Cents(c: real): (r: real)
    ensures IsCents(r)
    ensures c - 1.0 < r * 100.0 <= c
  {
    var k := c.Floor;
    assert (k as real / 100.0) * 100.0 == k as real;
    k as real / 100.0
  }

  /** Rounding never moves a value by more than half a cent. */
  lemma RoundError(x: real)
    ensures -1.0 / 200.0 <= Round2(x) - x <= 1.0 / 200.0
  {
  }

  /** A whole number of cents is left as it is. */
  lemma RoundCents(r: real)
    requires IsCents(r)
    ensures Round2(r) == r
  {
    var k := (r * 100.0).Floor;
    if r >= 0.0 {
      assert (r * 100.0 + 0.5).Floor == k;
    } else {
      assert ((-r) * 100.0 + 0.5).Floor == -k;
    }
  }

  /** Differences of whole cents are whole cents. */
  lemma CentsSubtract(a: real, b: real)
    requires IsCents(a) && IsCents(b)
    ensures IsCents(a - b)
  {
    var ka, kb := (a * 100.0).Floor, (b * 100.0).Floor;
    assert (a - b) * 100.0 == (ka - kb) as real;
  }

  /** Rounding is monotone. */
  lemma RoundMonotone(x: real, y: real)
    requires x <= y
    ensures Round2(x) <= Round2(y)
  {
    if x >= 0.0 {
      assert (x * 100.0 + 0.5).Floor <= (y * 100.0 + 0.5).Floor;
    } else if y < 0.0 {
      assert ((-y) * 100.0 + 0.5).Floor <= ((-x) * 100.0 + 0.5).Floor;
    }
  }
}

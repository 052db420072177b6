/** Rounding half up, as Spark's decimals do it: to the nearest multiple, halves away from zero. */
module Rounding {

  /** `num / den` rounded to an integer. */
  function HalfUp(num: int, den: int): int
    requires den > 0
  {
    if num >= 0 then (2 * num + den) / (2 * den) else -((den - 2 * num) / (2 * den))
  }

  /** `q` is the quotient rounded half up from above zero. */
  lemma QuotientIs(num: int, den: int, q: int)
    requires den > 0 && num >= 0
    ensures HalfUp(num, den) == q <==> (2 * q - 1) * den <= 2 * num < (2 * q + 1) * den
  {
    var n, d := 2 * num + den, 2 * den;
    var a := n / d;
    assert a * d <= n < (a + 1) * d;
    if a < q {
      assert (a + 1) * d <= q * d by { Scale(a + 1, q, d); }
    } else if q < a {
      assert (q + 1) * d <= a * d by { Scale(q + 1, a, d); }
    }
  }

  lemma Scale(x: int, y: int, d: int)
    requires x <= y && 0 <= d
    ensures x * d <= y * d
  {
  }

  lemma HalfUpIsOdd(num: int, den: int)
    requires den > 0
    ensures HalfUp(-num, den) == -HalfUp(num, den)
  {
    if num == 0 { QuotientIs(0, den, 0); }
  }

  /** The result is off by at most half a unit. */
  lemma HalfUpIsNear(num: int, den: int)
    requires den > 0
    ensures -den <= 2 * (HalfUp(num, den) * den - num) <= den
  {
    if num >= 0 {
      QuotientIs(num, den, HalfUp(num, den));
    } else {
      HalfUpIsOdd(num, den);
      QuotientIs(-num, den, HalfUp(-num, den));
    }
  }

  lemma HalfUpFixesMultiples(q: int, den: int)
    requires den > 0
    ensures HalfUp(q * den, den) == q
  {
    if q >= 0 {
      FixesPositive(q, den, q * den);
    } else {
      HalfUpIsOdd(q * den, den);
      FixesPositive(-q, den, -(q * den));
    }
  }

  lemma FixesPositive(q: int, den: int, num: int)
    requires den > 0 && q >= 0 && num == q * den
    ensures HalfUp(num, den) == q
  {
    QuotientIs(num, den, q);
  }

  lemma AtLeast(num: int, den: int, q: int)
    requires den > 0 && num >= 0 && q >= 0
    ensures HalfUp(num, den) >= q <==> 2 * num >= (2 * q - 1) * den
  {
    var a := HalfUp(num, den);
    QuotientIs(num, den, a);
    if a >= q { Scale(2 * q - 1, 2 * a - 1, den); } else { Scale(2 * a + 1, 2 * q - 1, den); }
  }

  /** More over less never rounds to less. */
  lemma HalfUpMonotone(num: int, den: int, num': int, den': int)
    requires 0 <= num <= num' && 0 < den' <= den
    ensures HalfUp(num, den) <= HalfUp(num', den')
  {
    var q := HalfUp(num, den);
    AtLeast(num, den, q);
    if q > 0 {
      Scale(den', den, 2 * q - 1);
      AtLeast(num', den', q);
    }
  }

  lemma SignOfHalfUp(num: int, den: int)
    requires den > 0
    ensures num >= 0 ==> HalfUp(num, den) >= 0
    ensures num <= 0 ==> HalfUp(num, den) <= 0
  {
    HalfUpIsOdd(num, den);
    if num >= 0 { AtLeast(num, den, 0); } else { AtLeast(-num, den, 0); }
  }

  /** The same for the values of either sign, over one denominator. */
  lemma HalfUpOrdered(num: int, num': int, den: int)
    requires num <= num' && 0 < den
    ensures HalfUp(num, den) <= HalfUp(num', den)
  {
    if 0 <= num {
      HalfUpMonotone(num, den, num', den);
    } else if num' < 0 {
      HalfUpIsOdd(num, den);
      HalfUpIsOdd(num', den);
      HalfUpMonotone(-num', den, -num, den);
    } else {
      SignOfHalfUp(num, den);
      SignOfHalfUp(num', den);
    }
  }
}

/**
 * Money as integer cents. Product prices are `DecimalField(decimal_places=2)`,
 * so every stored price is a whole number of cents; the only rounding the
 * billing code performs is the pro discount, `(price * Decimal("0.8"))
 * .quantize(Decimal("0.01"))`, under the default decimal context, whose
 * rounding is ROUND_HALF_EVEN.
 */
module Money {
  import Text

  /** 20% off for pro members: price * 8 / 10. */
  const DiscountNumerator: int := 8

  /**
   * Rounds `n` tenths of a cent to whole cents, half to even: the result is
   * a nearest whole number of cents and, on a tie, the even one.
   */
  function QuantizeTenths(n: int): (c: int)
    ensures -5 <= n - 10 * c <= 5
    ensures (n - 10 * c == 5 || n - 10 * c == -5) ==> c % 2 == 0
  {
    var q, r := n / 10, n % 10;
    if r < 5 then q
    else if r > 5 then q + 1
    else if q % 2 == 0 then q
    else q + 1
  }

  /** The two properties of QuantizeTenths single out one value. */
  lemma QuantizeTenthsUnique(n: int, c: int)
    requires -5 <= n - 10 * c <= 5
    requires (n - 10 * c == 5 || n - 10 * c == -5) ==> c % 2 == 0
    ensures c == QuantizeTenths(n)
  {
    var d := QuantizeTenths(n);
    assert -1 <= c - d <= 1;
  }

  /** The pro unit price, in cents, for a list price of `cents`. */
  function ProPrice(cents: int): (p: int)
    ensures -5 <= 8 * cents - 10 * p <= 5
  {
    QuantizeTenths(DiscountNumerator * cents)
  }

  /**
   * Eight times a whole number of cents is never an exact half cent past a
   * tenth boundary, so the discount never meets a tie: half-even, half-up
   * and half-away-from-zero all give the same pro price.
   */
  lemma ProPriceNeverTies(cents: int)
    ensures (8 * cents) % 10 != 5
    ensures -5 < 8 * cents - 10 * ProPrice(cents) < 5
  {
    var q := (8 * cents) / 10;
    assert 8 * cents == 10 * q + (8 * cents) % 10;
    assert (8 * cents) % 10 == 2 * (4 * cents - 5 * q);
  }

  /** A non-negative price never goes up or below zero under the discount. */
  lemma ProPriceBounds(cents: int)
    requires cents >= 0
    ensures 0 <= ProPrice(cents) <= cents
  {
  }

  /** The unit price a user pays: discounted for pro members, list price otherwise. */
  function UnitPrice(cents: int, isPro: bool): (p: int)
    ensures !isPro ==> p == cents
    ensures isPro ==> p == ProPrice(cents)
  {
    if isPro then ProPrice(cents) else cents
  }

  /**
   * Python's `int(d)` on a Decimal truncates toward zero; so does this, for
   * a positive divisor.
   */
  function TruncDiv(a: int, b: int): (q: int)
    requires b > 0
    ensures a >= 0 ==> q >= 0 && q * b <= a < q * b + b
    ensures a < 0 ==> q <= 0 && q * b >= a > q * b - b
  {
    if a >= 0 then a / b else -((-a) / b)
  }

  /**
   * A decimal setting such as `PRO_PLAN_PRICE`: the value
   * `coefficient / 10^exponent`, as `Decimal(str(x))` would hold it.
   */
  datatype DecimalValue = DecimalValue(coefficient: int, exponent: nat)

  /** `int(Decimal(str(x)) * 100)`: the amount in cents, fractions of a cent cut off toward zero. */
  function MinorUnits(x: DecimalValue): (cents: int)
  {
    TruncDiv(x.coefficient * 100, Text.Pow10(x.exponent))
  }
}

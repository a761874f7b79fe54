/** Arbitrary-precision decimals as used through the shopspring `decimal`
    package: a value is an integer mantissa times a power of ten. Product and
    rounding are written out; parsing (`decimal.NewFromString`) and printing
    (`Decimal.String`) are library code whose grammar is not part of this
    model, so they are passed in as a `DecimalLib`. */
module Decimals {
  import opened Wrappers

  /** `mantissa` x 10^`exp`. Go's zero `decimal.Decimal` is `Zero`. */
  datatype Decimal = Decimal(mantissa: int, exp: int)

  const Zero: Decimal := Decimal(0, 0)

  /** Go's `decimal.NewFromString` and `Decimal.String`, as opaque library
      functions: a partial parser returning the error's message on failure,
      and a printer. */
  datatype DecimalLib = DecimalLib(parse: string -> Result<Decimal, string>, format: Decimal -> string)

  function Pow10(n: nat): (r: nat)
    ensures r >= 1
  {
    if n == 0 then 1 else 10 * Pow10(n - 1)
  }

  function Min(a: int, b: int): int {
    if a <= b then a else b
  }

  function Abs(x: int): nat {
    if x < 0 then -x else x
  }

  /** The mantissa that represents `d` at the smaller exponent `e`. */
  function Rescaled(d: Decimal, e: int): int
    requires e <= d.exp
  {
    d.mantissa * Pow10(d.exp - e)
  }

  /** Two representations of the same number (`Decimal.Equal`). */
  predicate SameValue(a: Decimal, b: Decimal) {
    var e := Min(a.exp, b.exp);
    Rescaled(a, e) == Rescaled(b, e)
  }

  /** `Decimal.Mul`: the exact product. */
  function Mul(a: Decimal, b: Decimal): Decimal {
    Decimal(a.mantissa * b.mantissa, a.exp + b.exp)
  }

  /** `d.GreaterThan(decimal.Zero)`: the sign of a decimal is its mantissa's. */
  predicate IsPositive(d: Decimal) {
    d.mantissa > 0
  }

  /** `n / q` rounded to the nearest integer, halves up. */
  function HalfUpQuotient(n: nat, q: nat): (r: int)
    requires q > 0
    ensures 2 * Abs(r * q - n) <= q
  {
    var t := 2 * n + q;
    var r := t / (2 * q);
    var rem := t % (2 * q);
    assert t == (2 * q) * r + rem && 0 <= rem < 2 * q;
    assert (2 * q) * r == 2 * (r * q);
    assert 2 * (r * q - n) == q - rem;
    r
  }

  /** `m / q` rounded to the nearest integer, halves away from zero. */
  function RoundedQuotient(m: int, q: nat): (r: int)
    requires q > 0
    ensures 2 * Abs(r * q - m) <= q
  {
    if m >= 0 then HalfUpQuotient(m, q)
    else
      var r := HalfUpQuotient(-m, q);
      assert (-r) * q - m == -(r * q - (-m));
      -r
  }

  /** `t` has exactly `places` fractional digits and lies within half a unit
      in its last place of the exact value `x`. */
  predicate RoundedTo(t: Decimal, x: Decimal, places: nat) {
    t.exp == -(places as int) &&
    var e := Min(x.exp, -(places as int));
    2 * Abs(Rescaled(t, e) - Rescaled(x, e)) <= Pow10(-(places as int) - e)
  }

  /** `Decimal.Round(places)`: the nearest number with `places` fractional
      digits; when `d` already has no more digits than that it is kept exactly.
      Halves are rounded away from zero. */
  function Round(d: Decimal, places: nat): (r: Decimal)
    ensures RoundedTo(r, d, places)
    ensures d.exp >= -(places as int) ==> SameValue(r, d)
  {
    if d.exp >= -(places as int) then
      var r := Decimal(d.mantissa * Pow10(d.exp + places), -(places as int));
      assert Rescaled(r, -(places as int)) == r.mantissa;
      r
    else
      var q := Pow10(-(places as int) - d.exp);
      var r := Decimal(RoundedQuotient(d.mantissa, q), -(places as int));
      assert Rescaled(d, d.exp) == d.mantissa;
      r
  }
}

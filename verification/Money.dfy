/**
  Exact money: src/pkg/money/money.go.

  An amount is an `int` counting micro-units, the finest step of the
  NUMERIC(24,6) columns every amount is stored in.  A currency's scale says how
  many of the six decimal places its minor unit uses.
*/
module Money {
  import opened Prelude

  const COLUMN_SCALE: nat := 6

  type Scale = s: nat | s <= COLUMN_SCALE

  datatype Currency = Currency(code: string, symbol: string, scale: Scale)

  const DEFAULT_SCALE: Scale := 2

  /** The hard-coded programme currencies. */
  const CURRENCIES: map<string, Currency> := map[
    "NGN" := Currency("NGN", "\U{20A6}", 2),
    "USD" := Currency("USD", "$", 2),
    "EUR" := Currency("EUR", "\U{20AC}", 2),
    "GBP" := Currency("GBP", "\U{00A3}", 2),
    "KES" := Currency("KES", "KSh", 2),
    "GHS" := Currency("GHS", "\U{20B5}", 2),
    "ZAR" := Currency("ZAR", "R", 2),
    "JPY" := Currency("JPY", "\U{00A5}", 0),
    "KWD" := Currency("KWD", "KD", 3),
    "TND" := Currency("TND", "DT", 3)
  ]

  function Pow10(n: nat): (p: int)
    ensures p >= 1
  {
    if n == 0 then 1 else 10 * Pow10(n - 1)
  }

  /** How many micro-units make one minor unit of the currency. */
  function Unit(c: Currency): (u: int)
    ensures u >= 1
  {
    Pow10(COLUMN_SCALE - c.scale)
  }

  /** The amount is a whole number of the currency's minor units. */
  predicate ExactAt(amount: int, c: Currency) {
    amount % Unit(c) == 0
  }

  function NonNegative(amount: int): int { Max(amount, 0) }

  // ---------------------------------------------------------------- rounding

  /** p / q to the nearest integer, halves away from zero. */
  function RoundDiv(p: int, q: int): int
    requires q > 0
  {
    if p >= 0 then (2 * p + q) / (2 * q) else -((-2 * p + q) / (2 * q))
  }

  /** amount x num / den, rounded once, at the currency's precision. */
  function Prorate(amount: int, num: int, den: int, c: Currency): int {
    if den == 0 then 0
    else if den > 0 then Unit(c) * RoundDiv(amount * num, den * Unit(c))
    else Unit(c) * RoundDiv(-(amount * num), -den * Unit(c))
  }

  lemma DivBounds(p: int, q: int)
    requires q > 0
    ensures q * (p / q) <= p < q * (p / q) + q
  {
  }

  /** Nearest, and a half goes away from zero: the remainder's range is
      half-open on the side facing zero. */
  lemma RoundDivNearest(p: int, q: int)
    requires q > 0
    ensures p >= 0 ==> -q < 2 * (q * RoundDiv(p, q) - p) <= q
    ensures p < 0 ==> -q <= 2 * (q * RoundDiv(p, q) - p) < q
  {
    if p >= 0 {
      var r := (2 * p + q) / (2 * q);
      DivBounds(2 * p + q, 2 * q);
      assert 2 * q * r == 2 * (q * r);
    } else {
      var r := (-2 * p + q) / (2 * q);
      DivBounds(-2 * p + q, 2 * q);
      assert 2 * q * r == 2 * (q * r);
      assert q * (-r) == -(q * r);
    }
  }

  /** The nearest integer is the only one that close, so rounding is
      determined by its error bound, for either sign. */
  lemma RoundDivUnique(p: int, q: int, r: int)
    requires q > 0
    requires if p >= 0 then -q < 2 * (q * r - p) <= q else -q <= 2 * (q * r - p) < q
    ensures r == RoundDiv(p, q)
  {
    var s := RoundDiv(p, q);
    RoundDivNearest(p, q);
    MulGap(q, r, s);
    MulGap(q, s, r);
  }

  /** Multiples of q less than q apart are in order. */
  lemma MulGap(q: int, a: int, b: int)
    requires q > 0 && q * a < q * b + q
    ensures a <= b
  {
    assert q * (b + 1) == q * b + q;
    MulCancel(q, a, b + 1);
  }

  /** Proration lands on a whole number of minor units within half of one of
      amount x num / den, whatever the signs; a zero denominator gives zero. */
  lemma ProrateNearest(amount: int, num: int, den: int, c: Currency)
    ensures ExactAt(Prorate(amount, num, den, c), c)
    ensures den == 0 ==> Prorate(amount, num, den, c) == 0
    ensures den > 0 ==> -(den * Unit(c)) <= 2 * (den * Prorate(amount, num, den, c) - amount * num) <= den * Unit(c)
    ensures den < 0 ==> den * Unit(c) <= 2 * (den * Prorate(amount, num, den, c) - amount * num) <= -(den * Unit(c))
  {
    if den > 0 {
      NearestUnits(amount * num, den, Unit(c));
    } else if den < 0 {
      NearestUnits(-(amount * num), -den, Unit(c));
      Negated(den, Prorate(amount, num, den, c));
      Negated(den, Unit(c));
    }
  }

  lemma NearestUnits(p: int, d: int, u: int)
    requires d > 0 && u > 0
    ensures d * u > 0 && (u * RoundDiv(p, d * u)) % u == 0
    ensures -(d * u) <= 2 * (d * (u * RoundDiv(p, d * u)) - p) <= d * u
  {
    PositiveProduct(d, u);
    RoundDivNearest(p, d * u);
    MulAssoc(d, u, RoundDiv(p, d * u));
    WholeUnits(u, RoundDiv(p, d * u));
  }

  lemma Negated(a: int, b: int)
    ensures -a * b == -(a * b)
  {
  }

  lemma PositiveProduct(a: int, b: int)
    requires a > 0 && b > 0
    ensures a * b > 0
  {
  }

  lemma WholeUnits(u: int, k: int)
    requires u > 0
    ensures (u * k) % u == 0
  {
    DivBounds(u * k, u);
    MulGap(u, u * k / u, k);
    MulGap(u, k, u * k / u);
  }

  lemma MulAssoc(a: int, b: int, c: int)
    ensures a * (b * c) == (a * b) * c
  {
  }

  lemma MulMono(q: int, a: int, b: int)
    requires q >= 0 && a <= b
    ensures q * a <= q * b
  {
  }

  lemma MulCancel(q: int, a: int, b: int)
    requires q > 0 && q * a < q * b
    ensures a < b
  {
    if a >= b { MulMono(q, b, a); }
  }

  lemma RoundDivMonotone(p: int, p': int, q: int)
    requires q > 0 && 0 <= p <= p'
    ensures RoundDiv(p, q) <= RoundDiv(p', q)
  {
    var r, r' := RoundDiv(p, q), RoundDiv(p', q);
    RoundDivNearest(p, q);
    RoundDivNearest(p', q);
    MulGap(q, r, r');
  }

  lemma RoundDivExact(k: int, q: int)
    requires q > 0 && k >= 0
    ensures RoundDiv(q * k, q) == k
  {
    MulMono(q, 0, k);
    RoundDivUnique(q * k, q, k);
  }

  lemma RoundDivNonNegative(p: int, q: int)
    requires q > 0 && p >= 0
    ensures RoundDiv(p, q) >= 0
  {
    RoundDivMonotone(0, p, q);
    RoundDivExact(0, q);
  }
}

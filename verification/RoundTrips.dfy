/** Exactly when Parse reads back what Format wrote: src/pkg/money/money.go.

    Parse strips the currency code before it reads the number, so a code that
    looks like the start of a number can take part of the amount with it. */
module RoundTrips {
  import opened Prelude
  import opened Money
  import opened Text
  import opened AmountText

  /** Stripping the code leaves the written amount readable as itself: there is
      no code, the amount does not begin with it, or all it takes is a zero that
      does not count. */
  predicate CodeIsHarmless(amount: int, c: Currency) {
    var text := Format(amount, c);
    || c.code == "" || !(c.code <= text)
    || (c.code == "0" && c.scale > 0)
    || (amount == 0 && c.code < text)
  }

  // -------------------------------------------------------------- clean-up

  lemma CleanedNumber(s: string, c: Currency)
    requires NumberText(s) && NotNumeric(c.symbol)
    ensures Cleaned(s, c) == TrimPrefix(s, c.code)
  {
    NumbersHaveNoSeparators(s);
    assert [] + s + [] == s;
    SeparatorsAreNoise([], s, [], s);
  }

  lemma ParseReads(s: string, c: Currency)
    requires NumberText(s) && NotNumeric(c.symbol)
    ensures Parse(s, c) == ReadNumber(TrimPrefix(s, c.code), c)
  {
    CleanedNumber(s, c);
  }

  // ----------------------------------------------------------- digit strings

  lemma {:induction false} NatBelow(s: string)
    requires AllDigits(s)
    ensures NatOf(s) < Pow10(|s|)
  {
    if s != [] { NatBelow(s[..|s| - 1]); }
  }

  lemma {:induction false} NatSplit(a: string, b: string)
    requires AllDigits(a) && AllDigits(b)
    ensures AllDigits(a + b) && NatOf(a + b) == NatOf(a) * Pow10(|b|) + NatOf(b)
  {
    if b == [] {
      assert a + b == a;
    } else {
      var init, d := b[..|b| - 1], (b[|b| - 1] - '0') as int;
      NatSplit(a, init);
      assert (a + b)[..|a + b| - 1] == a + init;
      assert NatOf(a + b) == 10 * NatOf(a + init) + d;
      Shift(NatOf(a), Pow10(|init|), NatOf(init), d);
    }
  }

  lemma Shift(a: int, p: int, b: int, d: int)
    ensures 10 * (a * p + b) + d == a * (10 * p) + (10 * b + d)
  {
  }

  lemma {:induction false} PowMonotone(a: nat, b: nat)
    requires a <= b
    ensures Pow10(a) <= Pow10(b)
  {
    if a < b { PowMonotone(a, b - 1); }
  }

  /** Losing leading digits makes a number smaller. */
  lemma SuffixIsSmaller(m: nat, k: nat)
    requires m >= 10 && 1 <= k <= |DigitsOf(m)|
    ensures NatOf(DigitsOf(m)[k..]) < m
  {
    var digits := DigitsOf(m);
    NatBelow(digits[k..]);
    DigitCount(m, |digits| - 1);
    PowMonotone(|digits| - k, |digits| - 1);
  }

  /** A tail of the digits, read as a whole number of major units, is the amount
      only if both are zero. */
  lemma TailIsNotTheAmount(digits: string, r: nat, scale: nat)
    requires AllDigits(digits) && r <= |digits| && r <= scale
    requires NatOf(digits) == NatOf(digits[|digits| - r..]) * Pow10(scale)
    ensures NatOf(digits) == 0
  {
    var front, tail := digits[..|digits| - r], digits[|digits| - r..];
    assert digits == front + tail;
    NatSplit(front, tail);
    NatBelow(tail);
    PowAdd(scale - r, r);
    var x, p := NatOf(tail), Pow10(r);
    MulAssoc(x, Pow10(scale - r), p);
    OnlyZeroFits(x, p, NatOf(front), x * Pow10(scale - r));
  }

  lemma OnlyZeroFits(x: nat, p: int, a: int, b: int)
    requires p > 0 && x < p && a * p + x == b * p
    ensures x == 0
  {
    assert x == p * (b - a);
    if b - a >= 1 { MulMono(p, 1, b - a); }
    if b - a <= -1 { MulMono(p, b - a, -1); }
  }

  // ---------------------------------------------------------- what is left

  /** A number text that lost its sign never reads as a negative amount. */
  lemma UnsignedIsNotNegative(s: string, c: Currency)
    requires forall i :: 0 <= i < |s| ==> IsDigit(s[i]) || s[i] == '.'
    ensures ReadNumber(s, c).Ok? ==> ReadNumber(s, c).value >= 0
  {
    NumberHasNoExponent(s);
    if FromString(s).Some? {
      var d := FromString(s).value;
      assert d.coef >= 0;
      if d.exp + COLUMN_SCALE >= 0 { MulMono(Pow10(d.exp + COLUMN_SCALE), 0, d.coef); }
    }
  }

  lemma ScaledReads(x: nat, places: nat, s: string, c: Currency)
    requires s != "" && FromString(s) == Some(Scaled(x, places)) && places <= c.scale
    ensures ReadNumber(s, c).Ok? ==> ReadNumber(s, c).value == x * Pow10(COLUMN_SCALE - places)
  {
  }

  lemma SmallerIsDifferent(x: int, m: int, u: int)
    requires u > 0 && x != m
    ensures x * u != m * u
  {
    if x < m { StrictMul(x, m, u); } else { StrictMul(m, x, u); }
  }

  /** The code ended inside the whole part, or just before the point. */
  lemma FrontLost(m: nat, c: Currency, whole: string, fraction: string)
    requires AllDigits(whole) && AllDigits(fraction) && |fraction| == c.scale > 0
    requires NatOf(whole + fraction) < m
    ensures ReadNumber(whole + "." + fraction, c) != Ok(m * Unit(c))
  {
    var x, rest := NatOf(whole + fraction), whole + "." + fraction;
    assert Sign(x) + whole + "." + fraction == rest;
    PointReadsBack(x, whole, fraction);
    ScaledReads(x, c.scale, rest, c);
    SmallerIsDifferent(x, m, Unit(c));
  }

  /** The code took the point and perhaps some decimals with it. */
  lemma PointLost(m: nat, digits: string, c: Currency, r: nat)
    requires AllDigits(digits) && NatOf(digits) == m && m != 0 && 1 <= r <= |digits| && r <= c.scale
    ensures ReadNumber(digits[|digits| - r..], c) != Ok(m * Unit(c))
  {
    var tail := digits[|digits| - r..];
    var x := NatOf(tail);
    WholeReads(tail, c);
    if x * Pow10(COLUMN_SCALE) == m * Unit(c) {
      MajorInMinor(x, m, c);
      TailIsNotTheAmount(digits, r, c.scale);
    }
  }

  lemma WholeReads(s: string, c: Currency)
    requires s != "" && AllDigits(s)
    ensures ReadNumber(s, c).Ok? ==> ReadNumber(s, c).value == NatOf(s) * Pow10(COLUMN_SCALE)
  {
    assert Sign(NatOf(s)) + s == s;
    WholeReadsBack(NatOf(s), s);
    ScaledReads(NatOf(s), 0, s, c);
  }

  lemma MajorInMinor(x: int, m: int, c: Currency)
    requires x * Pow10(COLUMN_SCALE) == m * Unit(c)
    ensures x * Pow10(c.scale) == m
  {
    PowAdd(c.scale, COLUMN_SCALE - c.scale);
    MulAssoc(x, Pow10(c.scale), Unit(c));
    if x * Pow10(c.scale) != m { SmallerIsDifferent(x * Pow10(c.scale), m, Unit(c)); }
  }

  lemma WholeLost(m: nat, c: Currency, k: nat)
    requires c.scale == 0 && 1 <= k < |DigitsOf(m)|
    ensures ReadNumber(DigitsOf(m)[k..], c) != Ok(m * Unit(c))
  {
    SuffixIsSmaller(m, k);
    WholeReads(DigitsOf(m)[k..], c);
    SmallerIsDifferent(NatOf(DigitsOf(m)[k..]), m, Unit(c));
  }

  /** The text of an unsigned amount around its point. */
  lemma AroundThePoint(m: nat, scale: nat) returns (whole: string, fraction: string)
    requires scale > 0
    ensures whole + fraction == Padded(DigitsOf(m), scale) && whole != "" && |fraction| == scale
    ensures AllDigits(whole) && AllDigits(fraction) && NatOf(whole + fraction) == m
    ensures Fixed(m, scale) == whole + "." + fraction
  {
    NatOfDigits(m);
    PaddingKeepsTheValue(DigitsOf(m), scale);
    var digits := Padded(DigitsOf(m), scale);
    whole, fraction := digits[..|digits| - scale], digits[|digits| - scale..];
    assert digits == whole + fraction;
    assert "" + whole == whole;
  }

  lemma Behind(a: string, b: string, k: nat)
    requires k <= |a| + 1 + |b|
    ensures k <= |a| ==> (a + "." + b)[k..] == a[k..] + "." + b
    ensures k > |a| ==> (a + "." + b)[k..] == b[k - |a| - 1..]
  {
  }

  /** A zero amount reads back from whatever is left of it. */
  lemma ZeroSurvives(c: Currency, k: nat)
    requires k < |Fixed(0, c.scale)|
    ensures ReadNumber(Fixed(0, c.scale)[k..], c) == Ok(0)
  {
    if c.scale == 0 {
      ZerosRead("0", "", c);
      assert Fixed(0, 0) == "0" && "0"[k..] == "0" + "";
    } else {
      var whole, fraction := AroundThePoint(0, c.scale);
      OnlyZeros(c.scale, whole, fraction);
      ZerosBehind(whole, fraction, c, k);
    }
  }

  lemma OnlyZeros(scale: nat, whole: string, fraction: string)
    requires whole + fraction == Padded(DigitsOf(0), scale)
    ensures forall i :: 0 <= i < |whole| ==> whole[i] == '0'
    ensures forall i :: 0 <= i < |fraction| ==> fraction[i] == '0'
  {
    var digits := whole + fraction;
    assert DigitsOf(0) == "0";
    assert forall i :: 0 <= i < |digits| ==> digits[i] == '0';
    assert forall i :: 0 <= i < |whole| ==> whole[i] == digits[i];
    assert forall i :: 0 <= i < |fraction| ==> fraction[i] == digits[|whole| + i];
  }

  lemma ZerosBehind(whole: string, fraction: string, c: Currency, k: nat)
    requires |fraction| == c.scale > 0 && k <= |whole| + c.scale
    requires forall i :: 0 <= i < |whole| ==> whole[i] == '0'
    requires forall i :: 0 <= i < |fraction| ==> fraction[i] == '0'
    ensures ReadNumber((whole + "." + fraction)[k..], c) == Ok(0)
  {
    Behind(whole, fraction, k);
    if k <= |whole| {
      ZerosRead(whole[k..], "." + fraction, c);
      assert whole[k..] + ("." + fraction) == whole[k..] + "." + fraction;
    } else {
      var rest := fraction[k - |whole| - 1..];
      ZerosRead(rest, "", c);
      assert rest + "" == rest;
    }
  }

  /** Zeros, perhaps with a point and no more zeros than the scale after it. */
  lemma ZerosRead(whole: string, tail: string, c: Currency)
    requires forall i :: 0 <= i < |whole| ==> whole[i] == '0'
    requires if tail == "" then whole != "" else 2 <= |tail| <= c.scale + 1 && tail[0] == '.'
    requires forall i :: 1 <= i < |tail| ==> tail[i] == '0'
    ensures ReadNumber(whole + tail, c) == Ok(0)
  {
    if tail == "" {
      assert whole + tail == "" + whole;
      ZerosReadAsZero(whole);
      WholeReadsBack(0, whole);
    } else {
      var fraction := tail[1..];
      assert whole + tail == "" + whole + "." + fraction;
      ZerosReadAsZero(whole + fraction);
      PointReadsBack(0, whole, fraction);
    }
    WholePartOfZero(FromString(whole + tail).value);
  }

  lemma WholePartOfZero(d: Decimal)
    requires d.coef == 0
    ensures WholePart(d) == 0
  {
    if d.exp < 0 {
      var p := Pow10(-d.exp);
      if Quotient(0, p) >= 1 { MulMono(p, 1, Quotient(0, p)); }
    }
  }

  lemma {:induction false} ZerosReadAsZero(s: string)
    requires forall i :: 0 <= i < |s| ==> s[i] == '0'
    ensures AllDigits(s) && NatOf(s) == 0
  {
    if s != [] { ZerosReadAsZero(s[..|s| - 1]); }
  }

  /** Without the zero before its point a fraction still reads the same. */
  lemma LeadingZeroIsSpare(m: nat, c: Currency)
    requires c.scale > 0 && "0" <= Fixed(m, c.scale)
    ensures ReadNumber(Fixed(m, c.scale)[1..], c) == Ok(m * Unit(c))
  {
    var whole, fraction := AroundThePoint(m, c.scale);
    FirstDigit(whole, fraction);
    NoLeadingZero(m, c.scale);
    assert whole == "0";
    FractionReads(m, c, fraction);
    Behind(whole, fraction, 1);
    assert "" + "." + fraction == whole[1..] + "." + fraction;
  }

  lemma FractionReads(m: nat, c: Currency, fraction: string)
    requires AllDigits(fraction) && |fraction| == c.scale > 0 && m < Pow10(c.scale)
    requires NatOf("0" + fraction) == m
    ensures ReadNumber("" + "." + fraction, c) == Ok(m * Unit(c))
  {
    FractionReadsBack(m, fraction);
    FractionIsSmall(m, c.scale);
    AcceptsScaled(m, c, "" + "." + fraction);
  }

  lemma FractionReadsBack(m: nat, fraction: string)
    requires AllDigits(fraction) && 0 < |fraction| <= COLUMN_SCALE && NatOf("0" + fraction) == m
    ensures FromString("" + "." + fraction) == Some(Scaled(m, |fraction|))
  {
    LeadingZeros(1, fraction);
    assert Zeros(1) == "0";
    assert "" + fraction == fraction;
    PointReadsBack(m, "", fraction);
    assert Sign(m) + "" + "." + fraction == "" + "." + fraction;
  }

  /** The only text beginning with a zero has nothing else before its point. */
  lemma NoLeadingZero(m: nat, scale: nat)
    requires Padded(DigitsOf(m), scale)[0] == '0'
    ensures |Padded(DigitsOf(m), scale)| == scale + 1
    ensures scale > 0 ==> m < Pow10(scale)
  {
    LeadingDigit(m);
    if |DigitsOf(m)| > scale && scale > 0 { PowAtLeastTen(scale); } else if scale > 0 { DigitCount(m, scale); }
  }

  lemma {:induction false} LeadingDigit(m: nat)
    ensures m > 0 ==> DigitsOf(m)[0] != '0'
    ensures m == 0 ==> DigitsOf(m) == "0"
  {
    if m >= 10 { LeadingDigit(m / 10); }
  }

  lemma FractionIsSmall(m: nat, scale: nat)
    requires scale > 0 && m < Pow10(scale)
    ensures |DigitsOf(WholePart(Scaled(m, scale)))| <= MAX_INTEGER_DIGITS
  {
    var p := Pow10(scale);
    if Quotient(m, p) >= 1 { MulMono(p, 1, Quotient(m, p)); }
  }

  // ------------------------------------------------------------ both directions

  lemma HarmlessReads(m: int, c: Currency)
    requires Abs(m * Unit(c)) < Pow10(MAX_COLUMN_DIGITS) && RoundDiv(m * Unit(c), Unit(c)) == m
    requires c.code != "" && c.code <= Fixed(m, c.scale) && CodeIsHarmless(m * Unit(c), c)
    ensures ReadNumber(Fixed(m, c.scale)[|c.code|..], c) == Ok(m * Unit(c))
  {
    if m * Unit(c) == 0 {
      if m != 0 { SmallerIsDifferent(m, 0, Unit(c)); }
      ZeroSurvives(c, |c.code|);
    } else {
      assert Fixed(m, c.scale)[0] == '0';
      LeadingZeroIsSpare(m, c);
    }
  }

  lemma HarmedMisreads(m: int, c: Currency)
    requires RoundDiv(m * Unit(c), Unit(c)) == m
    requires c.code != "" && c.code <= Fixed(m, c.scale) && !CodeIsHarmless(m * Unit(c), c)
    ensures ReadNumber(Fixed(m, c.scale)[|c.code|..], c) != Ok(m * Unit(c))
  {
    var text, k := Fixed(m, c.scale), |c.code|;
    if k < |text| {
      if m < 0 {
        UnsignedIsNotNegative(text[k..], c);
        StrictMul(m, 0, Unit(c));
      } else {
        HarmedPositive(m, c, k);
      }
    }
  }

  lemma HarmedPositive(m: nat, c: Currency, k: nat)
    requires 1 <= k < |Fixed(m, c.scale)| && m != 0
    requires !(k == 1 && Fixed(m, c.scale)[0] == '0' && c.scale > 0)
    ensures ReadNumber(Fixed(m, c.scale)[k..], c) != Ok(m * Unit(c))
  {
    if c.scale == 0 {
      assert Fixed(m, 0) == DigitsOf(m);
      WholeLost(m, c, k);
    } else {
      HarmedAtThePoint(m, c, k);
    }
  }

  lemma HarmedAtThePoint(m: nat, c: Currency, k: nat)
    requires 1 <= k < |Fixed(m, c.scale)| && m != 0 && c.scale > 0
    requires !(k == 1 && Fixed(m, c.scale)[0] == '0')
    ensures ReadNumber(Fixed(m, c.scale)[k..], c) != Ok(m * Unit(c))
  {
    var whole, fraction := AroundThePoint(m, c.scale);
    Behind(whole, fraction, k);
    if k <= |whole| {
      FirstDigit(whole, fraction);
      ShorterFront(m, c.scale, whole, fraction, k);
      FrontLost(m, c, whole[k..], fraction);
    } else {
      TailLost(m, c, whole, fraction, k - |whole| - 1);
    }
  }

  lemma FirstDigit(whole: string, fraction: string)
    requires whole != ""
    ensures (whole + "." + fraction)[0] == (whole + fraction)[0] == whole[0]
  {
  }

  lemma TailLost(m: nat, c: Currency, whole: string, fraction: string, j: nat)
    requires AllDigits(whole + fraction) && |fraction| == c.scale && NatOf(whole + fraction) == m != 0
    requires j < c.scale
    ensures ReadNumber(fraction[j..], c) != Ok(m * Unit(c))
  {
    hide ReadNumber, AllDigits;
    TailOf(whole, fraction, j);
    PointLost(m, whole + fraction, c, |fraction| - j);
  }

  lemma TailOf(whole: string, fraction: string, j: nat)
    requires j <= |fraction|
    ensures fraction[j..] == (whole + fraction)[|whole + fraction| - (|fraction| - j)..]
  {
  }

  lemma ShorterFront(m: nat, scale: nat, whole: string, fraction: string, k: nat)
    requires whole + fraction == Padded(DigitsOf(m), scale) && |fraction| == scale > 0 && 1 <= k <= |whole|
    requires !(k == 1 && whole[0] == '0')
    ensures AllDigits(whole[k..] + fraction) && NatOf(whole[k..] + fraction) < m
  {
    var digits := Padded(DigitsOf(m), scale);
    assert digits[0] == whole[0];
    assert whole[k..] + fraction == digits[k..];
    FrontIsSmaller(m, scale, k);
  }

  lemma FrontIsSmaller(m: nat, scale: nat, k: nat)
    requires scale > 0 && 1 <= k <= |Padded(DigitsOf(m), scale)| - scale
    requires !(k == 1 && Padded(DigitsOf(m), scale)[0] == '0')
    ensures NatOf(Padded(DigitsOf(m), scale)[k..]) < m
  {
    assert |DigitsOf(m)| > scale;
    DigitCount(m, scale);
    PowAtLeastTen(scale);
    SuffixIsSmaller(m, k);
  }

  /** Parse reads back what Format wrote exactly when the currency code is
      harmless to it: for every amount that fits the column and every currency
      whose symbol does not itself begin like a number. */
  lemma RoundTripsIffHarmless(amount: int, c: Currency)
    requires ExactAt(amount, c) && Abs(amount) < Pow10(MAX_COLUMN_DIGITS) && NotNumeric(c.symbol)
    ensures Parse(Format(amount, c), c) == Ok(amount) <==> CodeIsHarmless(amount, c)
  {
    var m, text := RoundDiv(amount, Unit(c)), Format(amount, c);
    RoundDivExactSigned(amount, Unit(c));
    FixedIsNumberText(m, c.scale);
    ParseReads(text, c);
    if c.code != "" && c.code <= text {
      if CodeIsHarmless(amount, c) { HarmlessReads(m, c); } else { HarmedMisreads(m, c); }
    } else {
      assert TrimPrefix(text, c.code) == text;
      CleanedNumber(text, c);
      CleanTextParses(amount, c, text);
    }
  }
}

/** Reading and writing amounts as text: Parse and Format of src/pkg/money/money.go. */
module AmountText {
  import opened Prelude
  import opened Money
  import opened Text

  /** Lookup of a currency code, with the two-decimal fallback. */
  function Lookup(code: string): Currency {
    var normalised := Upper(Trim(code));
    if normalised in CURRENCIES then CURRENCIES[normalised]
    else Currency(normalised, "", DEFAULT_SCALE)
  }

  /** A stored code reads back as the currency it was stored from. */
  lemma LookupReadsBack(code: string)
    ensures Lookup(Lookup(code).code) == Lookup(code)
  {
    NormalFormIsStable(code);
    assert forall k :: k in CURRENCIES ==> CURRENCIES[k].code == k;
  }

  /** An unknown code is its own currency, without a symbol, of two decimals. */
  lemma UnknownCodesHaveTwoDecimals(code: string)
    ensures Lookup(code).code == Upper(Trim(code))
    ensures Upper(Trim(code)) !in CURRENCIES ==> Lookup(code).symbol == "" && Lookup(code).scale == 2
  {
    assert forall k :: k in CURRENCIES ==> CURRENCIES[k].code == k;
  }

  // ------------------------------------------------------- decimal literals

  predicate IsDigit(c: char) { '0' <= c <= '9' }

  predicate AllDigits(s: string) { forall i :: 0 <= i < |s| ==> IsDigit(s[i]) }

  function NatOf(s: string): nat
    requires AllDigits(s)
  {
    if s == [] then 0 else 10 * NatOf(s[..|s| - 1]) + (s[|s| - 1] - '0') as nat
  }

  function DigitsOf(n: nat): (s: string)
    ensures |s| >= 1 && AllDigits(s)
  {
    if n < 10 then ['0' + n as char] else DigitsOf(n / 10) + ['0' + (n % 10) as char]
  }

  /** An optional sign and at least one digit. */
  function ParseInt(s: string): Option<int> {
    var body := if s != [] && (s[0] == '+' || s[0] == '-') then s[1..] else s;
    if body == [] || !AllDigits(body) then None
    else
      var n: int := NatOf(body);
      Some(if s[0] == '-' then -n else n)
  }

  /** coef x 10^exp. */
  datatype Decimal = Decimal(coef: int, exp: int)

  function Scaled(m: int, places: int): Decimal { Decimal(m, -places) }

  const MIN_INT32: int := -0x8000_0000
  const MAX_INT32: int := 0x7FFF_FFFF

  /** The first position of either character, or the length. */
  function IndexOf(s: string, a: char, b: char): (i: nat)
    ensures i <= |s| && (forall k :: 0 <= k < i ==> s[k] != a && s[k] != b)
    ensures i < |s| ==> s[i] == a || s[i] == b
  {
    if s == [] then 0 else if s[0] == a || s[0] == b then 0 else 1 + IndexOf(s[1..], a, b)
  }

  /** The exponent part: absent, or a 32-bit integer after E or e. */
  function Exponent(s: string): Option<int> {
    var e := IndexOf(s, 'E', 'e');
    if e == |s| then Some(0)
    else match ParseInt(s[e + 1..])
         case None => None
         case Some(x) => if MIN_INT32 <= x <= MAX_INT32 then Some(x) else None
  }

  /** decimal.NewFromString. */
  function FromString(s: string): Option<Decimal> {
    match Exponent(s)
    case None => None
    case Some(exp) => ReadMantissa(s[..IndexOf(s, 'E', 'e')], exp)
  }

  /** One decimal point at most; its digits lower the exponent. */
  function ReadMantissa(s: string, exp: int): Option<Decimal> {
    var point := IndexOf(s, '.', '.');
    if point == |s| then ReadCoefficient(s, exp)
    else
      var fraction := s[point + 1..];
      if '.' in fraction then None else ReadCoefficient(s[..point] + fraction, exp - |fraction|)
  }

  function ReadCoefficient(s: string, exp: int): Option<Decimal> {
    match ParseInt(s)
    case None => None
    case Some(coef) => if exp < MIN_INT32 then None else Some(Decimal(coef, exp))
  }

  function Abs(n: int): nat { if n < 0 then -n else n }

  /** The whole part, without its sign. */
  function WholePart(d: Decimal): nat {
    if d.exp < 0 then Quotient(Abs(d.coef), Pow10(-d.exp)) else Product(Abs(d.coef), Pow10(d.exp))
  }

  function Quotient(n: nat, p: int): (q: nat)
    requires p >= 1
    ensures p * q <= n < p * q + p
  {
    DivBounds(n, p);
    n / p
  }

  function Product(n: nat, p: int): (q: nat)
    requires p >= 1
    ensures q == n * p
  {
    MulMono(n, 0, p);
    n * p
  }

  const MAX_INTEGER_DIGITS: nat := 18

  datatype AmountError = InvalidAmount | NegativeAmount | AmountTooLarge | TooPrecise

  /** What is left of the text once blanks, commas, code and symbol are gone. */
  function Cleaned(raw: string, c: Currency): string {
    Unlabelled(Remove(Remove(Trim(raw), ','), ' '), c)
  }

  function Parse(raw: string, c: Currency): Result<int, AmountError> { ReadNumber(Cleaned(raw, c), c) }

  /** Parse, once the text is clean. */
  function ReadNumber(s: string, c: Currency): Result<int, AmountError> {
    if s == "" then Err(InvalidAmount)
    else match FromString(s)
         case None => Err(InvalidAmount)
         case Some(d) =>
           if |DigitsOf(WholePart(d))| > MAX_INTEGER_DIGITS then Err(AmountTooLarge)
           else if -d.exp > c.scale then Err(TooPrecise)
           else Ok(d.coef * Pow10(d.exp + COLUMN_SCALE))
  }

  function ParsePositive(raw: string, c: Currency): Result<int, AmountError> {
    match Parse(raw, c)
    case Err(e) => Err(e)
    case Ok(amount) => if amount <= 0 then Err(NegativeAmount) else Ok(amount)
  }

  /** m minor units written with exactly `scale` decimals. */
  function Fixed(m: int, scale: nat): string {
    WithPoint(Sign(m), Padded(DigitsOf(Abs(m)), scale), scale)
  }

  function WithPoint(sign: string, digits: string, scale: nat): string
    requires |digits| > scale
  {
    var cut := |digits| - scale;
    if scale == 0 then sign + digits else sign + digits[..cut] + "." + digits[cut..]
  }

  function Sign(m: int): string { if m < 0 then "-" else "" }

  /** Zeros in front, so that a digit stands before the last `scale`. */
  function Padded(digits: string, scale: nat): (s: string)
    requires AllDigits(digits)
    ensures |s| > scale && AllDigits(s)
  {
    if |digits| > scale then digits else Zeros(scale + 1 - |digits|) + digits
  }

  function Zeros(n: nat): (s: string)
    ensures |s| == n && forall i :: 0 <= i < n ==> s[i] == '0'
  {
    if n == 0 then "" else "0" + Zeros(n - 1)
  }

  function Format(amount: int, c: Currency): string {
    Fixed(RoundDiv(amount, Unit(c)), c.scale)
  }

  /** What Parse refuses a readable number for: a whole part past eighteen
      digits, else more decimal places than the currency has. */
  lemma RefusalsAreRight(raw: string, c: Currency)
    requires Cleaned(raw, c) != "" && FromString(Cleaned(raw, c)).Some?
    ensures var d := FromString(Cleaned(raw, c)).value;
            && (Parse(raw, c) == Err(AmountTooLarge) <==> WholePart(d) >= Pow10(18))
            && (Parse(raw, c) == Err(TooPrecise) <==> WholePart(d) < Pow10(18) && d.exp + c.scale < 0)
            && (Parse(raw, c).Ok? <==> WholePart(d) < Pow10(18) && d.exp + c.scale >= 0)
            && (Parse(raw, c).Ok? ==> Parse(raw, c).value == d.coef * Pow10(d.exp + 6))
  {
    DigitCount(WholePart(FromString(Cleaned(raw, c)).value), 18);
  }

  // ------------------------------------------------------------ digit facts

  lemma {:induction false} NatOfDigits(n: nat)
    ensures NatOf(DigitsOf(n)) == n
  {
    if n >= 10 {
      NatOfDigits(n / 10);
      assert DigitsOf(n)[..|DigitsOf(n)| - 1] == DigitsOf(n / 10);
    }
  }

  lemma {:induction false} LeadingZeros(k: nat, s: string)
    requires AllDigits(s)
    ensures AllDigits(Zeros(k) + s) && NatOf(Zeros(k) + s) == NatOf(s)
  {
    if s == [] {
      if k > 0 {
        LeadingZeros(k - 1, []);
        assert Zeros(k) + [] == Zeros(k);
        assert Zeros(k)[..k - 1] == Zeros(k - 1);
        assert Zeros(k - 1) + [] == Zeros(k - 1);
      }
    } else {
      LeadingZeros(k, s[..|s| - 1]);
      assert (Zeros(k) + s)[..|Zeros(k) + s| - 1] == Zeros(k) + s[..|s| - 1];
    }
  }

  lemma {:induction false} DigitCount(n: nat, k: nat)
    requires k >= 1
    ensures |DigitsOf(n)| <= k <==> n < Pow10(k)
  {
    if n >= 10 {
      if k == 1 {
        assert Pow10(1) == 10 * Pow10(0);
      } else {
        DigitCount(n / 10, k - 1);
      }
    } else {
      PowAtLeastTen(k);
    }
  }

  lemma {:induction false} PowAtLeastTen(k: nat)
    requires k >= 1
    ensures Pow10(k) >= 10
  {
    if k > 1 { PowAtLeastTen(k - 1); }
  }

  lemma {:induction false} PowAdd(a: nat, b: nat)
    ensures Pow10(a + b) == Pow10(a) * Pow10(b)
  {
    if a > 0 {
      PowAdd(a - 1, b);
      MulAssoc(10, Pow10(a - 1), Pow10(b));
    }
  }

  // -------------------------------------------------- what Parse lets through

  /** Every accepted amount is a whole number of minor units and fits the
      NUMERIC(24,6) column: nothing is rounded on the way in. */
  lemma AcceptedAmountsAreExact(raw: string, c: Currency)
    requires Parse(raw, c).Ok?
    ensures ExactAt(Parse(raw, c).value, c)
    ensures Abs(Parse(raw, c).value) < Pow10(MAX_COLUMN_DIGITS)
  {
    var d := FromString(Cleaned(raw, c)).value;
    DigitCount(WholePart(d), MAX_INTEGER_DIGITS);
    DecimalIsExact(d, c);
    DecimalFits(d, MAX_INTEGER_DIGITS);
  }

  const MAX_COLUMN_DIGITS: nat := MAX_INTEGER_DIGITS + COLUMN_SCALE

  lemma DecimalIsExact(d: Decimal, c: Currency)
    requires -d.exp <= c.scale
    ensures ExactAt(d.coef * Pow10(d.exp + COLUMN_SCALE), c)
  {
    var up, u := d.exp + c.scale, Unit(c);
    PowAdd(up, COLUMN_SCALE - c.scale);
    MulAssoc(d.coef, Pow10(up), u);
    WholeUnits(u, d.coef * Pow10(up));
    assert u * (d.coef * Pow10(up)) == d.coef * Pow10(up) * u;
  }

  lemma DecimalFits(d: Decimal, k: nat)
    requires -d.exp <= COLUMN_SCALE && WholePart(d) < Pow10(k)
    ensures Abs(d.coef * Pow10(d.exp + COLUMN_SCALE)) < Pow10(k + COLUMN_SCALE)
  {
    var q := Pow10(d.exp + COLUMN_SCALE);
    AbsScaled(d.coef, q);
    PowAdd(k, COLUMN_SCALE);
    if d.exp < 0 {
      PowAdd(-d.exp, d.exp + COLUMN_SCALE);
      FractionFits(Abs(d.coef), Pow10(-d.exp), q, Pow10(k));
    } else {
      PowAdd(d.exp, COLUMN_SCALE);
      MulAssoc(Abs(d.coef), Pow10(d.exp), Pow10(COLUMN_SCALE));
      StrictMul(Abs(d.coef) * Pow10(d.exp), Pow10(k), Pow10(COLUMN_SCALE));
    }
  }

  lemma FractionFits(x: nat, p: int, q: int, limit: int)
    requires p >= 1 && q >= 1 && Quotient(x, p) < limit
    ensures x * q < limit * (p * q)
  {
    MulMono(p, Quotient(x, p) + 1, limit);
    assert p * (Quotient(x, p) + 1) == p * Quotient(x, p) + p;
    StrictMul(x, limit * p, q);
    MulAssoc(limit, p, q);
  }

  lemma AbsScaled(x: int, p: int)
    requires p >= 1
    ensures Abs(x * p) == Abs(x) * p
  {
    if x < 0 {
      assert (-x) * p == -(x * p);
      assert x * p < 0;
    } else {
      assert x * p >= 0;
    }
  }

  lemma StrictMul(a: int, b: int, q: int)
    requires q >= 1 && a < b
    ensures a * q < b * q
  {
  }

  // ------------------------------------------------ what Parse keeps out

  /** What may stand in a decimal literal at all. */
  predicate Literal(c: char) { IsDigit(c) || c in {'+', '-', '.', 'E', 'e'} }

  lemma IntsAreDigits(s: string, i: nat)
    requires i < |s| && !IsDigit(s[i]) && s[i] != '+' && s[i] != '-'
    ensures ParseInt(s) == None
  {
    if s[0] == '+' || s[0] == '-' { assert s[1..][i - 1] == s[i]; }
  }

  /** A text with any other character in it is not a number. */
  lemma NonNumbersAreRejected(s: string, i: nat)
    requires i < |s| && !Literal(s[i])
    ensures FromString(s) == None
  {
    var e := IndexOf(s, 'E', 'e');
    if i > e {
      assert s[e + 1..][i - e - 1] == s[i];
      IntsAreDigits(s[e + 1..], i - e - 1);
    } else {
      assert s[..e][i] == s[i];
      MantissaIsNumeric(s[..e], i);
    }
  }

  lemma MantissaIsNumeric(s: string, i: nat)
    requires i < |s| && !Literal(s[i])
    ensures forall exp :: ReadMantissa(s, exp) == None
  {
    var point := IndexOf(s, '.', '.');
    if point == |s| {
      IntsAreDigits(s, i);
    } else {
      var rest := s[..point] + s[point + 1..];
      var j := if i < point then i else i - 1;
      assert rest[j] == s[i];
      IntsAreDigits(rest, j);
    }
  }

  /** Nor is one with two points, or with nothing but a sign. */
  lemma TwoPointsAreRejected(a: string, b: string, c: string)
    requires forall i :: 0 <= i < |a + b + c| ==> (a + b + c)[i] != 'E' && (a + b + c)[i] != 'e'
    ensures FromString(a + "." + b + "." + c) == None
    ensures FromString("") == None && FromString("-") == None && FromString("+") == None
  {
    var s := a + "." + b + "." + c;
    NoExponentMark(a, b, c);
    var point := IndexOf(s, '.', '.');
    assert s[|a|] == '.';
    assert point <= |a|;
    assert s[point + 1..][|a| + 1 + |b| - point - 1] == '.' || point == |a|;
    assert s[|a| + 1 + |b|] == '.';
    assert s[point + 1..][|a| + |b| - point] == '.';
    assert IndexOf("", 'E', 'e') == 0 && IndexOf("-", 'E', 'e') == 1 && IndexOf("+", 'E', 'e') == 1;
    assert IndexOf("", '.', '.') == 0 && IndexOf("-", '.', '.') == 1 && IndexOf("+", '.', '.') == 1;
    assert ""[..0] == "" && "-"[..1] == "-" && "+"[..1] == "+" && "-"[1..] == "" && "+"[1..] == "";
  }

  lemma NoExponentMark(a: string, b: string, c: string)
    requires forall i :: 0 <= i < |a + b + c| ==> (a + b + c)[i] != 'E' && (a + b + c)[i] != 'e'
    ensures var s := a + "." + b + "." + c; IndexOf(s, 'E', 'e') == |s| && s[..|s|] == s
  {
    var s, all := a + "." + b + "." + c, a + b + c;
    forall i | 0 <= i < |s| ensures s[i] != 'E' && s[i] != 'e' {
      if i < |a| { assert s[i] == all[i]; }
      else if |a| < i < |a| + 1 + |b| { assert s[i] == all[i - 1]; }
      else if i > |a| + 1 + |b| { assert s[i] == all[i - 2]; }
    }
  }

  /** A plus sign says nothing. */
  lemma PlusSaysNothing(digits: string)
    requires digits != "" && AllDigits(digits)
    ensures FromString("+" + digits) == FromString(digits) == Some(Decimal(NatOf(digits), 0))
  {
    var s := "+" + digits;
    assert s[0] == '+' && s[1..] == digits;
    assert IndexOf(s, 'E', 'e') == |s| && IndexOf(s, '.', '.') == |s| && s[..|s|] == s;
    assert IndexOf(digits, 'E', 'e') == |digits| && IndexOf(digits, '.', '.') == |digits|;
    assert digits[..|digits|] == digits;
  }

  /** An exponent shifts the point: s E x is the number s times ten to the x. */
  lemma ExponentShifts(s: string, mark: string, x: int, d: Decimal)
    requires mark == "E" || mark == "e"
    requires forall i :: 0 <= i < |s| ==> s[i] != 'E' && s[i] != 'e'
    requires FromString(s) == Some(d) && MIN_INT32 <= x <= MAX_INT32 && d.exp + x >= MIN_INT32 && d.exp <= 0
    ensures FromString(s + mark + (Sign(x) + DigitsOf(Abs(x)))) == Some(Decimal(d.coef, d.exp + x))
  {
    hide ReadMantissa, ParseInt, Sign, DigitsOf;
    AroundTheMark(s, mark, Sign(x) + DigitsOf(Abs(x)));
    NatOfDigits(Abs(x));
    ParseIntSigned(x, DigitsOf(Abs(x)));
    MantissaShifts(s, x, d);
  }

  lemma AroundTheMark(s: string, mark: string, tail: string)
    requires mark == "E" || mark == "e"
    requires forall i :: 0 <= i < |s| ==> s[i] != 'E' && s[i] != 'e'
    ensures IndexOf(s, 'E', 'e') == |s| && s[..|s|] == s
    ensures var t := s + mark + tail;
            IndexOf(t, 'E', 'e') == |s| < |t| && t[..|s|] == s && t[|s| + 1..] == tail
  {
    var t := s + mark + tail;
    assert t[|s|] == mark[0];
    assert forall k :: 0 <= k < |s| ==> t[k] == s[k];
  }

  lemma MantissaShifts(s: string, x: int, d: Decimal)
    requires ReadMantissa(s, 0) == Some(d) && d.exp + x >= MIN_INT32
    ensures ReadMantissa(s, x) == Some(Decimal(d.coef, d.exp + x))
  {
  }

  // --------------------------------------------------------------- round trip

  /** The code and symbol cannot be mistaken for the start of a number, nor
      the code for the start of the symbol. */
  predicate Plain(c: Currency) {
    && NotNumeric(c.code) && NotNumeric(c.symbol)
    && (c.code == "" || c.symbol == "" || exists k :: 0 <= k < |c.code| && k < |c.symbol| && c.code[k] != c.symbol[k])
  }

  predicate NotNumeric(s: string) {
    s == "" || !(IsDigit(s[0]) || s[0] in {'+', '-', '.'})
  }

  predicate NumberText(s: string) {
    s != [] && (IsDigit(s[0]) || s[0] == '-') && forall i :: 0 <= i < |s| ==> IsDigit(s[i]) || s[i] in {'-', '.'}
  }

  lemma FixedIsNumberText(m: int, scale: nat)
    ensures NumberText(Fixed(m, scale))
  {
  }

  lemma PaddingKeepsTheValue(digits: string, scale: nat)
    requires AllDigits(digits)
    ensures NatOf(Padded(digits, scale)) == NatOf(digits)
  {
    if |digits| <= scale { LeadingZeros(scale + 1 - |digits|, digits); }
  }

  lemma NoPointAmongDigits(s: string)
    requires forall i :: 0 <= i < |s| ==> IsDigit(s[i]) || s[i] == '-'
    ensures IndexOf(s, '.', '.') == |s| && '.' !in s
  {
  }

  lemma NumberHasNoExponent(s: string)
    requires forall i :: 0 <= i < |s| ==> IsDigit(s[i]) || s[i] in {'-', '.'}
    ensures IndexOf(s, 'E', 'e') == |s| && Exponent(s) == Some(0) && s[..|s|] == s
  {
  }

  lemma {:induction false} ParseIntPlain(digits: string)
    requires digits != [] && AllDigits(digits)
    ensures ParseInt(digits) == Some(NatOf(digits))
  {
  }

  lemma {:induction false} ParseIntNegative(digits: string)
    requires digits != [] && AllDigits(digits)
    ensures ParseInt("-" + digits) == Some(0 - NatOf(digits))
  {
    var s := "-" + digits;
    assert s[0] == '-' && s[1..] == digits;
  }

  lemma {:induction false} ParseIntSigned(m: int, digits: string)
    requires digits != [] && AllDigits(digits) && NatOf(digits) == Abs(m)
    ensures ParseInt(Sign(m) + digits) == Some(m)
  {
    if m < 0 {
      ParseIntNegative(digits);
    } else {
      ParseIntPlain(digits);
      assert "" + digits == digits;
    }
  }

  lemma WholeReadsBack(m: int, digits: string)
    requires digits != [] && AllDigits(digits) && NatOf(digits) == Abs(m)
    ensures FromString(Sign(m) + digits) == Some(Scaled(m, 0))
  {
    var s := Sign(m) + digits;
    NumberHasNoExponent(s);
    NoPointAmongDigits(s);
    ParseIntSigned(m, digits);
  }

  lemma FirstPoint(front: string, fraction: string)
    requires '.' !in front
    ensures var s := front + "." + fraction;
            && IndexOf(s, '.', '.') == |front|
            && s[..|front|] == front && s[|front| + 1..] == fraction
  {
    var s := front + "." + fraction;
    assert s[|front|] == '.';
    assert forall k :: 0 <= k < |front| ==> s[k] == front[k] && front[k] in front;
  }

  lemma MantissaReadsBack(m: int, front: string, fraction: string)
    requires '.' !in front && '.' !in fraction && |fraction| <= COLUMN_SCALE
    requires ParseInt(front + fraction) == Some(m)
    ensures ReadMantissa(front + "." + fraction, 0) == Some(Scaled(m, |fraction|))
  {
    FirstPoint(front, fraction);
  }

  lemma {:induction false} PointReadsBack(m: int, whole: string, fraction: string)
    requires whole + fraction != [] && AllDigits(whole) && AllDigits(fraction) && NatOf(whole + fraction) == Abs(m)
    requires |fraction| <= COLUMN_SCALE
    ensures FromString(Sign(m) + whole + "." + fraction) == Some(Scaled(m, |fraction|))
  {
    var front := Sign(m) + whole;
    PlainMantissa(front + "." + fraction);
    MantissaOf(m, whole, fraction);
  }

  lemma MantissaOf(m: int, whole: string, fraction: string)
    requires whole + fraction != [] && AllDigits(whole) && AllDigits(fraction) && NatOf(whole + fraction) == Abs(m)
    requires |fraction| <= COLUMN_SCALE
    ensures ReadMantissa(Sign(m) + whole + "." + fraction, 0) == Some(Scaled(m, |fraction|))
  {
    NoPointAmongDigits(Sign(m) + whole);
    NoPointAmongDigits(fraction);
    SignAround(m, whole, fraction);
    ParseIntSigned(m, whole + fraction);
    MantissaReadsBack(m, Sign(m) + whole, fraction);
  }

  lemma SignAround(m: int, whole: string, fraction: string)
    ensures (Sign(m) + whole) + fraction == Sign(m) + (whole + fraction)
  {
  }

  lemma PlainMantissa(s: string)
    requires forall i :: 0 <= i < |s| ==> IsDigit(s[i]) || s[i] in {'-', '.'}
    ensures FromString(s) == ReadMantissa(s, 0)
  {
    NumberHasNoExponent(s);
  }

  lemma WithPointReadsBack(m: int, digits: string, scale: nat)
    requires |digits| > scale && scale <= COLUMN_SCALE && AllDigits(digits) && NatOf(digits) == Abs(m)
    ensures FromString(WithPoint(Sign(m), digits, scale)) == Some(Scaled(m, scale))
  {
    if scale == 0 {
      WholeReadsBack(m, digits);
    } else {
      var cut := |digits| - scale;
      assert digits[..cut] + digits[cut..] == digits;
      PointReadsBack(m, digits[..cut], digits[cut..]);
    }
  }

  /** The decimal reader undoes the fixed-point writer. */
  lemma FixedReadsBack(m: int, scale: nat)
    requires scale <= COLUMN_SCALE
    ensures FromString(Fixed(m, scale)) == Some(Scaled(m, scale))
  {
    var digits := DigitsOf(Abs(m));
    NatOfDigits(Abs(m));
    PaddingKeepsTheValue(digits, scale);
    WithPointReadsBack(m, Padded(digits, scale), scale);
  }

  lemma PrefixIsNotNumber(affix: string, s: string)
    requires NotNumeric(affix) && NumberText(s)
    ensures TrimPrefix(s, affix) == s
  {
  }

  lemma PrefixComesOff(affix: string, s: string)
    ensures TrimPrefix(affix + s, affix) == s
  {
  }

  lemma CodeIsNotTheSymbol(c: Currency, s: string)
    requires Plain(c) && c.code != "" && c.symbol != ""
    ensures TrimPrefix(c.symbol + s, c.code) == c.symbol + s
  {
    var k :| 0 <= k < |c.code| && k < |c.symbol| && c.code[k] != c.symbol[k];
    assert (c.symbol + s)[k] == c.symbol[k];
  }

  /** The four ways a provider may label the number. */
  predicate Affix(c: Currency, affix: string) {
    affix == "" || affix == c.code || affix == c.symbol || affix == c.code + c.symbol
  }

  function Unlabelled(text: string, c: Currency): string {
    var bare := TrimPrefix(text, c.code);
    if c.symbol != "" then TrimPrefix(bare, c.symbol) else bare
  }

  lemma AffixComesOff(c: Currency, affix: string, s: string)
    requires Plain(c) && Affix(c, affix) && NumberText(s)
    ensures Unlabelled(affix + s, c) == s
  {
    assert "" + s == s;
    if affix == "" || affix == c.code { CodeComesOff(c, affix, s); } else { SymbolComesOff(c, affix, s); }
  }

  lemma CodeComesOff(c: Currency, affix: string, s: string)
    requires Plain(c) && NumberText(s) && (affix == "" || affix == c.code)
    ensures Unlabelled(affix + s, c) == s
  {
    hide NumberText;
    PrefixIsNotNumber(c.code, s);
    PrefixIsNotNumber(c.symbol, s);
    assert "" + s == s;
    PrefixComesOff(c.code, s);
  }

  lemma SymbolComesOff(c: Currency, affix: string, s: string)
    requires Plain(c) && c.symbol != "" && (affix == c.symbol || affix == c.code + c.symbol)
    ensures Unlabelled(affix + s, c) == s
  {
    hide NotNumeric;
    assert (c.code + c.symbol) + s == c.code + (c.symbol + s);
    PrefixComesOff(c.symbol, s);
    PrefixComesOff(c.code, c.symbol + s);
    if c.code != "" { CodeIsNotTheSymbol(c, s); } else { assert c.symbol + s == "" + (c.symbol + s); }
  }

  /** Blanks round the outside, and commas and spaces anywhere inside, are
      noise: cleaning the text leaves what was written between them. */
  lemma SeparatorsAreNoise(lead: string, mid: string, trail: string, text: string)
    requires AllSpace(lead) && AllSpace(trail)
    requires forall i :: 0 <= i < |mid| && IsSpace(mid[i]) ==> mid[i] == ' '
    requires Remove(Remove(mid, ','), ' ') == text && text != []
    ensures Remove(Remove(Trim(lead + mid + trail), ','), ' ') == text
  {
    RemoveCommutes(mid, ',', ' ');
    if AllSpace(mid) {
      AllBlank(mid);
      assert false;
    }
    assert lead + mid + trail == lead + (mid + trail);
    TrimLeftPast(lead, mid + trail);
    TrimLeftInside(mid, trail);
    TrimRightPast(TrimLeft(mid), trail);
    RemoveAfterTrimLeft(mid);
    RemoveAfterTrimRight(TrimLeft(mid));
    RemoveCommutes(Trim(mid), ',', ' ');
  }

  lemma {:induction false} AllBlank(s: string)
    requires AllSpace(s) && forall i :: 0 <= i < |s| && IsSpace(s[i]) ==> s[i] == ' '
    ensures Remove(s, ' ') == []
  {
    if s != [] { AllBlank(s[1..]); }
  }

  lemma RoundDivExactSigned(amount: int, u: int)
    requires u > 0 && amount % u == 0
    ensures RoundDiv(amount, u) * u == amount
  {
    var k := amount / u;
    assert u * k == amount;
    RoundDivUnique(amount, u, k);
  }

  lemma {:induction false} WholePartFits(amount: int, c: Currency, k: nat)
    requires ExactAt(amount, c) && Abs(amount) < Pow10(k + COLUMN_SCALE)
    ensures var m := RoundDiv(amount, Unit(c));
            m * Unit(c) == amount && WholePart(Scaled(m, c.scale)) < Pow10(k)
  {
    var u, p := Unit(c), Pow10(c.scale);
    var m := RoundDiv(amount, u);
    RoundDivExactSigned(amount, u);
    AbsScaled(m, u);
    PowAdd(k + c.scale, COLUMN_SCALE - c.scale);
    PowAdd(k, c.scale);
    UnitsFit(Abs(m), u, p, Pow10(k));
    if c.scale == 0 { assert Product(Abs(m), 1) == Abs(m); }
  }

  lemma UnitsFit(m: nat, u: int, p: int, limit: int)
    requires u >= 1 && p >= 1 && m * u < (limit * p) * u
    ensures m < limit * p && Quotient(m, p) < limit
  {
    assert m * u == u * m && (limit * p) * u == u * (limit * p);
    MulCancel(u, m, limit * p);
    assert limit * p == p * limit;
    MulCancel(p, Quotient(m, p), limit);
  }

  /** Format writes the amount rounded to the currency's places, to the nearest
      and halves away from zero, whether or not it was exact. */
  lemma FormatRoundsToNearest(amount: int, c: Currency)
    ensures exists m ::
              && FromString(Format(amount, c)) == Some(Scaled(m, c.scale))
              && (amount >= 0 ==> -Unit(c) < 2 * (Unit(c) * m - amount) <= Unit(c))
              && (amount < 0 ==> -Unit(c) <= 2 * (Unit(c) * m - amount) < Unit(c))
  {
    var m := RoundDiv(amount, Unit(c));
    FixedReadsBack(m, c.scale);
    RoundDivNearest(amount, Unit(c));
  }

  /** The amount Format writes is the amount Parse reads, in every dressing a
      provider puts on it. */
  lemma ParseUndoesFormat(amount: int, c: Currency, affix: string, lead: string, mid: string, trail: string)
    requires ExactAt(amount, c) && Abs(amount) < Pow10(MAX_COLUMN_DIGITS)
    requires Plain(c) && Affix(c, affix)
    requires AllSpace(lead) && AllSpace(trail)
    requires forall i :: 0 <= i < |mid| && IsSpace(mid[i]) ==> mid[i] == ' '
    requires Remove(Remove(mid, ','), ' ') == affix + Format(amount, c)
    ensures Parse(lead + mid + trail, c) == Ok(amount)
  {
    FixedIsNumberText(RoundDiv(amount, Unit(c)), c.scale);
    SeparatorsAreNoise(lead, mid, trail, affix + Format(amount, c));
    AffixComesOff(c, affix, Format(amount, c));
    CleanTextParses(amount, c, lead + mid + trail);
  }

  lemma CleanTextParses(amount: int, c: Currency, raw: string)
    requires ExactAt(amount, c) && Abs(amount) < Pow10(MAX_COLUMN_DIGITS)
    requires Cleaned(raw, c) == Format(amount, c)
    ensures Parse(raw, c) == Ok(amount)
  {
    var m := RoundDiv(amount, Unit(c));
    FixedIsNumberText(m, c.scale);
    FixedReadsBack(m, c.scale);
    FewDigits(amount, c);
    AcceptsScaled(m, c, Fixed(m, c.scale));
  }

  lemma FewDigits(amount: int, c: Currency)
    requires ExactAt(amount, c) && Abs(amount) < Pow10(MAX_COLUMN_DIGITS)
    ensures var m := RoundDiv(amount, Unit(c));
            m * Unit(c) == amount && |DigitsOf(WholePart(Scaled(m, c.scale)))| <= MAX_INTEGER_DIGITS
  {
    WholePartFits(amount, c, MAX_INTEGER_DIGITS);
    DigitCount(WholePart(Scaled(RoundDiv(amount, Unit(c)), c.scale)), MAX_INTEGER_DIGITS);
  }

  lemma AcceptsScaled(m: int, c: Currency, s: string)
    requires s != "" && FromString(s) == Some(Scaled(m, c.scale))
    requires |DigitsOf(WholePart(Scaled(m, c.scale)))| <= MAX_INTEGER_DIGITS
    ensures ReadNumber(s, c) == Ok(m * Unit(c))
  {
  }

  lemma PlainFormatRoundTrips(amount: int, c: Currency)
    requires ExactAt(amount, c) && Abs(amount) < Pow10(MAX_COLUMN_DIGITS) && Plain(c)
    ensures Parse(Format(amount, c), c) == Ok(amount)
  {
    hide Parse, Pow10, Fixed, NumberText, Plain, ExactAt;
    var s := Format(amount, c);
    FixedIsNumberText(RoundDiv(amount, Unit(c)), c.scale);
    NumbersHaveNoSeparators(s);
    Unpadded(s);
    ParseUndoesFormat(amount, c, "", [], s, []);
  }

  lemma Unpadded(s: string)
    ensures [] + s + [] == s && "" + s == s
  {
  }

  lemma NumbersHaveNoSeparators(s: string)
    requires NumberText(s)
    ensures Remove(Remove(s, ','), ' ') == s
    ensures forall i :: 0 <= i < |s| ==> !IsSpace(s[i])
  {
    RemoveAbsent(s, ',');
    RemoveAbsent(s, ' ');
  }

  /** Writing what was read is the canonical spelling: it reads back the same. */
  lemma FormatIsCanonical(raw: string, c: Currency)
    requires Plain(c) && Parse(raw, c).Ok?
    ensures Parse(Format(Parse(raw, c).value, c), c) == Parse(raw, c)
  {
    AcceptedAmountsAreExact(raw, c);
    PlainFormatRoundTrips(Parse(raw, c).value, c);
  }

  /** Every programme currency is plain; so is an unknown code that does not
      begin like a number. */
  lemma LookedUpCurrenciesArePlain(code: string)
    requires NotNumeric(Lookup(code).code)
    ensures Plain(Lookup(code))
  {
    var c := Lookup(code);
    if c.symbol != "" && c.code != "" {
      assert c.code in CURRENCIES && CURRENCIES[c.code] == c;
      assert c.code[0] != c.symbol[0] || (|c.symbol| > 1 && c.code[1] != c.symbol[1]);
    }
  }

  /** The condition matters: a ticker that begins with a digit eats the front
      of the number, and ten units read back as none. */
  lemma DigitCodeEatsTheAmount()
    ensures Lookup("1").code == "1"
    ensures Parse(Format(10_000_000, Lookup("1")), Lookup("1")) == Ok(0)
  {
    var c := Lookup("1");
    TrimOfTrimmed("1");
    assert c == Currency("1", "", 2);
    TenIsWritten(c);
    CleanedTen(c);
    CleanTextParses(0, c, "10.00");
  }

  lemma CleanedTen(c: Currency)
    requires c.code == "1" && c.symbol == ""
    ensures Cleaned("10.00", c) == "0.00"
  {
    var s := "10.00";
    TrimOfTrimmed(s);
    RemoveAbsent(s, ',');
    RemoveAbsent(s, ' ');
    PrefixComesOff("1", "0.00");
    assert s == "1" + "0.00";
  }

  lemma TenIsWritten(c: Currency)
    requires c.scale == 2
    ensures Format(10_000_000, c) == "10.00" && Format(0, c) == "0.00"
  {
    PowFour();
    assert RoundDiv(10_000_000, 10_000) == 1000 && RoundDiv(0, 10_000) == 0;
    SomeDigits();
  }

  lemma PowFour()
    ensures Pow10(4) == 10_000
  {
    assert Pow10(2) == 100 && Pow10(4) == 100 * Pow10(2);
  }

  lemma SomeDigits()
    ensures DigitsOf(1000) == "1000" && Padded("1000", 2) == "1000"
    ensures DigitsOf(0) == "0" && Padded("0", 2) == "000"
  {
    assert DigitsOf(10) == "10" && DigitsOf(100) == "100";
    assert Zeros(1) == "0" && Zeros(2) == "00";
  }
}

/**
  A deployed asset and its repayment arithmetic:
  src/internal/domain/deployment/entity.go.

  Instants are whole seconds on one time line.
*/
module Deployments {
  import opened Prelude
  import opened Money

  datatype Status = Active | Delinquent | Completed | WrittenOff

  datatype Deployment = Deployment(
    id: nat,
    customer: string,
    currency: string,
    principal: int,
    term: int,
    startDate: int,
    createdAt: int,
    amountPaid: int,
    paymentCount: nat,
    status: Status,
    lastPaymentAt: Option<int>,
    completedAt: Option<int>)

  /** Schedule health, best last; see Rank. */
  datatype Schedule = Behind | OnTrack | Ahead | Settled

  const WEEK: int := 604800

  predicate IsOpen(d: Deployment) { d.status == Active || d.status == Delinquent }

  function Outstanding(d: Deployment): int { NonNegative(d.principal - d.amountPaid) }

  function Excess(d: Deployment): int { NonNegative(d.amountPaid - d.principal) }

  function WeeklyDue(d: Deployment, c: Currency): int { Prorate(d.principal, 1, d.term, c) }

  function WeeksElapsed(d: Deployment, asOf: int): int {
    if asOf < d.startDate then 0
    else Min((asOf - d.startDate) / WEEK, d.term)
  }

  function ExpectedPaidToDate(d: Deployment, c: Currency, asOf: int): int {
    if d.term <= 0 then d.principal
    else Prorate(d.principal, WeeksElapsed(d, asOf), d.term, c)
  }

  function Arrears(d: Deployment, c: Currency, asOf: int): int {
    if !IsOpen(d) then 0 else NonNegative(ExpectedPaidToDate(d, c, asOf) - d.amountPaid)
  }

  function AheadBy(d: Deployment, c: Currency, asOf: int): int {
    NonNegative(Min(d.amountPaid, d.principal) - ExpectedPaidToDate(d, c, asOf))
  }

  function ScheduleStatus(d: Deployment, c: Currency, asOf: int): Schedule {
    if !IsOpen(d) || Outstanding(d) == 0 then Settled
    else if Arrears(d, c, asOf) > WeeklyDue(d, c) then Behind
    else if AheadBy(d, c, asOf) > 0 then Ahead
    else OnTrack
  }

  /** The part of a credit that reduces the balance; the rest is excess. */
  function SplitPayment(principal: int, paidBefore: int, amount: int): int {
    Min(amount, NonNegative(principal - paidBefore))
  }

  /** What the schema's CHECK constraints promise of every stored deployment. */
  predicate Sound(d: Deployment) {
    d.principal > 0 && 1 <= d.term <= 520 && d.amountPaid >= 0
  }

  function Rank(s: Schedule): int {
    match s
    case Behind => 0
    case OnTrack => 1
    case Ahead => 2
    case Settled => 3
  }

  // ---------------------------------------------------------------- proration

  /** The expectation after w whole weeks, in minor units. */
  function ExpectedUnits(d: Deployment, c: Currency, w: int): int
    requires d.term > 0
  {
    RoundDiv(d.principal * w, d.term * Unit(c))
  }

  /** A term's worth of minor units is a positive divisor. */
  lemma DivisorPositive(d: Deployment, c: Currency)
    requires d.term > 0
    ensures d.term * Unit(c) > 0
  {
  }

  lemma ExpectedInUnits(d: Deployment, c: Currency, asOf: int)
    requires d.term > 0
    ensures d.term * Unit(c) > 0
    ensures ExpectedPaidToDate(d, c, asOf) == Unit(c) * ExpectedUnits(d, c, WeeksElapsed(d, asOf))
    ensures WeeklyDue(d, c) == Unit(c) * ExpectedUnits(d, c, 1)
  {
    DivisorPositive(d, c);
  }

  lemma WeeksElapsedRange(d: Deployment, asOf: int)
    requires d.term >= 0
    ensures 0 <= WeeksElapsed(d, asOf) <= d.term
    ensures asOf <= d.startDate ==> WeeksElapsed(d, asOf) == 0
    ensures asOf >= d.startDate + d.term * WEEK ==> WeeksElapsed(d, asOf) == d.term
  {
  }

  /** Within the term it is the number of weeks completed: the k-th week counts
      from the instant it ends. */
  lemma WeeksElapsedCountsWeeks(d: Deployment, asOf: int, k: int)
    requires d.term >= 0 && d.startDate <= asOf < d.startDate + d.term * WEEK
    ensures WeeksElapsed(d, asOf) == k <==> d.startDate + k * WEEK <= asOf < d.startDate + (k + 1) * WEEK
  {
  }

  lemma WeeksElapsedMonotone(d: Deployment, early: int, late: int)
    requires d.term >= 0 && early <= late
    ensures WeeksElapsed(d, early) <= WeeksElapsed(d, late)
  {
    WeeksElapsedRange(d, early);
    WeeksElapsedRange(d, late);
  }

  /** The expectation is within half a minor unit of principal x weeks / term. */
  lemma ExpectedWithinHalfUnit(d: Deployment, c: Currency, asOf: int)
    requires Sound(d)
    ensures var gap := 2 * (d.term * ExpectedPaidToDate(d, c, asOf) - d.principal * WeeksElapsed(d, asOf));
            -(d.term * Unit(c)) <= gap <= d.term * Unit(c)
  {
    var w, q := WeeksElapsed(d, asOf), d.term * Unit(c);
    WeeksElapsedRange(d, asOf);
    ExpectedInUnits(d, c, asOf);
    RoundDivNearest(d.principal * w, q);
    MulAssoc(d.term, Unit(c), ExpectedUnits(d, c, w));
  }

  lemma ExpectedMonotoneInTime(d: Deployment, c: Currency, early: int, late: int)
    requires Sound(d) && early <= late
    ensures ExpectedPaidToDate(d, c, early) <= ExpectedPaidToDate(d, c, late)
  {
    var w, w' := WeeksElapsed(d, early), WeeksElapsed(d, late);
    WeeksElapsedMonotone(d, early, late);
    WeeksElapsedRange(d, early);
    ExpectedInUnits(d, c, early);
    ExpectedInUnits(d, c, late);
    MulMono(d.principal, 0, w);
    MulMono(d.principal, w, w');
    RoundDivMonotone(d.principal * w, d.principal * w', d.term * Unit(c));
    MulMono(Unit(c), ExpectedUnits(d, c, w), ExpectedUnits(d, c, w'));
  }

  /** Nothing is expected at the start, and at the end of term the whole
      principal is: exactly when the principal is a whole number of minor
      units, which is what parsing it at its own currency guarantees. */
  lemma ExpectedAtTheEnds(d: Deployment, c: Currency, asOf: int)
    requires Sound(d)
    ensures asOf <= d.startDate ==> ExpectedPaidToDate(d, c, asOf) == 0
    ensures asOf >= d.startDate + d.term * WEEK ==>
              (ExpectedPaidToDate(d, c, asOf) == d.principal <==> ExactAt(d.principal, c))
  {
    var u, q := Unit(c), d.term * Unit(c);
    WeeksElapsedRange(d, asOf);
    ExpectedInUnits(d, c, asOf);
    if asOf <= d.startDate {
      assert q * 0 == 0;
      RoundDivExact(0, q);
    }
    if asOf >= d.startDate + d.term * WEEK {
      var k := d.principal / u;
      var e := ExpectedUnits(d, c, d.term);
      if ExactAt(d.principal, c) {
        assert d.principal == u * k;
        assert d.principal * d.term == q * k by { Rearrange(d.term, u, k); }
        RoundDivExact(k, q);
      } else if ExpectedPaidToDate(d, c, asOf) == d.principal {
        WholeUnits(u, e);
        assert false;
      }
    }
  }

  lemma Rearrange(t: int, u: int, k: int)
    ensures (u * k) * t == (t * u) * k
  {
  }

  lemma ExpectedBetweenZeroAndPrincipal(d: Deployment, c: Currency, asOf: int)
    requires Sound(d) && ExactAt(d.principal, c)
    ensures 0 <= ExpectedPaidToDate(d, c, asOf) <= d.principal
  {
    var end := Max(asOf, d.startDate + d.term * WEEK);
    var begin := Min(asOf, d.startDate);
    ExpectedAtTheEnds(d, c, begin);
    ExpectedAtTheEnds(d, c, end);
    ExpectedMonotoneInTime(d, c, begin, asOf);
    ExpectedMonotoneInTime(d, c, asOf, end);
  }

  // ------------------------------------------------- instalments and arrears

  /** Paying the rounded instalment w times leaves the customer short of the
      rounded expectation by at most w/2 minor units: rounding drift never
      accumulates faster than half a unit a week. */
  lemma InstalmentDrift(d: Deployment, c: Currency, w: int)
    requires Sound(d) && w >= 1
    ensures 2 * (ExpectedUnits(d, c, w) - w * ExpectedUnits(d, c, 1)) <= w
  {
    var q, p := d.term * Unit(c), d.principal;
    DivisorPositive(d, c);
    MulMono(p, 0, w);
    RoundDivNearest(p * w, q);
    RoundDivNearest(p, q);
    DriftBound(p, q, w, ExpectedUnits(d, c, w), ExpectedUnits(d, c, 1));
  }

  /** One instalment is short by strictly less than half a unit, w of them by
      less than w halves. */
  lemma DriftBound(p: int, q: int, w: int, e: int, i: int)
    requires q > 0 && w >= 1
    requires 2 * (q * e - p * w) <= q
    requires -q < 2 * (q * i - p)
    ensures 2 * (e - w * i) <= w
  {
    var short := 2 * (p - q * i);
    MulMono(w, short, q - 1);
    Expand(w, p, q, i);
    assert w * (q - 1) == w * q - w;
    Distribute(q, e, w * i);
    MulGap(q, 2 * (e - w * i), w);
  }

  lemma Expand(w: int, p: int, q: int, i: int)
    ensures w * (2 * (p - q * i)) == 2 * (p * w) - 2 * (q * (w * i))
  {
    assert w * (q * i) == q * (w * i);
  }

  lemma Distribute(q: int, a: int, b: int)
    ensures q * (2 * (a - b)) == 2 * (q * a) - 2 * (q * b)
  {
  }

  /** The promise behind the one-instalment tolerance: a customer who has paid
      every instalment due so far owes at most w/2 minor units of arrears, and
      so is not reported behind while the instalment covers that drift. */
  lemma PunctualCustomerIsNeverBehind(d: Deployment, c: Currency, asOf: int)
    requires Sound(d)
    requires d.amountPaid >= WeeksElapsed(d, asOf) * WeeklyDue(d, c)
    ensures 2 * Arrears(d, c, asOf) <= WeeksElapsed(d, asOf) * Unit(c)
    ensures 2 * WeeklyDue(d, c) >= WeeksElapsed(d, asOf) * Unit(c) ==> ScheduleStatus(d, c, asOf) != Behind
  {
    var w, u := WeeksElapsed(d, asOf), Unit(c);
    WeeksElapsedRange(d, asOf);
    MulMono(w, 0, u);
    PunctualGap(d, c, asOf);
    var e, i := ExpectedPaidToDate(d, c, asOf), WeeklyDue(d, c);
    assert Arrears(d, c, asOf) <= Max(e - w * i, 0);
  }

  lemma PunctualGap(d: Deployment, c: Currency, asOf: int)
    requires Sound(d)
    ensures var w := WeeksElapsed(d, asOf);
            2 * (ExpectedPaidToDate(d, c, asOf) - w * WeeklyDue(d, c)) <= w * Unit(c)
  {
    var w, u := WeeksElapsed(d, asOf), Unit(c);
    WeeksElapsedRange(d, asOf);
    ExpectedInUnits(d, c, asOf);
    if w == 0 {
      ExpectedAtWeekZero(d, c);
    } else {
      InstalmentDrift(d, c, w);
      var e, i := ExpectedUnits(d, c, w), ExpectedUnits(d, c, 1);
      MulMono(u, 2 * (e - w * i), w);
      Distribute(u, e, w * i);
      Swap(u, w, i);
    }
  }

  lemma ExpectedAtWeekZero(d: Deployment, c: Currency)
    requires d.term > 0
    ensures ExpectedUnits(d, c, 0) == 0
  {
    DivisorPositive(d, c);
    RoundDivExact(0, d.term * Unit(c));
  }

  lemma Swap(u: int, w: int, i: int)
    ensures u * (w * i) == w * (u * i)
  {
  }

  /** A full term of instalments collects the principal to within term/2 minor
      units either way. */
  lemma InstalmentsCollectThePrincipal(d: Deployment, c: Currency)
    requires Sound(d)
    ensures -(d.term * Unit(c)) <= 2 * (d.term * WeeklyDue(d, c) - d.principal) <= d.term * Unit(c)
  {
    var q := d.term * Unit(c);
    hide RoundDiv, Unit;
    DivisorPositive(d, c);
    RoundDivNearest(d.principal, q);
    ExpectedInUnits(d, c, 0);
    MulAssoc(d.term, Unit(c), ExpectedUnits(d, c, 1));
    assert d.principal * 1 == d.principal;
  }

  // ------------------------------------------------------- schedule monotony

  /** Still accepting repayments unless paid in full or written off. */
  lemma OpenUnlessClosed(d: Deployment)
    ensures IsOpen(d) <==> d.status != Completed && d.status != WrittenOff
  {
  }

  /** Arrears are what an open deployment's balance falls short of the
      expectation by, and ahead-by what the balance, counted up to the principal,
      exceeds it by. */
  lemma ArrearsAndAheadBy(d: Deployment, c: Currency, asOf: int)
    ensures var e := ExpectedPaidToDate(d, c, asOf);
            var counted := if d.amountPaid < d.principal then d.amountPaid else d.principal;
            && (Arrears(d, c, asOf) > 0 <==> d.status in {Active, Delinquent} && d.amountPaid < e)
            && (Arrears(d, c, asOf) > 0 ==> d.amountPaid + Arrears(d, c, asOf) == e)
            && (AheadBy(d, c, asOf) > 0 <==> counted > e)
            && (AheadBy(d, c, asOf) > 0 ==> e + AheadBy(d, c, asOf) == counted)
            && Arrears(d, c, asOf) >= 0 && AheadBy(d, c, asOf) >= 0
  {
  }

  /** When each schedule status is reported, by the balance alone. */
  lemma WhenEachStatusIsReported(d: Deployment, c: Currency, asOf: int)
    requires Sound(d)
    ensures var e, status := ExpectedPaidToDate(d, c, asOf), ScheduleStatus(d, c, asOf);
            var owing := d.status in {Active, Delinquent} && d.amountPaid < d.principal;
            && (status == Settled <==> !owing)
            && (status == Behind <==> owing && d.amountPaid + WeeklyDue(d, c) < e)
            && (status == Ahead <==> owing && d.amountPaid > e)
            && (status == OnTrack <==> owing && d.amountPaid <= e <= d.amountPaid + WeeklyDue(d, c))
  {
    ExpectedInUnits(d, c, asOf);
    RoundDivNonNegative(d.principal, d.term * Unit(c));
    MulMono(Unit(c), 0, ExpectedUnits(d, c, 1));
  }

  lemma NeverBothBehindAndAhead(d: Deployment, c: Currency, asOf: int)
    requires Sound(d)
    ensures !(Arrears(d, c, asOf) > 0 && AheadBy(d, c, asOf) > 0)
  {
  }

  lemma PayingMoreNeverWorsens(d: Deployment, c: Currency, asOf: int, more: int)
    requires Sound(d) && more >= 0
    ensures Rank(ScheduleStatus(d, c, asOf)) <= Rank(ScheduleStatus(d.(amountPaid := d.amountPaid + more), c, asOf))
  {
    var d' := d.(amountPaid := d.amountPaid + more);
    assert ExpectedPaidToDate(d', c, asOf) == ExpectedPaidToDate(d, c, asOf);
    assert WeeklyDue(d', c) == WeeklyDue(d, c) >= 0 by {
      ExpectedInUnits(d, c, asOf);
      RoundDivNonNegative(d.principal, d.term * Unit(c));
      MulMono(Unit(c), 0, ExpectedUnits(d, c, 1));
    }
  }

  lemma WaitingNeverImproves(d: Deployment, c: Currency, early: int, late: int)
    requires Sound(d) && early <= late
    ensures Rank(ScheduleStatus(d, c, late)) <= Rank(ScheduleStatus(d, c, early))
  {
    ExpectedMonotoneInTime(d, c, early, late);
    assert WeeklyDue(d, c) >= 0 by {
      ExpectedInUnits(d, c, early);
      RoundDivNonNegative(d.principal, d.term * Unit(c));
      MulMono(Unit(c), 0, ExpectedUnits(d, c, 1));
    }
  }
}

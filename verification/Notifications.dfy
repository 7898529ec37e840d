/**
  Admission: Notification.Validate of src/internal/domain/payment/entity.go and
  the checks of Create in src/internal/domain/deployment/service.go.
*/
module Notifications {
  import opened Prelude
  import opened Money
  import opened Text
  import opened AmountText
  import opened RoundTrips
  import opened Ledger
  import opened Deployments

  /** The provider's payload; `date` is what reading transaction_date gave. */
  datatype Payload = Payload(
    customer: string,
    status: string,
    amount: string,
    date: Option<int>,
    reference: string,
    currency: string)

  datatype Field = CustomerId | Reference | TransactionAmount | PaymentStatus | TransactionDate

  const MIN_REFERENCE_LENGTH := 6
  const MAX_REFERENCE_LENGTH := 128
  const MAX_CUSTOMER_ID_LENGTH := 64

  const SUCCESS_STATUSES: set<string> := {"COMPLETE", "COMPLETED", "SUCCESS", "SUCCESSFUL"}

  /** The funds have settled. */
  predicate IsSuccessful(status: string) { Upper(Trim(status)) in SUCCESS_STATUSES }

  function PayloadCurrency(p: Payload, default: Currency): Currency {
    if Trim(p.currency) != "" then Lookup(p.currency) else default
  }

  function Validate(p: Payload, default: Currency): Result<Notification, set<Field>> {
    var customer, reference, status := Trim(p.customer), Trim(p.reference), Upper(Trim(p.status));
    var currency := PayloadCurrency(p, default);
    var amount := ParsePositive(p.amount, currency);
    var faults :=
      (if customer == "" || |customer| > MAX_CUSTOMER_ID_LENGTH then {CustomerId} else {})
      + (if reference == "" || !(MIN_REFERENCE_LENGTH <= |reference| <= MAX_REFERENCE_LENGTH) then {Reference} else {})
      + (if amount.Err? then {TransactionAmount} else {})
      + (if status == "" then {PaymentStatus} else {})
      + (if p.date.None? then {TransactionDate} else {});
    if faults != {} then Err(faults)
    else
      assert TransactionAmount !in faults && TransactionDate !in faults;
      Ok(Notification(customer, reference, currency, amount.value, status, p.date.value))
  }

  /** What everything behind the webhook relies on. */
  ghost predicate Proper(n: Notification) {
    && 0 < |n.customer| <= MAX_CUSTOMER_ID_LENGTH && Trim(n.customer) == n.customer
    && MIN_REFERENCE_LENGTH <= |n.reference| <= MAX_REFERENCE_LENGTH && Trim(n.reference) == n.reference
    && 0 < n.amount < Pow10(MAX_COLUMN_DIGITS) && ExactAt(n.amount, n.currency)
    && n.providerStatus != "" && Upper(Trim(n.providerStatus)) == n.providerStatus
  }

  /** A validated notification is proper: positive, exact at its currency,
      inside the column, trimmed, and with a status in normal form. */
  lemma ValidatedIsProper(p: Payload, default: Currency)
    ensures Validate(p, default).Ok? ==> Proper(Validate(p, default).value)
  {
    if Validate(p, default).Ok? {
      var n := Validate(p, default).value;
      TrimIsTrimmed(p.customer);
      TrimOfTrimmed(n.customer);
      TrimIsTrimmed(p.reference);
      TrimOfTrimmed(n.reference);
      NormalFormIsStable(p.status);
      AcceptedAmountsAreExact(p.amount, n.currency);
      var tooLong := if n.customer == "" || |n.customer| > MAX_CUSTOMER_ID_LENGTH then {CustomerId} else {};
      assert CustomerId !in tooLong;
    }
  }

  /** What gets in is what was written: trimmed, the status in normal form, the
      currency the payload names or else the default, the amount as read at it. */
  lemma ValidatedIsThePayload(p: Payload, default: Currency)
    ensures Validate(p, default).Ok? ==>
              var n := Validate(p, default).value;
              && n.customer == Trim(p.customer) && n.reference == Trim(p.reference)
              && n.providerStatus == Upper(Trim(p.status)) && p.date == Some(n.date)
              && (Trim(p.currency) == "" ==> n.currency == default)
              && (Trim(p.currency) != "" ==> n.currency == Lookup(p.currency))
              && Parse(p.amount, n.currency) == Ok(n.amount) && n.amount > 0
  {
    hide Parse, Trim, Upper, Lookup;
    if Validate(p, default).Ok? {
      var amount := ParsePositive(p.amount, PayloadCurrency(p, default));
      var faults: set<Field> := if amount.Err? then {TransactionAmount} else {};
      assert TransactionAmount !in faults;
    }
  }

  /** A refusal names exactly the fields that are wrong. */
  lemma RefusalNamesTheFields(p: Payload, default: Currency, fields: set<Field>)
    ensures Validate(p, default) == Err(fields) ==>
              var currency := if Trim(p.currency) == "" then default else Lookup(p.currency);
              && fields != {}
              && (CustomerId in fields <==> !(1 <= |Trim(p.customer)| <= 64))
              && (Reference in fields <==> !(6 <= |Trim(p.reference)| <= 128))
              && (TransactionAmount in fields <==>
                    Parse(p.amount, currency).Err? || Parse(p.amount, currency).value <= 0)
              && (PaymentStatus in fields <==> Upper(Trim(p.status)) == "")
              && (TransactionDate in fields <==> p.date.None?)
  {
    hide Parse, Trim, Upper, Lookup;
  }

  /** The funds have settled exactly under these four statuses. */
  lemma SettledStatuses(status: string)
    ensures IsSuccessful(status) <==>
              var s := Upper(Trim(status));
              s == "COMPLETE" || s == "COMPLETED" || s == "SUCCESS" || s == "SUCCESSFUL"
  {
  }

  /** The payload a provider would write for a notification. */
  function Rendered(n: Notification): Payload {
    Payload(n.customer, n.providerStatus, Format(n.amount, n.currency), Some(n.date), n.reference, n.currency.code)
  }

  /** Every proper notification gets in unchanged, exactly when its currency
      code does not spoil its amount. */
  lemma ValidateUndoesRendering(n: Notification, default: Currency)
    requires Proper(n) && Lookup(n.currency.code) == n.currency && Trim(n.currency.code) != ""
    ensures Validate(Rendered(n), default) == Ok(n) <==> CodeIsHarmless(n.amount, n.currency)
  {
    hide Parse, Format, Upper, Trim, CodeIsHarmless, Pow10;
    var p := Rendered(n);
    assert NotNumeric(n.currency.symbol);
    RoundTripsIffHarmless(n.amount, n.currency);
    assert PayloadCurrency(p, default) == n.currency;
  }

  // ------------------------------------------------------------- deployments

  const MAX_TERM_WEEKS := 520

  const DAY: int := 86400

  /** A registration; an absent currency, principal, term or start date is
      filled from the programme's defaults. */
  datatype Registration = Registration(
    customer: string,
    currency: string,
    principal: int,
    term: int,
    startDate: Option<int>)

  datatype Defaults = Defaults(currency: string, principal: int, term: int)

  datatype Fault = InvalidCustomer | InvalidPrincipal | InvalidTerm

  function Admit(r: Registration, defaults: Defaults, now: int): Result<CreateInput, Fault> {
    var customer := Trim(r.customer);
    var currency := if r.currency == "" then defaults.currency else r.currency;
    var principal := if r.principal == 0 then defaults.principal else r.principal;
    var term := if r.term == 0 then defaults.term else r.term;
    var start := match r.startDate case None => now case Some(t) => t;
    if customer == "" then Err(InvalidCustomer)
    else if principal <= 0 then Err(InvalidPrincipal)
    else if term < 0 || term > MAX_TERM_WEEKS then Err(InvalidTerm)
    else Ok(CreateInput(customer, currency, principal, term, start - start % DAY))
  }

  /** A registration asks for its own terms, or for the programme's exactly where
      it leaves them out, from its own start date or today, cut to the day; it is
      refused for a blank customer, a principal that is not positive or a term
      out of range, in that order. */
  lemma AdmittedAsAsked(r: Registration, defaults: Defaults, now: int)
    ensures var principal := if r.principal != 0 then r.principal else defaults.principal;
            var term := if r.term != 0 then r.term else defaults.term;
            match Admit(r, defaults, now)
            case Err(InvalidCustomer) => Trim(r.customer) == ""
            case Err(InvalidPrincipal) => Trim(r.customer) != "" && principal <= 0
            case Err(InvalidTerm) => Trim(r.customer) != "" && principal > 0 && !(0 <= term <= 520)
            case Ok(input) =>
              && input.customer == Trim(r.customer) != "" && input.principal == principal > 0
              && input.term == term && 0 <= term <= 520
              && input.currency == (if r.currency != "" then r.currency else defaults.currency)
              && input.startDate % 86400 == 0
              && (r.startDate.Some? ==> 0 <= r.startDate.value - input.startDate < 86400)
              && (r.startDate.None? ==> 0 <= now - input.startDate < 86400)
  {
    hide Trim;
  }

  /** With a positive default term an admitted registration passes the schema's
      CHECK constraints, so the insert can only be refused as a second open
      deployment. */
  lemma AdmittedPassesTheSchema(r: Registration, defaults: Defaults, now: int, db: Db)
    requires defaults.term > 0 && Admit(r, defaults, now).Ok?
    ensures var input := Admit(r, defaults, now).value;
            && Trim(input.customer) == input.customer != ""
            && input.startDate % DAY == 0
            && (CreateStatement(db, input, now).1.Created? <==> !HasOpen(db.deployments, input.customer))
            && (CreateStatement(db, input, now).1 == Taken <==> HasOpen(db.deployments, input.customer))
  {
    TrimIsTrimmed(r.customer);
    TrimOfTrimmed(Trim(r.customer));
  }
}

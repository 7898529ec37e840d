/** src/internal/infrastructure/database/repositories: each statement run in
    place on the tables. */
module Repositories {
  import opened Prelude
  import opened Deployments
  import opened Ledger
  import opened Notifications
  import opened Handling
  import opened Storage

  datatype Error =
    | ErrInvalidNotification(fields: set<Field>)
    | ErrInvalidCustomerID
    | ErrNotFound
    | ErrNoOpenDeployment
    | ErrDuplicateActiveDeployment
    | ErrInvalidPrincipal
    | ErrInvalidTerm
    | ErrReferenceConflict
    | Infrastructure

  /** The HTTP code a DomainError carries; infrastructure errors carry none. */
  function Code(e: Error): Option<int> {
    match e
    case ErrInvalidNotification(_) => Some(400)
    case ErrInvalidCustomerID => Some(400)
    case ErrInvalidPrincipal => Some(400)
    case ErrInvalidTerm => Some(400)
    case ErrNotFound => Some(404)
    case ErrReferenceConflict => Some(409)
    case ErrDuplicateActiveDeployment => Some(409)
    case ErrNoOpenDeployment => Some(412)
    case Infrastructure => None
  }

  datatype ApplyResult = ApplyResult(payment: Row, deployment: Deployment, duplicate: bool)

  /** What the statement and, if it moved nothing, the read-back tell. */
  function ApplySpec(before: Db, n: Notification, id: nat, f: Faults): Result<ApplyResult, Error> {
    var reply := ApplyStatement(before, n, id, f.now).1;
    if !f.write.Fine? || reply.Refused? then Err(Infrastructure)
    else if reply.Moved? then Ok(ApplyResult(reply.row, reply.deployment, false))
    else ReplaySpec(before, n, id, f)
  }

  function ReplaySpec(before: Db, n: Notification, id: nat, f: Faults): Result<ApplyResult, Error> {
    if f.replayFails then Err(Infrastructure)
    else
      match Find(before.ledger, n.reference)
      case None => Err(ErrNotFound)
      case Some(stored) =>
        if f.positionFails then Err(Infrastructure)
        else if id >= |before.deployments| then Err(ErrNotFound)
        else Ok(ApplyResult(stored, before.deployments[id], true))
  }

  /** The stored row, and whether it was there already. */
  function RecordSpec(before: Db, n: Notification, outcome: Outcome, id: Option<nat>,
      f: Faults): Result<(Option<Row>, bool), Error> {
    var reply := RecordStatement(before, n, outcome, id).1;
    if !f.write.Fine? || reply.Refused? then Err(Infrastructure)
    else if reply.Filed? then Ok((Some(reply.row), false))
    else if f.replayFails then Err(Infrastructure)
    else Ok((Find(before.ledger, n.reference), true))
  }

  /** Either nothing was written, or the reference had no row and now has its
      one row, this notification's. */
  predicate WroteAtMostOnce(before: Db, after: Db, n: Notification) {
    after == before
    || (&& !HasRow(before, n.reference)
        && |after.ledger| == |before.ledger| + 1
        && before.ledger == after.ledger[..|before.ledger|]
        && var row := after.ledger[|before.ledger|];
           row.reference == n.reference && row.customer == n.customer && row.amount == n.amount > 0)
  }

  /** The credit went to deployment id, of which nothing else changed, and its row
      records it. */
  predicate Credited(before: Db, after: Db, n: Notification, id: nat, now: int, row: Row, e: Deployment) {
    && !HasRow(before, n.reference) && id < |before.deployments|
    && after.deployments == before.deployments[id := e] && after.ledger == before.ledger + [row]
    && var d := before.deployments[id];
       && SameContract(d, e)
       && e.amountPaid == d.amountPaid + n.amount && e.paymentCount == d.paymentCount + 1
       && e.lastPaymentAt.Some? && n.date <= e.lastPaymentAt.value
       && (d.lastPaymentAt.None? ==> e.lastPaymentAt == Some(n.date))
       && (d.lastPaymentAt.Some? ==> d.lastPaymentAt.value <= e.lastPaymentAt.value)
       && (e.lastPaymentAt == Some(n.date) || e.lastPaymentAt == d.lastPaymentAt)
       && e.status == (if e.amountPaid >= e.principal then Completed else d.status)
       && e.completedAt == (if d.completedAt.None? && e.amountPaid >= e.principal then Some(now) else d.completedAt)
       && row.reference == n.reference && row.customer == n.customer && row.amount == n.amount
       && row.outcome == Applied && row.deployment == Some(d.id) && row.currency == d.currency
       && row.before == d.amountPaid && row.after == e.amountPaid && row.applied + row.excess == n.amount
       && row.applied == (if d.amountPaid + n.amount <= d.principal then n.amount
                          else if d.amountPaid >= d.principal && n.amount >= 0 then 0
                          else d.principal - d.amountPaid)
       && row.providerStatus == n.providerStatus && row.date == n.date
  }

  lemma MovedIsCredited(db: Db, n: Notification, id: nat, now: int)
    ensures var (db', reply) := ApplyStatement(db, n, id, now);
            reply.Moved? ==> Credited(db, db', n, id, now, reply.row, reply.deployment)
  {
  }

  class PaymentRepository {
    const db: Database

    constructor (db: Database)
      ensures this.db == db
    {
      this.db := db;
    }

    /** The credit and the ledger entry, in one statement; a statement that found
        the reference taken is answered from the stored row. */
    method Apply(n: Notification, id: nat, f: Faults) returns (r: Result<ApplyResult, Error>)
      modifies db
      ensures db.View() == if f.write.Lost? then old(db.View()) else ApplyStatement(old(db.View()), n, id, f.now).0
      ensures r == ApplySpec(old(db.View()), n, id, f)
      ensures r.Ok? && !r.value.duplicate ==>
                Credited(old(db.View()), db.View(), n, id, f.now, r.value.payment, r.value.deployment)
      ensures WroteAtMostOnce(old(db.View()), db.View(), n)
      ensures Good(old(db.View())) ==> Good(db.View()) && Extends(old(db.View()), db.View())
    {
      hide Credited, Good;
      if Good(db.View()) { ApplyKeepsGood(db.View(), n, id, f.now); }
      MovedIsCredited(db.View(), n, id, f.now);
      if f.write.Lost? { return Err(Infrastructure); }
      var taken := Find(db.ledger, n.reference);
      if taken.None? && id < |db.deployments| {
        if n.amount <= 0 { return Err(Infrastructure); }
        var moved := Advance(db.deployments[id], n.amount, n.date, f.now);
        var applied := SqlSplit(moved, n.amount);
        var row := Row(n.reference, n.customer, Some(moved.id), moved.currency, n.amount,
                       applied, n.amount - applied, moved.amountPaid - n.amount, moved.amountPaid,
                       Applied, n.providerStatus, n.date);
        db.deployments := db.deployments[id := moved];
        db.ledger := db.ledger + [row];
        if f.write.ReplyLost? { return Err(Infrastructure); }
        return Ok(ApplyResult(row, moved, false));
      }
      if f.write.ReplyLost? { return Err(Infrastructure); }
      r := Replay(n, id, f);
    }

    method Replay(n: Notification, id: nat, f: Faults) returns (r: Result<ApplyResult, Error>)
      ensures r == ReplaySpec(db.View(), n, id, f)
    {
      var stored := GetByReference(n.reference, f);
      match stored {
        case Err(e) => return Err(e);
        case Ok(None) => return Err(ErrNotFound);
        case Ok(Some(row)) =>
          var current := DeploymentById(id, f);
          match current {
            case Err(e) => return Err(e);
            case Ok(d) => return Ok(ApplyResult(row, d, true));
          }
      }
    }

    /** Files a notification that must not move any balance: the stored row, and
        whether it was there already. */
    method Record(n: Notification, outcome: Outcome, id: Option<nat>, f: Faults)
        returns (r: Result<(Option<Row>, bool), Error>)
      modifies db
      ensures db.View() == if f.write.Lost? then old(db.View()) else RecordStatement(old(db.View()), n, outcome, id).0
      ensures r == RecordSpec(old(db.View()), n, outcome, id, f)
      ensures WroteAtMostOnce(old(db.View()), db.View(), n)
      ensures db.deployments == old(db.deployments)
      ensures Good(old(db.View())) ==> Good(db.View()) && Extends(old(db.View()), db.View())
    {
      if Good(db.View()) { RecordKeepsGood(db.View(), n, outcome, id); }
      if f.write.Lost? { return Err(Infrastructure); }
      if Find(db.ledger, n.reference).None? {
        if n.amount <= 0 || outcome !in {Unmatched, Ignored} || (id.Some? && id.value >= |db.deployments|) {
          return Err(Infrastructure);
        }
        var row := FiledRow(n, outcome, id);
        db.ledger := db.ledger + [row];
        if f.write.ReplyLost? { return Err(Infrastructure); }
        return Ok((Some(row), false));
      }
      if f.write.ReplyLost? { return Err(Infrastructure); }
      var stored := GetByReference(n.reference, f);
      match stored {
        case Err(e) => return Err(e);
        case Ok(row) => return Ok((row, true));
      }
    }

    method GetByReference(reference: string, f: Faults) returns (r: Result<Option<Row>, Error>)
      ensures r == if f.replayFails then Err(Infrastructure) else Ok(Find(db.ledger, reference))
    {
      if f.replayFails { return Err(Infrastructure); }
      return Ok(Find(db.ledger, reference));
    }

    method DeploymentById(id: nat, f: Faults) returns (r: Result<Deployment, Error>)
      ensures r == if f.positionFails then Err(Infrastructure)
                   else if id >= |db.deployments| then Err(ErrNotFound)
                   else Ok(db.deployments[id])
    {
      if f.positionFails { return Err(Infrastructure); }
      if id >= |db.deployments| { return Err(ErrNotFound); }
      return Ok(db.deployments[id]);
    }
  }

  class DeploymentRepository {
    const db: Database

    constructor (db: Database)
      ensures this.db == db
    {
      this.db := db;
    }

    /** Inserts under the one-open-deployment index. */
    method Create(input: CreateInput, f: Faults) returns (r: Result<Deployment, Error>)
      modifies db`deployments
      ensures db.View() == if f.write.Lost? then old(db.View()) else CreateStatement(old(db.View()), input, f.now).0
      ensures var reply := CreateStatement(old(db.View()), input, f.now).1;
              r == if !f.write.Fine? || reply.Refused? then Err(Infrastructure)
                   else if reply.Created? then Ok(reply.deployment)
                   else Err(ErrDuplicateActiveDeployment)
      ensures Good(old(db.View())) ==> Good(db.View()) && Extends(old(db.View()), db.View())
    {
      if Good(db.View()) { CreateKeepsGood(db.View(), input, f.now); }
      if f.write.Lost? || input.principal <= 0 || !(1 <= input.term <= 520) { return Err(Infrastructure); }
      if HasOpen(db.deployments, input.customer) {
        return Err(if f.write.Fine? then ErrDuplicateActiveDeployment else Infrastructure);
      }
      var d := Deployment(|db.deployments|, input.customer, input.currency, input.principal, input.term,
                          input.startDate, f.now, 0, 0, Active, None, None);
      db.deployments := db.deployments + [d];
      return if f.write.Fine? then Ok(d) else Err(Infrastructure);
    }

    /** The open deployment, or the most recent if none is open. */
    method GetByCustomerID(customer: string, f: Faults) returns (r: Result<Deployment, Error>)
      ensures f.lookupFails ==> r == Err(Infrastructure)
      ensures !f.lookupFails ==>
                match GetByCustomer(db.deployments, customer)
                case None => r == Err(ErrNotFound)
                case Some(d) => r == Ok(d)
      ensures r.Ok? ==>
                r.value in db.deployments && r.value.customer == customer
                && (IsOpen(r.value) <==> HasOpen(db.deployments, customer))
      ensures r == Err(ErrNotFound) ==> forall i :: 0 <= i < |db.deployments| ==> db.deployments[i].customer != customer
    {
      if f.lookupFails { return Err(Infrastructure); }
      LookupIsFirstInOrder(db.deployments, customer);
      LookupPrefersOpen(db.deployments, customer);
      match GetByCustomer(db.deployments, customer) {
        case None => return Err(ErrNotFound);
        case Some(d) => return Ok(d);
      }
    }
  }
}

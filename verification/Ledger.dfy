/**
  The two tables and the statements that write them, each as one atomic step:
  src/internal/infrastructure/database/repositories and its migrations.

  ApplyProtocol shows that the interleaved statements really behave like these.
*/
module Ledger {
  import opened Prelude
  import opened Money
  import opened Deployments

  /** A validated payment notification. */
  datatype Notification = Notification(
    customer: string,
    reference: string,
    currency: Currency,
    amount: int,
    providerStatus: string,
    date: int)

  /** Outcomes of processing; the ledger stores the first three only. */
  datatype Outcome = Applied | Unmatched | Ignored | Duplicate | Queued

  datatype Row = Row(
    reference: string,
    customer: string,
    deployment: Option<nat>,
    currency: string,
    amount: int,
    applied: int,
    excess: int,
    before: int,
    after: int,
    outcome: Outcome,
    providerStatus: string,
    date: int)

  /** A deployment's id is its position; ledger rows stand in commit order. */
  datatype Db = Db(deployments: seq<Deployment>, ledger: seq<Row>)

  datatype CreateInput = CreateInput(customer: string, currency: string, principal: int, term: int, startDate: int)

  datatype Reply =
    | Moved(row: Row, deployment: Deployment)
    | Filed(row: Row)
    | Created(deployment: Deployment)
    | Skipped
    | Taken
    | Refused

  /** The row stored under a reference, the table's primary key. */
  function Find(ledger: seq<Row>, reference: string): Option<Row> {
    if ledger == [] then None
    else if ledger[|ledger| - 1].reference == reference then Some(ledger[|ledger| - 1])
    else Find(ledger[..|ledger| - 1], reference)
  }

  lemma {:induction false} FindFinds(ledger: seq<Row>, reference: string)
    ensures Find(ledger, reference).Some? ==>
              Find(ledger, reference).value in ledger && Find(ledger, reference).value.reference == reference
    ensures Find(ledger, reference).None? <==> forall i :: 0 <= i < |ledger| ==> ledger[i].reference != reference
  {
    if ledger != [] { FindFinds(ledger[..|ledger| - 1], reference); }
  }

  // -------------------------------------------------------------- statements

  /** GREATEST ignores a NULL. */
  function Greatest(t: Option<int>, date: int): Option<int> {
    match t
    case None => Some(date)
    case Some(when) => Some(Max(when, date))
  }

  /** The UPDATE arm: the CASE expressions read the row as it was. */
  function Advance(d: Deployment, amount: int, date: int, now: int): Deployment {
    var crossed := d.amountPaid + amount >= d.principal;
    d.(amountPaid := d.amountPaid + amount,
       paymentCount := d.paymentCount + 1,
       lastPaymentAt := Greatest(d.lastPaymentAt, date),
       status := if crossed then Completed else d.status,
       completedAt := if crossed && d.completedAt.None? then Some(now) else d.completedAt)
  }

  /** The split arm works backwards from the row as updated. */
  function SqlSplit(moved: Deployment, amount: int): int {
    Min(amount, Max(moved.principal - (moved.amountPaid - amount), 0))
  }

  function AppliedRow(n: Notification, moved: Deployment): Row {
    var applied := SqlSplit(moved, n.amount);
    Row(n.reference, n.customer, Some(moved.id), moved.currency, n.amount,
        applied, n.amount - applied, moved.amountPaid - n.amount, moved.amountPaid,
        Applied, n.providerStatus, n.date)
  }

  function FiledRow(n: Notification, outcome: Outcome, deployment: Option<nat>): Row {
    Row(n.reference, n.customer, deployment, n.currency.code, n.amount, 0, 0, 0, 0,
        outcome, n.providerStatus, n.date)
  }

  /** Probe, advance, split, insert; or zero rows; or a CHECK failure. */
  function ApplyStatement(db: Db, n: Notification, id: nat, now: int): (Db, Reply) {
    if Find(db.ledger, n.reference).Some? || id >= |db.deployments| then (db, Skipped)
    else if n.amount <= 0 then (db, Refused)
    else
      var moved := Advance(db.deployments[id], n.amount, n.date, now);
      var row := AppliedRow(n, moved);
      (Db(db.deployments[id := moved], db.ledger + [row]), Moved(row, moved))
  }

  /** INSERT ... ON CONFLICT DO NOTHING. */
  function RecordStatement(db: Db, n: Notification, outcome: Outcome, deployment: Option<nat>): (Db, Reply) {
    if Find(db.ledger, n.reference).Some? then (db, Skipped)
    else if n.amount <= 0 || outcome !in {Unmatched, Ignored}
         || (deployment.Some? && deployment.value >= |db.deployments|) then (db, Refused)
    else
      var row := FiledRow(n, outcome, deployment);
      (db.(ledger := db.ledger + [row]), Filed(row))
  }

  /** Nothing was paid on a deployment just registered, it is open, and all else
      is what was asked for. */
  lemma CreatedAsAsked(db: Db, input: CreateInput, now: int)
    requires CreateStatement(db, input, now).1.Created?
    ensures var (db', reply) := CreateStatement(db, input, now);
            var d := reply.deployment;
            && db'.deployments == db.deployments + [d] && db'.ledger == db.ledger
            && d.id == |db.deployments| && d.customer == input.customer && d.currency == input.currency
            && d.principal == input.principal && d.term == input.term && d.startDate == input.startDate
            && d.createdAt == now && d.amountPaid == 0 && d.paymentCount == 0 && d.status == Active
            && d.lastPaymentAt == None && d.completedAt == None
  {
  }

  predicate HasOpen(deployments: seq<Deployment>, customer: string) {
    exists i :: 0 <= i < |deployments| && deployments[i].customer == customer && IsOpen(deployments[i])
  }

  /** INSERT under the one-open-deployment-per-customer index. */
  function CreateStatement(db: Db, input: CreateInput, now: int): (Db, Reply) {
    if input.principal <= 0 || !(1 <= input.term <= 520) then (db, Refused)
    else if HasOpen(db.deployments, input.customer) then (db, Taken)
    else
      var d := Deployment(|db.deployments|, input.customer, input.currency, input.principal, input.term,
                          input.startDate, now, 0, 0, Active, None, None);
      (db.(deployments := db.deployments + [d]), Created(d))
  }

  /** When each statement writes, when it finds nothing to do, and when the
      tables refuse it; a statement that does not write changes nothing. */
  lemma WhatStatementsAnswer(db: Db, n: Notification, id: nat, now: int, outcome: Outcome, deployment: Option<nat>)
    ensures var (db', reply) := ApplyStatement(db, n, id, now);
            var taken := exists i :: 0 <= i < |db.ledger| && db.ledger[i].reference == n.reference;
            && (reply.Skipped? <==> taken || id >= |db.deployments|)
            && (reply.Refused? <==> !taken && id < |db.deployments| && n.amount <= 0)
            && (reply.Moved? <==> !taken && id < |db.deployments| && n.amount > 0)
            && (!reply.Moved? ==> db' == db)
    ensures var (db', reply) := RecordStatement(db, n, outcome, deployment);
            var taken := exists i :: 0 <= i < |db.ledger| && db.ledger[i].reference == n.reference;
            var stray := deployment.Some? && deployment.value >= |db.deployments|;
            var fileable := n.amount > 0 && (outcome == Unmatched || outcome == Ignored) && !stray;
            && (reply.Skipped? <==> taken)
            && (reply.Refused? <==> !taken && !fileable)
            && (reply.Filed? <==> !taken && fileable)
            && (!reply.Filed? ==> db' == db) && db'.deployments == db.deployments
  {
    FindFinds(db.ledger, n.reference);
  }

  datatype Op =
    | DoApply(n: Notification, id: nat, now: int)
    | DoRecord(n: Notification, outcome: Outcome, deployment: Option<nat>)
    | DoCreate(input: CreateInput, now: int)

  function Exec(db: Db, op: Op): (Db, Reply) {
    match op
    case DoApply(n, id, now) => ApplyStatement(db, n, id, now)
    case DoRecord(n, outcome, deployment) => RecordStatement(db, n, outcome, deployment)
    case DoCreate(input, now) => CreateStatement(db, input, now)
  }

  function ExecAll(db: Db, ops: seq<Op>): Db {
    if ops == [] then db else Exec(ExecAll(db, ops[..|ops| - 1]), ops[|ops| - 1]).0
  }

  /** ORDER BY open DESC, created_at DESC LIMIT 1. */
  function GetByCustomer(deployments: seq<Deployment>, customer: string): Option<Deployment> {
    if deployments == [] then None
    else
      var last := deployments[|deployments| - 1];
      var rest := GetByCustomer(deployments[..|deployments| - 1], customer);
      if last.customer == customer && (rest.None? || !Precedes(rest.value, last)) then Some(last) else rest
  }

  /** a sorts strictly before b in the lookup. */
  predicate Precedes(a: Deployment, b: Deployment) {
    if IsOpen(a) != IsOpen(b) then IsOpen(a) else a.createdAt > b.createdAt
  }

  lemma {:induction false} LookupIsFirstInOrder(deployments: seq<Deployment>, customer: string)
    ensures var r := GetByCustomer(deployments, customer);
            && (r.Some? ==> r.value in deployments && r.value.customer == customer)
            && forall i :: 0 <= i < |deployments| && deployments[i].customer == customer ==>
                 r.Some? && !Precedes(deployments[i], r.value)
  {
    if deployments != [] { LookupIsFirstInOrder(deployments[..|deployments| - 1], customer); }
  }

  /** The lookup finds an open deployment exactly when the customer has one. */
  lemma LookupPrefersOpen(deployments: seq<Deployment>, customer: string)
    ensures var r := GetByCustomer(deployments, customer);
            (r.Some? && IsOpen(r.value)) <==> HasOpen(deployments, customer)
  {
    LookupIsFirstInOrder(deployments, customer);
    var r := GetByCustomer(deployments, customer);
    if HasOpen(deployments, customer) {
      var i :| 0 <= i < |deployments| && deployments[i].customer == customer && IsOpen(deployments[i]);
      assert !Precedes(deployments[i], r.value);
    }
  }

  /** Of the customer's deployments the lookup returns the most recent open one,
      or the most recent of all if none is open. */
  lemma LookupIsMostRecent(deployments: seq<Deployment>, customer: string)
    ensures match GetByCustomer(deployments, customer)
            case None => forall i :: 0 <= i < |deployments| ==> deployments[i].customer != customer
            case Some(found) =>
              && found in deployments && found.customer == customer
              && forall i :: 0 <= i < |deployments| && deployments[i].customer == customer ==>
                   && (IsOpen(deployments[i]) ==> IsOpen(found))
                   && (IsOpen(deployments[i]) == IsOpen(found) ==> deployments[i].createdAt <= found.createdAt)
  {
    LookupIsFirstInOrder(deployments, customer);
  }

  // ------------------------------------------------------- ledger aggregates

  predicate Hits(row: Row, id: nat) { row.outcome == Applied && row.deployment == Some(id) }

  function PaidTo(ledger: seq<Row>, id: nat): int {
    if ledger == [] then 0
    else
      var row := ledger[|ledger| - 1];
      PaidTo(ledger[..|ledger| - 1], id) + if Hits(row, id) then row.amount else 0
  }

  function CreditsTo(ledger: seq<Row>, id: nat): nat {
    if ledger == [] then 0
    else CreditsTo(ledger[..|ledger| - 1], id) + if Hits(ledger[|ledger| - 1], id) then 1 else 0
  }

  function AppliedTo(ledger: seq<Row>, id: nat): int {
    if ledger == [] then 0
    else
      var row := ledger[|ledger| - 1];
      AppliedTo(ledger[..|ledger| - 1], id) + if Hits(row, id) then row.applied else 0
  }

  function ExcessTo(ledger: seq<Row>, id: nat): int {
    if ledger == [] then 0
    else
      var row := ledger[|ledger| - 1];
      ExcessTo(ledger[..|ledger| - 1], id) + if Hits(row, id) then row.excess else 0
  }

  function LastPaidOn(ledger: seq<Row>, id: nat): Option<int> {
    if ledger == [] then None
    else
      var row, rest := ledger[|ledger| - 1], LastPaidOn(ledger[..|ledger| - 1], id);
      if !Hits(row, id) then rest
      else Greatest(rest, row.date)
  }

  lemma Appended(ledger: seq<Row>, row: Row, id: nat, reference: string)
    ensures PaidTo(ledger + [row], id) == PaidTo(ledger, id) + (if Hits(row, id) then row.amount else 0)
    ensures CreditsTo(ledger + [row], id) == CreditsTo(ledger, id) + (if Hits(row, id) then 1 else 0)
    ensures LastPaidOn(ledger + [row], id) ==
              if Hits(row, id) then Greatest(LastPaidOn(ledger, id), row.date) else LastPaidOn(ledger, id)
    ensures Find(ledger + [row], reference) == if row.reference == reference then Some(row) else Find(ledger, reference)
  {
    assert (ledger + [row])[..|ledger|] == ledger;
  }

  // --------------------------------------------------------------- invariant

  ghost predicate RowGood(db: Db, i: nat)
    requires i < |db.ledger|
  {
    var row := db.ledger[i];
    && row.amount > 0
    && (row.deployment.Some? ==> row.deployment.value < |db.deployments|)
    && if row.outcome == Applied then
         && row.deployment.Some?
         && var d := db.deployments[row.deployment.value];
            && row.currency == d.currency
            && row.before == PaidTo(db.ledger[..i], row.deployment.value)
            && row.after == row.before + row.amount
            && row.applied == SplitPayment(d.principal, row.before, row.amount)
            && row.excess == row.amount - row.applied
       else
         row.outcome in {Unmatched, Ignored} && row.applied == row.excess == row.before == row.after == 0
  }

  /** The materialised position is the one the ledger re-derives. */
  ghost predicate PositionGood(db: Db, id: nat)
    requires id < |db.deployments|
  {
    var d := db.deployments[id];
    && d.id == id
    && Sound(d)
    && d.amountPaid == PaidTo(db.ledger, id)
    && d.paymentCount == CreditsTo(db.ledger, id)
    && d.lastPaymentAt == LastPaidOn(db.ledger, id)
    && (d.status == Completed <==> d.amountPaid >= d.principal)
    && (d.completedAt.Some? <==> d.status == Completed)
  }

  ghost predicate UniqueReferences(ledger: seq<Row>) {
    forall i, j :: 0 <= i < j < |ledger| ==> ledger[i].reference != ledger[j].reference
  }

  ghost predicate OneOpenEach(deployments: seq<Deployment>) {
    forall i, j :: 0 <= i < j < |deployments| && IsOpen(deployments[i]) && IsOpen(deployments[j]) ==>
      deployments[i].customer != deployments[j].customer
  }

  ghost predicate Good(db: Db) {
    && UniqueReferences(db.ledger)
    && OneOpenEach(db.deployments)
    && (forall i :: 0 <= i < |db.ledger| ==> RowGood(db, i))
    && (forall id :: 0 <= id < |db.deployments| ==> PositionGood(db, id))
  }

  const EMPTY: Db := Db([], [])

  /** What no statement ever changes about a deployment. */
  predicate SameContract(d: Deployment, e: Deployment) {
    && d.id == e.id && d.customer == e.customer && d.currency == e.currency
    && d.principal == e.principal && d.term == e.term
    && d.startDate == e.startDate && d.createdAt == e.createdAt
  }

  /** One deployment's permitted futures: paid never falls, completed never
      reopens, and the completion instant is set once. */
  predicate Ages(d: Deployment, e: Deployment) {
    && SameContract(d, e)
    && d.amountPaid <= e.amountPaid
    && d.paymentCount <= e.paymentCount
    && (d.status == Completed ==> e.status == Completed)
    && (d.completedAt.Some? ==> e.completedAt == d.completedAt)
    && (IsOpen(e) ==> IsOpen(d))
    && (d.lastPaymentAt.Some? ==> e.lastPaymentAt.Some? && d.lastPaymentAt.value <= e.lastPaymentAt.value)
  }

  /** The tables only ever grow, and every stored fact stays. */
  ghost predicate Extends(db: Db, db': Db) {
    && db.ledger <= db'.ledger
    && |db.deployments| <= |db'.deployments|
    && forall id :: 0 <= id < |db.deployments| ==> Ages(db.deployments[id], db'.deployments[id])
  }

  lemma ExtendsTransitive(a: Db, b: Db, c: Db)
    requires Extends(a, b) && Extends(b, c)
    ensures Extends(a, c)
  {
    forall id | 0 <= id < |a.deployments|
      ensures Ages(a.deployments[id], c.deployments[id])
    {
      assert Ages(a.deployments[id], b.deployments[id]) && Ages(b.deployments[id], c.deployments[id]);
    }
  }

  lemma {:induction false} FindIsStable(ledger: seq<Row>, more: seq<Row>, reference: string)
    requires UniqueReferences(ledger + more)
    requires Find(ledger, reference).Some?
    ensures Find(ledger + more, reference) == Find(ledger, reference)
    decreases |more|
  {
    if more == [] {
      assert ledger + more == ledger;
    } else {
      var rest, row := more[..|more| - 1], more[|more| - 1];
      assert ledger + more == (ledger + rest) + [row];
      assert UniqueReferences(ledger + rest) by {
        assert forall i :: 0 <= i < |ledger + rest| ==> (ledger + rest)[i] == (ledger + more)[i];
      }
      FindIsStable(ledger, rest, reference);
      FindFinds(ledger, reference);
      var found := Find(ledger, reference).value;
      var k :| 0 <= k < |ledger| && ledger[k] == found;
      assert (ledger + more)[k].reference == reference;
      assert (ledger + more)[|ledger + rest|] == row;
      Appended(ledger + rest, row, 0, reference);
    }
  }

  /** A row, once stored, is what every later read of its reference returns. */
  lemma RowsAreForever(db: Db, db': Db, reference: string)
    requires Extends(db, db') && UniqueReferences(db'.ledger)
    requires Find(db.ledger, reference).Some?
    ensures Find(db'.ledger, reference) == Find(db.ledger, reference)
  {
    var more := db'.ledger[|db.ledger|..];
    assert db'.ledger == db.ledger + more;
    FindIsStable(db.ledger, more, reference);
  }

  // ------------------------------------------------- statements keep Good

  /** The SQL split is SplitPayment of the balance before the credit. */
  lemma SqlSplitIsSplitPayment(d: Deployment, amount: int, date: int, now: int)
    ensures SqlSplit(Advance(d, amount, date, now), amount) == SplitPayment(d.principal, d.amountPaid, amount)
  {
  }

  lemma OldRowsStayGood(db: Db, db': Db, i: nat)
    requires Extends(db, db') && i < |db.ledger| && RowGood(db, i)
    ensures RowGood(db', i)
  {
    assert db'.ledger[i] == db.ledger[i];
    assert db'.ledger[..i] == db.ledger[..i];
    var row := db.ledger[i];
    if row.outcome == Applied {
      assert Ages(db.deployments[row.deployment.value], db'.deployments[row.deployment.value]);
    }
  }

  lemma UniqueWithNew(ledger: seq<Row>, row: Row)
    requires UniqueReferences(ledger) && Find(ledger, row.reference).None?
    ensures UniqueReferences(ledger + [row])
  {
    FindFinds(ledger, row.reference);
  }

  /** A row was appended to tables that otherwise only aged. */
  lemma RowsStayGood(db: Db, db': Db, row: Row)
    requires Good(db) && Extends(db, db') && db'.ledger == db.ledger + [row] && RowGood(db', |db.ledger|)
    ensures forall i :: 0 <= i < |db'.ledger| ==> RowGood(db', i)
  {
    hide RowGood;
    forall i | 0 <= i < |db'.ledger| ensures RowGood(db', i) {
      if i < |db.ledger| { OldRowsStayGood(db, db', i); }
    }
  }

  lemma AppliedRowIsGood(db: Db, n: Notification, id: nat, now: int)
    requires Good(db) && ApplyStatement(db, n, id, now).1.Moved?
    ensures var (db', _) := ApplyStatement(db, n, id, now); Extends(db, db') && RowGood(db', |db.ledger|)
  {
    var (db', reply) := ApplyStatement(db, n, id, now);
    assert PositionGood(db, id);
    assert db'.ledger[..|db.ledger|] == db.ledger;
  }

  lemma AppliedPositionIsGood(db: Db, n: Notification, id: nat, now: int, k: nat)
    requires Good(db) && ApplyStatement(db, n, id, now).1.Moved? && k < |db.deployments|
    ensures PositionGood(ApplyStatement(db, n, id, now).0, k)
  {
    assert PositionGood(db, k) && PositionGood(db, id);
    Appended(db.ledger, ApplyStatement(db, n, id, now).1.row, k, n.reference);
  }

  lemma ApplyKeepsGood(db: Db, n: Notification, id: nat, now: int)
    requires Good(db)
    ensures var (db', _) := ApplyStatement(db, n, id, now); Good(db') && Extends(db, db')
  {
    hide RowGood, PositionGood, Find, SqlSplit, Advance;
    var (db', reply) := ApplyStatement(db, n, id, now);
    if reply.Moved? {
      UniqueWithNew(db.ledger, reply.row);
      AppliedRowIsGood(db, n, id, now);
      RowsStayGood(db, db', reply.row);
      forall k | 0 <= k < |db'.deployments| ensures PositionGood(db', k) {
        AppliedPositionIsGood(db, n, id, now, k);
      }
      OneOpenStays(db, n, id, now);
    }
  }

  lemma OneOpenStays(db: Db, n: Notification, id: nat, now: int)
    requires Good(db) && ApplyStatement(db, n, id, now).1.Moved?
    ensures OneOpenEach(ApplyStatement(db, n, id, now).0.deployments)
  {
    assert PositionGood(db, id);
  }

  lemma FiledPositionIsGood(db: Db, row: Row, k: nat)
    requires PositionOf(db, k) && row.outcome != Applied
    ensures PositionOf(db.(ledger := db.ledger + [row]), k)
  {
    Appended(db.ledger, row, k, "");
  }

  ghost predicate PositionOf(db: Db, k: nat) { k < |db.deployments| && PositionGood(db, k) }

  lemma RecordKeepsGood(db: Db, n: Notification, outcome: Outcome, deployment: Option<nat>)
    requires Good(db)
    ensures var (db', _) := RecordStatement(db, n, outcome, deployment); Good(db') && Extends(db, db')
  {
    hide PositionGood, Find;
    var (db', reply) := RecordStatement(db, n, outcome, deployment);
    if reply.Filed? {
      UniqueWithNew(db.ledger, reply.row);
      assert RowGood(db', |db.ledger|);
      RowsStayGood(db, db', reply.row);
      forall k | 0 <= k < |db'.deployments| ensures PositionGood(db', k) {
        assert PositionOf(db, k);
        FiledPositionIsGood(db, reply.row, k);
        assert PositionOf(db', k);
      }
    }
  }

  lemma NoCreditsBeyondTheTable(db: Db, n: nat, id: nat)
    requires Good(db) && n <= |db.ledger| && id >= |db.deployments|
    ensures PaidTo(db.ledger[..n], id) == 0 && CreditsTo(db.ledger[..n], id) == 0
    ensures LastPaidOn(db.ledger[..n], id) == None
  {
    if n > 0 {
      NoCreditsBeyondTheTable(db, n - 1, id);
      assert RowGood(db, n - 1);
      assert db.ledger[..n][..n - 1] == db.ledger[..n - 1];
    }
  }

  lemma CreateKeepsGood(db: Db, input: CreateInput, now: int)
    requires Good(db)
    ensures var (db', _) := CreateStatement(db, input, now); Good(db') && Extends(db, db')
  {
    var (db', reply) := CreateStatement(db, input, now);
    if reply.Created? {
      assert Extends(db, db');
      forall i | 0 <= i < |db'.ledger| ensures RowGood(db', i) { OldRowsStayGood(db, db', i); }
      forall k | 0 <= k < |db'.deployments| ensures PositionGood(db', k) {
        if k < |db.deployments| { assert PositionGood(db, k); }
        else {
          NoCreditsBeyondTheTable(db, |db.ledger|, k);
          assert db.ledger[..|db.ledger|] == db.ledger;
        }
      }
    }
  }

  lemma ExecKeepsGood(db: Db, op: Op)
    requires Good(db)
    ensures Good(Exec(db, op).0) && Extends(db, Exec(db, op).0)
  {
    match op
    case DoApply(n, id, now) => ApplyKeepsGood(db, n, id, now);
    case DoRecord(n, outcome, deployment) => RecordKeepsGood(db, n, outcome, deployment);
    case DoCreate(input, now) => CreateKeepsGood(db, input, now);
  }

  lemma {:induction false} ExecAllKeepsGood(db: Db, ops: seq<Op>)
    requires Good(db)
    ensures Good(ExecAll(db, ops)) && Extends(db, ExecAll(db, ops))
  {
    if ops != [] {
      var rest := ops[..|ops| - 1];
      ExecAllKeepsGood(db, rest);
      ExecKeepsGood(ExecAll(db, rest), ops[|ops| - 1]);
      ExtendsTransitive(db, ExecAll(db, rest), ExecAll(db, ops));
    }
  }
}

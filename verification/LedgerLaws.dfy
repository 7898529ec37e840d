/** What the ledger proves about every history of statements. */
module LedgerLaws {
  import opened Prelude
  import opened Money
  import opened Deployments
  import opened Ledger

  // ------------------------------------------- re-deriving the position

  lemma {:induction false} PaidGrows(db: Db, id: nat, m: nat, n: nat)
    requires Good(db) && m <= n <= |db.ledger|
    ensures 0 <= PaidTo(db.ledger[..m], id) <= PaidTo(db.ledger[..n], id)
    decreases n
  {
    if n > 0 {
      assert RowGood(db, n - 1);
      assert db.ledger[..n][..n - 1] == db.ledger[..n - 1];
      if m < n {
        PaidGrows(db, id, m, n - 1);
      } else {
        PaidGrows(db, id, n - 1, n - 1);
      }
    }
  }

  /** The split is exact in total: over any history the applied parts sum to
      min(paid, principal), the excess parts to the rest. */
  lemma {:induction false} SplitsSum(db: Db, id: nat, n: nat)
    requires Good(db) && id < |db.deployments| && n <= |db.ledger|
    ensures var paid, principal := PaidTo(db.ledger[..n], id), db.deployments[id].principal;
            && AppliedTo(db.ledger[..n], id) == Min(paid, principal)
            && ExcessTo(db.ledger[..n], id) == NonNegative(paid - principal)
  {
    assert PositionGood(db, id);
    if n > 0 {
      SplitsSum(db, id, n - 1);
      PaidGrows(db, id, n - 1, n);
      assert RowGood(db, n - 1);
      assert db.ledger[..n][..n - 1] == db.ledger[..n - 1];
    }
  }

  lemma GoodPosition(db: Db, id: nat)
    requires Good(db) && id < |db.deployments|
    ensures var d := db.deployments[id];
            && d.amountPaid == PaidTo(db.ledger, id)
            && d.paymentCount == CreditsTo(db.ledger, id)
            && d.lastPaymentAt == LastPaidOn(db.ledger, id)
            && Outstanding(d) == d.principal - AppliedTo(db.ledger, id)
            && Excess(d) == ExcessTo(db.ledger, id)
            && (d.status == Completed <==> AppliedTo(db.ledger, id) == d.principal)
  {
    assert PositionGood(db, id);
    SplitsSum(db, id, |db.ledger|);
    assert db.ledger[..|db.ledger|] == db.ledger;
  }

  /** Every figure of the position is re-derivable from the ledger alone,
      after any history of statements. */
  lemma PositionFromLedger(ops: seq<Op>, id: nat)
    requires id < |ExecAll(EMPTY, ops).deployments|
    ensures var db := ExecAll(EMPTY, ops); var d := db.deployments[id];
            && d.amountPaid == PaidTo(db.ledger, id)
            && d.paymentCount == CreditsTo(db.ledger, id)
            && d.lastPaymentAt == LastPaidOn(db.ledger, id)
            && Outstanding(d) == d.principal - AppliedTo(db.ledger, id)
            && Excess(d) == ExcessTo(db.ledger, id)
            && (d.status == Completed <==> AppliedTo(db.ledger, id) == d.principal)
  {
    ExecAllKeepsGood(EMPTY, ops);
    GoodPosition(ExecAll(EMPTY, ops), id);
  }

  /** A credit lowers the outstanding balance by exactly its applied part and
      raises the excess by exactly its excess part. */
  lemma CreditMovesExactly(db: Db, n: Notification, id: nat, now: int)
    requires Good(db)
    requires ApplyStatement(db, n, id, now).1.Moved?
    ensures var (db', reply) := ApplyStatement(db, n, id, now);
            var d, e, row := db.deployments[id], db'.deployments[id], reply.row;
            && Outstanding(e) == Outstanding(d) - row.applied
            && Excess(e) == Excess(d) + row.excess
            && row.applied + row.excess == n.amount && row.applied >= 0 && row.excess >= 0
            && row.before == d.amountPaid && row.after == e.amountPaid
            && (forall k :: 0 <= k < |db.deployments| && k != id ==> db'.deployments[k] == db.deployments[k])
  {
    assert PositionGood(db, id);
    SqlSplitIsSplitPayment(db.deployments[id], n.amount, n.date, now);
  }

  /** Some row of the deployment has this date, and none a later one. */
  ghost predicate IsLatestDate(ledger: seq<Row>, id: nat, date: int) {
    && (exists i :: 0 <= i < |ledger| && PaysInto(ledger[i], id) && ledger[i].date == date)
    && forall i :: 0 <= i < |ledger| && PaysInto(ledger[i], id) ==> ledger[i].date <= date
  }

  predicate PaysInto(row: Row, id: nat) { row.outcome == Applied && row.deployment == Some(id) }

  lemma {:induction false} LastPaidOnIsLatest(ledger: seq<Row>, id: nat)
    ensures match LastPaidOn(ledger, id)
            case None => forall i :: 0 <= i < |ledger| ==> !PaysInto(ledger[i], id)
            case Some(date) => IsLatestDate(ledger, id, date)
  {
    if ledger != [] {
      var k := |ledger| - 1;
      LastPaidOnIsLatest(ledger[..k], id);
      if LastPaidOn(ledger[..k], id).Some? {
        var i :| 0 <= i < k && PaysInto(ledger[..k][i], id)
                 && ledger[..k][i].date == LastPaidOn(ledger[..k], id).value;
        assert ledger[i] == ledger[..k][i];
      }
      assert forall i :: 0 <= i < k ==> ledger[i] == ledger[..k][i];
      assert PaysInto(ledger[k], id) ==> ledger[k].date == ledger[|ledger| - 1].date;
    }
  }

  /** After every history a deployment's last payment date is the latest
      transaction date among its applied rows, and absent while it has none. */
  lemma LastPaymentIsTheLatest(ops: seq<Op>, id: nat)
    requires id < |ExecAll(EMPTY, ops).deployments|
    ensures var db := ExecAll(EMPTY, ops);
            match db.deployments[id].lastPaymentAt
            case None => forall i :: 0 <= i < |db.ledger| ==> !PaysInto(db.ledger[i], id)
            case Some(date) => IsLatestDate(db.ledger, id, date)
  {
    PositionFromLedger(ops, id);
    LastPaidOnIsLatest(ExecAll(EMPTY, ops).ledger, id);
  }

  /** After every history a deployment accepts repayments exactly while its
      balance is short of the principal. */
  lemma OpenWhileOwing(ops: seq<Op>, id: nat)
    requires id < |ExecAll(EMPTY, ops).deployments|
    ensures var d := ExecAll(EMPTY, ops).deployments[id]; IsOpen(d) <==> d.amountPaid < d.principal
  {
    NothingIsWrittenOff(ops, id);
    ExecAllKeepsGood(EMPTY, ops);
    assert PositionGood(ExecAll(EMPTY, ops), id);
  }

  lemma {:induction false} NothingIsWrittenOff(ops: seq<Op>, id: nat)
    requires id < |ExecAll(EMPTY, ops).deployments|
    ensures ExecAll(EMPTY, ops).deployments[id].status in {Active, Completed}
  {
    if ops != [] {
      var init := ops[..|ops| - 1];
      if id < |ExecAll(EMPTY, init).deployments| { NothingIsWrittenOff(init, id); }
    }
  }

  // ----------------------------------------------------- balances chain

  /** In commit order, each applied row of a deployment starts where its
      predecessor ended, the first at zero and the last at the balance. */
  lemma BalancesChain(db: Db, id: nat, i: nat, j: nat)
    requires Good(db) && id < |db.deployments| && i <= j <= |db.ledger|
    requires forall k :: i <= k < j ==> !Hits(db.ledger[k], id)
    ensures j < |db.ledger| && Hits(db.ledger[j], id) ==>
              db.ledger[j].before == if i == 0 then 0 else PaidTo(db.ledger[..i], id)
    ensures i > 0 && Hits(db.ledger[i - 1], id) ==>
              && db.ledger[i - 1].after == PaidTo(db.ledger[..j], id)
              && (j < |db.ledger| && Hits(db.ledger[j], id) ==> db.ledger[j].before == db.ledger[i - 1].after)
              && (j == |db.ledger| ==> db.ledger[i - 1].after == db.deployments[id].amountPaid)
  {
    QuietStretch(db.ledger, id, i, j);
    if j < |db.ledger| { assert RowGood(db, j); }
    if i > 0 {
      assert RowGood(db, i - 1);
      assert db.ledger[..i][..i - 1] == db.ledger[..i - 1];
    }
    assert PositionGood(db, id);
    assert j == |db.ledger| ==> db.ledger[..j] == db.ledger;
  }

  lemma {:induction false} QuietStretch(ledger: seq<Row>, id: nat, i: nat, j: nat)
    requires i <= j <= |ledger|
    requires forall k :: i <= k < j ==> !Hits(ledger[k], id)
    ensures PaidTo(ledger[..j], id) == PaidTo(ledger[..i], id)
    decreases j
  {
    if i < j {
      assert ledger[..j][..j - 1] == ledger[..j - 1];
      QuietStretch(ledger, id, i, j - 1);
    }
  }

  predicate Covers(row: Row, id: nat, x: int) { Hits(row, id) && row.before <= x < row.after }

  lemma {:induction false} TileBelow(db: Db, id: nat, n: nat, x: int) returns (i: nat)
    requires Good(db) && id < |db.deployments| && n <= |db.ledger|
    requires 0 <= x < PaidTo(db.ledger[..n], id)
    ensures i < n && Covers(db.ledger[i], id, x)
  {
    assert db.ledger[..n][..n - 1] == db.ledger[..n - 1];
    assert RowGood(db, n - 1);
    if x < PaidTo(db.ledger[..n - 1], id) {
      i := TileBelow(db, id, n - 1, x);
    } else {
      i := n - 1;
    }
  }

  /** Two applied rows of one deployment never overlap: the earlier one ends
      before the later one starts. */
  lemma TilesAreDisjoint(db: Db, id: nat, i: nat, j: nat)
    requires Good(db) && i < j < |db.ledger|
    requires Hits(db.ledger[i], id) && Hits(db.ledger[j], id)
    ensures db.ledger[i].after <= db.ledger[j].before
  {
    assert RowGood(db, i) && RowGood(db, j);
    assert db.ledger[..i + 1][..i] == db.ledger[..i];
    PaidGrows(db, id, i + 1, j);
  }

  /** The intervals [before, after) tile [0, amountPaid): each micro-unit paid
      lies in exactly one applied row, and no row reaches outside. */
  lemma IntervalsTile(db: Db, id: nat, x: int)
    requires Good(db) && id < |db.deployments|
    ensures 0 <= x < db.deployments[id].amountPaid <==>
              exists i :: 0 <= i < |db.ledger| && Covers(db.ledger[i], id, x)
    ensures forall i, j :: 0 <= i < j < |db.ledger| ==>
              !(Covers(db.ledger[i], id, x) && Covers(db.ledger[j], id, x))
  {
    assert PositionGood(db, id);
    assert db.ledger[..|db.ledger|] == db.ledger;
    if 0 <= x < db.deployments[id].amountPaid {
      var i := TileBelow(db, id, |db.ledger|, x);
    }
    forall i | 0 <= i < |db.ledger| && Covers(db.ledger[i], id, x)
      ensures 0 <= x < db.deployments[id].amountPaid
    {
      assert RowGood(db, i);
      assert db.ledger[..i + 1][..i] == db.ledger[..i];
      PaidGrows(db, id, i, i + 1);
      PaidGrows(db, id, i + 1, |db.ledger|);
    }
    forall i, j | 0 <= i < j < |db.ledger| && Covers(db.ledger[i], id, x) && Covers(db.ledger[j], id, x)
      ensures false
    {
      TilesAreDisjoint(db, id, i, j);
    }
  }

  // ------------------------------------------------------------- lifecycle

  /** Whatever the history, and whatever statements follow it: completed means
      paid in full, a completed deployment never reopens, its completion
      instant never changes, the balance never falls and nobody holds two open
      deployments. */
  lemma Lifecycle(past: seq<Op>, future: seq<Op>, id: nat)
    requires id < |ExecAll(EMPTY, past).deployments|
    ensures var db := ExecAll(EMPTY, past); var db' := ExecAll(db, future);
            && Extends(db, db')
            && id < |db'.deployments|
            && var d, e := db.deployments[id], db'.deployments[id];
               && Ages(d, e)
               && (d.status == Completed <==> d.amountPaid >= d.principal)
               && (e.status == Completed <==> e.amountPaid >= e.principal)
               && OneOpenEach(db'.deployments)
  {
    ExecAllKeepsGood(EMPTY, past);
    var db := ExecAll(EMPTY, past);
    ExecAllKeepsGood(db, future);
    var db' := ExecAll(db, future);
    assert PositionGood(db, id) && PositionGood(db', id);
  }

  /** The completion instant is the clock of the one credit that crosses the
      principal. */
  lemma CompletionIsStampedAtTheCrossing(db: Db, op: Op, id: nat)
    requires Good(db) && id < |db.deployments|
    requires db.deployments[id].status != Completed && Exec(db, op).0.deployments[id].status == Completed
    ensures op.DoApply? && op.id == id
    ensures db.deployments[id].amountPaid < db.deployments[id].principal
         <= Exec(db, op).0.deployments[id].amountPaid
    ensures Exec(db, op).0.deployments[id].completedAt == Some(op.now)
  {
    assert PositionGood(db, id);
    ExecKeepsGood(db, op);
    assert PositionGood(Exec(db, op).0, id);
  }

  /** The first row under a reference wins for good: once one is stored, of
      whatever outcome, no credit under that reference moves anything. */
  lemma FirstRowWins(db: Db, ops: seq<Op>, n: Notification, id: nat, now: int)
    requires Good(db) && Find(db.ledger, n.reference).Some?
    ensures var db' := ExecAll(db, ops);
            ApplyStatement(db', n, id, now) == (db', Skipped)
            && Find(db'.ledger, n.reference) == Find(db.ledger, n.reference)
  {
    ExecAllKeepsGood(db, ops);
    RowsAreForever(db, ExecAll(db, ops), n.reference);
  }

  // ---------------------------------------------------- order independence

  function Total(credits: seq<Notification>): int {
    if credits == [] then 0 else Total(credits[..|credits| - 1]) + credits[|credits| - 1].amount
  }

  function Latest(start: Option<int>, credits: seq<Notification>): Option<int> {
    if credits == [] then start
    else Greatest(Latest(start, credits[..|credits| - 1]), credits[|credits| - 1].date)
  }

  /** The latest date of a batch is one of its own or the one it started from,
      and none of them is later. */
  lemma {:induction false} LatestIsTheMaximum(start: Option<int>, credits: seq<Notification>)
    ensures Latest(start, credits).None? <==> start.None? && credits == []
    ensures Latest(start, credits).Some? ==>
              var date := Latest(start, credits).value;
              && (start == Some(date) || exists i :: 0 <= i < |credits| && credits[i].date == date)
              && (start.Some? ==> start.value <= date)
              && forall i :: 0 <= i < |credits| ==> credits[i].date <= date
  {
    if credits != [] {
      var k := |credits| - 1;
      LatestIsTheMaximum(start, credits[..k]);
      assert forall i :: 0 <= i < k ==> credits[i] == credits[..k][i];
      assert credits[k].date == credits[|credits| - 1].date;
      if Latest(start, credits[..k]).Some? && start != Latest(start, credits[..k]) {
        var i :| 0 <= i < k && credits[..k][i].date == Latest(start, credits[..k]).value;
        assert credits[i].date == Latest(start, credits[..k]).value;
      }
    }
  }

  /** The ops that apply the credits to one deployment, at clock times of
      their own. */
  function Applies(credits: seq<Notification>, id: nat, clock: nat -> int): seq<Op> {
    if credits == [] then []
    else
      var k := |credits| - 1;
      Applies(credits[..k], id, clock) + [DoApply(credits[k], id, clock(k))]
  }

  ghost predicate Fresh(db: Db, credits: seq<Notification>) {
    && (forall i :: 0 <= i < |credits| ==> credits[i].amount > 0 && Find(db.ledger, credits[i].reference).None?)
    && forall i, j :: 0 <= i < j < |credits| ==> credits[i].reference != credits[j].reference
  }

  /** The closed form of a batch of credits: order appears nowhere in it. */
  lemma {:induction false} BatchEffect(db: Db, credits: seq<Notification>, id: nat, clock: nat -> int)
    requires Good(db) && id < |db.deployments| && Fresh(db, credits)
    ensures var db' := ExecAll(db, Applies(credits, id, clock));
            && |db'.deployments| == |db.deployments|
            && var d, e := db.deployments[id], db'.deployments[id];
               && e.amountPaid == d.amountPaid + Total(credits)
               && e.paymentCount == d.paymentCount + |credits|
               && e.lastPaymentAt == Latest(d.lastPaymentAt, credits)
               && e.status == (if e.amountPaid >= d.principal then Completed else d.status)
               && (forall s :: Find(db'.ledger, s).Some? ==>
                     Find(db.ledger, s).Some? || exists i :: 0 <= i < |credits| && credits[i].reference == s)
  {
    if credits == [] {
      assert PositionGood(db, id);
    } else {
      var k := |credits| - 1;
      var rest, last := credits[..k], credits[k];
      BatchEffect(db, rest, id, clock);
      var ops := Applies(credits, id, clock);
      assert ops[..|ops| - 1] == Applies(rest, id, clock);
      var mid := ExecAll(db, Applies(rest, id, clock));
      ExecAllKeepsGood(db, Applies(rest, id, clock));
      assert PositionGood(mid, id);
      var db' := ExecAll(db, ops);
      assert db' == ApplyStatement(mid, last, id, clock(k)).0;
      assert Find(mid.ledger, last.reference).None?;
      forall s | Find(db'.ledger, s).Some?
        ensures Find(db.ledger, s).Some? || exists i :: 0 <= i < |credits| && credits[i].reference == s
      {
        var row := ApplyStatement(mid, last, id, clock(k)).1.row;
        Appended(mid.ledger, row, id, s);
        if s == last.reference { assert credits[k].reference == s; }
        else if Find(db.ledger, s).None? {
          var i :| 0 <= i < |rest| && rest[i].reference == s;
          assert credits[i].reference == s;
        }
      }
    }
  }

  lemma {:induction false} Concat(a: seq<Notification>, b: seq<Notification>, start: Option<int>)
    ensures Total(a + b) == Total(a) + Total(b)
    ensures Latest(start, a + b) == Latest(Latest(start, a), b)
  {
    if b == [] {
      assert a + b == a;
    } else {
      var k := |b| - 1;
      assert (a + b)[..|a| + k] == a + b[..k];
      Concat(a, b[..k], start);
    }
  }

  lemma {:induction false} GreatestCommutes(start: Option<int>, date: int, b: seq<Notification>)
    ensures Latest(Greatest(start, date), b) == Greatest(Latest(start, b), date)
  {
    if b != [] { GreatestCommutes(start, date, b[..|b| - 1]); }
  }

  /** Taking a credit out of the middle and putting it back at the end. */
  lemma MoveToEnd(front: seq<Notification>, x: Notification, back: seq<Notification>, start: Option<int>)
    ensures Total(front + [x] + back) == Total(front + back) + x.amount
    ensures Latest(start, front + [x] + back) == Greatest(Latest(start, front + back), x.date)
  {
    Concat(front + [x], back, start);
    Concat(front, [x], start);
    Concat(front, back, start);
    GreatestCommutes(Latest(start, front), x.date, back);
  }

  lemma SameWithoutLast(a: seq<Notification>, b: seq<Notification>) returns (j: nat)
    requires multiset(a) == multiset(b) && a != []
    ensures j < |b| && b[j] == a[|a| - 1]
    ensures b == b[..j] + [b[j]] + b[j + 1..]
    ensures multiset(a[..|a| - 1]) == multiset(b[..j] + b[j + 1..])
  {
    var k := |a| - 1;
    assert a == a[..k] + [a[k]];
    assert a[k] in multiset(b);
    j :| 0 <= j < |b| && b[j] == a[k];
    var rest := b[..j] + b[j + 1..];
    assert b == b[..j] + [b[j]] + b[j + 1..];
    assert multiset(b) == multiset(rest) + multiset{a[k]};
    assert multiset(rest) == multiset(b) - multiset{a[k]};
  }

  lemma {:induction false} PermutationsAgree(a: seq<Notification>, b: seq<Notification>, start: Option<int>)
    requires multiset(a) == multiset(b)
    ensures |a| == |b| && Total(a) == Total(b) && Latest(start, a) == Latest(start, b)
  {
    if a == [] {
      assert |multiset(b)| == |b|;
    } else {
      var j := SameWithoutLast(a, b);
      PermutationsAgree(a[..|a| - 1], b[..j] + b[j + 1..], start);
      MoveToEnd(b[..j], b[j], b[j + 1..], start);
    }
  }

  /** Addition does not care about order: the same distinct-reference credits,
      applied in any order at any times, leave the same balance, count, last
      payment date and status. */
  lemma OrderDoesNotMatter(db: Db, id: nat, a: seq<Notification>, b: seq<Notification>, clockA: nat -> int,
      clockB: nat -> int)
    requires Good(db) && id < |db.deployments|
    requires multiset(a) == multiset(b) && Fresh(db, a) && Fresh(db, b)
    ensures var da := ExecAll(db, Applies(a, id, clockA)); var dbb := ExecAll(db, Applies(b, id, clockB));
            && id < |da.deployments| && id < |dbb.deployments|
            && var x, y := da.deployments[id], dbb.deployments[id];
               && x.amountPaid == y.amountPaid && x.paymentCount == y.paymentCount
               && x.lastPaymentAt == y.lastPaymentAt && x.status == y.status
  {
    BatchEffect(db, a, id, clockA);
    BatchEffect(db, b, id, clockB);
    PermutationsAgree(a, b, db.deployments[id].lastPaymentAt);
  }

  /** The rows themselves do remember the order: whichever of two credits
      lands second starts from a higher balance. */
  lemma RowsRememberTheOrder(db: Db, id: nat, x: Notification, y: Notification, now: int)
    requires Good(db) && id < |db.deployments| && Fresh(db, [x, y])
    ensures var xy := ApplyStatement(ApplyStatement(db, x, id, now).0, y, id, now).0;
            var yx := ApplyStatement(ApplyStatement(db, y, id, now).0, x, id, now).0;
            && Find(xy.ledger, x.reference).Some? && Find(yx.ledger, x.reference).Some?
            && Find(yx.ledger, x.reference).value.before
                 == Find(xy.ledger, x.reference).value.before + y.amount
  {
    assert [x, y][0] == x && [x, y][1] == y;
    var (first, rx) := ApplyStatement(db, x, id, now);
    Appended(db.ledger, rx.row, id, x.reference);
    Appended(db.ledger, rx.row, id, y.reference);
    var (xy, ry) := ApplyStatement(first, y, id, now);
    Appended(first.ledger, ry.row, id, x.reference);
    var (first', ry') := ApplyStatement(db, y, id, now);
    Appended(db.ledger, ry'.row, id, x.reference);
    var (yx, rx') := ApplyStatement(first', x, id, now);
    Appended(first'.ledger, rx'.row, id, x.reference);
  }
}

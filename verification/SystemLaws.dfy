/** What holds in every reachable state of the whole service. */
module SystemLaws {
  import opened Prelude
  import opened Text
  import opened Deployments
  import opened Ledger
  import opened Notifications
  import opened Streams
  import opened Handling
  import opened WholeSystem

  /** The state a run of the service is in. */
  function Reached(setup: Setup, events: seq<Event>): System { After(setup, INITIAL, events) }

  lemma ReachedIsGood(setup: Setup, events: seq<Event>)
    ensures SystemGood(Reached(setup, events))
  {
    InitialIsGood();
    RunsKeepGood(setup, INITIAL, events);
  }

  // ------------------------------------------------------------------- money

  /** All the money the ledger ever moved under a reference. */
  function MovedUnder(ledger: seq<Row>, reference: string): int {
    if ledger == [] then 0
    else
      var row := ledger[|ledger| - 1];
      MovedUnder(ledger[..|ledger| - 1], reference)
      + if row.outcome == Applied && row.reference == reference then row.amount else 0
  }

  lemma {:induction false} MovedIsTheRow(ledger: seq<Row>, reference: string)
    requires UniqueReferences(ledger)
    ensures MovedUnder(ledger, reference) ==
              match Find(ledger, reference)
              case None => 0
              case Some(row) => if row.outcome == Applied then row.amount else 0
  {
    if ledger != [] {
      var init, row := ledger[..|ledger| - 1], ledger[|ledger| - 1];
      MovedIsTheRow(init, reference);
      FindFinds(init, row.reference);
      assert forall i :: 0 <= i < |init| ==> init[i] == ledger[i];
    }
  }

  /** Over every run the money moved under a reference is nothing, or exactly
      the amount of one accepted notification with that reference, applied to a
      deployment of that notification's own customer. */
  lemma MoneyMovesOnce(setup: Setup, events: seq<Event>, reference: string)
    ensures var s := Reached(setup, events);
            var moved := MovedUnder(s.w.db.ledger, reference);
            moved == 0
            || exists n :: n in s.accepted && n.reference == reference && n.amount == moved
                 && Find(s.w.db.ledger, reference).Some?
                 && var row := Find(s.w.db.ledger, reference).value;
                    RowFrom(row, n) && row.outcome == Applied && RowRouted(s.w.db, row)
  {
    ReachedIsGood(setup, events);
    var s := Reached(setup, events);
    MovedIsTheRow(s.w.db.ledger, reference);
    FindFinds(s.w.db.ledger, reference);
    if MovedUnder(s.w.db.ledger, reference) != 0 {
      var row := Find(s.w.db.ledger, reference).value;
      var i :| 0 <= i < |s.w.db.ledger| && s.w.db.ledger[i] == row;
      assert RowAccepted(s.accepted, s.w.db.ledger[i]) && RowRouted(s.w.db, s.w.db.ledger[i]);
      var n :| n in s.accepted && RowFrom(row, n);
    }
  }

  /** However many calls carry one reference - webhook retries, inline fallback
      after a lost enqueue reply, redeliveries, reclaims - at most one of them
      ever comes back with anything but a duplicate. */
  lemma OneCallWins(setup: Setup, events: seq<Event>, i: nat, j: nat)
    requires var s := Reached(setup, events);
             i < j < |s.calls| && s.calls[i].n.reference == s.calls[j].n.reference
    ensures var s := Reached(setup, events); !(Won(s.calls[i].pc) && Won(s.calls[j].pc))
  {
    ReachedIsGood(setup, events);
  }

  function PaidOnAll(deployments: seq<Deployment>): int {
    if deployments == [] then 0
    else PaidOnAll(deployments[..|deployments| - 1]) + deployments[|deployments| - 1].amountPaid
  }

  function AppliedAmounts(ledger: seq<Row>): int {
    if ledger == [] then 0
    else
      var row := ledger[|ledger| - 1];
      AppliedAmounts(ledger[..|ledger| - 1]) + if row.outcome == Applied then row.amount else 0
  }

  function PaidToFirst(ledger: seq<Row>, k: nat): int {
    if k == 0 then 0 else PaidToFirst(ledger, k - 1) + PaidTo(ledger, k - 1)
  }

  lemma {:induction false} OneRowOneDeployment(init: seq<Row>, row: Row, k: nat)
    ensures PaidToFirst(init + [row], k) == PaidToFirst(init, k)
              + if row.outcome == Applied && row.deployment.Some? && row.deployment.value < k then row.amount else 0
  {
    if k > 0 {
      OneRowOneDeployment(init, row, k - 1);
      Appended(init, row, k - 1, "");
    }
  }

  lemma {:induction false} LedgerSpreads(db: Db, n: nat)
    requires Good(db) && n <= |db.ledger|
    ensures PaidToFirst(db.ledger[..n], |db.deployments|) == AppliedAmounts(db.ledger[..n])
  {
    if n == 0 {
      NothingPaid(|db.deployments|);
    } else {
      LedgerSpreads(db, n - 1);
      assert RowGood(db, n - 1);
      assert db.ledger[..n] == db.ledger[..n - 1] + [db.ledger[n - 1]];
      assert db.ledger[..n][..n - 1] == db.ledger[..n - 1];
      OneRowOneDeployment(db.ledger[..n - 1], db.ledger[n - 1], |db.deployments|);
    }
  }

  lemma {:induction false} NothingPaid(k: nat)
    ensures PaidToFirst([], k) == 0
  {
    if k > 0 { NothingPaid(k - 1); }
  }

  lemma {:induction false} BalancesAreThePayments(db: Db, k: nat)
    requires Good(db) && k <= |db.deployments|
    ensures PaidOnAll(db.deployments[..k]) == PaidToFirst(db.ledger, k)
  {
    if k > 0 {
      BalancesAreThePayments(db, k - 1);
      assert PositionGood(db, k - 1);
      assert db.deployments[..k][..k - 1] == db.deployments[..k - 1];
    }
  }

  /** No money is made or lost: all balances together are all applied amounts
      together. */
  lemma BooksBalance(setup: Setup, events: seq<Event>)
    ensures var db := Reached(setup, events).w.db; PaidOnAll(db.deployments) == AppliedAmounts(db.ledger)
  {
    ReachedIsGood(setup, events);
    var db := Reached(setup, events).w.db;
    BalancesAreThePayments(db, |db.deployments|);
    LedgerSpreads(db, |db.ledger|);
    assert db.deployments[..|db.deployments|] == db.deployments && db.ledger[..|db.ledger|] == db.ledger;
  }

  // ----------------------------------------------------------------- routing

  predicate Unfinished(d: Deployment) { d.status == Active || d.status == Delinquent }

  ghost predicate NoTwoAtOnce(deployments: seq<Deployment>) {
    forall i, j :: 0 <= i < j < |deployments| && Unfinished(deployments[i]) && Unfinished(deployments[j]) ==>
      deployments[i].customer != deployments[j].customer
  }

  /** Under any interleaving of registrations, lookups, evictions and stale
      cache fills: a cached route is its customer's own and agrees with the
      deployment's immutable fields, every applied row's customer owns the
      deployment it landed on, and nobody has two open deployments. */
  lemma RoutingIsSound(setup: Setup, events: seq<Event>)
    ensures var w := Reached(setup, events).w;
            && (forall c :: c in w.refs ==>
                  && w.refs[c].id < |w.db.deployments|
                  && var ref, d := w.refs[c], w.db.deployments[w.refs[c].id];
                     && ref.customer == d.customer == c && ref.id == d.id && ref.currency == d.currency
                     && ref.principal == d.principal && ref.term == d.term && ref.startDate == d.startDate)
            && (forall i :: 0 <= i < |w.db.ledger| && w.db.ledger[i].outcome == Applied ==>
                  && w.db.ledger[i].deployment.Some? && w.db.ledger[i].deployment.value < |w.db.deployments|
                  && w.db.deployments[w.db.ledger[i].deployment.value].customer == w.db.ledger[i].customer)
            && NoTwoAtOnce(w.db.deployments)
  {
    ReachedIsGood(setup, events);
    var db := Reached(setup, events).w.db;
    forall id | 0 <= id < |db.deployments| ensures db.deployments[id].id == id { assert PositionGood(db, id); }
    forall i | 0 <= i < |db.ledger| ensures RowRouted(db, db.ledger[i]) {
    }
  }

  /** Every cached result is the immutable ledger row, figure for figure. */
  lemma CachedResultsAreLedgerRows(setup: Setup, events: seq<Event>, reference: string)
    ensures var w := Reached(setup, events).w;
            reference in w.results ==>
              w.results[reference].outcome == Applied && Find(w.db.ledger, reference) == Some(w.results[reference])
  {
    ReachedIsGood(setup, events);
  }

  // -------------------------------------------------------- settled references

  lemma SettledCallsDoNotWin(setup: Setup, s: System, e: Event, i: nat)
    requires i < |s.calls| && HasRow(s.w.db, s.calls[i].n.reference) && !Won(s.calls[i].pc)
    ensures i < |Next(setup, s, e).calls| && !Won(Next(setup, s, e).calls[i].pc)
  {
    if e.Run? && e.i == i {
      var c := s.calls[i];
      if Won(Step(setup.cfg, s.w, c.origin, c.n, c.pc, e.f).1) {
        WinningStoresTheRow(setup.cfg, s.w, c.origin, c.n, c.pc, e.f);
      }
    }
  }

  lemma NewCallsHaveNotWon(setup: Setup, s: System, e: Event, i: nat)
    requires |s.calls| <= i < |Next(setup, s, e).calls|
    ensures !Won(Next(setup, s, e).calls[i].pc)
  {
  }

  /** A call carrying a reference that already has a row cannot win. */
  lemma {:induction false} LatecomersNeverWin(setup: Setup, s: System, events: seq<Event>, reference: string, i: nat)
    requires SystemGood(s) && HasRow(s.w.db, reference)
    requires |s.calls| <= i < |After(setup, s, events).calls|
    requires After(setup, s, events).calls[i].n.reference == reference
    ensures !Won(After(setup, s, events).calls[i].pc)
  {
    if events != [] {
      var init, e := events[..|events| - 1], events[|events| - 1];
      var mid := After(setup, s, init);
      RunsKeepGood(setup, s, init);
      NextKeepsGood(setup, mid, e);
      RowsAreForever(s.w.db, mid.w.db, reference);
      if i < |mid.calls| {
        LatecomersNeverWin(setup, s, init, reference, i);
        SettledCallsDoNotWin(setup, mid, e, i);
      } else {
        NewCallsHaveNotWon(setup, mid, e, i);
      }
    }
  }

  /** What a call may answer when it did not store the row itself. */
  predicate TellsTheRow(row: Row, n: Notification, answer: Answer) {
    answer == ReplayAnswer(row, n) || answer == Transient
    || answer == Rejected(Undecodable) || (answer.Success? && answer.outcome == Queued)
  }

  lemma LosersTellTheRow(w: World, accepted: set<Notification>, origin: Origin, n: Notification, pc: Pc)
    requires CallGood(w, accepted, origin, n, pc) && !Won(pc) && HasRow(w.db, n.reference)
    requires AnswerOf(pc).Some?
    ensures TellsTheRow(Find(w.db.ledger, n.reference).value, n, AnswerOf(pc).value)
  {
  }

  /** Once a reference has a row, every later call with it, whatever interleaves
      with it, leaves the row alone and can only be told one thing: the stored
      row as a duplicate, or a conflict, decided by customer, amount and
      currency.  (Otherwise it was queued, undecodable, or met an
      infrastructure error.) */
  lemma LaterCallsReplay(setup: Setup, past: seq<Event>, future: seq<Event>, reference: string, i: nat)
    requires HasRow(Reached(setup, past).w.db, reference)
    requires var s := After(setup, Reached(setup, past), future);
             |Reached(setup, past).calls| <= i < |s.calls| && s.calls[i].n.reference == reference
    ensures var row := Find(Reached(setup, past).w.db.ledger, reference).value;
            var s := After(setup, Reached(setup, past), future);
            && Find(s.w.db.ledger, reference) == Some(row)
            && (AnswerOf(s.calls[i].pc).Some? ==> TellsTheRow(row, s.calls[i].n, AnswerOf(s.calls[i].pc).value))
  {
    var before := Reached(setup, past);
    var s := After(setup, before, future);
    ReachedIsGood(setup, past);
    RunsKeepGood(setup, before, future);
    RowsAreForever(before.w.db, s.w.db, reference);
    LatecomersNeverWin(setup, before, future, reference, i);
    var c := s.calls[i];
    if AnswerOf(c.pc).Some? { LosersTellTheRow(s.w, s.accepted, c.origin, c.n, c.pc); }
  }

  /** Every credit behind the webhook was positive, exact at its currency and
      inside the column: nothing else is ever accepted. */
  lemma {:induction false} AcceptedAreProper(setup: Setup, events: seq<Event>, n: Notification)
    requires n in Reached(setup, events).accepted
    ensures Proper(n)
  {
    if events != [] {
      var e := events[|events| - 1];
      if n in Reached(setup, events[..|events| - 1]).accepted {
        AcceptedAreProper(setup, events[..|events| - 1], n);
      } else {
        ValidatedIsProper(e.payload, setup.currency);
      }
    }
  }

  // ----------------------------------------------------------------- crashes

  /** A call that was in flight when the process died never moves again, and
      whatever the caches forget the tables and the stream keep. */
  lemma {:induction false} CrashedCallsStayPut(setup: Setup, s: System, events: seq<Event>, i: nat)
    requires i < |s.calls|
    ensures var after := After(setup, Next(setup, s, Restart), events);
            i < |after.calls| && after.calls[i].pc == s.calls[i].pc && !after.calls[i].alive
  {
    hide Step, Validate, Admit, CreateStatement;
    if events != [] { CrashedCallsStayPut(setup, s, events[..|events| - 1], i); }
  }

  lemma EvictionOnlyForgets(setup: Setup, s: System, key: string)
    ensures var w := Next(setup, s, EvictRef(key)).w;
            w == s.w.(refs := w.refs) && w.refs.Keys == s.w.refs.Keys - {key}
            && forall c :: c in w.refs ==> w.refs[c] == s.w.refs[c]
    ensures var w := Next(setup, s, EvictResult(key)).w;
            w == s.w.(results := w.results) && w.results.Keys == s.w.results.Keys - {key}
            && forall r :: r in w.results ==> w.results[r] == s.w.results[r]
  {
  }

  // ------------------------------------------------------------ no lost credit

  /** Not yet handed out, and still in the stream to be. */
  predicate Undelivered(s: Stream, id: nat) {
    s.first <= id < |s.entries| && (s.group.None? || s.group.value.delivered <= id)
  }

  /** Handed out, not acknowledged, and still there to be reclaimed. */
  predicate Redeliverable(s: Stream, id: nat) { s.first <= id && Pending(s, id) }

  /** At most maxLen entries exist from the oldest unacknowledged one onward. */
  ghost predicate BacklogFits(s: Stream, maxLen: nat) {
    maxLen > 0 ==> forall id: nat :: id < |s.entries| && !Acked(s, id) ==> |s.entries| - id <= maxLen
  }

  ghost predicate OnlyAckedTrimmed(s: Stream) { forall id: nat :: id < s.first ==> Acked(s, id) }

  lemma TrimSparesTheUnacked(setup: Setup, s: System, e: Event)
    requires SystemGood(s) && OnlyAckedTrimmed(s.w.stream)
    requires BacklogFits(Next(setup, s, e).w.stream, setup.cfg.maxLen)
    ensures OnlyAckedTrimmed(Next(setup, s, e).w.stream)
  {
    var t, t' := s.w.stream, Next(setup, s, e).w.stream;
    assert forall id: nat :: Acked(t, id) ==> Acked(t', id) by {
      NothingIsUnacked(setup, s, e);
    }
    if t'.first != t.first { NewCut(setup, s, e); }
  }

  lemma NothingIsUnacked(setup: Setup, s: System, e: Event)
    ensures forall id: nat :: Acked(s.w.stream, id) ==> Acked(Next(setup, s, e).w.stream, id)
  {
    hide Validate, Admit, CreateStatement, ApplyStatement, RecordStatement;
  }

  lemma NewCut(setup: Setup, s: System, e: Event)
    requires Next(setup, s, e).w.stream.first != s.w.stream.first
    ensures var t' := Next(setup, s, e).w.stream; setup.cfg.maxLen > 0 && t'.first + setup.cfg.maxLen <= |t'.entries|
  {
  }

  lemma {:induction false} UnackedAreKept(setup: Setup, events: seq<Event>)
    requires forall k :: 0 <= k <= |events| ==> BacklogFits(Reached(setup, events[..k]).w.stream, setup.cfg.maxLen)
    ensures OnlyAckedTrimmed(Reached(setup, events).w.stream)
  {
    if events != [] {
      var init := events[..|events| - 1];
      forall k | 0 <= k <= |init| ensures BacklogFits(Reached(setup, init[..k]).w.stream, setup.cfg.maxLen) {
        assert init[..k] == events[..k];
      }
      UnackedAreKept(setup, init);
      ReachedIsGood(setup, init);
      assert events[..|events|] == events;
      TrimSparesTheUnacked(setup, Reached(setup, init), events[|events| - 1]);
    }
  }

  /** No accepted credit is lost: through crashes, restarts, lost replies and
      failed acknowledgements every entry is undelivered, redeliverable, on the
      dead stream, or settled by a ledger row for its reference. */
  lemma NoCreditIsLost(setup: Setup, events: seq<Event>, id: nat)
    requires forall k :: 0 <= k <= |events| ==> BacklogFits(Reached(setup, events[..k]).w.stream, setup.cfg.maxLen)
    requires id < |Reached(setup, events).w.stream.entries|
    ensures var w := Reached(setup, events).w;
            Undelivered(w.stream, id) || Redeliverable(w.stream, id) || id in w.stream.dead
            || HasRow(w.db, w.stream.entries[id].reference)
  {
    ReachedIsGood(setup, events);
    UnackedAreKept(setup, events);
    var w := Reached(setup, events).w;
    if Acked(w.stream, id) { assert SettledOrDead(w.db, w.stream, id); }
  }

  /** Without that hypothesis the stream's trim is still the only way to lose a
      credit: an entry is nowhere exactly when it was trimmed away before
      anything settled it or set it aside. */
  lemma LostIffTrimmedUnsettled(setup: Setup, events: seq<Event>, id: nat)
    requires id < |Reached(setup, events).w.stream.entries|
    ensures var w := Reached(setup, events).w;
            var unsettled := id !in w.stream.dead && !HasRow(w.db, w.stream.entries[id].reference);
            (!Undelivered(w.stream, id) && !Redeliverable(w.stream, id) && unsettled)
              <==> (id < w.stream.first && unsettled)
  {
    ReachedIsGood(setup, events);
    var w := Reached(setup, events).w;
    if Acked(w.stream, id) { assert SettledOrDead(w.db, w.stream, id); }
  }

  /** Whatever the provider was told succeeded has a row, or an entry the
      previous lemma speaks for. */
  lemma SuccessIsBacked(setup: Setup, events: seq<Event>, i: nat)
    requires var s := Reached(setup, events);
             i < |s.calls| && s.calls[i].origin.Webhook?
             && AnswerOf(s.calls[i].pc).Some? && AnswerOf(s.calls[i].pc).value.Success?
    ensures var s := Reached(setup, events);
            HasRow(s.w.db, s.calls[i].n.reference)
            || exists id :: 0 <= id < |s.w.stream.entries| && s.w.stream.entries[id] == s.calls[i].n
  {
    ReachedIsGood(setup, events);
    var s := Reached(setup, events);
    var c := s.calls[i];
    assert CallGood(s.w, s.accepted, c.origin, c.n, c.pc);
  }

  /** Acknowledged means settled or dead-lettered; the converse direction is not
      promised, a slow worker may still apply what the reclaimer retired. */
  lemma AckedIsSettledOrDead(setup: Setup, events: seq<Event>, id: nat)
    requires Acked(Reached(setup, events).w.stream, id)
    ensures var w := Reached(setup, events).w;
            id < |w.stream.entries| && (HasRow(w.db, w.stream.entries[id].reference) || id in w.stream.dead)
  {
    ReachedIsGood(setup, events);
    assert SettledOrDead(Reached(setup, events).w.db, Reached(setup, events).w.stream, id);
  }

  /** The backlog hypothesis is needed: an enqueue whose trim reaches past an
      entry not yet handed out puts that entry out of everyone's reach, however
      approximate the trim. */
  lemma TrimCanDropACredit(cfg: Config, w: World, n: Notification, f: Faults, id: nat)
    requires cfg.maxLen > 0 && !f.enqueue.Lost?
    requires Undelivered(w.stream, id) && id < f.cut
    requires w.stream.first <= f.cut && f.cut + cfg.maxLen <= |w.stream.entries| + 1
    requires id !in w.stream.dead && !HasRow(w.db, w.stream.entries[id].reference)
    ensures var w' := Step(cfg, w, Webhook, n, AtEnqueue, f).0;
            && w'.stream.entries[..|w.stream.entries|] == w.stream.entries
            && !Undelivered(w'.stream, id) && !Redeliverable(w'.stream, id) && id !in w'.stream.dead
            && !HasRow(w'.db, w'.stream.entries[id].reference)
  {
  }
}

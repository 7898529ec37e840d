/**
  What each kind of call comes to, case by case and in the fields of the tables,
  the caches and the stream: src/internal/domain/payment/service.go and
  src/internal/infrastructure/queue/worker.go.
*/
module Outcomes {
  import opened Prelude
  import opened Text
  import opened Deployments
  import opened Ledger
  import opened Notifications
  import opened Streams
  import opened Handling
  import opened HandlingLaws
  import opened Repositories
  import opened Services
  import opened Workers

  // ------------------------------------------------------------- processing

  /** A fresh credit whose customer has the open deployment k, routed by the
      database. */
  ghost predicate HasRoute(w: World, accepted: set<Notification>, n: Notification, k: nat, f: Faults) {
    && WorldGood(w, accepted) && n in accepted && Routable(n)
    && FirstSeen(w, n, f)
    && k < |w.db.deployments| && w.db.deployments[k].customer == n.customer
    && w.db.deployments[k].status in {Active, Delinquent}
  }

  /** Nothing known about the reference or the customer, and nothing fails. */
  ghost predicate FirstSeen(w: World, n: Notification, f: Faults) {
    && (forall i :: 0 <= i < |w.db.ledger| ==> w.db.ledger[i].reference != n.reference)
    && n.customer !in w.refs && Healthy(f)
  }

  /** The routes are those of before, and, unless the write was lost, this
      customer's own deployment's, field for field. */
  predicate RouteCached(before: map<string, Ref>, after: map<string, Ref>, d: Deployment, lost: bool) {
    if lost then after == before
    else
      && d.customer in after && after.Keys == before.Keys + {d.customer}
      && (forall c :: c in before && c != d.customer ==> after[c] == before[c])
      && var ref := after[d.customer];
         && ref.id == d.id && ref.customer == d.customer && ref.currency == d.currency
         && ref.principal == d.principal && ref.term == d.term && ref.startDate == d.startDate
  }

  lemma OpenIsFound(w: World, accepted: set<Notification>, n: Notification, k: nat, f: Faults)
    requires HasRoute(w, accepted, n, k, f)
    ensures GetByCustomer(w.db.deployments, n.customer) == Some(w.db.deployments[k])
    ensures IsOpen(w.db.deployments[k]) && w.db.deployments[k].id == k && Trim(n.customer) == n.customer != ""
    ensures Find(w.db.ledger, n.reference).None?
  {
    FindFinds(w.db.ledger, n.reference);
    assert PositionGood(w.db, k);
    LookupPrefersOpen(w.db.deployments, n.customer);
    LookupIsFirstInOrder(w.db.deployments, n.customer);
    var d := GetByCustomer(w.db.deployments, n.customer).value;
    var i :| 0 <= i < |w.db.deployments| && w.db.deployments[i] == d;
    assert i == k;
  }

  lemma RoutedByTheDatabase(cfg: Config, w: World, accepted: set<Notification>, n: Notification, k: nat, f: Faults)
    requires HasRoute(w, accepted, n, k, f)
    ensures var d := w.db.deployments[k];
            var w1 := Fill(w, RefOf(d), f);
            && Alone(cfg, w, Webhook, n, AtResolve, f) == Alone(cfg, w1, Webhook, n, AtWrite(RefOf(d)), f)
            && w1 == w.(refs := w1.refs) && RouteCached(w.refs, w1.refs, d, f.refSetLost)
  {
    hide WorldGood, Routable;
    OpenIsFound(w, accepted, n, k, f);
    RouteIsTheSteps(cfg, w, n, f);
  }

  /** A settled credit is applied, in full, to the customer's open deployment:
      one row, one balance, the answer is that row, and both caches learn. */
  lemma SettledIsApplied(cfg: Config, w: World, accepted: set<Notification>, n: Notification, k: nat, f: Faults)
    requires HasRoute(w, accepted, n, k, f)
    requires Upper(Trim(n.providerStatus)) in {"COMPLETE", "COMPLETED", "SUCCESS", "SUCCESSFUL"}
    ensures var (w', pc') := Alone(cfg, w, Webhook, n, AtResolve, f);
            var d := w.db.deployments[k];
            && |w'.db.ledger| == |w.db.ledger| + 1 && w'.db.ledger[..|w.db.ledger|] == w.db.ledger
            && |w'.db.deployments| == |w.db.deployments|
            && (forall i :: 0 <= i < |w.db.deployments| && i != k ==> w'.db.deployments[i] == w.db.deployments[i])
            && w'.db.deployments[k].amountPaid == d.amountPaid + n.amount
            && var row := w'.db.ledger[|w.db.ledger|];
               && row.reference == n.reference && row.customer == n.customer && row.amount == n.amount
               && row.outcome == Applied && row.deployment == Some(k) && row.currency == d.currency
               && row.providerStatus == n.providerStatus && row.date == n.date
               && pc' == Answered(Success(Applied, Some(row)))
               && RouteCached(w.refs, w'.refs, d, f.refSetLost)
               && w'.results == (if f.resultSetLost then w.results else w.results[n.reference := row])
               && w'.stream == w.stream
  {
    hide WorldGood, Routable, Trim, Upper;
    SettledStatuses(n.providerStatus);
    OpenIsFound(w, accepted, n, k, f);
    RoutedByTheDatabase(cfg, w, accepted, n, k, f);
    AmountIsPositive(n);
    AppliedAtTheWrite(cfg, Fill(w, RefOf(w.db.deployments[k]), f), n, RefOf(w.db.deployments[k]), f);
  }

  lemma AmountIsPositive(n: Notification)
    requires Routable(n)
    ensures n.amount > 0
  {
  }

  lemma AppliedAtTheWrite(cfg: Config, w: World, n: Notification, ref: Ref, f: Faults)
    requires IsSuccessful(n.providerStatus) && Healthy(f) && ref.id < |w.db.deployments|
    requires Find(w.db.ledger, n.reference).None? && n.amount > 0
    ensures var (db, reply) := ApplyStatement(w.db, n, ref.id, f.now);
            reply.Moved?
            && Alone(cfg, w, Webhook, n, AtWrite(ref), f)
                 == (Publish(w.(db := db), n, reply.row, f), Answered(Success(Applied, Some(reply.row))))
  {
    OneStep(cfg, w, Webhook, n, AtWrite(ref), f);
    var (db, reply) := ApplyStatement(w.db, n, ref.id, f.now);
    OneStep(cfg, w.(db := db), Webhook, n, AtPublish(reply.row), f);
  }

  /** What was filed: one row, no balance. */
  ghost predicate FiledAs(w: World, w': World, n: Notification, outcome: Outcome, deployment: Option<nat>,
      answer: Answer)
  {
    && |w'.db.ledger| == |w.db.ledger| + 1 && w'.db.ledger[..|w.db.ledger|] == w.db.ledger
    && w'.db.deployments == w.db.deployments && w'.results == w.results && w'.stream == w.stream
    && var row := w'.db.ledger[|w.db.ledger|];
       && row.reference == n.reference && row.customer == n.customer && row.amount == n.amount
       && row.currency == n.currency.code && row.providerStatus == n.providerStatus && row.date == n.date
       && row.applied == 0 && row.excess == 0 && row.before == 0 && row.after == 0
       && row.outcome == outcome && row.deployment == deployment
       && answer == Success(outcome, Some(row))
  }

  lemma FiledAtTheRecord(cfg: Config, w: World, n: Notification, outcome: Outcome, deployment: Option<nat>, f: Faults)
    requires outcome in {Unmatched, Ignored} && Healthy(f) && n.amount > 0
    requires Find(w.db.ledger, n.reference).None? && (deployment.Some? ==> deployment.value < |w.db.deployments|)
    ensures var (w', pc') := Alone(cfg, w, Webhook, n, AtRecord(outcome, deployment), f);
            pc'.Answered? && FiledAs(w, w', n, outcome, deployment, pc'.answer) && w'.refs == w.refs
  {
    OneStep(cfg, w, Webhook, n, AtRecord(outcome, deployment), f);
  }

  /** Funds that have not settled are filed against the deployment they belong
      to, and move nothing. */
  lemma UnsettledIsFiled(cfg: Config, w: World, accepted: set<Notification>, n: Notification, k: nat, f: Faults)
    requires HasRoute(w, accepted, n, k, f)
    requires Upper(Trim(n.providerStatus)) !in {"COMPLETE", "COMPLETED", "SUCCESS", "SUCCESSFUL"}
    ensures var (w', pc') := Alone(cfg, w, Webhook, n, AtResolve, f);
            && pc'.Answered? && FiledAs(w, w', n, Ignored, Some(k), pc'.answer)
            && RouteCached(w.refs, w'.refs, w.db.deployments[k], f.refSetLost)
  {
    hide WorldGood, Routable, Trim, Upper;
    SettledStatuses(n.providerStatus);
    OpenIsFound(w, accepted, n, k, f);
    RoutedByTheDatabase(cfg, w, accepted, n, k, f);
    AmountIsPositive(n);
    var w1 := Fill(w, RefOf(w.db.deployments[k]), f);
    OneStep(cfg, w1, Webhook, n, AtWrite(RefOf(w.db.deployments[k])), f);
    FiledAtTheRecord(cfg, w1, n, Ignored, Some(k), f);
  }

  /** Money for a customer with no open deployment is never discarded: it is
      filed as unmatched, whatever its status. */
  lemma UnroutableIsFiled(cfg: Config, w: World, accepted: set<Notification>, n: Notification, f: Faults)
    requires WorldGood(w, accepted) && n in accepted && Routable(n) && FirstSeen(w, n, f)
    requires forall i :: 0 <= i < |w.db.deployments| && w.db.deployments[i].customer == n.customer ==>
               w.db.deployments[i].status in {Completed, WrittenOff}
    ensures var (w', pc') := Alone(cfg, w, Webhook, n, AtResolve, f);
            pc'.Answered? && FiledAs(w, w', n, Unmatched, None, pc'.answer) && w'.refs == w.refs
  {
    FindFinds(w.db.ledger, n.reference);
    LookupIsFirstInOrder(w.db.deployments, n.customer);
    NowhereToGo(cfg, w, n, f);
    FiledAtTheRecord(cfg, w, n, Unmatched, None, f);
  }

  lemma NowhereToGo(cfg: Config, w: World, n: Notification, f: Faults)
    requires Routable(n) && n.customer !in w.refs && !f.lookupFails
    requires var found := GetByCustomer(w.db.deployments, n.customer); found.None? || !IsOpen(found.value)
    ensures Alone(cfg, w, Webhook, n, AtResolve, f) == Alone(cfg, w, Webhook, n, AtRecord(Unmatched, None), f)
  {
    RouteIsTheSteps(cfg, w, n, f);
  }

  // ---------------------------------------------------------- infrastructure

  /** An infrastructure failure is passed on, so that the provider retries, and is
      never taken for money with nowhere to go. */
  lemma LookupFailureIsPassedOn(cfg: Config, w: World, n: Notification, f: Faults)
    requires Routable(n) && f.lookupFails && (f.refMiss || n.customer !in w.refs)
    ensures Alone(cfg, w, Webhook, n, AtResolve, f) == (w, Answered(Transient))
  {
    RouteIsTheSteps(cfg, w, n, f);
  }

  /** A write that failed changed nothing, and one whose reply was lost is told as
      a failure too, though its row may be there. */
  lemma FailedWriteIsPassedOn(cfg: Config, w: World, n: Notification, ref: Ref, outcome: Outcome,
      deployment: Option<nat>, f: Faults)
    requires !f.write.Fine? && IsSuccessful(n.providerStatus)
    ensures var (applied, pc) := Alone(cfg, w, Webhook, n, AtWrite(ref), f);
            pc == Answered(Transient) && (f.write.Lost? ==> applied == w)
    ensures var (filed, pc) := Alone(cfg, w, Webhook, n, AtRecord(outcome, deployment), f);
            pc == Answered(Transient) && (f.write.Lost? ==> filed == w)
  {
    OneStep(cfg, w, Webhook, n, AtWrite(ref), f);
    OneStep(cfg, w, Webhook, n, AtRecord(outcome, deployment), f);
  }

  /** Reading back what a taken reference holds: a failed read is passed on, a
      missing row or deployment is not-found, and nothing is written. */
  lemma ReplayReadsBack(cfg: Config, w: World, n: Notification, id: nat, f: Faults)
    ensures var (w', pc') := Alone(cfg, w, Webhook, n, AtReplay(id), f);
            var stored := Find(w.db.ledger, n.reference);
            && w' == w
            && (f.replayFails ==> pc' == Answered(Transient))
            && (!f.replayFails && stored.None? ==> pc' == Answered(Rejected(NotFound)))
            && (!f.replayFails && stored.Some? && f.positionFails ==> pc' == Answered(Transient))
            && (!f.replayFails && stored.Some? && !f.positionFails && id >= |w.db.deployments| ==>
                  pc' == Answered(Rejected(NotFound)))
    ensures f.replayFails ==> Alone(cfg, w, Webhook, n, AtReplayRecord, f) == (w, Answered(Transient))
  {
    hide Find;
    OneStep(cfg, w, Webhook, n, AtReplay(id), f);
    OneStep(cfg, w, Webhook, n, AtReplayRecord, f);
    var pc := ReadBack(w, n, id, f);
    if pc.AtPosition? { OneStep(cfg, w, Webhook, n, pc, f); }
  }

  /** The two classifications an error is put to: nowhere to apply the money, and
      no retry can help. */
  lemma ErrorsAreClassified(e: Error)
    ensures IsRoutingFailure(e) <==> e == ErrNotFound || e == ErrNoOpenDeployment
    ensures Permanent(e) <==> e != Infrastructure
    ensures e == ErrReferenceConflict ==> Code(e) == Some(409)
  {
  }

  // ------------------------------------------------------------------ Accept

  /** With a queue, a reference that is not cached is enqueued and the credit is
      echoed back as queued; the tables and the caches are left alone. */
  lemma QueuedIsEchoed(cfg: Config, w: World, n: Notification, f: Faults)
    requires cfg.queued && f.enqueue.Fine? && (f.resultMiss || n.reference !in w.results)
    ensures var (w', pc') := Alone(cfg, w, Webhook, n, AtResultCache, f);
            && w'.db == w.db && w'.refs == w.refs && w'.results == w.results
            && w'.stream.entries == w.stream.entries + [n]
            && w'.stream.dead == w.stream.dead && w'.stream.group == w.stream.group
            && pc'.Answered? && pc'.answer.Success? && pc'.answer.outcome == Queued && pc'.answer.payment.Some?
            && var echo := pc'.answer.payment.value;
               && echo.reference == n.reference && echo.customer == n.customer && echo.amount == n.amount
               && echo.currency == n.currency.code && echo.outcome == Queued
               && echo.providerStatus == n.providerStatus && echo.date == n.date
  {
    OneStep(cfg, w, Webhook, n, AtResultCache, f);
    OneStep(cfg, w, Webhook, n, AtEnqueue, f);
  }

  /** A credit is never refused because a broker is down, or absent: it is
      processed inline, from the tables and caches as they are.  Only the stream
      may already hold it. */
  lemma RefusedIsProcessedInline(cfg: Config, w: World, n: Notification, f: Faults)
    requires !cfg.queued || !f.enqueue.Fine?
    requires f.resultMiss || n.reference !in w.results
    ensures var sent := cfg.queued && f.enqueue.ReplyLost?;
            exists stream: Stream ::
              && stream.entries == (if sent then w.stream.entries + [n] else w.stream.entries)
              && (!sent ==> stream == w.stream)
              && Alone(cfg, w, Webhook, n, AtResultCache, f)
                   == Alone(cfg, w.(stream := stream), Webhook, n, AtResolve, f)
  {
    var sent := cfg.queued && f.enqueue.ReplyLost?;
    var stream := if sent then Append(w.stream, n, cfg.maxLen, f.cut) else w.stream;
    OneStep(cfg, w, Webhook, n, AtResultCache, f);
    if cfg.queued { OneStep(cfg, w, Webhook, n, AtEnqueue, f); }
    assert w.(stream := w.stream) == w;
    assert Alone(cfg, w, Webhook, n, AtResultCache, f) == Alone(cfg, w.(stream := stream), Webhook, n, AtResolve, f);
  }

  // ----------------------------------------------------------------- workers

  /** Set aside: on the dead stream unless that write was lost, and no longer
      pending if both it and the acknowledgement arrived. */
  ghost predicate SetAside(s: Stream, s': Stream, id: nat, f: Faults) {
    && s'.entries == s.entries && s'.first == s.first
    && s'.dead == (if f.bury.Lost? then s.dead else s.dead + [id])
    && (f.bury.Fine? && !f.ackLost ==> !Pending(s', id))
    && (!f.bury.Fine? || f.ackLost ==> s'.group == s.group)
  }

  /** Acknowledged: no longer pending unless the acknowledgement was lost, and
      not on the dead stream unless it was before. */
  ghost predicate OnlyAcknowledged(s: Stream, s': Stream, id: nat, f: Faults) {
    && s'.entries == s.entries && s'.first == s.first && s'.dead == s.dead
    && (!f.ackLost ==> !Pending(s', id))
    && (f.ackLost ==> s' == s)
  }

  lemma DeadLetterSetsAside(cfg: Config, w: World, id: nat, attempt: nat, n: Notification, answer: Answer, f: Faults)
    ensures var w' := Alone(cfg, w, Worker(id, attempt), n, AtDeadLetter(answer), f).0;
            w' == w.(stream := w'.stream) && SetAside(w.stream, w'.stream, id, f)
  {
    var origin := Worker(id, attempt);
    OneStep(cfg, w, origin, n, AtDeadLetter(answer), f);
    if f.bury.Fine? { OneStep(cfg, w.(stream := Bury(w.stream, id)), origin, n, AtAck(answer), f); }
  }

  lemma AckOnlyAcknowledges(cfg: Config, w: World, id: nat, attempt: nat, n: Notification, answer: Answer, f: Faults)
    ensures var w' := Alone(cfg, w, Worker(id, attempt), n, AtAck(answer), f).0;
            w' == w.(stream := w'.stream) && OnlyAcknowledged(w.stream, w'.stream, id, f)
  {
    OneStep(cfg, w, Worker(id, attempt), n, AtAck(answer), f);
  }

  /** Processing leaves the stream alone. */
  lemma ProcessingKeepsStream(cfg: Config, w: World, n: Notification, pc: Pc, f: Faults)
    requires Processing(pc) || pc.AtPublish? || pc.Answered?
    ensures Alone(cfg, w, Webhook, n, pc, f).0.stream == w.stream
    decreases StepsLeft(pc)
  {
    if !pc.Answered? {
      StepsDescend(cfg, w, Webhook, n, pc, f);
      OneStep(cfg, w, Webhook, n, pc, f);
      var (w', pc') := Step(cfg, w, Webhook, n, pc, f);
      ProcessingKeepsStream(cfg, w', n, pc', f);
    }
  }

  /** What a worker does with one message, by what Process says to it.  An
      undecodable message is set aside unprocessed.  Else it is processed once;
      after a result it is acknowledged and not set aside; after a rejection it is
      set aside; after an infrastructure error it is left as it is, until the last
      attempt sets it aside. */
  lemma HandledByItsAnswer(cfg: Config, w: World, id: nat, attempt: nat, f: Faults)
    requires id < |w.stream.entries|
    ensures var (processed, pc) := Alone(cfg, w, Webhook, w.stream.entries[id], AtResolve, f);
            var w' := Handled(cfg, w, id, attempt, f);
            && pc.Answered? && processed.stream == w.stream
            && (f.undecodable ==> w' == w.(stream := w'.stream) && SetAside(w.stream, w'.stream, id, f))
            && (!f.undecodable ==>
                  && w' == processed.(stream := w'.stream)
                  && (pc.answer.Success? ==> OnlyAcknowledged(w.stream, w'.stream, id, f))
                  && (pc.answer.Rejected? ==> SetAside(w.stream, w'.stream, id, f))
                  && (pc.answer.Transient? && attempt < cfg.maxAttempts ==> w'.stream == w.stream)
                  && (pc.answer.Transient? && attempt >= cfg.maxAttempts ==>
                        SetAside(w.stream, w'.stream, id, f)))
  {
    hide SetAside, OnlyAcknowledged, Step;
    var n, origin := w.stream.entries[id], Worker(id, attempt);
    ProcessThenDispose(cfg, w, origin, n, AtResolve, f);
    ProcessingKeepsStream(cfg, w, n, AtResolve, f);
    if f.undecodable {
      UndecodableIsBuried(cfg, w, id, attempt, n, f);
      DeadLetterSetsAside(cfg, w, id, attempt, n, Rejected(Undecodable), f);
    } else {
      DecodedThenDisposed(cfg, w, id, attempt, n, f);
      var (processed, pc) := Alone(cfg, w, Webhook, n, AtResolve, f);
      DeadLetterSetsAside(cfg, processed, id, attempt, n, pc.answer, f);
      AckOnlyAcknowledges(cfg, processed, id, attempt, n, pc.answer, f);
    }
  }

  /** So the dead stream only ever gains a message that is undecodable, rejected
      or out of attempts. */
  lemma OnlyFailuresAreDeadLettered(cfg: Config, w: World, id: nat, attempt: nat, f: Faults)
    requires id < |w.stream.entries| && Handled(cfg, w, id, attempt, f).stream.dead != w.stream.dead
    ensures f.undecodable
            || var answer := Alone(cfg, w, Webhook, w.stream.entries[id], AtResolve, f).1;
               answer.Answered? && !answer.answer.Success?
               && (answer.answer.Transient? ==> attempt >= cfg.maxAttempts)
  {
    HandledByItsAnswer(cfg, w, id, attempt, f);
  }

  /** A turn whose read or claim failed handles nothing, and a claim that failed
      leaves the cursor where it was, for the next tick to try again. */
  lemma FailedTurnsHandleNothing(cfg: Config, sizes: Sizes, w: World, poll: Poll, cursor: nat, tick: Tick)
    ensures poll.read.Lost? ==> Polled(cfg, sizes, w, poll) == w
    ensures poll.read.ReplyLost? ==>
              var w' := Polled(cfg, sizes, w, poll);
              w'.db == w.db && w'.refs == w.refs && w'.results == w.results && w'.stream.dead == w.stream.dead
    ensures tick.claim.Lost? ==> Ticked(cfg, sizes, w, cursor, tick) == (w, cursor)
    ensures tick.claim.ReplyLost? ==>
              var (w', next) := Ticked(cfg, sizes, w, cursor, tick);
              && next == cursor && w'.db == w.db && w'.refs == w.refs && w'.results == w.results
              && w'.stream.dead == w.stream.dead
  {
    ReadKeepsDead(w.stream, sizes.batch);
    ClaimKeepsDead(w.stream, cursor, sizes.batch, sizes.budget, tick.idle);
  }

  lemma {:induction false} ReadKeepsDead(s: Stream, count: nat)
    ensures ReadGroup(s, count).0.dead == s.dead
    decreases count
  {
    if count > 0 && Fresh(s).Some? { ReadKeepsDead(Deliver(s, Fresh(s).value), count - 1); }
  }

  lemma {:induction false} ClaimKeepsDead(s: Stream, p: nat, count: nat, budget: nat, idle: set<nat>)
    ensures AutoClaim(s, p, count, budget, idle).0.dead == s.dead
    decreases budget
  {
    if s.group.Some? && NextPending(s, p).Some? && count > 0 && budget > 0 {
      var k := NextPending(s, p).value;
      NextPendingIsFirst(s, p);
      if k < s.first || k in idle {
        ClaimKeepsDead(Claim(s, k), k + 1, count - 1, budget - 1, idle);
      } else {
        ClaimKeepsDead(s, k + 1, count, budget - 1, idle);
      }
    }
  }
}

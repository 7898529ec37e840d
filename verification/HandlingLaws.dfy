/** What one undisturbed call achieves, whatever state it starts from. */
module HandlingLaws {
  import opened Prelude
  import opened Text
  import opened Deployments
  import opened Ledger
  import opened Notifications
  import opened Streams
  import opened Handling

  lemma AloneKeepsGood(cfg: Config, w: World, accepted: set<Notification>, origin: Origin, n: Notification, pc: Pc,
      f: Faults)
    requires WorldGood(w, accepted) && CallGood(w, accepted, origin, n, pc)
    ensures Kept(w, accepted, origin, n, Alone(cfg, w, origin, n, pc, f))
    decreases StepsLeft(pc)
  {
    hide WorldGood, CallGood;
    if Over(origin, pc) {
      ExtendsReflexive(w.db);
    } else {
      StepsDescend(cfg, w, origin, n, pc, f);
      StepKeepsGood(cfg, w, accepted, origin, n, pc, f);
      var (w', pc') := Step(cfg, w, origin, n, pc, f);
      AloneKeepsGood(cfg, w', accepted, origin, n, pc', f);
      GrowsTransitive(w, w', Alone(cfg, w, origin, n, pc, f).0);
    }
  }

  // ------------------------------------------------------- settled references

  /** Inside Process, with the answer still open. */
  predicate Processing(pc: Pc) {
    pc.AtResolve? || pc.AtLookup? || pc.AtFill? || pc.AtWrite? || pc.AtRecord?
    || pc.AtReplay? || pc.AtPosition? || pc.AtReplayRecord?
  }

  /** No infrastructure error reaches this call. */
  predicate Healthy(f: Faults) {
    !f.lookupFails && !f.replayFails && !f.positionFails && f.write.Fine?
  }

  lemma SettledStep(cfg: Config, w: World, accepted: set<Notification>, n: Notification, pc: Pc, f: Faults)
    requires WorldGood(w, accepted) && CallGood(w, accepted, Webhook, n, pc) && Processing(pc)
    requires HasRow(w.db, n.reference)
    ensures var (w', pc') := Step(cfg, w, Webhook, n, pc, f);
            var answer := ReplayAnswer(Find(w.db.ledger, n.reference).value, n);
            && w'.db == w.db && w'.stream == w.stream && w'.results == w.results
            && (Processing(pc') || pc' == Answered(answer) || (!Healthy(f) && pc' == Answered(Transient)))
  {
  }

  /** Once a reference has a row, Process moves nothing, and its answer depends
      on the row and on the notification's customer, amount and currency alone:
      not on routing, on the provider status or on which statement it ran. */
  lemma SettledReferencesReplay(cfg: Config, w: World, accepted: set<Notification>, n: Notification, pc: Pc, f: Faults)
    requires WorldGood(w, accepted) && CallGood(w, accepted, Webhook, n, pc) && Processing(pc)
    requires HasRow(w.db, n.reference)
    ensures var (w', pc') := Alone(cfg, w, Webhook, n, pc, f);
            var answer := ReplayAnswer(Find(w.db.ledger, n.reference).value, n);
            && w'.db == w.db && w'.stream == w.stream && w'.results == w.results
            && (pc' == Answered(answer) || (!Healthy(f) && pc' == Answered(Transient)))
    decreases StepsLeft(pc)
  {
    hide WorldGood;
    SettledStep(cfg, w, accepted, n, pc, f);
    StepsDescend(cfg, w, Webhook, n, pc, f);
    StepKeepsGood(cfg, w, accepted, Webhook, n, pc, f);
    var (w', pc') := Step(cfg, w, Webhook, n, pc, f);
    if Processing(pc') { SettledReferencesReplay(cfg, w', accepted, n, pc', f); }
  }

  /** The conflict check, field by field: whatever Process is asked to do with a
      settled reference, with no infrastructure error it answers a duplicate, with
      the stored row, exactly if customer, amount and currency code are the
      row's, and a conflict otherwise. */
  lemma SettledMeansSameThreeFields(cfg: Config, w: World, accepted: set<Notification>, n: Notification, f: Faults)
    requires WorldGood(w, accepted) && CallGood(w, accepted, Webhook, n, AtResolve)
    requires HasRow(w.db, n.reference) && Healthy(f)
    ensures var row := Find(w.db.ledger, n.reference).value;
            var (w', pc') := Alone(cfg, w, Webhook, n, AtResolve, f);
            && w'.db == w.db
            && var same := n.customer == row.customer && n.amount == row.amount && n.currency.code == row.currency;
               pc' == Answered(if same then Success(Duplicate, Some(row)) else Rejected(Conflict))
  {
    hide Alone, WorldGood;
    SettledReferencesReplay(cfg, w, accepted, n, AtResolve, f);
  }

  /** So does Accept when the reference is in the cache, queue or no queue, and
      then it touches nothing. */
  lemma CachedMeansSameThreeFields(cfg: Config, w: World, n: Notification, f: Faults)
    requires n.reference in w.results && !f.resultMiss
    ensures var row := w.results[n.reference];
            var (w', pc') := Alone(cfg, w, Webhook, n, AtResultCache, f);
            && w' == w
            && var same := n.customer == row.customer && n.amount == row.amount && n.currency.code == row.currency;
               pc' == Answered(if same then Success(Duplicate, Some(row)) else Rejected(Conflict))
  {
    assert Step(cfg, w, Webhook, n, AtResultCache, f).0 == w;
  }

  /** The result cache is not a hole in the conflict check: with no queue and no
      infrastructure errors the cached answer is the database's answer, for
      every notification carrying the reference. */
  lemma CachedAnswerIsTheDatabaseAnswer(cfg: Config, w: World, accepted: set<Notification>, n: Notification, f: Faults)
    requires WorldGood(w, accepted) && CallGood(w, accepted, Webhook, n, AtResultCache)
    requires !cfg.queued && Healthy(f) && n.reference in w.results
    ensures var (cached, fromCache) := Alone(cfg, w, Webhook, n, AtResultCache, f.(resultMiss := false));
            var (read, fromDb) := Alone(cfg, w, Webhook, n, AtResultCache, f.(resultMiss := true));
            && cached == w && read.db == w.db
            && fromCache == fromDb == Answered(ReplayAnswer(w.results[n.reference], n))
  {
    var miss := f.(resultMiss := true);
    assert CallGood(w, accepted, Webhook, n, AtResolve);
    SettledReferencesReplay(cfg, w, accepted, n, AtResolve, miss);
    assert Step(cfg, w, Webhook, n, AtResultCache, miss) == (w, AtResolve);
    assert Alone(cfg, w, Webhook, n, AtResultCache, miss) == Alone(cfg, w, Webhook, n, AtResolve, miss);
    var hit := f.(resultMiss := false);
    assert Alone(cfg, w, Webhook, n, AtResultCache, hit) == (w, Answered(ReplayAnswer(w.results[n.reference], n)));
  }

  /** An identical retry is a duplicate: unless the money was applied to a
      deployment in another currency, in which case it is a conflict.  The row
      keeps the deployment's currency, the check compares the notification's. */
  lemma IdenticalRetry(w: World, accepted: set<Notification>, i: nat, n: Notification)
    requires WorldGood(w, accepted) && i < |w.db.ledger|
    requires var row := w.db.ledger[i]; RowFrom(row, n)
    ensures var row := w.db.ledger[i];
            var sameCurrency := row.outcome == Applied ==>
              row.deployment.Some? && row.deployment.value < |w.db.deployments|
              && w.db.deployments[row.deployment.value].currency == n.currency.code;
            && (ReplayAnswer(row, n) == Success(Duplicate, Some(row)) <==> sameCurrency)
            && (ReplayAnswer(row, n) == Rejected(Conflict) <==> !sameCurrency)
  {
    assert RowGood(w.db, i);
  }

  /** Such a retry exists: a first credit in one currency, applied to a
      deployment in another, is refused when the provider repeats it. */
  lemma CrossCurrencyRetryConflicts(db: Db, n: Notification, id: nat, now: int)
    requires ApplyStatement(db, n, id, now).1.Moved?
    requires db.deployments[id].currency != n.currency.code
    ensures var (db', reply) := ApplyStatement(db, n, id, now);
            Find(db'.ledger, n.reference) == Some(reply.row) && ReplayAnswer(reply.row, n) == Rejected(Conflict)
  {
    Appended(db.ledger, ApplyStatement(db, n, id, now).1.row, id, n.reference);
  }

  // ---------------------------------------------------------- routing cache

  lemma HitApplies(cfg: Config, w: World, accepted: set<Notification>, n: Notification, ref: Ref, f: Faults)
    requires WorldGood(w, accepted) && CallGood(w, accepted, Webhook, n, AtWrite(ref))
    requires IsSuccessful(n.providerStatus) && !HasRow(w.db, n.reference) && Healthy(f)
    ensures Alone(cfg, w, Webhook, n, AtWrite(ref), f).0.db == ApplyStatement(w.db, n, ref.id, f.now).0
    ensures ApplyStatement(w.db, n, ref.id, f.now).1.Moved?
  {
    ApplyStepGood(w, accepted, n, ref, f.now);
    var (db, reply) := ApplyStatement(w.db, n, ref.id, f.now);
    var w1 := w.(db := db);
    assert Step(cfg, w, Webhook, n, AtWrite(ref), f) == (w1, AtPublish(reply.row));
    var (w2, pc2) := Step(cfg, w1, Webhook, n, AtPublish(reply.row), f);
    assert Alone(cfg, w1, Webhook, n, AtPublish(reply.row), f) == (w2, pc2);
  }

  lemma MissOnOpen(cfg: Config, w: World, accepted: set<Notification>, n: Notification, ref: Ref, f: Faults)
    requires WorldGood(w, accepted) && CallGood(w, accepted, Webhook, n, AtWrite(ref))
    requires IsSuccessful(n.providerStatus) && !HasRow(w.db, n.reference) && Healthy(f)
    requires IsOpen(w.db.deployments[ref.id])
    ensures Alone(cfg, w, Webhook, n, AtLookup, f).0.db == ApplyStatement(w.db, n, ref.id, f.now).0
  {
    LookupPrefersOpen(w.db.deployments, n.customer);
    LookupIsFirstInOrder(w.db.deployments, n.customer);
    assert w.db.deployments[ref.id].customer == n.customer;
    var d := GetByCustomer(w.db.deployments, n.customer).value;
    var k :| 0 <= k < |w.db.deployments| && w.db.deployments[k] == d;
    assert k == ref.id;
    MissFollowsTheLookup(cfg, w, accepted, n, d, f);
  }

  lemma MissOnClosed(cfg: Config, w: World, accepted: set<Notification>, n: Notification, ref: Ref, f: Faults)
    requires WorldGood(w, accepted) && CallGood(w, accepted, Webhook, n, AtWrite(ref))
    requires IsSuccessful(n.providerStatus) && !HasRow(w.db, n.reference) && Healthy(f)
    requires !IsOpen(w.db.deployments[ref.id])
    ensures var after := Alone(cfg, w, Webhook, n, AtLookup, f).0.db;
            |after.deployments| == |w.db.deployments| && after.deployments[ref.id] == w.db.deployments[ref.id]
  {
    LookupStepGood(w, accepted, n.customer);
    match GetByCustomer(w.db.deployments, n.customer)
    case Some(d) =>
      if IsOpen(d) { MissFollowsTheLookup(cfg, w, accepted, n, d, f); } else { Unmatches(cfg, w, accepted, n, f); }
    case None => Unmatches(cfg, w, accepted, n, f);
  }

  lemma MissFollowsTheLookup(cfg: Config, w: World, accepted: set<Notification>, n: Notification, d: Deployment,
      f: Faults)
    requires WorldGood(w, accepted) && n in accepted && Routable(n)
    requires IsSuccessful(n.providerStatus) && !HasRow(w.db, n.reference) && Healthy(f)
    requires GetByCustomer(w.db.deployments, n.customer) == Some(d) && IsOpen(d)
    ensures Alone(cfg, w, Webhook, n, AtLookup, f).0.db == ApplyStatement(w.db, n, d.id, f.now).0
  {
    hide WorldGood, ApplyStatement;
    var r := RefOf(d);
    LookupStepGood(w, accepted, n.customer);
    assert Step(cfg, w, Webhook, n, AtLookup, f) == (w, AtFill(r));
    FillGood(w, accepted, Webhook, n, r, f);
    var filled := Fill(w, r, f);
    HitApplies(cfg, filled, accepted, n, r, f);
    assert Alone(cfg, w, Webhook, n, AtFill(r), f) == Alone(cfg, filled, Webhook, n, AtWrite(r), f);
  }

  lemma Unmatches(cfg: Config, w: World, accepted: set<Notification>, n: Notification, f: Faults)
    requires WorldGood(w, accepted) && n in accepted && Routable(n)
    requires !HasRow(w.db, n.reference) && Healthy(f)
    requires LookUp(w, n, f) == AtRecord(Unmatched, None)
    ensures Alone(cfg, w, Webhook, n, AtLookup, f).0.db.deployments == w.db.deployments
  {
    RecordStepGood(w, accepted, n, Unmatched, None);
    var (w', pc') := Step(cfg, w, Webhook, n, AtRecord(Unmatched, None), f);
    assert pc'.Answered?;
    assert Alone(cfg, w, Webhook, n, AtRecord(Unmatched, None), f) == (w', pc');
  }

  /** A cached route and the database send a fresh credit the same way exactly
      while the cached deployment is still open.  After that the cache keeps
      paying into it; the database would not. */
  lemma CachedRouteAgreesIffOpen(cfg: Config, w: World, accepted: set<Notification>, n: Notification, f: Faults)
    requires WorldGood(w, accepted) && CallGood(w, accepted, Webhook, n, AtResolve)
    requires IsSuccessful(n.providerStatus) && !HasRow(w.db, n.reference) && Healthy(f)
    requires n.customer in w.refs
    ensures var id := w.refs[n.customer].id;
            && id < |w.db.deployments|
            && var hit := Alone(cfg, w, Webhook, n, AtResolve, f.(refMiss := false)).0.db;
               var miss := Alone(cfg, w, Webhook, n, AtResolve, f.(refMiss := true)).0.db;
               hit == miss <==> IsOpen(w.db.deployments[id])
  {
    var ref := w.refs[n.customer];
    var h, m := f.(refMiss := false), f.(refMiss := true);
    assert CallGood(w, accepted, Webhook, n, AtWrite(ref));
    HitApplies(cfg, w, accepted, n, ref, h);
    assert Step(cfg, w, Webhook, n, AtResolve, h) == (w, AtWrite(ref));
    assert Alone(cfg, w, Webhook, n, AtResolve, h) == Alone(cfg, w, Webhook, n, AtWrite(ref), h);
    assert Step(cfg, w, Webhook, n, AtResolve, m) == (w, AtLookup);
    assert Alone(cfg, w, Webhook, n, AtResolve, m) == Alone(cfg, w, Webhook, n, AtLookup, m);
    if IsOpen(w.db.deployments[ref.id]) {
      MissOnOpen(cfg, w, accepted, n, ref, m);
    } else {
      MissOnClosed(cfg, w, accepted, n, ref, m);
    }
  }

  /** Paid into a completed deployment, the whole credit is excess. */
  lemma ClosedDeploymentTakesOnlyExcess(db: Db, n: Notification, id: nat, now: int)
    requires Good(db) && ApplyStatement(db, n, id, now).1.Moved? && db.deployments[id].status == Completed
    ensures var row := ApplyStatement(db, n, id, now).1.row; row.applied == 0 && row.excess == n.amount
  {
    assert PositionGood(db, id);
  }

  // -------------------------------------------------------- healthy delivery

  /** No step that could be left waiting for a redelivery. */
  predicate Moving(pc: Pc) { AnswerOf(pc) != Some(Transient) }

  predicate BrokerHealthy(f: Faults) { f.bury.Fine? && !f.ackLost }

  lemma HealthyStep(cfg: Config, w: World, accepted: set<Notification>, origin: Origin, n: Notification, pc: Pc,
      f: Faults)
    requires WorldGood(w, accepted) && CallGood(w, accepted, origin, n, pc) && origin.Worker?
    requires Moving(pc) && !pc.Ended? && Healthy(f) && BrokerHealthy(f)
    ensures var (w', pc') := Step(cfg, w, origin, n, pc, f);
            Moving(pc') && (pc'.Ended? ==> !Pending(w'.stream, origin.id) && SettledOrDead(w'.db, w'.stream, origin.id))
  {
    if pc.AtWrite? && IsSuccessful(n.providerStatus) { ApplyStepGood(w, accepted, n, pc.ref, f.now); }
    if pc.AtRecord? { RecordStepGood(w, accepted, n, pc.outcome, pc.deployment); }
  }

  /** One healthy delivery retires a message for good: acknowledged, and either
      settled by a row for its reference or on the dead stream. */
  lemma HealthyDeliveryRetires(cfg: Config, w: World, accepted: set<Notification>, origin: Origin, n: Notification,
      pc: Pc, f: Faults)
    requires WorldGood(w, accepted) && CallGood(w, accepted, origin, n, pc) && origin.Worker?
    requires Moving(pc) && !pc.Ended? && Healthy(f) && BrokerHealthy(f)
    ensures var (w', pc') := Alone(cfg, w, origin, n, pc, f);
            && pc'.Ended? && Moving(pc')
            && !Pending(w'.stream, origin.id)
            && SettledOrDead(w'.db, w'.stream, origin.id)
    decreases StepsLeft(pc)
  {
    hide WorldGood;
    HealthyStep(cfg, w, accepted, origin, n, pc, f);
    StepsDescend(cfg, w, origin, n, pc, f);
    StepKeepsGood(cfg, w, accepted, origin, n, pc, f);
    var (w', pc') := Step(cfg, w, origin, n, pc, f);
    if !pc'.Ended? { HealthyDeliveryRetires(cfg, w', accepted, origin, n, pc', f); }
  }
}

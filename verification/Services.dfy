/**
  The two domain services, method by method: src/internal/domain/payment/service.go
  and src/internal/domain/deployment/service.go.

  Every method is proved to do exactly what Handling's step machine does with
  nobody else about, so each law about the machine is a law about these methods.
*/
module Services {
  import opened Prelude
  import opened Money
  import opened Text
  import opened Deployments
  import opened Ledger
  import opened Notifications
  import opened Streams
  import opened Handling
  import opened Storage
  import opened Repositories
  import opened Queues

  /** Nowhere to apply this money, as opposed to infrastructure failing. */
  predicate IsRoutingFailure(e: Error) { Code(e) == Some(404) || Code(e) == Some(412) }

  /** No retry could ever produce a different answer. */
  predicate Permanent(e: Error) { Code(e).Some? && 400 <= Code(e).value < 500 }

  datatype PaymentResult = PaymentResult(outcome: Outcome, payment: Option<Row>)

  /** A result as the step machine reports it. */
  function ToAnswer(r: Result<PaymentResult, Error>): Answer {
    match r
    case Ok(result) => Success(result.outcome, result.payment)
    case Err(e) =>
      if !Permanent(e) then Transient
      else if e.ErrReferenceConflict? then Rejected(Conflict)
      else if e.ErrNotFound? then Rejected(NotFound)
      else Rejected(BadRequest)
  }

  class DeploymentService {
    const repository: DeploymentRepository
    const cache: Cache
    const defaults: Defaults

    constructor (repository: DeploymentRepository, cache: Cache, defaults: Defaults)
      ensures this.repository == repository && this.cache == cache && this.defaults == defaults
    {
      this.repository, this.cache, this.defaults := repository, cache, defaults;
    }

    /** Registers a deployment and caches its route: refused for a bad request,
        or because the customer already has an open one. */
    method Create(input: Registration, f: Faults) returns (r: Result<Deployment, Error>)
      modifies repository.db, cache
      ensures (repository.db.View(), cache.refs)
                == Registered(old(repository.db.View()), old(cache.refs), defaults, input, f)
      ensures r.Ok? ==>
                && !HasOpen(old(repository.db.deployments), Trim(input.customer))
                && repository.db.deployments == old(repository.db.deployments) + [r.value]
                && r.value.customer == Trim(input.customer) && IsOpen(r.value) && r.value.amountPaid == 0
      ensures r.Ok? ==> AsAsked(r.value, input, defaults, f.now)
      ensures r.Err? && Permanent(r.error) ==>
                && repository.db.View() == old(repository.db.View()) && cache.refs == old(cache.refs)
                && (Admit(input, defaults, f.now).Err? || HasOpen(old(repository.db.deployments), Trim(input.customer)))
      ensures cache.results == old(cache.results)
    {
      hide AsAsked, Trim;
      RegisteredAsAsked(repository.db.View(), input, defaults, f.now);
      var customer := Trim(input.customer);
      if customer == "" { return Err(ErrInvalidCustomerID); }
      var currency := if input.currency == "" then defaults.currency else input.currency;
      var principal := if input.principal == 0 then defaults.principal else input.principal;
      var term := if input.term == 0 then defaults.term else input.term;
      if principal <= 0 { return Err(ErrInvalidPrincipal); }
      if term < 0 || term > MAX_TERM_WEEKS { return Err(ErrInvalidTerm); }
      var start := if input.startDate.None? then f.now else input.startDate.value;
      var created := repository.Create(CreateInput(customer, currency, principal, term, start - start % DAY), f);
      if created.Ok? { cache.SetRef(RefOf(created.value), f); }
      return created;
    }

    /** Where a customer's money goes: the cached route, else the customer's open
        deployment, whose route is then cached. */
    method Resolve(customer: string, f: Faults) returns (r: Result<Ref, Error>)
      modifies cache
      ensures (cache.refs, r) == Route(repository.db.View(), old(cache.refs), customer, f)
      ensures r == Err(ErrInvalidCustomerID) <==> Trim(customer) == ""
      ensures r.Err? ==> cache.refs == old(cache.refs)
      ensures Trim(customer) != "" && !f.refMiss && Trim(customer) in old(cache.refs) ==>
                r == Ok(old(cache.refs)[Trim(customer)]) && cache.refs == old(cache.refs)
      ensures Trim(customer) != "" && (f.refMiss || Trim(customer) !in old(cache.refs)) ==>
                && (r == Err(Infrastructure) <==> f.lookupFails)
                && (!f.lookupFails ==> (r.Ok? <==> HasOpen(repository.db.deployments, Trim(customer))))
                && (r.Ok? ==>
                      exists i :: 0 <= i < |repository.db.deployments|
                        && var d := repository.db.deployments[i];
                           && d.customer == Trim(customer) && d.status in {Active, Delinquent}
                           && r.value == Ref(d.id, d.customer, d.currency, d.principal, d.term, d.startDate))
      ensures cache.results == old(cache.results)
    {
      var id := Trim(customer);
      if id == "" { return Err(ErrInvalidCustomerID); }
      var cached := cache.GetRef(id, f);
      if cached.Some? { return Ok(cached.value); }
      var found := repository.GetByCustomerID(id, f);
      if found.Err? { return Err(found.error); }
      if !IsOpen(found.value) { return Err(ErrNoOpenDeployment); }
      var i :| 0 <= i < |repository.db.deployments| && repository.db.deployments[i] == found.value;
      cache.SetRef(RefOf(found.value), f);
      return Ok(RefOf(found.value));
    }
  }

  /** The registration's own terms, or the programme's exactly where it leaves them
      out; its start date or today, cut to the day; nothing paid yet. */
  predicate AsAsked(d: Deployment, input: Registration, defaults: Defaults, now: int) {
    && d.customer == Trim(input.customer) != ""
    && d.principal == (if input.principal != 0 then input.principal else defaults.principal) > 0
    && d.term == (if input.term != 0 then input.term else defaults.term) && 1 <= d.term <= 520
    && d.currency == (if input.currency != "" then input.currency else defaults.currency)
    && d.createdAt == now && d.startDate % 86400 == 0
    && (input.startDate.Some? ==> 0 <= input.startDate.value - d.startDate < 86400)
    && (input.startDate.None? ==> 0 <= now - d.startDate < 86400)
    && d.status == Active && d.amountPaid == 0 && d.paymentCount == 0
    && d.lastPaymentAt == None && d.completedAt == None
  }

  lemma RegisteredAsAsked(db: Db, input: Registration, defaults: Defaults, now: int)
    ensures Admit(input, defaults, now).Ok? ==>
              var reply := CreateStatement(db, Admit(input, defaults, now).value, now).1;
              reply.Created? ==> AsAsked(reply.deployment, input, defaults, now)
  {
    hide Trim;
    AdmittedAsAsked(input, defaults, now);
  }

  /** What Create does to the deployments and the cached routes. */
  function Registered(db: Db, refs: map<string, Ref>, defaults: Defaults, r: Registration, f: Faults): (Db,
      map<string, Ref>) {
    match Admit(r, defaults, f.now)
    case Err(_) => (db, refs)
    case Ok(input) =>
      var (db', reply) := CreateStatement(db, input, f.now);
      if f.write.Lost? then (db, refs)
      else if reply.Created? && f.write.Fine? && !f.refSetLost then
        (db', refs[input.customer := RefOf(reply.deployment)])
      else (db', refs)
  }

  /** What Resolve comes to. */
  function Route(db: Db, refs: map<string, Ref>, customer: string, f: Faults): (map<string, Ref>, Result<Ref, Error>) {
    var id := Trim(customer);
    if id == "" then (refs, Err(ErrInvalidCustomerID))
    else if !f.refMiss && id in refs then (refs, Ok(refs[id]))
    else if f.lookupFails then (refs, Err(Infrastructure))
    else
      match GetByCustomer(db.deployments, id)
      case None => (refs, Err(ErrNotFound))
      case Some(d) =>
        if !IsOpen(d) then (refs, Err(ErrNoOpenDeployment))
        else (if f.refSetLost then refs else refs[d.customer := RefOf(d)], Ok(RefOf(d)))
  }

  /** Where Process goes on from a route. */
  function Routed(r: Result<Ref, Error>): Pc {
    match r
    case Ok(ref) => AtWrite(ref)
    case Err(e) => if IsRoutingFailure(e) then AtRecord(Unmatched, None) else Answered(ToAnswer(Err(e)))
  }

  lemma OneStep(cfg: Config, w: World, origin: Origin, n: Notification, pc: Pc, f: Faults)
    requires !Over(origin, pc)
    ensures var (w', pc') := Step(cfg, w, origin, n, pc, f);
            Alone(cfg, w, origin, n, pc, f) == Alone(cfg, w', origin, n, pc', f)
  {
  }

  lemma RouteIsTheSteps(cfg: Config, w: World, n: Notification, f: Faults)
    ensures var (refs, r) := Route(w.db, w.refs, n.customer, f);
            Alone(cfg, w, Webhook, n, AtResolve, f) == Alone(cfg, w.(refs := refs), Webhook, n, Routed(r), f)
  {
    hide LookUp, GetByCustomer, Trim;
    OneStep(cfg, w, Webhook, n, AtResolve, f);
    if TryRefCache(w, n, f) == AtLookup { LookupIsTheSteps(cfg, w, n, f); }
  }

  lemma LookupIsTheSteps(cfg: Config, w: World, n: Notification, f: Faults)
    requires TryRefCache(w, n, f) == AtLookup
    ensures var (refs, r) := Route(w.db, w.refs, n.customer, f);
            Alone(cfg, w, Webhook, n, AtLookup, f) == Alone(cfg, w.(refs := refs), Webhook, n, Routed(r), f)
  {
    hide GetByCustomer, Trim;
    OneStep(cfg, w, Webhook, n, AtLookup, f);
    if LookUp(w, n, f).AtFill? { OneStep(cfg, w, Webhook, n, LookUp(w, n, f), f); }
  }

  class PaymentService {
    const repository: PaymentRepository
    const deployments: DeploymentService
    const cache: Cache
    const queue: Queue
    const cfg: Config
    const currency: Currency

    /** One database and one cache behind both services. */
    predicate Wired() {
      deployments.repository.db == repository.db && deployments.cache == cache && queue.maxLen == cfg.maxLen
    }

    constructor (repository: PaymentRepository, deployments: DeploymentService, cache: Cache, queue: Queue,
        cfg: Config, currency: Currency)
      requires deployments.repository.db == repository.db && deployments.cache == cache && queue.maxLen == cfg.maxLen
      ensures Wired() && this.repository == repository && this.cache == cache && this.queue == queue
      ensures this.cfg == cfg && this.currency == currency
    {
      this.repository, this.deployments, this.cache := repository, deployments, cache;
      this.queue, this.cfg, this.currency := queue, cfg, currency;
    }

    function World(): World
      reads repository.db, cache, queue.broker
    {
      Snapshot(repository.db, cache, queue.broker)
    }

    /** The webhook's entry point. */
    method Accept(payload: Payload, f: Faults) returns (r: Result<PaymentResult, Error>)
      requires Wired()
      modifies repository.db, cache, queue.broker
      ensures match Validate(payload, currency)
              case Err(fields) => r == Err(ErrInvalidNotification(fields)) && World() == old(World())
              case Ok(n) =>
                && (World(), Answered(ToAnswer(r))) == Alone(cfg, old(World()), Webhook, n, AtResultCache, f)
                && WroteAtMostOnce(old(repository.db.View()), repository.db.View(), n)
    {
      var validated := Validate(payload, currency);
      if validated.Err? { return Err(ErrInvalidNotification(validated.error)); }
      r := Intake(validated.value, f);
    }

    /** Accept, once the notification is known to be well formed. */
    method Intake(n: Notification, f: Faults) returns (r: Result<PaymentResult, Error>)
      requires Wired()
      modifies repository.db, cache, queue.broker
      ensures (World(), Answered(ToAnswer(r))) == Alone(cfg, old(World()), Webhook, n, AtResultCache, f)
      ensures WroteAtMostOnce(old(repository.db.View()), repository.db.View(), n)
    {
      ghost var w := World();
      OneStep(cfg, w, Webhook, n, AtResultCache, f);

      var cached := cache.GetResult(n.reference, f);
      if cached.Some? {
        if !SameRequest(cached.value, n) { return Err(ErrReferenceConflict); }
        return Ok(PaymentResult(Duplicate, cached));
      }
      if !cfg.queued {
        r := Process(n, f);
        return;
      }
      OneStep(cfg, w, Webhook, n, AtEnqueue, f);
      var sent := queue.Enqueue(n, f);
      if !sent {
        r := Process(n, f);
        return;
      }
      return Ok(PaymentResult(Queued, Some(Echo(n))));
    }

    /** Moves the money. */
    method Process(n: Notification, f: Faults) returns (r: Result<PaymentResult, Error>)
      requires Wired()
      modifies repository.db, cache
      ensures (World(), Answered(ToAnswer(r))) == Alone(cfg, old(World()), Webhook, n, AtResolve, f)
      ensures WroteAtMostOnce(old(repository.db.View()), repository.db.View(), n)
    {
      RouteIsTheSteps(cfg, World(), n, f);
      var route := deployments.Resolve(n.customer, f);
      if route.Err? {
        if IsRoutingFailure(route.error) {
          r := Record(n, Unmatched, None, f);
          return;
        }
        return Err(route.error);
      }
      r := Settle(n, route.value, f);
    }

    /** Process, once the credit has a deployment to go to. */
    method Settle(n: Notification, ref: Ref, f: Faults) returns (r: Result<PaymentResult, Error>)
      requires Wired()
      modifies repository.db, cache
      ensures (World(), Answered(ToAnswer(r))) == Alone(cfg, old(World()), Webhook, n, AtWrite(ref), f)
      ensures WroteAtMostOnce(old(repository.db.View()), repository.db.View(), n)
    {
      if IsSuccessful(n.providerStatus) {
        r := Apply(n, ref, f);
        return;
      }
      OneStep(cfg, World(), Webhook, n, AtWrite(ref), f);
      r := Record(n, Ignored, Some(ref.id), f);
    }

    method Apply(n: Notification, ref: Ref, f: Faults) returns (r: Result<PaymentResult, Error>)
      requires Wired() && IsSuccessful(n.providerStatus)
      modifies repository.db, cache
      ensures (World(), Answered(ToAnswer(r))) == Alone(cfg, old(World()), Webhook, n, AtWrite(ref), f)
      ensures WroteAtMostOnce(old(repository.db.View()), repository.db.View(), n)
    {
      hide ApplySpec, Credited, ApplyStatement;
      ApplyIsTheSteps(cfg, World(), n, ref, f);
      var applied := repository.Apply(n, ref.id, f);
      if applied.Err? { return Err(applied.error); }
      var result := applied.value;
      if result.duplicate {
        if !SameRequest(result.payment, n) { return Err(ErrReferenceConflict); }
        return Ok(PaymentResult(Duplicate, Some(result.payment)));
      }
      OneStep(cfg, World(), Webhook, n, AtPublish(result.payment), f);
      cache.SetResult(n.reference, result.payment, f);
      return Ok(PaymentResult(Applied, Some(result.payment)));
    }

    /** Persists a notification that must not move a balance. */
    method Record(n: Notification, outcome: Outcome, deployment: Option<nat>, f: Faults)
        returns (r: Result<PaymentResult, Error>)
      modifies repository.db
      ensures (World(), Answered(ToAnswer(r))) == Alone(cfg, old(World()), Webhook, n, AtRecord(outcome, deployment), f)
      ensures WroteAtMostOnce(old(repository.db.View()), repository.db.View(), n)
    {
      RecordIsTheSteps(cfg, World(), n, outcome, deployment, f);
      var recorded := repository.Record(n, outcome, deployment, f);
      if recorded.Err? { return Err(recorded.error); }
      var (stored, duplicate) := recorded.value;
      if duplicate {
        if stored.Some? && !SameRequest(stored.value, n) { return Err(ErrReferenceConflict); }
        return Ok(PaymentResult(Duplicate, stored));
      }
      return Ok(PaymentResult(outcome, stored));
    }
  }

  /** Where a settled credit goes on from what the repository said. */
  function AfterApply(n: Notification, r: Result<ApplyResult, Error>): Pc {
    match r
    case Err(e) => Answered(ToAnswer(Err(e)))
    case Ok(a) => if a.duplicate then Answered(ReplayAnswer(a.payment, n)) else AtPublish(a.payment)
  }

  lemma ApplyIsTheSteps(cfg: Config, w: World, n: Notification, ref: Ref, f: Faults)
    requires IsSuccessful(n.providerStatus)
    ensures var db := if f.write.Lost? then w.db else ApplyStatement(w.db, n, ref.id, f.now).0;
            Alone(cfg, w, Webhook, n, AtWrite(ref), f)
              == Alone(cfg, w.(db := db), Webhook, n, AfterApply(n, ApplySpec(w.db, n, ref.id, f)), f)
  {
    hide Find, Advance, SqlSplit, Trim;
    OneStep(cfg, w, Webhook, n, AtWrite(ref), f);
    if Write(w, n, ref, f).1 == AtReplay(ref.id) { ReplayIsTheSteps(cfg, w, n, ref.id, f); }
  }

  /** The answer, once the repository has filed the notification or not. */
  function AfterRecord(n: Notification, outcome: Outcome, r: Result<(Option<Row>, bool), Error>): Answer {
    match r
    case Err(e) => ToAnswer(Err(e))
    case Ok((stored, duplicate)) =>
      if !duplicate then Success(outcome, stored)
      else if stored.None? then Success(Duplicate, None)
      else ReplayAnswer(stored.value, n)
  }

  lemma RecordIsTheSteps(cfg: Config, w: World, n: Notification, outcome: Outcome, deployment: Option<nat>, f: Faults)
    ensures var db := if f.write.Lost? then w.db else RecordStatement(w.db, n, outcome, deployment).0;
            Alone(cfg, w, Webhook, n, AtRecord(outcome, deployment), f)
              == (w.(db := db), Answered(AfterRecord(n, outcome, RecordSpec(w.db, n, outcome, deployment, f))))
  {
    hide Find;
    OneStep(cfg, w, Webhook, n, AtRecord(outcome, deployment), f);
    if File(w, n, outcome, deployment, f).1 == AtReplayRecord { OneStep(cfg, w, Webhook, n, AtReplayRecord, f); }
  }

  lemma ReplayIsTheSteps(cfg: Config, w: World, n: Notification, id: nat, f: Faults)
    ensures Alone(cfg, w, Webhook, n, AtReplay(id), f)
              == Alone(cfg, w, Webhook, n, AfterApply(n, ReplaySpec(w.db, n, id, f)), f)
  {
    OneStep(cfg, w, Webhook, n, AtReplay(id), f);
    var pc := ReadBack(w, n, id, f);
    if pc.AtPosition? { OneStep(cfg, w, Webhook, n, pc, f); }
  }
}

/**
  One call of Accept, or one worker's handling of one message, as the sequence
  of reads and writes it makes on the shared state:
  src/internal/domain/payment/service.go, src/internal/domain/deployment/service.go
  and `handle` of src/internal/infrastructure/queue/worker.go.

  Between two steps of a call anything may happen; module WholeSystem lets it.
  With nobody else about a call is `Alone`, which is what the methods of
  PaymentService and Worker are proved to do.
*/
module Handling {
  import opened Prelude
  import opened Money
  import opened Text
  import opened Deployments
  import opened Ledger
  import opened Notifications
  import opened Streams

  /** The immutable routing subset of a deployment. */
  datatype Ref = Ref(id: nat, customer: string, currency: string, principal: int, term: int, startDate: int)

  function RefOf(d: Deployment): Ref {
    Ref(d.id, d.customer, d.currency, d.principal, d.term, d.startDate)
  }

  /** Everything that outlives a call. */
  datatype World = World(db: Db, refs: map<string, Ref>, results: map<string, Row>, stream: Stream)

  datatype Config = Config(queued: bool, maxAttempts: nat, maxLen: nat)

  datatype Rejection = Conflict | NotFound | BadRequest | Undecodable

  /** What a call comes to: a result, a 4xx error no retry can change, or an
      infrastructure error. */
  datatype Answer =
    | Success(outcome: Outcome, payment: Option<Row>)
    | Rejected(reason: Rejection)
    | Transient

  datatype Origin = Webhook | Worker(id: nat, attempt: nat)

  /** A write can work, fail, or work while its reply is lost. */
  datatype Io = Fine | Lost | ReplyLost

  /** What the environment does to one call. */
  datatype Faults = Faults(
    now: int,
    resultMiss: bool, refMiss: bool,
    refSetLost: bool, resultSetLost: bool,
    lookupFails: bool, replayFails: bool, positionFails: bool,
    write: Io,
    enqueue: Io, cut: nat,
    undecodable: bool, bury: Io, ackLost: bool)

  datatype Pc =
    | AtResultCache
    | AtEnqueue
    | AtDecode
    | AtResolve
    | AtLookup
    | AtFill(ref: Ref)
    | AtWrite(ref: Ref)
    | AtRecord(outcome: Outcome, deployment: Option<nat>)
    | AtReplay(id: nat)
    | AtPosition(id: nat, stored: Row)
    | AtReplayRecord
    | AtPublish(row: Row)
    | Answered(answer: Answer)
    | AtDeadLetter(answer: Answer)
    | AtAck(answer: Answer)
    | Ended(answer: Answer)

  /** The conflict check: a reference identifies one request. */
  predicate SameRequest(stored: Row, n: Notification) {
    stored.customer == n.customer && stored.amount == n.amount && stored.currency == n.currency.code
  }

  /** What every path answers once the reference has a row. */
  function ReplayAnswer(stored: Row, n: Notification): Answer {
    if SameRequest(stored, n) then Success(Duplicate, Some(stored)) else Rejected(Conflict)
  }

  /** pendingPayment: the accepted credit echoed back. */
  function Echo(n: Notification): Row { FiledRow(n, Queued, None) }

  // ------------------------------------------------------------- single steps

  /** Accept answers a settled reference from the result cache. */
  function TryResultCache(cfg: Config, w: World, n: Notification, f: Faults): Pc {
    if !f.resultMiss && n.reference in w.results then Answered(ReplayAnswer(w.results[n.reference], n))
    else if cfg.queued then AtEnqueue
    else AtResolve
  }

  function Send(cfg: Config, w: World, n: Notification, f: Faults): World {
    w.(stream := Append(w.stream, n, cfg.maxLen, f.cut))
  }

  /** A credit is never refused because a broker is down: it is applied inline,
      even when the entry did reach the stream. */
  function TryEnqueue(cfg: Config, w: World, n: Notification, f: Faults): (World, Pc) {
    match f.enqueue
    case Fine => (Send(cfg, w, n, f), Answered(Success(Queued, Some(Echo(n)))))
    case Lost => (w, AtResolve)
    case ReplyLost => (Send(cfg, w, n, f), AtResolve)
  }

  function TryRefCache(w: World, n: Notification, f: Faults): Pc {
    var customer := Trim(n.customer);
    if customer == "" then Answered(Rejected(BadRequest))
    else if !f.refMiss && customer in w.refs then AtWrite(w.refs[customer])
    else AtLookup
  }

  /** No deployment, or none still open: nowhere to apply this money. */
  function LookUp(w: World, n: Notification, f: Faults): Pc {
    if f.lookupFails then Answered(Transient)
    else
      match GetByCustomer(w.db.deployments, Trim(n.customer))
      case None => AtRecord(Unmatched, None)
      case Some(d) => if IsOpen(d) then AtFill(RefOf(d)) else AtRecord(Unmatched, None)
  }

  function Fill(w: World, ref: Ref, f: Faults): World {
    if f.refSetLost then w else w.(refs := w.refs[ref.customer := ref])
  }

  /** Funds that have not settled are recorded, never applied. */
  function Write(w: World, n: Notification, ref: Ref, f: Faults): (World, Pc) {
    if !IsSuccessful(n.providerStatus) then (w, AtRecord(Ignored, Some(ref.id)))
    else
      var (db, reply) := ApplyStatement(w.db, n, ref.id, f.now);
      match f.write
      case Lost => (w, Answered(Transient))
      case ReplyLost => (w.(db := db), Answered(Transient))
      case Fine =>
        if reply.Moved? then (w.(db := db), AtPublish(reply.row))
        else if reply.Skipped? then (w, AtReplay(ref.id))
        else (w, Answered(Transient))
  }

  function File(w: World, n: Notification, outcome: Outcome, deployment: Option<nat>, f: Faults): (World, Pc) {
    var (db, reply) := RecordStatement(w.db, n, outcome, deployment);
    match f.write
    case Lost => (w, Answered(Transient))
    case ReplyLost => (w.(db := db), Answered(Transient))
    case Fine =>
      if reply.Filed? then (w.(db := db), Answered(Success(outcome, Some(reply.row))))
      else if reply.Skipped? then (w, AtReplayRecord)
      else (w, Answered(Transient))
  }

  function ReadBack(w: World, n: Notification, id: nat, f: Faults): Pc {
    if f.replayFails then Answered(Transient)
    else
      match Find(w.db.ledger, n.reference)
      case None => Answered(Rejected(NotFound))
      case Some(stored) => AtPosition(id, stored)
  }

  function ReadPosition(w: World, n: Notification, id: nat, stored: Row, f: Faults): Pc {
    if f.positionFails then Answered(Transient)
    else if id >= |w.db.deployments| then Answered(Rejected(NotFound))
    else Answered(ReplayAnswer(stored, n))
  }

  function ReadBackRecord(w: World, n: Notification, f: Faults): Pc {
    if f.replayFails then Answered(Transient)
    else
      match Find(w.db.ledger, n.reference)
      case None => Answered(Success(Duplicate, None))
      case Some(stored) => Answered(ReplayAnswer(stored, n))
  }

  function Publish(w: World, n: Notification, row: Row, f: Faults): World {
    if f.resultSetLost then w else w.(results := w.results[n.reference := row])
  }

  function DeadLetter(w: World, id: nat, answer: Answer, f: Faults): (World, Pc) {
    var buried := w.(stream := Bury(w.stream, id));
    match f.bury
    case Fine => (buried, AtAck(answer))
    case Lost => (w, Ended(answer))
    case ReplyLost => (buried, Ended(answer))
  }

  function Acknowledge(w: World, id: nat, f: Faults): World {
    if f.ackLost then w else w.(stream := Ack(w.stream, id))
  }

  function Step(cfg: Config, w: World, origin: Origin, n: Notification, pc: Pc, f: Faults): (World, Pc) {
    match pc
    case AtResultCache => (w, TryResultCache(cfg, w, n, f))
    case AtEnqueue => TryEnqueue(cfg, w, n, f)
    case AtDecode => (w, if f.undecodable then AtDeadLetter(Rejected(Undecodable)) else AtResolve)
    case AtResolve => (w, TryRefCache(w, n, f))
    case AtLookup => (w, LookUp(w, n, f))
    case AtFill(ref) => (Fill(w, ref, f), AtWrite(ref))
    case AtWrite(ref) => Write(w, n, ref, f)
    case AtRecord(outcome, deployment) => File(w, n, outcome, deployment, f)
    case AtReplay(id) => (w, ReadBack(w, n, id, f))
    case AtPosition(id, stored) => (w, ReadPosition(w, n, id, stored, f))
    case AtReplayRecord => (w, ReadBackRecord(w, n, f))
    case AtPublish(row) => (Publish(w, n, row, f), Answered(Success(Applied, Some(row))))
    case Answered(answer) => (w, Dispose(cfg, origin, answer))
    case AtDeadLetter(answer) => if origin.Webhook? then (w, pc) else DeadLetter(w, origin.id, answer, f)
    case AtAck(answer) => if origin.Webhook? then (w, pc) else (Acknowledge(w, origin.id, f), Ended(answer))
    case Ended(_) => (w, pc)
  }

  /** What `handle` does with Process's answer. */
  function Dispose(cfg: Config, origin: Origin, answer: Answer): Pc {
    match origin
    case Webhook => Answered(answer)
    case Worker(_, attempt) =>
      match answer
      case Success(_, _) => AtAck(answer)
      case Rejected(_) => AtDeadLetter(answer)
      case Transient => if attempt >= cfg.maxAttempts then AtDeadLetter(answer) else Ended(answer)
  }

  /** The call has nothing left to do. */
  predicate Over(origin: Origin, pc: Pc) {
    pc.Ended? || (origin.Webhook? && (pc.Answered? || pc.AtDeadLetter? || pc.AtAck?))
  }

  function StepsLeft(pc: Pc): nat {
    match pc
    case AtResultCache => 13
    case AtEnqueue => 12
    case AtDecode => 12
    case AtResolve => 11
    case AtLookup => 10
    case AtFill(_) => 9
    case AtWrite(_) => 8
    case AtRecord(_, _) => 7
    case AtReplay(_) => 6
    case AtPosition(_, _) => 5
    case AtReplayRecord => 5
    case AtPublish(_) => 5
    case Answered(_) => 4
    case AtDeadLetter(_) => 3
    case AtAck(_) => 2
    case Ended(_) => 1
  }

  /** Every call ends: each step takes it strictly closer. */
  lemma StepsDescend(cfg: Config, w: World, origin: Origin, n: Notification, pc: Pc, f: Faults)
    requires !Over(origin, pc)
    ensures StepsLeft(Step(cfg, w, origin, n, pc, f).1) < StepsLeft(pc)
  {
  }

  /** The whole call with nobody else about. */
  function Alone(cfg: Config, w: World, origin: Origin, n: Notification, pc: Pc, f: Faults): (r: (World, Pc))
    ensures Over(origin, r.1)
    decreases StepsLeft(pc)
  {
    if Over(origin, pc) then (w, pc)
    else
      StepsDescend(cfg, w, origin, n, pc, f);
      var (w', pc') := Step(cfg, w, origin, n, pc, f);
      Alone(cfg, w', origin, n, pc', f)
  }

  function AnswerOf(pc: Pc): Option<Answer> {
    match pc
    case Answered(answer) => Some(answer)
    case AtDeadLetter(answer) => Some(answer)
    case AtAck(answer) => Some(answer)
    case Ended(answer) => Some(answer)
    case _ => None
  }

  /** This call is the one that stored its reference's row, and knows it. */
  predicate Won(pc: Pc) {
    pc.AtPublish?
    || (AnswerOf(pc).Some? && AnswerOf(pc).value.Success?
        && AnswerOf(pc).value.outcome in {Applied, Unmatched, Ignored})
  }

  // ---------------------------------------------------------------- invariant

  ghost predicate RefGood(db: Db, ref: Ref) {
    ref.id < |db.deployments| && RefOf(db.deployments[ref.id]) == ref
  }

  /** The row is what the notification says, filed or applied. */
  predicate RowFrom(row: Row, n: Notification) {
    && row.reference == n.reference && row.customer == n.customer && row.amount == n.amount
    && row.providerStatus == n.providerStatus && row.date == n.date
    && (if row.outcome == Applied then IsSuccessful(n.providerStatus) else row.currency == n.currency.code)
  }

  ghost predicate Stored(db: Db, row: Row, reference: string) { Find(db.ledger, reference) == Some(row) }

  predicate HasRow(db: Db, reference: string) { Find(db.ledger, reference).Some? }

  /** The applied row's customer owns the deployment it was applied to. */
  ghost predicate RowRouted(db: Db, row: Row) {
    row.outcome == Applied ==>
      row.deployment.Some? && row.deployment.value < |db.deployments|
      && db.deployments[row.deployment.value].customer == row.customer
  }

  ghost predicate RowAccepted(accepted: set<Notification>, row: Row) {
    exists n :: n in accepted && RowFrom(row, n)
  }

  /** Every stored row is an accepted notification's, applied only to its own
      customer's deployment. */
  ghost predicate TablesGood(db: Db, accepted: set<Notification>) {
    && Good(db)
    && forall i :: 0 <= i < |db.ledger| ==> RowAccepted(accepted, db.ledger[i]) && RowRouted(db, db.ledger[i])
  }

  /** Cached routes agree with the immutable part of their deployment, cached
      results with the immutable ledger. */
  ghost predicate RefsGood(db: Db, refs: map<string, Ref>) {
    forall c :: c in refs ==> refs[c].customer == c && RefGood(db, refs[c])
  }

  ghost predicate ResultsGood(db: Db, results: map<string, Row>) {
    forall r :: r in results ==> results[r].outcome == Applied && Stored(db, results[r], r)
  }

  ghost predicate EntriesGood(s: Stream, accepted: set<Notification>) {
    forall i :: 0 <= i < |s.entries| ==> s.entries[i] in accepted
  }

  /** Where an entry can be: not yet delivered, pending, trimmed or
      acknowledged. */
  ghost predicate PlacesGood(s: Stream) {
    && s.first <= |s.entries|
    && (forall id :: id in s.dead ==> id < |s.entries|)
    && (s.group.Some? ==>
          var g := s.group.value;
          && g.delivered <= |s.entries|
          && (forall id :: id in g.pending ==> id < g.delivered)
          && (forall id :: id in g.acked ==> id < g.delivered)
          && (forall id: nat :: id < g.delivered ==> id < s.first || id in g.pending || id in g.acked))
  }

  /** Acknowledged only once settled or on the dead stream. */
  ghost predicate AcksGood(db: Db, s: Stream) {
    forall id: nat :: Acked(s, id) ==> SettledOrDead(db, s, id)
  }

  ghost predicate SettledOrDead(db: Db, s: Stream, id: nat) {
    id < |s.entries| && (HasRow(db, s.entries[id].reference) || id in s.dead)
  }

  /** The part of Proper that handling relies on. */
  predicate Routable(n: Notification) { n.amount > 0 && n.customer != "" && Trim(n.customer) == n.customer }

  ghost predicate WorldGood(w: World, accepted: set<Notification>) {
    && TablesGood(w.db, accepted)
    && RefsGood(w.db, w.refs)
    && ResultsGood(w.db, w.results)
    && EntriesGood(w.stream, accepted)
    && PlacesGood(w.stream)
    && AcksGood(w.db, w.stream)
  }

  ghost predicate AnswerGood(w: World, origin: Origin, n: Notification, answer: Answer) {
    match answer
    case Transient => true
    case Rejected(Undecodable) => origin.Worker?
    case Rejected(Conflict) => HasRow(w.db, n.reference) && !SameRequest(Find(w.db.ledger, n.reference).value, n)
    case Rejected(_) => false
    case Success(Queued, payment) => origin.Webhook? && payment == Some(Echo(n)) && n in w.stream.entries
    case Success(Duplicate, payment) =>
      payment.Some? && Stored(w.db, payment.value, n.reference) && SameRequest(payment.value, n)
    case Success(outcome, payment) =>
      payment.Some? && Stored(w.db, payment.value, n.reference)
      && payment.value.outcome == outcome && RowFrom(payment.value, n)
  }

  ghost predicate CallGood(w: World, accepted: set<Notification>, origin: Origin, n: Notification, pc: Pc) {
    && n in accepted && Routable(n)
    && (origin.Worker? ==> origin.id < |w.stream.entries| && w.stream.entries[origin.id] == n)
    && match pc
       case AtResultCache => origin.Webhook?
       case AtEnqueue => origin.Webhook?
       case AtDecode => origin.Worker?
       case AtFill(ref) => RefGood(w.db, ref) && ref.customer == n.customer
       case AtWrite(ref) => RefGood(w.db, ref) && ref.customer == n.customer
       case AtRecord(outcome, deployment) =>
         outcome in {Unmatched, Ignored} && (deployment.Some? ==> deployment.value < |w.db.deployments|)
       case AtReplay(id) => id < |w.db.deployments| && HasRow(w.db, n.reference)
       case AtPosition(id, stored) => id < |w.db.deployments| && Stored(w.db, stored, n.reference)
       case AtReplayRecord => HasRow(w.db, n.reference)
       case AtPublish(row) => Stored(w.db, row, n.reference) && row.outcome == Applied && RowFrom(row, n)
       case Answered(answer) => AnswerGood(w, origin, n, answer)
       case AtDeadLetter(answer) => origin.Worker? && AnswerGood(w, origin, n, answer)
       case AtAck(answer) =>
         origin.Worker? && AnswerGood(w, origin, n, answer) && SettledOrDead(w.db, w.stream, origin.id)
       case Ended(answer) => origin.Worker? && AnswerGood(w, origin, n, answer)
       case _ => true
  }

  /** Nothing recorded is ever taken back. */
  ghost predicate Grows(w: World, w': World) {
    Extends(w.db, w'.db) && w.stream.entries <= w'.stream.entries && w.stream.dead <= w'.stream.dead
  }

  lemma GrowsTransitive(a: World, b: World, c: World)
    requires Grows(a, b) && Grows(b, c)
    ensures Grows(a, c)
  {
    ExtendsTransitive(a.db, b.db, c.db);
  }

  lemma RefsStayGood(db: Db, db': Db, ref: Ref)
    requires Extends(db, db') && RefGood(db, ref)
    ensures RefGood(db', ref)
  {
    assert Ages(db.deployments[ref.id], db'.deployments[ref.id]);
  }

  lemma RowsStayRouted(db: Db, db': Db, row: Row)
    requires Extends(db, db') && RowRouted(db, row)
    ensures RowRouted(db', row)
  {
    if row.outcome == Applied {
      assert Ages(db.deployments[row.deployment.value], db'.deployments[row.deployment.value]);
    }
  }

  lemma SettledOrDeadStays(w: World, w': World, id: nat)
    requires Grows(w, w') && Good(w'.db) && SettledOrDead(w.db, w.stream, id)
    ensures SettledOrDead(w'.db, w'.stream, id)
  {
    var reference := w.stream.entries[id].reference;
    assert w'.stream.entries[id] == w.stream.entries[id];
    if HasRow(w.db, reference) { RowsAreForever(w.db, w'.db, reference); }
  }

  /** What a call knows stays true whatever the others do. */
  lemma CallsStayGood(w: World, w': World, accepted: set<Notification>, accepted': set<Notification>, origin: Origin,
      n: Notification, pc: Pc)
    requires Grows(w, w') && Good(w'.db) && accepted <= accepted'
    requires CallGood(w, accepted, origin, n, pc)
    ensures CallGood(w', accepted', origin, n, pc)
  {
    if HasRow(w.db, n.reference) { RowsAreForever(w.db, w'.db, n.reference); }
    match pc
    case AtFill(ref) => RefsStayGood(w.db, w'.db, ref);
    case AtWrite(ref) => RefsStayGood(w.db, w'.db, ref);
    case AtAck(_) => SettledOrDeadStays(w, w', origin.id);
    case _ =>
  }

  lemma OldRowsStay(db: Db, db': Db, accepted: set<Notification>)
    requires TablesGood(db, accepted) && Good(db') && Extends(db, db')
    requires forall i :: |db.ledger| <= i < |db'.ledger| ==>
               RowAccepted(accepted, db'.ledger[i]) && RowRouted(db', db'.ledger[i])
    ensures TablesGood(db', accepted)
  {
    forall i | 0 <= i < |db'.ledger| ensures RowAccepted(accepted, db'.ledger[i]) && RowRouted(db', db'.ledger[i]) {
      if i < |db.ledger| {
        assert db'.ledger[i] == db.ledger[i];
        RowsStayRouted(db, db', db.ledger[i]);
      }
    }
  }

  /** The database grew by one statement: the rest of the world still agrees
      with it. */
  lemma WorldFollowsDb(w: World, accepted: set<Notification>, db: Db)
    requires WorldGood(w, accepted) && TablesGood(db, accepted) && Extends(w.db, db)
    ensures WorldGood(w.(db := db), accepted) && Grows(w, w.(db := db))
  {
    var w' := w.(db := db);
    forall c | c in w.refs ensures RefGood(db, w.refs[c]) { RefsStayGood(w.db, db, w.refs[c]); }
    forall r | r in w.results ensures Stored(db, w.results[r], r) { RowsAreForever(w.db, db, r); }
    forall id: nat | Acked(w.stream, id) ensures SettledOrDead(db, w.stream, id) { SettledOrDeadStays(w, w', id); }
  }

  lemma ApplyStepGood(w: World, accepted: set<Notification>, n: Notification, ref: Ref, now: int)
    requires WorldGood(w, accepted) && n in accepted && Routable(n)
    requires RefGood(w.db, ref) && ref.customer == n.customer && IsSuccessful(n.providerStatus)
    ensures var (db, reply) := ApplyStatement(w.db, n, ref.id, now);
            && WorldGood(w.(db := db), accepted) && Grows(w, w.(db := db))
            && (reply.Moved? || (reply.Skipped? && HasRow(w.db, n.reference) && db == w.db))
            && (reply.Moved? ==>
                  Stored(db, reply.row, n.reference) && reply.row.outcome == Applied && RowFrom(reply.row, n))
  {
    var (db, reply) := ApplyStatement(w.db, n, ref.id, now);
    ApplyKeepsGood(w.db, n, ref.id, now);
    if reply.Moved? {
      AppliedRowIsRight(w.db, n, ref, now);
      assert RowAccepted(accepted, reply.row);
    }
    OldRowsStay(w.db, db, accepted);
    WorldFollowsDb(w, accepted, db);
  }

  lemma AppliedRowIsRight(db: Db, n: Notification, ref: Ref, now: int)
    requires Good(db) && RefGood(db, ref) && ref.customer == n.customer && IsSuccessful(n.providerStatus)
    requires ApplyStatement(db, n, ref.id, now).1.Moved?
    ensures var (db', reply) := ApplyStatement(db, n, ref.id, now);
            && db'.ledger == db.ledger + [reply.row]
            && Stored(db', reply.row, n.reference) && reply.row.outcome == Applied
            && RowFrom(reply.row, n) && RowRouted(db', reply.row)
  {
    var (db', reply) := ApplyStatement(db, n, ref.id, now);
    assert PositionGood(db, ref.id);
    Appended(db.ledger, reply.row, ref.id, n.reference);
  }

  lemma RecordStepGood(w: World, accepted: set<Notification>, n: Notification, outcome: Outcome,
      deployment: Option<nat>)
    requires WorldGood(w, accepted) && n in accepted && Routable(n)
    requires outcome in {Unmatched, Ignored} && (deployment.Some? ==> deployment.value < |w.db.deployments|)
    ensures var (db, reply) := RecordStatement(w.db, n, outcome, deployment);
            && WorldGood(w.(db := db), accepted) && Grows(w, w.(db := db))
            && (reply.Filed? || (reply.Skipped? && HasRow(w.db, n.reference) && db == w.db))
            && (reply.Filed? ==>
                  Stored(db, reply.row, n.reference) && reply.row.outcome == outcome && RowFrom(reply.row, n))
  {
    var (db, reply) := RecordStatement(w.db, n, outcome, deployment);
    RecordKeepsGood(w.db, n, outcome, deployment);
    if reply.Filed? {
      Appended(w.db.ledger, reply.row, 0, n.reference);
      assert RowFrom(reply.row, n);
      assert RowAccepted(accepted, reply.row);
    }
    OldRowsStay(w.db, db, accepted);
    WorldFollowsDb(w, accepted, db);
  }

  lemma LookupStepGood(w: World, accepted: set<Notification>, customer: string)
    requires WorldGood(w, accepted)
    ensures var d := GetByCustomer(w.db.deployments, customer);
            d.Some? ==> d.value.id < |w.db.deployments| && w.db.deployments[d.value.id] == d.value
                        && RefGood(w.db, RefOf(d.value)) && d.value.customer == customer
  {
    var d := GetByCustomer(w.db.deployments, customer);
    LookupIsFirstInOrder(w.db.deployments, customer);
    if d.Some? {
      var i :| 0 <= i < |w.db.deployments| && w.db.deployments[i] == d.value;
      assert PositionGood(w.db, i);
    }
  }

  lemma RouteStepGood(cfg: Config, w: World, accepted: set<Notification>, origin: Origin, n: Notification, pc: Pc,
      f: Faults)
    requires WorldGood(w, accepted) && CallGood(w, accepted, origin, n, pc)
    requires pc.AtResultCache? || pc.AtDecode? || pc.AtResolve? || pc.AtLookup?
    ensures CallGood(w, accepted, origin, n, Step(cfg, w, origin, n, pc, f).1)
  {
    LookupStepGood(w, accepted, Trim(n.customer));
  }

  lemma ReplayStepGood(cfg: Config, w: World, accepted: set<Notification>, origin: Origin, n: Notification, pc: Pc,
      f: Faults)
    requires CallGood(w, accepted, origin, n, pc)
    requires pc.AtReplay? || pc.AtPosition? || pc.AtReplayRecord?
    ensures CallGood(w, accepted, origin, n, Step(cfg, w, origin, n, pc, f).1)
  {
  }

  lemma DisposeStepGood(cfg: Config, w: World, accepted: set<Notification>, origin: Origin, n: Notification,
      answer: Answer)
    requires CallGood(w, accepted, origin, n, Answered(answer))
    ensures CallGood(w, accepted, origin, n, Dispose(cfg, origin, answer))
  {
  }

  lemma ExtendsReflexive(db: Db)
    ensures Extends(db, db)
  {
  }

  /** The world and the call are good afterwards, and nothing was taken back. */
  ghost predicate Kept(w: World, accepted: set<Notification>, origin: Origin, n: Notification, after: (World, Pc)) {
    WorldGood(after.0, accepted) && Grows(w, after.0) && CallGood(after.0, accepted, origin, n, after.1)
  }

  lemma WriteKeepsWorld(w: World, accepted: set<Notification>, n: Notification, ref: Ref, f: Faults)
    requires WorldGood(w, accepted) && n in accepted && Routable(n) && RefGood(w.db, ref) && ref.customer == n.customer
    ensures WorldGood(Write(w, n, ref, f).0, accepted) && Grows(w, Write(w, n, ref, f).0)
  {
    ExtendsReflexive(w.db);
    if IsSuccessful(n.providerStatus) { ApplyStepGood(w, accepted, n, ref, f.now); }
  }

  lemma WriteGood(w: World, accepted: set<Notification>, origin: Origin, n: Notification, ref: Ref, f: Faults)
    requires WorldGood(w, accepted) && CallGood(w, accepted, origin, n, AtWrite(ref))
    ensures Kept(w, accepted, origin, n, Write(w, n, ref, f))
  {
    WriteKeepsWorld(w, accepted, n, ref, f);
    if IsSuccessful(n.providerStatus) { SettledCallGood(w, accepted, origin, n, ref, f); }
  }

  lemma SettledCallGood(w: World, accepted: set<Notification>, origin: Origin, n: Notification, ref: Ref, f: Faults)
    requires WorldGood(w, accepted) && CallGood(w, accepted, origin, n, AtWrite(ref)) && IsSuccessful(n.providerStatus)
    ensures CallGood(Write(w, n, ref, f).0, accepted, origin, n, Write(w, n, ref, f).1)
  {
    ApplyStepGood(w, accepted, n, ref, f.now);
  }

  lemma FileKeepsWorld(w: World, accepted: set<Notification>, n: Notification, outcome: Outcome,
      deployment: Option<nat>, f: Faults)
    requires WorldGood(w, accepted) && n in accepted && Routable(n)
    requires outcome in {Unmatched, Ignored} && (deployment.Some? ==> deployment.value < |w.db.deployments|)
    ensures WorldGood(File(w, n, outcome, deployment, f).0, accepted) && Grows(w, File(w, n, outcome, deployment, f).0)
  {
    ExtendsReflexive(w.db);
    RecordStepGood(w, accepted, n, outcome, deployment);
  }

  lemma FileGood(w: World, accepted: set<Notification>, origin: Origin, n: Notification, outcome: Outcome,
      deployment: Option<nat>, f: Faults)
    requires WorldGood(w, accepted) && CallGood(w, accepted, origin, n, AtRecord(outcome, deployment))
    ensures Kept(w, accepted, origin, n, File(w, n, outcome, deployment, f))
  {
    hide WorldGood;
    FileKeepsWorld(w, accepted, n, outcome, deployment, f);
    RecordStepGood(w, accepted, n, outcome, deployment);
  }

  lemma EnqueueGood(cfg: Config, w: World, accepted: set<Notification>, origin: Origin, n: Notification, f: Faults)
    requires WorldGood(w, accepted) && CallGood(w, accepted, origin, n, AtEnqueue)
    ensures Kept(w, accepted, origin, n, TryEnqueue(cfg, w, n, f))
  {
    ExtendsReflexive(w.db);
    EnqueueStepGood(w, accepted, n, cfg.maxLen, f.cut);
  }

  lemma FillGood(w: World, accepted: set<Notification>, origin: Origin, n: Notification, ref: Ref, f: Faults)
    requires WorldGood(w, accepted) && CallGood(w, accepted, origin, n, AtFill(ref))
    ensures Kept(w, accepted, origin, n, (Fill(w, ref, f), AtWrite(ref)))
  {
    ExtendsReflexive(w.db);
    assert RefsGood(w.db, w.refs[ref.customer := ref]);
  }

  lemma PublishGood(w: World, accepted: set<Notification>, origin: Origin, n: Notification, row: Row, f: Faults)
    requires WorldGood(w, accepted) && CallGood(w, accepted, origin, n, AtPublish(row))
    ensures Kept(w, accepted, origin, n, (Publish(w, n, row, f), Answered(Success(Applied, Some(row)))))
  {
    ExtendsReflexive(w.db);
    assert ResultsGood(w.db, w.results[n.reference := row]);
  }

  lemma DeadLetterGood(w: World, accepted: set<Notification>, origin: Origin, n: Notification, answer: Answer,
      f: Faults)
    requires WorldGood(w, accepted) && CallGood(w, accepted, origin, n, AtDeadLetter(answer))
    ensures Kept(w, accepted, origin, n, DeadLetter(w, origin.id, answer, f))
  {
    hide TablesGood, RefsGood, ResultsGood;
    ExtendsReflexive(w.db);
    BuryStepGood(w, accepted, origin.id);
  }

  lemma AcknowledgeGood(w: World, accepted: set<Notification>, origin: Origin, n: Notification, answer: Answer,
      f: Faults)
    requires WorldGood(w, accepted) && CallGood(w, accepted, origin, n, AtAck(answer))
    ensures Kept(w, accepted, origin, n, (Acknowledge(w, origin.id, f), Ended(answer)))
  {
    ExtendsReflexive(w.db);
    AckStepGood(w, accepted, origin.id);
  }

  lemma DatabaseStepGood(cfg: Config, w: World, accepted: set<Notification>, origin: Origin, n: Notification, pc: Pc,
      f: Faults)
    requires WorldGood(w, accepted) && CallGood(w, accepted, origin, n, pc) && (pc.AtWrite? || pc.AtRecord?)
    ensures Kept(w, accepted, origin, n, Step(cfg, w, origin, n, pc, f))
  {
    if pc.AtWrite? { WriteGood(w, accepted, origin, n, pc.ref, f); }
    else { FileGood(w, accepted, origin, n, pc.outcome, pc.deployment, f); }
  }

  lemma CacheStepGood(cfg: Config, w: World, accepted: set<Notification>, origin: Origin, n: Notification, pc: Pc,
      f: Faults)
    requires WorldGood(w, accepted) && CallGood(w, accepted, origin, n, pc) && (pc.AtFill? || pc.AtPublish?)
    ensures Kept(w, accepted, origin, n, Step(cfg, w, origin, n, pc, f))
  {
    if pc.AtFill? { FillGood(w, accepted, origin, n, pc.ref, f); }
    else { PublishGood(w, accepted, origin, n, pc.row, f); }
  }

  lemma BrokerStepGood(cfg: Config, w: World, accepted: set<Notification>, origin: Origin, n: Notification, pc: Pc,
      f: Faults)
    requires WorldGood(w, accepted) && CallGood(w, accepted, origin, n, pc)
    requires pc.AtEnqueue? || pc.AtDeadLetter? || pc.AtAck?
    ensures Kept(w, accepted, origin, n, Step(cfg, w, origin, n, pc, f))
  {
    if pc.AtEnqueue? { EnqueueGood(cfg, w, accepted, origin, n, f); }
    else if pc.AtDeadLetter? { DeadLetterGood(w, accepted, origin, n, pc.answer, f); }
    else { AcknowledgeGood(w, accepted, origin, n, pc.answer, f); }
  }

  /** Every step of every call keeps the world and the call itself good, and
      only ever adds to what is recorded. */
  lemma StepKeepsGood(cfg: Config, w: World, accepted: set<Notification>, origin: Origin, n: Notification, pc: Pc,
      f: Faults)
    requires WorldGood(w, accepted) && CallGood(w, accepted, origin, n, pc)
    ensures Kept(w, accepted, origin, n, Step(cfg, w, origin, n, pc, f))
  {
    if pc.AtWrite? || pc.AtRecord? { DatabaseStepGood(cfg, w, accepted, origin, n, pc, f); }
    else if pc.AtFill? || pc.AtPublish? { CacheStepGood(cfg, w, accepted, origin, n, pc, f); }
    else if pc.AtEnqueue? || pc.AtDeadLetter? || pc.AtAck? { BrokerStepGood(cfg, w, accepted, origin, n, pc, f); }
    else { ReadStepGood(cfg, w, accepted, origin, n, pc, f); }
  }

  lemma ReadStepGood(cfg: Config, w: World, accepted: set<Notification>, origin: Origin, n: Notification, pc: Pc,
      f: Faults)
    requires WorldGood(w, accepted) && CallGood(w, accepted, origin, n, pc)
    requires !(pc.AtEnqueue? || pc.AtFill? || pc.AtWrite? || pc.AtRecord? || pc.AtPublish?)
    requires !(pc.AtDeadLetter? || pc.AtAck?)
    ensures Step(cfg, w, origin, n, pc, f).0 == w
    ensures Kept(w, accepted, origin, n, Step(cfg, w, origin, n, pc, f))
  {
    ExtendsReflexive(w.db);
    if pc.Answered? {
      DisposeStepGood(cfg, w, accepted, origin, n, pc.answer);
    } else if pc.AtReplay? || pc.AtPosition? || pc.AtReplayRecord? {
      ReplayStepGood(cfg, w, accepted, origin, n, pc, f);
    } else if !pc.Ended? {
      RouteStepGood(cfg, w, accepted, origin, n, pc, f);
    }
  }

  lemma BuryStepGood(w: World, accepted: set<Notification>, id: nat)
    requires WorldGood(w, accepted) && id < |w.stream.entries|
    ensures var w' := w.(stream := Bury(w.stream, id));
            WorldGood(w', accepted) && Grows(w, w') && SettledOrDead(w'.db, w'.stream, id)
  {
    var s' := Bury(w.stream, id);
    assert s'.dead[|w.stream.dead|] == id;
    assert forall k: nat :: Acked(s', k) ==> SettledOrDead(w.db, w.stream, k);
  }

  lemma EnqueueStepGood(w: World, accepted: set<Notification>, n: Notification, maxLen: nat, cut: nat)
    requires WorldGood(w, accepted) && n in accepted
    ensures var w' := w.(stream := Append(w.stream, n, maxLen, cut));
            WorldGood(w', accepted) && Grows(w, w') && n in w'.stream.entries
  {
    var s' := Append(w.stream, n, maxLen, cut);
    assert s'.entries[|w.stream.entries|] == n;
    assert forall k: nat :: Acked(s', k) ==> SettledOrDead(w.db, w.stream, k);
  }

  lemma AckStepGood(w: World, accepted: set<Notification>, id: nat)
    requires WorldGood(w, accepted) && SettledOrDead(w.db, w.stream, id)
    ensures var w' := w.(stream := Ack(w.stream, id)); WorldGood(w', accepted) && Grows(w, w')
  {
    ExtendsReflexive(w.db);
    AckedPlaces(w.stream, id);
    var s' := Ack(w.stream, id);
    assert AcksGood(w.db, s') by {
      assert forall k: nat :: Acked(s', k) ==> k == id || SettledOrDead(w.db, w.stream, k);
    }
  }

  lemma AckedPlaces(s: Stream, id: nat)
    requires PlacesGood(s)
    ensures PlacesGood(Ack(s, id))
    ensures forall k: nat :: Acked(Ack(s, id), k) ==> k == id || Acked(s, k)
    ensures Ack(s, id).entries == s.entries && Ack(s, id).dead == s.dead
  {
  }

  lemma OnlyWritesWin(cfg: Config, w: World, origin: Origin, n: Notification, pc: Pc, f: Faults)
    requires !Won(pc) && Won(Step(cfg, w, origin, n, pc, f).1)
    ensures pc.AtWrite? || pc.AtRecord?
  {
  }

  /** A call wins only at the step that stores its reference's row, and only if
      there was none. */
  lemma WinningStoresTheRow(cfg: Config, w: World, origin: Origin, n: Notification, pc: Pc, f: Faults)
    requires !Won(pc) && Won(Step(cfg, w, origin, n, pc, f).1)
    ensures !HasRow(w.db, n.reference) && HasRow(Step(cfg, w, origin, n, pc, f).0.db, n.reference)
  {
    OnlyWritesWin(cfg, w, origin, n, pc, f);
    if pc.AtWrite? {
      Appended(w.db.ledger, ApplyStatement(w.db, n, pc.ref.id, f.now).1.row, 0, n.reference);
    } else {
      Appended(w.db.ledger, RecordStatement(w.db, n, pc.outcome, pc.deployment).1.row, 0, n.reference);
    }
  }

  lemma WinnersAreSettled(w: World, accepted: set<Notification>, origin: Origin, n: Notification, pc: Pc)
    requires CallGood(w, accepted, origin, n, pc) && Won(pc)
    ensures HasRow(w.db, n.reference)
  {
  }
}

/**
  Any number of Apply, Record and Create statements in flight at once:
  src/internal/infrastructure/database/repositories/payment_repository.go under
  Postgres READ COMMITTED.

  An Apply probes its snapshot for the reference, then waits for the row lock of
  its deployment and advances the latest committed version of that row, then
  waits for the reference key in the primary-key index, and only then commits
  the advanced row and the ledger row together.  The probe may be stale by the
  time the key is asked for; a key committed meanwhile is a unique violation,
  which rolls the advance back.  A Record only asks for the key.  A Create waits
  for whoever is advancing an open deployment of its customer, since the advance
  may take that deployment out of the index the insert is checked against.
*/
module ApplyProtocol {
  import opened Prelude
  import opened Deployments
  import opened Ledger

  /** How a statement ended. */
  datatype End =
    | Committed(reply: Reply)
    | NothingToDo      // the probe matched, or ON CONFLICT DO NOTHING did
    | Collided         // unique violation, everything rolled back
    | Failed           // timeout, lost connection or a CHECK failure: rolled back

  datatype Pc =
    | Begun
    | Probed
    | Locked(moved: Deployment)
    | Reserved(row: Row, advanced: Option<Deployment>)
    | Finished(end: End)

  datatype Tx = Tx(op: Op, pc: Pc)

  /** Committed tables, statements in flight, and the statements that ended
      without failing, in the order they ended. */
  datatype State = State(db: Db, txs: seq<Tx>, history: seq<nat>)

  datatype Step = Go(t: nat) | Abort(t: nat)

  predicate HoldsRow(tx: Tx, id: nat) {
    tx.op.DoApply? && tx.op.id == id && (tx.pc.Locked? || tx.pc.Reserved?)
  }

  predicate HoldsKey(tx: Tx, reference: string) {
    !tx.op.DoCreate? && tx.op.n.reference == reference && tx.pc.Reserved?
  }

  predicate RowBusy(s: State, id: nat) { exists t :: 0 <= t < |s.txs| && HoldsRow(s.txs[t], id) }

  /** Somebody is advancing an open deployment of this customer: whether the
      customer will still have one is not known before that commits. */
  predicate OpenRowBusy(s: State, customer: string) {
    exists id :: 0 <= id < |s.db.deployments| && HoldsOpen(s, id, customer) && RowBusy(s, id)
  }

  predicate HoldsOpen(s: State, id: nat, customer: string)
    requires id < |s.db.deployments|
  {
    s.db.deployments[id].customer == customer && IsOpen(s.db.deployments[id])
  }

  predicate KeyBusy(s: State, reference: string) { exists t :: 0 <= t < |s.txs| && HoldsKey(s.txs[t], reference) }

  predicate CheckFails(db: Db, op: Op)
    requires !op.DoCreate?
  {
    op.n.amount <= 0
    || (op.DoRecord? && (op.outcome !in {Unmatched, Ignored}
                         || (op.deployment.Some? && op.deployment.value >= |db.deployments|)))
  }

  /** Statement t can take its next step: it is neither finished nor waiting
      for a lock another statement holds. */
  predicate CanGo(s: State, t: nat) {
    && t < |s.txs|
    && var tx := s.txs[t];
       match tx.pc
       case Finished(_) => false
       case Begun =>
         && (tx.op.DoRecord? ==> CanReserve(s, tx.op))
         && (tx.op.DoCreate? ==> !OpenRowBusy(s, tx.op.input.customer))
       case Probed => tx.op.DoApply? && !RowBusy(s, tx.op.id)
       case Locked(_) => tx.op.DoApply? && CanReserve(s, tx.op)
       case Reserved(_, _) => !tx.op.DoCreate?
  }

  predicate CanReserve(s: State, op: Op)
    requires !op.DoCreate?
  {
    CheckFails(s.db, op) || Find(s.db.ledger, op.n.reference).Some? || !KeyBusy(s, op.n.reference)
  }

  function Move(s: State, t: nat, pc: Pc): State
    requires t < |s.txs|
  {
    s.(txs := s.txs[t := s.txs[t].(pc := pc)])
  }

  function Conclude(s: State, t: nat, db: Db, end: End): State
    requires t < |s.txs|
  {
    Move(s, t, Finished(end)).(db := db, history := s.history + [t])
  }

  function Next(s: State, step: Step): State {
    match step
    case Abort(t) =>
      if t < |s.txs| && !s.txs[t].pc.Finished? then Move(s, t, Finished(Failed)) else s
    case Go(t) =>
      if !CanGo(s, t) then s
      else
        var op := s.txs[t].op;
        match s.txs[t].pc
        case Begun =>
          if op.DoCreate? then
            var (db, reply) := Exec(s.db, op);
            Conclude(s, t, db, Committed(reply))
          else if op.DoRecord? then AskForKey(s, t, NothingToDo, FiledRow(op.n, op.outcome, op.deployment), None)
          else if Find(s.db.ledger, op.n.reference).Some? || op.id >= |s.db.deployments| then
            Conclude(s, t, s.db, NothingToDo)
          else Move(s, t, Probed)
        case Probed =>
          if op.id >= |s.db.deployments| then Move(s, t, Finished(Failed))
          else Move(s, t, Locked(Advance(s.db.deployments[op.id], op.n.amount, op.n.date, op.now)))
        case Locked(moved) => AskForKey(s, t, Collided, AppliedRow(op.n, moved), Some(moved))
        case Reserved(row, moved) =>
          var ledger := s.db.ledger + [row];
          if op.DoApply? && moved.Some? && op.id < |s.db.deployments| then
            Conclude(s, t, Db(s.db.deployments[op.id := moved.value], ledger), Committed(Moved(row, moved.value)))
          else Conclude(s, t, s.db.(ledger := ledger), Committed(Filed(row)))
        case Finished(_) => s
  }

  function AskForKey(s: State, t: nat, taken: End, row: Row, moved: Option<Deployment>): State
    requires t < |s.txs| && !s.txs[t].op.DoCreate?
  {
    var op := s.txs[t].op;
    if CheckFails(s.db, op) then Move(s, t, Finished(Failed))
    else if Find(s.db.ledger, op.n.reference).Some? then Conclude(s, t, s.db, taken)
    else Move(s, t, Reserved(row, moved))
  }

  function After(s: State, steps: seq<Step>): State {
    if steps == [] then s else Next(After(s, steps[..|steps| - 1]), steps[|steps| - 1])
  }

  function Begin(ops: seq<Op>): seq<Tx> {
    seq(|ops|, i requires 0 <= i < |ops| => Tx(ops[i], Begun))
  }

  function Start(db: Db, ops: seq<Op>): State { State(db, Begin(ops), []) }

  // ---------------------------------------------------------------- invariant

  /** What a statement in flight knows to be true of the committed tables. */
  ghost predicate TxGood(s: State, tx: Tx) {
    match tx.pc
    case Begun => true
    case Probed => tx.op.DoApply? && tx.op.id < |s.db.deployments|
    case Locked(moved) => AdvancedLatest(s, tx, moved)
    case Reserved(row, moved) =>
      && !tx.op.DoCreate?
      && !CheckFails(s.db, tx.op)
      && Find(s.db.ledger, tx.op.n.reference).None?
      && (tx.op.DoApply? ==>
            moved.Some? && AdvancedLatest(s, tx, moved.value) && row == AppliedRow(tx.op.n, moved.value))
      && (tx.op.DoRecord? ==> row == FiledRow(tx.op.n, tx.op.outcome, tx.op.deployment))
    case Finished(Committed(reply)) =>
      !tx.op.DoCreate? ==> (reply.Moved? || reply.Filed?) && Find(s.db.ledger, tx.op.n.reference) == Some(reply.row)
    case Finished(_) => true
  }

  ghost predicate AdvancedLatest(s: State, tx: Tx, moved: Deployment) {
    && tx.op.DoApply? && tx.op.id < |s.db.deployments|
    && moved == Advance(s.db.deployments[tx.op.id], tx.op.n.amount, tx.op.n.date, tx.op.now)
  }

  ghost predicate Exclusive(s: State) {
    forall t, u :: 0 <= t < u < |s.txs| ==>
      && (forall id :: !(HoldsRow(s.txs[t], id) && HoldsRow(s.txs[u], id)))
      && (forall reference :: !(HoldsKey(s.txs[t], reference) && HoldsKey(s.txs[u], reference)))
  }

  ghost predicate Inv(s: State) {
    && Good(s.db)
    && Exclusive(s)
    && forall t :: 0 <= t < |s.txs| ==> TxGood(s, s.txs[t])
  }

  /** A statement's knowledge survives another's commit, because the row and
      the key it knows about are locked. */
  lemma KnowledgeIsStable(s: State, s': State, tx: Tx)
    requires TxGood(s, tx) && Good(s'.db) && Extends(s.db, s'.db)
    requires forall id: nat :: HoldsRow(tx, id) && id < |s.db.deployments| ==>
               s'.db.deployments[id] == s.db.deployments[id]
    requires forall reference :: HoldsKey(tx, reference) ==>
               Find(s'.db.ledger, reference) == Find(s.db.ledger, reference)
    ensures TxGood(s', tx)
  {
    if tx.op.DoApply? { assert HoldsRow(tx, tx.op.id) <==> tx.pc.Locked? || tx.pc.Reserved?; }
    if !tx.op.DoCreate? {
      assert HoldsKey(tx, tx.op.n.reference) <==> tx.pc.Reserved?;
      if Find(s.db.ledger, tx.op.n.reference).Some? { RowsAreForever(s.db, s'.db, tx.op.n.reference); }
    }
  }

  /** Steps that leave the tables alone. */
  lemma MoveKeepsInv(s: State, t: nat, pc: Pc, history: seq<nat>)
    requires Inv(s) && t < |s.txs|
    requires TxGood(s, Tx(s.txs[t].op, pc))
    requires pc.Locked? && s.txs[t].op.DoApply? && !s.txs[t].pc.Locked? ==> !RowBusy(s, s.txs[t].op.id)
    requires pc.Reserved? ==> !KeyBusy(s, s.txs[t].op.n.reference) && (s.txs[t].op.DoApply? ==> s.txs[t].pc.Locked?)
    ensures Inv(Move(s, t, pc).(history := history))
  {
    var s' := Move(s, t, pc).(history := history);
    forall u | 0 <= u < |s'.txs| ensures TxGood(s', s'.txs[u]) {
      if u != t { KnowledgeIsStable(s, s', s.txs[u]); } else { KnowledgeIsStable(s, s', s'.txs[t]); }
    }
    forall u, v | 0 <= u < v < |s'.txs|
      ensures forall id :: !(HoldsRow(s'.txs[u], id) && HoldsRow(s'.txs[v], id))
      ensures forall reference :: !(HoldsKey(s'.txs[u], reference) && HoldsKey(s'.txs[v], reference))
    {
      if u != t && v != t { assert s'.txs[u] == s.txs[u] && s'.txs[v] == s.txs[v]; }
    }
  }

  /** A commit is the whole statement run at that moment. */
  lemma CommitIsAtomic(s: State, t: nat)
    requires Inv(s) && t < |s.txs| && s.txs[t].pc.Reserved?
    ensures var (db, reply) := Exec(s.db, s.txs[t].op);
            Next(s, Go(t)) == Conclude(s, t, db, Committed(reply))
  {
    assert TxGood(s, s.txs[t]);
  }

  lemma CommitKeepsInv(s: State, t: nat, db: Db, reply: Reply)
    requires Inv(s) && t < |s.txs| && (s.txs[t].pc.Reserved? || (s.txs[t].pc.Begun? && s.txs[t].op.DoCreate?))
    requires (db, reply) == Exec(s.db, s.txs[t].op)
    ensures Inv(Conclude(s, t, db, Committed(reply)))
  {
    var s', op := Conclude(s, t, db, Committed(reply)), s.txs[t].op;
    ExecKeepsGood(s.db, op);
    assert TxGood(s, s.txs[t]);
    forall u | 0 <= u < |s'.txs| ensures TxGood(s', s'.txs[u]) {
      if u == t {
        if !op.DoCreate? { Appended(s.db.ledger, reply.row, 0, op.n.reference); }
      } else {
        var tx := s.txs[u];
        assert TxGood(s, tx);
        forall id: nat | HoldsRow(tx, id) && id < |s.db.deployments|
          ensures db.deployments[id] == s.db.deployments[id]
        {
          assert HoldsRow(s.txs[t], id) || !op.DoApply? || op.id != id;
        }
        forall reference | HoldsKey(tx, reference) ensures Find(db.ledger, reference) == Find(s.db.ledger, reference) {
          if !op.DoCreate? {
            assert HoldsKey(s.txs[t], op.n.reference);
            Appended(s.db.ledger, reply.row, 0, reference);
          }
        }
        KnowledgeIsStable(s, s', tx);
      }
    }
    forall u, v | 0 <= u < v < |s'.txs|
      ensures forall id :: !(HoldsRow(s'.txs[u], id) && HoldsRow(s'.txs[v], id))
      ensures forall reference :: !(HoldsKey(s'.txs[u], reference) && HoldsKey(s'.txs[v], reference))
    {
      if u != t && v != t { assert s'.txs[u] == s.txs[u] && s'.txs[v] == s.txs[v]; }
    }
  }

  lemma StepKeepsInv(s: State, step: Step)
    requires Inv(s)
    ensures Inv(Next(s, step))
  {
    var t := step.t;
    if t < |s.txs| {
      var tx := s.txs[t];
      assert TxGood(s, tx);
      if step.Abort? {
        MoveKeepsInv(s, t, Finished(Failed), s.history);
      } else if CanGo(s, t) {
        if tx.pc.Reserved? {
          CommitIsAtomic(s, t);
          var (db, reply) := Exec(s.db, tx.op);
          CommitKeepsInv(s, t, db, reply);
        } else if tx.op.DoCreate? {
          var (db, reply) := Exec(s.db, tx.op);
          CommitKeepsInv(s, t, db, reply);
        } else {
          var s' := Next(s, step);
          assert s'.db == s.db;
          MoveKeepsInv(s, t, s'.txs[t].pc, s'.history);
        }
      }
    }
  }

  lemma {:induction false} RunsKeepInv(db: Db, ops: seq<Op>, steps: seq<Step>)
    requires Good(db)
    ensures Inv(After(Start(db, ops), steps))
  {
    if steps != [] {
      RunsKeepInv(db, ops, steps[..|steps| - 1]);
      StepKeepsInv(After(Start(db, ops), steps[..|steps| - 1]), steps[|steps| - 1]);
    }
  }

  // ------------------------------------------------------------ conservation

  /** In every reachable state of every interleaving each balance is the sum of
      its committed applied rows, each count their number, and every reference
      has at most one row. */
  lemma MoneyIsConserved(db: Db, ops: seq<Op>, steps: seq<Step>, id: nat)
    requires Good(db)
    ensures var s := After(Start(db, ops), steps);
            && UniqueReferences(s.db.ledger)
            && (id < |s.db.deployments| ==>
                  && s.db.deployments[id].amountPaid == PaidTo(s.db.ledger, id)
                  && s.db.deployments[id].paymentCount == CreditsTo(s.db.ledger, id))
  {
    RunsKeepInv(db, ops, steps);
    var s := After(Start(db, ops), steps);
    assert id < |s.db.deployments| ==> PositionGood(s.db, id);
  }

  // --------------------------------------------------------- linearizability

  function Seen(end: End): Reply {
    match end
    case Committed(reply) => reply
    case NothingToDo => Skipped
    case Collided => Skipped
    case Failed => Refused
  }

  function Ops(s: State, history: seq<nat>): seq<Op>
    requires forall k :: 0 <= k < |history| ==> history[k] < |s.txs|
  {
    if history == [] then []
    else Ops(s, history[..|history| - 1]) + [s.txs[history[|history| - 1]].op]
  }

  /** The k-th statement to end saw the reply it would have had running alone,
      after the ones that ended before it. */
  ghost predicate AnsweredInOrder(db: Db, s: State, k: nat)
    requires k < |s.history| && forall j :: 0 <= j < |s.history| ==> s.history[j] < |s.txs|
  {
    var tx := s.txs[s.history[k]];
    && tx.pc.Finished? && !tx.pc.end.Failed?
    && Exec(ExecAll(db, Ops(s, s.history[..k])), tx.op).1 == Seen(tx.pc.end)
  }

  /** The run is indistinguishable from its successful statements executed one
      at a time, in the order they ended, each exactly once. */
  ghost predicate Linearized(db: Db, s: State) {
    && Recorded(s)
    && s.db == ExecAll(db, Ops(s, s.history))
    && forall k :: 0 <= k < |s.history| ==> AnsweredInOrder(db, s, k)
  }

  /** The history lists the statements that ended without failing, once each. */
  ghost predicate Recorded(s: State) {
    && (forall k :: 0 <= k < |s.history| ==> s.history[k] < |s.txs|)
    && (forall j, k :: 0 <= j < k < |s.history| ==> s.history[j] != s.history[k])
    && (forall t :: 0 <= t < |s.txs| ==>
          (t in s.history <==> s.txs[t].pc.Finished? && !s.txs[t].pc.end.Failed?))
  }

  lemma {:induction false} OpsUnchanged(s: State, s': State, history: seq<nat>)
    requires |s.txs| == |s'.txs| && forall t :: 0 <= t < |s.txs| ==> s.txs[t].op == s'.txs[t].op
    requires forall k :: 0 <= k < |history| ==> history[k] < |s.txs|
    ensures Ops(s, history) == Ops(s', history)
  {
    if history != [] { OpsUnchanged(s, s', history[..|history| - 1]); }
  }

  lemma QuietMoveStaysLinearized(db: Db, s: State, t: nat, pc: Pc)
    requires Linearized(db, s) && t < |s.txs| && !s.txs[t].pc.Finished?
    requires pc.Finished? ==> pc.end.Failed?
    ensures Linearized(db, Move(s, t, pc))
  {
    var s' := Move(s, t, pc);
    OpsUnchanged(s, s', s.history);
    forall k | 0 <= k < |s'.history| ensures AnsweredInOrder(db, s', k) {
      assert AnsweredInOrder(db, s, k);
      OpsUnchanged(s, s', s.history[..k]);
    }
  }

  lemma ConcludeStaysRecorded(s: State, t: nat, db: Db, end: End)
    requires Recorded(s) && t < |s.txs| && !s.txs[t].pc.Finished? && !end.Failed?
    ensures Recorded(Conclude(s, t, db, end))
  {
    var s' := Conclude(s, t, db, end);
    assert t !in s.history;
    forall u | 0 <= u < |s'.txs|
      ensures u in s'.history <==> s'.txs[u].pc.Finished? && !s'.txs[u].pc.end.Failed?
    {
      assert u in s'.history <==> u in s.history || u == t;
    }
  }

  lemma OpsAfterConclude(s: State, t: nat, db: Db, end: End)
    requires Recorded(s) && t < |s.txs| && !s.txs[t].pc.Finished? && !end.Failed?
    ensures var s' := Conclude(s, t, db, end);
            && Recorded(s')
            && Ops(s', s'.history[..|s.history|]) == Ops(s, s.history)
            && Ops(s', s'.history) == Ops(s, s.history) + [s.txs[t].op]
  {
    var s' := Conclude(s, t, db, end);
    ConcludeStaysRecorded(s, t, db, end);
    assert s'.history[..|s.history|] == s.history;
    OpsUnchanged(s, s', s.history);
  }

  lemma ConcludeStaysLinearized(db: Db, s: State, t: nat, db': Db, end: End)
    requires Linearized(db, s) && t < |s.txs| && !s.txs[t].pc.Finished?
    requires !end.Failed? && Exec(s.db, s.txs[t].op) == (db', Seen(end))
    ensures Linearized(db, Conclude(s, t, db', end))
  {
    hide Exec, ExecAll, Ops, AnsweredInOrder, Recorded;
    var s' := Conclude(s, t, db', end);
    ConcludeStaysRecorded(s, t, db', end);
    RecordedInRange(s');
    LastAnswerStands(db, s, t, db', end);
    forall k | 0 <= k < |s'.history| ensures AnsweredInOrder(db, s', k) {
      if k < |s.history| { EarlierAnswersStand(db, s, t, db', end, k); }
    }
  }

  lemma RecordedInRange(s: State)
    requires Recorded(s)
    ensures forall k :: 0 <= k < |s.history| ==> s.history[k] < |s.txs|
  {
  }

  /** The statement that ended last was answered by the tables as they stood. */
  lemma LastAnswerStands(db: Db, s: State, t: nat, db': Db, end: End)
    requires Linearized(db, s) && t < |s.txs| && !s.txs[t].pc.Finished?
    requires !end.Failed? && Exec(s.db, s.txs[t].op) == (db', Seen(end))
    ensures var s' := Conclude(s, t, db', end);
            && Recorded(s')
            && db' == ExecAll(db, Ops(s', s'.history))
            && AnsweredInOrder(db, s', |s.history|)
  {
    hide Exec, Ops, Recorded;
    var s' := Conclude(s, t, db', end);
    RecordedInRange(s);
    var ops, op := Ops(s, s.history), s.txs[t].op;
    OpsAfterConclude(s, t, db', end);
    RecordedInRange(s');
    assert s'.history[|s.history|] == t && s'.txs[t] == Tx(op, Finished(end));
    OneMoreOp(db, ops, op);
  }

  lemma OneMoreOp(db: Db, ops: seq<Op>, op: Op)
    ensures ExecAll(db, ops + [op]) == Exec(ExecAll(db, ops), op).0
  {
    assert (ops + [op])[..|ops|] == ops;
  }

  lemma EarlierAnswersStand(db: Db, s: State, t: nat, db': Db, end: End, k: nat)
    requires Linearized(db, s) && t < |s.txs| && !s.txs[t].pc.Finished? && k < |s.history| && !end.Failed?
    ensures Recorded(Conclude(s, t, db', end)) && AnsweredInOrder(db, Conclude(s, t, db', end), k)
  {
    var s' := Conclude(s, t, db', end);
    ConcludeStaysRecorded(s, t, db', end);
    assert AnsweredInOrder(db, s, k);
    assert s'.history[..k] == s.history[..k];
    OpsUnchanged(s, s', s.history[..k]);
  }

  lemma StepStaysLinearized(db: Db, s: State, step: Step)
    requires Inv(s) && Linearized(db, s)
    ensures Linearized(db, Next(s, step))
  {
    var t, s' := step.t, Next(s, step);
    if s' != s && t < |s.txs| {
      var tx := s.txs[t];
      assert TxGood(s, tx);
      if s'.history == s.history {
        assert s'.db == s.db;
        QuietMoveStaysLinearized(db, s, t, s'.txs[t].pc);
        assert s' == Move(s, t, s'.txs[t].pc);
      } else {
        if tx.pc.Reserved? { CommitIsAtomic(s, t); }
        ConcludeStaysLinearized(db, s, t, s'.db, s'.txs[t].pc.end);
      }
    }
  }

  /** Every interleaving refines the one-statement-at-a-time ledger: stale
      probes, lock waits, unique violations and rollbacks included. */
  lemma {:induction false} EveryRunLinearizes(db: Db, ops: seq<Op>, steps: seq<Step>)
    requires Good(db)
    ensures Linearized(db, After(Start(db, ops), steps))
  {
    if steps != [] {
      var before := After(Start(db, ops), steps[..|steps| - 1]);
      EveryRunLinearizes(db, ops, steps[..|steps| - 1]);
      RunsKeepInv(db, ops, steps[..|steps| - 1]);
      StepStaysLinearized(db, before, steps[|steps| - 1]);
    }
  }

  /** However many statements carry one reference, at most one of them writes
      its row. */
  lemma OneWinnerPerReference(db: Db, ops: seq<Op>, steps: seq<Step>, t: nat, u: nat)
    requires Good(db)
    requires var s := After(Start(db, ops), steps);
             && t < u < |s.txs|
             && s.txs[t].pc.Finished? && s.txs[u].pc.Finished?
             && s.txs[t].pc.end.Committed? && s.txs[u].pc.end.Committed?
             && !s.txs[t].op.DoCreate? && !s.txs[u].op.DoCreate?
    ensures var s := After(Start(db, ops), steps); s.txs[t].op.n.reference != s.txs[u].op.n.reference
    decreases |steps|
  {
    var s := After(Start(db, ops), steps);
    if steps == [] {
      assert false;
    } else {
      var step := steps[|steps| - 1];
      var before := After(Start(db, ops), steps[..|steps| - 1]);
      RunsKeepInv(db, ops, steps[..|steps| - 1]);
      StepFrame(before, step, t);
      StepFrame(before, step, u);
      if before.txs[t].pc == s.txs[t].pc && before.txs[u].pc == s.txs[u].pc {
        OneWinnerPerReference(db, ops, steps[..|steps| - 1], t, u);
      } else if before.txs[t].pc == s.txs[t].pc {
        WinnerFoundNoRow(before, u);
        assert TxGood(before, before.txs[t]);
      } else {
        WinnerFoundNoRow(before, t);
        assert TxGood(before, before.txs[u]);
      }
    }
  }

  lemma StepFrame(s: State, step: Step, t: nat)
    requires t < |s.txs|
    ensures |Next(s, step).txs| == |s.txs| && Next(s, step).txs[t].op == s.txs[t].op
    ensures step != Go(t) && step != Abort(t) ==> Next(s, step).txs[t] == s.txs[t]
  {
  }

  lemma WinnerFoundNoRow(s: State, t: nat)
    requires Inv(s) && t < |s.txs| && !s.txs[t].op.DoCreate?
    requires Next(s, Go(t)).txs[t].pc.Finished? && !s.txs[t].pc.Finished?
    requires Next(s, Go(t)).txs[t].pc.end.Committed?
    ensures Find(s.db.ledger, s.txs[t].op.n.reference).None?
  {
    assert TxGood(s, s.txs[t]);
  }

  lemma OneMoreStep(s: State, steps: seq<Step>, step: Step)
    ensures After(s, steps + [step]) == Next(After(s, steps), step)
  {
    assert (steps + [step])[..|steps|] == steps;
  }

  /** The race the key is there for: two copies of a credit both probe before
      either has written, the second waits for the first's row lock, advances the
      latest balance, finds the key taken and is rolled back.  One row, one
      advance. */
  lemma StaleProbeCollides(db: Db, n: Notification, id: nat, now: int, later: int)
    requires Good(db) && id < |db.deployments| && n.amount > 0 && Find(db.ledger, n.reference).None?
    ensures var ops := [DoApply(n, id, now), DoApply(n, id, later)];
            var probes := [] + [Go(0)] + [Go(1)] + [Go(0)];
            var s := After(Start(db, ops), probes + [Go(1)]);
            var end := After(Start(db, ops), probes + [Go(0)] + [Go(0)] + [Go(1)] + [Go(1)]);
            && s == After(Start(db, ops), probes) && |s.txs| == 2 && s.txs[1].pc == Probed
            && |end.txs| == 2 && |end.db.deployments| == |db.deployments|
            && end.txs[0].pc.Finished? && end.txs[0].pc.end.Committed? && end.txs[1].pc == Finished(Collided)
            && |end.db.ledger| == |db.ledger| + 1
            && end.db.deployments[id].amountPaid == db.deployments[id].amountPaid + n.amount
  {
    hide Next, After, Start, Good;
    var first, second := DoApply(n, id, now), DoApply(n, id, later);
    var s0 := Start(db, [first, second]);
    var moved := Advance(db.deployments[id], n.amount, n.date, now);
    var probes := [] + [Go(0)] + [Go(1)] + [Go(0)];
    NoSteps(s0);
    OneMoreStep(s0, [], Go(0));
    OneMoreStep(s0, [] + [Go(0)], Go(1));
    OneMoreStep(s0, [] + [Go(0)] + [Go(1)], Go(0));
    BothProbe(db, first, second);
    OneMoreStep(s0, probes, Go(1));
    SecondWaits(db, first, second, moved);
    OneMoreStep(s0, probes, Go(0));
    OneMoreStep(s0, probes + [Go(0)], Go(0));
    FirstCommits(db, first, second, moved);
    OneMoreStep(s0, probes + [Go(0)] + [Go(0)], Go(1));
    OneMoreStep(s0, probes + [Go(0)] + [Go(0)] + [Go(1)], Go(1));
    SecondCollides(db, first, second, moved);
  }

  lemma NoSteps(s: State)
    ensures After(s, []) == s
  {
  }

  lemma BothProbe(db: Db, first: Op, second: Op)
    requires first.DoApply? && second.DoApply? && first.id < |db.deployments| && second.id < |db.deployments|
    requires Find(db.ledger, first.n.reference).None? && Find(db.ledger, second.n.reference).None?
    ensures var s0 := Start(db, [first, second]);
            var moved := Advance(db.deployments[first.id], first.n.amount, first.n.date, first.now);
            Next(Next(Next(s0, Go(0)), Go(1)), Go(0)) == OneAhead(db, first, second, moved)
  {
    var s0 := Start(db, [first, second]);
    assert s0.txs == [Tx(first, Begun), Tx(second, Begun)];
    assert Next(s0, Go(0)).txs == [Tx(first, Probed), Tx(second, Begun)];
    assert Next(Next(s0, Go(0)), Go(1)).txs == [Tx(first, Probed), Tx(second, Probed)];
  }

  /** Both have probed and the first holds the row. */
  function OneAhead(db: Db, first: Op, second: Op, moved: Deployment): State {
    State(db, [Tx(first, Locked(moved)), Tx(second, Probed)], [])
  }

  /** The first has committed, and the second can go on. */
  function OneThrough(db: Db, first: Op, second: Op, moved: Deployment): State
    requires first.DoApply? && first.id < |db.deployments|
  {
    var row := AppliedRow(first.n, moved);
    State(Db(db.deployments[first.id := moved], db.ledger + [row]),
          [Tx(first, Finished(Committed(Moved(row, moved)))), Tx(second, Probed)], [0])
  }

  lemma SecondWaits(db: Db, first: Op, second: Op, moved: Deployment)
    requires first.DoApply? && second.DoApply? && first.id == second.id
    ensures Next(OneAhead(db, first, second, moved), Go(1)) == OneAhead(db, first, second, moved)
  {
    assert HoldsRow(OneAhead(db, first, second, moved).txs[0], first.id);
  }

  lemma FirstCommits(db: Db, first: Op, second: Op, moved: Deployment)
    requires first.DoApply? && second.DoApply? && first.id < |db.deployments|
    requires first.n.amount > 0 && Find(db.ledger, first.n.reference).None?
    ensures Next(Next(OneAhead(db, first, second, moved), Go(0)), Go(0)) == OneThrough(db, first, second, moved)
  {
    var reserved := Next(OneAhead(db, first, second, moved), Go(0));
    assert reserved.txs == [Tx(first, Reserved(AppliedRow(first.n, moved), Some(moved))), Tx(second, Probed)];
    assert reserved.db == db && reserved.history == [];
  }

  lemma SecondCollides(db: Db, first: Op, second: Op, moved: Deployment)
    requires first.DoApply? && second.DoApply? && first.id == second.id < |db.deployments|
    requires first.n == second.n && second.n.amount > 0
    ensures var through := OneThrough(db, first, second, moved);
            var end := Next(Next(through, Go(1)), Go(1));
            && end.db == through.db && |end.txs| == 2
            && end.txs[0] == through.txs[0] && end.txs[1].pc == Finished(Collided)
  {
    var through := OneThrough(db, first, second, moved);
    var locked := Next(through, Go(1));
    assert locked.txs[1].pc.Locked? && locked.db == through.db && locked.txs[0] == through.txs[0];
    Appended(db.ledger, AppliedRow(first.n, moved), 0, second.n.reference);
  }

  /** A registration is not answered while a credit to an open deployment of its
      customer is in flight: that credit may be the one that closes it. */
  lemma RegistrationWaits(s: State, t: nat, u: nat)
    requires t < |s.txs| && u < |s.txs| && s.txs[t].op.DoCreate? && s.txs[t].pc == Begun
    requires s.txs[u].op.DoApply? && (s.txs[u].pc.Locked? || s.txs[u].pc.Reserved?)
    requires s.txs[u].op.id < |s.db.deployments|
    requires var d := s.db.deployments[s.txs[u].op.id];
             d.customer == s.txs[t].op.input.customer && (d.status == Active || d.status == Delinquent)
    ensures Next(s, Go(t)) == s
  {
    assert HoldsRow(s.txs[u], s.txs[u].op.id);
    assert HoldsOpen(s, s.txs[u].op.id, s.txs[t].op.input.customer) && RowBusy(s, s.txs[u].op.id);
  }

  // ------------------------------------------------ no deadlock, termination

  predicate Unfinished(s: State) { exists t :: 0 <= t < |s.txs| && !s.txs[t].pc.Finished? }

  lemma KeyHolderCanGo(s: State, reference: string) returns (t: nat)
    requires KeyBusy(s, reference)
    ensures CanGo(s, t)
  {
    t :| 0 <= t < |s.txs| && HoldsKey(s.txs[t], reference);
  }

  lemma RowHolderLeadsOn(s: State, id: nat) returns (t: nat)
    requires RowBusy(s, id)
    ensures CanGo(s, t)
  {
    t :| 0 <= t < |s.txs| && HoldsRow(s.txs[t], id);
    if !CanGo(s, t) { t := KeyHolderCanGo(s, s.txs[t].op.n.reference); }
  }

  /** A Create waits for a row, a row's holder for a key, a key's holder for
      nobody, so waiting never goes in a circle. */
  lemma SomeoneCanGo(s: State) returns (t: nat)
    requires Inv(s) && Unfinished(s)
    ensures CanGo(s, t)
  {
    t :| 0 <= t < |s.txs| && !s.txs[t].pc.Finished?;
    assert TxGood(s, s.txs[t]);
    if !CanGo(s, t) {
      var op := s.txs[t].op;
      if op.DoCreate? {
        var id :| 0 <= id < |s.db.deployments| && HoldsOpen(s, id, op.input.customer) && RowBusy(s, id);
        t := RowHolderLeadsOn(s, id);
      } else if s.txs[t].pc.Probed? {
        t := RowHolderLeadsOn(s, op.id);
      } else {
        t := KeyHolderCanGo(s, op.n.reference);
      }
    }
  }

  lemma NoDeadlock(db: Db, ops: seq<Op>, steps: seq<Step>)
    requires Good(db)
    ensures var s := After(Start(db, ops), steps); Unfinished(s) ==> exists t :: CanGo(s, t)
  {
    RunsKeepInv(db, ops, steps);
    var s := After(Start(db, ops), steps);
    if Unfinished(s) { var t := SomeoneCanGo(s); }
  }

  function Left(pc: Pc): nat {
    match pc
    case Begun => 4
    case Probed => 3
    case Locked(_) => 2
    case Reserved(_, _) => 1
    case Finished(_) => 0
  }

  function Work(txs: seq<Tx>): nat {
    if txs == [] then 0 else Work(txs[..|txs| - 1]) + Left(txs[|txs| - 1].pc)
  }

  lemma {:induction false} WorkUpdate(txs: seq<Tx>, t: nat, tx: Tx)
    requires t < |txs|
    ensures Work(txs[t := tx]) == Work(txs) - Left(txs[t].pc) + Left(tx.pc)
  {
    var k := |txs| - 1;
    if t < k {
      WorkUpdate(txs[..k], t, tx);
      assert txs[t := tx][..k] == txs[..k][t := tx];
    } else {
      assert txs[t := tx][..k] == txs[..k];
    }
  }

  lemma GoDoesWork(s: State, t: nat)
    requires CanGo(s, t)
    ensures Work(Next(s, Go(t)).txs) < Work(s.txs)
  {
    var s' := Next(s, Go(t));
    assert s'.txs == s.txs[t := s'.txs[t]];
    WorkUpdate(s.txs, t, s'.txs[t]);
  }

  function Productive(s: State, steps: seq<Step>): nat {
    if steps == [] then 0
    else
      var before := After(s, steps[..|steps| - 1]);
      Productive(s, steps[..|steps| - 1])
      + if Next(before, steps[|steps| - 1]) != before then 1 else 0
  }

  /** No schedule can keep the statements busy for ever: a run takes at most
      four productive steps a statement. */
  lemma {:induction false} RunsAreBounded(s: State, steps: seq<Step>)
    ensures Productive(s, steps) + Work(After(s, steps).txs) <= Work(s.txs)
  {
    if steps != [] {
      var before, step := After(s, steps[..|steps| - 1]), steps[|steps| - 1];
      RunsAreBounded(s, steps[..|steps| - 1]);
      var t := step.t;
      if step.Go? && CanGo(before, t) { GoDoesWork(before, t); }
      if step.Abort? && t < |before.txs| && !before.txs[t].pc.Finished? {
        WorkUpdate(before.txs, t, before.txs[t].(pc := Finished(Failed)));
      }
    }
  }

  lemma {:induction false} FourStepsEach(ops: seq<Op>)
    ensures Work(Begin(ops)) == 4 * |ops|
  {
    if ops != [] {
      FourStepsEach(ops[..|ops| - 1]);
      assert Begin(ops)[..|ops| - 1] == Begin(ops[..|ops| - 1]);
    }
  }

  lemma StatementsStayBounded(db: Db, ops: seq<Op>, steps: seq<Step>)
    ensures Productive(Start(db, ops), steps) <= 4 * |ops|
  {
    FourStepsEach(ops);
    RunsAreBounded(Start(db, ops), steps);
  }

  // ------------------------------------------- what an undisturbed statement does

  /** What the tables refuse of a statement, whoever else is about; `deployments`
      is how many there were when it began. */
  predicate Refusable(op: Op, deployments: nat) {
    match op
    case DoApply(n, _, _) => n.amount <= 0
    case DoRecord(n, outcome, deployment) =>
      n.amount <= 0 || (outcome != Unmatched && outcome != Ignored)
      || (deployment.Some? && deployment.value >= deployments)
    case DoCreate(_, _) => false
  }

  /** A statement that ended failed only because the tables refuse it, and else
      left its reference with a row, unless it had no deployment to pay into. */
  ghost predicate EndedWell(s: State, t: nat, deployments: nat)
    requires t < |s.txs|
  {
    && deployments <= |s.db.deployments|
    && var op := s.txs[t].op;
       s.txs[t].pc.Finished? ==>
         && (s.txs[t].pc.end.Failed? ==> Refusable(op, deployments))
         && (!s.txs[t].pc.end.Failed? && (op.DoRecord? || (op.DoApply? && op.id < deployments)) ==>
               Find(s.db.ledger, op.n.reference).Some?)
  }

  lemma TablesOnlyGrow(s: State, step: Step)
    requires Inv(s)
    ensures Good(Next(s, step).db) && Extends(s.db, Next(s, step).db)
  {
    var t := step.t;
    ExecKeepsGoodOrSame(s, step);
    if step.Go? && CanGo(s, t) && s.txs[t].pc.Reserved? { CommitIsAtomic(s, t); }
  }

  lemma ExecKeepsGoodOrSame(s: State, step: Step)
    requires Inv(s)
    ensures Extends(s.db, s.db)
    ensures step.t < |s.txs| ==>
              Good(Exec(s.db, s.txs[step.t].op).0) && Extends(s.db, Exec(s.db, s.txs[step.t].op).0)
  {
    if step.t < |s.txs| { ExecKeepsGood(s.db, s.txs[step.t].op); }
  }

  /** The step that ends a statement ends it well. */
  lemma OwnStepEndsWell(s: State, t: nat, deployments: nat)
    requires Inv(s) && t < |s.txs| && !s.txs[t].pc.Finished? && deployments <= |s.db.deployments|
    ensures Good(Next(s, Go(t)).db) && Extends(s.db, Next(s, Go(t)).db)
    ensures EndedWell(Next(s, Go(t)), t, deployments)
  {
    TablesOnlyGrow(s, Go(t));
    assert TxGood(s, s.txs[t]);
    StepKeepsInv(s, Go(t));
    assert TxGood(Next(s, Go(t)), Next(s, Go(t)).txs[t]);
  }

  lemma OtherStepsLeaveItEnded(s: State, step: Step, t: nat, deployments: nat)
    requires Inv(s) && t < |s.txs| && step != Abort(t) && EndedWell(s, t, deployments)
    requires step != Go(t) || s.txs[t].pc.Finished?
    ensures EndedWell(Next(s, step), t, deployments)
  {
    TablesOnlyGrow(s, step);
    StepFrame(s, step, t);
    var op := s.txs[t].op;
    if !op.DoCreate? && Find(s.db.ledger, op.n.reference).Some? {
      RowsAreForever(s.db, Next(s, step).db, op.n.reference);
    }
  }

  lemma StepEndsWell(s: State, step: Step, t: nat, deployments: nat)
    requires Inv(s) && t < |s.txs| && step != Abort(t) && EndedWell(s, t, deployments)
    ensures EndedWell(Next(s, step), t, deployments)
  {
    hide EndedWell, Inv, Next;
    if step == Go(t) && !s.txs[t].pc.Finished? {
      DeploymentsAtLeast(s, t, deployments);
      OwnStepEndsWell(s, t, deployments);
    } else {
      OtherStepsLeaveItEnded(s, step, t, deployments);
    }
  }

  lemma DeploymentsAtLeast(s: State, t: nat, deployments: nat)
    requires t < |s.txs| && EndedWell(s, t, deployments)
    ensures deployments <= |s.db.deployments|
  {
  }

  lemma {:induction false} RunEndsWell(db: Db, ops: seq<Op>, steps: seq<Step>, t: nat)
    requires Good(db) && t < |ops| && Abort(t) !in steps
    ensures var s := After(Start(db, ops), steps);
            |s.txs| == |ops| && s.txs[t].op == ops[t] && EndedWell(s, t, |db.deployments|)
  {
    if steps != [] {
      var init := steps[..|steps| - 1];
      assert forall step :: step in init ==> step in steps;
      RunEndsWell(db, ops, init, t);
      RunsKeepInv(db, ops, init);
      StepFrame(After(Start(db, ops), init), steps[|init|], t);
      StepEndsWell(After(Start(db, ops), init), steps[|init|], t, |db.deployments|);
    }
  }

  /** Left alone a statement does what it is for.  However it interleaves with
      the others, if nothing aborts it, it fails only for what the tables refuse:
      an amount that is not positive, an outcome that is not filed, a deployment
      there is none of.  So a positive credit to a deployment there is, once its
      statement has ended, has a row under its reference. */
  lemma UndisturbedStatementsSucceed(db: Db, ops: seq<Op>, steps: seq<Step>, t: nat)
    requires Good(db) && t < |ops| && Abort(t) !in steps
    ensures var s := After(Start(db, ops), steps);
            && |s.txs| == |ops|
            && (s.txs[t].pc == Finished(Failed) ==>
                  match ops[t]
                  case DoApply(n, _, _) => n.amount <= 0
                  case DoRecord(n, outcome, deployment) =>
                    n.amount <= 0 || (outcome != Unmatched && outcome != Ignored)
                    || (deployment.Some? && deployment.value >= |db.deployments|)
                  case DoCreate(_, _) => false)
            && (s.txs[t].pc.Finished? && ops[t].DoApply? && ops[t].n.amount > 0 && ops[t].id < |db.deployments| ==>
                  Find(s.db.ledger, ops[t].n.reference).Some?)
  {
    RunEndsWell(db, ops, steps, t);
  }

  /** If the credit's reference had no row and no other statement carries it, the
      row is the credit's own and the balance has moved. */
  lemma LoneCreditIsApplied(db: Db, ops: seq<Op>, steps: seq<Step>, t: nat)
    requires Good(db) && t < |ops| && Abort(t) !in steps
    requires ops[t].DoApply? && ops[t].n.amount > 0 && ops[t].id < |db.deployments|
    requires Find(db.ledger, ops[t].n.reference).None?
    requires forall u :: 0 <= u < |ops| && u != t && !ops[u].DoCreate? ==> ops[u].n.reference != ops[t].n.reference
    requires |After(Start(db, ops), steps).txs| == |ops| && After(Start(db, ops), steps).txs[t].pc.Finished?
    ensures var s := After(Start(db, ops), steps);
            && Find(s.db.ledger, ops[t].n.reference).Some?
            && var row := Find(s.db.ledger, ops[t].n.reference).value;
               && row.outcome == Applied && row.deployment == Some(ops[t].id) && row.amount == ops[t].n.amount
               && row.customer == ops[t].n.customer && row.date == ops[t].n.date
  {
    UndisturbedStatementsSucceed(db, ops, steps, t);
    OnlyItsOwnRow(db, ops, steps, t);
  }

  lemma {:induction false} OnlyItsOwnRow(db: Db, ops: seq<Op>, steps: seq<Step>, t: nat)
    requires Good(db) && t < |ops| && ops[t].DoApply? && Find(db.ledger, ops[t].n.reference).None?
    requires forall u :: 0 <= u < |ops| && u != t && !ops[u].DoCreate? ==> ops[u].n.reference != ops[t].n.reference
    ensures var s := After(Start(db, ops), steps);
            && |s.txs| == |ops| && (forall u :: 0 <= u < |ops| ==> s.txs[u].op == ops[u])
            && match Find(s.db.ledger, ops[t].n.reference)
               case None => true
               case Some(row) =>
                 && row.outcome == Applied && row.deployment == Some(ops[t].id) && row.amount == ops[t].n.amount
                 && row.customer == ops[t].n.customer && row.date == ops[t].n.date
  {
    if steps != [] {
      var init, step := steps[..|steps| - 1], steps[|steps| - 1];
      OnlyItsOwnRow(db, ops, init, t);
      RunsKeepInv(db, ops, init);
      var s := After(Start(db, ops), init);
      StepKeepsRow(s, step, t);
    }
  }

  lemma StepKeepsRow(s: State, step: Step, t: nat)
    requires Inv(s) && t < |s.txs| && s.txs[t].op.DoApply?
    requires forall u :: 0 <= u < |s.txs| && u != t && !s.txs[u].op.DoCreate? ==>
               s.txs[u].op.n.reference != s.txs[t].op.n.reference
    ensures var s', op := Next(s, step), s.txs[t].op;
            && |s'.txs| == |s.txs| && (forall u :: 0 <= u < |s.txs| ==> s'.txs[u].op == s.txs[u].op)
            && (Find(s'.db.ledger, op.n.reference) == Find(s.db.ledger, op.n.reference)
                || (Find(s'.db.ledger, op.n.reference).Some?
                    && var row := Find(s'.db.ledger, op.n.reference).value;
                       && row.outcome == Applied && row.deployment == Some(op.id) && row.amount == op.n.amount
                       && row.customer == op.n.customer && row.date == op.n.date))
  {
    var u := step.t;
    if step.Go? && CanGo(s, u) && s.txs[u].pc.Reserved? {
      assert TxGood(s, s.txs[u]);
      assert s.txs[u].op.DoApply? ==> PositionGood(s.db, s.txs[u].op.id);
      Appended(s.db.ledger, s.txs[u].pc.row, 0, s.txs[t].op.n.reference);
    }
  }

  /** From any reachable state the statements can all be brought to an end
      without aborting a single one, and then those not ended yet have done what
      they are for. */
  lemma {:induction false} EveryoneCanFinish(s: State) returns (rest: seq<nat>)
    requires Inv(s)
    ensures var end := GoAll(s, rest);
            && !Unfinished(end) && |end.txs| == |s.txs|
            && forall t :: 0 <= t < |s.txs| && !s.txs[t].pc.Finished? ==>
                 && end.txs[t].op == s.txs[t].op
                 && (end.txs[t].pc == Finished(Failed) ==>
                       match s.txs[t].op
                       case DoApply(n, _, _) => n.amount <= 0
                       case DoRecord(n, outcome, deployment) =>
                         n.amount <= 0 || (outcome != Unmatched && outcome != Ignored)
                         || (deployment.Some? && deployment.value >= |s.db.deployments|)
                       case DoCreate(_, _) => false)
                 && (s.txs[t].op.DoApply? && s.txs[t].op.n.amount > 0 && s.txs[t].op.id < |s.db.deployments| ==>
                       Find(end.db.ledger, s.txs[t].op.n.reference).Some?)
  {
    rest := EveryoneEnds(s);
    forall t | 0 <= t < |s.txs| && !s.txs[t].pc.Finished?
      ensures GoAll(s, rest).txs[t].op == s.txs[t].op && EndedWell(GoAll(s, rest), t, |s.db.deployments|)
    {
      OrderEndsWell(s, rest, t, |s.db.deployments|);
    }
  }

  lemma {:induction false} EveryoneEnds(s: State) returns (rest: seq<nat>)
    requires Inv(s)
    ensures !Unfinished(GoAll(s, rest)) && |GoAll(s, rest).txs| == |s.txs|
    decreases Work(s.txs)
  {
    if !Unfinished(s) {
      rest := [];
    } else {
      var t := SomeoneCanGo(s);
      GoDoesWork(s, t);
      StepKeepsInv(s, Go(t));
      var more := EveryoneEnds(Next(s, Go(t)));
      rest := [t] + more;
      assert rest[1..] == more;
    }
  }

  lemma {:induction false} OrderEndsWell(s: State, order: seq<nat>, t: nat, deployments: nat)
    requires Inv(s) && t < |s.txs| && EndedWell(s, t, deployments)
    ensures var end := GoAll(s, order);
            t < |end.txs| && end.txs[t].op == s.txs[t].op && EndedWell(end, t, deployments)
    decreases |order|
  {
    hide EndedWell, Inv, Next;
    if order != [] {
      StepKeepsInv(s, Go(order[0]));
      StepFrame(s, Go(order[0]), t);
      StepEndsWell(s, Go(order[0]), t, deployments);
      OrderEndsWell(Next(s, Go(order[0])), order[1..], t, deployments);
    }
  }

  function GoAll(s: State, order: seq<nat>): State
    decreases |order|
  {
    if order == [] then s else GoAll(Next(s, Go(order[0])), order[1..])
  }
}

/**
  The service as a whole: any number of webhook calls and worker handlers in
  flight, each advancing one step at a time in any order, over one database, one
  broker and two lossy caches, with registrations, redeliveries, reclaims and
  restarts in between.
*/
module WholeSystem {
  import opened Prelude
  import opened Money
  import opened Text
  import opened Deployments
  import opened Ledger
  import opened Notifications
  import opened Streams
  import opened Handling

  /** A call that is not alive died with its process: it never steps again. */
  datatype Call = Call(origin: Origin, n: Notification, pc: Pc, alive: bool)

  /** `accepted` remembers every notification the webhook validated, `fills`
      every route a registration may still write to the cache. */
  datatype System = System(w: World, calls: seq<Call>, accepted: set<Notification>, fills: set<Ref>)

  datatype Setup = Setup(cfg: Config, currency: Currency, defaults: Defaults)

  datatype Event =
    | Arrive(payload: Payload)
    | Run(i: nat, f: Faults)
    | StartGroup
    | HandOut
    | Reclaim(id: nat, attempt: nat)
    | Register(registration: Registration, now: int)
    | FillRef(ref: Ref)
    | EvictRef(customer: string)
    | EvictResult(reference: string)
    | Restart

  const INITIAL: System := System(World(EMPTY, map[], map[], EMPTY_STREAM), [], {}, {})

  function Next(setup: Setup, s: System, e: Event): System {
    match e
    case Arrive(payload) =>
      (match Validate(payload, setup.currency)
       case Err(_) => s
       case Ok(n) => s.(accepted := s.accepted + {n}, calls := s.calls + [Call(Webhook, n, AtResultCache, true)]))
    case Run(i, f) =>
      if i >= |s.calls| || !s.calls[i].alive then s
      else
        var c := s.calls[i];
        var (w, pc) := Step(setup.cfg, s.w, c.origin, c.n, c.pc, f);
        s.(w := w, calls := s.calls[i := c.(pc := pc)])
    case StartGroup => s.(w := s.w.(stream := EnsureGroup(s.w.stream)))
    case HandOut =>
      (match Fresh(s.w.stream)
       case None => s
       case Some(id) =>
         s.(w := s.w.(stream := Deliver(s.w.stream, id)),
            calls := s.calls + [Call(Worker(id, 1), s.w.stream.entries[id], AtDecode, true)]))
    case Reclaim(id, attempt) =>
      if !Pending(s.w.stream, id) then s
      else
        var claimed := s.(w := s.w.(stream := Claim(s.w.stream, id)));
        if id < s.w.stream.first || id >= |s.w.stream.entries| then claimed
        else claimed.(calls := s.calls + [Call(Worker(id, attempt), s.w.stream.entries[id], AtDecode, true)])
    case Register(r, now) =>
      (match Admit(r, setup.defaults, now)
       case Err(_) => s
       case Ok(input) =>
         var (db, reply) := CreateStatement(s.w.db, input, now);
         var registered := s.(w := s.w.(db := db));
         if reply.Created? then registered.(fills := s.fills + {RefOf(reply.deployment)}) else registered)
    case FillRef(ref) => if ref in s.fills then s.(w := s.w.(refs := s.w.refs[ref.customer := ref])) else s
    case EvictRef(customer) => s.(w := s.w.(refs := s.w.refs - {customer}))
    case EvictResult(reference) => s.(w := s.w.(results := s.w.results - {reference}))
    case Restart => s.(calls := seq(|s.calls|, i requires 0 <= i < |s.calls| => s.calls[i].(alive := false)))
  }

  function After(setup: Setup, s: System, events: seq<Event>): System {
    if events == [] then s else Next(setup, After(setup, s, events[..|events| - 1]), events[|events| - 1])
  }

  // ---------------------------------------------------------------- invariant

  ghost predicate CallsGood(w: World, accepted: set<Notification>, calls: seq<Call>) {
    forall i :: 0 <= i < |calls| ==> CallGood(w, accepted, calls[i].origin, calls[i].n, calls[i].pc)
  }

  /** No two calls both stored a row for the same reference. */
  ghost predicate OneWinner(calls: seq<Call>) {
    forall i, j :: 0 <= i < j < |calls| && Won(calls[i].pc) && Won(calls[j].pc) ==>
      calls[i].n.reference != calls[j].n.reference
  }

  ghost predicate FillsGood(db: Db, fills: set<Ref>) { forall ref :: ref in fills ==> RefGood(db, ref) }

  ghost predicate AllRoutable(accepted: set<Notification>) { forall n :: n in accepted ==> Routable(n) }

  ghost predicate SystemGood(s: System) {
    && AllRoutable(s.accepted)
    && WorldGood(s.w, s.accepted)
    && CallsGood(s.w, s.accepted, s.calls)
    && OneWinner(s.calls)
    && FillsGood(s.w.db, s.fills)
  }

  /** The part of the world the running calls know about grew. */
  ghost predicate Followed(s: System, s': System) {
    && SystemGood(s')
    && Grows(s.w, s'.w)
    && s.accepted <= s'.accepted
    && |s.calls| <= |s'.calls|
    && forall i :: 0 <= i < |s.calls| ==> s'.calls[i].n == s.calls[i].n && s'.calls[i].origin == s.calls[i].origin
  }

  lemma OthersStay(s: System, w': World, accepted': set<Notification>)
    requires SystemGood(s) && Grows(s.w, w') && Good(w'.db) && s.accepted <= accepted'
    ensures CallsGood(w', accepted', s.calls) && FillsGood(w'.db, s.fills)
  {
    forall i | 0 <= i < |s.calls| ensures CallGood(w', accepted', s.calls[i].origin, s.calls[i].n, s.calls[i].pc) {
      CallsStayGood(s.w, w', s.accepted, accepted', s.calls[i].origin, s.calls[i].n, s.calls[i].pc);
    }
    forall ref | ref in s.fills ensures RefGood(w'.db, ref) { RefsStayGood(s.w.db, w'.db, ref); }
  }

  /** Calls just begun have won nothing. */
  lemma CallJoins(w: World, accepted: set<Notification>, calls: seq<Call>, c: Call)
    requires CallsGood(w, accepted, calls) && OneWinner(calls)
    requires CallGood(w, accepted, c.origin, c.n, c.pc) && !Won(c.pc)
    ensures CallsGood(w, accepted, calls + [c]) && OneWinner(calls + [c])
  {
  }

  lemma RunKeepsGood(setup: Setup, s: System, i: nat, f: Faults)
    requires SystemGood(s) && i < |s.calls| && s.calls[i].alive
    ensures Followed(s, Next(setup, s, Run(i, f)))
  {
    var c := s.calls[i];
    var (w', pc') := Step(setup.cfg, s.w, c.origin, c.n, c.pc, f);
    StepKeepsGood(setup.cfg, s.w, s.accepted, c.origin, c.n, c.pc, f);
    OthersStay(s, w', s.accepted);
    if Won(pc') && !Won(c.pc) {
      WinningStoresTheRow(setup.cfg, s.w, c.origin, c.n, c.pc, f);
      forall j | 0 <= j < |s.calls| && Won(s.calls[j].pc) ensures s.calls[j].n.reference != c.n.reference {
        WinnersAreSettled(s.w, s.accepted, s.calls[j].origin, s.calls[j].n, s.calls[j].pc);
      }
    }
  }

  lemma ArriveKeepsGood(setup: Setup, s: System, payload: Payload)
    requires SystemGood(s)
    ensures Followed(s, Next(setup, s, Arrive(payload)))
  {
    ExtendsReflexive(s.w.db);
    if Validate(payload, setup.currency).Ok? {
      var n := Validate(payload, setup.currency).value;
      ValidatedIsProper(payload, setup.currency);
      var accepted := s.accepted + {n};
      OthersStay(s, s.w, accepted);
      WorldAccepts(s.w, s.accepted, accepted);
      CallJoins(s.w, accepted, s.calls, Call(Webhook, n, AtResultCache, true));
    }
  }

  lemma WorldAccepts(w: World, accepted: set<Notification>, accepted': set<Notification>)
    requires WorldGood(w, accepted) && accepted <= accepted'
    ensures WorldGood(w, accepted')
  {
    forall i | 0 <= i < |w.db.ledger| ensures RowAccepted(accepted', w.db.ledger[i]) {
      assert RowAccepted(accepted, w.db.ledger[i]);
    }
  }

  /** The broker only moved entries about. */
  lemma StreamMoved(s: System, stream: Stream)
    requires SystemGood(s)
    requires stream.entries == s.w.stream.entries && stream.dead == s.w.stream.dead && PlacesGood(stream)
    requires forall id: nat :: Acked(stream, id) ==> Acked(s.w.stream, id)
    ensures Followed(s, s.(w := s.w.(stream := stream)))
  {
    ExtendsReflexive(s.w.db);
    var w' := s.w.(stream := stream);
    assert AcksGood(w'.db, stream) by {
      forall id: nat | Acked(stream, id) ensures SettledOrDead(w'.db, stream, id) {
        assert SettledOrDead(s.w.db, s.w.stream, id);
      }
    }
    OthersStay(s, w', s.accepted);
  }

  lemma BrokerStaysPlaced(setup: Setup, s: System, e: Event)
    requires PlacesGood(s.w.stream) && (e.StartGroup? || e.HandOut? || e.Reclaim?)
    ensures var stream := Next(setup, s, e).w.stream;
            && Next(setup, s, e).w == s.w.(stream := stream)
            && stream.entries == s.w.stream.entries && stream.dead == s.w.stream.dead && PlacesGood(stream)
            && forall id: nat :: Acked(stream, id) ==> Acked(s.w.stream, id)
  {
  }

  lemma BrokerKeepsGood(setup: Setup, s: System, e: Event)
    requires SystemGood(s) && (e.StartGroup? || e.HandOut? || e.Reclaim?)
    ensures Followed(s, Next(setup, s, e))
  {
    var s' := Next(setup, s, e);
    BrokerStaysPlaced(setup, s, e);
    StreamMoved(s, s'.w.stream);
    if s'.calls != s.calls { CallJoins(s'.w, s.accepted, s.calls, s'.calls[|s.calls|]); }
  }

  lemma RegisterKeepsGood(setup: Setup, s: System, r: Registration, now: int)
    requires SystemGood(s)
    ensures Followed(s, Next(setup, s, Register(r, now)))
  {
    ExtendsReflexive(s.w.db);
    if Admit(r, setup.defaults, now).Ok? {
      var input := Admit(r, setup.defaults, now).value;
      var (db, reply) := CreateStatement(s.w.db, input, now);
      CreateKeepsGood(s.w.db, input, now);
      OldRowsStay(s.w.db, db, s.accepted);
      WorldFollowsDb(s.w, s.accepted, db);
      OthersStay(s, s.w.(db := db), s.accepted);
    }
  }

  lemma FillKeepsGood(setup: Setup, s: System, ref: Ref)
    requires SystemGood(s) && ref in s.fills
    ensures Followed(s, Next(setup, s, FillRef(ref)))
  {
    ExtendsReflexive(s.w.db);
    assert RefsGood(s.w.db, s.w.refs[ref.customer := ref]);
    OthersStay(s, Next(setup, s, FillRef(ref)).w, s.accepted);
  }

  lemma EvictKeepsGood(setup: Setup, s: System, e: Event)
    requires SystemGood(s) && (e.EvictRef? || e.EvictResult?)
    ensures Followed(s, Next(setup, s, e))
  {
    hide Step, Validate, Admit, CreateStatement;
    ExtendsReflexive(s.w.db);
    OthersStay(s, Next(setup, s, e).w, s.accepted);
  }

  lemma RestartKeepsGood(setup: Setup, s: System)
    requires SystemGood(s)
    ensures Followed(s, Next(setup, s, Restart))
  {
    ExtendsReflexive(s.w.db);
  }

  lemma NextKeepsGood(setup: Setup, s: System, e: Event)
    requires SystemGood(s)
    ensures Followed(s, Next(setup, s, e))
  {
    ExtendsReflexive(s.w.db);
    match e
    case Arrive(payload) => ArriveKeepsGood(setup, s, payload);
    case Run(i, f) => if i < |s.calls| && s.calls[i].alive { RunKeepsGood(setup, s, i, f); }
    case Register(r, now) => RegisterKeepsGood(setup, s, r, now);
    case StartGroup => BrokerKeepsGood(setup, s, e);
    case HandOut => BrokerKeepsGood(setup, s, e);
    case Reclaim(_, _) => BrokerKeepsGood(setup, s, e);
    case FillRef(ref) => if ref in s.fills { FillKeepsGood(setup, s, ref); }
    case EvictRef(_) => EvictKeepsGood(setup, s, e);
    case EvictResult(_) => EvictKeepsGood(setup, s, e);
    case Restart => RestartKeepsGood(setup, s);
  }

  lemma {:induction false} RunsKeepGood(setup: Setup, s: System, events: seq<Event>)
    requires SystemGood(s)
    ensures Followed(s, After(setup, s, events))
  {
    if events == [] {
      ExtendsReflexive(s.w.db);
    } else {
      var mid := After(setup, s, events[..|events| - 1]);
      RunsKeepGood(setup, s, events[..|events| - 1]);
      NextKeepsGood(setup, mid, events[|events| - 1]);
      GrowsTransitive(s.w, mid.w, After(setup, s, events).w);
    }
  }

  lemma InitialIsGood()
    ensures SystemGood(INITIAL)
  {
  }
}

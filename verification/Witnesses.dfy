/** Histories of a fresh service in which a bound that looks safe is broken:
    src/internal/infrastructure/queue. */
module Witnesses {
  import opened Prelude
  import opened Money
  import opened Text
  import opened AmountText
  import opened RoundTrips
  import opened Ledger
  import opened Notifications
  import opened Streams
  import opened Handling
  import opened WholeSystem
  import opened SystemLaws
  import opened Retries

  /** Nothing fails; a trim that may stop at the second entry does. */
  const CALM := Faults(0, false, false, false, false, false, false, false, Fine, Fine, 1, false, Fine, false)

  /** One payload, taken from the webhook to the stream. */
  function Taken(events: seq<Event>, i: nat, payload: Payload): seq<Event> {
    events + [Arrive(payload)] + [Run(i, CALM)] + [Run(i, CALM)]
  }

  lemma OneMore(setup: Setup, events: seq<Event>, e: Event)
    ensures Reached(setup, events + [e]) == Next(setup, Reached(setup, events), e)
  {
    assert (events + [e])[..|events|] == events;
  }

  /** Nothing about message id is lost, no process dies, and each reclaimer
      claims only when it is free. */
  ghost predicate Orderly(setup: Setup, events: seq<Event>, id: nat, owner: nat -> nat, reclaimers: nat) {
    SteadyRun(setup, events, id) && Staffed(setup, events, id, owner, reclaimers)
  }

  lemma OrderlyOneMore(setup: Setup, events: seq<Event>, e: Event, id: nat, owner: nat -> nat, reclaimers: nat)
    requires Orderly(setup, events, id, owner, reclaimers) && Steady(Reached(setup, events), e, id)
    requires ClaimerIsFree(Reached(setup, events), e, id, owner, reclaimers)
    ensures Orderly(setup, events + [e], id, owner, reclaimers)
  {
    hide Steady, ClaimerIsFree, After;
    var all := events + [e];
    forall k | 0 <= k < |all|
      ensures Steady(Reached(setup, all[..k]), all[k], id)
      ensures ClaimerIsFree(Reached(setup, all[..k]), all[k], id, owner, reclaimers)
    {
      if k < |events| {
        assert all[..k] == events[..k] && all[k] == events[k];
      } else {
        assert all[..k] == events;
      }
    }
  }

  /** Where a payload that validates as n leaves a service with a queue that has
      not cached its reference. */
  function AfterTaken(setup: Setup, s: System, n: Notification): System {
    System(s.w.(stream := Append(s.w.stream, n, setup.cfg.maxLen, 1)),
           s.calls + [Call(Webhook, n, Answered(Success(Queued, Some(Echo(n)))), true)],
           s.accepted + {n}, s.fills)
  }

  lemma TakenEnqueues(setup: Setup, events: seq<Event>, payload: Payload, n: Notification, id: nat,
      owner: nat -> nat, reclaimers: nat)
    requires setup.cfg.queued && Validate(payload, setup.currency) == Ok(n)
    requires n.reference !in Reached(setup, events).w.results && Orderly(setup, events, id, owner, reclaimers)
    ensures var i := |Reached(setup, events).calls|;
            Reached(setup, Taken(events, i, payload)) == AfterTaken(setup, Reached(setup, events), n)
            && Orderly(setup, Taken(events, i, payload), id, owner, reclaimers)
  {
    hide Validate, Reached, Append, Orderly;
    var s := Reached(setup, events);
    var i := |s.calls|;
    OneMore(setup, events, Arrive(payload));
    OrderlyOneMore(setup, events, Arrive(payload), id, owner, reclaimers);
    var arrived := events + [Arrive(payload)];
    OneMore(setup, arrived, Run(i, CALM));
    OrderlyOneMore(setup, arrived, Run(i, CALM), id, owner, reclaimers);
    var looked := arrived + [Run(i, CALM)];
    OneMore(setup, looked, Run(i, CALM));
    OrderlyOneMore(setup, looked, Run(i, CALM), id, owner, reclaimers);
  }

  lemma Started(setup: Setup, id: nat, owner: nat -> nat, reclaimers: nat)
    ensures Reached(setup, [StartGroup]) == INITIAL.(w := INITIAL.w.(stream := EnsureGroup(EMPTY_STREAM)))
    ensures Orderly(setup, [StartGroup], id, owner, reclaimers)
  {
    assert [] + [StartGroup] == [StartGroup];
    OneMore(setup, [], StartGroup);
    OrderlyOneMore(setup, [], StartGroup, id, owner, reclaimers);
  }

  // ------------------------------------------------- one hand-out too many

  /** The database cannot be read just now. */
  const BROKEN := CALM.(lookupFails := true)

  /** Handler i begins, fails and leaves its message pending. */
  function Failed(events: seq<Event>, i: nat): seq<Event> {
    events + [Run(i, BROKEN)] + [Run(i, BROKEN)] + [Run(i, BROKEN)] + [Run(i, BROKEN)]
  }

  /** A credit is taken, handed out by a worker and then claimed again each time
      its handler has failed: so many hand-outs in turn.  The n-th hand-out is
      call n. */
  function InTurnFailed(payload: Payload, handOuts: nat): seq<Event> {
    if handOuts == 0 then Taken([StartGroup], 0, payload)
    else if handOuts == 1 then Failed(InTurnFailed(payload, 0) + [HandOut], 1)
    else Failed(InTurnFailed(payload, handOuts - 1) + [Event.Reclaim(0, handOuts)], handOuts)
  }

  /** How many hand-outs come before the claims that overlap: all but the last
      attempt, or with a limit of one the worker's own. */
  function Before(maxAttempts: nat): nat { if maxAttempts <= 1 then 1 else maxAttempts - 1 }

  /** Then every reclaimer claims the message while the others are slow. */
  function Overlapping(payload: Payload, maxAttempts: nat, claims: nat): seq<Event> {
    if claims > 0 then
      Overlapping(payload, maxAttempts, claims - 1) + [Event.Reclaim(0, Before(maxAttempts) + claims)]
    else if maxAttempts <= 1 then InTurnFailed(payload, 0) + [HandOut]
    else InTurnFailed(payload, maxAttempts - 1)
  }

  /** One reclaimer makes the claims that fail in turn, and one each of those that
      overlap. */
  function Rota(maxAttempts: nat): nat -> nat {
    (i: nat) => if i <= Before(maxAttempts) then 0 else i - Before(maxAttempts) - 1
  }

  /** The message was handed out so many times; the first `ended` handlers are
      through, the others have not begun. */
  ghost predicate Piled(s: System, n: Notification, handOuts: nat, ended: nat) {
    && s.w.stream == Stream([n], 0, Some(Group(1, map[0 := handOuts], {})), [])
    && s.w.refs == map[] && Trim(n.customer) != ""
    && |s.calls| == handOuts + 1 && s.calls[0].origin == Webhook
    && forall i :: 1 <= i <= handOuts ==>
         && s.calls[i].origin == Worker(0, i) && s.calls[i].n == n && s.calls[i].alive
         && (i <= ended ==> s.calls[i].pc.Ended?)
         && (i > ended ==> s.calls[i].pc == AtDecode)
  }

  lemma {:induction false} PiledOrdinals(s: System, n: Notification, handOuts: nat, ended: nat, i: nat)
    requires Piled(s, n, handOuts, ended) && i <= handOuts
    ensures HandOuts(s.calls[..i + 1], 0) == i
    ensures i >= 1 ==> Ordinal(s.calls, i, 0) == i
    ensures i == handOuts ==> HandOuts(s.calls, 0) == handOuts
  {
    assert s.calls[..i + 1][..i] == s.calls[..i];
    if i > 0 { PiledOrdinals(s, n, handOuts, ended, i - 1); }
    assert i == handOuts ==> s.calls[..i + 1] == s.calls;
  }

  lemma WorkerReadsIt(setup: Setup, events: seq<Event>, s: System, n: Notification, owner: nat -> nat, reclaimers: nat)
    requires s == Reached(setup, events) && s == AfterTaken(setup, Reached(setup, [StartGroup]), n)
    requires Orderly(setup, events, 0, owner, reclaimers) && Trim(n.customer) != ""
    ensures Piled(Reached(setup, events + [HandOut]), n, 1, 0)
    ensures Orderly(setup, events + [HandOut], 0, owner, reclaimers)
  {
    hide Orderly, Trim, After;
    Started(setup, 0, owner, reclaimers);
    OneMore(setup, events, HandOut);
    OrderlyOneMore(setup, events, HandOut, 0, owner, reclaimers);
  }

  lemma ReclaimerClaimsIt(setup: Setup, events: seq<Event>, n: Notification, handOuts: nat, ended: nat,
      owner: nat -> nat, reclaimers: nat)
    requires handOuts >= 1 && handOuts >= ended && Piled(Reached(setup, events), n, handOuts, ended)
    requires Orderly(setup, events, 0, owner, reclaimers) && owner(handOuts + 1) < reclaimers
    requires forall i :: 1 < i <= handOuts && owner(i) == owner(handOuts + 1) ==> i <= ended
    ensures Piled(Reached(setup, events + [Event.Reclaim(0, handOuts + 1)]), n, handOuts + 1, ended)
    ensures Orderly(setup, events + [Event.Reclaim(0, handOuts + 1)], 0, owner, reclaimers)
  {
    hide Orderly, Trim, After, HandOuts;
    var s, e := Reached(setup, events), Event.Reclaim(0, handOuts + 1);
    forall i | 0 <= i < |s.calls| && Reclaimed(s.calls, i, 0) && owner(i) == owner(|s.calls|)
      ensures s.calls[i].pc.Ended?
    {
      PiledOrdinals(s, n, handOuts, ended, i);
    }
    assert map[0 := handOuts][0 := handOuts + 1] == map[0 := handOuts + 1];
    OneMore(setup, events, e);
    OrderlyOneMore(setup, events, e, 0, owner, reclaimers);
  }

  /** The four steps of a handler that cannot reach the database. */
  lemma OneStepOn(setup: Setup, events: seq<Event>, n: Notification, handOuts: nat, pc: Pc, pc': Pc,
      owner: nat -> nat, reclaimers: nat)
    requires handOuts >= 1 && |Reached(setup, events).calls| == handOuts + 1
    requires Reached(setup, events).calls[handOuts] == Call(Worker(0, handOuts), n, pc, true)
    requires var w := Reached(setup, events).w; Step(setup.cfg, w, Worker(0, handOuts), n, pc, BROKEN) == (w, pc')
    requires Orderly(setup, events, 0, owner, reclaimers)
    requires Steady(Reached(setup, events), Run(handOuts, BROKEN), 0)
    ensures var s := Reached(setup, events);
            Reached(setup, events + [Run(handOuts, BROKEN)])
              == s.(calls := s.calls[handOuts := Call(Worker(0, handOuts), n, pc', true)])
    ensures Orderly(setup, events + [Run(handOuts, BROKEN)], 0, owner, reclaimers)
  {
    hide Orderly, Steady, Step, After;
    OneMore(setup, events, Run(handOuts, BROKEN));
    OrderlyOneMore(setup, events, Run(handOuts, BROKEN), 0, owner, reclaimers);
  }

  lemma HandlerFails(setup: Setup, events: seq<Event>, n: Notification, handOuts: nat, owner: nat -> nat,
      reclaimers: nat)
    requires 1 <= handOuts < setup.cfg.maxAttempts && Piled(Reached(setup, events), n, handOuts, handOuts - 1)
    requires Orderly(setup, events, 0, owner, reclaimers)
    ensures Piled(Reached(setup, Failed(events, handOuts)), n, handOuts, handOuts)
    ensures Orderly(setup, Failed(events, handOuts), 0, owner, reclaimers)
  {
    hide Orderly, Trim, After, HandOuts;
    var i, e := handOuts, Run(handOuts, BROKEN);
    var s0 := Reached(setup, events);
    PiledOrdinals(s0, n, handOuts, handOuts - 1, i);
    OneStepOn(setup, events, n, i, AtDecode, AtResolve, owner, reclaimers);
    OneStepOn(setup, events + [e], n, i, AtResolve, AtLookup, owner, reclaimers);
    OneStepOn(setup, events + [e] + [e], n, i, AtLookup, Answered(Transient), owner, reclaimers);
    OneStepOn(setup, events + [e] + [e] + [e], n, i, Answered(Transient), Ended(Transient), owner, reclaimers);
  }

  lemma {:induction false} FailsInTurn(setup: Setup, payload: Payload, n: Notification, handOuts: nat, reclaimers: nat)
    requires setup.cfg.queued && Validate(payload, setup.currency) == Ok(n) && Trim(n.customer) != ""
    requires 1 <= handOuts < setup.cfg.maxAttempts && reclaimers >= 1
    ensures Piled(Reached(setup, InTurnFailed(payload, handOuts)), n, handOuts, handOuts)
    ensures Orderly(setup, InTurnFailed(payload, handOuts), 0, Rota(setup.cfg.maxAttempts), reclaimers)
  {
    hide Validate, Orderly, Trim, After, Piled;
    var owner := Rota(setup.cfg.maxAttempts);
    if handOuts == 1 {
      ReadOnce(setup, payload, n, owner, reclaimers);
      HandlerFails(setup, InTurnFailed(payload, 0) + [HandOut], n, 1, owner, reclaimers);
    } else {
      var before := InTurnFailed(payload, handOuts - 1);
      FailsInTurn(setup, payload, n, handOuts - 1, reclaimers);
      assert Before(setup.cfg.maxAttempts) == setup.cfg.maxAttempts - 1 >= handOuts;
      assert owner(handOuts) == 0;
      ReclaimerClaimsIt(setup, before, n, handOuts - 1, handOuts - 1, owner, reclaimers);
      HandlerFails(setup, before + [Event.Reclaim(0, handOuts)], n, handOuts, owner, reclaimers);
    }
  }

  lemma ReadOnce(setup: Setup, payload: Payload, n: Notification, owner: nat -> nat, reclaimers: nat)
    requires setup.cfg.queued && Validate(payload, setup.currency) == Ok(n) && Trim(n.customer) != ""
    ensures Piled(Reached(setup, InTurnFailed(payload, 0) + [HandOut]), n, 1, 0)
    ensures Orderly(setup, InTurnFailed(payload, 0) + [HandOut], 0, owner, reclaimers)
  {
    hide Validate, Orderly, Trim, After, Piled;
    Started(setup, 0, owner, reclaimers);
    TakenEnqueues(setup, [StartGroup], payload, n, 0, owner, reclaimers);
    var taken := InTurnFailed(payload, 0);
    WorkerReadsIt(setup, taken, Reached(setup, taken), n, owner, reclaimers);
  }

  lemma {:induction false} ClaimsPile(setup: Setup, payload: Payload, n: Notification, claims: nat, reclaimers: nat)
    requires setup.cfg.queued && Validate(payload, setup.currency) == Ok(n) && Trim(n.customer) != ""
    requires setup.cfg.maxAttempts >= 1 && claims <= reclaimers && reclaimers >= 1
    ensures var max := setup.cfg.maxAttempts;
            var ended := if max == 1 then 0 else max - 1;
            && Piled(Reached(setup, Overlapping(payload, max, claims)), n, Before(max) + claims, ended)
            && Orderly(setup, Overlapping(payload, max, claims), 0, Rota(max), reclaimers)
  {
    hide Validate, Orderly, Trim, After, Piled;
    var max := setup.cfg.maxAttempts;
    if claims > 0 {
      ClaimsPile(setup, payload, n, claims - 1, reclaimers);
      var ended := if max == 1 then 0 else max - 1;
      var before := Overlapping(payload, max, claims - 1);
      ReclaimerClaimsIt(setup, before, n, Before(max) + claims - 1, ended, Rota(max), reclaimers);
    } else if max == 1 {
      ReadOnce(setup, payload, n, Rota(max), reclaimers);
    } else {
      FailsInTurn(setup, payload, n, max - 1, reclaimers);
    }
  }

  /** Retries.ReclaimersBoundRetries cannot be improved: from a fresh service,
      for every limit and every number of reclaimers, there is a history in
      which one accepted message is handed out that often.  No process dies and
      no reply is lost; the database fails the early attempts and the handlers
      of the last ones are slow.  So two reclaimers exceed any limit, and one
      exceeds a limit of one. */
  lemma ClaimCanOverlapTheLastAttempt(setup: Setup, payload: Payload, n: Notification, reclaimers: nat)
    requires setup.cfg.queued && setup.cfg.maxAttempts >= 1 && reclaimers >= 1
    ensures Validate(payload, setup.currency) == Ok(n) ==>
              var max := setup.cfg.maxAttempts;
              var events := Overlapping(payload, max, reclaimers);
              && SteadyRun(setup, events, 0) && Staffed(setup, events, 0, Rota(max), reclaimers)
              && Reached(setup, events).w.stream.entries == [n]
              && HandOuts(Reached(setup, events).calls, 0) == MostHandOuts(max, reclaimers)
              && (HandOuts(Reached(setup, events).calls, 0) > max <==> reclaimers >= 2 || max == 1)
  {
    hide Validate, SteadyRun, Staffed, Trim, After;
    if Validate(payload, setup.currency) == Ok(n) {
      ValidatedHasCustomer(payload, setup.currency);
      ClaimsPile(setup, payload, n, reclaimers, reclaimers);
      var max := setup.cfg.maxAttempts;
      var s := Reached(setup, Overlapping(payload, max, reclaimers));
      PiledOrdinals(s, n, Before(max) + reclaimers, if max == 1 then 0 else max - 1, Before(max) + reclaimers);
    }
  }

  lemma ValidatedHasCustomer(p: Payload, default: Currency)
    ensures Validate(p, default).Ok? ==> Trim(Validate(p, default).value.customer) != ""
  {
    hide Validate;
    ValidatedIsProper(p, default);
  }

  // ------------------------------------------------------ one credit too few

  /** One credit is taken and then, before any of it is read, others. */
  function Flooded(p: Payload, q: Payload, others: nat): seq<Event> {
    if others == 0 then Taken([StartGroup], 0, p) else Taken(Flooded(p, q, others - 1), others, q)
  }

  function Repeat(n: Notification, times: nat): seq<Notification> { seq(times, _ => n) }

  ghost predicate Waterlogged(setup: Setup, s: System, first: Notification, other: Notification, others: nat) {
    && s.w.db == EMPTY && s.w.results == map[]
    && s.w.stream == Stream([first] + Repeat(other, others), if others == setup.cfg.maxLen then 1 else 0,
                            Some(Group(0, map[], {})), [])
    && |s.calls| == others + 1 && first in s.accepted
    && s.calls[0] == Call(Webhook, first, Answered(Success(Queued, Some(Echo(first)))), true)
  }

  lemma {:induction false} FloodRises(setup: Setup, p: Payload, q: Payload, first: Notification, other: Notification,
      others: nat)
    requires setup.cfg.queued && 0 < setup.cfg.maxLen && others <= setup.cfg.maxLen
    requires Validate(p, setup.currency) == Ok(first) && Validate(q, setup.currency) == Ok(other)
    ensures Waterlogged(setup, Reached(setup, Flooded(p, q, others)), first, other, others)
    ensures Orderly(setup, Flooded(p, q, others), 0, _ => 0, 1)
  {
    hide Validate, Orderly, After;
    if others == 0 {
      Started(setup, 0, _ => 0, 1);
      TakenEnqueues(setup, [StartGroup], p, first, 0, _ => 0, 1);
      assert [] + [first] == [first] + Repeat(other, 0);
    } else {
      FloodRises(setup, p, q, first, other, others - 1);
      TakenEnqueues(setup, Flooded(p, q, others - 1), q, other, 0, _ => 0, 1);
      assert [first] + Repeat(other, others - 1) + [other] == [first] + Repeat(other, others);
    }
  }

  /** The group is there, the webhook has said yes, no reply was lost, and once
      maxLen later credits have been enqueued the first is gone: no worker will
      be handed it, it is not on the dead stream, nothing settled it, and no
      other entry carries its reference. */
  lemma AcceptedCreditIsTrimmed(setup: Setup, p: Payload, q: Payload, first: Notification, other: Notification)
    requires setup.cfg.queued && setup.cfg.maxLen > 0
    ensures Validate(p, setup.currency) == Ok(first) && Validate(q, setup.currency) == Ok(other)
            && first.reference != other.reference ==>
              var s := Reached(setup, Flooded(p, q, setup.cfg.maxLen));
              && first in s.accepted
              && |s.calls| > 0 && s.calls[0].n == first && s.calls[0].pc.Answered? && s.calls[0].pc.answer.Success?
              && s.w.stream.group.Some?
              && |s.w.stream.entries| > 0 && s.w.stream.entries[0] == first
              && !Undelivered(s.w.stream, 0) && !Redeliverable(s.w.stream, 0) && 0 !in s.w.stream.dead
              && !HasRow(s.w.db, first.reference)
              && forall i :: 0 < i < |s.w.stream.entries| ==> s.w.stream.entries[i].reference != first.reference
  {
    hide Validate, SteadyRun, After;
    if Validate(p, setup.currency) == Ok(first) && Validate(q, setup.currency) == Ok(other) {
      FloodRises(setup, p, q, first, other, setup.cfg.maxLen);
    }
  }

  // --------------------------------------------------------- such payloads

  /** A credit of a hundred naira. */
  function Credit(reference: string): Notification {
    Notification("driver-1", reference, Lookup("NGN"), 100_000_000, "COMPLETE", 0)
  }

  /** Both histories have their payloads: the provider's own spelling of such a
      credit validates, under any default currency and any plain reference. */
  lemma SuchPayloadsValidate(reference: string, default: Currency)
    requires MIN_REFERENCE_LENGTH <= |reference| <= MAX_REFERENCE_LENGTH && Trimmed(reference)
    ensures Validate(Rendered(Credit(reference)), default) == Ok(Credit(reference))
  {
    hide Validate, Proper, CodeIsHarmless, Trim, Upper, Pow10;
    NairaIsKnown();
    LookupReadsBack("NGN");
    CreditIsProper(reference);
    NairaIsHarmless(100_000_000);
    ValidateUndoesRendering(Credit(reference), default);
  }

  lemma NairaIsKnown()
    ensures Lookup("NGN") == CURRENCIES["NGN"] && Trim("NGN") == "NGN" != ""
  {
    TrimOfTrimmed("NGN");
    assert Upper("NGN") == "NGN";
  }

  lemma NairaIsHarmless(amount: int)
    ensures CodeIsHarmless(amount, Lookup("NGN"))
  {
    hide Format, Fixed, Upper, Trim;
    NairaIsKnown();
    CodeIsNoPrefix("NGN", amount, Lookup("NGN"));
  }

  lemma CodeIsNoPrefix(code: string, amount: int, c: Currency)
    requires code != "" && NotNumeric(code)
    ensures !(code <= Format(amount, c))
  {
    FixedIsNumberText(RoundDiv(amount, Unit(c)), c.scale);
  }

  lemma CreditIsProper(reference: string)
    requires MIN_REFERENCE_LENGTH <= |reference| <= MAX_REFERENCE_LENGTH && Trimmed(reference)
    ensures Proper(Credit(reference))
  {
    hide Trim, Upper, Pow10;
    NairaIsKnown();
    TrimOfTrimmed(reference);
    TrimOfTrimmed("driver-1");
    CompleteIsNormal();
    HundredFits();
  }

  lemma CompleteIsNormal()
    ensures Upper(Trim("COMPLETE")) == "COMPLETE"
  {
    TrimOfTrimmed("COMPLETE");
    assert Upper("COMPLETE") == "COMPLETE";
  }

  lemma HundredFits()
    ensures 100_000_000 < Pow10(MAX_COLUMN_DIGITS) && 100_000_000 % Pow10(4) == 0
  {
    assert Pow10(4) == 10_000 by { assert Pow10(2) == 100; }
    PowAdd(4, 4);
    PowAdd(8, 16);
    PowAtLeastTen(16);
  }
}

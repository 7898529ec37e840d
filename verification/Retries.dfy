/** How often one message is handed out before it is retired:
    src/internal/infrastructure/queue/worker.go. */
module Retries {
  import opened Prelude
  import opened Ledger
  import opened Notifications
  import opened Streams
  import opened Handling
  import opened WholeSystem
  import opened SystemLaws

  predicate Hands(c: Call, id: nat) { c.origin.Worker? && c.origin.id == id }

  /** How often the message was handed out. */
  function HandOuts(calls: seq<Call>, id: nat): nat {
    if calls == [] then 0
    else HandOuts(calls[..|calls| - 1], id) + if Hands(calls[|calls| - 1], id) then 1 else 0
  }

  /** Which hand-out of the message call i is, counting from one. */
  function Ordinal(calls: seq<Call>, i: nat, id: nat): nat
    requires i <= |calls|
  {
    HandOuts(calls[..i], id) + 1
  }

  /** Call i is the max-th hand-out of the message, or a later one. */
  predicate Late(calls: seq<Call>, i: nat, id: nat, max: nat)
    requires i < |calls|
  {
    Hands(calls[i], id) && Ordinal(calls, i, id) >= max
  }

  /** How many of those handlers are still at work. */
  function LiveLate(calls: seq<Call>, id: nat, max: nat): nat {
    if calls == [] then 0
    else
      var k := |calls| - 1;
      LiveLate(calls[..k], id, max) + if Late(calls, k, id, max) && !calls[k].pc.Ended? then 1 else 0
  }

  lemma HandOutsAppend(calls: seq<Call>, c: Call, id: nat)
    ensures HandOuts(calls + [c], id) == HandOuts(calls, id) + if Hands(c, id) then 1 else 0
  {
    assert (calls + [c])[..|calls|] == calls;
  }

  lemma {:induction false} HandOutsUpdate(calls: seq<Call>, i: nat, c: Call, k: nat, id: nat)
    requires i < |calls| && k <= |calls| && Hands(calls[i], id) == Hands(c, id)
    ensures HandOuts(calls[i := c][..k], id) == HandOuts(calls[..k], id)
  {
    if k > 0 {
      HandOutsUpdate(calls, i, c, k - 1, id);
      assert calls[..k][..k - 1] == calls[..k - 1] && calls[i := c][..k][..k - 1] == calls[i := c][..k - 1];
    }
  }

  lemma {:induction false} HandOutsGrow(calls: seq<Call>, i: nat, j: nat, id: nat)
    requires i <= j <= |calls|
    ensures HandOuts(calls[..i], id) <= HandOuts(calls[..j], id)
    decreases j
  {
    if i < j {
      HandOutsGrow(calls, i, j - 1, id);
      assert calls[..j][..j - 1] == calls[..j - 1];
    }
  }

  lemma OrdinalWithinHandOuts(calls: seq<Call>, i: nat, id: nat)
    requires i < |calls| && Hands(calls[i], id)
    ensures Ordinal(calls, i, id) <= HandOuts(calls, id)
  {
    assert calls[..i + 1][..i] == calls[..i];
    HandOutsGrow(calls, i + 1, |calls|, id);
    assert calls[..|calls|] == calls;
  }

  lemma {:induction false} NoneHanded(calls: seq<Call>, id: nat)
    requires forall i :: 0 <= i < |calls| ==> !Hands(calls[i], id)
    ensures HandOuts(calls, id) == 0
  {
    if calls != [] { NoneHanded(calls[..|calls| - 1], id); }
  }

  ghost predicate LateAreLive(calls: seq<Call>, id: nat, max: nat) {
    forall i :: 0 <= i < |calls| && Late(calls, i, id, max) ==> !calls[i].pc.Ended?
  }

  /** All but the first max - 1 hand-outs are late; some of them may have
      ended. */
  lemma {:induction false} LateAreTheRest(calls: seq<Call>, id: nat, max: nat)
    requires max >= 1
    ensures LiveLate(calls, id, max) <= Max(HandOuts(calls, id) - (max - 1), 0)
    ensures LateAreLive(calls, id, max) ==> LiveLate(calls, id, max) == Max(HandOuts(calls, id) - (max - 1), 0)
  {
    if calls != [] {
      var init := calls[..|calls| - 1];
      LateAreTheRest(init, id, max);
      assert forall i :: 0 <= i < |init| ==> calls[..i] == init[..i];
    }
  }

  // ------------------------------------------------------------ steady runs

  predicate BrokerSteady(f: Faults) { f.bury.Fine? && !f.ackLost }

  /** A handler begins with the count it reads: the reclaimer's that of the
      pending list, which is one if the message was acknowledged meanwhile. */
  predicate CountRead(s: System, i: nat, id: nat)
    requires i < |s.calls| && Hands(s.calls[i], id)
  {
    Ordinal(s.calls, i, id) > 1 ==> s.calls[i].origin.attempt == AttemptOf(s.w.stream, id, false)
  }

  /** For this message the delivery count is read, the dead-letter write and the
      acknowledgement arrive, and no process dies. */
  predicate Steady(s: System, e: Event, id: nat) {
    match e
    case Run(i, f) =>
      i < |s.calls| && Hands(s.calls[i], id) ==> BrokerSteady(f) && (s.calls[i].pc.AtDecode? ==> CountRead(s, i, id))
    case Restart => false
    case _ => true
  }

  ghost predicate SteadyRun(setup: Setup, events: seq<Event>, id: nat) {
    forall k :: 0 <= k < |events| ==> Steady(Reached(setup, events[..k]), events[k], id)
  }

  /** A late handler at work will retire the message: it has read a count of
      max or more, or has yet to read it. */
  predicate WillRetire(calls: seq<Call>, i: nat, id: nat, max: nat)
    requires i < |calls| && Hands(calls[i], id)
  {
    && !calls[i].pc.Ended?
    && (calls[i].origin.attempt >= max || (calls[i].pc.AtDecode? && Ordinal(calls, i, id) > 1))
  }

  /** While the message is pending every hand-out is counted and none of the
      late ones has ended. */
  ghost predicate Counted(s: System, id: nat, max: nat) {
    && (forall i :: 0 <= i < |s.calls| && Hands(s.calls[i], id) ==>
          s.w.stream.group.Some? && id < s.w.stream.group.value.delivered)
    && (Pending(s.w.stream, id) ==>
          && Deliveries(s.w.stream, id) == HandOuts(s.calls, id) >= 1
          && forall i :: 0 <= i < |s.calls| && Late(s.calls, i, id, max) ==> WillRetire(s.calls, i, id, max))
  }

  lemma LateCallsEndAcknowledged(cfg: Config, w: World, origin: Origin, n: Notification, pc: Pc, f: Faults)
    requires origin.Worker? && origin.attempt >= cfg.maxAttempts && BrokerSteady(f) && !pc.Ended?
    requires Step(cfg, w, origin, n, pc, f).1.Ended?
    ensures !Pending(Step(cfg, w, origin, n, pc, f).0.stream, origin.id)
  {
  }

  /** A call's own steps never add to the pending list. */
  lemma StepsOnlyAck(cfg: Config, w: World, origin: Origin, n: Notification, pc: Pc, f: Faults, id: nat)
    ensures var s, s' := w.stream, Step(cfg, w, origin, n, pc, f).0.stream;
            && s'.group.Some? == s.group.Some?
            && (s.group.Some? ==> s'.group.value.delivered == s.group.value.delivered)
            && (Pending(s', id) ==> Pending(s, id) && Deliveries(s', id) == Deliveries(s, id))
  {
  }

  /** The call that moved is still going to retire the message, or has. */
  lemma MoverWillRetire(setup: Setup, s: System, i: nat, f: Faults, id: nat)
    requires Counted(s, id, setup.cfg.maxAttempts) && Steady(s, Run(i, f), id)
    requires i < |s.calls| && s.calls[i].alive && Late(s.calls, i, id, setup.cfg.maxAttempts)
    requires Pending(Next(setup, s, Run(i, f)).w.stream, id)
    ensures var c' := Next(setup, s, Run(i, f)).calls[i];
            c'.origin.attempt >= setup.cfg.maxAttempts && !c'.pc.Ended?
  {
    var c := s.calls[i];
    StepsOnlyAck(setup.cfg, s.w, c.origin, c.n, c.pc, f, id);
    assert WillRetire(s.calls, i, id, setup.cfg.maxAttempts);
    OrdinalWithinHandOuts(s.calls, i, id);
    if Step(setup.cfg, s.w, c.origin, c.n, c.pc, f).1.Ended? {
      LateCallsEndAcknowledged(setup.cfg, s.w, c.origin, c.n, c.pc, f);
    }
  }

  lemma RunStaysCounted(setup: Setup, s: System, i: nat, f: Faults, id: nat)
    requires Counted(s, id, setup.cfg.maxAttempts) && Steady(s, Run(i, f), id)
    requires i < |s.calls| && s.calls[i].alive
    ensures Counted(Next(setup, s, Run(i, f)), id, setup.cfg.maxAttempts)
    ensures HandOuts(Next(setup, s, Run(i, f)).calls, id) == HandOuts(s.calls, id)
  {
    var c, max := s.calls[i], setup.cfg.maxAttempts;
    var s' := Next(setup, s, Run(i, f));
    var c' := s'.calls[i];
    StepsOnlyAck(setup.cfg, s.w, c.origin, c.n, c.pc, f, id);
    HandOutsUpdate(s.calls, i, c', |s.calls|, id);
    assert s.calls[..|s.calls|] == s.calls && s'.calls[..|s'.calls|] == s'.calls;
    if Pending(s'.w.stream, id) {
      forall j | 0 <= j < |s'.calls| && Late(s'.calls, j, id, max) ensures WillRetire(s'.calls, j, id, max) {
        HandOutsUpdate(s.calls, i, c', j, id);
        if j == i { MoverWillRetire(setup, s, i, f, id); } else { assert WillRetire(s.calls, j, id, max); }
      }
    }
  }

  /** The earlier hand-outs keep their places when a call joins. */
  lemma OrdinalsStay(calls: seq<Call>, c: Call)
    ensures forall i :: 0 <= i < |calls| ==> (calls + [c])[..i] == calls[..i]
  {
  }

  /** Another message was handed out, or a webhook call arrived. */
  lemma OtherCallJoins(s: System, s': System, c: Call, id: nat, max: nat)
    requires Counted(s, id, max) && s'.calls == s.calls + [c] && !Hands(c, id)
    requires s.w.stream.group.Some? ==>
               s'.w.stream.group.Some? && s.w.stream.group.value.delivered <= s'.w.stream.group.value.delivered
    requires Pending(s'.w.stream, id) == Pending(s.w.stream, id)
    requires Deliveries(s'.w.stream, id) == Deliveries(s.w.stream, id)
    ensures Counted(s', id, max) && HandOuts(s'.calls, id) == HandOuts(s.calls, id)
  {
    HandOutsAppend(s.calls, c, id);
    OrdinalsStay(s.calls, c);
    forall i | 0 <= i < |s'.calls| && Late(s'.calls, i, id, max) && Pending(s'.w.stream, id)
      ensures WillRetire(s'.calls, i, id, max)
    {
      assert WillRetire(s.calls, i, id, max);
    }
  }

  /** This message was handed out once more. */
  lemma OneMoreHandOut(s: System, s': System, c: Call, id: nat, max: nat)
    requires Counted(s, id, max) && s'.calls == s.calls + [c] && Hands(c, id) && c.pc.AtDecode? && max >= 1
    requires s'.w.stream.group.Some? && id < s'.w.stream.group.value.delivered
    requires Pending(s'.w.stream, id) && Deliveries(s'.w.stream, id) == HandOuts(s.calls, id) + 1
    requires HandOuts(s.calls, id) > 0 ==> Pending(s.w.stream, id)
    requires HandOuts(s.calls, id) == 0 ==> c.origin.attempt == 1
    ensures Counted(s', id, max) && HandOuts(s'.calls, id) == HandOuts(s.calls, id) + 1
  {
    HandOutsAppend(s.calls, c, id);
    OrdinalsStay(s.calls, c);
    assert s'.calls[..|s.calls|] == s.calls;
    forall i | 0 <= i < |s'.calls| && Late(s'.calls, i, id, max) ensures WillRetire(s'.calls, i, id, max) {
      if i < |s.calls| {
        OrdinalWithinHandOuts(s.calls, i, id);
        assert WillRetire(s.calls, i, id, max);
      }
    }
  }

  lemma ClaimStaysCounted(setup: Setup, s: System, k: nat, attempt: nat, id: nat)
    requires PlacesGood(s.w.stream) && Counted(s, id, setup.cfg.maxAttempts) && setup.cfg.maxAttempts >= 1
    ensures var s' := Next(setup, s, Reclaim(k, attempt));
            && Counted(s', id, setup.cfg.maxAttempts)
            && (k == id && Redeliverable(s.w.stream, id) ==> HandOuts(s'.calls, id) == HandOuts(s.calls, id) + 1)
            && (!(k == id && Redeliverable(s.w.stream, id)) ==> HandOuts(s'.calls, id) == HandOuts(s.calls, id))
            && (HandOuts(s'.calls, id) != HandOuts(s.calls, id) ==> Pending(s'.w.stream, id))
  {
    var s', max := Next(setup, s, Reclaim(k, attempt)), setup.cfg.maxAttempts;
    if s'.calls != s.calls {
      var c := s'.calls[|s.calls|];
      if k == id { OneMoreHandOut(s, s', c, id, max); } else { OtherCallJoins(s, s', c, id, max); }
    }
  }

  lemma DeliveryStaysCounted(setup: Setup, s: System, id: nat)
    requires PlacesGood(s.w.stream) && Counted(s, id, setup.cfg.maxAttempts) && setup.cfg.maxAttempts >= 1
    ensures var s' := Next(setup, s, HandOut);
            && Counted(s', id, setup.cfg.maxAttempts)
            && HandOuts(s'.calls, id) >= HandOuts(s.calls, id)
            && (HandOuts(s'.calls, id) != HandOuts(s.calls, id) ==>
                  HandOuts(s'.calls, id) == 1 && Pending(s'.w.stream, id))
  {
    var s', max := Next(setup, s, HandOut), setup.cfg.maxAttempts;
    if Fresh(s.w.stream).Some? {
      var c := s'.calls[|s.calls|];
      if c.origin.id == id {
        NoneHanded(s.calls, id);
        OneMoreHandOut(s, s', c, id, max);
      } else {
        OtherCallJoins(s, s', c, id, max);
      }
    }
  }

  lemma ArriveStaysCounted(setup: Setup, s: System, e: Event, id: nat)
    requires Counted(s, id, setup.cfg.maxAttempts) && e.Arrive?
    ensures var s' := Next(setup, s, e);
            Counted(s', id, setup.cfg.maxAttempts) && HandOuts(s'.calls, id) == HandOuts(s.calls, id)
  {
    hide Validate;
    if Validate(e.payload, setup.currency).Ok? {
      var c := Call(Webhook, Validate(e.payload, setup.currency).value, AtResultCache, true);
      OtherCallJoins(s, Next(setup, s, e), c, id, setup.cfg.maxAttempts);
    }
  }

  /** This event is a claim that hands the message out again. */
  predicate ClaimsAgain(s: System, e: Event, id: nat) { e.Reclaim? && e.id == id && Redeliverable(s.w.stream, id) }

  lemma NextStaysCounted(setup: Setup, s: System, e: Event, id: nat)
    requires PlacesGood(s.w.stream) && Counted(s, id, setup.cfg.maxAttempts) && Steady(s, e, id)
    requires setup.cfg.maxAttempts >= 1
    ensures var s' := Next(setup, s, e);
            && Counted(s', id, setup.cfg.maxAttempts)
            && (ClaimsAgain(s, e, id) ==> HandOuts(s'.calls, id) == HandOuts(s.calls, id) + 1)
            && (!ClaimsAgain(s, e, id) ==>
                  || HandOuts(s'.calls, id) == HandOuts(s.calls, id)
                  || (HandOuts(s.calls, id) == 0 && HandOuts(s'.calls, id) == 1))
            && (HandOuts(s'.calls, id) != HandOuts(s.calls, id) ==> Pending(s'.w.stream, id))
  {
    if e.HandOut? {
      DeliveryStaysCounted(setup, s, id);
    } else if e.Reclaim? {
      ClaimStaysCounted(setup, s, e.id, e.attempt, id);
    } else if e.Run? {
      if e.i < |s.calls| && s.calls[e.i].alive { RunStaysCounted(setup, s, e.i, e.f, id); }
    } else if e.Arrive? {
      ArriveStaysCounted(setup, s, e, id);
    }
  }

  lemma SteadyPrefix(setup: Setup, events: seq<Event>, id: nat)
    requires SteadyRun(setup, events, id) && events != []
    ensures SteadyRun(setup, events[..|events| - 1], id)
    ensures Steady(Reached(setup, events[..|events| - 1]), events[|events| - 1], id)
  {
    var init := events[..|events| - 1];
    assert forall k :: 0 <= k <= |init| ==> init[..k] == events[..k];
  }

  lemma NothingIsCounted(setup: Setup, id: nat)
    ensures Counted(Reached(setup, []), id, setup.cfg.maxAttempts)
  {
  }

  lemma ReachedIsPlaced(setup: Setup, events: seq<Event>)
    ensures PlacesGood(Reached(setup, events).w.stream)
  {
    ReachedIsGood(setup, events);
  }

  lemma {:induction false} StaysCounted(setup: Setup, events: seq<Event>, id: nat)
    requires setup.cfg.maxAttempts >= 1 && SteadyRun(setup, events, id)
    ensures Counted(Reached(setup, events), id, setup.cfg.maxAttempts)
  {
    hide Counted, Steady, PlacesGood, Next;
    if events == [] {
      NothingIsCounted(setup, id);
    } else {
      var init := events[..|events| - 1];
      SteadyPrefix(setup, events, id);
      StaysCounted(setup, init, id);
      ReachedIsPlaced(setup, init);
      NextStaysCounted(setup, Reached(setup, init), events[|init|], id);
    }
  }

  /** What the last event of a steady run did to the hand-outs. */
  lemma LastEvent(setup: Setup, events: seq<Event>, id: nat)
    requires setup.cfg.maxAttempts >= 1 && SteadyRun(setup, events, id) && events != []
    ensures var init := events[..|events| - 1];
            var e, max := events[|events| - 1], setup.cfg.maxAttempts;
            var s, s' := Reached(setup, init), Reached(setup, events);
            && SteadyRun(setup, init, id)
            && (ClaimsAgain(s, e, id) ==>
                  && HandOuts(s'.calls, id) == HandOuts(s.calls, id) + 1
                  && LiveLate(s.calls, id, max) == Max(HandOuts(s.calls, id) - (max - 1), 0))
            && (!ClaimsAgain(s, e, id) ==> HandOuts(s'.calls, id) <= Max(HandOuts(s.calls, id), 1))
            && HandOuts(s.calls, id) <= HandOuts(s'.calls, id)
            && (HandOuts(s'.calls, id) != HandOuts(s.calls, id) ==>
                  LiveLate(s'.calls, id, max) == Max(HandOuts(s'.calls, id) - (max - 1), 0))
  {
    hide Steady, PlacesGood, Next;
    var init, max := events[..|events| - 1], setup.cfg.maxAttempts;
    SteadyPrefix(setup, events, id);
    StaysCounted(setup, init, id);
    StaysCounted(setup, events, id);
    ReachedIsPlaced(setup, init);
    NextStaysCounted(setup, Reached(setup, init), events[|init|], id);
    LateAreTheRest(Reached(setup, init).calls, id, max);
    LateAreTheRest(Reached(setup, events).calls, id, max);
  }

  /** At most h handlers on their last attempt hold the message at once. */
  ghost predicate AtMostAtOnce(setup: Setup, events: seq<Event>, id: nat, h: nat) {
    forall k :: 0 <= k <= |events| ==> LiveLate(Reached(setup, events[..k]).calls, id, setup.cfg.maxAttempts) <= h
  }

  lemma AtMostPrefix(setup: Setup, events: seq<Event>, id: nat, h: nat)
    requires AtMostAtOnce(setup, events, id, h) && events != []
    ensures AtMostAtOnce(setup, events[..|events| - 1], id, h)
    ensures LiveLate(Reached(setup, events).calls, id, setup.cfg.maxAttempts) <= h
  {
    hide LiveLate, After;
    var init := events[..|events| - 1];
    assert forall k :: 0 <= k <= |init| ==> init[..k] == events[..k];
    assert events[..|events|] == events;
  }

  /** The retry bound.  On a steady run a message is handed out at most
      maxAttempts - 1 + h times, where h is how many handlers on their last
      attempt ever overlap: at most maxAttempts when none do. */
  lemma {:induction false} RetriesAreBounded(setup: Setup, events: seq<Event>, id: nat, h: nat)
    requires setup.cfg.maxAttempts >= 1
    requires SteadyRun(setup, events, id) && AtMostAtOnce(setup, events, id, h)
    ensures HandOuts(Reached(setup, events).calls, id) <= setup.cfg.maxAttempts - 1 + h
    ensures h == 1 ==> HandOuts(Reached(setup, events).calls, id) <= setup.cfg.maxAttempts
  {
    hide SteadyRun, AtMostAtOnce, ClaimsAgain, LiveLate, HandOuts, After, Next;
    if events == [] {
      NothingIsClaimed(setup, id);
    } else {
      AtMostPrefix(setup, events, id, h);
      LastEvent(setup, events, id);
      RetriesAreBounded(setup, events[..|events| - 1], id, h);
    }
  }

  // -------------------------------------------------- when the bound is exact

  /** No claim hands the message out while a handler on its last attempt is
      still at work on it. */
  ghost predicate ClaimsWait(setup: Setup, events: seq<Event>, id: nat) {
    forall k :: 0 <= k < |events| && ClaimsAgain(Reached(setup, events[..k]), events[k], id) ==>
      LiveLate(Reached(setup, events[..k]).calls, id, setup.cfg.maxAttempts) == 0
  }

  lemma ClaimsWaitPrefix(setup: Setup, events: seq<Event>, id: nat)
    requires events != []
    ensures var init := events[..|events| - 1];
            ClaimsWait(setup, events, id) <==>
              && ClaimsWait(setup, init, id)
              && (ClaimsAgain(Reached(setup, init), events[|init|], id) ==>
                    LiveLate(Reached(setup, init).calls, id, setup.cfg.maxAttempts) == 0)
  {
    hide ClaimsAgain, LiveLate, After;
    var init := events[..|events| - 1];
    assert forall k :: 0 <= k <= |init| ==> init[..k] == events[..k];
    assert forall k :: 0 <= k < |init| ==> init[k] == events[k];
  }

  /** A message is handed out at most maxAttempts times exactly when every claim
      of it finds no handler on its last attempt still at work: a condition on
      the state before each claim. */
  lemma {:induction false} BoundHoldsIffClaimsWait(setup: Setup, events: seq<Event>, id: nat)
    requires setup.cfg.maxAttempts >= 1 && SteadyRun(setup, events, id)
    ensures (HandOuts(Reached(setup, events).calls, id) <= setup.cfg.maxAttempts) <==> ClaimsWait(setup, events, id)
  {
    hide Steady, SteadyRun, ClaimsWait, ClaimsAgain, Next;
    if events == [] {
      NothingIsClaimed(setup, id);
    } else {
      var init := events[..|events| - 1];
      LastEvent(setup, events, id);
      BoundHoldsIffClaimsWait(setup, init, id);
      ClaimsWaitPrefix(setup, events, id);
    }
  }

  lemma NothingIsClaimed(setup: Setup, id: nat)
    ensures ClaimsWait(setup, [], id) && HandOuts(Reached(setup, []).calls, id) == 0
  {
  }

  lemma {:induction false} HandOutsOnlyGrow(setup: Setup, events: seq<Event>, k: nat, id: nat)
    requires setup.cfg.maxAttempts >= 1 && SteadyRun(setup, events, id) && k <= |events|
    ensures HandOuts(Reached(setup, events[..k]).calls, id) <= HandOuts(Reached(setup, events).calls, id)
    decreases |events|
  {
    hide Steady, Next;
    if k == |events| {
      assert events[..k] == events;
    } else {
      var init := events[..|events| - 1];
      LastEvent(setup, events, id);
      HandOutsOnlyGrow(setup, init, k, id);
      assert init[..k] == events[..k];
    }
  }

  /** Seen from the states instead: exactly when no two handlers on their last
      attempt ever hold the message together. */
  lemma BoundHoldsIffNoOverlap(setup: Setup, events: seq<Event>, id: nat)
    requires setup.cfg.maxAttempts >= 1 && SteadyRun(setup, events, id)
    ensures (HandOuts(Reached(setup, events).calls, id) <= setup.cfg.maxAttempts) <==>
              AtMostAtOnce(setup, events, id, 1)
  {
    hide Steady, Next;
    if AtMostAtOnce(setup, events, id, 1) {
      RetriesAreBounded(setup, events, id, 1);
    } else {
      var k :| 0 <= k <= |events| && LiveLate(Reached(setup, events[..k]).calls, id, setup.cfg.maxAttempts) > 1;
      LateAreTheRest(Reached(setup, events[..k]).calls, id, setup.cfg.maxAttempts);
      HandOutsOnlyGrow(setup, events, k, id);
    }
  }

  // ------------------------------------------------- how many reclaimers

  /** Call i came from a claim, not off the stream. */
  predicate Reclaimed(calls: seq<Call>, i: nat, id: nat)
    requires i < |calls|
  {
    Late(calls, i, id, 2)
  }

  /** `owner` says which of the reclaimers made each call.  A reclaimer handles
      what it claims to the end before it claims again. */
  predicate ClaimerIsFree(s: System, e: Event, id: nat, owner: nat -> nat, reclaimers: nat) {
    ClaimsAgain(s, e, id) ==>
      && owner(|s.calls|) < reclaimers
      && forall i :: 0 <= i < |s.calls| && Reclaimed(s.calls, i, id) && owner(i) == owner(|s.calls|) ==>
           s.calls[i].pc.Ended?
  }

  ghost predicate Staffed(setup: Setup, events: seq<Event>, id: nat, owner: nat -> nat, reclaimers: nat) {
    forall k :: 0 <= k < |events| ==> ClaimerIsFree(Reached(setup, events[..k]), events[k], id, owner, reclaimers)
  }

  predicate Busy(calls: seq<Call>, i: nat, id: nat)
    requires i < |calls|
  {
    Reclaimed(calls, i, id) && !calls[i].pc.Ended?
  }

  /** No reclaimer is at work on the message twice over. */
  ghost predicate OneEach(calls: seq<Call>, id: nat, owner: nat -> nat, reclaimers: nat) {
    && (forall i :: 0 <= i < |calls| && Reclaimed(calls, i, id) ==> owner(i) < reclaimers)
    && (forall i, j :: 0 <= i < j < |calls| && Busy(calls, i, id) && Busy(calls, j, id) ==> owner(i) != owner(j))
  }

  /** The reclaimers at work on the message. */
  ghost function BusyOwners(calls: seq<Call>, id: nat, owner: nat -> nat): set<nat> {
    set i | 0 <= i < |calls| && Busy(calls, i, id) :: owner(i)
  }

  lemma {:induction false} OwnersCountTheLive(calls: seq<Call>, id: nat, owner: nat -> nat, reclaimers: nat)
    requires OneEach(calls, id, owner, reclaimers)
    ensures |BusyOwners(calls, id, owner)| == LiveLate(calls, id, 2)
  {
    if calls == [] {
      assert BusyOwners(calls, id, owner) == {};
    } else {
      var k := |calls| - 1;
      var init := calls[..k];
      PrefixIsOneEach(calls, id, owner, reclaimers);
      OwnersCountTheLive(init, id, owner, reclaimers);
      LastOwner(calls, id, owner, reclaimers);
    }
  }

  lemma PrefixesAgree(calls: seq<Call>, id: nat)
    requires calls != []
    ensures var init := calls[..|calls| - 1];
            forall i :: 0 <= i < |init| ==>
              init[i] == calls[i] && (Reclaimed(init, i, id) <==> Reclaimed(calls, i, id))
  {
    var init := calls[..|calls| - 1];
    assert forall i :: 0 <= i < |init| ==> calls[..i] == init[..i];
  }

  lemma PrefixIsOneEach(calls: seq<Call>, id: nat, owner: nat -> nat, reclaimers: nat)
    requires OneEach(calls, id, owner, reclaimers) && calls != []
    ensures OneEach(calls[..|calls| - 1], id, owner, reclaimers)
  {
    hide Late;
    PrefixesAgree(calls, id);
  }

  /** The last call adds its own reclaimer, if it is one at work. */
  lemma LastOwner(calls: seq<Call>, id: nat, owner: nat -> nat, reclaimers: nat)
    requires OneEach(calls, id, owner, reclaimers) && calls != []
    ensures var k := |calls| - 1;
            var busy := BusyOwners(calls[..k], id, owner);
            if Busy(calls, k, id) then
              BusyOwners(calls, id, owner) == busy + {owner(k)} && owner(k) !in busy
            else BusyOwners(calls, id, owner) == busy
  {
    hide Late;
    PrefixesAgree(calls, id);
  }

  lemma {:induction false} Crowd(busy: set<nat>, limit: nat)
    requires forall x :: x in busy ==> x < limit
    ensures |busy| <= limit
  {
    if limit == 0 {
      assert busy == {};
    } else {
      Crowd(busy - {limit - 1}, limit - 1);
    }
  }

  /** A claim leaves room for at most the other reclaimers. */
  lemma OthersAtMost(s: System, e: Event, id: nat, owner: nat -> nat, reclaimers: nat)
    requires OneEach(s.calls, id, owner, reclaimers) && ClaimerIsFree(s, e, id, owner, reclaimers)
    requires ClaimsAgain(s, e, id)
    ensures LiveLate(s.calls, id, 2) <= reclaimers - 1
  {
    hide Late, LiveLate;
    var busy, mine := BusyOwners(s.calls, id, owner), owner(|s.calls|);
    OwnersCountTheLive(s.calls, id, owner, reclaimers);
    assert mine !in busy;
    Crowd(busy + {mine}, reclaimers);
  }

  /** A call that moves is not brought back to work. */
  lemma MoversStayOneEach(setup: Setup, s: System, i: nat, f: Faults, id: nat, owner: nat -> nat, reclaimers: nat)
    requires OneEach(s.calls, id, owner, reclaimers) && i < |s.calls| && s.calls[i].alive
    ensures OneEach(Next(setup, s, Run(i, f)).calls, id, owner, reclaimers)
  {
    var s' := Next(setup, s, Run(i, f));
    forall j | 0 <= j < |s.calls|
      ensures Reclaimed(s'.calls, j, id) <==> Reclaimed(s.calls, j, id)
      ensures !s'.calls[j].pc.Ended? ==> !s.calls[j].pc.Ended?
    {
      HandOutsUpdate(s.calls, i, s'.calls[i], j, id);
    }
  }

  lemma JoinersStayOneEach(calls: seq<Call>, c: Call, id: nat, owner: nat -> nat, reclaimers: nat)
    requires OneEach(calls, id, owner, reclaimers)
    requires Hands(c, id) && HandOuts(calls, id) > 0 ==>
               && owner(|calls|) < reclaimers
               && forall i :: 0 <= i < |calls| && Reclaimed(calls, i, id) && owner(i) == owner(|calls|) ==>
                    calls[i].pc.Ended?
    ensures OneEach(calls + [c], id, owner, reclaimers)
  {
    var all := calls + [c];
    assert all[..|calls|] == calls;
    PrefixesAgree(all, id);
  }

  /** Only a claim hands a message out that was handed out before. */
  lemma OnlyClaimsRepeat(setup: Setup, s: System, e: Event, id: nat)
    requires PlacesGood(s.w.stream) && Counted(s, id, setup.cfg.maxAttempts) && Steady(s, e, id) && !e.Run?
    ensures var calls := Next(setup, s, e).calls;
            calls != s.calls ==>
              && |calls| == |s.calls| + 1 && calls == s.calls + [calls[|s.calls|]]
              && (Hands(calls[|s.calls|], id) && HandOuts(s.calls, id) > 0 ==> ClaimsAgain(s, e, id))
  {
    hide Validate, Admit;
    if e.HandOut? && Fresh(s.w.stream) == Some(id) { NoneHanded(s.calls, id); }
  }

  lemma NextStaysOneEach(setup: Setup, s: System, e: Event, id: nat, owner: nat -> nat, reclaimers: nat)
    requires PlacesGood(s.w.stream) && Counted(s, id, setup.cfg.maxAttempts) && Steady(s, e, id)
    requires OneEach(s.calls, id, owner, reclaimers) && ClaimerIsFree(s, e, id, owner, reclaimers)
    ensures OneEach(Next(setup, s, e).calls, id, owner, reclaimers)
  {
    hide PlacesGood, Counted, OneEach, ClaimsAgain, Late, LiveLate, HandOuts, Step, Validate, Admit;
    var s' := Next(setup, s, e);
    if e.Run? {
      if e.i < |s.calls| && s.calls[e.i].alive { MoversStayOneEach(setup, s, e.i, e.f, id, owner, reclaimers); }
    } else {
      OnlyClaimsRepeat(setup, s, e, id);
      if s'.calls != s.calls { JoinersStayOneEach(s.calls, s'.calls[|s.calls|], id, owner, reclaimers); }
    }
  }

  lemma StaffedPrefix(setup: Setup, events: seq<Event>, id: nat, owner: nat -> nat, reclaimers: nat)
    requires Staffed(setup, events, id, owner, reclaimers) && events != []
    ensures var init := events[..|events| - 1];
            && Staffed(setup, init, id, owner, reclaimers)
            && ClaimerIsFree(Reached(setup, init), events[|init|], id, owner, reclaimers)
  {
    hide ClaimerIsFree, After;
    var init := events[..|events| - 1];
    assert forall k :: 0 <= k <= |init| ==> init[..k] == events[..k];
    assert forall k :: 0 <= k < |init| ==> init[k] == events[k];
  }

  lemma {:induction false} StaysOneEach(setup: Setup, events: seq<Event>, id: nat, owner: nat -> nat, reclaimers: nat)
    requires setup.cfg.maxAttempts >= 1 && SteadyRun(setup, events, id)
    requires Staffed(setup, events, id, owner, reclaimers)
    ensures OneEach(Reached(setup, events).calls, id, owner, reclaimers)
  {
    hide Counted, Steady, PlacesGood, Next, OneEach, ClaimerIsFree, Staffed, SteadyRun;
    if events == [] {
      NobodyIsBusy(setup, id, owner, reclaimers);
    } else {
      var init := events[..|events| - 1];
      SteadyPrefix(setup, events, id);
      StaffedPrefix(setup, events, id, owner, reclaimers);
      StaysOneEach(setup, init, id, owner, reclaimers);
      StaysCounted(setup, init, id);
      ReachedIsPlaced(setup, init);
      NextStaysOneEach(setup, Reached(setup, init), events[|init|], id, owner, reclaimers);
    }
  }

  lemma NobodyIsBusy(setup: Setup, id: nat, owner: nat -> nat, reclaimers: nat)
    ensures OneEach(Reached(setup, []).calls, id, owner, reclaimers)
  {
  }

  /** Past the first hand-out, whoever is late was reclaimed. */
  lemma {:induction false} LateWereReclaimed(calls: seq<Call>, id: nat, max: nat)
    requires max >= 1
    ensures max >= 2 ==> LiveLate(calls, id, max) <= LiveLate(calls, id, 2)
    ensures LiveLate(calls, id, max) <= LiveLate(calls, id, 2) + Min(HandOuts(calls, id), 1)
  {
    if calls != [] { LateWereReclaimed(calls[..|calls| - 1], id, max); }
  }

  /** The most hand-outs so many reclaimers can bring about: the limit for one of
      them, and one more for each further one.  A limit of one cannot hold even
      one of them off, for the worker that read the message may still be at
      work on it. */
  function MostHandOuts(maxAttempts: nat, reclaimers: nat): nat {
    if maxAttempts <= 1 then 1 + reclaimers else maxAttempts - 1 + reclaimers
  }

  /** The retry bound by the number of reclaimers: one to each process. */
  lemma {:induction false} ReclaimersBoundRetries(setup: Setup, events: seq<Event>, id: nat, owner: nat -> nat,
      reclaimers: nat)
    requires setup.cfg.maxAttempts >= 1 && reclaimers >= 1
    requires SteadyRun(setup, events, id) && Staffed(setup, events, id, owner, reclaimers)
    ensures HandOuts(Reached(setup, events).calls, id) <= MostHandOuts(setup.cfg.maxAttempts, reclaimers)
  {
    hide Steady, SteadyRun, Staffed, OneEach, ClaimsAgain, ClaimerIsFree, LiveLate, HandOuts, After, Next;
    if events == [] {
      NothingIsClaimed(setup, id);
    } else {
      var init := events[..|events| - 1];
      var s, e := Reached(setup, init), events[|init|];
      SteadyPrefix(setup, events, id);
      StaffedPrefix(setup, events, id, owner, reclaimers);
      LastEvent(setup, events, id);
      ReclaimersBoundRetries(setup, init, id, owner, reclaimers);
      if ClaimsAgain(s, e, id) {
        StaysOneEach(setup, init, id, owner, reclaimers);
        OthersAtMost(s, e, id, owner, reclaimers);
        LateWereReclaimed(s.calls, id, setup.cfg.maxAttempts);
      }
    }
  }

  /** What MaxAttempts promises, a process by itself keeps: with its one
      reclaimer and a limit of two or more, no message is handed out more often
      than the limit. */
  lemma OneProcessKeepsTheBound(setup: Setup, events: seq<Event>, id: nat)
    requires setup.cfg.maxAttempts >= 2
    requires SteadyRun(setup, events, id) && Staffed(setup, events, id, _ => 0, 1)
    ensures HandOuts(Reached(setup, events).calls, id) <= setup.cfg.maxAttempts
    ensures ClaimsWait(setup, events, id)
  {
    hide SteadyRun, Staffed, ClaimsWait, HandOuts;
    ReclaimersBoundRetries(setup, events, id, _ => 0, 1);
    BoundHoldsIffClaimsWait(setup, events, id);
  }

  /** A transient failure on the last attempt retires the message: dead-lettered
      and acknowledged.  Earlier, it is left pending for the reclaimer. */
  lemma LastFailureRetires(cfg: Config, w: World, id: nat, attempt: nat, n: Notification, f: Faults)
    requires BrokerSteady(f)
    ensures var (w', pc') := Alone(cfg, w, Worker(id, attempt), n, Answered(Transient), f);
            if attempt >= cfg.maxAttempts then
              pc' == Ended(Transient) && id in w'.stream.dead && !Pending(w'.stream, id)
            else (w', pc') == (w, Ended(Transient))
  {
    var origin := Worker(id, attempt);
    if attempt >= cfg.maxAttempts {
      var buried := w.(stream := Bury(w.stream, id));
      var acked := buried.(stream := Ack(buried.stream, id));
      assert Step(cfg, w, origin, n, Answered(Transient), f) == (w, AtDeadLetter(Transient));
      assert Step(cfg, w, origin, n, AtDeadLetter(Transient), f) == (buried, AtAck(Transient));
      assert Step(cfg, buried, origin, n, AtAck(Transient), f) == (acked, Ended(Transient));
      assert Alone(cfg, buried, origin, n, AtAck(Transient), f) == (acked, Ended(Transient));
      assert Alone(cfg, w, origin, n, AtDeadLetter(Transient), f) == (acked, Ended(Transient));
      assert buried.stream.dead[|w.stream.dead|] == id;
    } else {
      assert Step(cfg, w, origin, n, Answered(Transient), f) == (w, Ended(Transient));
    }
  }
}

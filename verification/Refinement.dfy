/** The methods and the whole-system machine are the same service: whatever a
    sequence of method calls does to the world, some run of the machine does
    too, so every law about all runs speaks about them. */
module Refinement {
  import opened Prelude
  import opened Ledger
  import opened Notifications
  import opened Streams
  import opened Handling
  import opened WholeSystem
  import opened SystemLaws
  import opened Services
  import opened Workers
  import opened QueueLaws

  /** One method call on the objects that share a world. */
  datatype Invocation =
    | Accept(payload: Payload, f: Faults)
    | Create(registration: Registration, f: Faults)
    | EnsureGroup
    | Run(polls: seq<Poll>)
    | Reclaim(ticks: seq<Tick>)

  /** What each method's contract says it does to the world. */
  function Performed(setup: Setup, sizes: Sizes, w: World, invocation: Invocation): World {
    match invocation
    case Accept(payload, f) =>
      (match Validate(payload, setup.currency)
       case Err(_) => w
       case Ok(n) => Alone(setup.cfg, w, Webhook, n, AtResultCache, f).0)
    case Create(registration, f) =>
      var (db, refs) := Registered(w.db, w.refs, setup.defaults, registration, f);
      w.(db := db, refs := refs)
    case EnsureGroup => w.(stream := Streams.EnsureGroup(w.stream))
    case Run(polls) => PolledAll(setup.cfg, sizes, w, polls)
    case Reclaim(ticks) => TickedAll(setup.cfg, sizes, w, ticks).0
  }

  function PerformedAll(setup: Setup, sizes: Sizes, w: World, invocations: seq<Invocation>): World {
    if invocations == [] then w
    else
      var k := |invocations| - 1;
      Performed(setup, sizes, PerformedAll(setup, sizes, w, invocations[..k]), invocations[k])
  }

  // -------------------------------------------------------------- runs compose

  lemma {:induction false} AfterConcat(setup: Setup, s: System, a: seq<Event>, b: seq<Event>)
    ensures After(setup, s, a + b) == After(setup, After(setup, s, a), b)
  {
    if b == [] {
      assert a + b == a;
    } else {
      var k := |b| - 1;
      assert (a + b)[..|a + b| - 1] == a + b[..k];
      AfterConcat(setup, s, a, b[..k]);
    }
  }

  lemma OneEvent(setup: Setup, s: System, e: Event)
    ensures After(setup, s, [e]) == Next(setup, s, e)
  {
    assert [e][..0] == [];
    assert After(setup, s, []) == s;
  }

  lemma Then(setup: Setup, s: System, e: Event, rest: seq<Event>)
    ensures After(setup, s, [e] + rest) == After(setup, Next(setup, s, e), rest)
  {
    AfterConcat(setup, s, [e], rest);
    OneEvent(setup, s, e);
  }

  /** A call left to run by itself does what it does alone. */
  lemma {:induction false} CallRuns(setup: Setup, s: System, i: nat, f: Faults) returns (events: seq<Event>)
    requires i < |s.calls| && s.calls[i].alive
    ensures var c := s.calls[i];
            var (w, pc) := Alone(setup.cfg, s.w, c.origin, c.n, c.pc, f);
            After(setup, s, events) == s.(w := w, calls := s.calls[i := c.(pc := pc)])
    decreases StepsLeft(s.calls[i].pc)
  {
    var c := s.calls[i];
    if Over(c.origin, c.pc) {
      events := [];
      assert s.calls[i := c] == s.calls;
    } else {
      StepsDescend(setup.cfg, s.w, c.origin, c.n, c.pc, f);
      var e := Event.Run(i, f);
      var s' := Next(setup, s, e);
      var rest := CallRuns(setup, s', i, f);
      events := [e] + rest;
      Then(setup, s, e, rest);
      var pc := Alone(setup.cfg, s.w, c.origin, c.n, c.pc, f).1;
      assert s'.calls[i := c.(pc := pc)] == s.calls[i := c.(pc := pc)];
    }
  }

  // -------------------------------------------------------------- the methods

  lemma AcceptRuns(setup: Setup, sizes: Sizes, s: System, payload: Payload, f: Faults) returns (events: seq<Event>)
    ensures After(setup, s, events).w == Performed(setup, sizes, s.w, Accept(payload, f))
  {
    hide Validate;
    events := [];
    if Validate(payload, setup.currency).Ok? {
      var e := Arrive(payload);
      var s' := Next(setup, s, e);
      var rest := CallRuns(setup, s', |s.calls|, f);
      events := [e] + rest;
      Then(setup, s, e, rest);
    }
  }

  lemma CreateRuns(setup: Setup, sizes: Sizes, s: System, r: Registration, f: Faults) returns (events: seq<Event>)
    ensures After(setup, s, events).w == Performed(setup, sizes, s.w, Create(r, f))
  {
    events := [];
    if Admit(r, setup.defaults, f.now).Ok? && !f.write.Lost? {
      var e := Register(r, f.now);
      var s' := Next(setup, s, e);
      events := [e];
      OneEvent(setup, s, e);
      var reply := CreateStatement(s.w.db, Admit(r, setup.defaults, f.now).value, f.now).1;
      if reply.Created? && f.write.Fine? && !f.refSetLost {
        var fill := FillRef(RefOf(reply.deployment));
        events := [e] + [fill];
        Then(setup, s, e, [fill]);
        OneEvent(setup, s', fill);
      }
    }
  }

  /** Calls k to k + |ids| are live workers about to decode those entries. */
  ghost predicate Waiting(s: System, k: nat, ids: seq<nat>, attempts: seq<nat>) {
    && k + |ids| <= |s.calls| && |attempts| == |ids|
    && forall j :: 0 <= j < |ids| ==>
         ids[j] < |s.w.stream.entries|
         && s.calls[k + j] == Call(Worker(ids[j], attempts[j]), s.w.stream.entries[ids[j]], AtDecode, true)
  }

  /** From s to s' the broker handed these entries to handlers that now wait. */
  ghost predicate HandedOut(s: System, s': System, stream: Stream, ids: seq<nat>, attempts: seq<nat>) {
    && s'.w == s.w.(stream := stream) && stream.entries == s.w.stream.entries
    && |s'.calls| == |s.calls| + |ids|
    && Waiting(s', |s.calls|, ids, attempts)
    && forall j :: 0 <= j < |s.calls| ==> s'.calls[j] == s.calls[j]
  }

  /** One hand-out, then the rest. */
  lemma HandOutsJoin(s: System, s1: System, s': System, stream1: Stream, stream: Stream, id: nat, attempt: nat,
      ids: seq<nat>, attempts: seq<nat>)
    requires s1.w == s.w.(stream := stream1) && stream1.entries == s.w.stream.entries && id < |stream1.entries|
    requires s1.calls == s.calls + [Call(Worker(id, attempt), stream1.entries[id], AtDecode, true)]
    requires HandedOut(s1, s', stream, ids, attempts)
    ensures HandedOut(s, s', stream, [id] + ids, [attempt] + attempts)
  {
    var k, all, counts := |s.calls|, [id] + ids, [attempt] + attempts;
    forall j | 0 <= j < |all|
      ensures all[j] < |s'.w.stream.entries|
      ensures s'.calls[k + j] == Call(Worker(all[j], counts[j]), s'.w.stream.entries[all[j]], AtDecode, true)
    {
      if j == 0 { assert s'.calls[k] == s1.calls[k]; }
      else { assert s'.calls[(k + 1) + (j - 1)] == s'.calls[k + j]; }
    }
    forall j | 0 <= j < k ensures s'.calls[j] == s.calls[j] { assert s'.calls[j] == s1.calls[j]; }
  }

  function Ones(n: nat): (r: seq<nat>)
    ensures |r| == n
  {
    seq(n, _ => 1)
  }

  lemma {:induction false} ReadRuns(setup: Setup, s: System, count: nat) returns (events: seq<Event>)
    ensures var (stream, ids) := ReadGroup(s.w.stream, count);
            HandedOut(s, After(setup, s, events), stream, ids, Ones(|ids|))
    decreases count
  {
    hide Next, After, HandedOut, Waiting;
    events := [];
    if count == 0 || Fresh(s.w.stream).None? {
      NothingHandedOut(setup, s);
    } else {
      var id := Fresh(s.w.stream).value;
      var s1 := ReadHandsOut(setup, s, id);
      var rest := ReadRuns(setup, s1, count - 1);
      events := [HandOut] + rest;
      Then(setup, s, HandOut, rest);
      var (stream, ids) := ReadGroup(s1.w.stream, count - 1);
      HandOutsJoin(s, s1, After(setup, s1, rest), s1.w.stream, stream, id, 1, ids, Ones(|ids|));
      assert Ones(|ids| + 1) == [1] + Ones(|ids|);
    }
  }

  lemma ReadHandsOut(setup: Setup, s: System, id: nat) returns (s': System)
    requires Fresh(s.w.stream) == Some(id)
    ensures s' == Next(setup, s, HandOut)
    ensures var stream := Deliver(s.w.stream, id);
            && s'.w == s.w.(stream := stream) && stream.entries == s.w.stream.entries && id < |stream.entries|
            && s'.calls == s.calls + [Call(Worker(id, 1), stream.entries[id], AtDecode, true)]
  {
    s' := Next(setup, s, HandOut);
  }

  /** The waiting handlers, run one after the other with these faults. */
  function InTurn(cfg: Config, w: World, ids: seq<nat>, attempts: seq<nat>, faults: nat -> Faults): World
    requires |attempts| == |ids|
  {
    if ids == [] then w
    else
      var k := |ids| - 1;
      Handled(cfg, InTurn(cfg, w, ids[..k], attempts[..k], faults), ids[k], attempts[k], faults(k))
  }

  lemma {:induction false} HandlersRun(setup: Setup, s: System, k: nat, ids: seq<nat>, attempts: seq<nat>,
      faults: nat -> Faults)
    returns (events: seq<Event>)
    requires Waiting(s, k, ids, attempts)
    ensures var s' := After(setup, s, events);
            && s'.w == InTurn(setup.cfg, s.w, ids, attempts, faults)
            && s'.w.stream.entries == s.w.stream.entries
            && |s'.calls| == |s.calls|
            && forall j :: k + |ids| <= j < |s.calls| ==> s'.calls[j] == s.calls[j]
    decreases |ids|
  {
    hide Alone, After;
    if ids == [] {
      events := [];
      NothingHandedOut(setup, s);
    } else {
      var last := |ids| - 1;
      var first := HandlersRun(setup, s, k, ids[..last], attempts[..last], faults);
      var mid := After(setup, s, first);
      var origin := Worker(ids[last], attempts[last]);
      assert s.calls[k + last] == Call(origin, s.w.stream.entries[ids[last]], AtDecode, true);
      var rest := CallRuns(setup, mid, k + last, faults(last));
      events := first + rest;
      AfterConcat(setup, s, first, rest);
      var c := mid.calls[k + last];
      AloneIsQuiet(setup.cfg, mid.w, c.origin, c.n, c.pc, faults(last));
    }
  }

  lemma {:induction false} FreshInTurn(cfg: Config, w: World, ids: seq<nat>, faults: nat -> Faults)
    ensures InTurn(cfg, w, ids, Ones(|ids|), faults) == HandledFresh(cfg, w, ids, faults)
  {
    if ids != [] {
      var k := |ids| - 1;
      assert Ones(|ids|)[..k] == Ones(k);
      FreshInTurn(cfg, w, ids[..k], faults);
    }
  }

  lemma PollRuns(setup: Setup, sizes: Sizes, s: System, poll: Poll) returns (events: seq<Event>)
    ensures After(setup, s, events).w == Polled(setup.cfg, sizes, s.w, poll)
  {
    if poll.read.Lost? {
      events := [];
    } else {
      events := ReadRuns(setup, s, sizes.batch);
      if poll.read.Fine? {
        var s', ids := After(setup, s, events), ReadGroup(s.w.stream, sizes.batch).1;
        var rest := HandlersRun(setup, s', |s.calls|, ids, Ones(|ids|), poll.faults);
        FreshInTurn(setup.cfg, s'.w, ids, poll.faults);
        AfterConcat(setup, s, events, rest);
        events := events + rest;
      }
    }
  }

  lemma {:induction false} PollsRun(setup: Setup, sizes: Sizes, s: System, polls: seq<Poll>)
      returns (events: seq<Event>)
    ensures After(setup, s, events).w == PolledAll(setup.cfg, sizes, s.w, polls)
  {
    if polls == [] {
      events := [];
    } else {
      var first := PollsRun(setup, sizes, s, polls[..|polls| - 1]);
      var rest := PollRuns(setup, sizes, After(setup, s, first), polls[|polls| - 1]);
      events := first + rest;
      AfterConcat(setup, s, first, rest);
    }
  }

  /** Claimed entries become waiting handlers, told whatever count they will
      read. */
  lemma {:induction false} ClaimRuns(setup: Setup, s: System, p: nat, sizes: Sizes, idle: set<nat>, attempts: seq<nat>)
    returns (events: seq<Event>)
    requires PlacesGood(s.w.stream)
    requires |attempts| == |AutoClaim(s.w.stream, p, sizes.batch, sizes.budget, idle).1|
    ensures var (stream, ids, next) := AutoClaim(s.w.stream, p, sizes.batch, sizes.budget, idle);
            HandedOut(s, After(setup, s, events), stream, ids, attempts)
    decreases sizes.budget
  {
    hide Next, After, HandedOut, Waiting, PlacesGood;
    var st := s.w.stream;
    events := [];
    if st.group.None? || NextPending(st, p).None? || sizes.batch == 0 || sizes.budget == 0 {
      NothingHandedOut(setup, s);
    } else {
      var id := NextPending(st, p).value;
      NextPendingIsFirst(st, p);
      if id < st.first {
        var s1 := ClaimDrops(setup, s, id);
        var rest := ClaimRuns(setup, s1, id + 1, Sizes(sizes.batch - 1, sizes.budget - 1), idle, attempts);
        events := [Event.Reclaim(id, 0)] + rest;
        Then(setup, s, Event.Reclaim(id, 0), rest);
        var (stream, ids, next) := AutoClaim(s1.w.stream, id + 1, sizes.batch - 1, sizes.budget - 1, idle);
        DropJoins(s, s1, After(setup, s1, rest), stream, ids, attempts);
      } else if id !in idle {
        events := ClaimRuns(setup, s, id + 1, Sizes(sizes.batch, sizes.budget - 1), idle, attempts);
      } else {
        var s1 := ClaimHandsOut(setup, s, id, attempts[0]);
        var rest := ClaimRuns(setup, s1, id + 1, Sizes(sizes.batch - 1, sizes.budget - 1), idle, attempts[1..]);
        events := [Event.Reclaim(id, attempts[0])] + rest;
        Then(setup, s, Event.Reclaim(id, attempts[0]), rest);
        var (stream, ids, next) := AutoClaim(s1.w.stream, id + 1, sizes.batch - 1, sizes.budget - 1, idle);
        HandOutsJoin(s, s1, After(setup, s1, rest), s1.w.stream, stream, id, attempts[0], ids, attempts[1..]);
        assert [attempts[0]] + attempts[1..] == attempts;
      }
    }
  }

  lemma NothingHandedOut(setup: Setup, s: System)
    ensures After(setup, s, []) == s && HandedOut(s, s, s.w.stream, [], [])
  {
  }

  /** A trimmed entry is dropped and the rest goes on. */
  lemma DropJoins(s: System, s1: System, s': System, stream: Stream, ids: seq<nat>, attempts: seq<nat>)
    requires s1.w == s.w.(stream := s1.w.stream) && s1.w.stream.entries == s.w.stream.entries && s1.calls == s.calls
    requires HandedOut(s1, s', stream, ids, attempts)
    ensures HandedOut(s, s', stream, ids, attempts)
  {
  }

  lemma ClaimDrops(setup: Setup, s: System, id: nat) returns (s': System)
    requires PlacesGood(s.w.stream) && Pending(s.w.stream, id) && id < s.w.stream.first
    ensures s' == Next(setup, s, Event.Reclaim(id, 0))
    ensures var stream := Claim(s.w.stream, id);
            && s'.w == s.w.(stream := stream) && stream.entries == s.w.stream.entries
            && PlacesGood(stream) && s'.calls == s.calls
  {
    ClaimStaysPlaced(s.w.stream, id);
    s' := Next(setup, s, Event.Reclaim(id, 0));
  }

  lemma ClaimHandsOut(setup: Setup, s: System, id: nat, attempt: nat) returns (s': System)
    requires PlacesGood(s.w.stream) && Pending(s.w.stream, id) && id >= s.w.stream.first
    ensures s' == Next(setup, s, Event.Reclaim(id, attempt))
    ensures var stream := Claim(s.w.stream, id);
            && s'.w == s.w.(stream := stream) && stream.entries == s.w.stream.entries && id < |stream.entries|
            && PlacesGood(stream)
            && s'.calls == s.calls + [Call(Worker(id, attempt), stream.entries[id], AtDecode, true)]
  {
    ClaimStaysPlaced(s.w.stream, id);
    s' := Next(setup, s, Event.Reclaim(id, attempt));
  }

  lemma ClaimStaysPlaced(s: Stream, id: nat)
    requires PlacesGood(s) && Pending(s, id)
    ensures PlacesGood(Claim(s, id)) && id < |s.entries|
  {
  }

  /** The counts a batch will read, each when its turn comes. */
  function Attempts(cfg: Config, w: World, ids: seq<nat>, tick: Tick): (r: seq<nat>)
    ensures |r| == |ids|
  {
    if ids == [] then []
    else
      var k := |ids| - 1;
      Attempts(cfg, w, ids[..k], tick)
      + [AttemptOf(HandledAgain(cfg, w, ids[..k], tick).stream, ids[k], tick.countFails(k))]
  }

  lemma {:induction false} AgainInTurn(cfg: Config, w: World, ids: seq<nat>, tick: Tick)
    ensures InTurn(cfg, w, ids, Attempts(cfg, w, ids, tick), tick.faults) == HandledAgain(cfg, w, ids, tick)
  {
    if ids != [] {
      var k := |ids| - 1;
      assert Attempts(cfg, w, ids, tick)[..k] == Attempts(cfg, w, ids[..k], tick);
      AgainInTurn(cfg, w, ids[..k], tick);
    }
  }

  lemma TickRuns(setup: Setup, sizes: Sizes, s: System, cursor: nat, tick: Tick) returns (events: seq<Event>)
    requires PlacesGood(s.w.stream)
    ensures After(setup, s, events).w == Ticked(setup.cfg, sizes, s.w, cursor, tick).0
  {
    if tick.claim.Lost? {
      events := [];
    } else {
      var (stream, ids, next) := AutoClaim(s.w.stream, cursor, sizes.batch, sizes.budget, tick.idle);
      var attempts := Attempts(setup.cfg, s.w.(stream := stream), ids, tick);
      events := ClaimRuns(setup, s, cursor, sizes, tick.idle, attempts);
      if tick.claim.Fine? {
        var s' := After(setup, s, events);
        var rest := HandlersRun(setup, s', |s.calls|, ids, attempts, tick.faults);
        AgainInTurn(setup.cfg, s'.w, ids, tick);
        AfterConcat(setup, s, events, rest);
        events := events + rest;
      }
    }
  }

  lemma {:induction false} TicksRun(setup: Setup, sizes: Sizes, s: System, ticks: seq<Tick>)
      returns (events: seq<Event>)
    requires SystemGood(s)
    ensures After(setup, s, events).w == TickedAll(setup.cfg, sizes, s.w, ticks).0
  {
    if ticks == [] {
      events := [];
    } else {
      var k := |ticks| - 1;
      var first := TicksRun(setup, sizes, s, ticks[..k]);
      RunsKeepGood(setup, s, first);
      var cursor := TickedAll(setup.cfg, sizes, s.w, ticks[..k]).1;
      var rest := TickRuns(setup, sizes, After(setup, s, first), cursor, ticks[k]);
      events := first + rest;
      AfterConcat(setup, s, first, rest);
    }
  }

  lemma InvocationRuns(setup: Setup, sizes: Sizes, s: System, invocation: Invocation) returns (events: seq<Event>)
    requires SystemGood(s)
    ensures After(setup, s, events).w == Performed(setup, sizes, s.w, invocation)
  {
    match invocation
    case Accept(payload, f) => events := AcceptRuns(setup, sizes, s, payload, f);
    case Create(registration, f) => events := CreateRuns(setup, sizes, s, registration, f);
    case EnsureGroup =>
      events := [StartGroup];
      OneEvent(setup, s, StartGroup);
    case Run(polls) => events := PollsRun(setup, sizes, s, polls);
    case Reclaim(ticks) => events := TicksRun(setup, sizes, s, ticks);
  }

  /** Every sequence of method calls on a new service is a run of the machine:
      all of SystemLaws holds of the world it leaves. */
  lemma {:induction false} ProgramsAreRuns(setup: Setup, sizes: Sizes, invocations: seq<Invocation>)
      returns (events: seq<Event>)
    ensures Reached(setup, events).w == PerformedAll(setup, sizes, INITIAL.w, invocations)
  {
    if invocations == [] {
      events := [];
    } else {
      var k := |invocations| - 1;
      var first := ProgramsAreRuns(setup, sizes, invocations[..k]);
      ReachedIsGood(setup, first);
      var rest := InvocationRuns(setup, sizes, Reached(setup, first), invocations[k]);
      events := first + rest;
      AfterConcat(setup, INITIAL, first, rest);
    }
  }

  /** For instance: whatever is called in whatever order, all balances together
      are all applied amounts together, and every balance is its ledger's. */
  lemma ProgramsKeepTheBooks(setup: Setup, sizes: Sizes, invocations: seq<Invocation>, id: nat)
    ensures var db := PerformedAll(setup, sizes, INITIAL.w, invocations).db;
            && PaidOnAll(db.deployments) == AppliedAmounts(db.ledger)
            && (id < |db.deployments| ==> db.deployments[id].amountPaid == PaidTo(db.ledger, id))
  {
    var events := ProgramsAreRuns(setup, sizes, invocations);
    BooksBalance(setup, events);
    ReachedIsGood(setup, events);
    var db := Reached(setup, events).w.db;
    assert id < |db.deployments| ==> PositionGood(db, id);
  }
}

/** What the two consumer loops achieve: no entry is skipped, and healthy turns
    leave nothing behind. */
module QueueLaws {
  import opened Prelude
  import opened Ledger
  import opened Notifications
  import opened Streams
  import opened Handling
  import opened HandlingLaws
  import WholeSystem
  import opened Workers

  // ------------------------------------------------------- broker commands

  function NextEntry(s: Stream): nat { Max(Delivered(s), s.first) }

  /** A read hands out the next entries in stream order, skipping none. */
  lemma {:induction false} BatchIsTheNextEntries(s: Stream, count: nat)
    requires s.group.Some? && PlacesGood(s)
    ensures var (s', ids) := ReadGroup(s, count);
            && |ids| == Min(count, Max(|s.entries| - NextEntry(s), 0))
            && (forall k :: 0 <= k < |ids| ==> ids[k] == NextEntry(s) + k)
            && PlacesGood(s')
            && s' == s.(group := s'.group) && s'.group.Some? && s'.group.value.acked == s.group.value.acked
            && (ids != [] ==> Delivered(s') == NextEntry(s) + |ids|)
            && (ids == [] ==> s' == s)
    decreases count
  {
    if count > 0 && Fresh(s).Some? { BatchIsTheNextEntries(Deliver(s, Fresh(s).value), count - 1); }
  }

  /** Exactly those become pending, each for the first time. */
  lemma {:induction false} BatchIsPending(s: Stream, count: nat, id: nat)
    requires s.group.Some? && PlacesGood(s)
    ensures var (s', ids) := ReadGroup(s, count);
            var handed := NextEntry(s) <= id < NextEntry(s) + |ids|;
            && (Pending(s', id) <==> Pending(s, id) || handed)
            && Deliveries(s', id) == if handed then 1 else Deliveries(s, id)
    decreases count
  {
    if count > 0 && Fresh(s).Some? {
      BatchIsTheNextEntries(Deliver(s, Fresh(s).value), count - 1);
      BatchIsPending(Deliver(s, Fresh(s).value), count - 1, id);
    }
  }

  /** A claim hands out idle pending entries from the cursor on, once each. */
  lemma {:induction false} ClaimedEntries(s: Stream, p: nat, count: nat, budget: nat, idle: set<nat>, id: nat)
    requires s.group.Some?
    ensures var (s', ids, next) := AutoClaim(s, p, count, budget, idle);
            && s' == s.(group := s'.group) && s'.group.Some?
            && Delivered(s') == Delivered(s) && s'.group.value.acked == s.group.value.acked
            && (id in ids ==> p <= id && id in idle && s.first <= id && Pending(s, id) && Pending(s', id))
            && (Pending(s', id) ==> Pending(s, id))
            && (Pending(s', id) ==> Deliveries(s', id) == Deliveries(s, id) + if id in ids then 1 else 0)
            && (Pending(s, id) && !Pending(s', id) ==> id < s.first)
    decreases budget
  {
    if NextPending(s, p).Some? && count > 0 && budget > 0 {
      var k := NextPending(s, p).value;
      NextPendingIsFirst(s, p);
      if k < s.first || k in idle {
        ClaimedEntries(Claim(s, k), k + 1, count - 1, budget - 1, idle, id);
      } else {
        ClaimedEntries(s, k + 1, count, budget - 1, idle, id);
      }
    }
  }

  /** A claim hands out no more than it was asked for. */
  lemma {:induction false} ClaimsAtMost(s: Stream, p: nat, count: nat, budget: nat, idle: set<nat>)
    ensures |AutoClaim(s, p, count, budget, idle).1| <= count
    ensures |AutoClaim(s, p, count, budget, idle).1| <= budget
    decreases budget
  {
    if s.group.Some? && NextPending(s, p).Some? && count > 0 && budget > 0 {
      var k := NextPending(s, p).value;
      NextPendingIsFirst(s, p);
      if k < s.first || k in idle {
        ClaimsAtMost(Claim(s, k), k + 1, count - 1, budget - 1, idle);
      } else {
        ClaimsAtMost(s, k + 1, count, budget - 1, idle);
      }
    }
  }

  /** A claim passes nothing over: every idle pending entry between the cursor
      it was given and the cursor it returns was claimed, or dropped because
      the entry is gone. */
  lemma {:induction false} ClaimsPassNothingOver(s: Stream, p: nat, count: nat, budget: nat, idle: set<nat>, id: nat)
    requires s.group.Some? && Pending(s, id) && id < Delivered(s) && id in idle && p <= id
    requires p > 0 || (count > 0 && budget > 0)
    ensures var (s', ids, next) := AutoClaim(s, p, count, budget, idle);
            next == 0 || id < next ==> id in ids || (id < s.first && !Pending(s', id))
    decreases budget
  {
    NextPendingIsFirst(s, p);
    var k := NextPending(s, p).value;
    if count > 0 && budget > 0 {
      if id == k {
        if k < s.first { ClaimedEntries(Claim(s, k), k + 1, count - 1, budget - 1, idle, id); }
      } else if k < s.first || k in idle {
        ClaimsPassNothingOver(Claim(s, k), k + 1, count - 1, budget - 1, idle, id);
      } else {
        ClaimsPassNothingOver(s, k + 1, count, budget - 1, idle, id);
      }
    }
  }

  /** A claim that finds anything moves the cursor on, or back to the start. */
  lemma {:induction false} ClaimsAdvance(s: Stream, p: nat, count: nat, budget: nat, idle: set<nat>)
    requires s.group.Some?
    ensures var next := AutoClaim(s, p, count, budget, idle).2;
            next == 0 || (p <= next < Delivered(s) && (count > 0 && budget > 0 ==> p < next))
    decreases budget
  {
    if NextPending(s, p).Some? && count > 0 && budget > 0 {
      var k := NextPending(s, p).value;
      NextPendingIsFirst(s, p);
      if k < s.first || k in idle {
        ClaimsAdvance(Claim(s, k), k + 1, count - 1, budget - 1, idle);
      } else {
        ClaimsAdvance(s, k + 1, count, budget - 1, idle);
      }
    } else {
      NextPendingIsFirst(s, p);
    }
  }

  // ---------------------------------------------------- what a handler touches

  /** A handler adds nothing to the stream and hands nothing out. */
  ghost predicate Quieter(s: Stream, s': Stream) {
    && s'.entries == s.entries && s'.first == s.first
    && s'.group.Some? == s.group.Some? && Delivered(s') == Delivered(s)
    && forall id: nat :: Pending(s', id) ==> Pending(s, id) && Deliveries(s', id) == Deliveries(s, id)
  }

  /** Past the webhook's own two steps. */
  predicate Consuming(pc: Pc) { !pc.AtResultCache? && !pc.AtEnqueue? }

  lemma StepIsQuiet(cfg: Config, w: World, origin: Origin, n: Notification, pc: Pc, f: Faults)
    requires Consuming(pc)
    ensures var (w', pc') := Step(cfg, w, origin, n, pc, f); Quieter(w.stream, w'.stream) && Consuming(pc')
  {
  }

  lemma AloneIsQuiet(cfg: Config, w: World, origin: Origin, n: Notification, pc: Pc, f: Faults)
    requires Consuming(pc)
    ensures Quieter(w.stream, Alone(cfg, w, origin, n, pc, f).0.stream)
    decreases StepsLeft(pc)
  {
    if !Over(origin, pc) {
      StepsDescend(cfg, w, origin, n, pc, f);
      StepIsQuiet(cfg, w, origin, n, pc, f);
      var (w', pc') := Step(cfg, w, origin, n, pc, f);
      AloneIsQuiet(cfg, w', origin, n, pc', f);
    }
  }

  /** The world a loop may start from. */
  ghost predicate Sane(w: World, accepted: set<Notification>) {
    WorldGood(w, accepted) && WholeSystem.AllRoutable(accepted)
  }

  lemma HandledKeepsGood(cfg: Config, w: World, accepted: set<Notification>, id: nat, attempt: nat, f: Faults)
    requires Sane(w, accepted)
    ensures var w' := Handled(cfg, w, id, attempt, f);
            Sane(w', accepted) && Grows(w, w') && Quieter(w.stream, w'.stream)
  {
    ExtendsReflexive(w.db);
    if id < |w.stream.entries| {
      var n, origin := w.stream.entries[id], Worker(id, attempt);
      AloneKeepsGood(cfg, w, accepted, origin, n, AtDecode, f);
      AloneIsQuiet(cfg, w, origin, n, AtDecode, f);
    }
  }

  /** Handed out no more, and settled by a row or on the dead stream. */
  ghost predicate Retired(w: World, id: nat) { !Pending(w.stream, id) && SettledOrDead(w.db, w.stream, id) }

  predicate AllHealthy(f: Faults) { Healthy(f) && BrokerHealthy(f) }

  lemma HandledRetires(cfg: Config, w: World, accepted: set<Notification>, id: nat, attempt: nat, f: Faults)
    requires Sane(w, accepted) && id < |w.stream.entries| && AllHealthy(f)
    ensures Retired(Handled(cfg, w, id, attempt, f), id)
  {
    HealthyDeliveryRetires(cfg, w, accepted, Worker(id, attempt), w.stream.entries[id], AtDecode, f);
  }

  lemma SettledStays(w: World, w': World, accepted: set<Notification>, id: nat)
    requires SettledOrDead(w.db, w.stream, id) && Grows(w, w') && Sane(w', accepted)
    ensures SettledOrDead(w'.db, w'.stream, id)
  {
    SettledOrDeadStays(w, w', id);
  }

  lemma RetiredStays(w: World, w': World, accepted: set<Notification>, id: nat)
    requires Retired(w, id) && Grows(w, w') && Sane(w', accepted) && Quieter(w.stream, w'.stream)
    ensures Retired(w', id)
  {
    SettledStays(w, w', accepted, id);
  }

  // ------------------------------------------------------------------- `run`

  lemma {:induction false} BatchKeepsGood(cfg: Config, w: World, accepted: set<Notification>, ids: seq<nat>,
      faults: nat -> Faults)
    requires Sane(w, accepted)
    ensures var w' := HandledFresh(cfg, w, ids, faults);
            Sane(w', accepted) && Grows(w, w') && Quieter(w.stream, w'.stream)
  {
    hide WorldGood;
    if ids == [] {
      ExtendsReflexive(w.db);
    } else {
      var k := |ids| - 1;
      BatchKeepsGood(cfg, w, accepted, ids[..k], faults);
      var mid := HandledFresh(cfg, w, ids[..k], faults);
      OneMoreHandled(cfg, w, mid, accepted, ids[k], 1, faults(k));
    }
  }

  lemma OneMoreHandled(cfg: Config, w: World, mid: World, accepted: set<Notification>, id: nat, attempt: nat, f: Faults)
    requires Sane(mid, accepted) && Grows(w, mid) && Quieter(w.stream, mid.stream)
    ensures var w' := Handled(cfg, mid, id, attempt, f);
            Sane(w', accepted) && Grows(w, w') && Quieter(w.stream, w'.stream)
  {
    HandledKeepsGood(cfg, mid, accepted, id, attempt, f);
    GrowsTransitive(w, mid, Handled(cfg, mid, id, attempt, f));
  }

  lemma OthersStayRetired(cfg: Config, w: World, accepted: set<Notification>, id: nat, attempt: nat, f: Faults,
      other: nat)
    requires Sane(w, accepted) && Retired(w, other)
    ensures Retired(Handled(cfg, w, id, attempt, f), other)
  {
    hide WorldGood;
    HandledKeepsGood(cfg, w, accepted, id, attempt, f);
    RetiredStays(w, Handled(cfg, w, id, attempt, f), accepted, other);
  }

  /** A message met with no fault is retired, and stays so while the rest of the
      batch is handled. */
  lemma {:induction false} BatchRetires(cfg: Config, w: World, accepted: set<Notification>, ids: seq<nat>,
      faults: nat -> Faults, j: nat)
    requires Sane(w, accepted) && j < |ids| && ids[j] < |w.stream.entries| && AllHealthy(faults(j))
    ensures Retired(HandledFresh(cfg, w, ids, faults), ids[j])
  {
    hide WorldGood, Handled, Retired, Healthy, BrokerHealthy;
    var k := |ids| - 1;
    var mid := HandledFresh(cfg, w, ids[..k], faults);
    BatchKeepsGood(cfg, w, accepted, ids[..k], faults);
    if j < k {
      BatchRetires(cfg, w, accepted, ids[..k], faults, j);
      OthersStayRetired(cfg, mid, accepted, ids[k], 1, faults(k), ids[j]);
    } else {
      HandledRetires(cfg, mid, accepted, ids[k], 1, faults(k));
    }
  }

  /** Handing entries out leaves the rest of the world good. */
  lemma HandOutKeepsGood(w: World, accepted: set<Notification>, stream: Stream)
    requires Sane(w, accepted) && PlacesGood(stream) && stream == w.stream.(group := stream.group)
    requires stream.group.Some? && w.stream.group.Some? && stream.group.value.acked == w.stream.group.value.acked
    ensures Sane(w.(stream := stream), accepted) && Grows(w, w.(stream := stream))
  {
    ExtendsReflexive(w.db);
    forall id: nat | Acked(stream, id) ensures SettledOrDead(w.db, stream, id) {
      assert Acked(w.stream, id);
    }
  }

  ghost predicate HealthyPolls(polls: seq<Poll>) {
    forall i :: 0 <= i < |polls| ==> polls[i].read.Fine? && forall k: nat :: AllHealthy(polls[i].faults(k))
  }

  /** Everything from `start` that has been handed out is retired. */
  ghost predicate RetiredFrom(w: World, start: nat) {
    forall id: nat :: start <= id < Delivered(w.stream) ==> Retired(w, id)
  }

  /** Reading a batch disturbs nothing already handed out. */
  lemma ReadKeepsGood(w: World, accepted: set<Notification>, count: nat)
    requires Sane(w, accepted) && w.stream.group.Some?
    ensures var (stream, ids) := ReadGroup(w.stream, count);
            && Sane(w.(stream := stream), accepted) && Grows(w, w.(stream := stream))
            && stream == w.stream.(group := stream.group) && stream.group.Some?
            && |ids| == Min(count, Max(|w.stream.entries| - NextEntry(w.stream), 0))
            && (forall k :: 0 <= k < |ids| ==> ids[k] == NextEntry(w.stream) + k)
            && Delivered(stream) == (if ids == [] then Delivered(w.stream) else NextEntry(w.stream) + |ids|)
            && (forall id: nat :: Pending(stream, id) ==> Pending(w.stream, id) || NextEntry(w.stream) <= id)
  {
    hide TablesGood, RefsGood, ResultsGood, EntriesGood, AcksGood;
    var (stream, ids) := ReadGroup(w.stream, count);
    BatchIsTheNextEntries(w.stream, count);
    forall id: nat ensures Pending(stream, id) ==> Pending(w.stream, id) || NextEntry(w.stream) <= id {
      BatchIsPending(w.stream, count, id);
    }
    HandOutKeepsGood(w, accepted, stream);
  }

  lemma PollRetires(cfg: Config, sizes: Sizes, w: World, accepted: set<Notification>, poll: Poll, start: nat)
    requires Sane(w, accepted) && w.stream.group.Some? && RetiredFrom(w, start) && start >= w.stream.first
    requires HealthyPolls([poll]) && start <= NextEntry(w.stream)
    ensures var w' := Polled(cfg, sizes, w, poll);
            && Sane(w', accepted) && Grows(w, w')
            && w'.stream.entries == w.stream.entries && w'.stream.first == w.stream.first && w'.stream.group.Some?
            && RetiredFrom(w', start)
            && start <= NextEntry(w'.stream)
            && NextEntry(w'.stream)
                 == Min(NextEntry(w.stream) + sizes.batch, Max(|w.stream.entries|, NextEntry(w.stream)))
  {
    hide WorldGood, ReadGroup, HandledFresh, SettledOrDead, Extends, Healthy, BrokerHealthy;
    assert [poll][0] == poll;
    var (stream, ids) := ReadGroup(w.stream, sizes.batch);
    ReadKeepsGood(w, accepted, sizes.batch);
    var mid := w.(stream := stream);
    BatchKeepsGood(cfg, mid, accepted, ids, poll.faults);
    var w' := HandledFresh(cfg, mid, ids, poll.faults);
    GrowsTransitive(w, mid, w');
    forall id: nat | start <= id < Delivered(w'.stream) ensures Retired(w', id) {
      if id < NextEntry(w.stream) {
        assert Retired(w, id);
        SettledStays(w, w', accepted, id);
      } else {
        assert AllHealthy(poll.faults(id - NextEntry(w.stream)));
        BatchRetires(cfg, mid, accepted, ids, poll.faults, id - NextEntry(w.stream));
      }
    }
  }

  /** After healthy turns on w the worker has retired everything it was handed,
      and has been handed everything before `reach`. */
  ghost predicate DrainedTo(w: World, w': World, accepted: set<Notification>, reach: int) {
    && Sane(w', accepted) && Grows(w, w') && w'.stream.group.Some?
    && w'.stream.entries == w.stream.entries && w'.stream.first == w.stream.first
    && RetiredFrom(w', NextEntry(w.stream))
    && NextEntry(w.stream) <= NextEntry(w'.stream)
    && NextEntry(w'.stream) >= Min(reach, |w.stream.entries|)
  }

  lemma {:induction false} TurnsDrain(cfg: Config, sizes: Sizes, w: World, accepted: set<Notification>,
      polls: seq<Poll>)
    requires Sane(w, accepted) && w.stream.group.Some? && HealthyPolls(polls)
    ensures DrainedTo(w, PolledAll(cfg, sizes, w, polls), accepted, NextEntry(w.stream) + |polls| * sizes.batch)
  {
    hide WorldGood;
    if polls == [] {
      ExtendsReflexive(w.db);
    } else {
      var k := |polls| - 1;
      HealthyPollsSplit(polls);
      TurnsDrain(cfg, sizes, w, accepted, polls[..k]);
      var mid := PolledAll(cfg, sizes, w, polls[..k]);
      OneMoreTurn(cfg, sizes, w, mid, accepted, polls[k], NextEntry(w.stream) + k * sizes.batch);
      assert NextEntry(w.stream) + k * sizes.batch + sizes.batch == NextEntry(w.stream) + |polls| * sizes.batch;
    }
  }

  lemma HealthyPollsSplit(polls: seq<Poll>)
    requires HealthyPolls(polls) && polls != []
    ensures HealthyPolls(polls[..|polls| - 1]) && HealthyPolls([polls[|polls| - 1]])
  {
  }

  lemma OneMoreTurn(cfg: Config, sizes: Sizes, w: World, mid: World, accepted: set<Notification>, poll: Poll,
      reach: int)
    requires DrainedTo(w, mid, accepted, reach) && HealthyPolls([poll])
    ensures DrainedTo(w, Polled(cfg, sizes, mid, poll), accepted, reach + sizes.batch)
  {
    PollRetires(cfg, sizes, mid, accepted, poll, NextEntry(w.stream));
    GrowsTransitive(w, mid, Polled(cfg, sizes, mid, poll));
  }

  /** A worker whose turns are healthy drains the stream: after enough of them
      every entry there was is acknowledged, and settled or on the dead stream. */
  lemma HealthyWorkerDrains(cfg: Config, sizes: Sizes, w: World, accepted: set<Notification>, polls: seq<Poll>, id: nat)
    requires Sane(w, accepted) && w.stream.group.Some? && HealthyPolls(polls)
    requires NextEntry(w.stream) <= id < |w.stream.entries|
    requires NextEntry(w.stream) + |polls| * sizes.batch >= |w.stream.entries|
    ensures var w' := PolledAll(cfg, sizes, w, polls);
            && w'.stream.entries == w.stream.entries
            && Acked(w'.stream, id) && (HasRow(w'.db, w.stream.entries[id].reference) || id in w'.stream.dead)
  {
    TurnsDrain(cfg, sizes, w, accepted, polls);
    var w' := PolledAll(cfg, sizes, w, polls);
    assert Retired(w', id);
    assert id < w'.stream.first || Pending(w'.stream, id) || Acked(w'.stream, id);
  }

  // --------------------------------------------------------------- `reclaim`

  lemma {:induction false} ReclaimedKeepsGood(cfg: Config, w: World, accepted: set<Notification>, ids: seq<nat>,
      tick: Tick)
    requires Sane(w, accepted)
    ensures var w' := HandledAgain(cfg, w, ids, tick);
            Sane(w', accepted) && Grows(w, w') && Quieter(w.stream, w'.stream)
  {
    hide WorldGood;
    if ids == [] {
      ExtendsReflexive(w.db);
    } else {
      var k := |ids| - 1;
      ReclaimedKeepsGood(cfg, w, accepted, ids[..k], tick);
      var mid := HandledAgain(cfg, w, ids[..k], tick);
      OneMoreHandled(cfg, w, mid, accepted, ids[k], AttemptOf(mid.stream, ids[k], tick.countFails(k)), tick.faults(k));
    }
  }

  lemma {:induction false} ReclaimedRetires(cfg: Config, w: World, accepted: set<Notification>, ids: seq<nat>,
      tick: Tick, j: nat)
    requires Sane(w, accepted) && j < |ids| && ids[j] < |w.stream.entries| && AllHealthy(tick.faults(j))
    ensures Retired(HandledAgain(cfg, w, ids, tick), ids[j])
  {
    hide WorldGood, Handled, Retired, Healthy, BrokerHealthy;
    var k := |ids| - 1;
    var mid := HandledAgain(cfg, w, ids[..k], tick);
    var attempt := AttemptOf(mid.stream, ids[k], tick.countFails(k));
    ReclaimedKeepsGood(cfg, w, accepted, ids[..k], tick);
    if j < k {
      ReclaimedRetires(cfg, w, accepted, ids[..k], tick, j);
      OthersStayRetired(cfg, mid, accepted, ids[k], attempt, tick.faults(k), ids[j]);
    } else {
      HandledRetires(cfg, mid, accepted, ids[k], attempt, tick.faults(k));
    }
  }

  /** Every pending entry has been idle long enough, and nothing fails. */
  ghost predicate HealthyTicks(ticks: seq<Tick>, delivered: nat) {
    forall i :: 0 <= i < |ticks| ==>
      && ticks[i].claim.Fine?
      && (forall id: nat :: id < delivered ==> id in ticks[i].idle)
      && (forall k: nat :: AllHealthy(ticks[i].faults(k)))
  }

  /** The entries pending in w before the cursor are pending no more. */
  ghost predicate SweptTo(w: World, w': World, cursor: nat) {
    forall id: nat :: Pending(w.stream, id) && id < cursor ==> !Pending(w'.stream, id)
  }

  /** What a sweep keeps of the world it started in. */
  ghost predicate SweepFrame(w: World, w': World, accepted: set<Notification>) {
    && Sane(w', accepted) && Grows(w, w')
    && w'.stream.entries == w.stream.entries && w'.stream.first == w.stream.first
    && w'.stream.group.Some? && Delivered(w'.stream) == Delivered(w.stream)
    && forall id: nat :: Pending(w'.stream, id) ==> Pending(w.stream, id)
  }

  lemma ClaimKeepsGood(w: World, accepted: set<Notification>, p: nat, sizes: Sizes, idle: set<nat>)
    requires Sane(w, accepted) && w.stream.group.Some?
    ensures SweepFrame(w, w.(stream := AutoClaim(w.stream, p, sizes.batch, sizes.budget, idle).0), accepted)
  {
    var (stream, ids, next) := AutoClaim(w.stream, p, sizes.batch, sizes.budget, idle);
    forall id: nat
      ensures Pending(stream, id) ==> Pending(w.stream, id)
      ensures Pending(w.stream, id) && !Pending(stream, id) ==> id < w.stream.first
    {
      ClaimedEntries(w.stream, p, sizes.batch, sizes.budget, idle, id);
    }
    ClaimedEntries(w.stream, p, sizes.batch, sizes.budget, idle, 0);
    ClaimPlaces(w.stream, stream);
    HandOutKeepsGood(w, accepted, stream);
  }

  lemma ClaimPlaces(s: Stream, s': Stream)
    requires PlacesGood(s) && s.group.Some? && s'.group.Some? && s' == s.(group := s'.group)
    requires Delivered(s') == Delivered(s) && s'.group.value.acked == s.group.value.acked
    requires forall id: nat :: Pending(s', id) ==> Pending(s, id)
    requires forall id: nat :: Pending(s, id) && !Pending(s', id) ==> id < s.first
    ensures PlacesGood(s')
  {
    forall id: nat | id < Delivered(s')
      ensures id < s'.first || id in s'.group.value.pending || id in s'.group.value.acked
    {
      assert id < s.first || Pending(s, id) || Acked(s, id);
    }
    forall id | id in s'.group.value.pending ensures id < Delivered(s') { assert Pending(s', id); }
  }

  lemma TickSweeps(cfg: Config, sizes: Sizes, w: World, accepted: set<Notification>, cursor: nat, tick: Tick)
    requires Sane(w, accepted) && w.stream.group.Some?
    requires sizes.batch > 0 && sizes.budget > 0 && HealthyTicks([tick], Delivered(w.stream))
    ensures var (w', next) := Ticked(cfg, sizes, w, cursor, tick);
            && SweepFrame(w, w', accepted)
            && (next == 0 || cursor < next < Delivered(w.stream))
            && (forall id: nat :: Pending(w.stream, id) && cursor <= id && (next == 0 || id < next) ==>
                  !Pending(w'.stream, id))
  {
    hide TablesGood, RefsGood, ResultsGood, EntriesGood, AcksGood, Healthy, BrokerHealthy;
    assert [tick][0] == tick;
    var (stream, ids, next) := AutoClaim(w.stream, cursor, sizes.batch, sizes.budget, tick.idle);
    var mid := w.(stream := stream);
    ClaimKeepsGood(w, accepted, cursor, sizes, tick.idle);
    ClaimsAdvance(w.stream, cursor, sizes.batch, sizes.budget, tick.idle);
    ReclaimedKeepsGood(cfg, mid, accepted, ids, tick);
    var w' := HandledAgain(cfg, mid, ids, tick);
    GrowsTransitive(w, mid, w');
    forall id: nat | Pending(w.stream, id) && cursor <= id && (next == 0 || id < next)
      ensures !Pending(w'.stream, id)
    {
      ClaimsPassNothingOver(w.stream, cursor, sizes.batch, sizes.budget, tick.idle, id);
      if id in ids {
        var k :| 0 <= k < |ids| && ids[k] == id;
        assert AllHealthy(tick.faults(k));
        ReclaimedRetires(cfg, mid, accepted, ids, tick, k);
      }
    }
  }

  lemma SweepsJoin(w: World, mid: World, w': World, accepted: set<Notification>)
    requires SweepFrame(w, mid, accepted) && SweepFrame(mid, w', accepted)
    ensures SweepFrame(w, w', accepted)
  {
    hide WorldGood;
    GrowsTransitive(w, mid, w');
  }

  lemma HealthyTicksSplit(ticks: seq<Tick>, delivered: nat)
    requires HealthyTicks(ticks, delivered) && ticks != []
    ensures HealthyTicks(ticks[..|ticks| - 1], delivered) && HealthyTicks([ticks[|ticks| - 1]], delivered)
  {
  }

  /** Either the sweep is still under way, at least one entry further each tick,
      or everything that was pending has been dealt with. */
  lemma {:induction false} TicksSweep(cfg: Config, sizes: Sizes, w: World, accepted: set<Notification>,
      ticks: seq<Tick>)
    requires Sane(w, accepted) && w.stream.group.Some?
    requires sizes.batch > 0 && sizes.budget > 0 && HealthyTicks(ticks, Delivered(w.stream))
    ensures var (w', cursor) := TickedAll(cfg, sizes, w, ticks);
            && SweepFrame(w, w', accepted)
            && (SweptTo(w, w', Delivered(w.stream))
                || (|ticks| <= cursor && (cursor > 0 ==> cursor < Delivered(w.stream)) && SweptTo(w, w', cursor)))
  {
    hide WorldGood;
    if ticks == [] {
      ExtendsReflexive(w.db);
    } else {
      var k := |ticks| - 1;
      HealthyTicksSplit(ticks, Delivered(w.stream));
      TicksSweep(cfg, sizes, w, accepted, ticks[..k]);
      var (mid, cursor) := TickedAll(cfg, sizes, w, ticks[..k]);
      TickSweeps(cfg, sizes, mid, accepted, cursor, ticks[k]);
      SweepsJoin(w, mid, TickedAll(cfg, sizes, w, ticks).0, accepted);
      SweptOn(w, mid, TickedAll(cfg, sizes, w, ticks).0, cursor, TickedAll(cfg, sizes, w, ticks).1, accepted);
    }
  }

  /** Swept to the cursor, then from the cursor on. */
  lemma SweptOn(w: World, mid: World, w': World, cursor: nat, next: nat, accepted: set<Notification>)
    requires SweepFrame(w, mid, accepted) && SweepFrame(mid, w', accepted)
    requires SweptTo(w, mid, Delivered(w.stream)) || SweptTo(w, mid, cursor)
    requires forall id: nat :: Pending(mid.stream, id) && cursor <= id && (next == 0 || id < next) ==>
               !Pending(w'.stream, id)
    ensures SweptTo(w, mid, Delivered(w.stream)) ==> SweptTo(w, w', Delivered(w.stream))
    ensures next == 0 ==> SweptTo(w, w', Delivered(w.stream))
    ensures SweptTo(w, mid, cursor) ==> SweptTo(w, w', next)
  {
    hide WorldGood;
  }

  /** What is handed out and no longer pending was settled, dead-lettered or
      trimmed away. */
  lemma UnpendedIsSettled(w: World, accepted: set<Notification>, id: nat)
    requires Sane(w, accepted) && id < Delivered(w.stream) && !Pending(w.stream, id)
    ensures id < w.stream.first || SettledOrDead(w.db, w.stream, id)
  {
    assert id < w.stream.first || Acked(w.stream, id);
  }

  /** No message stays stranded: a reclaimer whose ticks are healthy deals, in
      at most one tick more than there are entries handed out, with every
      message any dead worker left pending. */
  lemma StrandedMessagesAreRecovered(cfg: Config, sizes: Sizes, w: World, accepted: set<Notification>,
      ticks: seq<Tick>, id: nat)
    requires Sane(w, accepted) && w.stream.group.Some?
    requires sizes.batch > 0 && sizes.budget > 0 && HealthyTicks(ticks, Delivered(w.stream))
    requires |ticks| > Delivered(w.stream) && Pending(w.stream, id)
    ensures var w' := TickedAll(cfg, sizes, w, ticks).0;
            && !Pending(w'.stream, id)
            && (id >= w.stream.first ==> SettledOrDead(w'.db, w'.stream, id))
  {
    TicksSweep(cfg, sizes, w, accepted, ticks);
    UnpendedIsSettled(TickedAll(cfg, sizes, w, ticks).0, accepted, id);
  }
}

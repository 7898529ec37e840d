/** The consuming side of the queue: src/internal/infrastructure/queue/worker.go. */
module Workers {
  import opened Prelude
  import opened Ledger
  import opened Notifications
  import opened Streams
  import opened Handling
  import opened HandlingLaws
  import opened Storage
  import opened Repositories
  import opened Queues
  import opened Services

  /** One turn of `run`: how the blocking read went, and what the environment
      does to each message of the batch. */
  datatype Poll = Poll(read: Io, faults: nat -> Faults)

  /** One tick of `reclaim`: how the claim went, which entries are idle, and for
      each claimed message whether its count could not be read. */
  datatype Tick = Tick(claim: Io, idle: set<nat>, countFails: nat -> bool, faults: nat -> Faults)

  datatype Sizes = Sizes(batch: nat, budget: nat)

  // ----------------------------------------------------------- specification

  function Handled(cfg: Config, w: World, id: nat, attempt: nat, f: Faults): World {
    if id >= |w.stream.entries| then w
    else Alone(cfg, w, Worker(id, attempt), w.stream.entries[id], AtDecode, f).0
  }

  /** A batch fresh off the stream, message after message. */
  function HandledFresh(cfg: Config, w: World, ids: seq<nat>, faults: nat -> Faults): World {
    if ids == [] then w
    else
      var k := |ids| - 1;
      Handled(cfg, HandledFresh(cfg, w, ids[..k], faults), ids[k], 1, faults(k))
  }

  /** A batch handed back by the reclaimer. */
  function HandledAgain(cfg: Config, w: World, ids: seq<nat>, tick: Tick): World {
    if ids == [] then w
    else
      var k := |ids| - 1;
      var before := HandledAgain(cfg, w, ids[..k], tick);
      Handled(cfg, before, ids[k], AttemptOf(before.stream, ids[k], tick.countFails(k)), tick.faults(k))
  }

  function Polled(cfg: Config, sizes: Sizes, w: World, poll: Poll): World {
    var (stream, ids) := ReadGroup(w.stream, sizes.batch);
    match poll.read
    case Lost => w
    case ReplyLost => w.(stream := stream)
    case Fine => HandledFresh(cfg, w.(stream := stream), ids, poll.faults)
  }

  function PolledAll(cfg: Config, sizes: Sizes, w: World, polls: seq<Poll>): World {
    if polls == [] then w
    else Polled(cfg, sizes, PolledAll(cfg, sizes, w, polls[..|polls| - 1]), polls[|polls| - 1])
  }

  function Ticked(cfg: Config, sizes: Sizes, w: World, cursor: nat, tick: Tick): (World, nat) {
    var (stream, ids, next) := AutoClaim(w.stream, cursor, sizes.batch, sizes.budget, tick.idle);
    match tick.claim
    case Lost => (w, cursor)
    case ReplyLost => (w.(stream := stream), cursor)
    case Fine => (HandledAgain(cfg, w.(stream := stream), ids, tick), next)
  }

  /** Every sweep starts at the beginning of the pending list. */
  function TickedAll(cfg: Config, sizes: Sizes, w: World, ticks: seq<Tick>): (World, nat) {
    if ticks == [] then (w, 0)
    else
      var (w', cursor) := TickedAll(cfg, sizes, w, ticks[..|ticks| - 1]);
      Ticked(cfg, sizes, w', cursor, ticks[|ticks| - 1])
  }

  // ------------------------------------------------------ handling a message

  /** Process does the same whoever calls it; only what follows its answer
      differs. */
  lemma ProcessThenDispose(cfg: Config, w: World, origin: Origin, n: Notification, pc: Pc, f: Faults)
    requires Processing(pc) || pc.AtPublish? || pc.Answered?
    ensures var (w', pc') := Alone(cfg, w, Webhook, n, pc, f);
            pc'.Answered? && Alone(cfg, w, origin, n, pc, f) == Alone(cfg, w', origin, n, pc', f)
    decreases StepsLeft(pc)
  {
    if !pc.Answered? {
      StepsDescend(cfg, w, Webhook, n, pc, f);
      OneStep(cfg, w, Webhook, n, pc, f);
      OneStep(cfg, w, origin, n, pc, f);
      var (w', pc') := Step(cfg, w, Webhook, n, pc, f);
      ProcessThenDispose(cfg, w', origin, n, pc', f);
    }
  }

  /** A decodable message: Process, then what its answer calls for. */
  lemma DecodedThenDisposed(cfg: Config, w: World, id: nat, attempt: nat, n: Notification, f: Faults)
    requires !f.undecodable
    ensures var (w', pc') := Alone(cfg, w, Webhook, n, AtResolve, f);
            var origin := Worker(id, attempt);
            pc'.Answered?
            && Alone(cfg, w, origin, n, AtDecode, f) == Alone(cfg, w', origin, n, Dispose(cfg, origin, pc'.answer), f)
  {
    var origin := Worker(id, attempt);
    OneStep(cfg, w, origin, n, AtDecode, f);
    ProcessThenDispose(cfg, w, origin, n, AtResolve, f);
    var (w', pc') := Alone(cfg, w, Webhook, n, AtResolve, f);
    OneStep(cfg, w', origin, n, pc', f);
  }

  lemma UndecodableIsBuried(cfg: Config, w: World, id: nat, attempt: nat, n: Notification, f: Faults)
    requires f.undecodable
    ensures var origin := Worker(id, attempt);
            Alone(cfg, w, origin, n, AtDecode, f) == Alone(cfg, w, origin, n, AtDeadLetter(Rejected(Undecodable)), f)
  {
    OneStep(cfg, w, Worker(id, attempt), n, AtDecode, f);
  }

  class Consumer {
    const queue: Queue
    const payments: PaymentService
    const sizes: Sizes

    predicate Wired() { payments.Wired() && payments.queue == queue }

    constructor (queue: Queue, payments: PaymentService, sizes: Sizes)
      requires payments.Wired() && payments.queue == queue
      ensures Wired() && this.queue == queue && this.payments == payments && this.sizes == sizes
    {
      this.queue, this.payments, this.sizes := queue, payments, sizes;
    }

    function World(): World
      reads payments.repository.db, payments.cache, payments.queue.broker
    {
      payments.World()
    }

    /** Applies one message and acknowledges it; sets it aside if no retry can
        help or none is left; else leaves it pending for the reclaimer. */
    method Handle(id: nat, attempt: nat, f: Faults)
      requires Wired() && id < |queue.broker.stream.entries|
      modifies payments.repository.db, payments.cache, queue.broker
      ensures World() == Handled(payments.cfg, old(World()), id, attempt, f)
    {
      hide Step;
      var n := queue.broker.stream.entries[id];
      if f.undecodable {
        UndecodableIsBuried(payments.cfg, World(), id, attempt, n, f);
        DeadLetter(id, attempt, n, Rejected(Undecodable), f);
        return;
      }
      DecodedThenDisposed(payments.cfg, World(), id, attempt, n, f);
      var result := payments.Process(n, f);
      if result.Err? {
        if Permanent(result.error) || attempt >= payments.cfg.maxAttempts {
          DeadLetter(id, attempt, n, ToAnswer(result), f);
        }
        return;
      }
      Acknowledge(id, attempt, n, ToAnswer(result), f);
    }

    /** Moves a message aside, then acknowledges it: better visibly stuck than
        silently dropped. */
    method DeadLetter(id: nat, attempt: nat, ghost n: Notification, ghost answer: Answer, f: Faults)
      requires Wired()
      modifies queue.broker
      ensures World() == Alone(payments.cfg, old(World()), Worker(id, attempt), n, AtDeadLetter(answer), f).0
      ensures !f.bury.Lost? ==> id in queue.broker.stream.dead
      ensures f.bury.Lost? ==> queue.broker.stream == old(queue.broker.stream)
    {
      OneStep(payments.cfg, World(), Worker(id, attempt), n, AtDeadLetter(answer), f);
      if f.bury.Lost? { return; }
      queue.broker.stream := Bury(queue.broker.stream, id);
      assert queue.broker.stream.dead[|old(queue.broker.stream.dead)|] == id;
      if f.bury.ReplyLost? { return; }
      Acknowledge(id, attempt, n, answer, f);
    }

    method Acknowledge(id: nat, attempt: nat, ghost n: Notification, ghost answer: Answer, f: Faults)
      requires Wired()
      modifies queue.broker
      ensures World() == Alone(payments.cfg, old(World()), Worker(id, attempt), n, AtAck(answer), f).0
      ensures queue.broker.stream.dead == old(queue.broker.stream.dead)
      ensures !f.ackLost ==> !Pending(queue.broker.stream, id)
    {
      OneStep(payments.cfg, World(), Worker(id, attempt), n, AtAck(answer), f);
      if !f.ackLost { queue.broker.stream := Ack(queue.broker.stream, id); }
    }

    /** Counts hand-outs, so a poison message can be retired. */
    method Deliveries(id: nat, fails: bool) returns (attempt: nat)
      ensures attempt == AttemptOf(queue.broker.stream, id, fails)
      ensures fails || !Pending(queue.broker.stream, id) ==> attempt == 1
      ensures !fails && Pending(queue.broker.stream, id) ==> attempt == queue.broker.stream.group.value.pending[id]
    {
      var s := queue.broker.stream;
      if fails || s.group.None? || id !in s.group.value.pending { return 1; }
      return s.group.value.pending[id];
    }

    /** Consumes the stream, one batch a turn, until the context is cancelled. */
    method Run(polls: seq<Poll>)
      requires Wired()
      modifies payments.repository.db, payments.cache, queue.broker
      ensures World() == PolledAll(payments.cfg, sizes, old(World()), polls)
    {
      for i := 0 to |polls|
        invariant World() == PolledAll(payments.cfg, sizes, old(World()), polls[..i])
      {
        assert polls[..i + 1][..i] == polls[..i];
        var poll := polls[i];
        if !poll.read.Lost? {
          var (stream, ids) := ReadGroup(queue.broker.stream, sizes.batch);
          queue.broker.stream := stream;
          if poll.read.Fine? { HandleFresh(ids, poll.faults); }
        }
      }
      assert polls[..|polls|] == polls;
    }

    method HandleFresh(ids: seq<nat>, faults: nat -> Faults)
      requires Wired()
      modifies payments.repository.db, payments.cache, queue.broker
      ensures World() == HandledFresh(payments.cfg, old(World()), ids, faults)
    {
      for k := 0 to |ids|
        invariant World() == HandledFresh(payments.cfg, old(World()), ids[..k], faults)
      {
        assert ids[..k + 1][..k] == ids[..k];
        if ids[k] < |queue.broker.stream.entries| { Handle(ids[k], 1, faults(k)); }
      }
      assert ids[..|ids|] == ids;
    }

    /** Hands back, tick after tick, the messages whose worker died before
        acknowledging. */
    method Reclaim(ticks: seq<Tick>)
      requires Wired()
      modifies payments.repository.db, payments.cache, queue.broker
      ensures World() == TickedAll(payments.cfg, sizes, old(World()), ticks).0
    {
      var cursor := 0;
      for i := 0 to |ticks|
        invariant (World(), cursor) == TickedAll(payments.cfg, sizes, old(World()), ticks[..i])
      {
        assert ticks[..i + 1][..i] == ticks[..i];
        var tick := ticks[i];
        if !tick.claim.Lost? {
          var (stream, ids, next) := AutoClaim(queue.broker.stream, cursor, sizes.batch, sizes.budget, tick.idle);
          queue.broker.stream := stream;
          if tick.claim.Fine? {
            cursor := next;
            HandleAgain(ids, tick);
          }
        }
      }
      assert ticks[..|ticks|] == ticks;
    }

    method HandleAgain(ids: seq<nat>, tick: Tick)
      requires Wired()
      modifies payments.repository.db, payments.cache, queue.broker
      ensures World() == HandledAgain(payments.cfg, old(World()), ids, tick)
    {
      for k := 0 to |ids|
        invariant World() == HandledAgain(payments.cfg, old(World()), ids[..k], tick)
      {
        assert ids[..k + 1][..k] == ids[..k];
        var attempt := Deliveries(ids[k], tick.countFails(k));
        if ids[k] < |queue.broker.stream.entries| { Handle(ids[k], attempt, tick.faults(k)); }
      }
      assert ids[..|ids|] == ids;
    }
  }
}

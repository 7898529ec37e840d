/** The producing side of the queue: src/internal/infrastructure/queue/queue.go. */
module Queues {
  import opened Prelude
  import opened Ledger
  import opened Streams
  import opened Handling
  import opened Storage

  class Queue {
    const broker: Broker
    const maxLen: nat

    constructor (broker: Broker, maxLen: nat)
      ensures this.broker == broker && this.maxLen == maxLen
    {
      this.broker, this.maxLen := broker, maxLen;
    }

    /** Appends and trims.  Told it failed, the caller cannot know whether the
        entry is there. */
    method Enqueue(n: Notification, f: Faults) returns (ok: bool)
      modifies broker
      ensures f.enqueue.Lost? ==> broker.stream == old(broker.stream)
      ensures !f.enqueue.Lost? ==> broker.stream == Append(old(broker.stream), n, maxLen, f.cut)
      ensures ok <==> f.enqueue.Fine?
      ensures ok ==> n in broker.stream.entries
      ensures old(broker.stream.entries) <= broker.stream.entries
      ensures maxLen == 0 ==> broker.stream.first == old(broker.stream.first)
    {
      if f.enqueue.Lost? { return false; }
      var s := broker.stream;
      var entries := s.entries + [n];
      assert entries[|s.entries|] == n;
      var first := s.first;
      if maxLen > 0 && s.first <= f.cut && f.cut + maxLen <= |entries| { first := f.cut; }
      broker.stream := Stream(entries, first, s.group, s.dead);
      return f.enqueue.Fine?;
    }

    /** Creates the group before the first entry, so it will be handed every
        entry the stream ever held; a group that exists keeps its place. */
    method EnsureGroup()
      modifies broker
      ensures broker.stream == Streams.EnsureGroup(old(broker.stream))
      ensures broker.stream.group.Some?
      ensures old(broker.stream.group).None? ==>
                var s := broker.stream;
                Fresh(s) == if s.first < |s.entries| then Some(s.first) else None
    {
      if broker.stream.group.None? {
        broker.stream := broker.stream.(group := Some(Group(0, map[], {})));
      }
    }
  }
}

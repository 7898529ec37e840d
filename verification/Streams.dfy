/**
  The broker: a stream of entries, one consumer group and a dead-letter stream,
  as src/internal/infrastructure/queue uses them.  An entry's id is its
  position.
*/
module Streams {
  import opened Prelude
  import opened Ledger

  /** Entries below `delivered` have been handed out; `pending` counts the
      hand-outs of those not yet acknowledged. */
  datatype Group = Group(delivered: nat, pending: map<nat, nat>, acked: set<nat>)

  /** Entries below `first` have been trimmed away. */
  datatype Stream = Stream(entries: seq<Notification>, first: nat, group: Option<Group>, dead: seq<nat>)

  const EMPTY_STREAM: Stream := Stream([], 0, None, [])

  /** XADD with MAXLEN ~ maxLen.  An approximate trim may stop anywhere short
      of maxLen entries; `cut` is where it stopped.  Zero means no limit. */
  function Append(s: Stream, n: Notification, maxLen: nat, cut: nat): Stream {
    var entries := s.entries + [n];
    var first := if maxLen > 0 && s.first <= cut && cut + maxLen <= |entries| then cut else s.first;
    s.(entries := entries, first := first)
  }

  /** XGROUP CREATE ... 0 MKSTREAM; an existing group is left alone. */
  function EnsureGroup(s: Stream): Stream {
    if s.group.Some? then s else s.(group := Some(Group(0, map[], {})))
  }

  /** The entry XREADGROUP > hands out next, if any. */
  function Fresh(s: Stream): Option<nat> {
    match s.group
    case None => None
    case Some(g) =>
      var id := if g.delivered < s.first then s.first else g.delivered;
      if id < |s.entries| then Some(id) else None
  }

  function Deliver(s: Stream, id: nat): Stream
    requires Fresh(s) == Some(id)
  {
    var g := s.group.value;
    s.(group := Some(g.(delivered := id + 1, pending := g.pending[id := 1])))
  }

  predicate Pending(s: Stream, id: nat) { s.group.Some? && id in s.group.value.pending }

  predicate Acked(s: Stream, id: nat) { s.group.Some? && id in s.group.value.acked }

  function Deliveries(s: Stream, id: nat): nat {
    if Pending(s, id) then s.group.value.pending[id] else 0
  }

  /** Hand-outs as the reclaimer sees them: one, if the count cannot be read. */
  function AttemptOf(s: Stream, id: nat, fails: bool): nat {
    if fails || !Pending(s, id) then 1 else s.group.value.pending[id]
  }

  /** XAUTOCLAIM of one idle entry: another hand-out, or, if the entry itself
      has been trimmed away, its removal from the pending list. */
  function Claim(s: Stream, id: nat): Stream
    requires Pending(s, id)
  {
    var g := s.group.value;
    if id < s.first then s.(group := Some(g.(pending := g.pending - {id})))
    else s.(group := Some(g.(pending := g.pending[id := g.pending[id] + 1])))
  }

  /** XACK; acknowledging twice, or an unknown entry, changes nothing. */
  function Ack(s: Stream, id: nat): Stream {
    if Pending(s, id) then
      var g := s.group.value;
      s.(group := Some(g.(pending := g.pending - {id}, acked := g.acked + {id})))
    else s
  }

  function Bury(s: Stream, id: nat): Stream { s.(dead := s.dead + [id]) }

  // ---------------------------------------------------------- broker commands

  /** XREADGROUP COUNT count: hands out the next entries, each a first delivery. */
  function ReadGroup(s: Stream, count: nat): (Stream, seq<nat>)
    decreases count
  {
    if count == 0 || Fresh(s).None? then (s, [])
    else
      var id := Fresh(s).value;
      var (s', ids) := ReadGroup(Deliver(s, id), count - 1);
      (s', [id] + ids)
  }

  /** The first pending entry from p onward. */
  function NextPending(s: Stream, p: nat): Option<nat>
    requires s.group.Some?
    decreases s.group.value.delivered - p
  {
    if p >= s.group.value.delivered then None
    else if Pending(s, p) then Some(p)
    else NextPending(s, p + 1)
  }

  lemma {:induction false} NextPendingIsFirst(s: Stream, p: nat)
    requires s.group.Some?
    ensures match NextPending(s, p)
            case Some(id) =>
              && p <= id < s.group.value.delivered && Pending(s, id)
              && forall k: nat :: p <= k < id ==> !Pending(s, k)
            case None => forall k: nat :: p <= k < s.group.value.delivered ==> !Pending(s, k)
    decreases s.group.value.delivered - p
  {
    if p < s.group.value.delivered && !Pending(s, p) { NextPendingIsFirst(s, p + 1); }
  }

  function Delivered(s: Stream): nat { if s.group.Some? then s.group.value.delivered else 0 }

  /** XAUTOCLAIM from p: looks at up to `budget` pending entries in order, claims
      up to `count` of the idle ones, drops those whose entry was trimmed, and
      says where to go on; zero is the beginning. */
  function AutoClaim(s: Stream, p: nat, count: nat, budget: nat, idle: set<nat>): (Stream, seq<nat>, nat)
    decreases budget
  {
    if s.group.None? || NextPending(s, p).None? then (s, [], 0)
    else
      var id := NextPending(s, p).value;
      NextPendingIsFirst(s, p);
      if count == 0 || budget == 0 then (s, [], id)
      else if id < s.first then AutoClaim(Claim(s, id), id + 1, count - 1, budget - 1, idle)
      else if id !in idle then AutoClaim(s, id + 1, count, budget - 1, idle)
      else
        var (s', ids, next) := AutoClaim(Claim(s, id), id + 1, count - 1, budget - 1, idle);
        (s', [id] + ids, next)
  }
}

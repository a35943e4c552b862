/**
 * Properties of the outbound core over several operations: per-peer
 * isolation of dispatch, lossy filling of a bounded queue, first-in
 * first-out delivery with exact counter accounting, and the capacity-four
 * scenario end to end.
 */
module OutboundProperties {
  import opened Wrappers
  import opened Messages
  import opened Mpsc
  import opened Outbound

  predicate AllOutbound(ms: seq<Message>) {
    forall i :: 0 <= i < |ms| ==> ms[i].direction.Outbound?
  }

  function Min(a: int, b: int): int {
    if a <= b then a else b
  }

  /** The registry after dispatching `ms` in order. */
  function DispatchAll(queues: map<SocketAddr, Queue>, ms: seq<Message>): map<SocketAddr, Queue>
    requires AllOutbound(ms)
  {
    if ms == [] then queues
    else DispatchAll(Dispatch(queues, ms[0]).queues, ms[1..])
  }

  /** The messages of `ms` addressed to `peer`, in order. */
  function ToPeer(ms: seq<Message>, peer: SocketAddr): seq<Message>
    requires AllOutbound(ms)
  {
    if ms == [] then []
    else (if ms[0].Receiver() == peer then [ms[0]] else []) + ToPeer(ms[1..], peer)
  }

  /** One queue after offering `ms` in order, refused messages dropped. */
  function OfferAll(q: Queue, ms: seq<Message>): Queue
    decreases |ms|
  {
    if ms == [] then q else OfferAll(q.Offer(ms[0]), ms[1..])
  }

  /** How many writes succeeded. */
  function Successes(writes: seq<bool>): nat {
    if writes == [] then 0 else (if writes[0] then 1 else 0) + Successes(writes[1..])
  }

  /**
   * Isolation: what a peer's queue ends up holding depends only on the
   * messages addressed to that peer, whatever is sent to other peers or to
   * addresses with no entry; the registry keeps its addresses.
   */
  lemma {:induction false} DispatchAllIsolation(queues: map<SocketAddr, Queue>, ms: seq<Message>)
    requires AllOutbound(ms)
    ensures DispatchAll(queues, ms).Keys == queues.Keys
    ensures forall a :: a in queues ==> DispatchAll(queues, ms)[a] == OfferAll(queues[a], ToPeer(ms, a))
  {
    if ms != [] {
      var next := Dispatch(queues, ms[0]).queues;
      DispatchAllIsolation(next, ms[1..]);
      forall a | a in queues
        ensures DispatchAll(queues, ms)[a] == OfferAll(queues[a], ToPeer(ms, a))
      {
        var rest := ToPeer(ms[1..], a);
        if a == ms[0].Receiver() {
          assert next[a] == queues[a].Offer(ms[0]);
          assert ToPeer(ms, a) == [ms[0]] + rest;
          assert ([ms[0]] + rest)[1..] == rest;
          assert OfferAll(queues[a], [ms[0]] + rest) == OfferAll(queues[a].Offer(ms[0]), rest);
        } else {
          assert next[a] == queues[a];
          assert ToPeer(ms, a) == rest;
        }
      }
    }
  }

  /**
   * Lossy backpressure: an open queue keeps the first messages offered, up
   * to its free slots, and drops every later one; a closed queue keeps none.
   * The queue never exceeds its capacity.
   */
  lemma {:induction false} OfferAllFills(q: Queue, ms: seq<Message>)
    requires q.Bounded()
    ensures OfferAll(q, ms).capacity == q.capacity && OfferAll(q, ms).closed == q.closed
    ensures OfferAll(q, ms).Bounded()
    ensures q.closed ==> OfferAll(q, ms) == q
    ensures !q.closed ==> OfferAll(q, ms).contents == q.contents + ms[..Min(|ms|, q.capacity - |q.contents|)]
    decreases |ms|
  {
    if ms != [] {
      var q' := q.Offer(ms[0]);
      OfferAllFills(q', ms[1..]);
      if !q.closed && |q.contents| < q.capacity {
        var k := Min(|ms|, q.capacity - |q.contents|);
        assert q'.contents == q.contents + [ms[0]];
        assert ms[..k] == [ms[0]] + ms[1..][..k - 1];
      }
    }
  }

  /**
   * First in, first out: the writer loop hands out exactly the oldest
   * messages, one per write, and leaves the rest queued in order.
   */
  lemma {:induction false} DrainFifo(q: Queue, c: Counters, writes: seq<bool>)
    ensures var k := Min(|writes|, |q.contents|);
      && Drain(q, c, writes).written == q.contents[..k]
      && Drain(q, c, writes).queue == q.(contents := q.contents[k..])
    decreases |writes|
  {
    if writes != [] && q.contents != [] {
      var step := WriterStep(q, c, writes[0]);
      DrainFifo(step.queue, step.counters, writes[1..]);
      var k := Min(|writes|, |q.contents|);
      assert step.queue == q.(contents := q.contents[1..]);
      assert q.contents[1..][k - 1..] == q.contents[k..];
      assert q.contents[..k] == [q.contents[0]] + q.contents[1..][..k - 1];
    }
  }

  /**
   * Exact accounting: each message the writer loop takes adds one to the
   * success counter when its write succeeded and one to the failure counter
   * otherwise, so together they grow by the number of messages taken.
   */
  lemma {:induction false} DrainCounts(q: Queue, c: Counters, writes: seq<bool>)
    ensures var k := Min(|writes|, |q.contents|);
      var d := Drain(q, c, writes);
      && d.counters.success == c.success + Successes(writes[..k])
      && d.counters.failure == c.failure + (k - Successes(writes[..k]))
      && d.counters.success + d.counters.failure == c.success + c.failure + k
    decreases |writes|
  {
    if writes != [] && q.contents != [] {
      var step := WriterStep(q, c, writes[0]);
      DrainCounts(step.queue, step.counters, writes[1..]);
      var k := Min(|writes|, |q.contents|);
      assert |step.queue.contents| == |q.contents| - 1;
      assert writes[..k][1..] == writes[1..][..k - 1];
    }
  }

  /** When every message goes to the only registered peer, that peer's queue sees them all, in order. */
  lemma {:induction false} DispatchAllToOnePeer(p: SocketAddr, q: Queue, ms: seq<Message>)
    requires AllOutbound(ms)
    requires forall i :: 0 <= i < |ms| ==> ms[i].Receiver() == p
    ensures var qs := DispatchAll(map[p := q], ms);
      qs.Keys == {p} && qs[p] == OfferAll(q, ms)
  {
    DispatchAllIsolation(map[p := q], ms);
    ToPeerAll(ms, p);
  }

  /**
   * End to end for one peer: messages sent to an empty open queue with `n`
   * slots reach the writer in the order they were sent, the first `n` of
   * them and none of the dropped ones, once the writer has run that often.
   */
  lemma {:induction false} EndToEndInOrder(p: SocketAddr, n: nat, ms: seq<Message>, writes: seq<bool>, c: Counters)
    requires AllOutbound(ms)
    requires forall i :: 0 <= i < |ms| ==> ms[i].Receiver() == p
    requires |writes| >= Min(|ms|, n)
    ensures var qs := DispatchAll(map[p := Queue([], n, false)], ms);
      p in qs && Drain(qs[p], c, writes).written == ms[..Min(|ms|, n)]
  {
    var q0 := Queue([], n, false);
    DispatchAllToOnePeer(p, q0, ms);
    var q := OfferAll(q0, ms);
    OfferAllFills(q0, ms);
    var k := Min(|ms|, n);
    assert q.contents == ms[..k];
    DrainFifo(q, c, writes);
    assert q.contents[..Min(|writes|, k)] == ms[..k];
  }

  /** When every message is addressed to `p`, the messages for `p` are all of them. */
  lemma {:induction false} ToPeerAll(ms: seq<Message>, p: SocketAddr)
    requires AllOutbound(ms)
    requires forall i :: 0 <= i < |ms| ==> ms[i].Receiver() == p
    ensures ToPeer(ms, p) == ms
  {
    if ms != [] {
      ToPeerAll(ms[1..], p);
    }
  }

  /**
   * Below capacity nothing is lost: up to `n` messages sent to a peer whose
   * empty open queue has `n` slots are all queued, in the order sent.
   */
  lemma {:induction false} FillBelowCapacity(p: SocketAddr, n: nat, ms: seq<Message>)
    requires |ms| <= n
    requires AllOutbound(ms)
    requires forall i :: 0 <= i < |ms| ==> ms[i].Receiver() == p
    ensures var qs := DispatchAll(map[p := Queue([], n, false)], ms);
      qs.Keys == {p} && qs[p] == Queue(ms, n, false)
  {
    var q0 := Queue([], n, false);
    DispatchAllToOnePeer(p, q0, ms);
    OfferAllFills(q0, ms);
  }

  /** `n` writes that all succeed. */
  function AllOk(n: nat): (r: seq<bool>)
    ensures |r| == n && forall i :: 0 <= i < n ==> r[i]
  {
    seq(n, _ => true)
  }

  /** A drain in which every write succeeds empties the queue and adds one success per message. */
  lemma {:induction false} DrainAllSucceeding(q: Queue, c: Counters)
    ensures Drain(q, c, AllOk(|q.contents|))
            == Drained(q.(contents := []), Counters(c.success + |q.contents|, c.failure), q.contents)
  {
    var writes := AllOk(|q.contents|);
    DrainFifo(q, c, writes);
    DrainCounts(q, c, writes);
    AllSuccesses(writes);
    assert writes[..|writes|] == writes;
  }

  lemma {:induction false} AllSuccesses(writes: seq<bool>)
    requires forall i :: 0 <= i < |writes| ==> writes[i]
    ensures Successes(writes) == |writes|
  {
    if writes != [] {
      AllSuccesses(writes[1..]);
    }
  }

  /**
   * The capacity-four scenario: five messages to a peer whose open queue has
   * four slots and no consumer leave the first four queued and the fifth
   * refused as full; four successful writes then drain the queue, deliver
   * those four in order and bring the success counter to four.
   */
  lemma {:induction false} CapacityFourScenario(p: SocketAddr, ms: seq<Message>)
    requires |ms| == 5
    requires forall i :: 0 <= i < 5 ==> ms[i].direction == Outbound(p)
    ensures var qs := DispatchAll(map[p := Queue([], 4, false)], ms[..4]);
      && p in qs && qs[p] == Queue(ms[..4], 4, false)
      && Dispatch(qs, ms[4]) == Dispatched(qs, QueueFull)
      && Drain(qs[p], Counters(0, 0), [true, true, true, true])
         == Drained(Queue([], 4, false), Counters(4, 0), ms[..4])
  {
    var first := ms[..4];
    assert AllOutbound(first) && forall i :: 0 <= i < |first| ==> first[i].Receiver() == p;
    FillBelowCapacity(p, 4, first);
    var qs := DispatchAll(map[p := Queue([], 4, false)], first);
    assert ms[4].Receiver() == p;
    DrainAllSucceeding(qs[p], Counters(0, 0));
    assert AllOk(4) == [true, true, true, true];
  }

  /** A ping to the only registered peer: queued while a slot is free, refused as full otherwise. */
  lemma PingToSolePeer(p: SocketAddr, q: Queue, h: nat)
    requires !q.closed
    ensures var m := PingRequest(p, Some(h));
      Dispatch(map[p := q], m)
      == if |q.contents| < q.capacity
         then Dispatched(map[p := q.(contents := q.contents + [m])], Enqueued)
         else Dispatched(map[p := q], QueueFull)
  {
  }

  /**
   * The capacity-four scenario on the node's own objects: a registry holding
   * one peer with a four-slot channel, five pings sent to it, then the writer
   * loop run with four successful writes.
   */
  method CapacityFourRun(p: SocketAddr) returns (outcomes: seq<SendOutcome>, written: seq<Message>, counts: Counters)
    ensures outcomes == [Enqueued, Enqueued, Enqueued, Enqueued, QueueFull]
    ensures written == [PingRequest(p, Some(0)), PingRequest(p, Some(1)), PingRequest(p, Some(2)), PingRequest(p, Some(3))]
    ensures counts == Counters(4, 0)
  {
    var channel := new Channel(4);
    var outbound := new Outbound(map[p := channel]);
    var node := new Node(outbound);
    ghost var expected := [Enqueued, Enqueued, Enqueued, Enqueued, QueueFull];
    outcomes := [];
    var h := 0;
    while h < 5
      invariant 0 <= h <= 5
      invariant outbound.channels == map[p := channel] && outbound.Valid()
      invariant outbound.Counts() == Counters(0, 0)
      invariant channel.Value() == Queue(Pings(p, if h < 4 then h else 4), 4, false)
      invariant |outcomes| == h
      invariant forall i :: 0 <= i < h ==> outcomes[i] == expected[i]
    {
      var o := PingOnlyPeer(node, channel, p, h);
      outcomes := outcomes + [o];
      h := h + 1;
    }
    assert outcomes == expected;
    written := node.Listen(channel, AllOk(4));
    DrainAllSucceeding(Queue(Pings(p, 4), 4, false), Counters(0, 0));
    counts := outbound.Counts();
    FourPings(p);
  }

  lemma FourPings(p: SocketAddr)
    ensures Pings(p, 4) == [PingRequest(p, Some(0)), PingRequest(p, Some(1)), PingRequest(p, Some(2)), PingRequest(p, Some(3))]
  {
    assert Pings(p, 2) == [PingRequest(p, Some(0)), PingRequest(p, Some(1))];
  }

  /** One ping to a peer that is the only entry of the registry. */
  method PingOnlyPeer(node: Node, channel: Channel, p: SocketAddr, h: nat) returns (outcome: SendOutcome)
    requires node.outbound.channels == map[p := channel] && node.outbound.Valid() && !channel.closed
    modifies channel
    ensures node.outbound.channels == map[p := channel] && node.outbound.Valid()
    ensures node.outbound.Counts() == old(node.outbound.Counts())
    ensures !channel.closed
    ensures |old(channel.contents)| < channel.capacity ==>
      outcome == Enqueued && channel.contents == old(channel.contents) + [PingRequest(p, Some(h))]
    ensures channel.capacity <= |old(channel.contents)| ==>
      outcome == QueueFull && channel.contents == old(channel.contents)
  {
    ghost var before := channel.Value();
    PingToSolePeer(p, before, h);
    assert node.outbound.Queues() == map[p := before];
    outcome := node.SendPing(p, Some(h));
    assert channel.Value() == node.outbound.Queues()[p];
  }

  /** The first `n` pings of the scenario, carrying heights 0 to n - 1. */
  function Pings(p: SocketAddr, n: nat): (r: seq<Message>)
    ensures |r| == n
  {
    if n == 0 then [] else Pings(p, n - 1) + [PingRequest(p, Some(n - 1))]
  }
}

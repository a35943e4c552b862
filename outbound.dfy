/**
 * The outbound dispatch core of a peer-to-peer node: a registry from peer
 * address to that peer's bounded send channel, a non-blocking dispatcher
 * over it, the per-connection writer loop that drains one channel and keeps
 * two telemetry counters, and the ping builder.
 *
 * The pure functions here (Dispatch, Tally, WriterStep, Drain, PingRequest)
 * are the specification; the classes Outbound and Node are the stateful
 * objects of the node, and their methods are proved against those functions.
 */
module Outbound {
  import opened Wrappers
  import opened Messages
  import opened Mpsc

  /** The registry lookup's error. */
  datatype NetworkError = OutboundChannelMissing

  /**
   * How one dispatch ended. The node only logs these; they are returned here
   * so that the branches can be stated.
   */
  datatype SendOutcome = Enqueued | QueueFull | QueueClosed | PeerDisconnected

  /** The registry seen as values, together with how a dispatch ended. */
  datatype Dispatched = Dispatched(queues: map<SocketAddr, Queue>, outcome: SendOutcome)

  /** The two telemetry counters. */
  datatype Counters = Counters(success: nat, failure: nat)

  /** The result of one writer-loop iteration. */
  datatype Written = Written(queue: Queue, counters: Counters, message: Option<Message>)

  /** The result of several writer-loop iterations; `written` lists what was handed to the writer. */
  datatype Drained = Drained(queue: Queue, counters: Counters, written: seq<Message>)

  /**
   * The dispatcher on the registry's values: look the receiver up, and make
   * one non-blocking send to its queue. No entry is ever added or removed,
   * no queue but the receiver's is touched, and a refused message changes
   * nothing at all.
   */
  function Dispatch(queues: map<SocketAddr, Queue>, request: Message): (r: Dispatched)
    requires request.direction.Outbound?
    ensures r.queues.Keys == queues.Keys
    ensures forall a :: a in queues && a != request.Receiver() ==> r.queues[a] == queues[a]
    ensures r.outcome == PeerDisconnected <==> request.Receiver() !in queues
    ensures r.outcome == QueueClosed <==> request.Receiver() in queues && queues[request.Receiver()].closed
    ensures r.outcome == QueueFull <==>
      request.Receiver() in queues && !queues[request.Receiver()].closed
      && queues[request.Receiver()].capacity <= |queues[request.Receiver()].contents|
    ensures r.outcome == Enqueued ==>
      var q := queues[request.Receiver()];
      r.queues[request.Receiver()] == q.(contents := q.contents + [request])
    ensures r.outcome != Enqueued ==> r.queues == queues
    ensures (forall a :: a in queues ==> queues[a].Bounded()) ==> forall a :: a in r.queues ==> r.queues[a].Bounded()
  {
    var target := request.Receiver();
    if target !in queues then
      Dispatched(queues, PeerDisconnected)
    else
      match queues[target].TrySend(request)
      case Ok(q) => Dispatched(queues[target := q], Enqueued)
      case Err(Full) => Dispatched(queues, QueueFull)
      case Err(Closed) => Dispatched(queues, QueueClosed)
  }

  /** One write outcome recorded: exactly one counter grows, by one. */
  function Tally(c: Counters, writeOk: bool): (r: Counters)
    ensures r.success + r.failure == c.success + c.failure + 1
    ensures r.success >= c.success && r.failure >= c.failure
    ensures writeOk <==> r.success > c.success
    ensures !writeOk <==> r.failure > c.failure
  {
    if writeOk then c.(success := c.success + 1) else c.(failure := c.failure + 1)
  }

  /**
   * One iteration of the writer loop: take the oldest queued message, hand
   * it to the writer, and record the writer's outcome `writeOk`. With
   * nothing queued, nothing happens.
   */
  function WriterStep(q: Queue, c: Counters, writeOk: bool): (r: Written)
    ensures q.contents == [] ==> r == Written(q, c, None)
    ensures q.contents != [] ==>
      && r.message == Some(q.contents[0])
      && [q.contents[0]] + r.queue.contents == q.contents
      && r.counters == Tally(c, writeOk)
    ensures r.queue.capacity == q.capacity && r.queue.closed == q.closed
  {
    var received := q.Recv();
    match received.message
    case None => Written(q, c, None)
    case Some(m) => Written(received.rest, Tally(c, writeOk), Some(m))
  }

  /**
   * Successive writer-loop iterations, the i-th write reporting `writes[i]`,
   * until the writes are used up or nothing is queued.
   */
  function Drain(q: Queue, c: Counters, writes: seq<bool>): (r: Drained)
    ensures |r.written| <= |writes| && |r.written| <= |q.contents|
    ensures r.counters.success >= c.success && r.counters.failure >= c.failure
    ensures r.counters.success + r.counters.failure == c.success + c.failure + |r.written|
    ensures r.queue.capacity == q.capacity && r.queue.closed == q.closed
    decreases |writes|
  {
    if writes == [] || q.contents == [] then
      Drained(q, c, [])
    else
      var step := WriterStep(q, c, writes[0]);
      var rest := Drain(step.queue, step.counters, writes[1..]);
      Drained(rest.queue, rest.counters, [q.contents[0]] + rest.written)
  }

  /**
   * A drain that has handed out `written` so far, with `q` and `c` left and
   * writes `writes[i..]` to go, goes on as one writer-loop iteration, from
   * which `q2` and `c2` are left, and then the rest of the drain.
   */
  lemma DrainAdvance(goal: Drained, written: seq<Message>, q: Queue, c: Counters, writes: seq<bool>, i: nat,
                     q2: Queue, c2: Counters, m: Option<Message>)
    requires i < |writes| && q.contents != []
    requires var rest := Drain(q, c, writes[i..]);
      goal == Drained(rest.queue, rest.counters, written + rest.written)
    requires WriterStep(q, c, writes[i]) == Written(q2, c2, m)
    ensures m == Some(q.contents[0])
    ensures var rest := Drain(q2, c2, writes[i + 1..]);
      goal == Drained(rest.queue, rest.counters, (written + [m.value]) + rest.written)
  {
  }

  /**
   * The liveness ping to `remote`: addressed outbound to it, carrying the
   * sync layer's current block height, or 0 when the node runs without one.
   */
  function PingRequest(remote: SocketAddr, syncHeight: Option<nat>): (r: Message)
    ensures r.direction.Outbound? && r.Receiver() == remote
    ensures r.payload.Ping?
    ensures syncHeight == None ==> r.payload.blockHeight == 0
    ensures syncHeight != None ==> r.payload.blockHeight == syncHeight.value
  {
    var height := match syncHeight case Some(h) => h case None => 0;
    Message(Outbound(remote), Ping(height))
  }

  /** The outbound half of a node: the channel registry and the two counters. */
  class Outbound {
    /** Peer address to the sending half of that peer's channel. */
    var channels: map<SocketAddr, Channel>
    /** Messages the writer tasks wrote successfully. */
    var sendSuccessCount: nat
    /** Messages the writer tasks failed to write. */
    var sendFailureCount: nat

    /**
     * The registry invariant kept by the connection manager: each channel is
     * bound to exactly one address.
     */
    ghost predicate Valid()
      reads this
    {
      forall a, b :: a in channels && b in channels && a != b ==> channels[a] != channels[b]
    }

    /** The registry seen as values. */
    ghost function Queues(): (qs: map<SocketAddr, Queue>)
      reads this, channels.Values
      ensures qs.Keys == channels.Keys
    {
      map a | a in channels :: channels[a].Value()
    }

    function Counts(): Counters
      reads this
    {
      Counters(sendSuccessCount, sendFailureCount)
    }

    /** `Outbound::new`: adopts the given registry, with both counters at zero. */
    constructor (channels: map<SocketAddr, Channel>)
      ensures this.channels == channels
      ensures Counts() == Counters(0, 0)
    {
      this.channels := channels;
      sendSuccessCount := 0;
      sendFailureCount := 0;
    }

    /** Fetches the channel registered for `remote`; a missing entry is an error and is never created. */
    function OutboundChannel(remote: SocketAddr): (r: Result<Channel, NetworkError>)
      reads this
      ensures r.Ok? <==> remote in channels
      ensures r.Ok? ==> r.value == channels[remote]
      ensures r.Err? ==> r.error == OutboundChannelMissing
    {
      if remote in channels then Ok(channels[remote]) else Err(OutboundChannelMissing)
    }

    /**
     * `send_request`: dispatch `request` to its receiver's channel without
     * waiting. Only that channel may change; the registry and the counters
     * stay as they were.
     */
    method SendRequest(request: Message) returns (outcome: SendOutcome)
      requires request.direction.Outbound?
      requires Valid()
      modifies channels.Values
      ensures Valid()
      ensures Dispatch(old(Queues()), request) == Dispatched(Queues(), outcome)
      ensures channels == old(channels) && Counts() == old(Counts())
    {
      var target := request.Receiver();
      var lookup := OutboundChannel(target);
      match lookup {
        case Err(_) =>
          outcome := PeerDisconnected;
        case Ok(channel) =>
          var err := channel.TrySend(request);
          match err {
            case None => outcome := Enqueued;
            case Some(Full) => outcome := QueueFull;
            case Some(Closed) => outcome := QueueClosed;
          }
          assert forall a :: a in channels && a != target ==> channels[a] != channel;
          if err == None {
            assert Queues() == old(Queues())[target := channel.Value()];
          } else {
            assert Queues() == old(Queues());
          }
      }
    }
  }

  /** The parts of a node that drive the outbound path. */
  class Node {
    const outbound: Outbound

    constructor (outbound: Outbound)
      ensures this.outbound == outbound
    {
      this.outbound := outbound;
    }

    /**
     * `send_ping`: build the ping for `remote` from the sync layer's height
     * (`syncHeight`, absent when the node runs without a sync layer) and
     * dispatch it like any other message.
     */
    method SendPing(remote: SocketAddr, syncHeight: Option<nat>) returns (outcome: SendOutcome)
      requires outbound.Valid()
      modifies outbound.channels.Values
      ensures outbound.Valid()
      ensures Dispatch(old(outbound.Queues()), PingRequest(remote, syncHeight)) == Dispatched(outbound.Queues(), outcome)
      ensures outbound.channels == old(outbound.channels) && outbound.Counts() == old(outbound.Counts())
    {
      var height := 0;
      if syncHeight.Some? {
        height := syncHeight.value;
      }
      outcome := outbound.SendRequest(Message(Outbound(remote), Ping(height)));
    }

    /**
     * One iteration of `listen_for_outbound_messages`: receive the oldest
     * message of `receiver`, hand it to the writer, whose outcome is
     * `writeOk`, and count that outcome. Returns the message handed over.
     */
    method ListenStep(receiver: Channel, writeOk: bool) returns (written: Option<Message>)
      modifies receiver, outbound`sendSuccessCount, outbound`sendFailureCount
      ensures WriterStep(old(receiver.Value()), old(outbound.Counts()), writeOk)
              == Written(receiver.Value(), outbound.Counts(), written)
      ensures outbound.channels == old(outbound.channels)
    {
      written := receiver.Recv();
      if written.Some? {
        if writeOk {
          outbound.sendSuccessCount := outbound.sendSuccessCount + 1;
        } else {
          outbound.sendFailureCount := outbound.sendFailureCount + 1;
        }
      }
    }

    /**
     * The writer loop run for `|writes|` iterations, the i-th write reporting
     * `writes[i]`; it stops early once `receiver` has nothing queued, which
     * is where the writer task would wait for the next message.
     */
    method Listen(receiver: Channel, writes: seq<bool>) returns (written: seq<Message>)
      modifies receiver, outbound`sendSuccessCount, outbound`sendFailureCount
      ensures Drain(old(receiver.Value()), old(outbound.Counts()), writes)
              == Drained(receiver.Value(), outbound.Counts(), written)
      ensures outbound.channels == old(outbound.channels)
    {
      ghost var goal := Drain(receiver.Value(), outbound.Counts(), writes);
      ghost var q, c := receiver.Value(), outbound.Counts();
      written := [];
      var i := 0;
      while i < |writes| && receiver.contents != []
        invariant 0 <= i <= |writes|
        invariant q == receiver.Value() && c == outbound.Counts()
        invariant
          var rest := Drain(q, c, writes[i..]);
          goal == Drained(rest.queue, rest.counters, written + rest.written)
      {
        var m := ListenStep(receiver, writes[i]);
        DrainAdvance(goal, written, q, c, writes, i, receiver.Value(), outbound.Counts(), m);
        q, c := receiver.Value(), outbound.Counts();
        written := written + [m.value];
        i := i + 1;
      }
    }
  }
}

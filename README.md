# Outbound dispatch of a peer-to-peer node, in Dafny

This project models the outbound side of a blockchain node's networking layer
(`network/src/outbound/outbound.rs`). Protocol code hands a message to the
dispatcher. The dispatcher looks up the receiver's channel in a registry and
makes one non-blocking attempt to queue the message there. A per-connection
writer task takes queued messages in order, gives each one to the wire writer,
and counts successful and failed writes. A ping builder dispatches the node's
current block height to a peer.

The model is sequential. Each asynchronous operation is modelled as one step
on the abstract state:

- the registry: a map from peer address to a `Channel` object;
- per channel: its queued messages (oldest first), its capacity, and whether
  its receiving half is closed;
- the two telemetry counters.

Modules:

- `Messages` (messages.dfy): the message envelope, its direction and payload.
- `Mpsc` (mpsc.dfy): the bounded channel. `Queue` is a channel's value, with
  `TrySend` and `Recv` as functions on it. `Channel` is the object that the
  registry's sender and the writer's receiver share.
- `Outbound` (outbound.dfy): the specification functions `Dispatch`, `Tally`,
  `WriterStep`, `Drain` and `PingRequest`. The classes `Outbound` (registry
  and counters) and `Node` (`send_ping` and the writer loop) are proved
  against those functions.
- `OutboundProperties` (properties.dfy): properties of several operations in
  a row. These are per-peer isolation, lossy filling of a bounded queue,
  first-in-first-out delivery, exact counter accounting, and the scenario of
  a four-slot queue receiving five messages.

Points where the model follows the code rather than its comments:

- The dispatcher never creates a registry entry. The doc comments at
  outbound.rs:51-52 and :81 say it "creates or fetches" a channel, or
  "establishes" one if it is missing. The lookup at :84-89 only fetches, and
  a missing entry ends the send as `PeerDisconnected`.
- A non-blocking send to a closed channel is refused as closed even when the
  channel is also full. The channel library checks for closure before it
  checks for a free slot, and `Queue.TrySend` does the same.
- A closed channel still hands out its buffered messages to the writer.
- The doc comments on the two counters (outbound.rs:33, :35) say they count
  send requests that succeeded or failed. The code raises them only in the
  writer loop (:117-122), once per message handed to the wire writer. A send
  refused as full, closed or disconnected touches neither counter, and
  `Outbound.SendRequest` leaves both unchanged.
- `send_request` returns nothing and only logs its three failure branches.
  The model returns a `SendOutcome` (`Enqueued`, `QueueFull`, `QueueClosed`,
  `PeerDisconnected`) so that each branch can be stated.

## Model

| member | source | states |
|---|---|---|
| `Mpsc.Queue.TrySend` | network/src/outbound/outbound.rs:59-72 | A non-blocking send is refused as closed exactly when the channel is closed. It is refused as full exactly when the channel is open with no free slot. Otherwise it is accepted: the message goes at the back and nothing else changes. An accepted send never takes a queue over capacity. |
| `Mpsc.Queue.Recv` | network/src/outbound/outbound.rs:115 | A receive yields the oldest message, and what it leaves plus that message is the old queue. An empty queue yields nothing and stays unchanged. Capacity and closure are kept, and so is the capacity bound. |
| `Mpsc.Channel.TrySend` | network/src/outbound/outbound.rs:59 | `try_send` on the shared channel object changes the channel exactly as `Queue.TrySend` says, and reports its refusal. A refused message leaves the channel unchanged. |
| `Mpsc.Channel.Recv` | network/src/outbound/outbound.rs:115 | `recv` on the shared channel object returns the message, and leaves the channel, that `Queue.Recv` gives. |
| `Outbound.Dispatch` | network/src/outbound/outbound.rs:55-89 | A send to an address with no registry entry ends as `PeerDisconnected` and changes nothing. It ends as `QueueClosed` exactly when the receiver's channel is closed. It ends as `QueueFull` exactly when that channel is open and full. When enqueued, the message is appended at the back of the receiver's queue only. Any refusal leaves every queue unchanged. The registry's addresses never change, no other peer's queue changes, and if every queue is within capacity it stays so. |
| `Outbound.Tally` | network/src/outbound/outbound.rs:116-124 | Each write outcome raises exactly one counter, by one: the success counter when the write succeeded, the failure counter otherwise. Neither counter decreases. |
| `Outbound.WriterStep` | network/src/outbound/outbound.rs:114-125 | One writer-loop iteration hands over the oldest queued message and leaves the rest in order. It records the write outcome as `Tally` says: the success counter grows by one when the write succeeded, the failure counter by one otherwise, and neither decreases. With nothing queued it changes nothing. |
| `Outbound.Drain` | network/src/outbound/outbound.rs:113-125 | Successive writer-loop iterations write at most one message per write outcome and never more messages than were queued. Neither counter decreases, and together they grow by exactly the number of messages written. Capacity and closure are kept. Which messages are written is stated by `DrainFifo`, and which counter grows by `DrainCounts`. |
| `Outbound.PingRequest` | network/src/outbound/outbound.rs:95-107 | A ping is addressed outbound to the given peer and carries a `Ping` payload. The height is the sync layer's current height, or 0 when the node has no sync layer. |
| `Outbound.Outbound.constructor` | network/src/outbound/outbound.rs:40-46 | `new` keeps the given registry as it is and starts both counters at zero. |
| `Outbound.Outbound.OutboundChannel` | network/src/outbound/outbound.rs:84-89 | The lookup succeeds exactly when the address is registered, and it returns that address's channel. Otherwise it fails with `OutboundChannelMissing`. It only reads the registry. |
| `Outbound.Outbound.SendRequest` | network/src/outbound/outbound.rs:55-78 | `send_request` changes the registry's channels and returns the outcome exactly as `Dispatch` says for the same message. The registry map and both counters are left unchanged, and so is the registry invariant. |
| `Outbound.Node.SendPing` | network/src/outbound/outbound.rs:93-109 | `send_ping` dispatches `PingRequest(remote, syncHeight)`, with exactly the effect and outcome `Dispatch` gives. The registry and counters are unchanged. |
| `Outbound.Node.ListenStep` | network/src/outbound/outbound.rs:112-126 | One iteration of `listen_for_outbound_messages` changes the receiver's channel and the counters as `WriterStep` says. It returns the message handed to the writer and leaves the registry unchanged. |
| `Outbound.Node.Listen` | network/src/outbound/outbound.rs:112-126 | Running the writer loop for a given list of write outcomes changes the channel and counters as `Drain` says. It returns the messages written, in the order they were written. |
| `OutboundProperties.DispatchAllIsolation` | network/src/outbound/outbound.rs:55-89 | After any sequence of sends, each peer's queue is what offering it only the messages addressed to that peer gives. Sends to other peers, or to unregistered addresses, do not affect it. The registry keeps its addresses. |
| `OutboundProperties.OfferAllFills` | network/src/outbound/outbound.rs:59-72 | An open queue keeps the first messages offered, up to its free slots, and drops all later ones (newest dropped first). A closed queue keeps none. Capacity and closure are unchanged and the queue never exceeds its capacity. |
| `OutboundProperties.DrainFifo` | network/src/outbound/outbound.rs:113-116 | The writer loop hands out exactly the oldest `k` messages in order, where `k` is the smaller of the number of writes and the queue length. The remaining messages stay queued in order. |
| `OutboundProperties.DrainCounts` | network/src/outbound/outbound.rs:115-124 | Over those `k` messages, the success counter grows by the number of successful writes and the failure counter by the rest. The two together grow by exactly `k`, the number of messages taken. |
| `OutboundProperties.EndToEndInOrder` | network/src/outbound/outbound.rs:55-126 | Messages sent to an empty open queue with `n` slots reach the writer in sending order. Exactly the first `n` of them arrive, and none of the dropped ones. |
| `OutboundProperties.FillBelowCapacity` | network/src/outbound/outbound.rs:55-60 | Up to `n` messages sent to a peer whose empty open queue has `n` slots are all queued, in sending order. |
| `OutboundProperties.DrainAllSucceeding` | network/src/outbound/outbound.rs:115-118 | Draining with every write succeeding empties the queue and delivers its messages in order. It adds one success per message and no failures. |
| `OutboundProperties.CapacityFourScenario` | network/src/outbound/outbound.rs:55-126 | Five messages are sent to a peer with four free slots. The first four are queued and the fifth is refused as `QueueFull`. Four successful writes then deliver those four in order, empty the queue and bring the counters to 4 successes and 0 failures. |
| `OutboundProperties.CapacityFourRun` | network/src/outbound/outbound.rs:93-126 | The same scenario on the node's own objects. Five pings give four `Enqueued` and one `QueueFull`. The writer loop then writes pings 0 to 3 in order and the counters end at 4 and 0. |

## Left out

- Concurrency and the async runtime are not modelled: the concurrent map, task scheduling and atomic memory ordering. Each operation is one sequential step, so interleavings between producers and writer tasks are not modelled.
- Outbound.Tally: the counters are unbounded naturals. The 64-bit wrap-around of an atomic add is not modelled, because no run can reach 2^64 writes.
- Block heights in `Ping` are unbounded naturals; the payload's fixed-width integer is not modelled.
- Outbound.Outbound.SendRequest: requires the registry invariant `Valid()`, which says each channel is registered under exactly one address. The connection manager keeps this invariant; the code of the send does not check it. Without it, the per-address view `Queues()` would show one append at two addresses.
- Outbound.Node.SendPing: the notification to the peer book (`sending_ping`, outbound.rs:101) is not modelled. The peer book is an external collaborator whose state this core does not own.
- The sync layer's `current_block_height()` is not modelled as a call. Its result enters as the optional parameter `syncHeight`.
- The wire codec and socket write (`ConnWriter::write_message`) are not modelled. Their result enters as the boolean `writeOk`, or as the list `writes` in `Listen`.
- Outbound.Node.Listen: the source loop (outbound.rs:113) never ends. The model runs a finite prefix of its iterations, one per entry of `writes`. It stops where the writer task would wait for the next message, claims no termination of the real loop, and does not model the busy spin after `recv` returns nothing on a closed, empty channel.
- Log output (`warn!`, `error!`) is not modelled; each branch appears only as the returned `SendOutcome`.
- The message module is not part of this model. `Message.Receiver` is defined for outbound messages only, so a send requires an outbound message. Every caller in this core builds one.
- Not modelled: creating channels, inserting or removing registry entries, and closing a channel's receiving half. The connection manager does these, outside this core. The `Channel` constructor stands in for channel creation, and `closed` is part of a channel's state.
- The two example programs (transaction generation and block mining in `parameters/` and `testing/`) are not modelled. They only drive cryptographic, consensus and storage code from other crates.

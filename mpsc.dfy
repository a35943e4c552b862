/**
 * The bounded multi-producer, single-consumer channel that links the
 * dispatcher to one peer's writer task: `Sender::try_send` on the producing
 * side, `Receiver::recv` on the consuming side. `Queue` is the value a
 * channel holds; `Channel` is the shared object both halves point at.
 */
module Mpsc {
  import opened Wrappers
  import opened Messages

  /** Why a non-blocking send was refused. */
  datatype TrySendError = Full | Closed

  /** What one receive hands out, and the queue it leaves behind. */
  datatype Received = Received(message: Option<Message>, rest: Queue)

  /**
   * A channel's state: the queued messages, oldest first; the fixed number
   * of slots; and whether the receiving half has been closed.
   */
  datatype Queue = Queue(contents: seq<Message>, capacity: nat, closed: bool) {

    /** A queue never holds more messages than it has slots. */
    predicate Bounded() {
      |contents| <= capacity
    }

    /**
     * A non-blocking send. A closed channel refuses before capacity is
     * considered; an open one accepts exactly when a slot is free, and a
     * refused message leaves the queue as it was.
     */
    function TrySend(m: Message): (r: Result<Queue, TrySendError>)
      ensures r.Ok? <==> !closed && |contents| < capacity
      ensures r == Err(Closed) <==> closed
      ensures r == Err(Full) <==> !closed && capacity <= |contents|
      ensures r.Ok? ==> r.value == this.(contents := contents + [m])
      ensures r.Ok? ==> r.value.Bounded()
    {
      if closed then Err(Closed)
      else if |contents| < capacity then Ok(this.(contents := contents + [m]))
      else Err(Full)
    }

    /**
     * The queue after offering `m` and ignoring the outcome: the message is
     * appended when accepted and dropped otherwise.
     */
    function Offer(m: Message): Queue {
      match TrySend(m)
      case Ok(q) => q
      case Err(_) => this
    }

    /**
     * One receive: the oldest message, if any, and the rest of the queue.
     * Buffered messages are still handed out after the channel is closed.
     * An empty queue yields nothing (an open channel's receive would wait
     * there; a closed one returns no message).
     */
    function Recv(): (r: Received)
      ensures contents == [] ==> r == Received(None, this)
      ensures contents != [] ==> r.message == Some(contents[0]) && [contents[0]] + r.rest.contents == contents
      ensures r.rest.capacity == capacity && r.rest.closed == closed
      ensures Bounded() ==> r.rest.Bounded()
    {
      if contents == [] then Received(None, this)
      else Received(Some(contents[0]), this.(contents := contents[1..]))
    }
  }

  /** The channel object shared by a `Sender` (in the registry) and its `Receiver` (in the writer task). */
  class Channel {
    var contents: seq<Message>
    const capacity: nat
    var closed: bool

    /** The queue this channel currently holds. */
    function Value(): Queue
      reads this
    {
      Queue(contents, capacity, closed)
    }

    /** A fresh open channel with `capacity` slots, as the connection manager creates it. */
    constructor (capacity: nat)
      ensures Value() == Queue([], capacity, false)
    {
      contents := [];
      this.capacity := capacity;
      closed := false;
    }

    /** `Sender::try_send`: `None` when the message was queued, otherwise the refusal. */
    method TrySend(m: Message) returns (err: Option<TrySendError>)
      modifies this
      ensures old(Value()).TrySend(m) == if err == None then Ok(Value()) else Err(err.value)
      ensures err != None ==> Value() == old(Value())
    {
      if closed {
        err := Some(Closed);
      } else if |contents| < capacity {
        contents := contents + [m];
        err := None;
      } else {
        err := Some(Full);
      }
    }

    /** `Receiver::recv`, one message at a time. */
    method Recv() returns (m: Option<Message>)
      modifies this
      ensures old(Value()).Recv() == Received(m, Value())
    {
      if contents == [] {
        m := None;
      } else {
        m := Some(contents[0]);
        contents := contents[1..];
      }
    }
  }
}

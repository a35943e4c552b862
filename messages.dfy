/**
 * The message envelope carried by the outbound path: a direction tagged with
 * the remote peer's address, and a protocol payload. Only the parts the
 * outbound core reads are modelled; the message module itself is not part of
 * this model.
 */
module Messages {

  /** A peer's network endpoint (host and port); the key of the channel registry. */
  datatype SocketAddr = SocketAddr(host: string, port: nat)

  /** Which way a message travels, with the remote peer's address. */
  datatype Direction = Inbound(source: SocketAddr) | Outbound(target: SocketAddr)

  /**
   * Protocol payloads. The core builds only `Ping`, carrying the sender's
   * block height; every other kind passes through it uninterpreted.
   */
  datatype Payload = Ping(blockHeight: nat) | Other(kind: string)

  datatype Message = Message(direction: Direction, payload: Payload) {

    /** The peer an outbound message is addressed to. */
    function Receiver(): SocketAddr
      requires direction.Outbound?
    {
      direction.target
    }
  }
}

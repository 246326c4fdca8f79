/** What dispatch does about a full channel, by the type of the packet. */
module Backpressure {
  import opened GatewayProtocol
  import opened Channel

  /** RawMotion evicts; the other types are refused by a full channel. */
  function Policy<T>(packetType: PacketType, item: T): Op<T> {
    if packetType.RawMotion? then DropOldestOp(item) else TrySendOp(item)
  }
}

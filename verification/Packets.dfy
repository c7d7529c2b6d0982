/** The datagram fields, the type codes and the size limits shared by every component. */
module Packets {

  type Byte = b: int | 0 <= b < 256
  type Bytes = seq<Byte>

  const DATA: Byte := 0
  const SYN: Byte := 1
  const ACK: Byte := 2
  const SYNACK: Byte := 3
  const DELIVER: Byte := 5

  // Eleven header bytes: type, sequence number, peer address, peer port.
  const MIN_LEN := 11
  const MAX_LEN := 1024
  const MAX_PAYLOAD := MAX_LEN - MIN_LEN

  // Slots in each sender and receiver window.
  const WINDOW_SIZE := 1024

  datatype Option<+T> = None | Some(value: T)

  /** A datagram without its addresses. */
  datatype Packet = Packet(kind: Byte, seqNum: nat, payload: Bytes)

  /** DATA and DELIVER are the packets that occupy a receiver slot. */
  predicate Storable(p: Packet) {
    p.kind == DATA || p.kind == DELIVER
  }
}

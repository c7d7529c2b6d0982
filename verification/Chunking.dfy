/** How `send` cuts a message into numbered packets, in closed form. */
module Chunking {
  import opened Packets

  function ChunkCount(m: Bytes): nat {
    (|m| + MAX_PAYLOAD - 1) / MAX_PAYLOAD
  }

  /** The number carried by the DELIVER marker; numbers 1 .. DeliverSeq(m) - 1 carry data. */
  function DeliverSeq(m: Bytes): nat {
    ChunkCount(m) + 1
  }

  function Min(a: int, b: int): int {
    if a <= b then a else b
  }

  /** The payload numbered i, counting from 1. */
  function Chunk(m: Bytes, i: nat): Bytes
    requires 1 <= i <= ChunkCount(m)
  {
    m[MAX_PAYLOAD * (i - 1)..Min(MAX_PAYLOAD * i, |m|)]
  }

  /** The packet numbered i in the transmission of m. */
  function PacketAt(m: Bytes, i: nat): Packet {
    if 1 <= i <= ChunkCount(m) then Packet(DATA, i, Chunk(m, i)) else Packet(DELIVER, i, [])
  }

  /** Every packet of m, DELIVER included, fits in a window. */
  predicate Fits(m: Bytes) {
    DeliverSeq(m) < WINDOW_SIZE
  }

  /** The payloads of packets i, i + 1, ... joined together. */
  function JoinFrom(m: Bytes, i: nat): Bytes
    requires 1 <= i <= DeliverSeq(m)
    decreases DeliverSeq(m) - i
  {
    if i == DeliverSeq(m) then [] else PacketAt(m, i).payload + JoinFrom(m, i + 1)
  }

  lemma {:induction false} JoinIsSuffix(m: Bytes, i: nat)
    requires 1 <= i <= DeliverSeq(m)
    ensures JoinFrom(m, i) == m[Min(MAX_PAYLOAD * (i - 1), |m|)..]
    decreases DeliverSeq(m) - i
  {
    if i < DeliverSeq(m) {
      JoinIsSuffix(m, i + 1);
    }
  }

  /** The packets of a message partition it: no payload is empty or too long, and joined in
      number order they give the message back. */
  lemma ChunksPartition(m: Bytes)
    ensures JoinFrom(m, 1) == m
    ensures forall i :: 1 <= i < DeliverSeq(m) ==> 1 <= |PacketAt(m, i).payload| <= MAX_PAYLOAD
    ensures forall i :: 1 <= i < DeliverSeq(m) - 1 ==> |PacketAt(m, i).payload| == MAX_PAYLOAD
  {
    JoinIsSuffix(m, 1);
  }

  /** The largest message a window holds is 1022 full payloads. */
  lemma CapacityExact(m: Bytes)
    ensures Fits(m) <==> |m| <= 1022 * 1013
  {
  }
}

/** The Java client's codec for the same layout: fields are wider signed integers, narrowed by casts
    on the way out and widened as unsigned on the way in. */
module JavaCodec {
  import opened Packets
  import opened Codec

  type S8 = x: int | -0x80 <= x < 0x80
  type S16 = x: int | -0x8000 <= x < 0x8000
  type S32 = x: int | -0x8000_0000 <= x < 0x8000_0000

  const JAVA_MAX_LEN := 11 + 1024

  /** The fields of ca.concordia.Packet; the address is held as Java's signed bytes. */
  datatype JavaPacket = JavaPacket(kind: int, sequenceNumber: int, host: seq<S8>, port: int, payload: seq<S8>)

  datatype JavaError = Overflow | InvalidLength
  datatype JavaResult<+T> = Built(value: T) | Thrown(error: JavaError)

  // ---- casts

  function ToByte(x: int): S8 {
    var r := x % 0x100;
    if r < 0x80 then r else r - 0x100
  }

  function ToShort(x: int): S16 {
    var r := x % 0x1_0000;
    if r < 0x8000 then r else r - 0x1_0000
  }

  function ToInt(x: int): S32 {
    var r := x % 0x1_0000_0000;
    if r < 0x8000_0000 then r else r - 0x1_0000_0000
  }

  /** Byte.toUnsignedInt, Short.toUnsignedInt and Integer.toUnsignedLong. */
  function Unsigned8(x: S8): Byte {
    if x < 0 then x + 0x100 else x
  }

  function Unsigned16(x: S16): U16 {
    if x < 0 then x + 0x1_0000 else x
  }

  function Unsigned32(x: S32): U32 {
    if x < 0 then x + 0x1_0000_0000 else x
  }

  /** Over every unsigned value of its width, narrowing and widening again change nothing. */
  lemma WideningUndoesNarrowing(b: Byte, k: U16, n: U32)
    ensures Unsigned8(ToByte(b)) == b && Unsigned16(ToShort(k)) == k && Unsigned32(ToInt(n)) == n
  {
  }

  // ---- ByteBuffer, big-endian

  function PutInt(v: S32): seq<S8> {
    [ToByte(v / 0x100_0000), ToByte(v / 0x1_0000), ToByte(v / 0x100), ToByte(v)]
  }

  function PutShort(v: S16): seq<S8> {
    [ToByte(v / 0x100), ToByte(v)]
  }

  function GetInt(b: seq<S8>): S32
    requires |b| == 4
  {
    ToInt(Value32(Octets(b)))
  }

  function GetShort(b: seq<S8>): S16
    requires |b| == 2
  {
    ToShort(Value16(Octets(b)))
  }

  /** Java's signed bytes as the octets they put on the wire, and back. */
  function Octets(b: seq<S8>): Bytes {
    seq(|b|, i requires 0 <= i < |b| => Unsigned8(b[i]))
  }

  function Signed(b: Bytes): seq<S8> {
    seq(|b|, i requires 0 <= i < |b| => ToByte(b[i]))
  }

  lemma OctetsInverse(b: Bytes, c: seq<S8>)
    ensures Octets(Signed(b)) == b && Signed(Octets(c)) == c
  {
  }

  lemma OctetsJoin(b: seq<S8>, c: seq<S8>)
    ensures Octets(b + c) == Octets(b) + Octets(c)
  {
  }

  lemma ByteCastKeepsLowOctet(x: int)
    ensures Unsigned8(ToByte(x)) == x % 0x100
  {
  }

  /** Taking 2^32 away changes no octet. */
  lemma WrapKeepsOctets(n: int)
    ensures (n - 0x1_0000_0000) % 0x100 == n % 0x100
    ensures (n - 0x1_0000_0000) / 0x100 == n / 0x100 - 0x100_0000
    ensures (n - 0x1_0000_0000) / 0x1_0000 == n / 0x1_0000 - 0x1_0000
    ensures (n - 0x1_0000_0000) / 0x100_0000 == n / 0x100_0000 - 0x100
  {
  }

  lemma MultiplesVanish(x: int)
    ensures (x - 0x100_0000) % 0x100 == x % 0x100
    ensures (x - 0x1_0000) % 0x100 == x % 0x100
    ensures (x - 0x100) % 0x100 == x % 0x100
  {
  }

  lemma CastKeepsOctets(n: U32)
    ensures ToInt(n) / 0x100_0000 % 0x100 == n / 0x100_0000
    ensures ToInt(n) / 0x1_0000 % 0x100 == n / 0x1_0000 % 0x100
    ensures ToInt(n) / 0x100 % 0x100 == n / 0x100 % 0x100
    ensures ToInt(n) % 0x100 == n % 0x100
  {
    WrapKeepsOctets(n);
    MultiplesVanish(n / 0x100);
    MultiplesVanish(n / 0x1_0000);
    MultiplesVanish(n / 0x100_0000);
  }

  /** putInt after the cast to int writes the four octets of the unsigned number. */
  lemma PutIntIsBigEndian(n: U32)
    ensures Octets(PutInt(ToInt(n))) == BigEndian32(n)
  {
    CastKeepsOctets(n);
    var v: int := ToInt(n);
    ByteCastKeepsLowOctet(v / 0x100_0000);
    ByteCastKeepsLowOctet(v / 0x1_0000);
    ByteCastKeepsLowOctet(v / 0x100);
    ByteCastKeepsLowOctet(v);
  }

  lemma PutShortIsBigEndian(k: U16)
    ensures Octets(PutShort(ToShort(k))) == BigEndian16(k)
  {
    var v: int := ToShort(k);
    if v < 0 {
      assert v / 0x100 == k / 0x100 - 0x100;
    }
  }

  // ---- write and fromBuffer

  /** toBytes: write into a buffer of 1035 bytes. The address may have 4 or 16 bytes; one of the puts
      throws BufferOverflowException exactly when everything written together is longer. */
  method ToBytes(p: JavaPacket) returns (raw: JavaResult<seq<S8>>)
    ensures raw == if |Written(p)| > JAVA_MAX_LEN then Thrown(Overflow) else Built(Written(p))
    ensures raw.Thrown? <==> 7 + |p.host| + |p.payload| > JAVA_MAX_LEN
  {
    var buf: seq<S8> := [];
    buf := buf + [ToByte(p.kind)];
    buf := buf + PutInt(ToInt(p.sequenceNumber));
    buf := buf + p.host;
    buf := buf + PutShort(ToShort(p.port));
    buf := buf + p.payload;
    assert buf == Written(p);
    if |buf| > JAVA_MAX_LEN {
      return Thrown(Overflow);
    }
    raw := Built(buf);
  }

  function Written(p: JavaPacket): seq<S8> {
    [ToByte(p.kind)] + PutInt(ToInt(p.sequenceNumber)) + p.host + PutShort(ToShort(p.port)) + p.payload
  }

  /** fromBytes: too long for the buffer, too short for a header, or a packet. */
  method FromBytes(bytes: seq<S8>) returns (p: JavaResult<JavaPacket>)
    ensures p == JavaParsed(bytes)
    ensures p == Thrown(Overflow) <==> |bytes| > 1035
    ensures p == Thrown(InvalidLength) <==> |bytes| < 11
  {
    if |bytes| > JAVA_MAX_LEN {
      return Thrown(Overflow);
    }
    var limit := |bytes|;
    if limit < MIN_LEN || limit > JAVA_MAX_LEN {
      return Thrown(InvalidLength);
    }
    var position := 0;
    var kind := Unsigned8(bytes[position]);
    position := position + 1;
    var sequenceNumber := Unsigned32(GetInt(bytes[position..position + 4]));
    position := position + 4;
    var host := bytes[position..position + 4];
    position := position + 4;
    var port := Unsigned16(GetShort(bytes[position..position + 2]));
    position := position + 2;
    p := Built(JavaPacket(kind, sequenceNumber, host, port, bytes[position..]));
  }

  function JavaParsed(bytes: seq<S8>): JavaResult<JavaPacket> {
    if |bytes| > JAVA_MAX_LEN then Thrown(Overflow)
    else if |bytes| < MIN_LEN then Thrown(InvalidLength)
    else Built(JavaPacket(Unsigned8(bytes[0]), Unsigned32(GetInt(bytes[1..5])), bytes[5..9],
                          Unsigned16(GetShort(bytes[9..11])), bytes[11..]))
  }

  // ---- agreement with the Go codec

  /** The Java packet that carries the fields f. */
  function JavaOf(f: Fields): JavaPacket {
    JavaPacket(f.kind, f.seqNum, Signed([f.peer.ip.a, f.peer.ip.b, f.peer.ip.c, f.peer.ip.d]), f.peer.port, Signed(f.payload))
  }

  /** For every value of the fields, Java writes the octets Go writes. */
  lemma WritersAgree(f: Fields)
    ensures Octets(Written(JavaOf(f))) == Layout(f)
  {
    var p := JavaOf(f);
    var head, number := [ToByte(p.kind)], PutInt(ToInt(p.sequenceNumber));
    var port := PutShort(ToShort(p.port));
    OctetsJoin(head + number + p.host + port, p.payload);
    OctetsJoin(head + number + p.host, port);
    OctetsJoin(head + number, p.host);
    OctetsJoin(head, number);
    PutIntIsBigEndian(f.seqNum);
    PutShortIsBigEndian(f.peer.port);
    OctetsInverse([f.peer.ip.a, f.peer.ip.b, f.peer.ip.c, f.peer.ip.d], []);
    OctetsInverse(f.payload, []);
    assert Octets(head) == [f.kind];
  }

  /** On every byte string of at least a header that Java accepts, both parsers find the same fields. */
  lemma ParsersFindSameFields(data: Bytes)
    requires MIN_LEN <= |data| <= JAVA_MAX_LEN
    ensures JavaParsed(Signed(data)) == Built(JavaOf(FieldsOf(data)))
  {
    var b := Signed(data);
    OctetsInverse(data, b);
    assert Octets(b[1..5]) == data[1..5] && Octets(b[9..11]) == data[9..11];
    WideningUndoesNarrowing(data[0], Value16(data[9..11]), Value32(data[1..5]));
    assert b[5..9] == Signed([data[5], data[6], data[7], data[8]]) && b[11..] == Signed(data[11..]);
  }

  /** The codecs agree on every byte string: what Go accepts, Java accepts with the same fields and
      writes back to the same bytes; Java alone accepts the eleven lengths 1025 .. 1035. */
  lemma CodecsAgree(data: Bytes)
    ensures Parsed(data).Ok? ==>
              && JavaParsed(Signed(data)) == Built(JavaOf(Parsed(data).value))
              && Octets(Written(JavaOf(Parsed(data).value))) == data
    ensures JavaParsed(Signed(data)).Built? && !Parsed(data).Ok? <==> MAX_LEN < |data| <= JAVA_MAX_LEN
  {
    if MIN_LEN <= |data| <= JAVA_MAX_LEN {
      ParsersFindSameFields(data);
      WritersAgree(FieldsOf(data));
      LayoutInverse(FieldsOf(data), data);
    }
  }
}

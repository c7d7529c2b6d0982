/** The datagram layout, the endpoints' codec and the router's, and a packet's way through both. */
module Codec {
  import opened Packets

  type U16 = x: int | 0 <= x < 0x1_0000
  type U32 = x: int | 0 <= x < 0x1_0000_0000

  datatype Ip = Ip(a: Byte, b: Byte, c: Byte, d: Byte)
  datatype Addr = Addr(ip: Ip, port: U16)

  /** The fields of a datagram; `peer` is the receiver on the way to the router and the sender on
      the way from it. */
  datatype Fields = Fields(kind: Byte, seqNum: U32, peer: Addr, payload: Bytes)

  datatype ParseError = TooShort | TooLong
  datatype Result<+T> = Ok(value: T) | Err(error: ParseError)

  // ---- the layout

  function BigEndian32(n: U32): Bytes {
    [n / 0x100_0000, n / 0x1_0000 % 0x100, n / 0x100 % 0x100, n % 0x100]
  }

  function BigEndian16(n: U16): Bytes {
    [n / 0x100, n % 0x100]
  }

  function Value32(b: Bytes): U32
    requires |b| == 4
  {
    var (b0: int, b1: int, b2: int, b3: int) := (b[0], b[1], b[2], b[3]);
    b0 * 0x100_0000 + b1 * 0x1_0000 + b2 * 0x100 + b3
  }

  function Value16(b: Bytes): U16
    requires |b| == 2
  {
    var (b0: int, b1: int) := (b[0], b[1]);
    b0 * 0x100 + b1
  }

  function Layout(f: Fields): Bytes {
    [f.kind] + BigEndian32(f.seqNum) + [f.peer.ip.a, f.peer.ip.b, f.peer.ip.c, f.peer.ip.d] + BigEndian16(f.peer.port)
    + f.payload
  }

  function FieldsOf(data: Bytes): Fields
    requires |data| >= MIN_LEN
  {
    Fields(data[0], Value32(data[1..5]), Addr(Ip(data[5], data[6], data[7], data[8]), Value16(data[9..11])), data[11..])
  }

  function Parsed(data: Bytes): Result<Fields> {
    if |data| < MIN_LEN then Err(TooShort)
    else if |data| > MAX_LEN then Err(TooLong)
    else Ok(FieldsOf(data))
  }

  /** The two length errors, and nothing else, refuse a datagram. */
  lemma RefusedExactly(data: Bytes)
    ensures Parsed(data) == Err(TooShort) <==> |data| < 11
    ensures Parsed(data) == Err(TooLong) <==> |data| > 1024
    ensures Parsed(data).Ok? <==> 11 <= |data| <= 1024
  {
  }

  /** Where each field lies in a datagram, highest octet first. */
  lemma LayoutIs(f: Fields)
    ensures var raw := Layout(f);
            && |raw| == 11 + |f.payload| && raw[0] == f.kind && raw[11..] == f.payload
            && f.seqNum == (((raw[1] as int * 256 + raw[2] as int) * 256 + raw[3] as int) * 256) + raw[4] as int
            && f.peer.ip == Ip(raw[5], raw[6], raw[7], raw[8])
            && f.peer.port == raw[9] as int * 256 + raw[10] as int
  {
    var raw := Layout(f);
    Decode32(f.seqNum);
    assert raw[1..5] == BigEndian32(f.seqNum) && raw[9..11] == BigEndian16(f.peer.port) && raw[11..] == f.payload;
    assert raw[1] == raw[1..5][0] && raw[2] == raw[1..5][1] && raw[3] == raw[1..5][2] && raw[4] == raw[1..5][3];
  }

  lemma Decode32(n: U32)
    ensures Value32(BigEndian32(n)) == n
  {
    assert n / 0x100 == n / 0x1_0000 * 0x100 + n / 0x100 % 0x100;
    assert n / 0x1_0000 == n / 0x100_0000 * 0x100 + n / 0x1_0000 % 0x100;
  }

  lemma Encode32(b: Bytes)
    requires |b| == 4
    ensures BigEndian32(Value32(b)) == b
  {
    Octets32(b[0], b[1], b[2], b[3]);
  }

  lemma Octets32(b0: Byte, b1: Byte, b2: Byte, b3: Byte)
    ensures var n := (b0 as int) * 0x100_0000 + (b1 as int) * 0x1_0000 + (b2 as int) * 0x100 + b3 as int;
            n / 0x100_0000 == b0 && n / 0x1_0000 % 0x100 == b1 && n / 0x100 % 0x100 == b2 && n % 0x100 == b3
  {
    var n := (b0 as int) * 0x100_0000 + (b1 as int) * 0x1_0000 + (b2 as int) * 0x100 + b3 as int;
    assert n / 0x100 == (b0 as int) * 0x1_0000 + (b1 as int) * 0x100 + b2 as int;
    assert n / 0x1_0000 == (b0 as int) * 0x100 + b1 as int;
  }

  /** Both byte orders undo each other. */
  lemma BigEndianInverse(n: U32, b: Bytes, k: U16, c: Bytes)
    requires |b| == 4 && |c| == 2
    ensures Value32(BigEndian32(n)) == n && BigEndian32(Value32(b)) == b
    ensures Value16(BigEndian16(k)) == k && BigEndian16(Value16(c)) == c
  {
    Decode32(n);
    Encode32(b);
  }

  /** Laying out and reading back are inverse on every byte string that has a header. */
  lemma LayoutInverse(f: Fields, data: Bytes)
    ensures FieldsOf(Layout(f)) == f
    ensures |data| >= MIN_LEN ==> Layout(FieldsOf(data)) == data
  {
    var raw := Layout(f);
    assert raw[1..5] == BigEndian32(f.seqNum) && raw[9..11] == BigEndian16(f.peer.port) && raw[11..] == f.payload;
    BigEndianInverse(f.seqNum, BigEndian32(f.seqNum), f.peer.port, BigEndian16(f.peer.port));
    if |data| >= MIN_LEN {
      BigEndianInverse(0, data[1..5], 0, data[9..11]);
    }
  }

  /** A packet that was built parses back exactly when its payload is at most 1013 bytes. */
  lemma ParsesExactlyUpToMaxPayload(f: Fields)
    ensures Parsed(Layout(f)) == if |f.payload| <= MAX_PAYLOAD then Ok(f) else Err(TooLong)
  {
    LayoutInverse(f, []);
  }

  // ---- the endpoints' codec

  /** Packet.Raw. */
  method Raw(kind: Byte, seqNum: U32, toAddr: Addr, payload: Bytes) returns (buf: Bytes)
    ensures buf == Layout(Fields(kind, seqNum, toAddr, payload))
  {
    buf := [];
    buf := buf + [kind];
    buf := buf + BigEndian32(seqNum);
    buf := buf + [toAddr.ip.a, toAddr.ip.b, toAddr.ip.c, toAddr.ip.d];
    buf := buf + BigEndian16(toAddr.port);
    buf := buf + payload;
  }

  /** ParsePacket, with its cursor; the peer it finds is FromAddr. */
  method ParsePacket(data: Bytes) returns (p: Result<Fields>)
    ensures p == Parsed(data)
    ensures p.Ok? ==> data == Layout(p.value)
    ensures p.Err? ==> p.error == (if |data| < 11 then TooShort else TooLong) && !(11 <= |data| <= 1024)
  {
    LayoutInverse(Fields(0, 0, Addr(Ip(0, 0, 0, 0), 0), []), data);
    if |data| < MIN_LEN {
      return Err(TooShort);
    }
    if |data| > MAX_LEN {
      return Err(TooLong);
    }
    var curr := 0;
    var kind := data[curr];
    curr := curr + 1;
    var seqNum := Value32(data[curr..curr + 4]);
    curr := curr + 4;
    var ip := Ip(data[curr], data[curr + 1], data[curr + 2], data[curr + 3]);
    curr := curr + 4;
    var port := Value16(data[curr..curr + 2]);
    curr := curr + 2;
    p := Ok(Fields(kind, seqNum, Addr(ip, port), data[curr..]));
  }

  // ---- the router

  predicate IsLoopback(ip: Ip) {
    ip.a == 127
  }

  /** Where the router sends a packet addressed to `to` that came from `from`. */
  function Routed(from: Addr, to: Addr): Addr {
    if IsLoopback(to.ip) then to.(ip := from.ip) else to
  }

  /** A packet to a 127.x.x.x address goes to the sender's own host, at the port it asked for; any
      other goes to the address it names. */
  lemma RewritesLoopbackOnly(from: Addr, to: Addr)
    ensures Routed(from, to).port == to.port
    ensures Routed(from, to).ip == from.ip || Routed(from, to).ip == to.ip
    ensures to.ip.a == 127 ==> Routed(from, to).ip == from.ip
    ensures to.ip.a != 127 ==> Routed(from, to) == to
  {
  }

  datatype Outgoing = Outgoing(to: Addr, raw: Bytes)

  /** parsePacket, then Raw: the destination field of what comes in becomes the sender's address. */
  function Forward(from: Addr, data: Bytes): Result<Outgoing> {
    match Parsed(data)
    case Err(e) => Err(e)
    case Ok(f) => Ok(Outgoing(Routed(from, f.peer), Layout(f.(peer := from))))
  }

  /** A packet of at most 1013 payload bytes reaches its destination with type, number and payload
      unchanged, and its FromAddr is the true sender. */
  lemma ThroughRouter(f: Fields, from: Addr)
    requires |f.payload| <= MAX_PAYLOAD
    ensures Forward(from, Layout(f)).Ok?
    ensures Forward(from, Layout(f)).value.to == Routed(from, f.peer)
    ensures Parsed(Forward(from, Layout(f)).value.raw) == Ok(f.(peer := from))
  {
    ParsesExactlyUpToMaxPayload(f);
    ParsesExactlyUpToMaxPayload(f.(peer := from));
  }

  /** Whatever the router sends on, an endpoint can parse: nothing malformed gets past it. */
  lemma RouterOutputParses(from: Addr, data: Bytes)
    ensures Forward(from, data).Ok? <==> MIN_LEN <= |data| <= MAX_LEN
    ensures Forward(from, data).Ok? ==>
              && |Forward(from, data).value.raw| == |data|
              && Parsed(Forward(from, data).value.raw) == Ok(FieldsOf(data).(peer := from))
  {
    if MIN_LEN <= |data| <= MAX_LEN {
      ParsesExactlyUpToMaxPayload(FieldsOf(data).(peer := from));
    }
  }

  /** A reply to FromAddr goes back to the sender exactly when a loopback sender was talking to a
      loopback address; otherwise the router turns its address into the replier's own. */
  lemma ReplyReachesSender(from: Addr, to: Addr)
    ensures Routed(Routed(from, to), from) == from <==> (IsLoopback(from.ip) ==> IsLoopback(to.ip))
  {
    if IsLoopback(from.ip) && !IsLoopback(to.ip) {
      assert Routed(Routed(from, to), from).ip == to.ip;
    }
  }
}

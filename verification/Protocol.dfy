/** The client, the server and the lossy router as one transition system. A state holds both
    programs and the datagrams under way; an action is one goroutine, one timer or the router
    moving once. Delay and reordering are the free choice of the datagram received next. */
module Protocol {
  import opened Packets
  import opened Endpoints
  import opened Runs

  datatype Host = Client | Server

  /** `src` is what the router writes over the destination field: the parser's FromAddr. */
  datatype Datagram = Datagram(src: Host, dst: Host, packet: Packet)

  /** The client's main goroutine. Dialing is about to write a SYN. */
  datatype ClientMain = Dialing | AwaitingSynAck | Exchanging | Got(response: Bytes)

  /** The server's main goroutine. Replying is about to write a SYNACK; Blocking is inside the
      loop that waits for acknowledgements, about to read slot i. */
  datatype ServerMain =
    | Listening
    | Replying
    | AwaitingAck
    | AwaitingRequest
    | Responding
    | Blocking(i: nat, blocked: bool)
    | Closing
    | Ended

  datatype State = State(
    client: Endpoint,
    server: Endpoint,
    clientMain: ClientMain,
    serverMain: ServerMain,
    synAckChannel: bool,         // the client's handshakeSYNACKChannel holds a packet
    synChannel: Option<Host>,    // sender of the packet in the server's handshakeSynChannel
    ackChannel: bool,            // the server's handshakeAckChannel holds a packet
    connected: bool,
    clientAddr: Option<Host>,
    net: multiset<Datagram>,
    handled: seq<Bytes>,         // history: arguments of handleRequest, in order
    retired: Endpoint)           // history: the server's endpoint just before reset

  datatype Action =
    // either program
    | Write(h: Host)
    | Register(h: Host)
    | Receive(d: Datagram)
    | Store(h: Host)
    | Check(h: Host)
    | Tick(h: Host, i: nat)
    | Retransmit(h: Host, i: nat)
    | RearmTimer(h: Host)
    // the client's main goroutine
    | SendSyn
    | SynTimeout
    | TakeSynAck
    | TakeResponse
    // the server's main goroutine
    | TakeSyn
    | SendSynAck
    | SynAckTimeout
    | TakeAck
    | TakeRequest
    | StartBlocking
    | ReadAck
    | Reset
    // the router
    | Drop(d: Datagram)

  function Initial(net: multiset<Datagram>): State {
    State(FRESH_ENDPOINT, FRESH_ENDPOINT, Dialing, Listening, false, None, false, false, None, net, [],
          FRESH_ENDPOINT)
  }

  function EndpointOf(s: State, h: Host): Endpoint {
    if h == Client then s.client else s.server
  }

  function With(s: State, h: Host, e: Endpoint): State {
    if h == Client then s.(client := e) else s.(server := e)
  }

  function WithSender(s: State, h: Host, snd: Sender): State {
    With(s, h, EndpointOf(s, h).(snd := snd))
  }

  function WithReceiver(s: State, h: Host, rcv: Receiver): State {
    With(s, h, EndpointOf(s, h).(rcv := rcv))
  }

  /** The goroutine's panic ends its program. */
  function Panic(s: State, h: Host): State {
    With(s, h, EndpointOf(s, h).(alive := false))
  }

  function Emit(s: State, d: Datagram): State {
    s.(net := s.net + multiset{d})
  }

  /** A program takes steps while it has not panicked; a session ends with the server's reset. */
  predicate Running(s: State, h: Host) {
    EndpointOf(s, h).alive && (h == Server ==> s.serverMain != Ended)
  }

  /** ToAddr of the packets h builds: the client knows the server's address from the start. */
  function PeerOf(s: State, h: Host): Option<Host> {
    if h == Client then Some(Server) else s.clientAddr
  }

  // ---- either program

  /** sendPacket's WriteToUDP. */
  predicate CanWrite(s: State, h: Host) {
    Running(s, h) && EndpointOf(s, h).snd.loop.AtLoop? && PeerOf(s, h).Some?
  }

  function DoWrite(s: State, h: Host): State
    requires CanWrite(s, h)
  {
    var snd := WritePacket(EndpointOf(s, h).snd);
    Emit(WithSender(s, h, snd), Datagram(h, PeerOf(s, h).value, snd.loop.packet))
  }

  /** The rest of sendPacket: the window element and seqNum++. */
  predicate CanRegister(s: State, h: Host) {
    Running(s, h) && EndpointOf(s, h).snd.loop.Written?
  }

  function DoRegister(s: State, h: Host): State
    requires CanRegister(s, h)
  {
    match RegisterPacket(EndpointOf(s, h).snd)
    case None => Panic(s, h)
    case Some(snd) => WithSender(s, h, snd)
  }

  /** The receive goroutine saves the packet it has acknowledged. */
  predicate CanStore(s: State, h: Host) {
    Running(s, h) && EndpointOf(s, h).rcv.storing.Some?
  }

  function DoStore(s: State, h: Host): State
    requires CanStore(s, h)
  {
    match StorePacket(EndpointOf(s, h).rcv)
    case None => Panic(s, h)
    case Some(rcv) => WithReceiver(s, h, rcv)
  }

  predicate CanCheck(s: State, h: Host) {
    Running(s, h) && !EndpointOf(s, h).rcv.checker.Returned?
  }

  function DoCheck(s: State, h: Host): State
    requires CanCheck(s, h)
  {
    WithReceiver(s, h, CheckStep(EndpointOf(s, h).rcv))
  }

  /** The timer of slot i expires. */
  predicate CanTick(s: State, h: Host, i: nat) {
    Running(s, h) && CanFire(EndpointOf(s, h).snd, i)
  }

  function DoTick(s: State, h: Host, i: nat): State
    requires CanTick(s, h, i)
  {
    WithSender(s, h, Fire(EndpointOf(s, h).snd, i))
  }

  /** The retransmission goroutine finds slot i expired and unacknowledged and writes it again. */
  predicate CanRetransmit(s: State, h: Host, i: nat) {
    && Running(s, h) && CanResend(EndpointOf(s, h).snd, i) && PeerOf(s, h).Some?
    && (h == Server ==> s.connected)
  }

  function DoRetransmit(s: State, h: Host, i: nat): State
    requires CanRetransmit(s, h, i)
  {
    var snd := EndpointOf(s, h).snd;
    Emit(WithSender(s, h, Resend(snd, i)), Datagram(h, PeerOf(s, h).value, snd.window[i].packet))
  }

  predicate CanRearm(s: State, h: Host) {
    EndpointOf(s, h).alive && EndpointOf(s, h).snd.resending.Some? && !RearmBlocks(EndpointOf(s, h).snd)
  }

  function DoRearm(s: State, h: Host): State
    requires CanRearm(s, h)
  {
    match Rearm(EndpointOf(s, h).snd)
    case None => Panic(s, h)
    case Some(snd) => WithSender(s, h, snd)
  }

  // ---- the receive goroutines

  predicate CanReceive(s: State, d: Datagram) {
    Running(s, d.dst) && d in s.net && EndpointOf(s, d.dst).rcv.storing.None?
  }

  function Take(s: State, d: Datagram): State {
    s.(net := s.net - multiset{d})
  }

  function AckFor(d: Datagram): Datagram {
    Datagram(d.dst, d.src, Packet(ACK, d.packet.seqNum, []))
  }

  /** The DATA and DELIVER branch up to its save: acknowledge to FromAddr. */
  function AckAndHold(s: State, d: Datagram): State {
    WithReceiver(s, d.dst, Accept(EndpointOf(s, d.dst).rcv, d.packet)).(net := s.net + multiset{AckFor(d)})
  }

  function ClientReceive(s: State, d: Datagram): State {
    var p := d.packet;
    if p.kind == SYNACK then
      Emit(s, Datagram(Client, Server, Packet(ACK, p.seqNum, []))).(synAckChannel := true)
    else if p.kind == ACK then
      if p.seqNum !in s.client.snd.window then Panic(s, Client)
      else WithSender(s, Client, AckSlot(s.client.snd, p.seqNum))
    else if Storable(p) then AckAndHold(s, d)
    else s
  }

  function ServerReceive(s: State, d: Datagram): State {
    var p := d.packet;
    if p.kind == SYN then
      if !s.connected && s.synChannel.None? then s.(synChannel := Some(d.src)) else s
    else if p.kind == ACK && p.seqNum == 0 then
      if !s.connected then s.(ackChannel := true) else s
    else if p.kind == ACK then
      if p.seqNum >= WINDOW_SIZE then Panic(s, Server)
      else if p.seqNum !in s.server.snd.window then s
      else WithSender(s, Server, AckSlot(s.server.snd, p.seqNum))
    else if Storable(p) then AckAndHold(s, d)
    else s
  }

  function DoReceive(s: State, d: Datagram): State
    requires CanReceive(s, d)
  {
    if d.dst == Client then ClientReceive(Take(s, d), d) else ServerReceive(Take(s, d), d)
  }

  // ---- the client's main goroutine

  predicate CanSendSyn(s: State) {
    s.client.alive && s.clientMain.Dialing?
  }

  function DoSendSyn(s: State): State {
    Emit(s, Datagram(Client, Server, Packet(SYN, s.client.snd.seqNum, []))).(clientMain := AwaitingSynAck)
  }

  predicate CanTakeSynAck(s: State) {
    s.client.alive && s.clientMain.AwaitingSynAck? && s.synAckChannel
  }

  function DoTakeSynAck(req: Bytes, s: State): State {
    WithSender(s, Client, s.client.snd.(seqNum := s.client.snd.seqNum + 1, loop := AtLoop(req, 0)))
    .(clientMain := Exchanging, synAckChannel := false)
  }

  predicate CanTakeResponse(s: State) {
    s.client.alive && s.clientMain.Exchanging? && s.client.snd.loop.AllSent? && s.client.rcv.token
  }

  function DoTakeResponse(s: State): State {
    match Gather(s.client.rcv.window, 1)
    case None => Panic(s, Client)
    case Some(response) =>
      WithReceiver(s, Client, s.client.rcv.(token := false)).(clientMain := Got(response))
  }

  // ---- the server's main goroutine

  predicate CanTakeSyn(s: State) {
    s.server.alive && s.serverMain.Listening? && s.synChannel.Some?
  }

  function DoTakeSyn(s: State): State {
    s.(synChannel := None, serverMain := Replying,
       clientAddr := if s.clientAddr.None? then s.synChannel else s.clientAddr)
  }

  predicate CanSendSynAck(s: State) {
    s.server.alive && s.serverMain.Replying? && s.clientAddr.Some?
  }

  function DoSendSynAck(s: State): State
    requires CanSendSynAck(s)
  {
    Emit(s, Datagram(Server, s.clientAddr.value, Packet(SYNACK, s.server.snd.seqNum, [])))
    .(serverMain := AwaitingAck)
  }

  predicate CanTakeAck(s: State) {
    s.server.alive && s.serverMain.AwaitingAck? && s.ackChannel
  }

  function DoTakeAck(s: State): State {
    WithSender(s, Server, s.server.snd.(seqNum := s.server.snd.seqNum + 1))
    .(serverMain := AwaitingRequest, ackChannel := false, connected := true)
  }

  predicate CanTakeRequest(s: State) {
    s.server.alive && s.serverMain.AwaitingRequest? && s.server.rcv.token
  }

  function DoTakeRequest(handler: Bytes -> Bytes, s: State): State {
    match Gather(s.server.rcv.window, 1)
    case None => Panic(s, Server)
    case Some(request) =>
      s.(serverMain := Responding, handled := s.handled + [request],
         server := s.server.(rcv := s.server.rcv.(token := false),
                             snd := s.server.snd.(loop := AtLoop(handler(request), 0))))
  }

  predicate CanStartBlocking(s: State) {
    s.server.alive && s.serverMain.Responding? && s.server.snd.loop.AllSent?
  }

  predicate CanReadAck(s: State) {
    s.server.alive && s.serverMain.Blocking?
  }

  /** One slot of the blocking loop; at its end either another round or `disconnected`. */
  function DoReadAck(s: State): State
    requires CanReadAck(s)
  {
    var (i, blocked) := (s.serverMain.i, s.serverMain.blocked);
    if i < s.server.snd.seqNum then
      s.(serverMain := Blocking(i + 1, blocked || (i in s.server.snd.window && !s.server.snd.window[i].acked)))
    else if blocked then s.(serverMain := Blocking(0, false))
    else s.(serverMain := Closing, connected := false)
  }

  predicate CanReset(s: State) {
    s.server.alive && s.serverMain.Closing?
  }

  function DoReset(s: State): State {
    s.(server := ResetEndpoint(s.server), serverMain := Ended, synChannel := None, ackChannel := false,
       clientAddr := None, retired := s.server)
  }

  // ---- the transition relation

  predicate Enabled(s: State, a: Action) {
    match a
    case Write(h) => CanWrite(s, h)
    case Register(h) => CanRegister(s, h)
    case Receive(d) => CanReceive(s, d)
    case Store(h) => CanStore(s, h)
    case Check(h) => CanCheck(s, h)
    case Tick(h, i) => CanTick(s, h, i)
    case Retransmit(h, i) => CanRetransmit(s, h, i)
    case RearmTimer(h) => CanRearm(s, h)
    case SendSyn => CanSendSyn(s)
    case SynTimeout => s.client.alive && s.clientMain.AwaitingSynAck?
    case TakeSynAck => CanTakeSynAck(s)
    case TakeResponse => CanTakeResponse(s)
    case TakeSyn => CanTakeSyn(s)
    case SendSynAck => CanSendSynAck(s)
    case SynAckTimeout => s.server.alive && s.serverMain.AwaitingAck?
    case TakeAck => CanTakeAck(s)
    case TakeRequest => CanTakeRequest(s)
    case StartBlocking => CanStartBlocking(s)
    case ReadAck => CanReadAck(s)
    case Reset => CanReset(s)
    case Drop(d) => d in s.net
  }

  function Next(handler: Bytes -> Bytes, req: Bytes, s: State, a: Action): State
    requires Enabled(s, a)
  {
    match a
    case Write(h) => DoWrite(s, h)
    case Register(h) => DoRegister(s, h)
    case Receive(d) => DoReceive(s, d)
    case Store(h) => DoStore(s, h)
    case Check(h) => DoCheck(s, h)
    case Tick(h, i) => DoTick(s, h, i)
    case Retransmit(h, i) => DoRetransmit(s, h, i)
    case RearmTimer(h) => DoRearm(s, h)
    case SendSyn => DoSendSyn(s)
    case SynTimeout => s.(clientMain := Dialing)
    case TakeSynAck => DoTakeSynAck(req, s)
    case TakeResponse => DoTakeResponse(s)
    case TakeSyn => DoTakeSyn(s)
    case SendSynAck => DoSendSynAck(s)
    case SynAckTimeout => s.(serverMain := Replying)
    case TakeAck => DoTakeAck(s)
    case TakeRequest => DoTakeRequest(handler, s)
    case StartBlocking => s.(serverMain := Blocking(0, false))
    case ReadAck => DoReadAck(s)
    case Reset => DoReset(s)
    case Drop(d) => Take(s, d)
  }

  function Stepper(handler: Bytes -> Bytes, req: Bytes): (State, Action) -> Option<State> {
    (s: State, a: Action) => if Enabled(s, a) then Some(Next(handler, req, s, a)) else None
  }

  /** Some run leads from s to t. */
  ghost predicate Reaches(handler: Bytes -> Bytes, req: Bytes, s: State, t: State) {
    Leads(Stepper(handler, req), s, t)
  }

  /** t can be reached in a session whose request is req, starting with `net` under way. */
  ghost predicate Reachable(handler: Bytes -> Bytes, req: Bytes, net: multiset<Datagram>, t: State) {
    Reaches(handler, req, Initial(net), t)
  }

  lemma Extend(handler: Bytes -> Bytes, req: Bytes, s: State, t: State, a: Action)
    requires Reaches(handler, req, s, t) && Enabled(t, a)
    ensures Reaches(handler, req, s, Next(handler, req, t, a))
  {
    LeadsExtend(Stepper(handler, req), s, t, a);
  }

  lemma Join(handler: Bytes -> Bytes, req: Bytes, s: State, t: State, u: State)
    requires Reaches(handler, req, s, t) && Reaches(handler, req, t, u)
    ensures Reaches(handler, req, s, u)
  {
    LeadsTransitive(Stepper(handler, req), s, t, u);
  }

  lemma Stay(handler: Bytes -> Bytes, req: Bytes, s: State)
    ensures Reaches(handler, req, s, s)
  {
    LeadsSelf(Stepper(handler, req), s);
  }
}

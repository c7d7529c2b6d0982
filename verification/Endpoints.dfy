/** The state both programs keep per session, and what each goroutine does to it in one step.
    HttpClient and HttpServer declare these fields and loops word for word alike. A step result
    of None is a Go panic: an index outside a window, or a nil slot dereferenced. */
module Endpoints {
  import opened Packets
  import opened Chunking

  datatype Timer = Armed | Fired | Stopped

  /** WindowElement: `acked` is whether its Ack channel holds a packet; `Fired` is whether its
      timer channel holds a tick. */
  datatype Slot = Slot(packet: Packet, acked: bool, timer: Timer)

  /** Where the main goroutine stands in `send`. `Written` lies between sendPacket's socket write
      and its registration of the window element. */
  datatype SendLoop =
    | Idle
    | AtLoop(msg: Bytes, startByte: nat)
    | Written(msg: Bytes, startByte: nat, packet: Packet)
    | AllSent

  /** The sending half: `resending` is the slot whose packet the retransmission goroutine has
      just written again and whose timer it has not yet rearmed. */
  datatype Sender = Sender(seqNum: nat, window: map<nat, Slot>, loop: SendLoop, resending: Option<nat>)

  /** Where checkForDeliver stands: it reads one slot per step. */
  datatype Checker =
    | Scanning(i: nat)
    | Verifying(deliver: nat, i: nat, ready: bool)
    | Returned

  /** The receiving half: `storing` is the packet the receive goroutine has acknowledged and not
      yet saved; `token` is whether deliveryMessage holds its one value. */
  datatype Receiver = Receiver(window: map<nat, Packet>, storing: Option<Packet>, checker: Checker, token: bool)

  datatype Endpoint = Endpoint(snd: Sender, rcv: Receiver, alive: bool)

  const FRESH_SENDER := Sender(0, map[], Idle, None)
  const FRESH_RECEIVER := Receiver(map[], None, Scanning(0), false)
  const FRESH_ENDPOINT := Endpoint(FRESH_SENDER, FRESH_RECEIVER, true)

  // ---- send and sendPacket

  /** The packet the loop in `send` builds next. */
  function NextPacket(seqNum: nat, msg: Bytes, startByte: nat): Packet {
    if startByte < |msg| then
      Packet(DATA, seqNum,
             if startByte + MAX_PAYLOAD >= |msg| then msg[startByte..] else msg[startByte..startByte + MAX_PAYLOAD])
    else Packet(DELIVER, seqNum, [])
  }

  /** The loop of `send` builds the packets of its message in number order. */
  lemma NextPacketIsPacketAt(m: Bytes, seqNum: nat)
    requires 1 <= seqNum <= DeliverSeq(m)
    ensures NextPacket(seqNum, m, MAX_PAYLOAD * (seqNum - 1)) == PacketAt(m, seqNum)
  {
  }

  function WritePacket(s: Sender): Sender
    requires s.loop.AtLoop?
  {
    var p := NextPacket(s.seqNum, s.loop.msg, s.loop.startByte);
    s.(loop := Written(s.loop.msg, if p.kind == DATA then s.loop.startByte + MAX_PAYLOAD else s.loop.startByte, p))
  }

  function RegisterPacket(s: Sender): Option<Sender>
    requires s.loop.Written?
  {
    if s.seqNum >= WINDOW_SIZE then None
    else Some(s.(window := s.window[s.seqNum := Slot(s.loop.packet, false, Armed)],
                 seqNum := s.seqNum + 1,
                 loop := if s.loop.packet.kind == DELIVER then AllSent else AtLoop(s.loop.msg, s.loop.startByte)))
  }

  // ---- the ACK branch of receive

  function AckSlot(s: Sender, i: nat): Sender
    requires i in s.window
  {
    var e := s.window[i];
    if e.acked then s
    else s.(window := s.window[i := e.(acked := true, timer := if e.timer == Armed then Stopped else e.timer)])
  }

  // ---- timers and retransmission

  predicate CanFire(s: Sender, i: nat) {
    i in s.window && s.window[i].timer == Armed
  }

  function Fire(s: Sender, i: nat): Sender
    requires CanFire(s, i)
  {
    s.(window := s.window[i := s.window[i].(timer := Fired)])
  }

  predicate CanResend(s: Sender, i: nat) {
    && s.resending.None?
    && i < s.seqNum && i in s.window && !s.window[i].acked && s.window[i].timer == Fired
  }

  function Resend(s: Sender, i: nat): Sender
    requires CanResend(s, i)
  {
    s.(resending := Some(i))
  }

  /** `<-Timer.C` then Reset. The slot is looked up again, so a window replaced meanwhile panics.
      The receive from the channel blocks unless the timer has fired. */
  predicate RearmBlocks(s: Sender)
    requires s.resending.Some?
  {
    s.resending.value in s.window && s.window[s.resending.value].timer != Fired
  }

  function Rearm(s: Sender): Option<Sender>
    requires s.resending.Some? && !RearmBlocks(s)
  {
    var i := s.resending.value;
    if i !in s.window then None
    else Some(s.(window := s.window[i := s.window[i].(timer := Armed)], resending := None))
  }

  // ---- the DATA and DELIVER branch of receive

  function Accept(r: Receiver, p: Packet): Receiver {
    r.(storing := Some(p))
  }

  function StorePacket(r: Receiver): Option<Receiver>
    requires r.storing.Some?
  {
    var p := r.storing.value;
    if p.seqNum >= WINDOW_SIZE then None
    else Some(r.(window := if p.seqNum in r.window then r.window else r.window[p.seqNum := p], storing := None))
  }

  // ---- checkForDeliver

  function CheckStep(r: Receiver): Receiver
    requires !r.checker.Returned?
  {
    match r.checker
    case Scanning(i) =>
      if i >= WINDOW_SIZE then r.(checker := Scanning(0))
      else if i in r.window && r.window[i].kind == DELIVER then r.(checker := Verifying(i, i, true))
      else r.(checker := Scanning(i + 1))
    case Verifying(d, i, ready) =>
      if i > 0 then r.(checker := Verifying(d, i - 1, ready && i in r.window))
      else if ready then r.(checker := Returned, token := true)
      else r.(checker := Verifying(d, d, true))
  }

  // ---- getPackets

  /** The loop of getPackets from slot i on; None when it dereferences a nil slot. */
  function Gather(window: map<nat, Packet>, i: nat): Option<Bytes>
    decreases WINDOW_SIZE - i
  {
    if i >= WINDOW_SIZE then Some([])
    else if i !in window then None
    else
      var head := if window[i].kind == DATA then window[i].payload else [];
      if window[i].kind == DELIVER then Some(head)
      else
        match Gather(window, i + 1)
        case None => None
        case Some(rest) => Some(head + rest)
  }

  // ---- reset

  /** `reset` replaces the windows, the channels and the checker. It does not touch the receive
      and retransmission goroutines, which keep whatever they were doing. */
  function ResetEndpoint(e: Endpoint): Endpoint {
    e.(snd := FRESH_SENDER.(resending := e.snd.resending), rcv := FRESH_RECEIVER.(storing := e.rcv.storing))
  }
}

/** What every reachable state keeps about the bytes: each slot, each datagram under way and each
    half-finished action agrees with the one packet its sender built under that number. Nothing
    here speaks of handshake or acknowledgement packets, so stray ones cannot break it. */
module DataInvariant {
  import opened Packets
  import opened Chunking
  import opened Endpoints
  import opened Protocol

  // ---- one direction: a message m, its sender and its receiver

  /** The highest number written to the socket so far. */
  function Hi(snd: Sender): int {
    match snd.loop
    case Idle => 0
    case Written(_, _, _) => snd.seqNum
    case _ => snd.seqNum - 1
  }

  ghost predicate LoopOk(m: Bytes, snd: Sender) {
    match snd.loop
    case Idle => snd.seqNum <= 1
    case AtLoop(msg, startByte) =>
      msg == m && 1 <= snd.seqNum <= DeliverSeq(m) && startByte == MAX_PAYLOAD * (snd.seqNum - 1)
    case Written(msg, startByte, packet) =>
      && msg == m && 1 <= snd.seqNum <= DeliverSeq(m) && packet == PacketAt(m, snd.seqNum)
      && (packet.kind == DATA ==> startByte == MAX_PAYLOAD * snd.seqNum)
    case AllSent => snd.seqNum == DeliverSeq(m) + 1
  }

  ghost predicate SlotsOk(m: Bytes, snd: Sender) {
    && (forall i :: i in snd.window <==> 1 <= i < snd.seqNum)
    && (forall i :: i in snd.window ==>
                      && i < WINDOW_SIZE && snd.window[i].packet == PacketAt(m, i)
                      && (snd.window[i].timer == Stopped ==> snd.window[i].acked))
    && (snd.resending.Some? ==>
          snd.resending.value in snd.window && snd.window[snd.resending.value].timer == Fired)
  }

  ghost predicate SenderOk(m: Bytes, snd: Sender) {
    LoopOk(m, snd) && SlotsOk(m, snd)
  }

  /** Every packet of m is in the window. */
  ghost predicate Full(m: Bytes, window: map<nat, Packet>) {
    forall j :: 1 <= j <= DeliverSeq(m) ==> j in window
  }

  ghost predicate CheckerOk(m: Bytes, rcv: Receiver) {
    && (rcv.token ==> rcv.checker.Returned?)
    && match rcv.checker
       case Scanning(i) => i <= WINDOW_SIZE
       case Verifying(d, i, ready) =>
         && d in rcv.window && d == DeliverSeq(m) && i <= d
         && (ready ==> forall j :: i < j <= d ==> j in rcv.window)
       case Returned => Full(m, rcv.window)
  }

  ghost predicate ReceiverOk(m: Bytes, hi: int, rcv: Receiver) {
    && (forall i :: i in rcv.window ==> 1 <= i <= hi && i < WINDOW_SIZE && rcv.window[i] == PacketAt(m, i))
    && (rcv.storing.Some? ==>
          var p := rcv.storing.value;
          1 <= p.seqNum <= hi && p == PacketAt(m, p.seqNum))
    && CheckerOk(m, rcv)
  }

  // ---- steps of one half

  lemma WriteKeepsSender(m: Bytes, snd: Sender)
    requires SenderOk(m, snd) && snd.loop.AtLoop?
    ensures SenderOk(m, WritePacket(snd))
    ensures Hi(WritePacket(snd)) == Hi(snd) + 1 && WritePacket(snd).loop.packet == PacketAt(m, Hi(snd) + 1)
  {
    NextPacketIsPacketAt(m, snd.seqNum);
  }

  lemma RegisterKeepsSender(m: Bytes, snd: Sender)
    requires SenderOk(m, snd) && snd.loop.Written?
    ensures RegisterPacket(snd).Some? <==> snd.seqNum < WINDOW_SIZE
    ensures RegisterPacket(snd).Some? ==>
              SenderOk(m, RegisterPacket(snd).value) && Hi(RegisterPacket(snd).value) == Hi(snd)
  {
  }

  lemma FireKeepsSender(m: Bytes, snd: Sender, i: nat)
    requires SenderOk(m, snd) && CanFire(snd, i)
    ensures SenderOk(m, Fire(snd, i))
  {
  }

  lemma ResendKeepsSender(m: Bytes, snd: Sender, i: nat)
    requires SenderOk(m, snd) && CanResend(snd, i)
    ensures SenderOk(m, Resend(snd, i))
  {
  }

  lemma AckKeepsSender(m: Bytes, snd: Sender, i: nat)
    requires SenderOk(m, snd) && i in snd.window
    ensures SenderOk(m, AckSlot(snd, i))
  {
  }

  /** The retransmission goroutine finds its slot and a tick to take: it neither panics nor blocks. */
  lemma RearmKeepsSender(m: Bytes, snd: Sender)
    requires SenderOk(m, snd) && snd.resending.Some?
    ensures !RearmBlocks(snd) && Rearm(snd).Some? && SenderOk(m, Rearm(snd).value)
  {
  }

  lemma StoreKeepsReceiver(m: Bytes, hi: int, rcv: Receiver)
    requires ReceiverOk(m, hi, rcv) && rcv.storing.Some?
    ensures StorePacket(rcv).Some? <==> rcv.storing.value.seqNum < WINDOW_SIZE
    ensures StorePacket(rcv).Some? ==> ReceiverOk(m, hi, StorePacket(rcv).value)
  {
  }

  lemma CheckKeepsReceiver(m: Bytes, hi: int, rcv: Receiver)
    requires ReceiverOk(m, hi, rcv) && hi <= DeliverSeq(m) && !rcv.checker.Returned?
    ensures ReceiverOk(m, hi, CheckStep(rcv)) && CheckStep(rcv).checker.Returned? == CheckStep(rcv).token
  {
  }

  lemma TokenTaken(m: Bytes, hi: int, rcv: Receiver)
    requires ReceiverOk(m, hi, rcv)
    ensures ReceiverOk(m, hi, rcv.(token := false))
  {
  }

  lemma LoopEntered(m: Bytes, snd: Sender)
    requires SenderOk(m, snd) && snd.loop.Idle? && snd.seqNum == 1
    ensures SenderOk(m, snd.(loop := AtLoop(m, 0)))
  {
  }

  lemma ReceiverMonotone(m: Bytes, hi: int, hi': int, rcv: Receiver)
    requires ReceiverOk(m, hi, rcv) && hi <= hi'
    ensures ReceiverOk(m, hi', rcv)
  {
  }

  /** getPackets returns the sender's message once the window is full: it meets no nil slot and
      stops at the DELIVER marker. */
  lemma {:induction false} GatherFull(m: Bytes, window: map<nat, Packet>, i: nat)
    requires 1 <= i <= DeliverSeq(m) < WINDOW_SIZE
    requires forall j :: i <= j <= DeliverSeq(m) ==> j in window && window[j] == PacketAt(m, j)
    ensures Gather(window, i) == Some(JoinFrom(m, i))
    decreases DeliverSeq(m) - i
  {
    if i < DeliverSeq(m) {
      GatherFull(m, window, i + 1);
    }
  }

  lemma GatherGivesMessage(m: Bytes, hi: int, rcv: Receiver)
    requires ReceiverOk(m, hi, rcv) && rcv.checker.Returned?
    ensures Gather(rcv.window, 1) == Some(m)
  {
    assert DeliverSeq(m) in rcv.window;
    GatherFull(m, rcv.window, 1);
    ChunksPartition(m);
  }

  // ---- the whole state

  /** The server's endpoint of this session: once reset has run, the one it replaced. */
  function SessionServer(s: State): Endpoint {
    if s.serverMain.Ended? then s.retired else s.server
  }

  ghost predicate DatagramOk(handler: Bytes -> Bytes, req: Bytes, s: State, d: Datagram) {
    && d.src != d.dst
    && (Storable(d.packet) ==>
          var (m, hi) := if d.dst == Server then (req, Hi(s.client.snd)) else (handler(req), Hi(SessionServer(s).snd));
          1 <= d.packet.seqNum <= hi && d.packet == PacketAt(m, d.packet.seqNum))
  }

  ghost predicate MainsOk(handler: Bytes -> Bytes, req: Bytes, s: State) {
    && (s.clientMain.Dialing? || s.clientMain.AwaitingSynAck? <==> s.client.snd.loop.Idle?)
    && (s.client.snd.loop.Idle? ==> s.client.snd.seqNum == 0)
    && (s.clientMain.Got? ==> s.client.snd.loop.AllSent? && s.clientMain.response == handler(req))
    && (s.clientMain.Got? <==> s.client.rcv.checker.Returned? && !s.client.rcv.token)
    && ServerMainOk(req, s.serverMain, SessionServer(s), s.handled)
    && (s.clientAddr.Some? ==> s.clientAddr.value == Client)
    && (s.synChannel.Some? ==> s.synChannel.value == Client)
    && (s.clientAddr.Some? <==> !s.serverMain.Listening? && !s.serverMain.Ended?)
  }

  ghost predicate ServerMainOk(req: Bytes, main: ServerMain, server: Endpoint, handled: seq<Bytes>) {
    && handled == (if server.snd.loop.Idle? then [] else [req])
    && (server.snd.loop.Idle? ==> (server.rcv.checker.Returned? <==> server.rcv.token))
    && (!server.snd.loop.Idle? ==> server.rcv.checker.Returned? && !server.rcv.token)
    && match main
       case Listening => server.snd.loop.Idle? && server.snd.seqNum == 0
       case Replying => server.snd.loop.Idle? && server.snd.seqNum == 0
       case AwaitingAck => server.snd.loop.Idle? && server.snd.seqNum == 0
       case AwaitingRequest => server.snd.loop.Idle? && server.snd.seqNum == 1
       case Responding => !server.snd.loop.Idle?
       case Blocking(_, _) => server.snd.loop.AllSent?
       case Closing => server.snd.loop.AllSent?
       case Ended => server.snd.loop.AllSent?
  }

  /** The server has disconnected; reset has emptied both windows and every channel, and nothing
      runs on them in this session any more. */
  ghost predicate AfterResetOk(s: State) {
    && (s.serverMain.Closing? || s.serverMain.Ended? ==> !s.connected)
    && (s.serverMain.Ended? ==>
          && s.server.snd == FRESH_SENDER.(resending := s.server.snd.resending)
          && s.server.rcv == FRESH_RECEIVER.(storing := s.server.rcv.storing)
          && s.synChannel.None? && !s.ackChannel)
  }

  ghost predicate DataInv(handler: Bytes -> Bytes, req: Bytes, s: State) {
    && SenderOk(req, s.client.snd)
    && SenderOk(handler(req), SessionServer(s).snd)
    && ReceiverOk(req, Hi(s.client.snd), SessionServer(s).rcv)
    && ReceiverOk(handler(req), Hi(SessionServer(s).snd), s.client.rcv)
    && MainsOk(handler, req, s)
    && AfterResetOk(s)
    && (forall d :: d in s.net ==> DatagramOk(handler, req, s, d))
  }
}

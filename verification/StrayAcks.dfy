/** Which control packets left under way from before make an acknowledgement lie, exactly. */
module StrayAcks {
  import opened Packets
  import opened Chunking
  import opened Endpoints
  import opened Runs
  import opened Protocol
  import opened DataInvariant
  import opened ControlInvariant
  import opened Reachability
  import opened Progress
  import opened Scenarios
  import DataPreservation
  import ControlPreservation

  /** The endpoint of h in this session. */
  function SessionEnd(s: State, h: Host): Endpoint {
    if h == Client then s.client else SessionServer(s)
  }

  /** d can acknowledge a slot of h: it is an ACK addressed to h, or a SYNACK whose number the client
      will echo to the server, and h gets as far as registering that number. */
  predicate CanAck(handler: Bytes -> Bytes, req: Bytes, d: Datagram, h: Host) {
    && 1 <= d.packet.seqNum < WINDOW_SIZE && d.packet.seqNum <= DeliverSeq(MessageOf(handler, req, h))
    && (h == Server ==> Fits(req))
    && ((d.packet.kind == ACK && d.dst == h) || (d.packet.kind == SYNACK && d.dst == Client && h == Server))
  }

  ghost predicate DatagramTrue(handler: Bytes -> Bytes, req: Bytes, h: Host, s: State, d: Datagram) {
    CanAck(handler, req, d, h) ==>
      d.packet.kind == ACK && Holds(SessionEnd(s, OtherHost(h)).rcv, d.packet.seqNum)
  }

  /** Every acknowledgement h has, or may yet get, is true. */
  ghost predicate AcksTrue(handler: Bytes -> Bytes, req: Bytes, h: Host, s: State) {
    && AckedOk(SessionEnd(s, h).snd, SessionEnd(s, OtherHost(h)).rcv)
    && ScanOk(s.serverMain, SessionServer(s).snd)
    && (forall d :: d in s.net ==> DatagramTrue(handler, req, h, s, d))
  }

  ghost predicate AckInv(handler: Bytes -> Bytes, req: Bytes, h: Host, s: State) {
    DataInv(handler, req, s) && AcksTrue(handler, req, h, s)
  }

  // ---- the invariant is kept

  ghost predicate Keeps(handler: Bytes -> Bytes, req: Bytes, h: Host, s: State, t: State) {
    !AcksTrue(handler, req, h, s) || AcksTrue(handler, req, h, t)
  }

  lemma FromParts(handler: Bytes -> Bytes, req: Bytes, h: Host, s: State, t: State)
    requires AcksTrue(handler, req, h, s)
    requires var (r, r') := (SessionEnd(s, OtherHost(h)).rcv, SessionEnd(t, OtherHost(h)).rcv);
             r == r' || ControlPreservation.Grows(r, r')
    requires var (x, x') := (SessionEnd(s, h).snd, SessionEnd(t, h).snd);
             x == x' || ControlPreservation.NoNewAcks(x, x') || AckedOk(x', SessionEnd(s, OtherHost(h)).rcv)
    requires (s.serverMain == t.serverMain && SessionServer(s).snd == SessionServer(t).snd)
             || ScanOk(t.serverMain, SessionServer(t).snd)
    requires forall d :: d in t.net ==> d in s.net || DatagramTrue(handler, req, h, t, d)
    ensures AcksTrue(handler, req, h, t)
  {
    assert ControlPreservation.Grows(SessionEnd(s, OtherHost(h)).rcv, SessionEnd(t, OtherHost(h)).rcv);
    forall d | d in t.net
      ensures DatagramTrue(handler, req, h, t, d)
    {
      if d in s.net {
        assert DatagramTrue(handler, req, h, s, d);
      }
    }
  }

  lemma WriteKeeps(handler: Bytes -> Bytes, req: Bytes, h: Host, s: State, k: Host)
    requires AckInv(handler, req, h, s) && CanWrite(s, k)
    ensures Keeps(handler, req, h, s, DoWrite(s, k))
  {
    FromParts(handler, req, h, s, DoWrite(s, k));
  }

  lemma RegisterKeeps(handler: Bytes -> Bytes, req: Bytes, h: Host, s: State, k: Host)
    requires AckInv(handler, req, h, s) && CanRegister(s, k)
    ensures Keeps(handler, req, h, s, DoRegister(s, k))
  {
    FromParts(handler, req, h, s, DoRegister(s, k));
  }

  lemma TickKeeps(handler: Bytes -> Bytes, req: Bytes, h: Host, s: State, k: Host, i: nat)
    requires AckInv(handler, req, h, s) && CanTick(s, k, i)
    ensures Keeps(handler, req, h, s, DoTick(s, k, i))
  {
    ControlPreservation.TimersScan(if k == Server then s.serverMain else Listening, EndpointOf(s, k).snd, i);
    FromParts(handler, req, h, s, DoTick(s, k, i));
  }

  lemma RetransmitKeeps(handler: Bytes -> Bytes, req: Bytes, h: Host, s: State, k: Host, i: nat)
    requires AckInv(handler, req, h, s) && CanRetransmit(s, k, i)
    ensures Keeps(handler, req, h, s, DoRetransmit(s, k, i))
  {
    ControlPreservation.TimersScan(if k == Server then s.serverMain else Listening, EndpointOf(s, k).snd, i);
    FromParts(handler, req, h, s, DoRetransmit(s, k, i));
  }

  lemma RearmKeeps(handler: Bytes -> Bytes, req: Bytes, h: Host, s: State, k: Host)
    requires AckInv(handler, req, h, s) && CanRearm(s, k)
    ensures Keeps(handler, req, h, s, DoRearm(s, k))
  {
    if k == Client || !s.serverMain.Ended? {
      ControlPreservation.TimersScan(if k == Server then s.serverMain else Listening, EndpointOf(s, k).snd, 0);
    }
    FromParts(handler, req, h, s, DoRearm(s, k));
  }

  lemma StoreKeeps(handler: Bytes -> Bytes, req: Bytes, h: Host, s: State, k: Host)
    requires AckInv(handler, req, h, s) && CanStore(s, k)
    ensures Keeps(handler, req, h, s, DoStore(s, k))
  {
    if StorePacket(EndpointOf(s, k).rcv).Some? {
      ControlPreservation.StoreGrows(EndpointOf(s, k).rcv);
    }
    FromParts(handler, req, h, s, DoStore(s, k));
  }

  lemma CheckKeeps(handler: Bytes -> Bytes, req: Bytes, h: Host, s: State, k: Host)
    requires AckInv(handler, req, h, s) && CanCheck(s, k)
    ensures Keeps(handler, req, h, s, DoCheck(s, k))
  {
    var t := DoCheck(s, k);
    ControlPreservation.CheckGrows(EndpointOf(s, k).rcv);
    if k == Client {
      assert t == s.(client := t.client);
      FromParts(handler, req, h, s, t);
    } else {
      assert t == s.(server := t.server);
      FromParts(handler, req, h, s, t);
    }
  }

  /** A registered slot is one the other side's number can acknowledge. */
  lemma SlotCanBeAcked(handler: Bytes -> Bytes, req: Bytes, s: State, d: Datagram)
    requires DataInv(handler, req, s) && Running(s, d.dst) && d.packet.kind == ACK
    requires d.packet.seqNum in EndpointOf(s, d.dst).snd.window
    ensures CanAck(handler, req, d, d.dst)
  {
    if d.dst == Server {
      assert SenderOk(handler(req), s.server.snd) && MainsOk(handler, req, s);
      assert DeliverSeq(req) in s.server.rcv.window;
    } else {
      assert SenderOk(req, s.client.snd);
    }
  }

  lemma AckKeeps(handler: Bytes -> Bytes, req: Bytes, h: Host, s: State, d: Datagram)
    requires AckInv(handler, req, h, s) && CanReceive(s, d) && d.packet.kind == ACK && d.packet.seqNum != 0
    requires d.packet.seqNum in EndpointOf(s, d.dst).snd.window
    ensures Keeps(handler, req, h, s, WithSender(Take(s, d), d.dst, AckSlot(EndpointOf(s, d.dst).snd, d.packet.seqNum)))
  {
    var i := d.packet.seqNum;
    var t := WithSender(Take(s, d), d.dst, AckSlot(EndpointOf(s, d.dst).snd, i));
    if d.dst == Server {
      ControlPreservation.AckSlotScan(handler(req), s.serverMain, s.server.snd, i);
    }
    if d.dst == h {
      SlotCanBeAcked(handler, req, s, d);
      assert DatagramTrue(handler, req, h, s, d);
      ControlPreservation.AckedOkAfter(EndpointOf(s, h).snd, SessionEnd(s, OtherHost(h)).rcv, i);
    }
    FromParts(handler, req, h, s, t);
  }

  lemma HoldKeeps(handler: Bytes -> Bytes, req: Bytes, h: Host, s: State, d: Datagram)
    requires AckInv(handler, req, h, s) && CanReceive(s, d) && Storable(d.packet)
    ensures Keeps(handler, req, h, s, AckAndHold(Take(s, d), d))
  {
    assert DatagramOk(handler, req, s, d);
    FromParts(handler, req, h, s, AckAndHold(Take(s, d), d));
  }

  lemma TakeKeeps(handler: Bytes -> Bytes, req: Bytes, h: Host, s: State, d: Datagram)
    requires AcksTrue(handler, req, h, s)
    ensures Keeps(handler, req, h, s, Take(s, d))
  {
    FromParts(handler, req, h, s, Take(s, d));
  }

  lemma PanicKeeps(handler: Bytes -> Bytes, req: Bytes, h: Host, s: State, d: Datagram, k: Host)
    requires AcksTrue(handler, req, h, s)
    ensures Keeps(handler, req, h, s, Panic(Take(s, d), k))
  {
    FromParts(handler, req, h, s, Panic(Take(s, d), k));
  }

  lemma HandshakeKeeps(handler: Bytes -> Bytes, req: Bytes, h: Host, s: State, d: Datagram)
    requires AckInv(handler, req, h, s) && CanReceive(s, d) && !Storable(d.packet)
    requires d.packet.kind == ACK ==> d.dst == Server && d.packet.seqNum == 0
    ensures Keeps(handler, req, h, s, DoReceive(s, d))
  {
    assert DatagramTrue(handler, req, h, s, d);
    var t := DoReceive(s, d);
    assert t == s.(synChannel := t.synChannel, ackChannel := t.ackChannel, synAckChannel := t.synAckChannel, net := t.net);
    FromParts(handler, req, h, s, t);
  }

  lemma ReceiveKeeps(handler: Bytes -> Bytes, req: Bytes, h: Host, s: State, d: Datagram)
    requires AckInv(handler, req, h, s) && CanReceive(s, d)
    ensures Keeps(handler, req, h, s, DoReceive(s, d))
  {
    if Storable(d.packet) {
      HoldKeeps(handler, req, h, s, d);
    } else if d.packet.kind != ACK || (d.dst == Server && d.packet.seqNum == 0) {
      HandshakeKeeps(handler, req, h, s, d);
    } else {
      DataAckKeeps(handler, req, h, s, d);
    }
  }

  lemma DataAckKeeps(handler: Bytes -> Bytes, req: Bytes, h: Host, s: State, d: Datagram)
    requires AckInv(handler, req, h, s) && CanReceive(s, d) && d.packet.kind == ACK
    requires d.dst == Server ==> d.packet.seqNum != 0
    ensures Keeps(handler, req, h, s, DoReceive(s, d))
  {
    if d.packet.seqNum in EndpointOf(s, d.dst).snd.window {
      SlotCanBeAcked(handler, req, s, d);
      AckReceived(s, d);
      AckKeeps(handler, req, h, s, d);
    } else {
      TakeKeeps(handler, req, h, s, d);
      PanicKeeps(handler, req, h, s, d, d.dst);
    }
  }

  lemma ClientMainKeeps(handler: Bytes -> Bytes, req: Bytes, h: Host, s: State)
    requires AckInv(handler, req, h, s)
    ensures CanSendSyn(s) ==> Keeps(handler, req, h, s, DoSendSyn(s))
    ensures CanTakeSynAck(s) ==> Keeps(handler, req, h, s, DoTakeSynAck(req, s))
    ensures Keeps(handler, req, h, s, s.(clientMain := Dialing))
  {
    if CanSendSyn(s) {
      FromParts(handler, req, h, s, DoSendSyn(s));
    }
    if CanTakeSynAck(s) {
      FromParts(handler, req, h, s, DoTakeSynAck(req, s));
    }
    FromParts(handler, req, h, s, s.(clientMain := Dialing));
  }

  lemma TakeResponseKeeps(handler: Bytes -> Bytes, req: Bytes, h: Host, s: State)
    requires AckInv(handler, req, h, s) && CanTakeResponse(s)
    ensures Keeps(handler, req, h, s, DoTakeResponse(s))
  {
    FromParts(handler, req, h, s, DoTakeResponse(s));
  }

  lemma ServerHandshakeStepsKeep(handler: Bytes -> Bytes, req: Bytes, h: Host, s: State)
    requires AckInv(handler, req, h, s)
    ensures CanTakeSyn(s) ==> Keeps(handler, req, h, s, DoTakeSyn(s))
    ensures CanSendSynAck(s) ==> Keeps(handler, req, h, s, DoSendSynAck(s))
    ensures s.serverMain.AwaitingAck? ==> Keeps(handler, req, h, s, s.(serverMain := Replying))
    ensures CanTakeAck(s) ==> Keeps(handler, req, h, s, DoTakeAck(s))
  {
    if CanTakeSyn(s) {
      FromParts(handler, req, h, s, DoTakeSyn(s));
    }
    if CanSendSynAck(s) {
      FromParts(handler, req, h, s, DoSendSynAck(s));
    }
    if s.serverMain.AwaitingAck? {
      FromParts(handler, req, h, s, s.(serverMain := Replying));
    }
    if CanTakeAck(s) {
      FromParts(handler, req, h, s, DoTakeAck(s));
    }
  }

  lemma TakeRequestKeeps(handler: Bytes -> Bytes, req: Bytes, h: Host, s: State)
    requires AckInv(handler, req, h, s) && CanTakeRequest(s)
    ensures Keeps(handler, req, h, s, DoTakeRequest(handler, s))
  {
    FromParts(handler, req, h, s, DoTakeRequest(handler, s));
  }

  lemma BlockingKeeps(handler: Bytes -> Bytes, req: Bytes, h: Host, s: State)
    requires AckInv(handler, req, h, s)
    ensures CanStartBlocking(s) ==> Keeps(handler, req, h, s, s.(serverMain := Blocking(0, false)))
    ensures CanReadAck(s) ==> Keeps(handler, req, h, s, DoReadAck(s))
    ensures CanReset(s) ==> Keeps(handler, req, h, s, DoReset(s))
  {
    if CanStartBlocking(s) {
      FromParts(handler, req, h, s, s.(serverMain := Blocking(0, false)));
    }
    if CanReadAck(s) {
      var t := DoReadAck(s);
      ControlPreservation.ScanAdvances(handler(req), s.server.snd, s.serverMain.i, s.serverMain.blocked);
      assert t == s.(serverMain := t.serverMain, connected := t.connected);
      FromParts(handler, req, h, s, t);
    }
    if CanReset(s) {
      FromParts(handler, req, h, s, DoReset(s));
    }
  }

  lemma AcksTrueKept(handler: Bytes -> Bytes, req: Bytes, h: Host, s: State, a: Action)
    requires AckInv(handler, req, h, s) && Enabled(s, a)
    ensures Keeps(handler, req, h, s, Next(handler, req, s, a))
  {
    match a
    case Write(k) => WriteKeeps(handler, req, h, s, k);
    case Register(k) => RegisterKeeps(handler, req, h, s, k);
    case Tick(k, i) => TickKeeps(handler, req, h, s, k, i);
    case Retransmit(k, i) => RetransmitKeeps(handler, req, h, s, k, i);
    case RearmTimer(k) => RearmKeeps(handler, req, h, s, k);
    case Receive(d) => ReceiveKeeps(handler, req, h, s, d);
    case Store(k) => StoreKeeps(handler, req, h, s, k);
    case Check(k) => CheckKeeps(handler, req, h, s, k);
    case SendSyn => ClientMainKeeps(handler, req, h, s);
    case SynTimeout => ClientMainKeeps(handler, req, h, s);
    case TakeSynAck => ClientMainKeeps(handler, req, h, s);
    case TakeResponse => TakeResponseKeeps(handler, req, h, s);
    case TakeSyn => ServerHandshakeStepsKeep(handler, req, h, s);
    case SendSynAck => ServerHandshakeStepsKeep(handler, req, h, s);
    case SynAckTimeout => ServerHandshakeStepsKeep(handler, req, h, s);
    case TakeAck => ServerHandshakeStepsKeep(handler, req, h, s);
    case TakeRequest => TakeRequestKeeps(handler, req, h, s);
    case StartBlocking => BlockingKeeps(handler, req, h, s);
    case ReadAck => BlockingKeeps(handler, req, h, s);
    case Reset => BlockingKeeps(handler, req, h, s);
    case Drop(d) => TakeKeeps(handler, req, h, s, d);
  }

  /** No datagram under way can acknowledge a slot of h. */
  ghost predicate NothingAcks(handler: Bytes -> Bytes, req: Bytes, net: multiset<Datagram>, h: Host) {
    forall d :: d in net ==> !CanAck(handler, req, d, h)
  }

  lemma AckInvReachable(handler: Bytes -> Bytes, req: Bytes, net: multiset<Datagram>, h: Host, t: State)
    requires NoData(net) && NothingAcks(handler, req, net, h) && Reachable(handler, req, net, t)
    ensures AckInv(handler, req, h, t)
  {
    var step, inv := Stepper(handler, req), (s: State) => AckInv(handler, req, h, s);
    forall s: State, a: Action | inv(s) && step(s, a).Some?
      ensures inv(step(s, a).value)
    {
      DataPreservation.DataInvKept(handler, req, s, a);
      AcksTrueKept(handler, req, h, s, a);
    }
    assert AcksTrue(handler, req, h, Initial(net));
    var acts :| Run(step, Initial(net), acts, t);
    Induction(step, inv, Initial(net), acts, t);
  }

  // ---- the false acknowledgement happens

  /** Slot i of h is acknowledged, yet the peer neither holds the packet nor is about to. */
  ghost predicate Lie(s: State, h: Host, i: nat) {
    var snd := SessionEnd(s, h).snd;
    i in snd.window && snd.window[i].acked && !Holds(SessionEnd(s, OtherHost(h)).rcv, i)
  }

  lemma ClientBelieves(handler: Bytes -> Bytes, req: Bytes, net: multiset<Datagram>, d: Datagram) returns (t: State)
    requires NoData(net) && d in net && CanAck(handler, req, d, Client)
    ensures Reachable(handler, req, net, t) && Lie(t, Client, d.packet.seqNum)
  {
    var s0 := Initial(net);
    Begin(handler, req, net);
    var s1 := Connects(handler, req, net, s0);
    var s2 := TurnsTo(handler, req, net, s1, Client, d.packet.seqNum + 1);
    assert d in s2.net by {
      assert d in s1.net;
    }
    Registered(req, s2.client.snd, d.packet.seqNum);
    t := AckComes(handler, req, net, s2, d);
  }

  lemma Registered(m: Bytes, snd: Sender, i: nat)
    requires AtNumber(m, snd, i + 1) && (SenderOk(m, snd) || i in snd.window) && 1 <= i
    ensures i in snd.window
  {
  }

  /** A stray SYNACK makes the client send the acknowledgement itself. */
  lemma AckAtHand(handler: Bytes -> Bytes, req: Bytes, net: multiset<Datagram>, d: Datagram) returns (s: State, ack: Datagram)
    requires NoData(net) && d in net && CanAck(handler, req, d, Server)
    ensures s in Reached(handler, req, net) && Fresh(s) && ack in s.net
    ensures ack.dst == Server && ack.packet.kind == ACK && ack.packet.seqNum == d.packet.seqNum
  {
    s, ack := Initial(net), d;
    Begin(handler, req, net);
    if d.packet.kind == SYNACK {
      ack := Datagram(Client, Server, Packet(ACK, d.packet.seqNum, []));
      var t := DoReceive(s, d);
      assert t == s.(synAckChannel := true, net := t.net);
      Do(handler, req, net, s, Receive(d));
      s := t;
    }
  }

  lemma MisledShape(s: State, u: State, t: State, i: nat)
    requires Ready(s) && AllAcked(s.server.snd) && s.server.snd.loop.AtLoop? && s.server.snd.seqNum == i < WINDOW_SIZE
    requires u == WithSender(s, Server, Turned(s.server.snd)).(net := u.net)
    requires t == WithSender(u, Server, AckSlot(u.server.snd, i)).(net := t.net) && i !in s.client.rcv.window
    ensures Ready(t) && AllAcked(t.server.snd) && Lie(t, Server, i) && t.server.snd.loop == u.server.snd.loop
    ensures t.server.snd.seqNum == i + 1 && (t.server.snd.loop.AtLoop? || t.server.snd.loop.AllSent?)
  {
  }

  /** The server has come to packet i, and the false acknowledgement for it is under way. */
  lemma ServerAtNumber(handler: Bytes -> Bytes, req: Bytes, net: multiset<Datagram>, d: Datagram)
      returns (t: State, ack: Datagram)
    requires NoData(net) && d in net && CanAck(handler, req, d, Server)
    ensures t in Reached(handler, req, net) && Ready(t) && AllAcked(t.server.snd) && t.server.snd.loop.AtLoop?
    ensures t.server.snd.seqNum == d.packet.seqNum && d.packet.seqNum !in t.client.rcv.window
    ensures ack in t.net && ack.dst == Server && ack.packet.kind == ACK && ack.packet.seqNum == d.packet.seqNum
  {
    var s0;
    s0, ack := AckAtHand(handler, req, net, d);
    var s1 := Answers(handler, req, net, s0);
    t := RespondsTo(handler, req, net, s1, d.packet.seqNum);
    assert ack in s1.net;
  }

  /** The server takes the false acknowledgement of packet i, which nobody has received. */
  lemma ServerMisled(handler: Bytes -> Bytes, req: Bytes, net: multiset<Datagram>, d: Datagram) returns (t: State)
    requires NoData(net) && d in net && CanAck(handler, req, d, Server)
    ensures t in Reached(handler, req, net) && Ready(t) && AllAcked(t.server.snd)
    ensures AtNumber(handler(req), t.server.snd, d.packet.seqNum + 1) && Lie(t, Server, d.packet.seqNum)
  {
    var s1, ack := ServerAtNumber(handler, req, net, d);
    var s2 := Turn(handler, req, net, s1, Server);
    t := AckComes(handler, req, net, s2, ack);
    MisledShape(s1, s2, t, d.packet.seqNum);
    AtNumberHolds(handler(req), t.server.snd);
  }

  /** It sends and resets as if all had been received. */
  lemma ResetsMisled(handler: Bytes -> Bytes, req: Bytes, net: multiset<Datagram>, d: Datagram) returns (t: State)
    requires NoData(net) && d in net && CanAck(handler, req, d, Server) && Fits(handler(req))
    ensures Reachable(handler, req, net, t) && t.serverMain.Ended? && !Holds(t.client.rcv, d.packet.seqNum)
  {
    var s1 := ServerMisled(handler, req, net, d);
    var s2 := RespondsTo(handler, req, net, s1, DeliverSeq(handler(req)) + 1);
    t := Ends(handler, req, net, s2);
  }

  // ---- the exact conditions

  ghost predicate NeverLied(handler: Bytes -> Bytes, req: Bytes, net: multiset<Datagram>, h: Host) {
    forall s, i :: Reachable(handler, req, net, s) ==> !Lie(s, h, i)
  }

  /** With datagrams of an earlier session still under way, none of them carrying data, the slots of h
      are acknowledged truthfully in every run if and only if none of those datagrams is an ACK, or
      for the server a SYNACK to its client, with a number h comes to use. */
  lemma AcksTrueExactly(handler: Bytes -> Bytes, req: Bytes, net: multiset<Datagram>, h: Host)
    requires NoData(net)
    ensures NeverLied(handler, req, net, h) <==> NothingAcks(handler, req, net, h)
  {
    if NothingAcks(handler, req, net, h) {
      forall s, i | Reachable(handler, req, net, s)
        ensures !Lie(s, h, i)
      {
        AckInvReachable(handler, req, net, h, s);
      }
    } else {
      var d :| d in net && CanAck(handler, req, d, h);
      if h == Client {
        var t := ClientBelieves(handler, req, net, d);
      } else {
        var t := ServerMisled(handler, req, net, d);
      }
    }
  }

  /** Whenever the server has disconnected or reset, the client holds all of the response. */
  ghost predicate NothingLost(handler: Bytes -> Bytes, req: Bytes, net: multiset<Datagram>) {
    forall s, i :: (Reachable(handler, req, net, s) && (s.serverMain.Closing? || s.serverMain.Ended?)
                    && 1 <= i <= DeliverSeq(handler(req))) ==> Holds(s.client.rcv, i)
  }

  /** Reset loses nothing in any run if and only if no datagram left from before can acknowledge a
      slot of the server. A response too long for its window never comes to a reset. */
  lemma ResetLosesNothingExactly(handler: Bytes -> Bytes, req: Bytes, net: multiset<Datagram>)
    requires NoData(net)
    ensures NothingLost(handler, req, net) <==> NothingAcks(handler, req, net, Server) || !Fits(handler(req))
  {
    if NothingAcks(handler, req, net, Server) || !Fits(handler(req)) {
      forall s, i: nat | Reachable(handler, req, net, s) && (s.serverMain.Closing? || s.serverMain.Ended?)
                         && 1 <= i <= DeliverSeq(handler(req))
        ensures Holds(s.client.rcv, i)
      {
        HeldAtReset(handler, req, net, s, i);
      }
    } else {
      var d :| d in net && CanAck(handler, req, d, Server);
      var t := ResetsMisled(handler, req, net, d);
    }
  }

  lemma HeldAtReset(handler: Bytes -> Bytes, req: Bytes, net: multiset<Datagram>, s: State, i: nat)
    requires NoData(net) && (NothingAcks(handler, req, net, Server) || !Fits(handler(req)))
    requires Reachable(handler, req, net, s) && (s.serverMain.Closing? || s.serverMain.Ended?)
    requires 1 <= i <= DeliverSeq(handler(req))
    ensures Holds(s.client.rcv, i)
  {
    DataInvReachable(handler, req, net, s);
    var snd := SessionServer(s).snd;
    assert SenderOk(handler(req), snd) && snd.loop.AllSent? by {
      assert MainsOk(handler, req, s);
    }
    assert DeliverSeq(handler(req)) in snd.window && i in snd.window;
    AckInvReachable(handler, req, net, Server, s);
  }
}

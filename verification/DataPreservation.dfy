/** The data invariant holds initially and every action of either program or the router keeps it. */
module DataPreservation {
  import opened Packets
  import opened Chunking
  import opened Endpoints
  import opened Runs
  import opened Protocol
  import opened DataInvariant

  /** A move from s to t does not break the invariant. */
  ghost predicate Keeps(handler: Bytes -> Bytes, req: Bytes, s: State, t: State) {
    !DataInv(handler, req, s) || DataInv(handler, req, t)
  }

  /** Nothing that ties the main goroutines to the halves has moved. */
  predicate SameMains(s: State, t: State) {
    && t.clientMain == s.clientMain && t.serverMain == s.serverMain && t.handled == s.handled
    && t.clientAddr == s.clientAddr && t.synChannel == s.synChannel
    && SameStage(s.client, t.client) && SameStage(SessionServer(s), SessionServer(t))
  }

  predicate SameReset(s: State, t: State) {
    && t.serverMain == s.serverMain && t.connected == s.connected
    && (s.serverMain.Ended? ==>
          && t.server.snd == s.server.snd && t.server.rcv == s.server.rcv
          && t.synChannel == s.synChannel && t.ackChannel == s.ackChannel)
  }

  predicate SameStage(e: Endpoint, f: Endpoint) {
    && e.snd.loop == f.snd.loop && e.snd.seqNum == f.snd.seqNum
    && e.rcv.checker.Returned? == f.rcv.checker.Returned? && e.rcv.token == f.rcv.token
  }

  /** Enough to check: each half either stayed or is well formed, the main goroutines either stayed
      or agree with the halves, and every datagram is old or well formed. */
  lemma FromParts(handler: Bytes -> Bytes, req: Bytes, s: State, t: State)
    requires DataInv(handler, req, s)
    requires t.client.snd == s.client.snd || SenderOk(req, t.client.snd)
    requires SessionServer(t).snd == SessionServer(s).snd || SenderOk(handler(req), SessionServer(t).snd)
    requires Hi(s.client.snd) <= Hi(t.client.snd) && Hi(SessionServer(s).snd) <= Hi(SessionServer(t).snd)
    requires SessionServer(t).rcv == SessionServer(s).rcv || ReceiverOk(req, Hi(s.client.snd), SessionServer(t).rcv)
    requires t.client.rcv == s.client.rcv || ReceiverOk(handler(req), Hi(SessionServer(s).snd), t.client.rcv)
    requires SameMains(s, t) || MainsOk(handler, req, t)
    requires SameReset(s, t) || AfterResetOk(t)
    requires forall d :: d in t.net ==> d in s.net || DatagramOk(handler, req, t, d)
    ensures DataInv(handler, req, t)
  {
    ReceiverMonotone(req, Hi(s.client.snd), Hi(t.client.snd), SessionServer(t).rcv);
    ReceiverMonotone(handler(req), Hi(SessionServer(s).snd), Hi(SessionServer(t).snd), t.client.rcv);
    forall d | d in t.net
      ensures DatagramOk(handler, req, t, d)
    {
      if d in s.net {
        assert DatagramOk(handler, req, s, d);
      }
    }
  }

  /** The sending half of h moved without its loop advancing, and datagrams were added or removed. */
  lemma SenderMoved(handler: Bytes -> Bytes, req: Bytes, s: State, h: Host, snd: Sender, net: multiset<Datagram>)
    requires DataInv(handler, req, s) && (h == Server ==> !s.serverMain.Ended?)
    requires (h == Client && SenderOk(req, snd)) || (h == Server && SenderOk(handler(req), snd))
    requires snd.loop == EndpointOf(s, h).snd.loop && snd.seqNum == EndpointOf(s, h).snd.seqNum
    requires forall d :: d in net ==> d in s.net || DatagramOk(handler, req, s, d)
    ensures Keeps(handler, req, s, WithSender(s, h, snd).(net := net))
  {
    FromParts(handler, req, s, WithSender(s, h, snd).(net := net));
  }

  /** The receiving half of h moved, and datagrams that carry no data were added or removed. */
  lemma ReceiverMoved(handler: Bytes -> Bytes, req: Bytes, s: State, h: Host, rcv: Receiver, net: multiset<Datagram>)
    requires DataInv(handler, req, s) && (h == Server ==> !s.serverMain.Ended?)
    requires (h == Server && ReceiverOk(req, Hi(s.client.snd), rcv))
             || (h == Client && ReceiverOk(handler(req), Hi(SessionServer(s).snd), rcv))
    requires var was := EndpointOf(s, h).rcv;
             || (rcv.checker == was.checker && rcv.token == was.token)
             || (!was.checker.Returned? && rcv.checker.Returned? == rcv.token)
    requires forall d :: d in net ==> d in s.net || DatagramOk(handler, req, s, d)
    ensures Keeps(handler, req, s, WithReceiver(s, h, rcv).(net := net))
  {
    FromParts(handler, req, s, WithReceiver(s, h, rcv).(net := net));
  }

  /** A program panicked. */
  lemma Panicked(handler: Bytes -> Bytes, req: Bytes, s: State, h: Host, net: multiset<Datagram>)
    requires DataInv(handler, req, s)
    requires forall d :: d in net ==> d in s.net
    ensures Keeps(handler, req, s, Panic(s, h).(net := net))
  {
    FromParts(handler, req, s, Panic(s, h).(net := net));
  }

  lemma WriteKeeps(handler: Bytes -> Bytes, req: Bytes, s: State, h: Host)
    requires DataInv(handler, req, s) && CanWrite(s, h)
    ensures Keeps(handler, req, s, DoWrite(s, h))
  {
    WriteKeepsSender(if h == Client then req else handler(req), EndpointOf(s, h).snd);
    FromParts(handler, req, s, DoWrite(s, h));
  }

  lemma RegisterKeeps(handler: Bytes -> Bytes, req: Bytes, s: State, h: Host)
    requires DataInv(handler, req, s) && CanRegister(s, h)
    ensures Keeps(handler, req, s, DoRegister(s, h))
  {
    RegisterKeepsSender(if h == Client then req else handler(req), EndpointOf(s, h).snd);
    if RegisterPacket(EndpointOf(s, h).snd).Some? {
      FromParts(handler, req, s, DoRegister(s, h));
    } else {
      Panicked(handler, req, s, h, s.net);
    }
  }

  lemma TickKeeps(handler: Bytes -> Bytes, req: Bytes, s: State, h: Host, i: nat)
    requires DataInv(handler, req, s) && CanTick(s, h, i)
    ensures Keeps(handler, req, s, DoTick(s, h, i))
  {
    FireKeepsSender(if h == Client then req else handler(req), EndpointOf(s, h).snd, i);
    SenderMoved(handler, req, s, h, Fire(EndpointOf(s, h).snd, i), s.net);
  }

  lemma RetransmitKeeps(handler: Bytes -> Bytes, req: Bytes, s: State, h: Host, i: nat)
    requires DataInv(handler, req, s) && CanRetransmit(s, h, i)
    ensures Keeps(handler, req, s, DoRetransmit(s, h, i))
  {
    var snd := EndpointOf(s, h).snd;
    ResendKeepsSender(if h == Client then req else handler(req), snd, i);
    var d := Datagram(h, PeerOf(s, h).value, snd.window[i].packet);
    assert DatagramOk(handler, req, s, d);
    SenderMoved(handler, req, s, h, Resend(snd, i), s.net + multiset{d});
  }

  lemma RearmKeeps(handler: Bytes -> Bytes, req: Bytes, s: State, h: Host)
    requires DataInv(handler, req, s) && CanRearm(s, h)
    ensures Keeps(handler, req, s, DoRearm(s, h))
  {
    if h == Server && s.serverMain.Ended? {
      FromParts(handler, req, s, DoRearm(s, h));
    } else {
      RearmKeepsSender(if h == Client then req else handler(req), EndpointOf(s, h).snd);
      SenderMoved(handler, req, s, h, Rearm(EndpointOf(s, h).snd).value, s.net);
    }
  }

  lemma AckSlotKeeps(handler: Bytes -> Bytes, req: Bytes, s: State, d: Datagram)
    requires DataInv(handler, req, s) && CanReceive(s, d) && d.packet.seqNum in EndpointOf(s, d.dst).snd.window
    ensures Keeps(handler, req, s, WithSender(Take(s, d), d.dst, AckSlot(EndpointOf(s, d.dst).snd, d.packet.seqNum)))
  {
    AckKeepsSender(if d.dst == Client then req else handler(req), EndpointOf(s, d.dst).snd, d.packet.seqNum);
    SenderMoved(handler, req, s, d.dst, AckSlot(EndpointOf(s, d.dst).snd, d.packet.seqNum), Take(s, d).net);
  }

  lemma HoldKeeps(handler: Bytes -> Bytes, req: Bytes, s: State, d: Datagram)
    requires DataInv(handler, req, s) && CanReceive(s, d) && Storable(d.packet)
    ensures Keeps(handler, req, s, AckAndHold(Take(s, d), d))
  {
    assert DatagramOk(handler, req, s, d);
    assert DatagramOk(handler, req, s, AckFor(d));
    var net := Take(s, d).net + multiset{AckFor(d)};
    if d.dst == Client {
      ReceiverMoved(handler, req, s, Client, Accept(s.client.rcv, d.packet), net);
    } else {
      ReceiverMoved(handler, req, s, Server, Accept(s.server.rcv, d.packet), net);
    }
  }

  /** The client answers a SYNACK, or ignores a packet it does not know. */
  lemma ClientHandshakeKeeps(handler: Bytes -> Bytes, req: Bytes, s: State, d: Datagram)
    requires DataInv(handler, req, s) && CanReceive(s, d) && d.dst == Client
    requires !Storable(d.packet) && d.packet.kind != ACK
    ensures Keeps(handler, req, s, DoReceive(s, d))
  {
    var t := DoReceive(s, d);
    assert t == s.(synAckChannel := t.synAckChannel, net := t.net);
    FromParts(handler, req, s, t);
  }

  /** The server fills a handshake channel, or ignores the packet. */
  lemma ServerHandshakeKeeps(handler: Bytes -> Bytes, req: Bytes, s: State, d: Datagram)
    requires DataInv(handler, req, s) && CanReceive(s, d) && d.dst == Server
    requires !Storable(d.packet) && (d.packet.kind == ACK ==> d.packet.seqNum == 0)
    ensures Keeps(handler, req, s, DoReceive(s, d))
  {
    assert DatagramOk(handler, req, s, d);
    FromParts(handler, req, s, DoReceive(s, d));
  }

  lemma ClientReceiveKeeps(handler: Bytes -> Bytes, req: Bytes, s: State, d: Datagram)
    requires DataInv(handler, req, s) && CanReceive(s, d) && d.dst == Client
    ensures Keeps(handler, req, s, DoReceive(s, d))
  {
    if Storable(d.packet) {
      HoldKeeps(handler, req, s, d);
    } else if d.packet.kind != ACK {
      ClientHandshakeKeeps(handler, req, s, d);
    } else if d.packet.seqNum in s.client.snd.window {
      AckSlotKeeps(handler, req, s, d);
    } else {
      Panicked(handler, req, s, Client, Take(s, d).net);
    }
  }

  lemma ServerReceiveKeeps(handler: Bytes -> Bytes, req: Bytes, s: State, d: Datagram)
    requires DataInv(handler, req, s) && CanReceive(s, d) && d.dst == Server
    ensures Keeps(handler, req, s, DoReceive(s, d))
  {
    if Storable(d.packet) {
      HoldKeeps(handler, req, s, d);
    } else if d.packet.kind != ACK || d.packet.seqNum == 0 {
      ServerHandshakeKeeps(handler, req, s, d);
    } else if d.packet.seqNum >= WINDOW_SIZE {
      Panicked(handler, req, s, Server, Take(s, d).net);
    } else if d.packet.seqNum in s.server.snd.window {
      AckSlotKeeps(handler, req, s, d);
    } else {
      DropKeeps(handler, req, s, d);
    }
  }

  lemma DropKeeps(handler: Bytes -> Bytes, req: Bytes, s: State, d: Datagram)
    requires DataInv(handler, req, s)
    ensures Keeps(handler, req, s, Take(s, d))
  {
    FromParts(handler, req, s, Take(s, d));
  }

  lemma StoreKeeps(handler: Bytes -> Bytes, req: Bytes, s: State, h: Host)
    requires DataInv(handler, req, s) && CanStore(s, h)
    ensures Keeps(handler, req, s, DoStore(s, h))
  {
    var rcv := EndpointOf(s, h).rcv;
    if h == Server {
      StoreKeepsReceiver(req, Hi(s.client.snd), rcv);
    } else {
      StoreKeepsReceiver(handler(req), Hi(SessionServer(s).snd), rcv);
    }
    if StorePacket(rcv).Some? {
      ReceiverMoved(handler, req, s, h, StorePacket(rcv).value, s.net);
    } else {
      Panicked(handler, req, s, h, s.net);
    }
  }

  lemma CheckKeeps(handler: Bytes -> Bytes, req: Bytes, s: State, h: Host)
    requires DataInv(handler, req, s) && CanCheck(s, h)
    ensures Keeps(handler, req, s, DoCheck(s, h))
  {
    var t := DoCheck(s, h);
    if h == Server {
      CheckKeepsReceiver(req, Hi(s.client.snd), s.server.rcv);
      assert t == s.(server := t.server);
    } else {
      CheckKeepsReceiver(handler(req), Hi(SessionServer(s).snd), s.client.rcv);
      assert t == s.(client := t.client);
    }
    FromParts(handler, req, s, t);
  }

  lemma SendSynKeeps(handler: Bytes -> Bytes, req: Bytes, s: State)
    requires DataInv(handler, req, s) && CanSendSyn(s)
    ensures Keeps(handler, req, s, DoSendSyn(s))
  {
    FromParts(handler, req, s, DoSendSyn(s));
  }

  lemma TakeSynAckKeeps(handler: Bytes -> Bytes, req: Bytes, s: State)
    requires DataInv(handler, req, s) && CanTakeSynAck(s)
    ensures Keeps(handler, req, s, DoTakeSynAck(req, s))
  {
    FromParts(handler, req, s, DoTakeSynAck(req, s));
  }

  lemma TakeResponseKeeps(handler: Bytes -> Bytes, req: Bytes, s: State)
    requires DataInv(handler, req, s) && CanTakeResponse(s)
    ensures Keeps(handler, req, s, DoTakeResponse(s))
  {
    GatherGivesMessage(handler(req), Hi(SessionServer(s).snd), s.client.rcv);
    TokenTaken(handler(req), Hi(SessionServer(s).snd), s.client.rcv);
    FromParts(handler, req, s, DoTakeResponse(s));
  }

  lemma TakeSynKeeps(handler: Bytes -> Bytes, req: Bytes, s: State)
    requires DataInv(handler, req, s) && CanTakeSyn(s)
    ensures Keeps(handler, req, s, DoTakeSyn(s))
  {
    FromParts(handler, req, s, DoTakeSyn(s));
  }

  lemma SendSynAckKeeps(handler: Bytes -> Bytes, req: Bytes, s: State)
    requires DataInv(handler, req, s) && CanSendSynAck(s)
    ensures Keeps(handler, req, s, DoSendSynAck(s))
  {
    FromParts(handler, req, s, DoSendSynAck(s));
  }

  lemma TakeAckKeeps(handler: Bytes -> Bytes, req: Bytes, s: State)
    requires DataInv(handler, req, s) && CanTakeAck(s)
    ensures Keeps(handler, req, s, DoTakeAck(s))
  {
    FromParts(handler, req, s, DoTakeAck(s));
  }

  lemma TakeRequestKeeps(handler: Bytes -> Bytes, req: Bytes, s: State)
    requires DataInv(handler, req, s) && CanTakeRequest(s)
    ensures Keeps(handler, req, s, DoTakeRequest(handler, s))
  {
    GatherGivesMessage(req, Hi(s.client.snd), s.server.rcv);
    TokenTaken(req, Hi(s.client.snd), s.server.rcv);
    LoopEntered(handler(req), s.server.snd);
    FromParts(handler, req, s, DoTakeRequest(handler, s));
  }

  lemma ReadAckKeeps(handler: Bytes -> Bytes, req: Bytes, s: State)
    requires DataInv(handler, req, s) && CanReadAck(s)
    ensures Keeps(handler, req, s, DoReadAck(s))
  {
    var t := DoReadAck(s);
    assert t == s.(serverMain := t.serverMain, connected := t.connected);
    FromParts(handler, req, s, t);
  }

  lemma ResetKeeps(handler: Bytes -> Bytes, req: Bytes, s: State)
    requires DataInv(handler, req, s) && CanReset(s)
    ensures Keeps(handler, req, s, DoReset(s))
  {
    FromParts(handler, req, s, DoReset(s));
  }

  lemma TimeoutsKeep(handler: Bytes -> Bytes, req: Bytes, s: State)
    requires DataInv(handler, req, s)
    ensures s.clientMain.AwaitingSynAck? ==> Keeps(handler, req, s, s.(clientMain := Dialing))
    ensures s.serverMain.AwaitingAck? ==> Keeps(handler, req, s, s.(serverMain := Replying))
  {
    if s.clientMain.AwaitingSynAck? {
      FromParts(handler, req, s, s.(clientMain := Dialing));
    }
    if s.serverMain.AwaitingAck? {
      FromParts(handler, req, s, s.(serverMain := Replying));
    }
  }

  lemma StartBlockingKeeps(handler: Bytes -> Bytes, req: Bytes, s: State)
    requires DataInv(handler, req, s) && CanStartBlocking(s)
    ensures Keeps(handler, req, s, s.(serverMain := Blocking(0, false)))
  {
    FromParts(handler, req, s, s.(serverMain := Blocking(0, false)));
  }

  lemma HostActionsKeep(handler: Bytes -> Bytes, req: Bytes, s: State, a: Action)
    requires DataInv(handler, req, s) && Enabled(s, a)
    requires a.Write? || a.Register? || a.Tick? || a.Retransmit? || a.RearmTimer? || a.Store? || a.Check?
    ensures Keeps(handler, req, s, Next(handler, req, s, a))
  {
    match a
    case Write(h) => WriteKeeps(handler, req, s, h);
    case Register(h) => RegisterKeeps(handler, req, s, h);
    case Tick(h, i) => TickKeeps(handler, req, s, h, i);
    case Retransmit(h, i) => RetransmitKeeps(handler, req, s, h, i);
    case RearmTimer(h) => RearmKeeps(handler, req, s, h);
    case Store(h) => StoreKeeps(handler, req, s, h);
    case Check(h) => CheckKeeps(handler, req, s, h);
  }

  lemma MainActionsKeep(handler: Bytes -> Bytes, req: Bytes, s: State, a: Action)
    requires DataInv(handler, req, s) && Enabled(s, a)
    requires !a.Write? && !a.Register? && !a.Tick? && !a.Retransmit? && !a.RearmTimer? && !a.Store? && !a.Check?
    ensures Keeps(handler, req, s, Next(handler, req, s, a))
  {
    match a
    case Receive(d) =>
      if d.dst == Client {
        ClientReceiveKeeps(handler, req, s, d);
      } else {
        ServerReceiveKeeps(handler, req, s, d);
      }
    case SendSyn => SendSynKeeps(handler, req, s);
    case SynTimeout => TimeoutsKeep(handler, req, s);
    case TakeSynAck => TakeSynAckKeeps(handler, req, s);
    case TakeResponse => TakeResponseKeeps(handler, req, s);
    case TakeSyn => TakeSynKeeps(handler, req, s);
    case SendSynAck => SendSynAckKeeps(handler, req, s);
    case SynAckTimeout => TimeoutsKeep(handler, req, s);
    case TakeAck => TakeAckKeeps(handler, req, s);
    case TakeRequest => TakeRequestKeeps(handler, req, s);
    case StartBlocking => StartBlockingKeeps(handler, req, s);
    case ReadAck => ReadAckKeeps(handler, req, s);
    case Reset => ResetKeeps(handler, req, s);
    case Drop(d) => DropKeeps(handler, req, s, d);
  }

  /** The data invariant is inductive, whatever control packets are under way. */
  lemma DataInvKept(handler: Bytes -> Bytes, req: Bytes, s: State, a: Action)
    requires DataInv(handler, req, s) && Enabled(s, a)
    ensures DataInv(handler, req, Next(handler, req, s, a))
  {
    if a.Write? || a.Register? || a.Tick? || a.Retransmit? || a.RearmTimer? || a.Store? || a.Check? {
      HostActionsKeep(handler, req, s, a);
    } else {
      MainActionsKeep(handler, req, s, a);
    }
  }
}

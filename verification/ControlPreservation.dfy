/** Every action keeps the control invariant in a state that also satisfies the data invariant. */
module ControlPreservation {
  import opened Packets
  import opened Chunking
  import opened Endpoints
  import opened Protocol
  import opened DataInvariant
  import opened ControlInvariant

  ghost predicate Keeps(s: State, t: State) {
    !ControlInv(s) || ControlInv(t)
  }

  /** Whatever r holds, r' holds. */
  ghost predicate Grows(r: Receiver, r': Receiver) {
    forall i :: Holds(r, i) ==> Holds(r', i)
  }

  /** No slot of s' is acknowledged that was not acknowledged in s. */
  ghost predicate NoNewAcks(s: Sender, s': Sender) {
    forall i :: i in s'.window && s'.window[i].acked ==> i in s.window && s.window[i].acked
  }

  predicate SameStages(s: State, t: State) {
    && s.serverMain == t.serverMain && s.ackChannel == t.ackChannel && s.connected == t.connected
    && GotSynAck(s) == GotSynAck(t)
  }

  lemma FromParts(s: State, t: State)
    requires ControlInv(s)
    requires s.client.rcv == t.client.rcv || Grows(s.client.rcv, t.client.rcv)
    requires SessionServer(s).rcv == SessionServer(t).rcv || Grows(SessionServer(s).rcv, SessionServer(t).rcv)
    requires s.client.snd == t.client.snd || NoNewAcks(s.client.snd, t.client.snd)
             || AckedOk(t.client.snd, SessionServer(s).rcv)
    requires SessionServer(s).snd == SessionServer(t).snd || NoNewAcks(SessionServer(s).snd, SessionServer(t).snd)
             || AckedOk(SessionServer(t).snd, s.client.rcv)
    requires (s.serverMain == t.serverMain && SessionServer(s).snd == SessionServer(t).snd)
             || ScanOk(t.serverMain, SessionServer(t).snd)
    requires SameStages(s, t) || (StagesOk(t) && (GotSynAck(s) ==> GotSynAck(t)) && (TookSyn(s) ==> TookSyn(t)))
    requires forall d :: d in t.net ==> d in s.net || ControlDatagramOk(t, d)
    ensures ControlInv(t)
  {
    assert Grows(s.client.rcv, t.client.rcv) && Grows(SessionServer(s).rcv, SessionServer(t).rcv);
    forall d | d in t.net
      ensures ControlDatagramOk(t, d)
    {
      if d in s.net {
        assert ControlDatagramOk(s, d);
      }
    }
  }

  // ---- steps of one half

  lemma AckSlotScan(m: Bytes, main: ServerMain, snd: Sender, i: nat)
    requires SenderOk(m, snd) && ScanOk(main, snd) && i in snd.window
    ensures ScanOk(main, AckSlot(snd, i))
  {
  }

  lemma StoreGrows(rcv: Receiver)
    requires rcv.storing.Some? && StorePacket(rcv).Some?
    ensures Grows(rcv, StorePacket(rcv).value)
  {
  }

  lemma CheckGrows(rcv: Receiver)
    requires !rcv.checker.Returned?
    ensures Grows(rcv, CheckStep(rcv))
  {
  }

  /** A timer move changes no acknowledgement. */
  lemma TimersScan(main: ServerMain, snd: Sender, i: nat)
    requires ScanOk(main, snd)
    ensures CanFire(snd, i) ==> NoNewAcks(snd, Fire(snd, i)) && ScanOk(main, Fire(snd, i))
    ensures NoNewAcks(snd, snd.(resending := Some(i))) && ScanOk(main, snd.(resending := Some(i)))
    ensures snd.resending.Some? && !RearmBlocks(snd) && Rearm(snd).Some? ==>
              NoNewAcks(snd, Rearm(snd).value) && ScanOk(main, Rearm(snd).value)
  {
  }

  // ---- steps of the whole state

  lemma WriteKeeps(handler: Bytes -> Bytes, req: Bytes, s: State, h: Host)
    requires Inv(handler, req, s) && CanWrite(s, h)
    ensures Keeps(s, DoWrite(s, h))
  {
    FromParts(s, DoWrite(s, h));
  }

  lemma RegisterKeeps(handler: Bytes -> Bytes, req: Bytes, s: State, h: Host)
    requires Inv(handler, req, s) && CanRegister(s, h)
    ensures Keeps(s, DoRegister(s, h))
  {
    FromParts(s, DoRegister(s, h));
  }

  lemma TickKeeps(handler: Bytes -> Bytes, req: Bytes, s: State, h: Host, i: nat)
    requires Inv(handler, req, s) && CanTick(s, h, i)
    ensures Keeps(s, DoTick(s, h, i))
  {
    TimersScan(if h == Server then s.serverMain else Listening, EndpointOf(s, h).snd, i);
    FromParts(s, DoTick(s, h, i));
  }

  lemma RetransmitKeeps(handler: Bytes -> Bytes, req: Bytes, s: State, h: Host, i: nat)
    requires Inv(handler, req, s) && CanRetransmit(s, h, i)
    ensures Keeps(s, DoRetransmit(s, h, i))
  {
    TimersScan(if h == Server then s.serverMain else Listening, EndpointOf(s, h).snd, i);
    FromParts(s, DoRetransmit(s, h, i));
  }

  lemma RearmKeeps(handler: Bytes -> Bytes, req: Bytes, s: State, h: Host)
    requires Inv(handler, req, s) && CanRearm(s, h)
    ensures Keeps(s, DoRearm(s, h))
  {
    if h == Client || !s.serverMain.Ended? {
      TimersScan(if h == Server then s.serverMain else Listening, EndpointOf(s, h).snd, 0);
    }
    FromParts(s, DoRearm(s, h));
  }

  lemma AckedOkAfter(snd: Sender, rcv: Receiver, i: nat)
    requires AckedOk(snd, rcv) && i in snd.window && Holds(rcv, i)
    ensures AckedOk(AckSlot(snd, i), rcv)
  {
  }

  lemma ServerAckKeeps(handler: Bytes -> Bytes, req: Bytes, s: State, d: Datagram)
    requires Inv(handler, req, s) && CanReceive(s, d) && d.packet.kind == ACK && d.packet.seqNum != 0
    requires d.dst == Server && d.packet.seqNum in s.server.snd.window
    ensures Keeps(s, WithSender(Take(s, d), Server, AckSlot(s.server.snd, d.packet.seqNum)))
  {
    assert ControlDatagramOk(s, d);
    AckSlotScan(handler(req), s.serverMain, s.server.snd, d.packet.seqNum);
    AckedOkAfter(s.server.snd, s.client.rcv, d.packet.seqNum);
    FromParts(s, WithSender(Take(s, d), Server, AckSlot(s.server.snd, d.packet.seqNum)));
  }

  lemma ClientAckKeeps(handler: Bytes -> Bytes, req: Bytes, s: State, d: Datagram)
    requires Inv(handler, req, s) && CanReceive(s, d) && d.packet.kind == ACK && d.packet.seqNum != 0
    requires d.dst == Client && d.packet.seqNum in s.client.snd.window
    ensures Keeps(s, WithSender(Take(s, d), Client, AckSlot(s.client.snd, d.packet.seqNum)))
  {
    assert ControlDatagramOk(s, d);
    AckedOkAfter(s.client.snd, SessionServer(s).rcv, d.packet.seqNum);
    FromParts(s, WithSender(Take(s, d), Client, AckSlot(s.client.snd, d.packet.seqNum)));
  }

  lemma HoldKeeps(handler: Bytes -> Bytes, req: Bytes, s: State, d: Datagram)
    requires Inv(handler, req, s) && CanReceive(s, d) && Storable(d.packet)
    ensures Keeps(s, AckAndHold(Take(s, d), d))
  {
    assert DatagramOk(handler, req, s, d);
    FromParts(s, AckAndHold(Take(s, d), d));
  }

  lemma DropKeeps(s: State, d: Datagram)
    requires ControlInv(s)
    ensures Keeps(s, Take(s, d))
  {
    FromParts(s, Take(s, d));
  }

  lemma Panicked(s: State, h: Host, net: multiset<Datagram>)
    requires ControlInv(s)
    requires forall d :: d in net ==> d in s.net
    ensures Keeps(s, Panic(s, h).(net := net))
  {
    FromParts(s, Panic(s, h).(net := net));
  }

  /** The client answers a SYNACK; no other control packet reaches it. */
  lemma ClientHandshakeKeeps(handler: Bytes -> Bytes, req: Bytes, s: State, d: Datagram)
    requires Inv(handler, req, s) && CanReceive(s, d) && d.dst == Client
    requires !Storable(d.packet) && d.packet.kind != ACK
    ensures Keeps(s, DoReceive(s, d))
  {
    assert ControlDatagramOk(s, d);
    FromParts(s, DoReceive(s, d));
  }

  lemma ServerHandshakeKeeps(handler: Bytes -> Bytes, req: Bytes, s: State, d: Datagram)
    requires Inv(handler, req, s) && CanReceive(s, d) && d.dst == Server
    requires !Storable(d.packet) && (d.packet.kind == ACK ==> d.packet.seqNum == 0)
    ensures Keeps(s, DoReceive(s, d))
  {
    assert ControlDatagramOk(s, d);
    FromParts(s, DoReceive(s, d));
  }

  lemma ReceiveKeeps(handler: Bytes -> Bytes, req: Bytes, s: State, d: Datagram)
    requires Inv(handler, req, s) && CanReceive(s, d)
    ensures Keeps(s, DoReceive(s, d))
  {
    assert ControlDatagramOk(s, d);
    if Storable(d.packet) {
      HoldKeeps(handler, req, s, d);
    } else if d.packet.kind != ACK || d.packet.seqNum == 0 {
      if d.dst == Client {
        ClientHandshakeKeeps(handler, req, s, d);
      } else {
        ServerHandshakeKeeps(handler, req, s, d);
      }
    } else if d.packet.seqNum in EndpointOf(s, d.dst).snd.window {
      if d.dst == Client {
        ClientAckKeeps(handler, req, s, d);
      } else {
        ServerAckKeeps(handler, req, s, d);
      }
    } else {
      DropKeeps(s, d);
      Panicked(s, d.dst, Take(s, d).net);
    }
  }

  lemma StoreKeeps(handler: Bytes -> Bytes, req: Bytes, s: State, h: Host)
    requires Inv(handler, req, s) && CanStore(s, h)
    ensures Keeps(s, DoStore(s, h))
  {
    if StorePacket(EndpointOf(s, h).rcv).Some? {
      StoreGrows(EndpointOf(s, h).rcv);
      FromParts(s, DoStore(s, h));
    } else {
      Panicked(s, h, s.net);
    }
  }

  lemma CheckKeeps(handler: Bytes -> Bytes, req: Bytes, s: State, h: Host)
    requires Inv(handler, req, s) && CanCheck(s, h)
    ensures Keeps(s, DoCheck(s, h))
  {
    var t := DoCheck(s, h);
    CheckGrows(EndpointOf(s, h).rcv);
    if h == Client {
      assert t == s.(client := t.client);
      FromParts(s, t);
    } else {
      assert t == s.(server := t.server);
      FromParts(s, t);
    }
  }

  lemma ClientMainKeeps(handler: Bytes -> Bytes, req: Bytes, s: State)
    requires Inv(handler, req, s)
    ensures CanSendSyn(s) ==> Keeps(s, DoSendSyn(s))
    ensures CanTakeSynAck(s) ==> Keeps(s, DoTakeSynAck(req, s))
    ensures Keeps(s, s.(clientMain := Dialing))
  {
    if CanSendSyn(s) {
      FromParts(s, DoSendSyn(s));
    }
    if CanTakeSynAck(s) {
      FromParts(s, DoTakeSynAck(req, s));
    }
    FromParts(s, s.(clientMain := Dialing));
  }

  lemma TakeResponseKeeps(handler: Bytes -> Bytes, req: Bytes, s: State)
    requires Inv(handler, req, s) && CanTakeResponse(s)
    ensures Keeps(s, DoTakeResponse(s))
  {
    FromParts(s, DoTakeResponse(s));
  }

  lemma ServerHandshakeStepsKeep(handler: Bytes -> Bytes, req: Bytes, s: State)
    requires Inv(handler, req, s)
    ensures CanTakeSyn(s) ==> Keeps(s, DoTakeSyn(s))
    ensures CanSendSynAck(s) ==> Keeps(s, DoSendSynAck(s))
    ensures s.serverMain.AwaitingAck? ==> Keeps(s, s.(serverMain := Replying))
    ensures CanTakeAck(s) ==> Keeps(s, DoTakeAck(s))
  {
    if CanTakeSyn(s) {
      FromParts(s, DoTakeSyn(s));
    }
    if CanSendSynAck(s) {
      FromParts(s, DoSendSynAck(s));
    }
    if s.serverMain.AwaitingAck? {
      FromParts(s, s.(serverMain := Replying));
    }
    if CanTakeAck(s) {
      FromParts(s, DoTakeAck(s));
    }
  }

  lemma TakeRequestKeeps(handler: Bytes -> Bytes, req: Bytes, s: State)
    requires Inv(handler, req, s) && CanTakeRequest(s)
    ensures Keeps(s, DoTakeRequest(handler, s))
  {
    FromParts(s, DoTakeRequest(handler, s));
  }

  lemma StartBlockingKeeps(handler: Bytes -> Bytes, req: Bytes, s: State)
    requires Inv(handler, req, s) && CanStartBlocking(s)
    ensures Keeps(s, s.(serverMain := Blocking(0, false)))
  {
    FromParts(s, s.(serverMain := Blocking(0, false)));
  }

  lemma ScanAdvances(m: Bytes, snd: Sender, i: nat, blocked: bool)
    requires SenderOk(m, snd) && ScanOk(Blocking(i, blocked), snd)
    ensures i < snd.seqNum ==> ScanOk(Blocking(i + 1, blocked || (i in snd.window && !snd.window[i].acked)), snd)
    ensures i >= snd.seqNum && !blocked ==> AllAcked(snd)
  {
  }

  /** The blocking loop reads slots one at a time while acknowledgements arrive; since an
      acknowledged slot stays so, a round that ends unblocked has seen them all. */
  lemma ReadAckKeeps(handler: Bytes -> Bytes, req: Bytes, s: State)
    requires Inv(handler, req, s) && CanReadAck(s)
    ensures Keeps(s, DoReadAck(s))
  {
    var t := DoReadAck(s);
    ScanAdvances(handler(req), s.server.snd, s.serverMain.i, s.serverMain.blocked);
    assert t == s.(serverMain := t.serverMain, connected := t.connected);
    FromParts(s, t);
  }

  lemma ResetKeeps(handler: Bytes -> Bytes, req: Bytes, s: State)
    requires Inv(handler, req, s) && CanReset(s)
    ensures Keeps(s, DoReset(s))
  {
    FromParts(s, DoReset(s));
  }

  lemma ControlInvKept(handler: Bytes -> Bytes, req: Bytes, s: State, a: Action)
    requires Inv(handler, req, s) && Enabled(s, a)
    ensures Keeps(s, Next(handler, req, s, a))
  {
    match a
    case Write(h) => WriteKeeps(handler, req, s, h);
    case Register(h) => RegisterKeeps(handler, req, s, h);
    case Tick(h, i) => TickKeeps(handler, req, s, h, i);
    case Retransmit(h, i) => RetransmitKeeps(handler, req, s, h, i);
    case RearmTimer(h) => RearmKeeps(handler, req, s, h);
    case Receive(d) => ReceiveKeeps(handler, req, s, d);
    case Store(h) => StoreKeeps(handler, req, s, h);
    case Check(h) => CheckKeeps(handler, req, s, h);
    case SendSyn => ClientMainKeeps(handler, req, s);
    case SynTimeout => ClientMainKeeps(handler, req, s);
    case TakeSynAck => ClientMainKeeps(handler, req, s);
    case TakeResponse => TakeResponseKeeps(handler, req, s);
    case TakeSyn => ServerHandshakeStepsKeep(handler, req, s);
    case SendSynAck => ServerHandshakeStepsKeep(handler, req, s);
    case SynAckTimeout => ServerHandshakeStepsKeep(handler, req, s);
    case TakeAck => ServerHandshakeStepsKeep(handler, req, s);
    case TakeRequest => TakeRequestKeeps(handler, req, s);
    case StartBlocking => StartBlockingKeeps(handler, req, s);
    case ReadAck => ReadAckKeeps(handler, req, s);
    case Reset => ResetKeeps(handler, req, s);
    case Drop(d) => DropKeeps(s, d);
  }
}

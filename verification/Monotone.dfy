/** Nothing a session achieves is lost: receiver slots are written once, acknowledgements stay, and
    the main goroutines only move forward. */
module Monotone {
  import opened Packets
  import opened Chunking
  import opened Endpoints
  import opened Runs
  import opened Protocol
  import opened DataInvariant
  import DataPreservation
  import opened Reachability

  function ServerStage(main: ServerMain): nat {
    match main
    case Listening => 0
    case Replying => 1
    case AwaitingAck => 1
    case AwaitingRequest => 2
    case Responding => 3
    case Blocking(_, _) => 4
    case Closing => 5
    case Ended => 6
  }

  function ClientStage(main: ClientMain): nat {
    match main
    case Dialing => 0
    case AwaitingSynAck => 0
    case Exchanging => 1
    case Got(_) => 2
  }

  ghost predicate SenderGrown(s: Sender, t: Sender) {
    && (s.loop.AllSent? ==> t.loop.AllSent?)
    && (forall i :: i in s.window ==>
                      i in t.window && t.window[i].packet == s.window[i].packet
                      && (s.window[i].acked ==> t.window[i].acked))
  }

  ghost predicate ReceiverGrown(r: Receiver, r': Receiver) {
    && (r.checker.Returned? ==> r'.checker.Returned?)
    && (forall i :: i in r.window ==> i in r'.window && r'.window[i] == r.window[i])
  }

  /** t is as far as s in everything a session completes step by step. */
  ghost predicate Grown(s: State, t: State) {
    && ServerStage(s.serverMain) <= ServerStage(t.serverMain)
    && ClientStage(s.clientMain) <= ClientStage(t.clientMain)
    && SenderGrown(s.client.snd, t.client.snd)
    && SenderGrown(SessionServer(s).snd, SessionServer(t).snd)
    && ReceiverGrown(s.client.rcv, t.client.rcv)
    && ReceiverGrown(SessionServer(s).rcv, SessionServer(t).rcv)
  }

  lemma FromParts(s: State, t: State)
    requires s.serverMain == t.serverMain || ServerStage(s.serverMain) <= ServerStage(t.serverMain)
    requires s.clientMain == t.clientMain || ClientStage(s.clientMain) <= ClientStage(t.clientMain)
    requires s.client.snd == t.client.snd || SenderGrown(s.client.snd, t.client.snd)
    requires SessionServer(s).snd == SessionServer(t).snd || SenderGrown(SessionServer(s).snd, SessionServer(t).snd)
    requires s.client.rcv == t.client.rcv || ReceiverGrown(s.client.rcv, t.client.rcv)
    requires SessionServer(s).rcv == SessionServer(t).rcv || ReceiverGrown(SessionServer(s).rcv, SessionServer(t).rcv)
    ensures Grown(s, t)
  {
  }

  // ---- steps of one half

  lemma RegisterGrows(m: Bytes, snd: Sender)
    requires SenderOk(m, snd) && snd.loop.Written? && RegisterPacket(snd).Some?
    ensures SenderGrown(snd, RegisterPacket(snd).value)
  {
  }

  lemma TimersGrow(m: Bytes, snd: Sender, i: nat)
    requires SenderOk(m, snd)
    ensures CanFire(snd, i) ==> SenderGrown(snd, Fire(snd, i))
    ensures i in snd.window ==> SenderGrown(snd, AckSlot(snd, i))
    ensures snd.resending.Some? && !RearmBlocks(snd) && Rearm(snd).Some? ==> SenderGrown(snd, Rearm(snd).value)
  {
  }

  lemma StoreGrows(rcv: Receiver)
    requires rcv.storing.Some? && StorePacket(rcv).Some?
    ensures ReceiverGrown(rcv, StorePacket(rcv).value)
  {
  }

  // ---- steps of the whole state

  lemma WriteGrows(s: State, h: Host)
    requires CanWrite(s, h)
    ensures Grown(s, DoWrite(s, h))
  {
    FromParts(s, DoWrite(s, h));
  }

  lemma RegisterStepGrows(handler: Bytes -> Bytes, req: Bytes, s: State, h: Host)
    requires DataInv(handler, req, s) && CanRegister(s, h)
    ensures Grown(s, DoRegister(s, h))
  {
    if RegisterPacket(EndpointOf(s, h).snd).Some? {
      RegisterGrows(if h == Client then req else handler(req), EndpointOf(s, h).snd);
    }
    FromParts(s, DoRegister(s, h));
  }

  lemma StoreStepGrows(s: State, h: Host)
    requires CanStore(s, h)
    ensures Grown(s, DoStore(s, h))
  {
    if StorePacket(EndpointOf(s, h).rcv).Some? {
      StoreGrows(EndpointOf(s, h).rcv);
    }
    FromParts(s, DoStore(s, h));
  }

  lemma CheckGrows(s: State, h: Host)
    requires CanCheck(s, h)
    ensures Grown(s, DoCheck(s, h))
  {
    FromParts(s, DoCheck(s, h));
  }

  lemma TickGrows(handler: Bytes -> Bytes, req: Bytes, s: State, h: Host, i: nat)
    requires DataInv(handler, req, s) && CanTick(s, h, i)
    ensures Grown(s, DoTick(s, h, i))
  {
    TimersGrow(if h == Client then req else handler(req), EndpointOf(s, h).snd, i);
    FromParts(s, DoTick(s, h, i));
  }

  lemma RetransmitGrows(s: State, h: Host, i: nat)
    requires CanRetransmit(s, h, i)
    ensures Grown(s, DoRetransmit(s, h, i))
  {
    FromParts(s, DoRetransmit(s, h, i));
  }

  lemma RearmGrows(handler: Bytes -> Bytes, req: Bytes, s: State, h: Host)
    requires DataInv(handler, req, s) && CanRearm(s, h)
    ensures Grown(s, DoRearm(s, h))
  {
    if h == Client || !s.serverMain.Ended? {
      TimersGrow(if h == Client then req else handler(req), EndpointOf(s, h).snd, 0);
    }
    FromParts(s, DoRearm(s, h));
  }

  /** Receiving acknowledges one slot, or accepts one packet, or leaves both halves alone. */
  lemma ClientReceiveFrame(s: State, d: Datagram)
    requires d.dst == Client
    ensures var t := ClientReceive(s, d);
            && t.clientMain == s.clientMain && t.serverMain == s.serverMain && t.handled == s.handled
            && t.server == s.server && t.retired == s.retired
            && (t.client.snd == s.client.snd
                || (d.packet.seqNum in s.client.snd.window && t.client.snd == AckSlot(s.client.snd, d.packet.seqNum)))
            && (t.client.rcv == s.client.rcv || t.client.rcv == Accept(s.client.rcv, d.packet))
  {
  }

  lemma ServerReceiveFrame(s: State, d: Datagram)
    requires d.dst == Server
    ensures var t := ServerReceive(s, d);
            && t.clientMain == s.clientMain && t.serverMain == s.serverMain && t.handled == s.handled
            && t.client == s.client && t.retired == s.retired
            && (t.server.snd == s.server.snd
                || (d.packet.seqNum in s.server.snd.window && t.server.snd == AckSlot(s.server.snd, d.packet.seqNum)))
            && (t.server.rcv == s.server.rcv || t.server.rcv == Accept(s.server.rcv, d.packet))
  {
    if d.packet.kind == ACK {
      assert ServerReceive(s, d).server.rcv == s.server.rcv;
    } else if Storable(d.packet) {
      assert ServerReceive(s, d) == AckAndHold(s, d);
    } else {
      assert ServerReceive(s, d).server == s.server;
    }
  }

  lemma ReceiveGrows(handler: Bytes -> Bytes, req: Bytes, s: State, d: Datagram)
    requires DataInv(handler, req, s) && CanReceive(s, d)
    ensures Grown(s, DoReceive(s, d))
  {
    var t := DoReceive(s, d);
    if d.dst == Client {
      ClientReceiveFrame(Take(s, d), d);
      TimersGrow(req, s.client.snd, d.packet.seqNum);
    } else {
      ServerReceiveFrame(Take(s, d), d);
      TimersGrow(handler(req), s.server.snd, d.packet.seqNum);
    }
    FromParts(s, t);
  }

  lemma ClientMainGrows(handler: Bytes -> Bytes, req: Bytes, s: State)
    requires DataInv(handler, req, s)
    ensures CanSendSyn(s) ==> Grown(s, DoSendSyn(s))
    ensures s.clientMain.AwaitingSynAck? ==> Grown(s, s.(clientMain := Dialing))
    ensures CanTakeSynAck(s) ==> Grown(s, DoTakeSynAck(req, s))
    ensures CanTakeResponse(s) ==> Grown(s, DoTakeResponse(s))
  {
    if CanSendSyn(s) {
      FromParts(s, DoSendSyn(s));
    }
    if s.clientMain.AwaitingSynAck? {
      FromParts(s, s.(clientMain := Dialing));
    }
    if CanTakeSynAck(s) {
      FromParts(s, DoTakeSynAck(req, s));
    }
    if CanTakeResponse(s) {
      FromParts(s, DoTakeResponse(s));
    }
  }

  lemma ServerHandshakeGrows(s: State)
    ensures CanTakeSyn(s) ==> Grown(s, DoTakeSyn(s))
    ensures CanSendSynAck(s) ==> Grown(s, DoSendSynAck(s))
    ensures s.serverMain.AwaitingAck? ==> Grown(s, s.(serverMain := Replying))
    ensures CanTakeAck(s) ==> Grown(s, DoTakeAck(s))
  {
    if CanTakeSyn(s) {
      FromParts(s, DoTakeSyn(s));
    }
    if CanSendSynAck(s) {
      FromParts(s, DoSendSynAck(s));
    }
    if s.serverMain.AwaitingAck? {
      FromParts(s, s.(serverMain := Replying));
    }
    if CanTakeAck(s) {
      FromParts(s, DoTakeAck(s));
    }
  }

  lemma TakeRequestGrows(handler: Bytes -> Bytes, req: Bytes, s: State)
    requires DataInv(handler, req, s) && CanTakeRequest(s)
    ensures Grown(s, DoTakeRequest(handler, s))
  {
    FromParts(s, DoTakeRequest(handler, s));
  }

  lemma BlockingGrows(s: State)
    ensures CanStartBlocking(s) ==> Grown(s, s.(serverMain := Blocking(0, false)))
    ensures CanReadAck(s) ==> Grown(s, DoReadAck(s))
    ensures CanReset(s) ==> Grown(s, DoReset(s))
  {
    if CanStartBlocking(s) {
      FromParts(s, s.(serverMain := Blocking(0, false)));
    }
    if CanReadAck(s) {
      FromParts(s, DoReadAck(s));
    }
    if CanReset(s) {
      FromParts(s, DoReset(s));
    }
  }

  lemma StepGrows(handler: Bytes -> Bytes, req: Bytes, s: State, a: Action)
    requires DataInv(handler, req, s) && Enabled(s, a)
    ensures Grown(s, Next(handler, req, s, a))
  {
    match a
    case Write(h) => WriteGrows(s, h);
    case Register(h) => RegisterStepGrows(handler, req, s, h);
    case Tick(h, i) => TickGrows(handler, req, s, h, i);
    case Retransmit(h, i) => RetransmitGrows(s, h, i);
    case RearmTimer(h) => RearmGrows(handler, req, s, h);
    case Receive(d) => ReceiveGrows(handler, req, s, d);
    case Store(h) => StoreStepGrows(s, h);
    case Check(h) => CheckGrows(s, h);
    case SendSyn => ClientMainGrows(handler, req, s);
    case SynTimeout => ClientMainGrows(handler, req, s);
    case TakeSynAck => ClientMainGrows(handler, req, s);
    case TakeResponse => ClientMainGrows(handler, req, s);
    case TakeSyn => ServerHandshakeGrows(s);
    case SendSynAck => ServerHandshakeGrows(s);
    case SynAckTimeout => ServerHandshakeGrows(s);
    case TakeAck => ServerHandshakeGrows(s);
    case TakeRequest => TakeRequestGrows(handler, req, s);
    case StartBlocking => BlockingGrows(s);
    case ReadAck => BlockingGrows(s);
    case Reset => BlockingGrows(s);
    case Drop(d) =>
  }

  lemma GrownTransitive(s: State, t: State, u: State)
    requires Grown(s, t) && Grown(t, u)
    ensures Grown(s, u)
  {
  }

  /** Over any run from a state of a session, whatever was stored, acknowledged or completed stays so. */
  lemma RunsGrow(handler: Bytes -> Bytes, req: Bytes, s: State, t: State)
    requires DataInv(handler, req, s) && Reaches(handler, req, s, t)
    ensures Grown(s, t)
  {
    var step, inv := Stepper(handler, req), (u: State) => DataInv(handler, req, u) && Grown(s, u);
    forall u: State, a: Action | inv(u) && step(u, a).Some?
      ensures inv(step(u, a).value)
    {
      DataPreservation.DataInvKept(handler, req, u, a);
      StepGrows(handler, req, u, a);
      GrownTransitive(s, u, step(u, a).value);
    }
    var acts :| Run(step, s, acts, t);
    Induction(step, inv, s, acts, t);
  }
}

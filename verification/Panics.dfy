/** When a program can panic or a goroutine can block for good: the exact conditions. */
module Panics {
  import opened Packets
  import opened Chunking
  import opened Endpoints
  import opened Runs
  import opened Protocol
  import opened DataInvariant
  import opened ControlInvariant
  import opened Reachability

  predicate Dies(handler: Bytes -> Bytes, req: Bytes, s: State, a: Action, h: Host)
    requires Enabled(s, a)
  {
    EndpointOf(s, h).alive && !EndpointOf(Next(handler, req, s, a), h).alive
  }

  /** The client receives the acknowledgement of the packet that sendPacket has written to its socket
      and not yet entered in the window. */
  predicate EarlyAck(s: State, a: Action) {
    && a.Receive? && a.d.dst == Client && a.d.packet.kind == ACK
    && s.client.snd.loop.Written? && a.d.packet.seqNum == s.client.snd.seqNum
  }

  /** A number beyond the last window slot is registered, saved or acknowledged. */
  predicate Overflows(s: State, a: Action, h: Host) {
    || (a == Register(h) && EndpointOf(s, h).snd.seqNum >= WINDOW_SIZE)
    || (a == Store(h) && EndpointOf(s, h).rcv.storing.Some? && EndpointOf(s, h).rcv.storing.value.seqNum >= WINDOW_SIZE)
    || (a.Receive? && a.d.dst == h && a.d.packet.kind == ACK && a.d.packet.seqNum >= WINDOW_SIZE)
  }

  /** Receiving kills only its own program, and only in the ACK branch. */
  lemma ReceiveDies(s: State, d: Datagram, h: Host)
    requires CanReceive(s, d) && (h != d.dst || d.packet.kind != ACK)
    ensures EndpointOf(DoReceive(s, d), h).alive == EndpointOf(s, h).alive
  {
  }

  /** A received acknowledgement kills the client when its slot is nil, the server when it is outside the window. */
  lemma AckDies(s: State, d: Datagram)
    requires CanReceive(s, d) && d.packet.kind == ACK
    ensures d.dst == Client ==> (DoReceive(s, d).client.alive <==> d.packet.seqNum in s.client.snd.window)
    ensures d.dst == Server ==> (DoReceive(s, d).server.alive <==> d.packet.seqNum < WINDOW_SIZE)
  {
  }

  /** Writing, checking and the timers kill nobody but for a rearm whose slot is gone. */
  lemma TimersDie(handler: Bytes -> Bytes, req: Bytes, s: State, a: Action, h: Host)
    requires Enabled(s, a) && EndpointOf(s, h).alive
    requires a.Write? || a.Check? || a.Tick? || a.Retransmit? || a.RearmTimer?
    ensures Dies(handler, req, s, a, h)
            <==> a == RearmTimer(h) && EndpointOf(s, h).snd.resending.value !in EndpointOf(s, h).snd.window
  {
  }

  lemma HalvesDie(handler: Bytes -> Bytes, req: Bytes, s: State, a: Action, h: Host)
    requires Enabled(s, a) && EndpointOf(s, h).alive
    requires a.Write? || a.Register? || a.Store? || a.Check? || a.Tick? || a.Retransmit? || a.RearmTimer?
    ensures Dies(handler, req, s, a, h)
            <==> || (a == Register(h) && EndpointOf(s, h).snd.seqNum >= WINDOW_SIZE)
                 || (a == Store(h) && EndpointOf(s, h).rcv.storing.value.seqNum >= WINDOW_SIZE)
                 || (a == RearmTimer(h) && EndpointOf(s, h).snd.resending.value !in EndpointOf(s, h).snd.window)
  {
    if !a.Register? && !a.Store? {
      TimersDie(handler, req, s, a, h);
    }
  }

  lemma MainsDie(handler: Bytes -> Bytes, req: Bytes, s: State, a: Action, h: Host)
    requires DataInv(handler, req, s) && Enabled(s, a) && EndpointOf(s, h).alive && !a.Receive?
    requires !a.Write? && !a.Register? && !a.Store? && !a.Check? && !a.Tick? && !a.Retransmit? && !a.RearmTimer?
    ensures !Dies(handler, req, s, a, h)
  {
    GatherNeverPanics(handler, req, s);
  }

  /** getPackets never meets a nil slot. */
  lemma GatherNeverPanics(handler: Bytes -> Bytes, req: Bytes, s: State)
    requires DataInv(handler, req, s)
    ensures CanTakeRequest(s) ==> DoTakeRequest(handler, s).server.alive
    ensures CanTakeResponse(s) ==> DoTakeResponse(s).client.alive
  {
    if CanTakeRequest(s) {
      GatherGivesMessage(req, Hi(s.client.snd), s.server.rcv);
    }
    if CanTakeResponse(s) {
      GatherGivesMessage(handler(req), Hi(SessionServer(s).snd), s.client.rcv);
    }
  }

  /** An acknowledgement under way to the client names a slot it has registered, or the one packet
      it has written and not yet registered. */
  lemma AckHasSlot(handler: Bytes -> Bytes, req: Bytes, s: State, d: Datagram)
    requires Inv(handler, req, s) && d in s.net && d.dst == Client && d.packet.kind == ACK
    ensures d.packet.seqNum in s.client.snd.window
            <==> !(s.client.snd.loop.Written? && d.packet.seqNum == s.client.snd.seqNum)
  {
    assert ControlDatagramOk(s, d) && DatagramOk(handler, req, s, d);
    assert Holds(SessionServer(s).rcv, d.packet.seqNum);
    assert 1 <= d.packet.seqNum <= Hi(s.client.snd);
  }

  /** The client dies in exactly these cases: an acknowledgement that overtakes the registration of
      its packet (its ACK branch has no nil test), or a number beyond the window. */
  lemma ClientDiesExactly(handler: Bytes -> Bytes, req: Bytes, net: multiset<Datagram>, s: State, a: Action)
    requires OnlySyns(net) && Reachable(handler, req, net, s) && Enabled(s, a) && s.client.alive
    ensures Dies(handler, req, s, a, Client) <==> EarlyAck(s, a) || Overflows(s, a, Client)
  {
    InvReachable(handler, req, net, s);
    if a.Receive? {
      if a.d.dst == Client && a.d.packet.kind == ACK {
        AckDies(s, a.d);
        AckHasSlot(handler, req, s, a.d);
        assert a.d.packet.seqNum in s.client.snd.window ==> a.d.packet.seqNum < WINDOW_SIZE;
      } else {
        ReceiveDies(s, a.d, Client);
      }
    } else if a.Write? || a.Register? || a.Store? || a.Check? || a.Tick? || a.Retransmit? || a.RearmTimer? {
      HalvesDie(handler, req, s, a, Client);
    } else {
      MainsDie(handler, req, s, a, Client);
    }
  }

  /** The server tests for nil, so only numbers beyond the window, or a retransmission overtaken by
      its own reset, can kill it. */
  lemma ServerDiesExactly(handler: Bytes -> Bytes, req: Bytes, net: multiset<Datagram>, s: State, a: Action)
    requires OnlySyns(net) && Reachable(handler, req, net, s) && Enabled(s, a) && s.server.alive
    ensures Dies(handler, req, s, a, Server)
            <==> Overflows(s, a, Server) || (a == RearmTimer(Server) && s.serverMain.Ended?)
  {
    InvReachable(handler, req, net, s);
    if a.Receive? {
      if a.d.dst == Server && a.d.packet.kind == ACK {
        AckDies(s, a.d);
      } else {
        ReceiveDies(s, a.d, Server);
      }
    } else if a.Write? || a.Register? || a.Store? || a.Check? || a.Tick? || a.Retransmit? || a.RearmTimer? {
      HalvesDie(handler, req, s, a, Server);
    } else {
      MainsDie(handler, req, s, a, Server);
    }
  }

  /** Messages that fit their windows never overflow one. */
  lemma FittingNeverOverflows(handler: Bytes -> Bytes, req: Bytes, net: multiset<Datagram>, s: State, a: Action, h: Host)
    requires OnlySyns(net) && Reachable(handler, req, net, s) && Enabled(s, a)
    requires Fits(req) && Fits(handler(req))
    ensures !Overflows(s, a, h)
  {
    InvReachable(handler, req, net, s);
    if a.Receive? && a.d.packet.kind == ACK && a.d.packet.seqNum != 0 {
      assert ControlDatagramOk(s, a.d) && DatagramOk(handler, req, s, a.d);
    }
  }

  /** The retransmission goroutine never waits on an empty timer channel. */
  lemma RearmNeverBlocks(handler: Bytes -> Bytes, req: Bytes, net: multiset<Datagram>, s: State, h: Host)
    requires NoData(net) && Reachable(handler, req, net, s)
    requires var e := if h == Client then s.client else SessionServer(s); e.snd.resending.Some?
    ensures !RearmBlocks(if h == Client then s.client.snd else SessionServer(s).snd)
  {
    DataInvReachable(handler, req, net, s);
    RearmKeepsSender(if h == Client then req else handler(req), if h == Client then s.client.snd else SessionServer(s).snd);
  }

  /** checkForDeliver never waits at its send: deliveryMessage is empty while a checker runs. */
  lemma SignalNeverBlocks(handler: Bytes -> Bytes, req: Bytes, net: multiset<Datagram>, s: State, h: Host)
    requires NoData(net) && Reachable(handler, req, net, s) && CanCheck(s, h)
    ensures !EndpointOf(s, h).rcv.token
  {
    DataInvReachable(handler, req, net, s);
  }

  // ---- the early acknowledgement really happens

  const ACK0 := Datagram(Client, Server, Packet(ACK, 0, []))

  /** The handshake is done on the client's side and its answer to the SYNACK is under way. */
  function ClientConnected(req: Bytes): State {
    Initial(multiset{}).(
      client := FRESH_ENDPOINT.(snd := FRESH_SENDER.(seqNum := 1, loop := AtLoop(req, 0))),
      clientMain := Exchanging, serverMain := AwaitingAck, clientAddr := Some(Client), net := multiset{ACK0})
  }

  lemma SynReaches(handler: Bytes -> Bytes, req: Bytes) returns (t: State)
    ensures Reachable(handler, req, multiset{}, t)
    ensures t == Initial(multiset{}).(clientMain := AwaitingSynAck, synChannel := Some(Client))
  {
    var s := Initial(multiset{});
    var syn := Datagram(Client, Server, Packet(SYN, 0, []));
    var s1 := s.(clientMain := AwaitingSynAck, net := multiset{syn});
    Stay(handler, req, s);
    assert DoSendSyn(s) == s1;
    Extend(handler, req, s, s, SendSyn);
    t := s1.(synChannel := Some(Client), net := multiset{});
    assert DoReceive(s1, syn) == t;
    Extend(handler, req, s, s1, Receive(syn));
  }

  lemma SynAckReaches(handler: Bytes -> Bytes, req: Bytes) returns (t: State)
    ensures Reachable(handler, req, multiset{}, t)
    ensures t == Initial(multiset{}).(clientMain := AwaitingSynAck, serverMain := AwaitingAck, clientAddr := Some(Client),
                                      net := multiset{Datagram(Server, Client, Packet(SYNACK, 0, []))})
  {
    var s := SynReaches(handler, req);
    var s1 := s.(synChannel := None, serverMain := Replying, clientAddr := Some(Client));
    assert DoTakeSyn(s) == s1;
    Extend(handler, req, Initial(multiset{}), s, TakeSyn);
    t := s1.(serverMain := AwaitingAck, net := multiset{Datagram(Server, Client, Packet(SYNACK, 0, []))});
    assert DoSendSynAck(s1) == t;
    Extend(handler, req, Initial(multiset{}), s1, SendSynAck);
  }

  lemma ClientConnectedReachable(handler: Bytes -> Bytes, req: Bytes)
    ensures Reachable(handler, req, multiset{}, ClientConnected(req))
  {
    var s := SynAckReaches(handler, req);
    var synAck := Datagram(Server, Client, Packet(SYNACK, 0, []));
    var s1 := s.(synAckChannel := true, net := multiset{ACK0});
    assert DoReceive(s, synAck) == s1;
    Extend(handler, req, Initial(multiset{}), s, Receive(synAck));
    assert DoTakeSynAck(req, s1) == ClientConnected(req);
    Extend(handler, req, Initial(multiset{}), s1, TakeSynAck);
  }

  /** The first packet is written, and accepted by the server, before the client registers it. */
  lemma FirstPacketAccepted(handler: Bytes -> Bytes, req: Bytes) returns (s: State)
    ensures Reachable(handler, req, multiset{}, s)
    ensures s.client == FRESH_ENDPOINT.(snd := WritePacket(FRESH_SENDER.(seqNum := 1, loop := AtLoop(req, 0))))
    ensures Datagram(Server, Client, Packet(ACK, 1, [])) in s.net
  {
    var e := ClientConnected(req);
    ClientConnectedReachable(handler, req);
    var snd := WritePacket(e.client.snd);
    var d := Datagram(Client, Server, snd.loop.packet);
    var s1 := e.(client := e.client.(snd := snd), net := multiset{ACK0, d});
    assert DoWrite(e, Client) == s1;
    Extend(handler, req, Initial(multiset{}), e, Write(Client));
    s := DoReceive(s1, d);
    Extend(handler, req, Initial(multiset{}), s1, Receive(d));
  }

  /** The race is real for every request: the first acknowledgement can kill the client. */
  lemma EarlyAckReachable(handler: Bytes -> Bytes, req: Bytes) returns (s: State, a: Action)
    ensures Reachable(handler, req, multiset{}, s) && Enabled(s, a)
    ensures EarlyAck(s, a) && Dies(handler, req, s, a, Client)
  {
    s := FirstPacketAccepted(handler, req);
    a := Receive(Datagram(Server, Client, Packet(ACK, 1, [])));
    assert s.client.snd.loop.Written? && s.client.snd.seqNum == 1;
  }
}

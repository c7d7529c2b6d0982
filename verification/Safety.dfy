/** What a session guarantees over every run, whatever the router drops, delays and reorders. */
module Safety {
  import opened Packets
  import opened Chunking
  import opened Endpoints
  import opened Runs
  import opened Protocol
  import opened DataInvariant
  import opened ControlInvariant
  import opened Reachability
  import Monotone

  // ---- refinement of an ideal exchange

  /** The exchange a user sees: the requests handled and the response returned. */
  datatype Ideal = Ideal(handled: seq<Bytes>, returned: Option<Bytes>)

  predicate IdealStep(handler: Bytes -> Bytes, req: Bytes, x: Ideal, y: Ideal) {
    || (x == Ideal([], None) && y == Ideal([req], None))
    || (x == Ideal([req], None) && y == Ideal([req], Some(handler(req))))
  }

  function Abstract(s: State): Ideal {
    Ideal(s.handled, if s.clientMain.Got? then Some(s.clientMain.response) else None)
  }

  /** Only the two hand-overs to the programs' callers can be seen. */
  lemma HalvesInvisible(handler: Bytes -> Bytes, req: Bytes, s: State, a: Action)
    requires Enabled(s, a)
    requires a.Write? || a.Register? || a.Store? || a.Check? || a.Tick? || a.Retransmit? || a.RearmTimer?
    ensures Abstract(Next(handler, req, s, a)) == Abstract(s)
  {
  }

  lemma DatagramsInvisible(handler: Bytes -> Bytes, req: Bytes, s: State, a: Action)
    requires Enabled(s, a) && (a.Receive? || a.Drop?)
    ensures Abstract(Next(handler, req, s, a)) == Abstract(s)
  {
    if a.Receive? {
      if a.d.dst == Client {
        Monotone.ClientReceiveFrame(Take(s, a.d), a.d);
      } else {
        Monotone.ServerReceiveFrame(Take(s, a.d), a.d);
      }
    }
  }

  lemma MainsInvisible(handler: Bytes -> Bytes, req: Bytes, s: State, a: Action)
    requires Enabled(s, a) && !a.TakeRequest? && !a.TakeResponse? && !a.Receive? && !a.Drop?
    requires !a.Write? && !a.Register? && !a.Store? && !a.Check? && !a.Tick? && !a.Retransmit? && !a.RearmTimer?
    ensures Abstract(Next(handler, req, s, a)) == Abstract(s)
  {
  }

  /** Every action of every run does nothing the user can see, or is the next step of the ideal
      exchange: handleRequest is called once, on the client's own bytes, and only then does the
      client return, with exactly the bytes the server answered. */
  lemma RefinesIdealExchange(handler: Bytes -> Bytes, req: Bytes, net: multiset<Datagram>, s: State, a: Action)
    requires NoData(net) && Reachable(handler, req, net, s) && Enabled(s, a)
    ensures var t := Next(handler, req, s, a);
            Abstract(t) == Abstract(s) || IdealStep(handler, req, Abstract(s), Abstract(t))
  {
    DataInvReachable(handler, req, net, s);
    if a.TakeRequest? {
      GatherGivesMessage(req, Hi(s.client.snd), s.server.rcv);
      assert Abstract(DoTakeRequest(handler, s)).handled == [req];
      assert Abstract(s) == Ideal([], None) by { EndToEndIntegrity(handler, req, net, s); }
    } else if a.TakeResponse? {
      GatherGivesMessage(handler(req), Hi(SessionServer(s).snd), s.client.rcv);
      assert 1 in s.client.rcv.window;
      assert s.handled == [req];
      assert Abstract(DoTakeResponse(s)) == Ideal([req], Some(handler(req)));
    } else {
      if a.Receive? || a.Drop? {
        DatagramsInvisible(handler, req, s, a);
      } else if a.Write? || a.Register? || a.Store? || a.Check? || a.Tick? || a.Retransmit? || a.RearmTimer? {
        HalvesInvisible(handler, req, s, a);
      } else {
        MainsInvisible(handler, req, s, a);
      }
    }
  }

  /** Both directions deliver the bytes sent, in every reachable state. */
  lemma EndToEndIntegrity(handler: Bytes -> Bytes, req: Bytes, net: multiset<Datagram>, s: State)
    requires NoData(net) && Reachable(handler, req, net, s)
    ensures s.handled == [] || s.handled == [req]
    ensures s.clientMain.Got? ==> s.handled == [req] && s.clientMain.response == handler(req)
  {
    DataInvReachable(handler, req, net, s);
    if s.clientMain.Got? {
      assert 1 in s.client.rcv.window;
    }
  }

  // ---- slot agreement

  /** The packet the sender wrote to its socket under number i, if any. */
  function WrittenAt(snd: Sender, i: nat): Option<Packet> {
    if i in snd.window then Some(snd.window[i].packet)
    else if snd.loop.Written? && snd.seqNum == i then Some(snd.loop.packet)
    else None
  }

  /** Every packet the receiver keeps, or is about to keep, is the one its peer wrote under that number. */
  ghost predicate Agree(snd: Sender, rcv: Receiver) {
    && (forall i :: i in rcv.window ==> WrittenAt(snd, i) == Some(rcv.window[i]))
    && (rcv.storing.Some? ==> WrittenAt(snd, rcv.storing.value.seqNum) == rcv.storing)
  }

  lemma SlotAgreement(handler: Bytes -> Bytes, req: Bytes, net: multiset<Datagram>, s: State)
    requires NoData(net) && Reachable(handler, req, net, s)
    ensures Agree(s.client.snd, SessionServer(s).rcv) && Agree(SessionServer(s).snd, s.client.rcv)
  {
    DataInvReachable(handler, req, net, s);
  }

  /** One stray data packet is accepted at once, though nobody wrote it in this session. */
  lemma StrayDataAccepted(handler: Bytes -> Bytes, req: Bytes, net: multiset<Datagram>, d: Datagram) returns (t: State)
    requires d in net && Storable(d.packet)
    ensures Reachable(handler, req, net, t)
    ensures t.client.snd == FRESH_SENDER && t.server.snd == FRESH_SENDER && !t.serverMain.Ended?
    ensures EndpointOf(t, d.dst).rcv.storing == Some(d.packet)
  {
    var s := Initial(net);
    assert CanReceive(s, d);
    t := DoReceive(s, d);
    LeadsStep(Stepper(handler, req), s, Receive(d));
  }

  /** The exact boundary condition. With datagrams of an earlier session still under way, slots
      agree in every run if and only if none of those datagrams carries data; stray SYN, SYNACK
      and ACK packets never put wrong bytes in a window. */
  lemma StrayDataExact(handler: Bytes -> Bytes, req: Bytes, net: multiset<Datagram>)
    requires forall d :: d in net ==> d.src != d.dst
    ensures (forall s :: Reachable(handler, req, net, s) ==>
                           Agree(s.client.snd, SessionServer(s).rcv) && Agree(SessionServer(s).snd, s.client.rcv))
            <==> NoData(net)
  {
    if NoData(net) {
      forall s | Reachable(handler, req, net, s)
        ensures Agree(s.client.snd, SessionServer(s).rcv) && Agree(SessionServer(s).snd, s.client.rcv)
      {
        SlotAgreement(handler, req, net, s);
      }
    } else {
      var d :| d in net && Storable(d.packet);
      var t := StrayDataAccepted(handler, req, net, d);
      assert WrittenAt(FRESH_SENDER, d.packet.seqNum) == None;
    }
  }

  // ---- acknowledgements, scans and reset

  /** An acknowledged slot's packet is in the peer's window, or its receive goroutine is about to
      put it there. */
  lemma AckMeansReceipt(handler: Bytes -> Bytes, req: Bytes, net: multiset<Datagram>, s: State, i: nat)
    requires OnlySyns(net) && Reachable(handler, req, net, s)
    ensures var snd, rcv := s.client.snd, SessionServer(s).rcv;
            i in snd.window && snd.window[i].acked ==>
              (i in rcv.window && rcv.window[i] == snd.window[i].packet) || rcv.storing == Some(snd.window[i].packet)
    ensures var snd, rcv := SessionServer(s).snd, s.client.rcv;
            i in snd.window && snd.window[i].acked ==>
              (i in rcv.window && rcv.window[i] == snd.window[i].packet) || rcv.storing == Some(snd.window[i].packet)
  {
    InvReachable(handler, req, net, s);
  }

  /** checkForDeliver and the blocking loop read one slot per step while the receive goroutine
      writes. A positive verdict still speaks of all slots together, now and from then on. */
  lemma ScansAreSound(handler: Bytes -> Bytes, req: Bytes, net: multiset<Datagram>, s: State)
    requires OnlySyns(net) && Reachable(handler, req, net, s)
    ensures SessionServer(s).rcv.checker.Returned? ==> Gather(SessionServer(s).rcv.window, 1) == Some(req)
    ensures s.client.rcv.checker.Returned? ==> Gather(s.client.rcv.window, 1) == Some(handler(req))
    ensures s.serverMain.Closing? || s.serverMain.Ended? ==> AllAcked(SessionServer(s).snd)
  {
    InvReachable(handler, req, net, s);
    if SessionServer(s).rcv.checker.Returned? {
      GatherGivesMessage(req, Hi(s.client.snd), SessionServer(s).rcv);
    }
    if s.client.rcv.checker.Returned? {
      GatherGivesMessage(handler(req), Hi(SessionServer(s).snd), s.client.rcv);
    }
  }

  /** A sender that has written all of m and whose every slot is acknowledged has a peer that
      holds all of m. */
  lemma AllAckedAllHeld(m: Bytes, snd: Sender, rcv: Receiver)
    requires SenderOk(m, snd) && snd.loop.AllSent? && AllAcked(snd) && AckedOk(snd, rcv)
    requires ReceiverOk(m, Hi(snd), rcv)
    ensures forall i :: 1 <= i <= DeliverSeq(m) ==> Holds(rcv, i)
    ensures rcv.storing.None? ==> Gather(rcv.window, 1) == Some(m)
  {
    forall i | 1 <= i <= DeliverSeq(m)
      ensures Holds(rcv, i)
    {
      assert i in snd.window;
    }
    if rcv.storing.None? {
      assert Holds(rcv, DeliverSeq(m));
      assert forall j :: 1 <= j <= DeliverSeq(m) ==> Holds(rcv, j) && j in rcv.window;
      GatherFull(m, rcv.window, 1);
      ChunksPartition(m);
    }
  }

  /** When the server has left its blocking loop, disconnected or already reset, the client holds
      every packet of the response; once its receive goroutine has finished its save, the window
      alone gives the response. */
  lemma ResetLosesNothing(handler: Bytes -> Bytes, req: Bytes, net: multiset<Datagram>, s: State)
    requires OnlySyns(net) && Reachable(handler, req, net, s)
    requires s.serverMain.Closing? || s.serverMain.Ended?
    ensures forall i :: 1 <= i <= DeliverSeq(handler(req)) ==> Holds(s.client.rcv, i)
    ensures s.client.rcv.storing.None? ==> Gather(s.client.rcv.window, 1) == Some(handler(req))
  {
    InvReachable(handler, req, net, s);
    AllAckedAllHeld(handler(req), SessionServer(s).snd, s.client.rcv);
  }

  // ---- handshake

  /** Each side of the connection has its cause, and no data packet carries number 0, so only the
      answer to a SYNACK can complete the server's handshake. */
  lemma HandshakeSafety(handler: Bytes -> Bytes, req: Bytes, net: multiset<Datagram>, s: State)
    requires OnlySyns(net) && Reachable(handler, req, net, s)
    ensures s.connected ==> s.client.snd.seqNum >= 1 || s.synAckChannel
    ensures s.client.snd.seqNum >= 1 ==> TookSyn(s)
    ensures forall d :: d in s.net && Storable(d.packet) ==> d.packet.seqNum != 0
    ensures forall d :: d in s.net && d.packet.kind == ACK && d.packet.seqNum == 0 ==>
                          d.src == Client && d.dst == Server && (s.client.snd.seqNum >= 1 || s.synAckChannel)
  {
    InvReachable(handler, req, net, s);
    forall d | d in s.net
      ensures DatagramOk(handler, req, s, d) && ControlDatagramOk(s, d)
    {
    }
  }

  /** Once connected, no packet fills the server's handshake channels, and only a connected server
      retransmits. */
  lemma ConnectedServer(s: State, d: Datagram, i: nat)
    ensures CanReceive(s, d) && s.connected ==>
              DoReceive(s, d).synChannel == s.synChannel && DoReceive(s, d).ackChannel == s.ackChannel
    ensures CanRetransmit(s, Server, i) ==> s.connected
  {
  }

  /** A server that has disconnected writes and retransmits nothing more. */
  lemma DisconnectedServerSilent(handler: Bytes -> Bytes, req: Bytes, net: multiset<Datagram>, s: State, i: nat)
    requires NoData(net) && Reachable(handler, req, net, s) && (s.serverMain.Closing? || s.serverMain.Ended?)
    ensures !CanWrite(s, Server) && !CanRetransmit(s, Server, i)
  {
    DataInvReachable(handler, req, net, s);
  }

  /** A packet of a type its receiver does not know is taken and changes nothing. */
  lemma UnknownIgnored(s: State, d: Datagram)
    requires CanReceive(s, d) && !Storable(d.packet) && d.packet.kind != ACK
    requires d.packet.kind != (if d.dst == Client then SYNACK else SYN)
    ensures DoReceive(s, d) == Take(s, d)
  {
  }

  /** The server's reset starts the only live checker: the one it replaces has returned and its
      one token has been taken. */
  lemma ResetStartsOnlyChecker(handler: Bytes -> Bytes, req: Bytes, net: multiset<Datagram>, s: State)
    requires NoData(net) && Reachable(handler, req, net, s) && CanReset(s)
    ensures s.server.rcv.checker.Returned? && !s.server.rcv.token
    ensures DoReset(s).server.rcv.checker == Scanning(0)
  {
    DataInvReachable(handler, req, net, s);
  }
}

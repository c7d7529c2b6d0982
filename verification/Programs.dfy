/** The receive goroutines of the two programs and the server's reset, on objects updated in place.
    Every method is tied to the actions of module Protocol through the state it represents. */
module Programs {
  import opened Packets
  import opened Chunking
  import opened Endpoints
  import opened Runs
  import opened Protocol
  import opened Windows

  /** One whole turn of a receive goroutine: the datagram's branch, then the save if there is one. */
  function AfterReceive(s: State, d: Datagram): State {
    var t := if d.dst == Client then ClientReceive(s, d) else ServerReceive(s, d);
    if CanStore(t, d.dst) then DoStore(t, d.dst) else t
  }

  /** What one turn of the client's receive goroutine comes to, branch by branch. */
  lemma ClientTurn(s: State, d: Datagram)
    requires s.client.alive && s.client.rcv.storing.None? && d.dst == Client
    ensures var p, t := d.packet, AfterReceive(s, d);
            if p.kind == SYNACK then
              t == s.(synAckChannel := true, net := s.net + multiset{Datagram(Client, Server, Packet(ACK, p.seqNum, []))})
            else if p.kind == ACK then
              if p.seqNum !in s.client.snd.window then t == Panic(s, Client)
              else t == s.(client := s.client.(snd := s.client.snd.(window := Acknowledged(s.client.snd.window, p.seqNum))))
            else if Storable(p) then
              && t.net == s.net + multiset{Datagram(Client, d.src, Packet(ACK, p.seqNum, []))}
              && (t.client.alive <==> p.seqNum < WINDOW_SIZE)
              && (t.client.alive ==>
                    && t.client == s.client.(rcv := s.client.rcv.(window := Stored(s.client.rcv.window, p)))
                    && t.synAckChannel == s.synAckChannel)
            else t == s
  {
  }

  /** The server's handshake and acknowledgement branches. */
  lemma ServerControlTurn(s: State, d: Datagram)
    requires Running(s, Server) && s.server.rcv.storing.None? && d.dst == Server && !Storable(d.packet)
    ensures var p, t := d.packet, AfterReceive(s, d);
            if p.kind == SYN then
              t == s.(synChannel := if !s.connected && s.synChannel.None? then Some(d.src) else s.synChannel)
            else if p.kind == ACK && p.seqNum == 0 then
              t == s.(ackChannel := s.ackChannel || !s.connected)
            else if p.kind == ACK then
              if p.seqNum >= WINDOW_SIZE then t == Panic(s, Server)
              else if p.seqNum !in s.server.snd.window then t == s
              else t == s.(server := s.server.(snd := s.server.snd.(window := Acknowledged(s.server.snd.window, p.seqNum))))
            else t == s
  {
  }

  /** Its data branch, save included. */
  lemma ServerDataTurn(s: State, d: Datagram)
    requires Running(s, Server) && s.server.rcv.storing.None? && d.dst == Server && Storable(d.packet)
    ensures var p, t := d.packet, AfterReceive(s, d);
            && t.net == s.net + multiset{Datagram(Server, d.src, Packet(ACK, p.seqNum, []))}
            && (t.server.alive <==> p.seqNum < WINDOW_SIZE)
            && (t.server.alive ==>
                  t == s.(net := t.net, server := s.server.(rcv := s.server.rcv.(window := Stored(s.server.rcv.window, p)))))
  {
    var t := ServerReceive(s, d);
    assert t == AckAndHold(s, d) && CanStore(t, Server);
    assert AfterReceive(s, d) == DoStore(t, Server);
  }

  // ---- the blocking loop

  /** Some slot below n is registered and unacknowledged: what Peer.Blocked looks for. */
  predicate Unacknowledged(slots: map<nat, Slot>, n: nat) {
    exists i :: 0 <= i < n && i in slots && !slots[i].acked
  }

  /** The server's main goroutine after n reads of a round nothing else interferes with. */
  function Reads(s: State, n: nat): State {
    if n == 0 then s
    else
      var t := Reads(s, n - 1);
      if CanReadAck(t) then DoReadAck(t) else t
  }

  lemma {:induction false} ReadsSoFar(s: State, n: nat)
    requires s.server.alive && s.serverMain == Blocking(0, false) && n <= s.server.snd.seqNum
    ensures Reads(s, n) == s.(serverMain := Blocking(n, Unacknowledged(s.server.snd.window, n)))
  {
    if n > 0 {
      ReadsSoFar(s, n - 1);
    }
  }

  /** A whole round disconnects exactly when no slot is unacknowledged, and starts over otherwise. */
  lemma RoundIsReads(s: State)
    requires s.server.alive && s.serverMain == Blocking(0, false)
    ensures Reads(s, s.server.snd.seqNum + 1)
            == if Unacknowledged(s.server.snd.window, s.server.snd.seqNum) then s
               else s.(serverMain := Closing, connected := false)
  {
    ReadsSoFar(s, s.server.snd.seqNum);
  }

  // ---- the retransmission loop

  /** One pass of h's retransmission goroutine over the slots below n, nothing else interfering. */
  function Pass(s: State, h: Host, n: nat): State {
    if n == 0 then s
    else
      var t := Pass(s, h, n - 1);
      if !CanRetransmit(t, h, n - 1) then t
      else
        var u := DoRetransmit(t, h, n - 1);
        if CanRearm(u, h) then DoRearm(u, h) else u
  }

  /** These packets on their way from h to its peer. */
  function UnderWay(h: Host, peer: Host, packets: seq<Packet>): multiset<Datagram> {
    if packets == [] then multiset{}
    else UnderWay(h, peer, packets[..|packets| - 1]) + multiset{Datagram(h, peer, packets[|packets| - 1])}
  }

  lemma UnderWayAppend(h: Host, peer: Host, packets: seq<Packet>, p: Packet)
    ensures UnderWay(h, peer, packets + [p]) == UnderWay(h, peer, packets) + multiset{Datagram(h, peer, p)}
  {
    assert (packets + [p])[..|packets|] == packets;
  }

  /** The resend and the rearm of one slot that is due. */
  lemma ResendAndRearm(s: State, h: Host, i: nat)
    requires CanRetransmit(s, h, i)
    ensures CanRearm(DoRetransmit(s, h, i), h)
    ensures var snd := EndpointOf(s, h).snd;
            DoRearm(DoRetransmit(s, h, i), h)
            == Sending(s, h, snd.(window := snd.window[i := snd.window[i].(timer := Armed)]),
                       multiset{Datagram(h, PeerOf(s, h).value, snd.window[i].packet)})
  {
  }

  /** s with another sending half for h and more datagrams under way. */
  function Sending(s: State, h: Host, snd: Sender, more: multiset<Datagram>): State {
    WithSender(s, h, snd).(net := s.net + more)
  }

  lemma SendingTwice(s: State, h: Host, x: Sender, more: multiset<Datagram>, y: Sender, extra: multiset<Datagram>)
    ensures EndpointOf(Sending(s, h, x, more), h).snd == x && PeerOf(Sending(s, h, x, more), h) == PeerOf(s, h)
    ensures Running(Sending(s, h, x, more), h) == Running(s, h) && Sending(s, h, x, more).connected == s.connected
    ensures Sending(Sending(s, h, x, more), h, y, extra) == Sending(s, h, y, more + extra)
  {
    assert s.net + more + extra == s.net + (more + extra);
  }

  predicate MayResend(s: State, h: Host) {
    Running(s, h) && PeerOf(s, h).Some? && (h == Server ==> s.connected)
  }

  /** The pass comes to slot n - 1. */
  lemma RearmedNext(snd: Sender, n: nat)
    requires 1 <= n <= snd.seqNum && snd.resending.None?
    ensures var t := snd.(window := Rearmed(snd.window, n - 1));
            && (CanResend(t, n - 1) <==> Due(snd.window, n - 1))
            && (Due(snd.window, n - 1) ==>
                  && t.window[n - 1] == snd.window[n - 1]
                  && t.(window := t.window[n - 1 := t.window[n - 1].(timer := Armed)])
                     == snd.(window := Rearmed(snd.window, n)))
            && (!Due(snd.window, n - 1) ==> Rearmed(snd.window, n) == t.window)
  {
    var t := snd.(window := Rearmed(snd.window, n - 1));
    if Due(snd.window, n - 1) {
      assert Rearmed(snd.window, n) == t.window[n - 1 := t.window[n - 1].(timer := Armed)];
    }
  }

  /** h's half after a pass over the slots below n, and what the pass has put under way. */
  function AfterPass(s: State, h: Host, n: nat): State
    requires PeerOf(s, h).Some?
  {
    var snd := EndpointOf(s, h).snd;
    Sending(s, h, snd.(window := Rearmed(snd.window, n)),
            UnderWay(h, PeerOf(s, h).value, DuePackets(snd.window, n)))
  }

  lemma AfterPassNext(s: State, h: Host, n: nat)
    requires MayResend(s, h) && EndpointOf(s, h).snd.resending.None? && 1 <= n <= EndpointOf(s, h).snd.seqNum
    ensures var snd, t := EndpointOf(s, h).snd, AfterPass(s, h, n - 1);
            && (CanRetransmit(t, h, n - 1) <==> Due(snd.window, n - 1))
            && (CanRetransmit(t, h, n - 1) ==>
                  CanRearm(DoRetransmit(t, h, n - 1), h)
                  && DoRearm(DoRetransmit(t, h, n - 1), h) == AfterPass(s, h, n))
            && (!CanRetransmit(t, h, n - 1) ==> t == AfterPass(s, h, n))
  {
    var snd, peer, t := EndpointOf(s, h).snd, PeerOf(s, h).value, AfterPass(s, h, n - 1);
    var x, y := snd.(window := Rearmed(snd.window, n - 1)), snd.(window := Rearmed(snd.window, n));
    var more := UnderWay(h, peer, DuePackets(snd.window, n - 1));
    RearmedNext(snd, n);
    SendingTwice(s, h, x, more, y, multiset{});
    if Due(snd.window, n - 1) {
      var p := snd.window[n - 1].packet;
      SendingTwice(s, h, x, more, y, multiset{Datagram(h, peer, p)});
      ResendAndRearm(t, h, n - 1);
      UnderWayAppend(h, peer, DuePackets(snd.window, n - 1), p);
    } else {
      assert DuePackets(snd.window, n) == DuePackets(snd.window, n - 1);
    }
  }

  /** What Peer.RetransmitPass writes and leaves is what the resends and rearms of the transition
      system put under way and leave; none of them blocks or panics. */
  lemma {:induction false} PassIsResends(s: State, h: Host, n: nat)
    requires MayResend(s, h) && EndpointOf(s, h).snd.resending.None? && n <= EndpointOf(s, h).snd.seqNum
    ensures Pass(s, h, n) == AfterPass(s, h, n)
  {
    if n == 0 {
      var snd := EndpointOf(s, h).snd;
      assert snd.(window := Rearmed(snd.window, 0)) == snd;
      assert Sending(s, h, snd, multiset{}) == s;
    } else {
      PassIsResends(s, h, n - 1);
      AfterPassNext(s, h, n);
    }
  }

  // ---- the loop in `send`

  /** A turn of h's loop in `send`: a socket write and a registration. */
  function Turn(s: State, h: Host): State {
    if !CanWrite(s, h) then s
    else
      var t := DoWrite(s, h);
      if CanRegister(t, h) then DoRegister(t, h) else t
  }

  function Turns(s: State, h: Host, n: nat): State {
    Repeat((t: State) => Turn(t, h), s, n)
  }

  predicate MaySend(s: State, h: Host, m: Bytes) {
    Running(s, h) && EndpointOf(s, h).snd.seqNum == 1 && EndpointOf(s, h).snd.loop == AtLoop(m, 0)
  }

  /** The sending half that Peer.Send leaves after n packets. */
  function SentHalf(snd: Sender, m: Bytes, n: nat): Sender {
    snd.(seqNum := n + 1, window := Registered(snd.window, m, n),
         loop := if n == DeliverSeq(m) then AllSent else AtLoop(m, MAX_PAYLOAD * n))
  }

  /** t is s but for the first n packets of m written and registered. */
  predicate SentSoFar(s: State, t: State, h: Host, peer: Host, m: Bytes, n: nat) {
    && t == WithSender(s, h, EndpointOf(t, h).snd).(net := t.net)
    && EndpointOf(t, h).snd == SentHalf(EndpointOf(s, h).snd, m, n)
    && t.net == s.net + UnderWay(h, peer, Burst(m, n))
  }

  lemma HalfNext(snd: Sender, m: Bytes, n: nat)
    requires 1 <= n <= DeliverSeq(m)
    ensures var x := SentHalf(snd, m, n - 1);
            && x.loop.AtLoop? && WritePacket(x).loop.packet == PacketAt(m, n)
            && RegisterPacket(WritePacket(x)) == if n < WINDOW_SIZE then Some(SentHalf(snd, m, n)) else None
  {
    NextPacketIsPacketAt(m, n);
  }

  /** A turn that finds a slot for its packet. */
  lemma TurnRegisters(t: State, h: Host, peer: Host, p: Packet, next: Sender)
    requires CanWrite(t, h) && PeerOf(t, h) == Some(peer) && WritePacket(EndpointOf(t, h).snd).loop.packet == p
    requires RegisterPacket(WritePacket(EndpointOf(t, h).snd)) == Some(next)
    ensures Turn(t, h) == Sending(t, h, next, multiset{Datagram(h, peer, p)})
  {
  }

  /** A turn that finds none: the packet is under way all the same. */
  lemma TurnPanics(t: State, h: Host, peer: Host, p: Packet)
    requires CanWrite(t, h) && PeerOf(t, h) == Some(peer) && WritePacket(EndpointOf(t, h).snd).loop.packet == p
    requires RegisterPacket(WritePacket(EndpointOf(t, h).snd)) == None
    ensures !EndpointOf(Turn(t, h), h).alive && Turn(t, h).net == t.net + multiset{Datagram(h, peer, p)}
    ensures EndpointOf(Turn(t, h), h).snd.window == EndpointOf(t, h).snd.window
  {
  }

  lemma UnderWayNext(h: Host, peer: Host, m: Bytes, n: nat, net: multiset<Datagram>)
    requires n > 0
    ensures net + UnderWay(h, peer, Burst(m, n - 1)) + multiset{Datagram(h, peer, PacketAt(m, n))}
            == net + UnderWay(h, peer, Burst(m, n))
  {
    UnderWayAppend(h, peer, Burst(m, n - 1), PacketAt(m, n));
  }

  lemma CanSendNext(s: State, t: State, h: Host, peer: Host, m: Bytes, n: nat)
    requires MaySend(s, h, m) && PeerOf(s, h) == Some(peer) && SentSoFar(s, t, h, peer, m, n) && n < DeliverSeq(m)
    ensures CanWrite(t, h) && PeerOf(t, h) == Some(peer)
  {
  }

  lemma SentOneMore(s: State, t: State, u: State, h: Host, peer: Host, m: Bytes, n: nat, d: multiset<Datagram>)
    requires SentSoFar(s, t, h, peer, m, n) && u == Sending(t, h, SentHalf(EndpointOf(s, h).snd, m, n + 1), d)
    requires s.net + UnderWay(h, peer, Burst(m, n)) + d == s.net + UnderWay(h, peer, Burst(m, n + 1))
    ensures SentSoFar(s, u, h, peer, m, n + 1)
  {
  }

  lemma TurnSends(s: State, t: State, h: Host, peer: Host, m: Bytes, n: nat)
    requires MaySend(s, h, m) && PeerOf(s, h) == Some(peer) && SentSoFar(s, t, h, peer, m, n)
    requires n < DeliverSeq(m) && n + 1 < WINDOW_SIZE
    ensures Turn(t, h) == Sending(t, h, SentHalf(EndpointOf(s, h).snd, m, n + 1),
                                  multiset{Datagram(h, peer, PacketAt(m, n + 1))})
  {
    HalfNext(EndpointOf(s, h).snd, m, n + 1);
    CanSendNext(s, t, h, peer, m, n);
    TurnRegisters(t, h, peer, PacketAt(m, n + 1), SentHalf(EndpointOf(s, h).snd, m, n + 1));
  }

  lemma SendsNext(s: State, t: State, h: Host, peer: Host, m: Bytes, n: nat)
    requires MaySend(s, h, m) && PeerOf(s, h) == Some(peer) && SentSoFar(s, t, h, peer, m, n)
    requires n < DeliverSeq(m) && n + 1 < WINDOW_SIZE
    ensures SentSoFar(s, Turn(t, h), h, peer, m, n + 1)
  {
    TurnSends(s, t, h, peer, m, n);
    UnderWayNext(h, peer, m, n + 1, s.net);
    SentOneMore(s, t, Turn(t, h), h, peer, m, n, multiset{Datagram(h, peer, PacketAt(m, n + 1))});
  }

  /** What Peer.Send writes and leaves is what the writes and registrations of the transition system
      put under way and leave: packets 1 .. DELIVER in order. */
  lemma SendIsTurns(s: State, h: Host, peer: Host, m: Bytes, n: nat)
    requires MaySend(s, h, m) && PeerOf(s, h) == Some(peer) && n <= DeliverSeq(m) && n < WINDOW_SIZE
    ensures SentSoFar(s, Turns(s, h, n), h, peer, m, n)
  {
    var step, inv := (t: State) => Turn(t, h), (t: State, k: nat) => SentSoFar(s, t, h, peer, m, k);
    forall t: State, k: nat | k < n && inv(t, k)
      ensures inv(step(t), k + 1)
    {
      SendsNext(s, t, h, peer, m, k);
    }
    assert SentHalf(EndpointOf(s, h).snd, m, 0) == EndpointOf(s, h).snd;
    RepeatKeeps(step, inv, s, n);
  }

  /** With a message too long, packets 1 .. 1024 are written, and the last registration panics. */
  lemma SendPanicsAtTurn(s: State, h: Host, peer: Host, m: Bytes)
    requires MaySend(s, h, m) && PeerOf(s, h) == Some(peer) && !Fits(m)
    ensures var t := Turn(Turns(s, h, WINDOW_SIZE - 1), h);
            && !EndpointOf(t, h).alive
            && t.net == s.net + UnderWay(h, peer, Burst(m, WINDOW_SIZE))
            && EndpointOf(t, h).snd.window == Registered(EndpointOf(s, h).snd.window, m, WINDOW_SIZE - 1)
  {
    var t := Turns(s, h, WINDOW_SIZE - 1);
    SendIsTurns(s, h, peer, m, WINDOW_SIZE - 1);
    HalfNext(EndpointOf(s, h).snd, m, WINDOW_SIZE);
    CanSendNext(s, t, h, peer, m, WINDOW_SIZE - 1);
    TurnPanics(t, h, peer, PacketAt(m, WINDOW_SIZE));
    UnderWayNext(h, peer, m, WINDOW_SIZE, s.net);
  }

  class HttpClient {
    const windows: Peer
    var handshakeSYNACKChannel: bool

    ghost predicate Represents(s: State)
      reads this, windows, windows.senderWindow, windows.receiverWindow
    {
      windows.Valid() && windows.Represents(s.client) && s.synAckChannel == handshakeSYNACKChannel
    }

    constructor ()
      ensures fresh(windows) && fresh(windows.senderWindow) && fresh(windows.receiverWindow)
      ensures Represents(Initial(multiset{}))
    {
      windows := new Peer();
      handshakeSYNACKChannel := false;
    }

    /** The body of receive's loop: a nil slot in the ACK branch is a panic. */
    method Receive(d: Datagram, ghost s: State) returns (out: seq<Datagram>, panicked: bool)
      requires Represents(s) && s.client.alive && d.dst == Client
      modifies this, windows.senderWindow, windows.receiverWindow
      ensures AfterReceive(s, d).net == s.net + multiset(out)
      ensures panicked <==> !AfterReceive(s, d).client.alive
      ensures !panicked ==> Represents(AfterReceive(s, d))
    {
      ClientTurn(s, d);
      var p := d.packet;
      out, panicked := [], false;
      if p.kind == SYNACK {
        out := out + [Datagram(Client, Server, Packet(ACK, p.seqNum, []))];
        if !handshakeSYNACKChannel {
          handshakeSYNACKChannel := true;
        }
      }
      if p.kind == ACK {
        if p.seqNum >= windows.senderWindow.Length || windows.senderWindow[p.seqNum] == None {
          return out, true;
        }
        windows.Acknowledge(p.seqNum);
      }
      if p.kind == DATA || p.kind == DELIVER {
        out := out + [Datagram(Client, d.src, Packet(ACK, p.seqNum, []))];
        panicked := windows.Save(p);
      }
    }
  }

  class HttpServer {
    const windows: Peer
    var connect: bool
    var clientAddr: Option<Host>
    var handshakeSynChannel: Option<Host>
    var handshakeAckChannel: bool

    ghost predicate Represents(s: State)
      reads this, windows, windows.senderWindow, windows.receiverWindow
    {
      && windows.Valid() && windows.Represents(s.server) && s.connected == connect && s.clientAddr == clientAddr
      && s.synChannel == handshakeSynChannel && s.ackChannel == handshakeAckChannel
    }

    constructor ()
      ensures fresh(windows) && fresh(windows.senderWindow) && fresh(windows.receiverWindow)
      ensures Represents(Initial(multiset{}))
    {
      windows := new Peer();
      connect := false;
      clientAddr := None;
      handshakeSynChannel := None;
      handshakeAckChannel := false;
    }

    method Receive(d: Datagram, ghost s: State) returns (out: seq<Datagram>, panicked: bool)
      requires Represents(s) && Running(s, Server) && d.dst == Server
      modifies this, windows.senderWindow, windows.receiverWindow
      ensures AfterReceive(s, d).net == s.net + multiset(out)
      ensures panicked <==> !AfterReceive(s, d).server.alive
      ensures !panicked ==> Represents(AfterReceive(s, d))
    {
      var p := d.packet;
      out, panicked := [], false;
      if Storable(p) {
        ServerDataTurn(s, d);
      } else {
        ServerControlTurn(s, d);
      }
      if !connect {
        if p.kind == SYN && handshakeSynChannel == None {
          handshakeSynChannel := Some(d.src);
        }
        if p.kind == ACK && p.seqNum == 0 && !handshakeAckChannel {
          handshakeAckChannel := true;
        }
      }
      if p.kind == ACK && p.seqNum != 0 {
        if p.seqNum >= windows.senderWindow.Length {
          return out, true;
        }
        if windows.senderWindow[p.seqNum] != None {
          windows.Acknowledge(p.seqNum);
        }
      }
      if p.kind == DATA || p.kind == DELIVER {
        out := out + [Datagram(Server, d.src, Packet(ACK, p.seqNum, []))];
        panicked := windows.Save(p);
      }
    }

    /** disconnected has run; reset brings back the state a new server starts from. */
    method Reset(ghost s: State)
      requires Represents(s) && CanReset(s)
      modifies this, windows
      ensures fresh(windows.senderWindow) && fresh(windows.receiverWindow)
      ensures Represents(DoReset(s))
      ensures !s.connected ==> Represents(Initial(multiset{}))
    {
      clientAddr := None;
      windows.Reset();
      handshakeSynChannel := None;
      handshakeAckChannel := false;
    }
  }
}

/** Runs built action by action from the beginning of a session, with nothing retransmitted unless
    it is said: they show which states can be reached. */
module Scenarios {
  import opened Packets
  import opened Chunking
  import opened Endpoints
  import opened Protocol
  import opened DataInvariant
  import opened ControlInvariant
  import opened Reachability
  import opened Progress
  import DataPreservation

  /** The states a session reaches that begins with net under way. */
  ghost function Reached(handler: Bytes -> Bytes, req: Bytes, net: multiset<Datagram>): iset<State> {
    iset s: State | Reachable(handler, req, net, s) && DataInv(handler, req, s)
  }

  lemma Begin(handler: Bytes -> Bytes, req: Bytes, net: multiset<Datagram>)
    requires NoData(net)
    ensures Initial(net) in Reached(handler, req, net)
  {
    Stay(handler, req, Initial(net));
  }

  lemma Do(handler: Bytes -> Bytes, req: Bytes, net: multiset<Datagram>, s: State, a: Action)
    requires s in Reached(handler, req, net) && Enabled(s, a)
    ensures Next(handler, req, s, a) in Reached(handler, req, net)
  {
    Extend(handler, req, Initial(net), s, a);
    DataPreservation.DataInvKept(handler, req, s, a);
  }

  /** Control packets that no step of these runs takes unless it is said: those with a number. */
  ghost predicate StrayKept(s: State, t: State) {
    forall d :: d in s.net && !Storable(d.packet) && d.packet.seqNum != 0 ==> d in t.net
  }

  /** Only the two endpoints and the network differ. */
  predicate HalvesOnly(s: State, t: State) {
    t == s.(client := t.client, server := t.server, net := t.net)
  }

  // ---- the handshake

  /** The session at its very beginning, perhaps with a SYNACK already in the client's channel. */
  predicate Fresh(s: State) {
    s == Initial(s.net).(synAckChannel := s.synAckChannel)
  }

  const SENT_NOTHING := FRESH_SENDER.(seqNum := 1)

  /** Both sides are connected and nothing has been sent. */
  predicate Connected(req: Bytes, s: State) {
    s == Initial(s.net).(client := FRESH_ENDPOINT.(snd := SENT_NOTHING.(loop := AtLoop(req, 0))),
                         server := FRESH_ENDPOINT.(snd := SENT_NOTHING),
                         clientMain := Exchanging, serverMain := AwaitingRequest,
                         connected := true, clientAddr := Some(Client))
  }

  lemma Synchronized(handler: Bytes -> Bytes, req: Bytes, net: multiset<Datagram>, s: State) returns (t: State)
    requires s in Reached(handler, req, net) && Fresh(s)
    ensures t in Reached(handler, req, net) && StrayKept(s, t)
    ensures t == s.(clientMain := AwaitingSynAck, serverMain := Replying, clientAddr := Some(Client), net := t.net)
  {
    var syn := Datagram(Client, Server, Packet(SYN, 0, []));
    var s1 := DoSendSyn(s);
    Do(handler, req, net, s, SendSyn);
    var s2 := DoReceive(s1, syn);
    assert s2 == s1.(synChannel := Some(Client), net := s2.net);
    Do(handler, req, net, s1, Receive(syn));
    t := DoTakeSyn(s2);
    Do(handler, req, net, s2, TakeSyn);
  }

  lemma Answered(handler: Bytes -> Bytes, req: Bytes, net: multiset<Datagram>, s: State) returns (t: State)
    requires s in Reached(handler, req, net) && Fresh(s)
    ensures t in Reached(handler, req, net) && StrayKept(s, t)
    ensures t == s.(clientMain := AwaitingSynAck, serverMain := AwaitingAck, clientAddr := Some(Client),
                    synAckChannel := true, net := t.net)
    ensures Datagram(Client, Server, Packet(ACK, 0, [])) in t.net
  {
    var synAck := Datagram(Server, Client, Packet(SYNACK, 0, []));
    var s1 := Synchronized(handler, req, net, s);
    var s2 := DoSendSynAck(s1);
    Do(handler, req, net, s1, SendSynAck);
    t := DoReceive(s2, synAck);
    assert t == s2.(synAckChannel := true, net := t.net);
    Do(handler, req, net, s2, Receive(synAck));
  }

  lemma Connects(handler: Bytes -> Bytes, req: Bytes, net: multiset<Datagram>, s: State) returns (t: State)
    requires s in Reached(handler, req, net) && Fresh(s)
    ensures t in Reached(handler, req, net) && StrayKept(s, t) && Connected(req, t)
  {
    var ack := Datagram(Client, Server, Packet(ACK, 0, []));
    var s1 := Answered(handler, req, net, s);
    var s2 := DoReceive(s1, ack);
    assert s2 == s1.(ackChannel := true, net := s2.net);
    Do(handler, req, net, s1, Receive(ack));
    var s3 := DoTakeSynAck(req, s2);
    Do(handler, req, net, s2, TakeSynAck);
    t := DoTakeAck(s3);
    Do(handler, req, net, s3, TakeAck);
  }

  // ---- turns of the loop in `send`

  /** The sending half after one turn. */
  function Turned(snd: Sender): Sender
    requires snd.loop.AtLoop? && snd.seqNum < WINDOW_SIZE
  {
    RegisterPacket(WritePacket(snd)).value
  }

  /** One turn whose packet nobody has received yet. */
  lemma Turn(handler: Bytes -> Bytes, req: Bytes, net: multiset<Datagram>, s: State, h: Host) returns (t: State)
    requires s in Reached(handler, req, net) && CanWrite(s, h) && EndpointOf(s, h).snd.seqNum < WINDOW_SIZE
    ensures t in Reached(handler, req, net) && StrayKept(s, t)
    ensures t == WithSender(s, h, Turned(EndpointOf(s, h).snd)).(net := t.net)
    ensures Datagram(h, PeerOf(s, h).value, WritePacket(EndpointOf(s, h).snd).loop.packet) in t.net
  {
    var s1 := DoWrite(s, h);
    Do(handler, req, net, s, Write(h));
    t := DoRegister(s1, h);
    Do(handler, req, net, s1, Register(h));
  }

  /** h is about to build the packet numbered n, or has sent everything. */
  predicate AtNumber(m: Bytes, snd: Sender, n: nat) {
    snd.seqNum == n && if n == DeliverSeq(m) + 1 then snd.loop.AllSent? else snd.loop.AtLoop?
  }

  lemma AtNumberHolds(m: Bytes, snd: Sender)
    requires SenderOk(m, snd) && (snd.loop.AtLoop? || snd.loop.AllSent?)
    ensures AtNumber(m, snd, snd.seqNum)
  {
  }

  /** Turns until h is at the number n. */
  lemma {:induction false} TurnsTo(handler: Bytes -> Bytes, req: Bytes, net: multiset<Datagram>, s: State, h: Host, n: nat)
      returns (t: State)
    requires s in Reached(handler, req, net) && CanWrite(s, h)
    requires EndpointOf(s, h).snd.seqNum <= n <= DeliverSeq(MessageOf(handler, req, h)) + 1 && n <= WINDOW_SIZE
    ensures t in Reached(handler, req, net) && StrayKept(s, t)
    ensures t == WithSender(s, h, EndpointOf(t, h).snd).(net := t.net)
    ensures AtNumber(MessageOf(handler, req, h), EndpointOf(t, h).snd, n)
    decreases n
  {
    t := s;
    if EndpointOf(s, h).snd.seqNum < n {
      var s1 := TurnsTo(handler, req, net, s, h, n - 1);
      t := Turn(handler, req, net, s1, h);
    }
    AtNumberHolds(MessageOf(handler, req, h), EndpointOf(t, h).snd);
  }

  // ---- turns whose packet is received and saved

  /** The endpoint that takes d, and what is under way then. */
  function Taken(s: State, d: Datagram): State {
    var rcv := EndpointOf(s, d.dst).rcv;
    WithReceiver(s, d.dst, rcv.(window := Saved(rcv.window, d.packet))).(net := s.net - multiset{d} + multiset{AckFor(d)})
  }

  lemma HeldThenSaved(s: State, d: Datagram)
    requires CanReceive(s, d) && Storable(d.packet) && d.packet.seqNum < WINDOW_SIZE
    ensures CanStore(DoReceive(s, d), d.dst) && DoStore(DoReceive(s, d), d.dst) == Taken(s, d)
  {
    assert DoReceive(s, d) == AckAndHold(Take(s, d), d);
  }

  lemma TakesData(s: State, d: Datagram)
    requires d in s.net && Storable(d.packet)
    ensures StrayKept(s, Taken(s, d))
  {
  }

  /** d has been taken from the network and saved, and its acknowledgement is under way. */
  lemma Saves(handler: Bytes -> Bytes, req: Bytes, net: multiset<Datagram>, s: State, d: Datagram) returns (t: State)
    requires s in Reached(handler, req, net) && CanReceive(s, d) && Storable(d.packet) && d.packet.seqNum < WINDOW_SIZE
    ensures t in Reached(handler, req, net) && StrayKept(s, t) && t == Taken(s, d)
  {
    HeldThenSaved(s, d);
    TakesData(s, d);
    Do(handler, req, net, s, Receive(d));
    t := DoStore(DoReceive(s, d), d.dst);
    Do(handler, req, net, DoReceive(s, d), Store(d.dst));
  }

  function Saved(window: map<nat, Packet>, p: Packet): map<nat, Packet> {
    if p.seqNum in window then window else window[p.seqNum := p]
  }

  /** Both halves after a whole turn of h. */
  predicate Passed(s: State, t: State, h: Host)
    requires EndpointOf(s, h).snd.loop.AtLoop? && EndpointOf(s, h).snd.seqNum < WINDOW_SIZE
  {
    var (snd, e) := (EndpointOf(s, h).snd, EndpointOf(s, OtherHost(h)));
    && HalvesOnly(s, t)
    && EndpointOf(t, h) == EndpointOf(s, h).(snd := Turned(snd))
    && EndpointOf(t, OtherHost(h)) == e.(rcv := e.rcv.(window := Saved(e.rcv.window, WritePacket(snd).loop.packet)))
    && Datagram(OtherHost(h), h, Packet(ACK, snd.seqNum, [])) in t.net
  }

  lemma TurnedThenTaken(s: State, t: State, h: Host)
    requires EndpointOf(s, h).snd.loop.AtLoop? && EndpointOf(s, h).snd.seqNum < WINDOW_SIZE
    requires t == WithSender(s, h, Turned(EndpointOf(s, h).snd)).(net := t.net)
    ensures var d := Datagram(h, OtherHost(h), WritePacket(EndpointOf(s, h).snd).loop.packet);
            Storable(d.packet) && Passed(s, Taken(t, d), h)
  {
  }

  lemma PeerIsOther(handler: Bytes -> Bytes, req: Bytes, net: multiset<Datagram>, s: State, h: Host)
    requires s in Reached(handler, req, net) && PeerOf(s, h).Some?
    ensures PeerOf(s, h).value == OtherHost(h)
  {
    assert MainsOk(handler, req, s);
  }

  /** A whole turn: written, registered, received and saved. */
  lemma Passes(handler: Bytes -> Bytes, req: Bytes, net: multiset<Datagram>, s: State, h: Host) returns (t: State)
    requires s in Reached(handler, req, net) && CanWrite(s, h) && EndpointOf(s, h).snd.seqNum < WINDOW_SIZE
    requires Running(s, OtherHost(h)) && EndpointOf(s, OtherHost(h)).rcv.storing.None?
    ensures t in Reached(handler, req, net) && StrayKept(s, t) && Passed(s, t, h)
  {
    PeerIsOther(handler, req, net, s, h);
    var s1 := Turn(handler, req, net, s, h);
    TurnedThenTaken(s, s1, h);
    t := Saves(handler, req, net, s1, Datagram(h, OtherHost(h), WritePacket(EndpointOf(s, h).snd).loop.packet));
  }

  // ---- the request

  /** The client has sent packets 1 .. n - 1 and the server has saved them; nothing is acknowledged. */
  ghost predicate Sent(req: Bytes, s: State, n: nat) {
    && AtNumber(req, s.client.snd, n)
    && s.client.snd.resending.None?
    && (forall i :: i in s.client.snd.window ==> !s.client.snd.window[i].acked && s.client.snd.window[i].timer == Armed)
    && (forall i :: 1 <= i < n ==> i in s.server.rcv.window)
    && s.server.rcv == FRESH_RECEIVER.(window := s.server.rcv.window)
  }

  /** s but for the request sent and saved. */
  predicate RequestOnly(s: State, t: State) {
    HalvesOnly(s, t) && t.client == s.client.(snd := t.client.snd) && t.server == s.server.(rcv := t.server.rcv)
  }

  lemma SentNext(req: Bytes, s: State, t: State, n: nat)
    requires Sent(req, s, n) && s.client.snd.loop.AtLoop? && n < WINDOW_SIZE && Passed(s, t, Client)
    requires AtNumber(req, t.client.snd, n + 1)
    ensures RequestOnly(s, t) && Sent(req, t, n + 1)
  {
  }

  lemma SendsNext(handler: Bytes -> Bytes, req: Bytes, net: multiset<Datagram>, s: State, n: nat) returns (t: State)
    requires s in Reached(handler, req, net) && s.client.alive && s.server.alive && s.serverMain.AwaitingRequest?
    requires Sent(req, s, n) && n <= DeliverSeq(req) && n < WINDOW_SIZE
    ensures t in Reached(handler, req, net) && StrayKept(s, t) && RequestOnly(s, t) && Sent(req, t, n + 1)
  {
    t := Passes(handler, req, net, s, Client);
    AtNumberHolds(req, t.client.snd);
    SentNext(req, s, t, n);
  }

  lemma {:induction false} SendsAll(handler: Bytes -> Bytes, req: Bytes, net: multiset<Datagram>, s: State, n: nat)
      returns (t: State)
    requires s in Reached(handler, req, net) && s.client.alive && s.server.alive && s.serverMain.AwaitingRequest?
    requires Sent(req, s, n) && n <= DeliverSeq(req) + 1 && Fits(req)
    ensures t in Reached(handler, req, net) && StrayKept(s, t) && RequestOnly(s, t) && Sent(req, t, DeliverSeq(req) + 1)
    decreases DeliverSeq(req) + 1 - n
  {
    t := s;
    if n <= DeliverSeq(req) {
      var s1 := SendsNext(handler, req, net, s, n);
      t := SendsAll(handler, req, net, s1, n + 1);
    }
  }

  /** checkForDeliver reads on until it returns. */
  lemma {:induction false} Signals(handler: Bytes -> Bytes, req: Bytes, net: multiset<Datagram>, s: State) returns (t: State)
    requires s in Reached(handler, req, net) && Running(s, Server) && Full(req, s.server.rcv.window) && Fits(req)
    requires s.server.rcv.checker.Returned? ==> s.server.rcv.token
    ensures t in Reached(handler, req, net)
    ensures t == s.(server := s.server.(rcv := s.server.rcv.(checker := Returned, token := true)))
    decreases Rank(DeliverSeq(req), s.server.rcv.checker)
  {
    t := s;
    if !s.server.rcv.checker.Returned? {
      var s1 := DoCheck(s, Server);
      CheckRank(req, Hi(s.client.snd), s.server.rcv);
      Do(handler, req, net, s, Check(Server));
      t := Signals(handler, req, net, s1);
    }
  }

  /** The server is about to answer; the client's packets are saved and none is acknowledged. */
  ghost predicate Answering(handler: Bytes -> Bytes, req: Bytes, s: State) {
    && Ready(s) && s.server.snd == SENT_NOTHING.(loop := AtLoop(handler(req), 0))
    && s.client.rcv == FRESH_RECEIVER && s.client.snd.resending.None?
    && 1 in s.client.snd.window && !s.client.snd.window[1].acked && s.client.snd.window[1].timer == Armed
    && 1 < s.client.snd.seqNum
  }

  /** The server is sending, and no receive goroutine is in the middle of its save. */
  predicate Ready(s: State) {
    && s.serverMain.Responding? && s.connected && s.clientAddr.Some? && s.client.alive && s.server.alive
    && s.client.rcv.storing.None? && s.server.rcv.storing.None?
  }

  lemma Handles(handler: Bytes -> Bytes, req: Bytes, net: multiset<Datagram>, s: State) returns (t: State)
    requires s in Reached(handler, req, net) && CanTakeRequest(s)
    ensures t in Reached(handler, req, net) && StrayKept(s, t)
    ensures t == s.(serverMain := Responding, handled := s.handled + [req],
                    server := s.server.(rcv := s.server.rcv.(token := false),
                                        snd := s.server.snd.(loop := AtLoop(handler(req), 0))))
  {
    GatherGivesMessage(req, Hi(s.client.snd), s.server.rcv);
    t := DoTakeRequest(handler, s);
    Do(handler, req, net, s, TakeRequest);
  }

  lemma FirstSlotWaits(handler: Bytes -> Bytes, req: Bytes, net: multiset<Datagram>, s: State)
    requires s in Reached(handler, req, net) && Sent(req, s, DeliverSeq(req) + 1)
    ensures 1 in s.client.snd.window && Full(req, s.server.rcv.window)
  {
    assert SenderOk(req, s.client.snd);
  }

  lemma SendsRequest(handler: Bytes -> Bytes, req: Bytes, net: multiset<Datagram>, s: State) returns (t: State)
    requires s in Reached(handler, req, net) && Connected(req, s) && Fits(req)
    ensures t in Reached(handler, req, net) && StrayKept(s, t) && RequestOnly(s, t) && Sent(req, t, DeliverSeq(req) + 1)
  {
    t := SendsAll(handler, req, net, s, 1);
  }

  lemma Answers(handler: Bytes -> Bytes, req: Bytes, net: multiset<Datagram>, s: State) returns (t: State)
    requires s in Reached(handler, req, net) && Fresh(s) && Fits(req)
    ensures t in Reached(handler, req, net) && StrayKept(s, t) && Answering(handler, req, t)
  {
    var s1 := Connects(handler, req, net, s);
    var s2 := SendsRequest(handler, req, net, s1);
    FirstSlotWaits(handler, req, net, s2);
    var s3 := Signals(handler, req, net, s2);
    t := Handles(handler, req, net, s3);
    AnsweringNow(handler, req, s1, s2, t);
  }

  lemma AnsweringNow(handler: Bytes -> Bytes, req: Bytes, s: State, u: State, t: State)
    requires Connected(req, s) && RequestOnly(s, u) && Sent(req, u, DeliverSeq(req) + 1) && 1 in u.client.snd.window
    requires t.client == u.client && t.serverMain.Responding? && t.connected == u.connected && t.clientAddr == u.clientAddr
    requires t.server.alive == u.server.alive && t.server.rcv.storing == u.server.rcv.storing
    requires t.server.snd == u.server.snd.(loop := AtLoop(handler(req), 0))
    ensures Answering(handler, req, t)
  {
  }

  // ---- the response

  /** Control packets with a number of at least n are still under way. */
  ghost predicate StrayKeptFrom(s: State, t: State, n: nat) {
    forall d :: d in s.net && !Storable(d.packet) && d.packet.seqNum != 0 && d.packet.seqNum >= n ==> d in t.net
  }

  /** s but for response packets sent, saved and acknowledged, numbered below n. */
  ghost predicate ResponseOnly(s: State, t: State, n: nat) {
    && HalvesOnly(s, t) && t.server == s.server.(snd := t.server.snd) && t.server.snd.resending == s.server.snd.resending
    && t.client == s.client.(rcv := s.client.rcv.(window := t.client.rcv.window))
    && forall j :: j in t.client.rcv.window ==> j in s.client.rcv.window || s.server.snd.seqNum <= j < n
  }

  /** An acknowledgement comes in for a slot of h. */
  lemma AckComes(handler: Bytes -> Bytes, req: Bytes, net: multiset<Datagram>, s: State, d: Datagram) returns (t: State)
    requires s in Reached(handler, req, net) && CanReceive(s, d) && d.packet.kind == ACK
    requires 1 <= d.packet.seqNum < WINDOW_SIZE && d.packet.seqNum in EndpointOf(s, d.dst).snd.window
    ensures t in Reached(handler, req, net) && StrayKeptFrom(s, t, d.packet.seqNum + 1)
    ensures t == WithSender(s, d.dst, AckSlot(EndpointOf(s, d.dst).snd, d.packet.seqNum)).(net := t.net)
  {
    AckReceived(s, d);
    t := DoReceive(s, d);
    Do(handler, req, net, s, Receive(d));
  }

  function AckTo(h: Host, i: nat): Datagram {
    Datagram(OtherHost(h), h, Packet(ACK, i, []))
  }

  lemma RespondsShape(s: State, u: State, t: State, n: nat)
    requires Ready(s) && s.server.snd.loop.AtLoop? && n < WINDOW_SIZE && n == s.server.snd.seqNum && AllAcked(s.server.snd)
    requires Passed(s, u, Server) && n in u.server.snd.window
    requires t == u.(server := u.server.(snd := AckSlot(u.server.snd, n)), net := t.net)
    ensures Ready(t) && AllAcked(t.server.snd) && t.server.snd.seqNum == n + 1 && ResponseOnly(s, t, n + 1)
    ensures !t.server.snd.loop.Idle? && !t.server.snd.loop.Written?
  {
  }

  /** One packet of the response is sent, saved and acknowledged. */
  lemma Responds(handler: Bytes -> Bytes, req: Bytes, net: multiset<Datagram>, s: State, n: nat) returns (t: State)
    requires s in Reached(handler, req, net) && Ready(s) && AllAcked(s.server.snd)
    requires AtNumber(handler(req), s.server.snd, n) && n <= DeliverSeq(handler(req)) && 1 <= n < WINDOW_SIZE
    ensures t in Reached(handler, req, net) && StrayKeptFrom(s, t, n + 1)
    ensures Ready(t) && AllAcked(t.server.snd) && AtNumber(handler(req), t.server.snd, n + 1) && ResponseOnly(s, t, n + 1)
  {
    var s1 := Passes(handler, req, net, s, Server);
    t := AckComes(handler, req, net, s1, AckTo(Server, n));
    RespondsShape(s, s1, t, n);
    AtNumberHolds(handler(req), t.server.snd);
  }

  lemma ResponseOnlyTwice(s: State, t: State, u: State, n: nat)
    requires ResponseOnly(s, t, n) && ResponseOnly(t, u, n + 1) && s.server.snd.seqNum <= n == t.server.snd.seqNum
    ensures ResponseOnly(s, u, n + 1)
  {
  }

  /** Packets of the response up to number n - 1. */
  lemma {:induction false} RespondsTo(handler: Bytes -> Bytes, req: Bytes, net: multiset<Datagram>, s: State, n: nat)
      returns (t: State)
    requires s in Reached(handler, req, net) && Ready(s) && AllAcked(s.server.snd)
    requires AtNumber(handler(req), s.server.snd, s.server.snd.seqNum)
    requires 1 <= s.server.snd.seqNum <= n <= DeliverSeq(handler(req)) + 1 && n <= WINDOW_SIZE
    ensures t in Reached(handler, req, net) && StrayKeptFrom(s, t, n)
    ensures Ready(t) && AllAcked(t.server.snd) && AtNumber(handler(req), t.server.snd, n) && ResponseOnly(s, t, n)
    decreases n
  {
    t := s;
    if s.server.snd.seqNum < n {
      var s1 := RespondsTo(handler, req, net, s, n - 1);
      t := Responds(handler, req, net, s1, n - 1);
      ResponseOnlyTwice(s, s1, t, n - 1);
    }
  }

  // ---- the end of the session

  /** The blocking loop reads on until it ends. */
  lemma {:induction false} ReadsThrough(handler: Bytes -> Bytes, req: Bytes, net: multiset<Datagram>, s: State) returns (t: State)
    requires s in Reached(handler, req, net) && s.server.alive && s.serverMain.Blocking? && !s.serverMain.blocked
    requires AllAcked(s.server.snd)
    ensures t in Reached(handler, req, net) && t == s.(serverMain := Closing, connected := false)
    decreases s.server.snd.seqNum - s.serverMain.i
  {
    t := DoReadAck(s);
    Do(handler, req, net, s, ReadAck);
    if t.serverMain.Blocking? {
      t := ReadsThrough(handler, req, net, t);
    }
  }

  /** With every slot acknowledged the server disconnects and resets. */
  lemma Ends(handler: Bytes -> Bytes, req: Bytes, net: multiset<Datagram>, s: State) returns (t: State)
    requires s in Reached(handler, req, net) && s.server.alive && AllAcked(s.server.snd) && s.server.snd.loop.AllSent?
    requires s.serverMain.Responding? || s.serverMain == Blocking(0, false)
    ensures t in Reached(handler, req, net) && t.serverMain.Ended? && t.client == s.client && t.retired == s.server
    ensures t.server == ResetEndpoint(s.server)
  {
    var s1 := s;
    if s.serverMain.Responding? {
      s1 := s.(serverMain := Blocking(0, false));
      Do(handler, req, net, s, StartBlocking);
    }
    var s2 := ReadsThrough(handler, req, net, s1);
    t := DoReset(s2);
    Do(handler, req, net, s2, Reset);
  }

  // ---- retransmissions in the middle of their step

  /** The timer of slot i expires and its packet is written again; the timer is not yet rearmed. */
  lemma Retransmits(handler: Bytes -> Bytes, req: Bytes, net: multiset<Datagram>, s: State, h: Host, i: nat) returns (t: State)
    requires s in Reached(handler, req, net) && Running(s, h) && PeerOf(s, h).Some? && (h == Server ==> s.connected)
    requires var snd := EndpointOf(s, h).snd;
             && snd.resending.None? && i < snd.seqNum && i in snd.window
             && !snd.window[i].acked && snd.window[i].timer == Armed
    ensures t in Reached(handler, req, net) && StrayKept(s, t)
    ensures var d := Datagram(h, PeerOf(s, h).value, EndpointOf(s, h).snd.window[i].packet);
            && t == WithSender(s, h, Fire(EndpointOf(s, h).snd, i).(resending := Some(i))).(net := s.net + multiset{d})
            && d in t.net
  {
    var s1 := DoTick(s, h, i);
    Do(handler, req, net, s, Tick(h, i));
    t := DoRetransmit(s1, h, i);
    Do(handler, req, net, s1, Retransmit(h, i));
  }
}

/** Moves that are always possible and what they achieve: the building blocks of "no stuck state". */
module Progress {
  import opened Packets
  import opened Chunking
  import opened Endpoints
  import opened Protocol
  import opened DataInvariant
  import opened ControlInvariant
  import opened Reachability
  import opened Monotone

  /** States that satisfy the invariants, with both programs alive. */
  ghost function Live(handler: Bytes -> Bytes, req: Bytes): iset<State> {
    iset s: State | Inv(handler, req, s) && s.client.alive && s.server.alive
  }

  /** The live states that some run from s leads to; they have lost nothing s had achieved. */
  ghost function From(handler: Bytes -> Bytes, req: Bytes, s: State): iset<State> {
    iset t: State | Reaches(handler, req, s, t) && t in Live(handler, req) && Grown(s, t)
  }

  /** Both messages of the session fit their windows. */
  predicate Sized(handler: Bytes -> Bytes, req: Bytes) {
    Fits(req) && Fits(handler(req))
  }

  /** What h sends in this session. */
  function MessageOf(handler: Bytes -> Bytes, req: Bytes, h: Host): Bytes {
    if h == Client then req else handler(req)
  }

  function OtherHost(h: Host): Host {
    if h == Client then Server else Client
  }

  predicate MainsStay(s: State, t: State) {
    && t.clientMain == s.clientMain && t.serverMain == s.serverMain
    && t.connected == s.connected && t.clientAddr == s.clientAddr
  }

  lemma FromSelf(handler: Bytes -> Bytes, req: Bytes, s: State)
    requires s in Live(handler, req)
    ensures s in From(handler, req, s)
  {
    Stay(handler, req, s);
  }

  lemma FromTransitive(handler: Bytes -> Bytes, req: Bytes, s: State, t: State, u: State)
    requires t in From(handler, req, s) && u in From(handler, req, t)
    ensures u in From(handler, req, s)
  {
    Join(handler, req, s, t, u);
    GrownTransitive(s, t, u);
  }

  /** One more action. */
  lemma Act(handler: Bytes -> Bytes, req: Bytes, s: State, t: State, a: Action)
    requires t in From(handler, req, s) && Enabled(t, a)
    requires Next(handler, req, t, a).client.alive && Next(handler, req, t, a).server.alive
    ensures Next(handler, req, t, a) in From(handler, req, s)
  {
    var u := Next(handler, req, t, a);
    InvKept(handler, req, t, a);
    StepGrows(handler, req, t, a);
    Extend(handler, req, s, t, a);
    GrownTransitive(s, t, u);
  }

  // ---- finishing what a goroutine is in the middle of

  lemma FinishStore(handler: Bytes -> Bytes, req: Bytes, s: State, h: Host) returns (t: State)
    requires s in Live(handler, req) && Sized(handler, req) && Running(s, h)
    ensures t in From(handler, req, s)
    ensures t == WithReceiver(s, h, EndpointOf(t, h).rcv) && EndpointOf(t, h).rcv.storing.None?
    ensures EndpointOf(s, h).rcv.storing.Some? ==> EndpointOf(s, h).rcv.storing.value.seqNum in EndpointOf(t, h).rcv.window
  {
    t := s;
    FromSelf(handler, req, s);
    if CanStore(s, h) {
      assert EndpointOf(s, h).rcv.storing.value.seqNum < WINDOW_SIZE;
      t := DoStore(s, h);
      Act(handler, req, s, s, Store(h));
    }
  }

  lemma FinishRearm(handler: Bytes -> Bytes, req: Bytes, s: State, h: Host) returns (t: State)
    requires s in Live(handler, req) && Running(s, h)
    ensures t in From(handler, req, s)
    ensures t == WithSender(s, h, EndpointOf(t, h).snd) && EndpointOf(t, h).snd.resending.None?
    ensures EndpointOf(t, h).snd.loop == EndpointOf(s, h).snd.loop && EndpointOf(t, h).snd.seqNum == EndpointOf(s, h).snd.seqNum
  {
    t := s;
    FromSelf(handler, req, s);
    if EndpointOf(s, h).snd.resending.Some? {
      RearmKeepsSender(MessageOf(handler, req, h), EndpointOf(s, h).snd);
      t := DoRearm(s, h);
      Act(handler, req, s, s, RearmTimer(h));
    }
  }

  /** Both receive goroutines and the retransmission goroutine of h are back at their loops. */
  lemma Settle(handler: Bytes -> Bytes, req: Bytes, s: State, h: Host) returns (t: State)
    requires s in Live(handler, req) && Sized(handler, req) && !s.serverMain.Ended?
    ensures t in From(handler, req, s) && MainsStay(s, t) && t.net == s.net
    ensures t.client.rcv.storing.None? && t.server.rcv.storing.None? && EndpointOf(t, h).snd.resending.None?
    ensures t.synAckChannel == s.synAckChannel && t.synChannel == s.synChannel && t.ackChannel == s.ackChannel
    ensures t.client.snd.loop == s.client.snd.loop && t.client.snd.seqNum == s.client.snd.seqNum
    ensures t.server.snd.loop == s.server.snd.loop && t.server.snd.seqNum == s.server.snd.seqNum
  {
    var s1 := FinishStore(handler, req, s, Client);
    var s2 := FinishStore(handler, req, s1, Server);
    FromTransitive(handler, req, s, s1, s2);
    t := FinishRearm(handler, req, s2, h);
    FromTransitive(handler, req, s, s2, t);
  }

  // ---- confirming one slot: retransmit, accept, store, acknowledge

  ghost predicate Settled(s: State, h: Host) {
    s.client.rcv.storing.None? && s.server.rcv.storing.None? && EndpointOf(s, h).snd.resending.None?
  }

  /** h may retransmit to its peer: the server only while connected. */
  predicate MayConfirm(s: State, h: Host, i: nat) {
    !s.serverMain.Ended? && i in EndpointOf(s, h).snd.window && (h == Server ==> s.connected)
  }

  /** The packet in slot i of h, as it travels. */
  function Copy(s: State, h: Host, i: nat): Datagram
    requires i in EndpointOf(s, h).snd.window
  {
    Datagram(h, OtherHost(h), EndpointOf(s, h).snd.window[i].packet)
  }

  /** An unacknowledged slot has its timer running or a tick waiting. */
  lemma Waiting(handler: Bytes -> Bytes, req: Bytes, s: State, h: Host, i: nat)
    requires s in Live(handler, req) && MayConfirm(s, h, i) && Settled(s, h)
    requires !EndpointOf(s, h).snd.window[i].acked
    ensures PeerOf(s, h).Some?
    ensures CanFire(EndpointOf(s, h).snd, i) || CanResend(EndpointOf(s, h).snd, i)
  {
    assert MainsOk(handler, req, s);
    assert SlotsOk(MessageOf(handler, req, h), EndpointOf(s, h).snd);
  }

  lemma Expire(handler: Bytes -> Bytes, req: Bytes, s: State, h: Host, i: nat) returns (t: State)
    requires s in Live(handler, req) && MayConfirm(s, h, i) && Settled(s, h)
    requires !EndpointOf(s, h).snd.window[i].acked
    ensures t in From(handler, req, s) && MainsStay(s, t) && Settled(t, h) && CanRetransmit(t, h, i)
  {
    Waiting(handler, req, s, h, i);
    FromSelf(handler, req, s);
    t := s;
    if CanFire(EndpointOf(s, h).snd, i) {
      t := DoTick(s, h, i);
      Act(handler, req, s, s, Tick(h, i));
    }
  }

  /** A copy of the packet is under way and the retransmission goroutine is back at its loop. */
  lemma Resent(handler: Bytes -> Bytes, req: Bytes, s: State, h: Host, i: nat) returns (t: State)
    requires s in Live(handler, req) && MayConfirm(s, h, i) && Settled(s, h) && CanRetransmit(s, h, i)
    ensures t in From(handler, req, s) && MainsStay(s, t) && Settled(t, h) && MayConfirm(t, h, i)
    ensures Copy(t, h, i) in t.net
  {
    FromSelf(handler, req, s);
    var s1 := DoRetransmit(s, h, i);
    Act(handler, req, s, s, Retransmit(h, i));
    assert Copy(s1, h, i) in s1.net by {
      assert MainsOk(handler, req, s);
    }
    t := FinishRearm(handler, req, s1, h);
    FromTransitive(handler, req, s, s1, t);
    assert t.net == s1.net;
  }

  /** The peer has stored the packet and its acknowledgement is under way. */
  lemma Accepted(handler: Bytes -> Bytes, req: Bytes, s: State, h: Host, i: nat) returns (t: State)
    requires s in Live(handler, req) && Sized(handler, req) && MayConfirm(s, h, i) && Settled(s, h)
    requires Copy(s, h, i) in s.net
    ensures t in From(handler, req, s) && MainsStay(s, t) && Settled(t, h) && MayConfirm(t, h, i)
    ensures i in EndpointOf(t, OtherHost(h)).rcv.window
    ensures Datagram(OtherHost(h), h, Packet(ACK, i, [])) in t.net
  {
    var d := Copy(s, h, i);
    assert d.packet == PacketAt(MessageOf(handler, req, h), i);
    FromSelf(handler, req, s);
    var s1 := DoReceive(s, d);
    assert s1 == AckAndHold(Take(s, d), d);
    Act(handler, req, s, s, Receive(d));
    t := FinishStore(handler, req, s1, OtherHost(h));
    FromTransitive(handler, req, s, s1, t);
    assert t.net == s1.net;
  }

  /** A taken acknowledgement changes one slot. */
  lemma AckReceived(s: State, d: Datagram)
    requires CanReceive(s, d) && d.packet.kind == ACK && d.packet.seqNum != 0
    requires d.packet.seqNum < WINDOW_SIZE && d.packet.seqNum in EndpointOf(s, d.dst).snd.window
    ensures DoReceive(s, d) == WithSender(Take(s, d), d.dst, AckSlot(EndpointOf(s, d.dst).snd, d.packet.seqNum))
  {
  }

  /** h has taken the acknowledgement. */
  lemma AckTaken(handler: Bytes -> Bytes, req: Bytes, s: State, h: Host, i: nat) returns (t: State)
    requires s in Live(handler, req) && MayConfirm(s, h, i) && Settled(s, h) && i != 0
    requires Datagram(OtherHost(h), h, Packet(ACK, i, [])) in s.net
    ensures t in From(handler, req, s) && MainsStay(s, t)
    ensures i in EndpointOf(t, h).snd.window && EndpointOf(t, h).snd.window[i].acked
  {
    var d := Datagram(OtherHost(h), h, Packet(ACK, i, []));
    FromSelf(handler, req, s);
    assert i < WINDOW_SIZE;
    t := DoReceive(s, d);
    AckReceived(s, d);
    Act(handler, req, s, s, Receive(d));
  }

  /** Slot i of h is acknowledged and its packet is in the peer's window. */
  ghost predicate Confirmed(s: State, h: Host, i: nat) {
    && i in EndpointOf(s, h).snd.window && EndpointOf(s, h).snd.window[i].acked
    && i in EndpointOf(s, OtherHost(h)).rcv.window
  }

  lemma ConfirmedStays(s: State, t: State, h: Host, i: nat)
    requires Grown(s, t) && !t.serverMain.Ended? && Confirmed(s, h, i)
    ensures Confirmed(t, h, i)
  {
  }

  lemma ConfirmFresh(handler: Bytes -> Bytes, req: Bytes, s: State, h: Host, i: nat) returns (t: State)
    requires s in Live(handler, req) && Sized(handler, req) && MayConfirm(s, h, i) && Settled(s, h) && i != 0
    requires !EndpointOf(s, h).snd.window[i].acked
    ensures t in From(handler, req, s) && MainsStay(s, t) && Confirmed(t, h, i)
  {
    var s1 := Expire(handler, req, s, h, i);
    var s2 := Resent(handler, req, s1, h, i);
    FromTransitive(handler, req, s, s1, s2);
    var s3 := Accepted(handler, req, s2, h, i);
    FromTransitive(handler, req, s, s2, s3);
    t := AckTaken(handler, req, s3, h, i);
    FromTransitive(handler, req, s, s3, t);
    assert Grown(s3, t);
  }

  lemma Confirm(handler: Bytes -> Bytes, req: Bytes, s: State, h: Host, i: nat) returns (t: State)
    requires s in Live(handler, req) && Sized(handler, req) && MayConfirm(s, h, i) && i != 0
    ensures t in From(handler, req, s) && MainsStay(s, t) && Confirmed(t, h, i)
  {
    var s1 := Settle(handler, req, s, h);
    assert Grown(s, s1);
    if EndpointOf(s1, h).snd.window[i].acked {
      t := s1;
      assert Holds(EndpointOf(s1, OtherHost(h)).rcv, i);
    } else {
      t := ConfirmFresh(handler, req, s1, h, i);
      FromTransitive(handler, req, s, s1, t);
    }
  }

  ghost predicate ConfirmedUpTo(s: State, h: Host, k: nat) {
    forall i :: 1 <= i <= k ==> Confirmed(s, h, i)
  }

  lemma ConfirmedUpToStays(s: State, t: State, h: Host, k: nat)
    requires Grown(s, t) && !t.serverMain.Ended? && ConfirmedUpTo(s, h, k)
    ensures ConfirmedUpTo(t, h, k)
    ensures Confirmed(t, h, k + 1) ==> ConfirmedUpTo(t, h, k + 1)
  {
    forall i | 1 <= i <= k
      ensures Confirmed(t, h, i)
    {
      ConfirmedStays(s, t, h, i);
    }
  }

  lemma ConfirmNext(handler: Bytes -> Bytes, req: Bytes, s: State, h: Host, k: nat) returns (t: State)
    requires s in Live(handler, req) && Sized(handler, req) && MayConfirm(s, h, k + 1) && ConfirmedUpTo(s, h, k)
    ensures t in From(handler, req, s) && MainsStay(s, t) && ConfirmedUpTo(t, h, k + 1)
  {
    t := Confirm(handler, req, s, h, k + 1);
    assert Grown(s, t);
    ConfirmedUpToStays(s, t, h, k);
  }

  /** Every packet of a message that has been written entirely can be confirmed. */
  lemma {:induction false} ConfirmAll(handler: Bytes -> Bytes, req: Bytes, s: State, h: Host, k: nat) returns (t: State)
    requires s in Live(handler, req) && Sized(handler, req) && !s.serverMain.Ended? && (h == Server ==> s.connected)
    requires EndpointOf(s, h).snd.loop.AllSent? && k <= DeliverSeq(MessageOf(handler, req, h)) && ConfirmedUpTo(s, h, k)
    ensures t in From(handler, req, s) && MainsStay(s, t) && ConfirmedUpTo(t, h, DeliverSeq(MessageOf(handler, req, h)))
    decreases DeliverSeq(MessageOf(handler, req, h)) - k
  {
    t := s;
    FromSelf(handler, req, s);
    if k < DeliverSeq(MessageOf(handler, req, h)) {
      assert k + 1 in EndpointOf(s, h).snd.window by {
        assert SenderOk(MessageOf(handler, req, h), EndpointOf(s, h).snd);
      }
      var s1 := ConfirmNext(handler, req, s, h, k);
      assert EndpointOf(s1, h).snd.loop.AllSent? by {
        assert Grown(s, s1);
      }
      t := ConfirmAll(handler, req, s1, h, k + 1);
      FromTransitive(handler, req, s, s1, t);
    }
  }

  // ---- loops that end

  lemma WriteOne(handler: Bytes -> Bytes, req: Bytes, s: State, h: Host) returns (t: State)
    requires s in Live(handler, req) && CanWrite(s, h)
    ensures t in From(handler, req, s) && MainsStay(s, t) && Running(t, h)
    ensures EndpointOf(t, h).snd.loop.Written? && EndpointOf(t, h).snd.seqNum == EndpointOf(s, h).snd.seqNum
  {
    FromSelf(handler, req, s);
    t := DoWrite(s, h);
    Act(handler, req, s, s, Write(h));
  }

  lemma RegisterOne(handler: Bytes -> Bytes, req: Bytes, s: State, h: Host) returns (t: State)
    requires s in Live(handler, req) && Sized(handler, req) && CanRegister(s, h)
    ensures t in From(handler, req, s) && MainsStay(s, t) && Running(t, h)
    ensures !EndpointOf(t, h).snd.loop.Idle? && EndpointOf(t, h).snd.seqNum == EndpointOf(s, h).snd.seqNum + 1
  {
    RegisterKeepsSender(MessageOf(handler, req, h), EndpointOf(s, h).snd);
    FromSelf(handler, req, s);
    t := DoRegister(s, h);
    Act(handler, req, s, s, Register(h));
  }

  /** The loop of `send` writes and registers the rest of the message. */
  lemma {:induction false} SendAll(handler: Bytes -> Bytes, req: Bytes, s: State, h: Host) returns (t: State)
    requires s in Live(handler, req) && Sized(handler, req) && Running(s, h) && !EndpointOf(s, h).snd.loop.Idle?
    ensures t in From(handler, req, s) && MainsStay(s, t) && EndpointOf(t, h).snd.loop.AllSent?
    decreases 2 * (DeliverSeq(MessageOf(handler, req, h)) + 1 - EndpointOf(s, h).snd.seqNum)
              + (if EndpointOf(s, h).snd.loop.AtLoop? then 1 else 0)
  {
    assert LoopOk(MessageOf(handler, req, h), EndpointOf(s, h).snd);
    if EndpointOf(s, h).snd.loop.AllSent? {
      t := s;
      FromSelf(handler, req, s);
    } else {
      var s1;
      if EndpointOf(s, h).snd.loop.AtLoop? {
        assert PeerOf(s, h).Some? by {
          assert MainsOk(handler, req, s);
        }
        s1 := WriteOne(handler, req, s, h);
      } else {
        s1 := RegisterOne(handler, req, s, h);
      }
      t := SendAll(handler, req, s1, h);
      FromTransitive(handler, req, s, s1, t);
    }
  }

  /** Steps until checkForDeliver returns, once the window is full up to slot d. */
  function Rank(d: nat, c: Checker): nat {
    match c
    case Returned => 0
    case Verifying(_, i, ready) => if ready then i + 1 else i + d + 3
    case Scanning(i) => if i <= d then 2 * d + 3 - i else WINDOW_SIZE + 3 * d + 5 - Min(i, WINDOW_SIZE)
  }

  lemma CheckRank(m: Bytes, hi: int, rcv: Receiver)
    requires ReceiverOk(m, hi, rcv) && Full(m, rcv.window) && Fits(m) && hi <= DeliverSeq(m) && !rcv.checker.Returned?
    ensures Rank(DeliverSeq(m), CheckStep(rcv).checker) < Rank(DeliverSeq(m), rcv.checker)
    ensures CheckStep(rcv).window == rcv.window && CheckStep(rcv).storing == rcv.storing
  {
    assert rcv.window[DeliverSeq(m)] == PacketAt(m, DeliverSeq(m));
  }

  /** checkForDeliver returns once every packet is in the window. */
  lemma {:induction false} CheckAll(handler: Bytes -> Bytes, req: Bytes, s: State, h: Host) returns (t: State)
    requires s in Live(handler, req) && Sized(handler, req) && Running(s, h)
    requires Full(MessageOf(handler, req, OtherHost(h)), EndpointOf(s, h).rcv.window)
    ensures t in From(handler, req, s) && MainsStay(s, t) && EndpointOf(t, h).rcv.checker.Returned?
    decreases Rank(DeliverSeq(MessageOf(handler, req, OtherHost(h))), EndpointOf(s, h).rcv.checker)
  {
    t := s;
    FromSelf(handler, req, s);
    if CanCheck(s, h) {
      var s1 := DoCheck(s, h);
      CheckRank(MessageOf(handler, req, OtherHost(h)), if h == Client then Hi(SessionServer(s).snd) else Hi(s.client.snd),
                EndpointOf(s, h).rcv);
      Act(handler, req, s, s, Check(h));
      t := CheckAll(handler, req, s1, h);
      FromTransitive(handler, req, s, s1, t);
    }
  }

  /** Steps until the blocking loop ends, once every slot is acknowledged. */
  function BlockRank(s: State): nat
    requires s.serverMain.Blocking? && s.serverMain.i <= s.server.snd.seqNum
  {
    s.server.snd.seqNum - s.serverMain.i + (if s.serverMain.blocked then s.server.snd.seqNum + 1 else 0)
  }

  lemma {:induction false} BlockThrough(handler: Bytes -> Bytes, req: Bytes, s: State) returns (t: State)
    requires s in Live(handler, req) && s.serverMain.Blocking? && AllAcked(s.server.snd)
    ensures t in From(handler, req, s) && t.serverMain.Closing? && t.clientMain == s.clientMain
    decreases BlockRank(s)
  {
    var s1 := DoReadAck(s);
    FromSelf(handler, req, s);
    Act(handler, req, s, s, ReadAck);
    t := s1;
    if s1.serverMain.Blocking? {
      t := BlockThrough(handler, req, s1);
      FromTransitive(handler, req, s, s1, t);
    }
  }
}

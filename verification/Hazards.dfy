/** What can go wrong, with the runs that show it: windows overflow, and reset catches goroutines of
    the server in the middle of a step. */
module Hazards {
  import opened Packets
  import opened Chunking
  import opened Endpoints
  import opened Runs
  import opened Protocol
  import opened DataInvariant
  import opened ControlInvariant
  import opened Reachability
  import opened Progress
  import opened Panics
  import opened Scenarios
  import Safety
  import Sessions

  // ---- overflow

  /** A message that does not fit is sent up to the first number beyond the window. */
  lemma SendsTooMuch(handler: Bytes -> Bytes, req: Bytes, net: multiset<Datagram>, s: State, h: Host)
      returns (t: State, a: Action)
    requires s in Reached(handler, req, net) && CanWrite(s, h) && !Fits(MessageOf(handler, req, h))
    requires EndpointOf(s, h).snd.seqNum <= WINDOW_SIZE
    ensures Reachable(handler, req, net, t) && Enabled(t, a) && Overflows(t, a, h)
  {
    var s1 := TurnsTo(handler, req, net, s, h, WINDOW_SIZE);
    t, a := DoWrite(s1, h), Register(h);
    Do(handler, req, net, s1, Write(h));
  }

  lemma OverflowReachable(handler: Bytes -> Bytes, req: Bytes, net: multiset<Datagram>) returns (t: State, a: Action, h: Host)
    requires NoData(net) && !(Fits(req) && Fits(handler(req)))
    ensures Reachable(handler, req, net, t) && Enabled(t, a) && Overflows(t, a, h)
  {
    Begin(handler, req, net);
    if Fits(req) {
      h := Server;
      var s := Answers(handler, req, net, Initial(net));
      t, a := SendsTooMuch(handler, req, net, s, Server);
    } else {
      h := Client;
      var s := Connects(handler, req, net, Initial(net));
      t, a := SendsTooMuch(handler, req, net, s, Client);
    }
  }

  ghost predicate SomeOverflow(handler: Bytes -> Bytes, req: Bytes, net: multiset<Datagram>) {
    exists s, a, h :: Reachable(handler, req, net, s) && Enabled(s, a) && Overflows(s, a, h)
  }

  /** Some run indexes past a window if and only if the request or the response is too long. */
  lemma OverflowsExactly(handler: Bytes -> Bytes, req: Bytes, net: multiset<Datagram>)
    requires OnlySyns(net)
    ensures SomeOverflow(handler, req, net) <==> |req| > 1022 * 1013 || |handler(req)| > 1022 * 1013
  {
    CapacityExact(req);
    CapacityExact(handler(req));
    if Fits(req) && Fits(handler(req)) {
      forall s, a, h | Reachable(handler, req, net, s) && Enabled(s, a)
        ensures !Overflows(s, a, h)
      {
        FittingNeverOverflows(handler, req, net, s, a, h);
      }
    } else {
      var s, a, h := OverflowReachable(handler, req, net);
    }
  }

  // ---- reset in the middle of a step

  lemma MidResendShape(handler: Bytes -> Bytes, req: Bytes, s: State, s1: State, s2: State, t: State)
    requires Answering(handler, req, s) && Passed(s, s1, Server)
    requires 1 in s1.server.snd.window && CanFire(s1.server.snd, 1)
    requires s2 == WithSender(s1, Server, Fire(s1.server.snd, 1).(resending := Some(1))).(net := s2.net)
    requires t == s2.(server := s2.server.(snd := AckSlot(s2.server.snd, 1)), net := t.net)
    ensures Ready(t) && t.server.snd.resending.Some? && AllAcked(t.server.snd) && t.client.snd == s.client.snd
    ensures t.server.snd.loop == s1.server.snd.loop
  {
  }

  /** The first response packet is acknowledged while its retransmission waits to rearm its timer. */
  lemma FirstInMidResend(handler: Bytes -> Bytes, req: Bytes, net: multiset<Datagram>, s: State) returns (t: State)
    requires s in Reached(handler, req, net) && Answering(handler, req, s)
    ensures t in Reached(handler, req, net) && Ready(t) && t.server.snd.resending.Some? && AllAcked(t.server.snd)
    ensures AtNumber(handler(req), t.server.snd, 2) && t.client.snd == s.client.snd
  {
    var s1 := Passes(handler, req, net, s, Server);
    var s2 := Retransmits(handler, req, net, s1, Server, 1);
    t := AckComes(handler, req, net, s2, AckTo(Server, 1));
    MidResendShape(handler, req, s, s1, s2, t);
    AtNumberHolds(handler(req), t.server.snd);
  }

  /** Packet 1 is registered and unacknowledged, and no resend is in the middle of its step. */
  predicate FirstWaits(snd: Sender) {
    && 1 in snd.window && 1 < snd.seqNum && snd.resending.None?
    && !snd.window[1].acked && snd.window[1].timer == Armed
  }

  lemma HoldsShape(s: State, t: State, d: Datagram)
    requires CanReceive(s, d) && d.dst == Server && Storable(d.packet) && t == DoReceive(s, d)
    ensures t.server.rcv.storing.Some? && t.server == s.server.(rcv := t.server.rcv)
    ensures t.client == s.client && t.serverMain == s.serverMain
  {
    assert t == AckAndHold(Take(s, d), d);
  }

  /** The server takes a repeated first packet of the request, acknowledges it, and has yet to save it. */
  lemma HoldsRepeat(handler: Bytes -> Bytes, req: Bytes, net: multiset<Datagram>, s: State) returns (t: State)
    requires s in Reached(handler, req, net) && Ready(s) && FirstWaits(s.client.snd)
    ensures t in Reached(handler, req, net) && t.server.rcv.storing.Some?
    ensures t.server == s.server.(rcv := t.server.rcv) && t.client.alive && t.serverMain == s.serverMain
  {
    var s1 := Retransmits(handler, req, net, s, Client, 1);
    var d := Datagram(Client, Server, s.client.snd.window[1].packet);
    assert Storable(d.packet) by {
      assert SenderOk(req, s.client.snd);
    }
    t := DoReceive(s1, d);
    HoldsShape(s1, t, d);
    Do(handler, req, net, s1, Receive(d));
  }

  /** All of the response is acknowledged, and both goroutines are in the middle of a step. */
  lemma BothInMidStep(handler: Bytes -> Bytes, req: Bytes, net: multiset<Datagram>) returns (t: State)
    requires NoData(net) && Fits(req) && Fits(handler(req))
    ensures t in Reached(handler, req, net) && t.serverMain.Responding? && t.client.alive && t.server.alive
    ensures AllAcked(t.server.snd) && t.server.snd.loop.AllSent?
    ensures t.server.rcv.storing.Some? && t.server.snd.resending.Some?
  {
    Begin(handler, req, net);
    var s1 := Answers(handler, req, net, Initial(net));
    var s2 := FirstInMidResend(handler, req, net, s1);
    var s3 := RespondsTo(handler, req, net, s2, DeliverSeq(handler(req)) + 1);
    t := HoldsRepeat(handler, req, net, s3);
  }

  /** In every session whose messages fit, reset can catch both goroutines of the server at once: the
      retransmission goroutine between its write and its timer, the receive goroutine between its
      acknowledgement and its save. The next move of the first one kills the server. */
  lemma ResetCatchesBoth(handler: Bytes -> Bytes, req: Bytes, net: multiset<Datagram>) returns (t: State)
    requires NoData(net) && Fits(req) && Fits(handler(req))
    ensures Reachable(handler, req, net, t) && t.serverMain.Ended? && t.client.alive && t.server.alive
    ensures t.server.rcv.storing.Some? && t.server.snd.resending.Some?
    ensures Enabled(t, RearmTimer(Server)) && Dies(handler, req, t, RearmTimer(Server), Server)
  {
    var s := BothInMidStep(handler, req, net);
    t := Ends(handler, req, net, s);
  }

  /** The packet reset caught belongs to the old session: the new one starts with bytes its client
      never wrote, so no session may follow such a reset. */
  lemma CaughtPacketEntersNextSession(handler: Bytes -> Bytes, req: Bytes, net: multiset<Datagram>) returns (t: State)
    requires NoData(net) && Fits(req) && Fits(handler(req))
    ensures Reachable(handler, req, net, t) && t.serverMain.Ended? && Sessions.CaughtMidStep(t)
    ensures var next := Sessions.NextSession(t);
            && CanStore(next, Server) && !Safety.Agree(next.client.snd, SessionServer(next).rcv)
  {
    t := ResetCatchesBoth(handler, req, net);
  }
}

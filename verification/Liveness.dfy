/** No session gets stuck: from every reachable state in which both programs are alive, some finite
    run of enabled actions completes it. */
module Liveness {
  import opened Packets
  import opened Chunking
  import opened Endpoints
  import opened Protocol
  import opened DataInvariant
  import opened ControlInvariant
  import opened Reachability
  import opened Monotone
  import opened Progress

  /** The server has reset and the client has its response. */
  predicate Complete(s: State) {
    s.serverMain.Ended? && s.clientMain.Got?
  }

  // ---- the handshake

  /** A SYN, sent again if need be, reaches the server's main goroutine. */
  lemma SynArrives(handler: Bytes -> Bytes, req: Bytes, s: State) returns (t: State)
    requires s in Live(handler, req) && Sized(handler, req) && s.serverMain.Listening? && s.clientMain.Dialing?
    requires Settled(s, Client)
    ensures t in From(handler, req, s) && t.serverMain.Listening? && t.synChannel.Some?
  {
    FromSelf(handler, req, s);
    var s1 := DoSendSyn(s);
    Act(handler, req, s, s, SendSyn);
    var syn := Datagram(Client, Server, Packet(SYN, s.client.snd.seqNum, []));
    t := DoReceive(s1, syn);
    Act(handler, req, s, s1, Receive(syn));
  }

  lemma ServerHearsSyn(handler: Bytes -> Bytes, req: Bytes, s: State) returns (t: State)
    requires s in Live(handler, req) && Sized(handler, req) && s.serverMain.Listening?
    ensures t in From(handler, req, s) && t.serverMain.Replying?
  {
    FromSelf(handler, req, s);
    var s1 := s;
    if s.synChannel.None? {
      var s2 := Settle(handler, req, s, Client);
      var s3 := s2;
      if s2.clientMain.AwaitingSynAck? {
        s3 := s2.(clientMain := Dialing);
        Act(handler, req, s, s2, SynTimeout);
      }
      assert s3.clientMain.Dialing? by {
        assert StagesOk(s2) && MainsOk(handler, req, s2);
      }
      s1 := SynArrives(handler, req, s3);
      FromTransitive(handler, req, s, s3, s1);
    }
    t := DoTakeSyn(s1);
    Act(handler, req, s, s1, TakeSyn);
  }

  /** A SYNACK, sent again if need be, reaches the client's receive goroutine, which answers. */
  lemma SynAckArrives(handler: Bytes -> Bytes, req: Bytes, s: State) returns (t: State)
    requires s in Live(handler, req) && s.serverMain.Replying? && Settled(s, Client)
    ensures t in From(handler, req, s) && t.serverMain.AwaitingAck? && !t.connected && t.server.rcv.storing.None?
    ensures Datagram(Client, Server, Packet(ACK, 0, [])) in t.net
  {
    FromSelf(handler, req, s);
    assert s.clientAddr == Some(Client) && s.server.snd.seqNum == 0 && !s.connected by {
      assert MainsOk(handler, req, s) && StagesOk(s);
    }
    var s1 := DoSendSynAck(s);
    Act(handler, req, s, s, SendSynAck);
    var synAck := Datagram(Server, Client, Packet(SYNACK, 0, []));
    t := DoReceive(s1, synAck);
    Act(handler, req, s, s1, Receive(synAck));
  }

  lemma SynAckAnswered(handler: Bytes -> Bytes, req: Bytes, s: State) returns (t: State)
    requires s in Live(handler, req) && s.serverMain.Replying? && Settled(s, Client)
    ensures t in From(handler, req, s) && t.serverMain.AwaitingAck? && t.ackChannel
  {
    var s1 := SynAckArrives(handler, req, s);
    var ack := Datagram(Client, Server, Packet(ACK, 0, []));
    t := DoReceive(s1, ack);
    assert t == Take(s1, ack).(ackChannel := true);
    Act(handler, req, s, s1, Receive(ack));
  }

  lemma ServerConnects(handler: Bytes -> Bytes, req: Bytes, s: State) returns (t: State)
    requires s in Live(handler, req) && Sized(handler, req) && ServerStage(s.serverMain) == 1
    ensures t in From(handler, req, s) && t.serverMain.AwaitingRequest?
  {
    var s1 := Settle(handler, req, s, Client);
    var s2 := s1;
    if s1.serverMain.AwaitingAck? {
      s2 := s1.(serverMain := Replying);
      Act(handler, req, s, s1, SynAckTimeout);
    }
    var s3 := SynAckAnswered(handler, req, s2);
    FromTransitive(handler, req, s, s2, s3);
    t := DoTakeAck(s3);
    Act(handler, req, s, s3, TakeAck);
  }

  lemma ClientConnects(handler: Bytes -> Bytes, req: Bytes, s: State) returns (t: State)
    requires s in Live(handler, req) && ServerStage(s.serverMain) >= 2 && ClientStage(s.clientMain) == 0
    ensures t in From(handler, req, s) && t.clientMain.Exchanging?
  {
    FromSelf(handler, req, s);
    assert s.synAckChannel by {
      assert StagesOk(s) && MainsOk(handler, req, s);
    }
    var s1 := s;
    if s.clientMain.Dialing? {
      s1 := DoSendSyn(s);
      Act(handler, req, s, s, SendSyn);
    }
    t := DoTakeSynAck(req, s1);
    Act(handler, req, s, s1, TakeSynAck);
  }

  lemma Handshake(handler: Bytes -> Bytes, req: Bytes, s: State) returns (t: State)
    requires s in Live(handler, req) && Sized(handler, req)
    ensures t in From(handler, req, s) && ServerStage(t.serverMain) >= 2 && ClientStage(t.clientMain) >= 1
  {
    FromSelf(handler, req, s);
    t := s;
    if t.serverMain.Listening? {
      t := ServerHearsSyn(handler, req, s);
    }
    if ServerStage(t.serverMain) == 1 {
      var u := ServerConnects(handler, req, t);
      FromTransitive(handler, req, s, t, u);
      t := u;
    }
    if ClientStage(t.clientMain) == 0 {
      var u := ClientConnects(handler, req, t);
      FromTransitive(handler, req, s, t, u);
      assert Grown(t, u);
      t := u;
    }
  }

  // ---- the request

  lemma RequestArrives(handler: Bytes -> Bytes, req: Bytes, s: State) returns (t: State)
    requires s in Live(handler, req) && Sized(handler, req)
    requires s.serverMain.AwaitingRequest? && ClientStage(s.clientMain) >= 1
    ensures t in From(handler, req, s) && MainsStay(s, t) && t.server.rcv.checker.Returned?
  {
    assert !s.client.snd.loop.Idle? by {
      assert MainsOk(handler, req, s);
    }
    var s1 := SendAll(handler, req, s, Client);
    var s2 := ConfirmAll(handler, req, s1, Client, 0);
    FromTransitive(handler, req, s, s1, s2);
    assert Full(req, s2.server.rcv.window) by {
      forall j | 1 <= j <= DeliverSeq(req)
        ensures j in s2.server.rcv.window
      {
        assert Confirmed(s2, Client, j);
      }
    }
    t := CheckAll(handler, req, s2, Server);
    FromTransitive(handler, req, s, s2, t);
  }

  lemma RequestHandled(handler: Bytes -> Bytes, req: Bytes, s: State) returns (t: State)
    requires s in Live(handler, req) && Sized(handler, req)
    requires s.serverMain.AwaitingRequest? && ClientStage(s.clientMain) >= 1
    ensures t in From(handler, req, s) && t.serverMain.Responding? && t.clientMain == s.clientMain
  {
    var s1 := RequestArrives(handler, req, s);
    assert s1.server.rcv.token by {
      assert ServerMainOk(req, s1.serverMain, s1.server, s1.handled);
    }
    GatherGivesMessage(req, Hi(s1.client.snd), s1.server.rcv);
    t := DoTakeRequest(handler, s1);
    Act(handler, req, s, s1, TakeRequest);
  }

  // ---- the response

  lemma ResponseConfirmed(handler: Bytes -> Bytes, req: Bytes, s: State) returns (t: State)
    requires s in Live(handler, req) && Sized(handler, req) && (s.serverMain.Responding? || s.serverMain.Blocking?)
    ensures t in From(handler, req, s) && MainsStay(s, t) && t.server.snd.loop.AllSent? && AllAcked(t.server.snd)
  {
    assert s.connected && !s.server.snd.loop.Idle? by {
      assert StagesOk(s) && MainsOk(handler, req, s);
    }
    var s1 := SendAll(handler, req, s, Server);
    t := ConfirmAll(handler, req, s1, Server, 0);
    FromTransitive(handler, req, s, s1, t);
    assert t.server.snd.loop.AllSent? by {
      assert Grown(s1, t);
    }
    forall i | i in t.server.snd.window
      ensures t.server.snd.window[i].acked
    {
      assert SenderOk(handler(req), t.server.snd);
      assert Confirmed(t, Server, i);
    }
  }

  lemma ServerEnds(handler: Bytes -> Bytes, req: Bytes, s: State) returns (t: State)
    requires s in Live(handler, req) && Sized(handler, req) && ServerStage(s.serverMain) >= 3
    ensures t in From(handler, req, s) && t.serverMain.Ended?
  {
    FromSelf(handler, req, s);
    t := s;
    if s.serverMain.Responding? || s.serverMain.Blocking? {
      var s1 := ResponseConfirmed(handler, req, s);
      var s2 := s1;
      if s1.serverMain.Responding? {
        s2 := s1.(serverMain := Blocking(0, false));
        Act(handler, req, s, s1, StartBlocking);
      }
      t := BlockThrough(handler, req, s2);
      FromTransitive(handler, req, s, s2, t);
    }
    if t.serverMain.Closing? {
      var u := DoReset(t);
      Act(handler, req, s, t, Reset);
      t := u;
    }
  }

  /** What the server waited for is in the client's window once its receive goroutine is idle. */
  lemma ResponseArrives(handler: Bytes -> Bytes, req: Bytes, s: State) returns (t: State)
    requires s in Live(handler, req) && Sized(handler, req) && s.serverMain.Ended? && s.clientMain.Exchanging?
    ensures t in From(handler, req, s) && MainsStay(s, t) && t.client.rcv.checker.Returned?
  {
    var s1 := FinishStore(handler, req, s, Client);
    assert Full(handler(req), s1.client.rcv.window) by {
      forall j | 1 <= j <= DeliverSeq(handler(req))
        ensures j in s1.client.rcv.window
      {
        assert SenderOk(handler(req), SessionServer(s1).snd) && ScanOk(s1.serverMain, SessionServer(s1).snd);
        assert j in SessionServer(s1).snd.window;
        assert Holds(s1.client.rcv, j);
      }
    }
    t := CheckAll(handler, req, s1, Client);
    FromTransitive(handler, req, s, s1, t);
  }

  lemma ClientGets(handler: Bytes -> Bytes, req: Bytes, s: State) returns (t: State)
    requires s in Live(handler, req) && Sized(handler, req) && s.serverMain.Ended? && ClientStage(s.clientMain) >= 1
    ensures t in From(handler, req, s) && Complete(t)
  {
    FromSelf(handler, req, s);
    t := s;
    if s.clientMain.Exchanging? {
      var s1 := ResponseArrives(handler, req, s);
      assert !s1.client.snd.loop.Idle? by {
        assert MainsOk(handler, req, s1);
      }
      var s2 := SendAll(handler, req, s1, Client);
      FromTransitive(handler, req, s, s1, s2);
      assert s2.client.rcv.checker.Returned? && s2.client.rcv.token by {
        assert Grown(s1, s2) && MainsOk(handler, req, s2);
      }
      GatherGivesMessage(handler(req), Hi(SessionServer(s2).snd), s2.client.rcv);
      t := DoTakeResponse(s2);
      Act(handler, req, s, s2, TakeResponse);
    }
  }

  // ---- the whole session

  lemma CompletesFrom(handler: Bytes -> Bytes, req: Bytes, s: State) returns (t: State)
    requires s in Live(handler, req) && Sized(handler, req)
    ensures t in From(handler, req, s) && Complete(t)
  {
    var s1 := Handshake(handler, req, s);
    var s2 := s1;
    if s1.serverMain.AwaitingRequest? {
      s2 := RequestHandled(handler, req, s1);
      FromTransitive(handler, req, s, s1, s2);
    }
    var s3 := ServerEnds(handler, req, s2);
    FromTransitive(handler, req, s, s2, s3);
    assert ClientStage(s3.clientMain) >= 1 by {
      assert Grown(s2, s3);
    }
    t := ClientGets(handler, req, s3);
    FromTransitive(handler, req, s, s3, t);
  }

  /** From every reachable state of a session whose messages fit the windows, with both programs
      alive, a finite run completes it without a panic: the server has handled exactly the request
      and reset, and the client has returned exactly the response. */
  lemma NoStuckState(handler: Bytes -> Bytes, req: Bytes, net: multiset<Datagram>, s: State)
    requires OnlySyns(net) && Reachable(handler, req, net, s) && s.client.alive && s.server.alive
    requires Fits(req) && Fits(handler(req))
    ensures exists t :: && Reaches(handler, req, s, t) && Complete(t) && t.client.alive && t.server.alive
                        && t.handled == [req] && t.clientMain == Got(handler(req))
  {
    InvReachable(handler, req, net, s);
    var t := CompletesFrom(handler, req, s);
    assert MainsOk(handler, req, t);
  }

  /** A session can be completed at all if and only if both messages fit their windows. */
  lemma CompletesExactlyWhenFits(handler: Bytes -> Bytes, req: Bytes, net: multiset<Datagram>)
    requires OnlySyns(net)
    ensures (exists t :: Reachable(handler, req, net, t) && Complete(t))
            <==> |req| <= 1022 * 1013 && |handler(req)| <= 1022 * 1013
  {
    CapacityExact(req);
    CapacityExact(handler(req));
    if t :| Reachable(handler, req, net, t) && Complete(t) {
      CompleteFits(handler, req, net, t);
    }
    if Fits(req) && Fits(handler(req)) {
      Stay(handler, req, Initial(net));
      NoStuckState(handler, req, net, Initial(net));
    }
  }

  lemma CompleteFits(handler: Bytes -> Bytes, req: Bytes, net: multiset<Datagram>, t: State)
    requires OnlySyns(net) && Reachable(handler, req, net, t) && Complete(t)
    ensures Fits(req) && Fits(handler(req))
  {
    InvReachable(handler, req, net, t);
    assert ReceiverOk(req, Hi(t.client.snd), SessionServer(t).rcv) && ReceiverOk(handler(req), Hi(SessionServer(t).snd), t.client.rcv);
    assert MainsOk(handler, req, t);
    assert DeliverSeq(req) in SessionServer(t).rcv.window && DeliverSeq(handler(req)) in t.client.rcv.window;
  }
}

/** The transition system's datagrams as bytes: whatever is under way survives the codecs. */
module Transport {
  import opened Packets
  import opened Chunking
  import opened Endpoints
  import opened Codec
  import opened Protocol
  import opened DataInvariant
  import opened ControlInvariant
  import opened Reachability

  /** Neither address is rewritten on the way: the hosts share one address, or use no loopback. */
  predicate Placed(place: Host -> Addr) {
    place(Client).ip == place(Server).ip || (!IsLoopback(place(Client).ip) && !IsLoopback(place(Server).ip))
  }

  /** No number beyond the window size is ever written to a socket. */
  lemma NumbersStaySmall(m: Bytes, snd: Sender)
    requires SenderOk(m, snd)
    ensures snd.seqNum <= WINDOW_SIZE && Hi(snd) <= WINDOW_SIZE
  {
    if snd.seqNum > 1 {
      assert snd.seqNum - 1 in snd.window;
    }
  }

  lemma PacketIsSmall(handler: Bytes -> Bytes, req: Bytes, net: multiset<Datagram>, s: State, d: Datagram)
    requires OnlySyns(net) && Reachable(handler, req, net, s) && d in s.net
    ensures d.packet.seqNum <= WINDOW_SIZE && |d.packet.payload| <= MAX_PAYLOAD
  {
    InvReachable(handler, req, net, s);
    assert DatagramOk(handler, req, s, d) && ControlDatagramOk(s, d);
    NumbersStaySmall(req, s.client.snd);
    NumbersStaySmall(handler(req), SessionServer(s).snd);
    ChunksPartition(req);
    ChunksPartition(handler(req));
  }

  /** Every datagram of every run, laid out by its sender, is accepted by the router, sent to the
      host it was meant for, and parsed there to the same type, number and payload with the true
      sender as FromAddr. */
  lemma EveryDatagramTravels(handler: Bytes -> Bytes, req: Bytes, net: multiset<Datagram>, s: State, d: Datagram,
                             place: Host -> Addr)
    requires OnlySyns(net) && Reachable(handler, req, net, s) && d in s.net && Placed(place)
    ensures d.packet.seqNum < 0x1_0000_0000
    ensures var f := Fields(d.packet.kind, d.packet.seqNum, place(d.dst), d.packet.payload);
            var out := Forward(place(d.src), Layout(f));
            && out.Ok? && out.value.to == place(d.dst)
            && Parsed(out.value.raw) == Ok(f.(peer := place(d.src)))
  {
    PacketIsSmall(handler, req, net, s, d);
    ThroughRouter(Fields(d.packet.kind, d.packet.seqNum, place(d.dst), d.packet.payload), place(d.src));
    InvReachable(handler, req, net, s);
    assert DatagramOk(handler, req, s, d);
  }
}

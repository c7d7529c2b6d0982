/** What every reachable state keeps about acknowledgements and the handshake, provided no stray
    control packet was under way when the session began: an acknowledgement means receipt, and
    each handshake packet has its cause. */
module ControlInvariant {
  import opened Packets
  import opened Chunking
  import opened Endpoints
  import opened Protocol
  import opened DataInvariant

  /** The packet numbered i is in the window, or the receive goroutine is about to put it there. */
  predicate Holds(rcv: Receiver, i: nat) {
    i in rcv.window || (rcv.storing.Some? && rcv.storing.value.seqNum == i)
  }

  ghost predicate AckedOk(snd: Sender, rcv: Receiver) {
    forall i :: i in snd.window && snd.window[i].acked ==> Holds(rcv, i)
  }

  ghost predicate AllAcked(snd: Sender) {
    forall i :: i in snd.window ==> snd.window[i].acked
  }

  /** The server's main goroutine has taken a SYN. */
  predicate TookSyn(s: State) {
    !s.serverMain.Listening?
  }

  /** The client's receive goroutine has handled a SYNACK. */
  predicate GotSynAck(s: State) {
    s.synAckChannel || !s.client.snd.loop.Idle?
  }

  predicate Established(main: ServerMain) {
    !main.Listening? && !main.Replying? && !main.AwaitingAck?
  }

  ghost predicate ControlDatagramOk(s: State, d: Datagram) {
    var (kind, seqNum) := (d.packet.kind, d.packet.seqNum);
    || Storable(d.packet)
    || (d.packet.payload == []
        && (|| (kind == SYN && d.dst == Server && seqNum == 0)
            || (kind == SYNACK && d.dst == Client && seqNum == 0 && TookSyn(s))
            || (kind == ACK && seqNum == 0 && d.dst == Server && GotSynAck(s))
            || (kind == ACK && seqNum != 0
                && Holds(if d.dst == Server then s.client.rcv else SessionServer(s).rcv, seqNum))))
  }

  /** What the blocking loop knows: the slots it has read while `blocked` is false are acknowledged. */
  ghost predicate ScanOk(main: ServerMain, snd: Sender) {
    match main
    case Blocking(i, blocked) =>
      i <= snd.seqNum && (blocked || forall j :: j < i && j in snd.window ==> snd.window[j].acked)
    case Closing => AllAcked(snd)
    case Ended => AllAcked(snd)
    case _ => true
  }

  ghost predicate StagesOk(s: State) {
    && (GotSynAck(s) ==> TookSyn(s))
    && (s.ackChannel || Established(s.serverMain) ==> GotSynAck(s))
    && (s.connected <==> s.serverMain.AwaitingRequest? || s.serverMain.Responding? || s.serverMain.Blocking?)
  }

  ghost predicate ControlInv(s: State) {
    && AckedOk(s.client.snd, SessionServer(s).rcv)
    && AckedOk(SessionServer(s).snd, s.client.rcv)
    && ScanOk(s.serverMain, SessionServer(s).snd)
    && StagesOk(s)
    && (forall d :: d in s.net ==> ControlDatagramOk(s, d))
  }

  ghost predicate Inv(handler: Bytes -> Bytes, req: Bytes, s: State) {
    DataInv(handler, req, s) && ControlInv(s)
  }
}

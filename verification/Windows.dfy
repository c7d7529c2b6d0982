/** The two windows and their loops, as the Go structs HttpClient and HttpServer both declare them:
    mutable arrays updated in place. What a method computes is given by the step functions of module
    Endpoints, taken once or one after another; FindDeliver, ReadyUpTo and Blocked are the loops inside
    CheckForDeliver and inside the round that Programs.RoundIsReads describes. */
module Windows {
  import opened Packets
  import opened Chunking
  import opened Endpoints

  /** The packets numbered 1 .. n of message m. */
  function Burst(m: Bytes, n: nat): seq<Packet> {
    if n == 0 then [] else Burst(m, n - 1) + [PacketAt(m, n)]
  }

  /** The sender window after the first n packets of m have been registered. */
  function Registered(slots: map<nat, Slot>, m: Bytes, n: nat): map<nat, Slot> {
    if n == 0 then slots else Registered(slots, m, n - 1)[n := Slot(PacketAt(m, n), false, Armed)]
  }

  /** Whether the retransmission goroutine writes slot i again when it looks. */
  predicate Due(slots: map<nat, Slot>, i: nat) {
    i in slots && !slots[i].acked && slots[i].timer == Fired
  }

  /** The packets one pass over the slots below n writes again, in slot order. */
  function DuePackets(slots: map<nat, Slot>, n: nat): seq<Packet> {
    if n == 0 then [] else DuePackets(slots, n - 1) + (if Due(slots, n - 1) then [slots[n - 1].packet] else [])
  }

  /** The sender window once slot i has its acknowledgement. */
  function Acknowledged(slots: map<nat, Slot>, i: nat): map<nat, Slot>
    requires i in slots
  {
    AckSlot(FRESH_SENDER.(window := slots), i).window
  }

  /** The slot has its acknowledgement and keeps its packet; a first acknowledgement leaves no timer
      running, a second changes nothing; and no other slot is touched. */
  lemma AcknowledgedIs(slots: map<nat, Slot>, i: nat)
    requires i in slots
    ensures var after := Acknowledged(slots, i);
            && after.Keys == slots.Keys
            && after[i].acked && after[i].packet == slots[i].packet
            && (!slots[i].acked ==> after[i].timer != Armed)
            && (slots[i].acked ==> after == slots)
            && (forall j :: j in slots && j != i ==> after[j] == slots[j])
  {
  }

  /** The receiver window after an attempt to store p: what is there stays. */
  function Stored(slots: map<nat, Packet>, p: Packet): map<nat, Packet> {
    if p.seqNum in slots then slots else slots[p.seqNum := p]
  }

  /** The slots after that pass. */
  function Rearmed(slots: map<nat, Slot>, n: nat): map<nat, Slot> {
    map i | i in slots :: if i < n && Due(slots, i) then slots[i].(timer := Armed) else slots[i]
  }

  function Prepend(head: Bytes, tail: Option<Bytes>): Option<Bytes> {
    match tail
    case None => None
    case Some(rest) => Some(head + rest)
  }

  lemma PrependJoins(x: Bytes, y: Bytes, tail: Option<Bytes>)
    ensures Prepend(x + y, tail) == Prepend(x, Prepend(y, tail))
    ensures Prepend([], tail) == tail
  {
    match tail
    case None =>
    case Some(rest) =>
      assert x + (y + rest) == x + y + rest && [] + rest == rest;
  }

  /** These are packets of m, numbered from 1 and in number order. */
  predicate InOrder(packets: seq<Packet>, m: Bytes) {
    forall i :: 0 <= i < |packets| ==> packets[i] == PacketAt(m, i + 1)
  }

  /** The first n packets of a message are exactly the packets numbered 1 to n, in number order. */
  lemma {:induction false} BurstIs(m: Bytes, n: nat)
    ensures |Burst(m, n)| == n && InOrder(Burst(m, n), m)
  {
    if n > 0 {
      BurstIs(m, n - 1);
    }
  }

  /** While bytes remain the number is one of a data packet; then it is that of the DELIVER. */
  lemma NumberAtByte(m: Bytes, seqNum: nat, startByte: nat)
    requires 1 <= seqNum <= DeliverSeq(m) && startByte == MAX_PAYLOAD * (seqNum - 1)
    ensures startByte < |m| <==> seqNum <= ChunkCount(m)
    ensures startByte >= |m| ==> seqNum == DeliverSeq(m)
    ensures NextPacket(seqNum, m, startByte) == PacketAt(m, seqNum)
  {
    NextPacketIsPacketAt(m, seqNum);
  }

  /** Exactly the packets of m numbered 1 to n, in number order. */
  predicate IsBurst(packets: seq<Packet>, m: Bytes, n: nat) {
    |packets| == n && InOrder(packets, m) && packets == Burst(m, n)
  }

  lemma BurstNext(packets: seq<Packet>, m: Bytes, n: nat)
    requires n > 0 && IsBurst(packets, m, n - 1)
    ensures IsBurst(packets + [PacketAt(m, n)], m, n)
  {
  }

  /** A pass writes again the packets of exactly the slots below n that hold an unacknowledged packet
      with a tick waiting. */
  lemma {:induction false} DuePacketsAre(slots: map<nat, Slot>, n: nat, p: Packet)
    ensures p in DuePackets(slots, n)
            <==> exists i :: 0 <= i < n && i in slots && !slots[i].acked && slots[i].timer == Fired && slots[i].packet == p
  {
    if n > 0 {
      DuePacketsAre(slots, n - 1, p);
    }
  }

  // ---- checkForDeliver, read by read

  /** checkForDeliver after n reads of a window nothing is added to. */
  function Checked(r: Receiver, n: nat): Receiver
    decreases n
  {
    if n == 0 || r.checker.Returned? then r else Checked(CheckStep(r), n - 1)
  }

  predicate DeliverIn(window: map<nat, Packet>, i: nat) {
    i in window && window[i].kind == DELIVER
  }

  /** The reads of the first loop, from slot i on, when the lowest DELIVER from there on is in slot d. */
  lemma {:induction false} ScanFinds(r: Receiver, i: nat, d: nat)
    requires r.checker == Scanning(i) && i <= d < WINDOW_SIZE
    requires DeliverIn(r.window, d) && forall j :: i <= j < d ==> !DeliverIn(r.window, j)
    ensures Checked(r, d - i + 1) == r.(checker := Verifying(d, d, true))
    decreases d - i
  {
    if i < d {
      assert !DeliverIn(r.window, i);
      ScanFinds(CheckStep(r), i + 1, d);
    } else {
      assert Checked(CheckStep(r), 0) == CheckStep(r);
    }
  }

  /** The reads of the first loop when there is no DELIVER: it starts again at slot 0. */
  lemma {:induction false} ScanFindsNone(r: Receiver, i: nat)
    requires r.checker == Scanning(i) && i <= WINDOW_SIZE
    requires forall j: nat :: i <= j < WINDOW_SIZE ==> !DeliverIn(r.window, j)
    ensures Checked(r, WINDOW_SIZE - i + 1) == r.(checker := Scanning(0))
    decreases WINDOW_SIZE - i
  {
    if i < WINDOW_SIZE {
      assert !DeliverIn(r.window, i);
      ScanFindsNone(CheckStep(r), i + 1);
    } else {
      assert Checked(CheckStep(r), 0) == CheckStep(r);
    }
  }

  /** Slots 1 .. i are all filled. */
  predicate FilledUpTo(window: map<nat, Packet>, i: nat) {
    forall j :: 1 <= j <= i ==> j in window
  }

  /** The reads of the second loop, from slot i down, and its test. */
  lemma {:induction false} VerifyIsReads(r: Receiver, d: nat, i: nat, ready: bool)
    requires r.checker == Verifying(d, i, ready)
    ensures Checked(r, i + 1)
            == if ready && FilledUpTo(r.window, i) then r.(checker := Returned, token := true)
               else r.(checker := Verifying(d, d, true))
    decreases i
  {
    if i > 0 {
      VerifyIsReads(CheckStep(r), d, i - 1, ready && i in r.window);
    } else {
      assert Checked(CheckStep(r), 0) == CheckStep(r);
    }
  }

  class Peer {
    var seqNum: nat
    var senderWindow: array<Option<Slot>>
    var receiverWindow: array<Option<Packet>>
    var deliveryMessage: bool

    ghost predicate Valid()
      reads this
    {
      senderWindow.Length == WINDOW_SIZE && receiverWindow.Length == WINDOW_SIZE
    }

    ghost function SenderSlots(): map<nat, Slot>
      reads this`senderWindow, senderWindow
    {
      map i: nat | i < senderWindow.Length && senderWindow[i].Some? :: senderWindow[i].value
    }

    ghost function ReceiverSlots(): map<nat, Packet>
      reads this`receiverWindow, receiverWindow
    {
      map i: nat | i < receiverWindow.Length && receiverWindow[i].Some? :: receiverWindow[i].value
    }

    /** The object holds e: its windows, number and token; e's receive goroutine is at its loop. */
    ghost predicate Represents(e: Endpoint)
      reads this, senderWindow, receiverWindow
    {
      && e.snd.seqNum == seqNum && e.snd.window == SenderSlots()
      && e.rcv.window == ReceiverSlots() && e.rcv.token == deliveryMessage && e.rcv.storing.None?
    }

    constructor ()
      ensures Valid() && fresh(senderWindow) && fresh(receiverWindow)
      ensures Represents(FRESH_ENDPOINT)
    {
      seqNum := 0;
      senderWindow := new Option<Slot>[WINDOW_SIZE](_ => None);
      receiverWindow := new Option<Packet>[WINDOW_SIZE](_ => None);
      deliveryMessage := false;
    }

    /** The windows, the channel and the number start over in new arrays. */
    method Reset()
      modifies this
      ensures Valid() && fresh(senderWindow) && fresh(receiverWindow)
      ensures Represents(FRESH_ENDPOINT)
    {
      seqNum := 0;
      senderWindow := new Option<Slot>[WINDOW_SIZE](_ => None);
      receiverWindow := new Option<Packet>[WINDOW_SIZE](_ => None);
      deliveryMessage := false;
    }

    /** sendPacket after its socket write. */
    method SendPacket(p: Packet) returns (panicked: bool)
      requires Valid()
      modifies this`seqNum, senderWindow
      ensures Valid()
      ensures panicked <==> old(seqNum) >= WINDOW_SIZE
      ensures seqNum == (if panicked then old(seqNum) else old(seqNum) + 1)
      ensures SenderSlots() == (if panicked then old(SenderSlots()) else old(SenderSlots())[old(seqNum) := Slot(p, false, Armed)])
    {
      if seqNum >= senderWindow.Length {
        return true;
      }
      senderWindow[seqNum] := Some(Slot(p, false, Armed));
      seqNum := seqNum + 1;
      panicked := false;
    }

    /** The writing part of `send`. It panics exactly when the message is longer than 1022 full
        payloads, after writing the packet numbered 1024; otherwise it has written and registered
        the packets 1 .. DELIVER in order. */
    method Send(req: Bytes) returns (out: seq<Packet>, panicked: bool)
      requires Valid() && seqNum == 1
      modifies this`seqNum, senderWindow
      ensures Valid()
      ensures panicked <==> |req| > 1022 * 1013
      ensures IsBurst(out, req, if panicked then 1024 else DeliverSeq(req))
      ensures seqNum == (if panicked then WINDOW_SIZE else DeliverSeq(req) + 1)
      ensures SenderSlots() == Registered(old(SenderSlots()), req, seqNum - 1)
    {
      out := [];
      var startByte := 0;
      ghost var base := SenderSlots();
      while startByte < |req|
        invariant Valid() && 1 <= seqNum <= DeliverSeq(req) && seqNum <= WINDOW_SIZE
        invariant startByte == MAX_PAYLOAD * (seqNum - 1)
        invariant IsBurst(out, req, seqNum - 1)
        invariant SenderSlots() == Registered(base, req, seqNum - 1)
        decreases |req| - startByte
      {
        NumberAtByte(req, seqNum, startByte);
        var payload;
        if startByte + MAX_PAYLOAD >= |req| {
          payload := req[startByte..];
        } else {
          payload := req[startByte..startByte + MAX_PAYLOAD];
        }
        startByte := startByte + MAX_PAYLOAD;
        var packet := Packet(DATA, seqNum, payload);
        assert packet == PacketAt(req, seqNum);
        BurstNext(out, req, seqNum);
        out := out + [packet];
        panicked := SendPacket(packet);
        if panicked {
          CapacityExact(req);
          return;
        }
      }
      var last := Packet(DELIVER, seqNum, []);
      NumberAtByte(req, seqNum, startByte);
      CapacityExact(req);
      BurstNext(out, req, seqNum);
      out := out + [last];
      panicked := SendPacket(last);
    }

    /** The ACK branch of receive on a slot known to be filled. */
    method Acknowledge(i: nat)
      requires Valid() && i in SenderSlots()
      modifies senderWindow
      ensures Valid()
      ensures SenderSlots() == Acknowledged(old(SenderSlots()), i)
    {
      var e := senderWindow[i].value;
      if !e.acked {
        senderWindow[i] := Some(e.(acked := true, timer := if e.timer == Armed then Stopped else e.timer));
      }
    }

    /** The save in the DATA and DELIVER branch: the first packet stored under a number stays. */
    method Save(p: Packet) returns (panicked: bool)
      requires Valid()
      modifies receiverWindow
      ensures Valid()
      ensures panicked <==> p.seqNum >= WINDOW_SIZE
      ensures ReceiverSlots() == (if panicked then old(ReceiverSlots()) else Stored(old(ReceiverSlots()), p))
    {
      if p.seqNum >= receiverWindow.Length {
        return true;
      }
      if receiverWindow[p.seqNum] == None {
        receiverWindow[p.seqNum] := Some(p);
      }
      panicked := false;
    }

    /** The first loop of checkForDeliver over a window at rest: the lowest DELIVER, or -1. */
    method FindDeliver() returns (d: int)
      requires Valid()
      ensures d == -1 || (0 <= d < WINDOW_SIZE && DeliverIn(ReceiverSlots(), d))
      ensures forall i: nat :: DeliverIn(ReceiverSlots(), i) ==> 0 <= d <= i
    {
      for i := 0 to receiverWindow.Length
        invariant forall j: nat :: j < i ==> !DeliverIn(ReceiverSlots(), j)
      {
        if receiverWindow[i].Some? && receiverWindow[i].value.kind == DELIVER {
          return i;
        }
      }
      d := -1;
    }

    /** The second loop of checkForDeliver over a window at rest: are slots 1 .. d all filled? */
    method ReadyUpTo(d: nat) returns (ready: bool)
      requires Valid() && d < WINDOW_SIZE
      ensures ready <==> FilledUpTo(ReceiverSlots(), d)
    {
      ready := true;
      var i := d;
      while i > 0
        invariant 0 <= i <= d
        invariant ready ==> forall j: nat :: i < j <= d ==> j in ReceiverSlots()
        invariant !ready ==> exists j: nat :: i < j <= d && j !in ReceiverSlots()
      {
        if receiverWindow[i] == None {
          assert i !in ReceiverSlots();
          ready := false;
        }
        i := i - 1;
      }
    }

    /** One turn of checkForDeliver's outer loop over a window at rest: look for the marker while
        it is unknown (-1), and signal when every slot up to it is filled. It does what the single
        reads of the checker of r do, one after another. */
    method CheckForDeliver(deliverSeqNum: int, ghost r: Receiver) returns (next: int, returned: bool)
      requires Valid() && -1 <= deliverSeqNum < WINDOW_SIZE
      requires r.window == ReceiverSlots()
      requires r.checker == if deliverSeqNum == -1 then Scanning(0) else Verifying(deliverSeqNum, deliverSeqNum, true)
      modifies this`deliveryMessage
      ensures returned <==> deliverSeqNum != -1 && FilledUpTo(ReceiverSlots(), deliverSeqNum)
      ensures deliveryMessage == (old(deliveryMessage) || returned)
      ensures -1 <= next < WINDOW_SIZE
      ensures deliverSeqNum == -1 ==>
                Checked(r, if next == -1 then WINDOW_SIZE + 1 else next + 1)
                == r.(checker := if next == -1 then Scanning(0) else Verifying(next, next, true))
      ensures deliverSeqNum != -1 ==>
                && next == deliverSeqNum
                && Checked(r, next + 1) == if returned then r.(checker := Returned, token := true) else r
    {
      returned := false;
      if deliverSeqNum == -1 {
        next := FindDeliver();
        assert forall i: nat :: DeliverIn(r.window, i) ==> DeliverIn(ReceiverSlots(), i);
        if next == -1 {
          ScanFindsNone(r, 0);
        } else {
          ScanFinds(r, 0, next);
        }
      } else {
        next := deliverSeqNum;
        returned := ReadyUpTo(deliverSeqNum);
        VerifyIsReads(r, next, next, true);
        if returned {
          deliveryMessage := true;
        }
      }
    }

    /** getPackets; None is its nil dereference. */
    method GetPackets() returns (payload: Option<Bytes>)
      requires Valid()
      ensures payload == Gather(ReceiverSlots(), 1)
    {
      var bytes: Bytes := [];
      var i := 1;
      PrependJoins([], [], Gather(ReceiverSlots(), 1));
      while i < receiverWindow.Length
        invariant 1 <= i <= receiverWindow.Length
        invariant Gather(ReceiverSlots(), 1) == Prepend(bytes, Gather(ReceiverSlots(), i))
      {
        if receiverWindow[i] == None {
          return None;
        }
        var p := receiverWindow[i].value;
        PrependJoins(bytes, if p.kind == DATA then p.payload else [], Gather(ReceiverSlots(), i + 1));
        if p.kind == DATA {
          bytes := bytes + p.payload;
        }
        if p.kind == DELIVER {
          assert Gather(ReceiverSlots(), i) == Some([]) && bytes + [] == bytes;
          return Some(bytes);
        }
        i := i + 1;
      }
      assert bytes + [] == bytes;
      payload := Some(bytes);
    }

    /** One pass of the retransmission loop: writes again exactly the slots below seqNum that are
        unacknowledged and expired, in order, and rearms their timers. */
    method RetransmitPass() returns (out: seq<Packet>)
      requires Valid() && seqNum <= WINDOW_SIZE
      modifies senderWindow
      ensures Valid()
      ensures out == DuePackets(old(SenderSlots()), seqNum)
      ensures SenderSlots() == Rearmed(old(SenderSlots()), seqNum)
      ensures forall i :: i in SenderSlots() <==> i in old(SenderSlots())
      ensures forall i :: i in SenderSlots() ==>
                var was := old(SenderSlots())[i];
                SenderSlots()[i] == if i < seqNum && !was.acked && was.timer == Fired then was.(timer := Armed) else was
    {
      out := [];
      var i := 0;
      ghost var slots := SenderSlots();
      while i < seqNum
        invariant Valid() && 0 <= i <= seqNum
        invariant out == DuePackets(slots, i)
        invariant SenderSlots() == Rearmed(slots, i)
      {
        if senderWindow[i].Some? {
          var e := senderWindow[i].value;
          assert SenderSlots()[i] == e && Rearmed(slots, i)[i] == slots[i];
          if !e.acked && e.timer == Fired {
            out := out + [e.packet];
            senderWindow[i] := Some(e.(timer := Armed));
          }
        }
        i := i + 1;
      }
    }

    /** One round of the blocking loop over windows at rest. */
    method Blocked() returns (blocked: bool)
      requires Valid() && seqNum <= WINDOW_SIZE
      ensures blocked <==> exists i: nat :: i < seqNum && i in SenderSlots() && !SenderSlots()[i].acked
    {
      blocked := false;
      var i := 0;
      while i < seqNum
        invariant 0 <= i <= seqNum
        invariant blocked <==> exists j: nat :: j < i && j in SenderSlots() && !SenderSlots()[j].acked
      {
        if senderWindow[i].Some? && !senderWindow[i].value.acked {
          blocked := true;
          assert i in SenderSlots();
        }
        i := i + 1;
      }
    }
  }
}

/** Reassembly does not depend on the order, the repetition or the losses of what arrives. */
module Reassembly {
  import opened Packets
  import opened Chunking
  import opened Endpoints
  import opened DataInvariant
  import opened Windows
  import opened Progress

  /** The receiver window after the packets of m with these numbers have arrived in this order. */
  function AfterArrivals(m: Bytes, numbers: seq<nat>): map<nat, Packet> {
    if numbers == [] then map[]
    else Stored(AfterArrivals(m, numbers[..|numbers| - 1]), PacketAt(m, numbers[|numbers| - 1]))
  }

  /** Numbers that packets of m carry, in any order, some perhaps repeated and some missing. */
  predicate NumbersOf(m: Bytes, numbers: seq<nat>) {
    forall i :: i in numbers ==> 1 <= i <= DeliverSeq(m)
  }

  predicate AllArrived(m: Bytes, numbers: seq<nat>) {
    forall i :: 1 <= i <= DeliverSeq(m) ==> i in numbers
  }

  lemma {:induction false} WindowIsWhatArrived(m: Bytes, numbers: seq<nat>)
    requires NumbersOf(m, numbers)
    ensures forall i :: i in AfterArrivals(m, numbers) <==> i in numbers
    ensures forall i :: i in AfterArrivals(m, numbers) ==> AfterArrivals(m, numbers)[i] == PacketAt(m, i)
  {
    if numbers != [] {
      var front, last := numbers[..|numbers| - 1], numbers[|numbers| - 1];
      assert numbers == front + [last];
      assert forall i :: i in front ==> i in numbers;
      WindowIsWhatArrived(m, front);
    }
  }

  /** Whatever the order of arrival, only the set of numbers matters. */
  lemma OrderIrrelevant(m: Bytes, xs: seq<nat>, ys: seq<nat>)
    requires NumbersOf(m, xs) && NumbersOf(m, ys)
    requires forall i :: i in xs <==> i in ys
    ensures AfterArrivals(m, xs) == AfterArrivals(m, ys)
  {
    WindowIsWhatArrived(m, xs);
    WindowIsWhatArrived(m, ys);
  }

  lemma {:induction false} CheckedKeeps(m: Bytes, r: Receiver, n: nat)
    requires ReceiverOk(m, DeliverSeq(m), r)
    ensures ReceiverOk(m, DeliverSeq(m), Checked(r, n)) && Checked(r, n).window == r.window
    decreases n
  {
    if n > 0 && !r.checker.Returned? {
      CheckKeepsReceiver(m, DeliverSeq(m), r);
      CheckedKeeps(m, CheckStep(r), n - 1);
    }
  }

  lemma {:induction false} CheckedReturns(m: Bytes, r: Receiver) returns (n: nat)
    requires ReceiverOk(m, DeliverSeq(m), r) && Full(m, r.window) && Fits(m)
    ensures Checked(r, n).checker.Returned?
    decreases Rank(DeliverSeq(m), r.checker)
  {
    n := 0;
    if !r.checker.Returned? {
      CheckKeepsReceiver(m, DeliverSeq(m), r);
      CheckRank(m, DeliverSeq(m), r);
      var k := CheckedReturns(m, CheckStep(r));
      n := k + 1;
    }
  }

  ghost predicate EventuallySignals(r: Receiver) {
    exists n :: Checked(r, n).token
  }

  /** checkForDeliver signals exactly when every packet of the message has arrived. */
  lemma SignalsExactlyWhenComplete(m: Bytes, numbers: seq<nat>)
    requires Fits(m) && NumbersOf(m, numbers)
    ensures EventuallySignals(FRESH_RECEIVER.(window := AfterArrivals(m, numbers))) <==> AllArrived(m, numbers)
  {
    var r := FRESH_RECEIVER.(window := AfterArrivals(m, numbers));
    WindowIsWhatArrived(m, numbers);
    assert ReceiverOk(m, DeliverSeq(m), r);
    assert Full(m, r.window) <==> AllArrived(m, numbers);
    SignalsExactlyWhenFull(m, r);
  }

  lemma SignalsExactlyWhenFull(m: Bytes, r: Receiver)
    requires Fits(m) && ReceiverOk(m, DeliverSeq(m), r) && !r.checker.Returned?
    ensures EventuallySignals(r) <==> Full(m, r.window)
  {
    if n: nat :| Checked(r, n).token {
      CheckedKeeps(m, r, n);
    }
    if Full(m, r.window) {
      var n := CheckedReturns(m, r);
      TokenWithReturn(r, n);
    }
  }

  /** The token is put at the moment the checker returns. */
  lemma {:induction false} TokenWithReturn(r: Receiver, n: nat)
    requires r.checker.Returned? ==> r.token
    ensures Checked(r, n).checker.Returned? ==> Checked(r, n).token
    decreases n
  {
    if n > 0 && !r.checker.Returned? {
      TokenWithReturn(CheckStep(r), n - 1);
    }
  }

  lemma {:induction false} GatherMeetsGap(m: Bytes, window: map<nat, Packet>, i: nat, gap: nat)
    requires 1 <= i <= gap <= DeliverSeq(m) < WINDOW_SIZE && gap !in window
    requires forall j :: j in window ==> window[j] == PacketAt(m, j)
    ensures Gather(window, i) == None
    decreases gap - i
  {
    if i < gap {
      GatherMeetsGap(m, window, i + 1, gap);
    }
  }

  /** getPackets rebuilds the message when everything has arrived, and dereferences a nil slot in
      every other case. */
  lemma GatherExactlyWhenComplete(m: Bytes, numbers: seq<nat>)
    requires Fits(m) && NumbersOf(m, numbers)
    ensures Gather(AfterArrivals(m, numbers), 1) == if AllArrived(m, numbers) then Some(m) else None
  {
    var window := AfterArrivals(m, numbers);
    WindowIsWhatArrived(m, numbers);
    if AllArrived(m, numbers) {
      GatherFull(m, window, 1);
      ChunksPartition(m);
    } else {
      var gap: nat :| 1 <= gap <= DeliverSeq(m) && gap !in numbers;
      GatherMeetsGap(m, window, 1, gap);
    }
  }

  /** The payloads of the DATA packets in slots i .. d - 1, in slot order. */
  function Payloads(window: map<nat, Packet>, i: nat, d: nat): Bytes
    decreases d - i
  {
    if i >= d then []
    else (if i in window && window[i].kind == DATA then window[i].payload else []) + Payloads(window, i + 1, d)
  }

  /** getPackets on any window at all, with its first DELIVER from slot i on in slot d, or d beyond the
      last slot if there is none: it panics exactly when a slot before d is nil, and otherwise returns
      the data before d. */
  lemma {:induction false} GatherExactly(window: map<nat, Packet>, i: nat, d: nat)
    requires i <= d <= WINDOW_SIZE && (d < WINDOW_SIZE ==> DeliverIn(window, d))
    requires forall j :: i <= j < d ==> !DeliverIn(window, j)
    ensures Gather(window, i)
            == if forall j :: i <= j < d ==> j in window then Some(Payloads(window, i, d)) else None
    decreases d - i
  {
    if i < d {
      assert !DeliverIn(window, i);
      GatherExactly(window, i + 1, d);
      assert (forall j :: i <= j < d ==> j in window) <==> i in window && forall j :: i + 1 <= j < d ==> j in window;
    }
  }
}

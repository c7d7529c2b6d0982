/** The invariants hold in every reachable state: the bytes whatever stray control packets are
    under way when the session begins, the rest when only stray SYNs are. */
module Reachability {
  import opened Packets
  import opened Runs
  import opened Protocol
  import opened DataInvariant
  import opened ControlInvariant
  import DataPreservation
  import ControlPreservation

  /** No datagram under way carries data, and none is addressed to its own sender. */
  ghost predicate NoData(net: multiset<Datagram>) {
    forall d :: d in net ==> d.src != d.dst && !Storable(d.packet)
  }

  /** The client's SYNs are the only datagrams under way. */
  ghost predicate OnlySyns(net: multiset<Datagram>) {
    forall d :: d in net ==> d == Datagram(Client, Server, Packet(SYN, 0, []))
  }

  lemma InvKept(handler: Bytes -> Bytes, req: Bytes, s: State, a: Action)
    requires Inv(handler, req, s) && Enabled(s, a)
    ensures Inv(handler, req, Next(handler, req, s, a))
  {
    DataPreservation.DataInvKept(handler, req, s, a);
    ControlPreservation.ControlInvKept(handler, req, s, a);
  }

  lemma DataInvReachable(handler: Bytes -> Bytes, req: Bytes, net: multiset<Datagram>, t: State)
    requires NoData(net) && Reachable(handler, req, net, t)
    ensures DataInv(handler, req, t)
  {
    var step, inv := Stepper(handler, req), (s: State) => DataInv(handler, req, s);
    forall s: State, a: Action | inv(s) && step(s, a).Some?
      ensures inv(step(s, a).value)
    {
      DataPreservation.DataInvKept(handler, req, s, a);
    }
    var acts :| Run(step, Initial(net), acts, t);
    Induction(step, inv, Initial(net), acts, t);
  }

  lemma InvFrom(handler: Bytes -> Bytes, req: Bytes, s: State, t: State)
    requires Inv(handler, req, s) && Leads(Stepper(handler, req), s, t)
    ensures Inv(handler, req, t)
  {
    var step, inv := Stepper(handler, req), (s: State) => Inv(handler, req, s);
    forall s: State, a: Action | inv(s) && step(s, a).Some?
      ensures inv(step(s, a).value)
    {
      InvKept(handler, req, s, a);
    }
    var acts :| Run(step, s, acts, t);
    Induction(step, inv, s, acts, t);
  }

  lemma InvReachable(handler: Bytes -> Bytes, req: Bytes, net: multiset<Datagram>, t: State)
    requires OnlySyns(net) && Reachable(handler, req, net, t)
    ensures Inv(handler, req, t)
  {
    assert ControlInv(Initial(net));
    InvFrom(handler, req, Initial(net), t);
  }
}

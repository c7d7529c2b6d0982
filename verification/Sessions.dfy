/** Any number of sessions one after another on the same server process, each with a new client. */
module Sessions {
  import opened Packets
  import opened Endpoints
  import opened Runs
  import opened Protocol
  import opened DataInvariant
  import DataPreservation
  import opened Reachability
  import ControlInvariant
  import Liveness
  import Chunking
  import Safety

  /** The current session, and what the sessions before it asked, handled and returned. */
  datatype World = World(session: State, req: Bytes, asked: seq<Bytes>, handled: seq<Bytes>, returned: seq<Bytes>)

  datatype WorldAction = Inside(a: Action) | Turnover(req: Bytes)

  /** The same server goes on listening; a fresh client process takes the old one's place. */
  function NextSession(s: State): State {
    s.(client := FRESH_ENDPOINT, clientMain := Dialing, serverMain := Listening, synAckChannel := false, handled := [],
       retired := FRESH_ENDPOINT)
  }

  /** reset caught the receive goroutine between its acknowledgement and its save, or the
      retransmission goroutine between its write and its timer. */
  predicate CaughtMidStep(s: State) {
    s.server.rcv.storing.Some? || s.server.snd.resending.Some?
  }

  /** The old exchange is over, no goroutine of the server was caught, and no data is left under way. */
  ghost predicate MayTurnOver(s: State) {
    s.serverMain.Ended? && s.clientMain.Got? && s.server.alive && !CaughtMidStep(s) && NoData(s.net)
  }

  ghost function WorldStepper(handler: Bytes -> Bytes): (World, WorldAction) -> Option<World> {
    (w: World, b: WorldAction) =>
      match b
      case Inside(a) =>
        if Enabled(w.session, a) then Some(w.(session := Next(handler, w.req, w.session, a))) else None
      case Turnover(req) =>
        if MayTurnOver(w.session) then
          Some(World(NextSession(w.session), req, w.asked + [w.req], w.handled + w.session.handled,
                     w.returned + [w.session.clientMain.response]))
        else None
  }

  /** disconnected and reset restore the initial state of a session exactly when they caught no
      goroutine of the server in the middle of a step. */
  lemma ResetRestoresInitial(handler: Bytes -> Bytes, req: Bytes, net: multiset<Datagram>, s: State)
    requires NoData(net) && Reachable(handler, req, net, s) && s.serverMain.Ended? && s.server.alive
    ensures NextSession(s) == Initial(s.net) <==> !CaughtMidStep(s)
  {
    DataInvReachable(handler, req, net, s);
    assert s.clientAddr.None? by {
      assert MainsOk(handler, req, s);
    }
  }

  ghost predicate WorldOk(handler: Bytes -> Bytes, w: World) {
    && DataInv(handler, w.req, w.session)
    && w.handled == w.asked
    && w.returned == seq(|w.asked|, i requires 0 <= i < |w.asked| => handler(w.asked[i]))
  }

  lemma TurnoverKeeps(handler: Bytes -> Bytes, w: World, req: Bytes)
    requires WorldOk(handler, w) && MayTurnOver(w.session)
    ensures WorldOk(handler, WorldStepper(handler)(w, Turnover(req)).value)
  {
    var s := w.session;
    assert MainsOk(handler, w.req, s);
    assert NextSession(s) == Initial(s.net);
    assert DataInv(handler, req, Initial(s.net));
    assert s.handled == [w.req];
  }

  /** Over any number of sessions, the k-th call of handleRequest gets the k-th client's request and
      the k-th client gets the answer to it. */
  lemma EverySessionIsExact(handler: Bytes -> Bytes, first: Bytes, net: multiset<Datagram>, w: World, k: nat)
    requires NoData(net) && Leads(WorldStepper(handler), World(Initial(net), first, [], [], []), w)
    ensures |w.handled| == |w.returned| == |w.asked|
    ensures k < |w.asked| ==> w.handled[k] == w.asked[k] && w.returned[k] == handler(w.asked[k])
    ensures w.session.handled == [] || w.session.handled == [w.req]
    ensures w.session.clientMain.Got? ==> w.session.clientMain.response == handler(w.req)
  {
    var step, inv := WorldStepper(handler), (v: World) => WorldOk(handler, v);
    forall v: World, b: WorldAction | inv(v) && step(v, b).Some?
      ensures inv(step(v, b).value)
    {
      match b
      case Inside(a) => DataPreservation.DataInvKept(handler, v.req, v.session, a);
      case Turnover(req) => TurnoverKeeps(handler, v, req);
    }
    var start := World(Initial(net), first, [], [], []);
    var acts :| Run(step, start, acts, w);
    Induction(step, inv, start, acts, w);
    assert MainsOk(handler, w.req, w.session);
  }

  // ---- worlds that turn over quietly

  /** The same steps, but a session follows another only when nothing else than SYNs is under way. */
  ghost function QuietStepper(handler: Bytes -> Bytes): (World, WorldAction) -> Option<World> {
    (w: World, b: WorldAction) =>
      if b.Turnover? && !OnlySyns(w.session.net) then None else WorldStepper(handler)(w, b)
  }

  /** The current session by itself is a run from a quiet beginning. */
  ghost predicate QuietlyBegun(handler: Bytes -> Bytes, w: World) {
    exists n :: OnlySyns(n) && Reachable(handler, w.req, n, w.session)
  }

  lemma QuietInside(handler: Bytes -> Bytes, w: World, a: Action)
    requires QuietlyBegun(handler, w) && Enabled(w.session, a)
    ensures QuietlyBegun(handler, w.(session := Next(handler, w.req, w.session, a)))
  {
    var n :| OnlySyns(n) && Reachable(handler, w.req, n, w.session);
    Extend(handler, w.req, Initial(n), w.session, a);
  }

  lemma QuietTurnover(handler: Bytes -> Bytes, w: World, v: World)
    requires QuietlyBegun(handler, w) && MayTurnOver(w.session) && OnlySyns(w.session.net)
    requires v.session == NextSession(w.session)
    ensures QuietlyBegun(handler, v)
  {
    var n :| OnlySyns(n) && Reachable(handler, w.req, n, w.session);
    ResetRestoresInitial(handler, w.req, n, w.session);
    Stay(handler, v.req, Initial(w.session.net));
  }

  lemma QuietStep(handler: Bytes -> Bytes, w: World, b: WorldAction)
    requires QuietlyBegun(handler, w) && QuietStepper(handler)(w, b).Some?
    ensures QuietlyBegun(handler, QuietStepper(handler)(w, b).value)
  {
    var v := QuietStepper(handler)(w, b).value;
    assert WorldStepper(handler)(w, b) == Some(v);
    match b
    case Inside(a) => QuietInside(handler, w, a);
    case Turnover(req) => QuietTurnover(handler, w, v);
  }

  /** Whatever holds in every state of one quiet session holds in every state of every session. */
  lemma EverySessionBeginsAnew(handler: Bytes -> Bytes, first: Bytes, net: multiset<Datagram>, w: World)
    requires OnlySyns(net) && Leads(QuietStepper(handler), World(Initial(net), first, [], [], []), w)
    ensures exists n :: OnlySyns(n) && Reachable(handler, w.req, n, w.session)
  {
    var step, inv := QuietStepper(handler), (v: World) => QuietlyBegun(handler, v);
    forall v: World, b: WorldAction | inv(v) && step(v, b).Some?
      ensures inv(step(v, b).value)
    {
      QuietStep(handler, v, b);
    }
    var start := World(Initial(net), first, [], [], []);
    Stay(handler, first, Initial(net));
    var acts :| Run(step, start, acts, w);
    Induction(step, inv, start, acts, w);
  }

  /** Over any number of sessions: the current one can still be completed, with its own request handled
      and its own answer returned, and a server that has reset has left the client with everything. */
  lemma NoSessionSticks(handler: Bytes -> Bytes, first: Bytes, net: multiset<Datagram>, w: World)
    requires OnlySyns(net) && Leads(QuietStepper(handler), World(Initial(net), first, [], [], []), w)
    ensures w.session.client.alive && w.session.server.alive && Chunking.Fits(w.req) && Chunking.Fits(handler(w.req)) ==>
              exists t :: && Reaches(handler, w.req, w.session, t) && Liveness.Complete(t)
                          && t.handled == [w.req] && t.clientMain == Got(handler(w.req))
    ensures w.session.serverMain.Ended? ==>
              forall i :: 1 <= i <= Chunking.DeliverSeq(handler(w.req)) ==> ControlInvariant.Holds(w.session.client.rcv, i)
  {
    EverySessionBeginsAnew(handler, first, net, w);
    var n :| OnlySyns(n) && Reachable(handler, w.req, n, w.session);
    if w.session.client.alive && w.session.server.alive && Chunking.Fits(w.req) && Chunking.Fits(handler(w.req)) {
      Liveness.NoStuckState(handler, w.req, n, w.session);
    }
    if w.session.serverMain.Ended? {
      Safety.ResetLosesNothing(handler, w.req, n, w.session);
    }
  }
}

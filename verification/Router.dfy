/** The router's loop: drop, send at once, or schedule; a timer sends later. */
module Router {
  import opened Packets
  import opened Codec
  import opened Runs

  /** A packet handed to process, and whether it was dropped. */
  datatype Arrival = Arrival(packet: Outgoing, dropped: bool)

  /** `scheduled` are the timers not yet fired; `arrived` and `sent` are histories. */
  datatype RouterState = RouterState(maxDelay: int, queueSize: int, scheduled: seq<Outgoing>,
                                     arrived: seq<Arrival>, sent: seq<Outgoing>)

  datatype Event = Arrives(from: Addr, data: Bytes, drop: bool) | TimerFires(k: nat)

  function Start(maxDelay: int): RouterState {
    RouterState(maxDelay, 0, [], [], [])
  }

  function Process(r: RouterState, p: Outgoing, drop: bool): RouterState {
    var r' := r.(arrived := r.arrived + [Arrival(p, drop)]);
    if drop then r'
    else if r.maxDelay <= 0 then AfterSend(r'.(queueSize := r.queueSize + 1), p)
    else r'.(queueSize := r.queueSize + 1, scheduled := r.scheduled + [p])
  }

  function AfterSend(r: RouterState, p: Outgoing): RouterState {
    r.(queueSize := r.queueSize - 1, sent := r.sent + [p])
  }

  function Without(s: seq<Outgoing>, k: nat): seq<Outgoing>
    requires k < |s|
  {
    s[..k] + s[k + 1..]
  }

  function Step(r: RouterState, e: Event): Option<RouterState> {
    match e
    case Arrives(from, data, drop) =>
      (match Forward(from, data)
       case Err(_) => Some(r)
       case Ok(p) => Some(Process(r, p, drop)))
    case TimerFires(k) =>
      if k < |r.scheduled| then Some(AfterSend(r.(scheduled := Without(r.scheduled, k)), r.scheduled[k])) else None
  }

  function Stepper(): (RouterState, Event) -> Option<RouterState> {
    (r: RouterState, e: Event) => Step(r, e)
  }

  /** The packets that were not dropped, in the order they arrived. */
  function Kept(arrived: seq<Arrival>): seq<Outgoing> {
    if arrived == [] then []
    else
      var last := arrived[|arrived| - 1];
      Kept(arrived[..|arrived| - 1]) + (if last.dropped then [] else [last.packet])
  }

  ghost predicate Conserved(r: RouterState) {
    && multiset(Kept(r.arrived)) == multiset(r.sent) + multiset(r.scheduled)
    && r.queueSize == |r.scheduled|
    && (r.maxDelay <= 0 ==> r.scheduled == [] && r.sent == Kept(r.arrived))
  }

  lemma KeptAppend(arrived: seq<Arrival>, a: Arrival)
    ensures Kept(arrived + [a]) == Kept(arrived) + (if a.dropped then [] else [a.packet])
  {
    assert (arrived + [a])[..|arrived|] == arrived;
  }

  lemma ProcessConserves(r: RouterState, p: Outgoing, drop: bool)
    requires Conserved(r)
    ensures Conserved(Process(r, p, drop))
  {
    KeptAppend(r.arrived, Arrival(p, drop));
  }

  lemma TimerConserves(r: RouterState, k: nat)
    requires Conserved(r) && k < |r.scheduled|
    ensures Conserved(AfterSend(r.(scheduled := Without(r.scheduled, k)), r.scheduled[k]))
  {
    assert r.scheduled == r.scheduled[..k] + [r.scheduled[k]] + r.scheduled[k + 1..];
  }

  lemma StepConserves(r: RouterState, e: Event)
    requires Conserved(r) && Step(r, e).Some?
    ensures Conserved(Step(r, e).value)
  {
    match e
    case Arrives(from, data, drop) =>
      if Forward(from, data).Ok? {
        ProcessConserves(r, Forward(from, data).value, drop);
      }
    case TimerFires(k) =>
      TimerConserves(r, k);
  }

  /** What a list of events hands to process, in order: every datagram the router accepts, as it will
      leave, with that event's own drop. */
  function Arrivals(events: seq<Event>): seq<Arrival> {
    if events == [] then []
    else
      match events[0]
      case TimerFires(_) => Arrivals(events[1..])
      case Arrives(from, data, drop) =>
        if Forward(from, data).Err? then Arrivals(events[1..])
        else [Arrival(Forward(from, data).value, drop)] + Arrivals(events[1..])
  }

  /** The datagrams a router that neither loses nor delays anything would send for these events. */
  function Undropped(events: seq<Event>): seq<Outgoing> {
    if events == [] then []
    else if events[0].Arrives? && !events[0].drop && Forward(events[0].from, events[0].data).Ok? then
      [Forward(events[0].from, events[0].data).value] + Undropped(events[1..])
    else Undropped(events[1..])
  }

  /** The record is that of the events. */
  lemma {:induction false} RecordsArrivals(r: RouterState, events: seq<Event>, t: RouterState)
    requires Run(Stepper(), r, events, t)
    ensures t.arrived == r.arrived + Arrivals(events) && t.maxDelay == r.maxDelay
    decreases |events|
  {
    if events != [] {
      RecordsArrivals(Step(r, events[0]).value, events[1..], t);
    }
  }

  lemma {:induction false} KeptFront(a: Arrival, arrived: seq<Arrival>)
    ensures Kept([a] + arrived) == (if a.dropped then [] else [a.packet]) + Kept(arrived)
    decreases |arrived|
  {
    if arrived == [] {
      KeptAppend([], a);
      assert [a] + arrived == [] + [a];
    } else {
      var front, last := arrived[..|arrived| - 1], arrived[|arrived| - 1];
      assert [a] + arrived == ([a] + front) + [last] && arrived == front + [last];
      KeptAppend([a] + front, last);
      KeptAppend(front, last);
      KeptFront(a, front);
    }
  }

  lemma {:induction false} KeptAreUndropped(events: seq<Event>)
    ensures Kept(Arrivals(events)) == Undropped(events)
    decreases |events|
  {
    if events != [] {
      KeptAreUndropped(events[1..]);
      if events[0].Arrives? && Forward(events[0].from, events[0].data).Ok? {
        KeptFront(Arrival(Forward(events[0].from, events[0].data).value, events[0].drop), Arrivals(events[1..]));
      }
    }
  }

  /** Over every run the datagrams sent and those still scheduled are exactly the accepted ones not
      marked to be dropped, none lost, doubled or invented; queueSize counts the scheduled ones; and
      without a delay they have all left, in the order they came. */
  lemma RouterConserves(maxDelay: int, events: seq<Event>, r: RouterState)
    requires Run(Stepper(), Start(maxDelay), events, r)
    ensures r.arrived == Arrivals(events)
    ensures multiset(r.sent) + multiset(r.scheduled) == multiset(Undropped(events))
    ensures r.queueSize == |r.scheduled|
    ensures maxDelay <= 0 ==> r.scheduled == [] && r.sent == Undropped(events)
  {
    var step, inv := Stepper(), (u: RouterState) => Conserved(u);
    forall u: RouterState, e: Event | inv(u) && step(u, e).Some?
      ensures inv(step(u, e).value)
    {
      StepConserves(u, e);
    }
    Induction(step, inv, Start(maxDelay), events, r);
    RecordsArrivals(Start(maxDelay), events, r);
    KeptAreUndropped(events);
  }

  /** The process itself, with its shared counter. */
  class RouterProcess {
    const maxDelay: int
    var queueSize: int
    var timers: seq<Outgoing>
    ghost var history: RouterState

    ghost predicate Valid()
      reads this
    {
      history.maxDelay == maxDelay && history.queueSize == queueSize && history.scheduled == timers
    }

    constructor (maxDelay: int)
      ensures Valid() && history == Start(maxDelay)
    {
      this.maxDelay := maxDelay;
      queueSize := 0;
      timers := [];
      history := Start(maxDelay);
    }

    /** The packet leaves on the socket. */
    method Send(p: Outgoing) returns (out: Outgoing)
      requires Valid()
      modifies this
      ensures Valid() && history == old(AfterSend(history, p)) && out == p
    {
      queueSize := queueSize - 1;
      history := AfterSend(history, p);
      out := p;
    }

    /** One turn of main's loop: a datagram read from the socket, and what leaves on it at once. */
    method Handle(from: Addr, data: Bytes, drop: bool) returns (out: seq<Outgoing>)
      requires Valid()
      modifies this
      ensures Valid() && Some(history) == Step(old(history), Arrives(from, data, drop))
      ensures history.sent == old(history.sent) + out
      ensures var forwarded := Forward(from, data);
              && out == (if forwarded.Ok? && !drop && maxDelay <= 0 then [forwarded.value] else [])
              && timers == old(timers) + (if forwarded.Ok? && !drop && maxDelay > 0 then [forwarded.value] else [])
              && queueSize == old(queueSize) + |timers| - old(|timers|)
    {
      out := [];
      var f := ParsePacket(data);
      if f.Err? {
        return;
      }
      var p := Outgoing(Routed(from, f.value.peer), Layout(f.value.(peer := from)));
      history := history.(arrived := history.arrived + [Arrival(p, drop)]);
      if drop {
        return;
      }
      queueSize := queueSize + 1;
      history := history.(queueSize := history.queueSize + 1);
      if maxDelay <= 0 {
        var q := Send(p);
        return [q];
      }
      timers := timers + [p];
      history := history.(scheduled := history.scheduled + [p]);
    }

    /** The function given to AfterFunc, when its delay is over: one packet leaves. */
    method Fire(k: nat) returns (out: Outgoing)
      requires Valid() && k < |timers|
      modifies this
      ensures Valid() && Some(history) == Step(old(history), TimerFires(k))
      ensures history.sent == old(history.sent) + [out] && out == old(timers[k])
      ensures timers == old(timers[..k] + timers[k + 1..]) && queueSize == old(queueSize) - 1
    {
      var p := timers[k];
      timers := Without(timers, k);
      history := history.(scheduled := Without(history.scheduled, k));
      out := Send(p);
    }
  }
}

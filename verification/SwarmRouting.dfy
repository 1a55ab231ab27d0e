/** What draining the embedded machines does to the swarm, in closed form
    (crates/swarm/src/core.rs:1417-1576). */
module SwarmRouting {
  import opened Bytes
  import opened Swarm
  import Ping
  import Identify

  /** The transport action a ping action turns into, if its stream is owned by ping. */
  function RoutePingOne(net: Net, action: Ping.Action): seq<Action> {
    match ConnForOwned(net, action.peer, action.stream, PingKind)
    case None => []
    case Some(conn) =>
      match action
      case Send(_, stream, data) => [SendStream(conn, stream, data)]
      case CloseStreamWrite(_, stream) => [CloseStreamWrite(conn, stream)]
      case ResetStream(_, stream) => [ResetStream(conn, stream)]
  }

  function RoutePing(net: Net, actions: seq<Ping.Action>): seq<Action> {
    if actions == [] then [] else RoutePingOne(net, actions[0]) + RoutePing(net, actions[1..])
  }

  function ReportPingOne(net: Net, event: Ping.Event): seq<Event> {
    match event
    case RttMeasured(peer, _, rtt) => [PingRttMeasured(peer, rtt)]
    case Timeout(peer, _, _) => [PingTimeout(peer)]
    case ProtocolViolation(peer, _, _) => [RuntimeError(PingFault, Some(peer), ConnFor(net, peer))]
    case _ => []
  }

  function ReportPing(net: Net, events: seq<Ping.Event>): seq<Event> {
    if events == [] then [] else ReportPingOne(net, events[0]) + ReportPing(net, events[1..])
  }

  function RouteIdentifyOne(net: Net, action: Identify.Action): seq<Action> {
    if action.peer !in net.peerToConn then []
    else
      var conn := net.peerToConn[action.peer];
      match action
      case Send(_, stream, data) => [SendStream(conn, stream, data)]
      case CloseStreamWrite(_, stream) => [CloseStreamWrite(conn, stream)]
  }

  function RouteIdentify(net: Net, actions: seq<Identify.Action>): seq<Action> {
    if actions == [] then [] else RouteIdentifyOne(net, actions[0]) + RouteIdentify(net, actions[1..])
  }

  function PingDrained(m: Ping.Machine): Ping.Machine {
    m.(actions := [], events := [])
  }

  function IdentifyDrained(m: Identify.Machine): Identify.Machine {
    m.(actions := [], events := [])
  }

  lemma ExecutePingForm(c: Core, a: Ping.Action)
    ensures ExecutePing(c, a) == c.(actions := c.actions + RoutePingOne(c.net, a))
  {
    hide ConnForOwned;
  }

  lemma HandlePingEventForm(c: Core, e: Ping.Event)
    ensures HandlePingEvent(c, e) == c.(events := c.events + ReportPingOne(c.net, e))
  {
  }

  /** Draining ping appends the routed actions and reported events, and nothing else changes. */
  lemma {:induction false} DrainPingForm(c: Core)
    ensures DrainPing(c) == c.(ping := PingDrained(c.ping),
                               actions := c.actions + RoutePing(c.net, c.ping.actions),
                               events := c.events + ReportPing(c.net, c.ping.events))
    decreases |c.ping.actions| + |c.ping.events|
  {
    hide ExecutePing, HandlePingEvent, RoutePingOne, ReportPingOne;
    if c.ping.actions != [] {
      var (m, a) := (c.ping.(actions := c.ping.actions[1..]), c.ping.actions[0]);
      ExecutePingForm(c.(ping := m), a);
      DrainPingForm(ExecutePing(c.(ping := m), a));
      assert c.actions + RoutePingOne(c.net, a) + RoutePing(c.net, c.ping.actions[1..])
          == c.actions + RoutePing(c.net, c.ping.actions);
    } else if c.ping.events != [] {
      var (m, e) := (c.ping.(events := c.ping.events[1..]), c.ping.events[0]);
      HandlePingEventForm(c.(ping := m), e);
      DrainPingForm(HandlePingEvent(c.(ping := m), e));
      assert c.events + ReportPingOne(c.net, e) + ReportPing(c.net, c.ping.events[1..])
          == c.events + ReportPing(c.net, c.ping.events);
    }
  }

  /** The application's view after identify reported its events. */
  function Absorb(net: Net, app: App, events: seq<Identify.Event>): (App, seq<Event>)
    decreases |events|
  {
    if events == [] then (app, [])
    else
      var (first, told) := AbsorbOne(net, app, events[0]);
      var (last, rest) := Absorb(net, first, events[1..]);
      (last, told + rest)
  }

  function AbsorbOne(net: Net, app: App, event: Identify.Event): (App, seq<Event>) {
    match event
    case Failed(_, _) => (app, [RuntimeError(IdentifyFault, None, None)])
    case Received(peer, info) =>
      var known := app.(peerInfo := app.peerInfo[peer := info]);
      if peer in app.ready || peer !in net.peerToConn then (known, [IdentifyReceived(peer, info)])
      else (known.(ready := app.ready + {peer}), [IdentifyReceived(peer, info), PeerReady(peer, info.protocols)])
  }

  lemma ExecuteIdentifyForm(c: Core, a: Identify.Action)
    ensures ExecuteIdentify(c, a) == c.(actions := c.actions + RouteIdentifyOne(c.net, a))
  {
  }

  lemma {:induction false} DrainIdentifyForm(c: Core)
    ensures DrainIdentify(c) == c.(identify := IdentifyDrained(c.identify),
                                   actions := c.actions + RouteIdentify(c.net, c.identify.actions),
                                   app := Absorb(c.net, c.app, c.identify.events).0,
                                   events := c.events + Absorb(c.net, c.app, c.identify.events).1)
    decreases |c.identify.actions| + |c.identify.events|
  {
    hide ExecuteIdentify, HandleIdentifyEvent, RouteIdentifyOne, AbsorbOne;
    if c.identify.actions != [] {
      var (m, a) := (c.identify.(actions := c.identify.actions[1..]), c.identify.actions[0]);
      ExecuteIdentifyForm(c.(identify := m), a);
      DrainIdentifyForm(ExecuteIdentify(c.(identify := m), a));
      assert c.actions + RouteIdentifyOne(c.net, a) + RouteIdentify(c.net, c.identify.actions[1..])
          == c.actions + RouteIdentify(c.net, c.identify.actions);
    } else if c.identify.events != [] {
      var (m, e) := (c.identify.(events := c.identify.events[1..]), c.identify.events[0]);
      var (first, told) := AbsorbOne(c.net, c.app, e);
      HandleIdentifyEventForm(c.(identify := m), e);
      DrainIdentifyForm(HandleIdentifyEvent(c.(identify := m), e));
      var (last, rest) := Absorb(c.net, first, c.identify.events[1..]);
      assert c.events + told + rest == c.events + (told + rest);
    }
  }

  lemma HandleIdentifyEventForm(c: Core, event: Identify.Event)
    ensures HandleIdentifyEvent(c, event) == c.(app := AbsorbOne(c.net, c.app, event).0,
                                                events := c.events + AbsorbOne(c.net, c.app, event).1)
  {
    var told := AbsorbOne(c.net, c.app, event).1;
    if |told| == 2 {
      assert c.events + [told[0]] + [told[1]] == c.events + told;
    }
  }
}

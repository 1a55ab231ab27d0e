/** What each stream event does to the tables, the embedded machines and the user-stream events.
    `Tells` relates two cores by what was appended to the event queue; the effect lemmas give the new
    tables and machines outright, and the case lemmas say what becomes of a negotiator that is fed.
    The theorems about tokens, user streams, event order and routing all start from these, so that
    none of them has to look into the step functions again. */
module SwarmEffects {
  import opened Bytes
  import opened Ids
  import opened Swarm
  import opened SwarmRouting
  import opened SwarmInvariant
  import opened SwarmSteps
  import Multistream
  import MultistreamOutcome
  import Ping
  import Identify

  predicate AboutUserStream(event: Event) {
    event.UserStreamReady? || event.UserStreamData? || event.UserStreamRemoteWriteClosed? || event.UserStreamClosed?
  }

  /** The user-stream events among some events. */
  function Users(events: seq<Event>): seq<Event> {
    if events == [] then []
    else (if AboutUserStream(events[0]) then [events[0]] else []) + Users(events[1..])
  }

  lemma {:induction false} UsersAppend(a: seq<Event>, b: seq<Event>)
    ensures Users(a + b) == Users(a) + Users(b)
  {
    if a == [] {
      assert a + b == b;
    } else {
      UsersAppend(a[1..], b);
      assert (a + b)[1..] == a[1..] + b;
      var head := if AboutUserStream(a[0]) then [a[0]] else [];
      assert head + (Users(a[1..]) + Users(b)) == (head + Users(a[1..])) + Users(b);
    }
  }

  /** The events that may name a placeholder: never an established, identified or ready peer, and of
      the errors only those of a ping or of a second identify stream on an unidentified connection. */
  predicate Proper(event: Event) {
    && (event.ConnectionEstablished? || event.IdentifyReceived? || event.PeerReady? ==> event.peer.Verified?)
    && (event.RuntimeError? && event.errorPeer.Some? && event.errorPeer.value.Placeholder?
        ==> event.kind.PingFault? || event.kind.IdentifyStreamRejected?)
  }

  predicate AllProper(events: seq<Event>) {
    forall i :: 0 <= i < |events| ==> Proper(events[i])
  }

  /** What steps other than the close of a connection tell. */
  predicate Plain(event: Event) {
    Proper(event) && !event.ConnectionClosed?
  }

  predicate AllPlain(events: seq<Event>) {
    forall i :: 0 <= i < |events| ==> Plain(events[i])
  }

  /** Established peers are real. */
  ghost predicate Vouched(app: App) {
    forall p :: p in app.established ==> p.Verified?
  }

  lemma InvVouched(c: Core, env: Env)
    requires Inv(c, env)
    ensures Vouched(c.app)
  {
  }

  /** `d` comes after `c` with `told` as the new user-stream events, and plain new events only. */
  ghost predicate Tells(c: Core, d: Core, told: seq<Event>) {
    && |c.events| <= |d.events| && d.events[..|c.events|] == c.events
    && Users(d.events[|c.events|..]) == told && AllPlain(d.events[|c.events|..])
  }

  lemma TellsNothing(c: Core, d: Core)
    requires c.events == d.events
    ensures Tells(c, d, [])
  {
  }

  lemma TellsMore(c: Core, d: Core, events: seq<Event>)
    requires d.events == c.events + events && AllPlain(events)
    ensures Tells(c, d, Users(events))
  {
    assert d.events[|c.events|..] == events;
  }

  lemma TellsOne(c: Core, d: Core, event: Event)
    requires d.events == c.events + [event] && Plain(event)
    ensures Tells(c, d, if AboutUserStream(event) then [event] else [])
  {
    TellsMore(c, d, [event]);
    assert [event][1..] == [];
    assert Users([event]) == (if AboutUserStream(event) then [event] else []) + [];
  }

  lemma TellsBoth(a: Core, b: Core, c: Core, first: seq<Event>, second: seq<Event>)
    requires Tells(a, b, first) && Tells(b, c, second)
    ensures Tells(a, c, first + second)
  {
    var x, y := b.events[|a.events|..], c.events[|b.events|..];
    assert c.events == b.events + y && b.events == a.events + x;
    assert c.events[|a.events|..] == x + y;
    assert c.events[..|a.events|] == a.events;
    UsersAppend(x, y);
  }

  lemma TellsThen(a: Core, b: Core, c: Core, told: seq<Event>)
    requires Tells(a, b, []) && Tells(b, c, told)
    ensures Tells(a, c, told)
  {
    TellsBoth(a, b, c, [], told);
    assert [] + told == told;
  }

  // ------------------------------------------------------- draining tells nothing of users

  lemma {:induction false} ReportPingTells(net: Net, events: seq<Ping.Event>)
    ensures Users(ReportPing(net, events)) == [] && AllPlain(ReportPing(net, events))
  {
    if events != [] {
      ReportPingTells(net, events[1..]);
      var one := ReportPingOne(net, events[0]);
      UsersAppend(one, ReportPing(net, events[1..]));
      assert one == [] || one[1..] == [];
    }
  }

  lemma {:induction false} AbsorbTells(net: Net, app: App, events: seq<Identify.Event>)
    requires Trusted(events)
    ensures Users(Absorb(net, app, events).1) == [] && AllPlain(Absorb(net, app, events).1)
    decreases |events|
  {
    if events != [] {
      var (first, told) := AbsorbOne(net, app, events[0]);
      AbsorbTells(net, first, events[1..]);
      UsersAppend(told, Absorb(net, first, events[1..]).1);
      assert told[1..] == [] || told[1..] == [told[1]];
      assert |told| == 2 ==> told[1..][1..] == [];
    }
  }

  lemma DrainPingTells(c: Core, m: Ping.Machine)
    ensures Tells(c, DrainPing(c.(ping := m)), [])
  {
    hide RoutePing, ReportPing, DrainPing;
    DrainPingForm(c.(ping := m));
    ReportPingTells(c.net, m.events);
    TellsMore(c, DrainPing(c.(ping := m)), ReportPing(c.net, m.events));
  }

  lemma DrainIdentifyTells(c: Core, m: Identify.Machine)
    requires Trusted(m.events)
    ensures Tells(c, DrainIdentify(c.(identify := m)), [])
    ensures DrainIdentify(c.(identify := m)).net == c.net && DrainIdentify(c.(identify := m)).ping == c.ping
    ensures DrainIdentify(c.(identify := m)).identify == IdentifyDrained(m)
  {
    hide RouteIdentify, Absorb, DrainIdentify;
    DrainIdentifyForm(c.(identify := m));
    AbsorbTells(c.net, c.app, m.events);
    TellsMore(c, DrainIdentify(c.(identify := m)), Absorb(c.net, c.app, m.events).1);
  }

  lemma FeedPingEffect(c: Core, input: Ping.Input)
    ensures var d := FeedPing(c, input);
            && d.net == c.net && d.app == c.app && d.identify == c.identify
            && d.ping == PingDrained(Ping.Handle(c.ping, input).0)
            && Tells(c, d, [])
  {
    hide DrainPing, Ping.Handle, Tells;
    var m := Ping.Handle(c.ping, input).0;
    PingFrame(c.(ping := m));
    DrainPingTells(c, m);
  }

  lemma FeedIdentifyEffect(c: Core, input: Identify.Input)
    requires Identify.Idle(c.identify) && (input.StreamRemoteWriteClosed? ==> input.peer.Verified?)
    ensures var d := FeedIdentify(c, input);
            && d.net == c.net && d.ping == c.ping
            && d.identify == IdentifyDrained(Identify.Handle(c.identify, input).0)
            && Tells(c, d, [])
  {
    hide DrainIdentify, Identify.Handle, Tells;
    IdentifyReports(c.identify, input);
    DrainIdentifyTells(c, Identify.Handle(c.identify, input).0);
  }

  // ---------------------------------------------------------------------- stream events

  lemma InvIdle(c: Core, env: Env)
    requires Inv(c, env)
    ensures Ping.Idle(c.ping) && Identify.Idle(c.identify)
  {
  }

  /** The ping machine's reaction to an event on a stream of some kind. */
  function PingReacts(m: Ping.Machine, kind: Kind, input: Ping.Input): Ping.Machine {
    if kind.PingKind? then PingDrained(Ping.Handle(m, input).0) else m
  }

  function IdentifyReacts(m: Identify.Machine, reacts: bool, input: Identify.Input): Identify.Machine {
    if reacts then IdentifyDrained(Identify.Handle(m, input).0) else m
  }

  lemma DispatchEffect(c: Core, env: Env, conn: ConnId, stream: StreamId, data: Blob, nowMs: u64)
    requires Inv(c, env) && (conn, stream) in c.net.owner
    ensures conn in c.net.connToPeer
    ensures var d, peer := Dispatch(c, conn, stream, data, nowMs), c.net.connToPeer[conn];
            var kind := c.net.owner[(conn, stream)];
            && d.net == c.net
            && d.ping == PingReacts(c.ping, kind, Ping.StreamData(peer, stream, data, nowMs))
            && d.identify ==
               IdentifyReacts(c.identify, kind.IdentifyInitiator?, Identify.StreamData(peer, stream, data))
            && Tells(c, d, if kind.User? then [UserStreamData(peer, stream, data)] else [])
  {
    hide Inv, FeedPing, FeedIdentify, Tells, Ping.Handle, Identify.Handle;
    OwnerNamed(c, env, (conn, stream));
    InvIdle(c, env);
    var d, peer := Dispatch(c, conn, stream, data, nowMs), c.net.connToPeer[conn];
    match c.net.owner[(conn, stream)] {
      case PingKind => FeedPingEffect(c, Ping.StreamData(peer, stream, data, nowMs));
      case IdentifyInitiator => FeedIdentifyEffect(c, Identify.StreamData(peer, stream, data));
      case IdentifyResponder => TellsNothing(c, d);
      case User(_) => TellsOne(c, d, UserStreamData(peer, stream, data));
    }
  }

  lemma RemoteWriteClosedEffect(c: Core, env: Env, conn: ConnId, stream: StreamId)
    requires Inv(c, env) && (conn, stream) in c.net.owner
    ensures conn in c.net.connToPeer
    ensures var d, peer := RemoteWriteClosed(c, conn, stream), c.net.connToPeer[conn];
            var kind := c.net.owner[(conn, stream)];
            && d.net == c.net
            && d.ping == PingReacts(c.ping, kind, Ping.StreamRemoteWriteClosed(peer, stream))
            && d.identify ==
               IdentifyReacts(c.identify, kind.IdentifyInitiator?, Identify.StreamRemoteWriteClosed(peer, stream))
            && Tells(c, d, if kind.User? then [UserStreamRemoteWriteClosed(peer, stream)] else [])
  {
    hide Inv, FeedPing, FeedIdentify, Tells, Ping.Handle, Identify.Handle;
    OwnerNamed(c, env, (conn, stream));
    InvIdle(c, env);
    var d, peer := RemoteWriteClosed(c, conn, stream), c.net.connToPeer[conn];
    match c.net.owner[(conn, stream)] {
      case PingKind => FeedPingEffect(c, Ping.StreamRemoteWriteClosed(peer, stream));
      case IdentifyInitiator => FeedIdentifyEffect(c, Identify.StreamRemoteWriteClosed(peer, stream));
      case IdentifyResponder => TellsNothing(c, d);
      case User(_) => TellsOne(c, d, UserStreamRemoteWriteClosed(peer, stream));
    }
  }

  /** The tables without a stream. */
  function Without(net: Net, key: Key): Net {
    net.(owner := net.owner - {key}, inbound := net.inbound - {key}, outbound := net.outbound - {key})
  }

  lemma StreamClosedEffect(c: Core, env: Env, conn: ConnId, stream: StreamId)
    requires Inv(c, env)
    ensures var d := StreamClosed(c, conn, stream);
            && d.net == Without(c.net, (conn, stream))
            && if (conn, stream) !in c.net.owner
               then d.ping == c.ping && d.identify == c.identify && Tells(c, d, [])
               else
                 conn in c.net.connToPeer &&
                 var peer, kind := c.net.connToPeer[conn], c.net.owner[(conn, stream)];
                 && d.ping == PingReacts(c.ping, kind, Ping.StreamClosed(peer, stream))
                 && d.identify == IdentifyReacts(c.identify, kind.IdentifyInitiator? || kind.IdentifyResponder?,
                                                 Identify.StreamClosed(peer, stream))
                 && Tells(c, d, if kind.User? then [UserStreamClosed(peer, stream)] else [])
  {
    hide Inv, FeedPing, FeedIdentify, Ping.Handle, Identify.Handle;
    var key := (conn, stream);
    var c0 := c.(net := c.net.(owner := c.net.owner - {key}));
    var d := StreamClosed(c, conn, stream);
    if key !in c.net.owner {
      assert c.net.owner - {key} == c.net.owner;
    } else {
      OwnerNamed(c, env, key);
      InvIdle(c, env);
      var peer := c.net.connToPeer[conn];
      match c.net.owner[key] {
        case PingKind => FeedPingEffect(c0, Ping.StreamClosed(peer, stream));
        case IdentifyInitiator => FeedIdentifyEffect(c0, Identify.StreamClosed(peer, stream));
        case IdentifyResponder => FeedIdentifyEffect(c0, Identify.StreamClosed(peer, stream));
        case User(_) => TellsOne(c, d, UserStreamClosed(peer, stream));
      }
    }
  }

  // ------------------------------------------------------------------------ negotiation

  lemma {:induction false} PlayTells(c: Core, conn: ConnId, stream: StreamId, outputs: seq<Multistream.Output>,
                                     agreed: Option<Blob>, refusal: Option<ErrorKind>)
    requires Vouched(c.app)
    ensures Tells(c, Play(c, conn, stream, outputs, agreed, refusal).core, [])
    decreases |outputs|
  {
    hide Tells, Users;
    TellsNothing(c, c);
    if outputs != [] {
      var d := Play(c, conn, stream, outputs, agreed, refusal).core;
      match outputs[0] {
        case OutboundData(bytes) =>
          var c1 := Do(c, SendStream(conn, stream, bytes));
          PlayTells(c1, conn, stream, outputs[1..], agreed, refusal);
          TellsSame(c, c1, d, []);
        case Negotiated(protocol) => PlayTells(c, conn, stream, outputs[1..], Some(protocol), refusal);
        case NotAvailable =>
          if refusal.Some? {
            TellsOne(c, d, RuntimeError(refusal.value, EstablishedPeer(c, conn), Some(conn)));
          }
        case ProtocolError(_) => TellsOne(c, d, RuntimeError(MultistreamFault, EstablishedPeer(c, conn), Some(conn)));
      }
    }
  }

  /** The bytes a negotiator wants sent, as they leave on its stream. */
  function Talked(conn: ConnId, stream: StreamId, outputs: seq<Multistream.Output>): seq<Action> {
    if outputs == [] then []
    else
      (if outputs[0].OutboundData? then [SendStream(conn, stream, outputs[0].bytes)] else [])
      + Talked(conn, stream, outputs[1..])
  }

  lemma {:induction false} PlaySays(c: Core, conn: ConnId, stream: StreamId, outputs: seq<Multistream.Output>,
                                    refusal: Option<ErrorKind>)
    requires outputs != [] ==> MultistreamOutcome.Talk(outputs[..|outputs| - 1])
    ensures Play(c, conn, stream, outputs, None, refusal).core.actions == c.actions + Talked(conn, stream, outputs)
    decreases |outputs|
  {
    if outputs != [] && outputs[0].OutboundData? {
      var rest, one := outputs[1..], [SendStream(conn, stream, outputs[0].bytes)];
      if rest != [] {
        assert rest[..|rest| - 1] == outputs[..|outputs| - 1][1..];
      }
      PlaySays(Do(c, SendStream(conn, stream, outputs[0].bytes)), conn, stream, rest, refusal);
      assert (c.actions + one) + Talked(conn, stream, rest) == c.actions + (one + Talked(conn, stream, rest));
    } else if outputs != [] {
      assert |outputs| == 1 && outputs[1..] == [];
      var none: seq<Action> := [];
      assert Talked(conn, stream, outputs) == none + none == none;
    }
  }

  /** The name under which the application knows a connection: that of an identified peer. */
  function PublicName(net: Net, conn: ConnId): Option<PeerId> {
    if conn in net.connToPeer && net.connToPeer[conn].Verified? && net.connToPeer[conn] in net.peerToConn
    then Some(net.connToPeer[conn]) else None
  }

  lemma PublicIs(c: Core, env: Env, conn: ConnId)
    requires Inv(c, env)
    ensures EstablishedPeer(c, conn) == PublicName(c.net, conn)
  {
    hide Sound, Coherent;
  }

  /** What is reported when a negotiation ends without agreement. */
  function Complains(net: Net, conn: ConnId, verdict: Option<Multistream.Output>,
                     refusal: Option<ErrorKind>): seq<Event>
  {
    if verdict.Some? && verdict.value.ProtocolError? then
      [RuntimeError(MultistreamFault, PublicName(net, conn), Some(conn))]
    else if verdict.Some? && verdict.value.NotAvailable? && refusal.Some? then
      [RuntimeError(refusal.value, PublicName(net, conn), Some(conn))]
    else []
  }

  function LastOf(outputs: seq<Multistream.Output>): Option<Multistream.Output> {
    if outputs == [] then None else Some(outputs[|outputs| - 1])
  }

  lemma {:induction false} PlayComplains(c: Core, conn: ConnId, stream: StreamId, outputs: seq<Multistream.Output>,
                                         refusal: Option<ErrorKind>)
    requires outputs != [] ==> MultistreamOutcome.Talk(outputs[..|outputs| - 1])
    requires EstablishedPeer(c, conn) == PublicName(c.net, conn)
    ensures Play(c, conn, stream, outputs, None, refusal).core.events
         == c.events + Complains(c.net, conn, LastOf(outputs), refusal)
    decreases |outputs|
  {
    hide PublicName;
    if outputs != [] && outputs[0].OutboundData? {
      var rest := outputs[1..];
      if rest != [] {
        assert rest[..|rest| - 1] == outputs[..|outputs| - 1][1..];
        assert rest[|rest| - 1] == outputs[|outputs| - 1];
      }
      PlayComplains(Do(c, SendStream(conn, stream, outputs[0].bytes)), conn, stream, rest, refusal);
    } else if outputs != [] {
      assert |outputs| == 1 && outputs[1..] == [];
    }
  }

  /** The owner an inbound stream gets for the protocol agreed on, if any. */
  function InboundKind(c: Core, peer: PeerId, protocol: Blob): Option<Kind> {
    if protocol == PING_ID then Some(PingKind)
    else if protocol == IDENTIFY_ID then
      if Identify.Peer(c.identify, peer).outbound.Some? then None else Some(IdentifyResponder)
    else if protocol in c.app.users then Some(User(protocol))
    else None
  }

  function OwnIf(net: Net, key: Key, kind: Option<Kind>): Net {
    if kind.None? then net else Own(net, key, kind.value)
  }

  lemma InboundNegotiatedEffect(c: Core, conn: ConnId, stream: StreamId, protocol: Blob)
    requires Identify.Idle(c.identify)
    ensures var d, peer := InboundNegotiated(c, conn, stream, protocol), PeerOf(c.net, conn);
            var kind := InboundKind(c, peer, protocol);
            && d.net == OwnIf(Ensure(c.net, conn), (conn, stream), kind)
            && d.ping == (if kind == Some(PingKind)
                          then PingDrained(Ping.RegisterInbound(c.ping, peer, stream)) else c.ping)
            && (if kind == Some(IdentifyResponder)
                then d.identify == IdentifyDrained(Identify.Put(c.identify, peer,
                                     Identify.Peer(c.identify, peer).(outbound := Some(stream))))
                else d.identify == c.identify)
            && Tells(c, d, if kind.Some? && kind.value.User?
                           then [UserStreamReady(peer, stream, protocol, false)] else [])
  {
    hide FeedPing, DrainIdentify, Tells, Ensure, Ping.RegisterInbound;
    var key, peer := (conn, stream), PeerOf(c.net, conn);
    var c1 := c.(net := Ensure(c.net, conn));
    var d := InboundNegotiated(c, conn, stream, protocol);
    if protocol == PING_ID {
      var c2 := c1.(net := Own(c1.net, key, PingKind));
      FeedPingEffect(c2, Ping.RegisterInboundStream(peer, stream));
      TellsSame(c, c2, d, []);
    } else if protocol == IDENTIFY_ID {
      var observed := if conn in c1.net.remoteAddr then Some(c1.net.remoteAddr[conn]) else None;
      var (m, e) := Identify.RegisterOutbound(c1.identify, peer, stream, observed, c1.app.localAddrs);
      if e.None? {
        var c2 := c1.(net := Own(c1.net, key, IdentifyResponder));
        NewInfoUntold(c1.identify, peer, stream, observed, c1.app.localAddrs);
        DrainIdentifyTells(c2, m);
        TellsSame(c, c2, d, []);
      } else {
        TellsOne(c, d, RuntimeError(IdentifyStreamRejected, Some(peer), Some(conn)));
      }
    } else if protocol in c1.app.users {
      TellsOne(c, d, UserStreamReady(peer, stream, protocol, false));
    } else {
      TellsNothing(c, d);
    }
  }

  lemma TellsSame(a: Core, b: Core, d: Core, told: seq<Event>)
    requires a.events == b.events && Tells(b, d, told)
    ensures Tells(a, d, told)
  {
  }

  /** The ping machine once an outbound stream is registered and a queued payload is sent. */
  function PingOpened(c: Core, peer: PeerId, stream: StreamId, nowMs: u64): Ping.Machine {
    var m := PingDrained(Ping.RegisterOutbound(c.ping, peer, stream).0);
    if peer in c.app.pendingPings then PingDrained(Ping.SendOne(m, peer, c.app.pendingPings[peer], nowMs).0) else m
  }

  predicate PingRefuses(m: Ping.Machine, peer: PeerId, stream: StreamId) {
    Ping.RegisterOutbound(m, peer, stream).1.Some?
  }

  lemma OutboundPingEffect(c: Core, conn: ConnId, stream: StreamId, peer: PeerId, nowMs: u64)
    ensures var d := OutboundPing(c, conn, stream, peer, nowMs);
            && d.identify == c.identify && Tells(c, d, [])
            && if PingRefuses(c.ping, peer, stream)
               then d.net == c.net.(owner := c.net.owner - {(conn, stream)}) && d.ping == c.ping
               else d.net == c.net && d.ping == PingOpened(c, peer, stream, nowMs)
  {
    hide DrainPing, Tells, Ping.SendOne;
    var (m, e) := Ping.RegisterOutbound(c.ping, peer, stream);
    var d := OutboundPing(c, conn, stream, peer, nowMs);
    if e.Some? {
      TellsOne(c, d, RuntimeError(PingFault, Some(peer), Some(conn)));
    } else {
      DrainPingTells(c, m);
      PingFrame(c.(ping := m));
      var c1 := DrainPing(c.(ping := m));
      if peer in c1.app.pendingPings {
        var payload := c1.app.pendingPings[peer];
        var c2 := c1.(app := c1.app.(pendingPings := c1.app.pendingPings - {peer}));
        var (m2, e2) := Ping.SendOne(c2.ping, peer, payload, nowMs);
        SendOneRefused(c2.ping, peer, payload, nowMs);
        DrainPingTells(c2, m2);
        PingFrame(c2.(ping := m2));
        if e2.Some? {
          TellsOne(c2, d, RuntimeError(PingFault, Some(peer), Some(conn)));
        }
        TellsSame(c1, c2, d, []);
        TellsThen(c, c1, d, []);
      }
    }
  }

  lemma SendOneRefused(m: Ping.Machine, peer: PeerId, payload: Blob, nowMs: u64)
    ensures Ping.SendOne(m, peer, payload, nowMs).1.Some? ==> Ping.SendOne(m, peer, payload, nowMs).0 == m
  {
  }

  lemma OutboundNegotiatedEffect(c: Core, conn: ConnId, stream: StreamId, target: Kind, nowMs: u64)
    requires conn in c.net.connToPeer && Identify.Idle(c.identify)
    ensures var d, peer := OutboundNegotiated(c, conn, stream, target, nowMs), c.net.connToPeer[conn];
            && (if target.PingKind? && PingRefuses(c.ping, peer, stream)
                then d.net == c.net.(owner := c.net.owner - {(conn, stream)}) && d.ping == c.ping
                else
                  && d.net == Own(c.net, (conn, stream), target)
                  && d.ping == if target.PingKind? then PingOpened(c, peer, stream, nowMs) else c.ping)
            && (d.identify == if target.IdentifyInitiator?
                              then IdentifyDrained(Identify.RegisterInbound(c.identify, peer, stream)) else c.identify)
            && Tells(c, d, if target.User? then [UserStreamReady(peer, stream, target.protocol, true)] else [])
  {
    hide OutboundPing, FeedIdentify, Tells, Ping.RegisterOutbound, Identify.RegisterInbound, Ping.SendOne;
    var key, peer := (conn, stream), c.net.connToPeer[conn];
    var c1 := c.(net := Own(c.net, key, target));
    var d := OutboundNegotiated(c, conn, stream, target, nowMs);
    match target {
      case PingKind =>
        OutboundPingEffect(c1, conn, stream, peer, nowMs);
        assert c1.net.owner - {key} == c.net.owner - {key};
        TellsSame(c, c1, d, []);
      case IdentifyInitiator =>
        FeedIdentifyEffect(c1, Identify.RegisterInboundStream(peer, stream));
        TellsSame(c, c1, d, []);
      case IdentifyResponder => TellsNothing(c, d);
      case User(protocol) => TellsOne(c, d, UserStreamReady(peer, stream, protocol, true));
    }
  }

  /** The verdict a negotiator has just reached. */
  function Verdict(n: Multistream.Select): Option<Multistream.Output> {
    if n.state.Done? && n.pending != [] then Some(n.pending[|n.pending| - 1]) else None
  }

  /** The outputs of a negotiator played out: its talk is sent, a failed verdict is complained about, and
      nothing else changes. */
  lemma PlayFacts(c: Core, c1: Core, env: Env, conn: ConnId, stream: StreamId, n: Multistream.Select,
                  refusal: Option<ErrorKind>)
    requires Inv(c, env) && c1 == c.(net := c1.net)
    requires c1.net.connToPeer == c.net.connToPeer && c1.net.peerToConn == c.net.peerToConn
    requires n.pending != [] ==> MultistreamOutcome.Talk(n.pending[..|n.pending| - 1])
    requires n.state.Done? <==> !MultistreamOutcome.Talk(n.pending)
    ensures var p := Play(c1, conn, stream, n.pending, None, refusal);
            && p.core == c1.(actions := c.actions + Talked(conn, stream, n.pending),
                             events := c.events + Complains(c.net, conn, Verdict(n), refusal))
            && Tells(c1, p.core, [])
            && (if Verdict(n).None? then !n.state.Done? && !p.aborted && p.agreed == None
                else if Verdict(n).value.Negotiated? then !p.aborted && p.agreed == Some(Verdict(n).value.protocol)
                else p.aborted)
  {
    hide Play, Inv, Tells, Complains, Talked, EstablishedPeer, PublicName;
    InvVouched(c, env);
    PlayFrame(c1, conn, stream, n.pending, None, refusal);
    PlayVerdict(c1, conn, stream, n.pending, refusal);
    PlaySays(c1, conn, stream, n.pending, refusal);
    PublicSame(c, c1, env, conn, Verdict(n), refusal);
    PlayComplains(c1, conn, stream, n.pending, refusal);
    VerdictLast(n);
    PlayTells(c1, conn, stream, n.pending, None, refusal);
  }

  /** Same core up to its outputs, with nothing new about user streams. */
  ghost predicate Unheard(c: Core, d: Core) {
    d == c.(events := d.events, actions := d.actions) && Tells(c, d, [])
  }

  function FedIn(c: Core, key: Key, data: Blob): Multistream.Select
    requires key in c.net.inbound && c.net.inbound[key].Valid()
  {
    Multistream.Receive(c.net.inbound[key], data)
  }

  function Heard(c: Core, key: Key, n: Multistream.Select): Net {
    c.net.(inbound := c.net.inbound[key := n.(pending := [])])
  }

  lemma HeardGone(c: Core, key: Key, n: Multistream.Select)
    ensures var to := Heard(c, key, n);
            to.(inbound := to.inbound - {key}) == c.net.(inbound := c.net.inbound - {key})
  {
    var to := Heard(c, key, n);
    assert to.inbound - {key} == c.net.inbound - {key};
  }

  /** An inbound negotiator goes on, is dropped, or gives way to the protocol it agreed on and the
      bytes it did not consume. */
  lemma FeedInboundCases(c: Core, env: Env, conn: ConnId, stream: StreamId, data: Blob, nowMs: u64) returns (gone: Core)
    requires Inv(c, env) && (conn, stream) in c.net.inbound
    ensures Undecided(c.net.inbound[(conn, stream)])
    ensures Unheard(c.(net := c.net.(inbound := c.net.inbound - {(conn, stream)})), gone) && Inv(gone, env)
    ensures gone.actions == c.actions + Talked(conn, stream, FedIn(c, (conn, stream), data).pending)
    ensures gone.events == c.events + Complains(c.net, conn, Verdict(FedIn(c, (conn, stream), data)), None)
    ensures var key := (conn, stream);
            var n, d := FedIn(c, key, data), FeedInbound(c, conn, stream, data, nowMs);
            if Verdict(n).None? then
              && !n.state.Done? && d.actions == gone.actions && d.events == gone.events
              && Unheard(c.(net := Heard(c, key, n)), d)
            else if Verdict(n).value.Negotiated? then
              var c2 := InboundNegotiated(gone, conn, stream, Verdict(n).value.protocol);
              d == if n.recvBuf == [] then c2 else Dispatch(c2, conn, stream, n.recvBuf, nowMs)
            else
              && Unheard(gone, d) && d.events == gone.events
              && d.actions == gone.actions + [ResetStream(conn, stream)]
  {
    hide Multistream.Receive, Play, InboundNegotiated, Dispatch, Tells, Inv, Undecided, PublicName, Complains,
         Talked, EstablishedPeer, Verdict;
    var key := (conn, stream);
    InboundAlone(c, env, key);
    UndecidedValid(c.net.inbound[key]);
    var n := FedIn(c, key, data);
    ReceiveUndecided(c.net.inbound[key], data);
    var c1 := c.(net := Heard(c, key, n));
    HeardGone(c, key, n);
    var p := Play(c1, conn, stream, n.pending, None, None);
    PlayFacts(c, c1, env, conn, stream, n, None);
    gone := p.core.(net := p.core.net.(inbound := p.core.net.inbound - {key}));
    var without := c.(net := c.net.(inbound := c.net.inbound - {key}));
    TellsAlike(c1, p.core, without, gone, []);
    GoneInbound(c, env, key);
    OutputsFree(without, env, gone);
    if p.aborted {
      TellsNothing(gone, Do(gone, ResetStream(conn, stream)));
    }
  }

  lemma PublicSame(c: Core, c1: Core, env: Env, conn: ConnId, verdict: Option<Multistream.Output>,
                   refusal: Option<ErrorKind>)
    requires Inv(c, env) && c1.app == c.app
    requires c1.net.connToPeer == c.net.connToPeer && c1.net.peerToConn == c.net.peerToConn
    ensures EstablishedPeer(c1, conn) == PublicName(c1.net, conn)
    ensures Complains(c1.net, conn, verdict, refusal) == Complains(c.net, conn, verdict, refusal)
  {
    hide Inv;
    PublicIs(c, env, conn);
  }

  /** Talk is no verdict. */
  lemma VerdictLast(n: Multistream.Select)
    requires n.pending != [] ==> MultistreamOutcome.Talk(n.pending[..|n.pending| - 1])
    requires n.state.Done? <==> !MultistreamOutcome.Talk(n.pending)
    ensures forall net: Net, conn, refusal ::
              Complains(net, conn, LastOf(n.pending), refusal) == Complains(net, conn, Verdict(n), refusal)
  {
  }

  lemma UndecidedValid(m: Multistream.Select)
    requires Undecided(m)
    ensures m.Valid()
  {
  }

  lemma TellsAlike(a: Core, b: Core, c: Core, d: Core, told: seq<Event>)
    requires Tells(a, b, told) && c.events == a.events && d.events == b.events
    ensures Tells(c, d, told)
  {
  }

  function FedOut(c: Core, key: Key, data: Blob): Multistream.Select
    requires key in c.net.outbound && c.net.outbound[key].negotiator.Valid()
  {
    Multistream.Receive(c.net.outbound[key].negotiator, data)
  }

  function Fed(c: Core, key: Key, n: Multistream.Select): Net
    requires key in c.net.outbound
  {
    c.net.(outbound := c.net.outbound[key := c.net.outbound[key].(negotiator := n.(pending := []))])
  }

  lemma FedGone(c: Core, key: Key, n: Multistream.Select)
    requires key in c.net.outbound
    ensures var to := Fed(c, key, n);
            to.(outbound := to.outbound - {key}) == c.net.(outbound := c.net.outbound - {key})
  {
    var to := Fed(c, key, n);
    assert to.outbound - {key} == c.net.outbound - {key};
  }

  lemma FeedOutboundCases(c: Core, env: Env, conn: ConnId, stream: StreamId, data: Blob, nowMs: u64)
    returns (gone: Core)
    requires Inv(c, env) && (conn, stream) in c.net.outbound
    ensures Undecided(c.net.outbound[(conn, stream)].negotiator)
    ensures Unheard(c.(net := c.net.(outbound := c.net.outbound - {(conn, stream)})), gone) && Inv(gone, env)
    ensures gone.actions == c.actions + Talked(conn, stream, FedOut(c, (conn, stream), data).pending)
    ensures var verdict := Verdict(FedOut(c, (conn, stream), data));
            gone.events == c.events + Complains(c.net, conn, verdict, Some(UnsupportedProtocol))
    ensures var key := (conn, stream);
            var n, d := FedOut(c, key, data), FeedOutbound(c, conn, stream, data, nowMs);
            if Verdict(n).None? then
              && !n.state.Done? && d.actions == gone.actions && d.events == gone.events
              && Unheard(c.(net := Fed(c, key, n)), d)
            else if Verdict(n).value.Negotiated? then
              var c2 := OutboundNegotiated(gone, conn, stream, c.net.outbound[key].target, nowMs);
              d == if n.recvBuf == [] then c2 else Dispatch(c2, conn, stream, n.recvBuf, nowMs)
            else
              && Unheard(gone, d) && d.events == gone.events
              && d.actions == gone.actions + [ResetStream(conn, stream)]
  {
    hide Multistream.Receive, Play, OutboundNegotiated, Dispatch, Tells, Inv, Undecided, PublicName, Complains,
         Talked, EstablishedPeer, Verdict;
    var key := (conn, stream);
    OutboundAlone(c, env, key);
    UndecidedValid(c.net.outbound[key].negotiator);
    var n := FedOut(c, key, data);
    ReceiveUndecided(c.net.outbound[key].negotiator, data);
    var c1 := c.(net := Fed(c, key, n));
    FedGone(c, key, n);
    var p := Play(c1, conn, stream, n.pending, None, Some(UnsupportedProtocol));
    PlayFacts(c, c1, env, conn, stream, n, Some(UnsupportedProtocol));
    gone := p.core.(net := p.core.net.(outbound := p.core.net.outbound - {key}));
    var without := c.(net := c.net.(outbound := c.net.outbound - {key}));
    TellsAlike(c1, p.core, without, gone, []);
    GoneOutbound(c, env, key);
    OutputsFree(without, env, gone);
    if p.aborted {
      TellsNothing(gone, Do(gone, ResetStream(conn, stream)));
    }
  }

  /** Nothing but the entries of one stream, and names of connections, has changed. */
  ghost predicate OnlyAt(key: Key, net: Net, to: Net) {
    && to.opens == net.opens && to.nextToken == net.nextToken
    && to.inbound - {key} == net.inbound - {key}
    && to.outbound - {key} == net.outbound - {key}
    && to.owner - {key} == net.owner - {key}
  }

  lemma OnlyAtThen(key: Key, a: Net, b: Net, c: Net)
    requires OnlyAt(key, a, b) && OnlyAt(key, b, c)
    ensures OnlyAt(key, a, c)
  {
  }

  lemma OnlyAtInbound(key: Key, net: Net, m: Multistream.Select)
    ensures OnlyAt(key, net, net.(inbound := net.inbound - {key}))
    ensures OnlyAt(key, net, net.(inbound := net.inbound[key := m]))
  {
  }

  lemma OnlyAtOutbound(key: Key, net: Net, p: PendingOutbound)
    ensures OnlyAt(key, net, net.(outbound := net.outbound - {key}))
    ensures OnlyAt(key, net, net.(outbound := net.outbound[key := p]))
  {
  }

  lemma OnlyAtOwner(key: Key, net: Net, kind: Kind)
    ensures OnlyAt(key, net, Own(net, key, kind)) && OnlyAt(key, net, net.(owner := net.owner - {key}))
  {
  }

  lemma OnlyAtNamed(key: Key, net: Net, kind: Option<Kind>)
    ensures OnlyAt(key, net, OwnIf(Ensure(net, key.0), key, kind))
  {
    hide OnlyAt;
    assert OnlyAt(key, net, Ensure(net, key.0)) by { OnlyAtEnsure(key, net); }
    if kind.Some? {
      OnlyAtOwner(key, Ensure(net, key.0), kind.value);
      OnlyAtThen(key, net, Ensure(net, key.0), OwnIf(Ensure(net, key.0), key, kind));
    }
  }

  lemma OnlyAtEnsure(key: Key, net: Net)
    ensures OnlyAt(key, net, Ensure(net, key.0))
  {
  }

  lemma FeedInboundElsewhere(c: Core, env: Env, conn: ConnId, stream: StreamId, data: Blob, nowMs: u64)
    requires Inv(c, env) && Negotiating(c.net) && (conn, stream) in c.net.inbound
    ensures OnlyAt((conn, stream), c.net, FeedInbound(c, conn, stream, data, nowMs).net)
  {
    hide FeedInbound, Dispatch, InboundNegotiated, Inv, Tells, Multistream.Receive, Ping.RegisterInbound, Negotiating,
         OnlyAt, InboundKind, OwnIf, Ensure;
    var key := (conn, stream);
    var gone := FeedInboundCases(c, env, conn, stream, data, nowMs);
    InboundAlone(c, env, key);
    UndecidedValid(c.net.inbound[key]);
    var n := FedIn(c, key, data);
    OnlyAtInbound(key, c.net, n.(pending := []));
    if Verdict(n).Some? && Verdict(n).value.Negotiated? {
      var protocol := Verdict(n).value.protocol;
      InvIdle(gone, env);
      InboundNegotiatedEffect(gone, conn, stream, protocol);
      InboundNegotiatedKeeps(gone, env, conn, stream, protocol);
      DispatchNet(InboundNegotiated(gone, conn, stream, protocol), env, conn, stream, n.recvBuf, nowMs);
      OnlyAtNamed(key, gone.net, InboundKind(gone, PeerOf(gone.net, conn), protocol));
      OnlyAtThen(key, c.net, gone.net, InboundNegotiated(gone, conn, stream, protocol).net);
    }
  }

  lemma FeedOutboundElsewhere(c: Core, env: Env, conn: ConnId, stream: StreamId, data: Blob, nowMs: u64)
    requires Inv(c, env) && Negotiating(c.net) && (conn, stream) in c.net.outbound
    ensures OnlyAt((conn, stream), c.net, FeedOutbound(c, conn, stream, data, nowMs).net)
  {
    hide FeedOutbound, Dispatch, OutboundNegotiated, Inv, Tells, Multistream.Receive, PingOpened, PingRefuses,
         Negotiating, Identify.RegisterInbound, OnlyAt, Own;
    var key := (conn, stream);
    var gone := FeedOutboundCases(c, env, conn, stream, data, nowMs);
    OutboundAlone(c, env, key);
    UndecidedValid(c.net.outbound[key].negotiator);
    var n, target := FedOut(c, key, data), c.net.outbound[key].target;
    OnlyAtOutbound(key, c.net, c.net.outbound[key].(negotiator := n.(pending := [])));
    if Verdict(n).Some? && Verdict(n).value.Negotiated? {
      InvIdle(gone, env);
      OutboundNegotiatedEffect(gone, conn, stream, target, nowMs);
      OutboundNegotiatedKeeps(gone, env, conn, stream, target, nowMs);
      DispatchNet(OutboundNegotiated(gone, conn, stream, target, nowMs), env, conn, stream, n.recvBuf, nowMs);
      OnlyAtOwner(key, gone.net, target);
      OnlyAtThen(key, c.net, gone.net, OutboundNegotiated(gone, conn, stream, target, nowMs).net);
    }
  }

  /** Data touches neither the pending opens nor the streams of other keys. */
  lemma StreamDataElsewhere(c: Core, env: Env, conn: ConnId, stream: StreamId, data: Blob, nowMs: u64)
    requires Inv(c, env) && Negotiating(c.net)
    ensures OnlyAt((conn, stream), c.net, StreamData(c, conn, stream, data, nowMs).net)
  {
    hide FeedInbound, FeedOutbound, Dispatch, Inv, Negotiating;
    if (conn, stream) in c.net.inbound {
      FeedInboundElsewhere(c, env, conn, stream, data, nowMs);
    } else if (conn, stream) in c.net.outbound {
      FeedOutboundElsewhere(c, env, conn, stream, data, nowMs);
    } else {
      DispatchNet(c, env, conn, stream, data, nowMs);
    }
  }

  lemma DispatchNet(c: Core, env: Env, conn: ConnId, stream: StreamId, data: Blob, nowMs: u64)
    requires Inv(c, env)
    ensures Dispatch(c, conn, stream, data, nowMs).net == c.net
  {
    hide Inv, Tells;
    if (conn, stream) in c.net.owner {
      DispatchEffect(c, env, conn, stream, data, nowMs);
    }
  }
}

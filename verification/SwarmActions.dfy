/** Every step of the swarm performs its script (crates/swarm/src/core.rs:232-312, 765-1124, 1126-1525):
    the actions and events it queues and the machines it leaves are exactly what the script leads to
    (`StepPerforms`), and the streams being opened afterwards are those that were, less the ones the
    step resolved, and the ones it asked for (`StepOpens`). */
module SwarmActions {
  import opened Bytes
  import opened Ids
  import opened Swarm
  import opened SwarmRouting
  import opened SwarmInvariant
  import opened SwarmSteps
  import opened SwarmEffects
  import opened SwarmRuns
  import opened SwarmAgreement
  import opened SwarmScripts
  import SwarmEvents
  import IdentifyMessage
  import Multistream
  import Ping
  import Identify

  // ---------------------------------------------------------------------------- the machines

  lemma FeedPingPerforms(c: Core, input: Ping.Input)
    requires Ping.Idle(c.ping)
    ensures FeedPing(c, input).net == c.net && FeedPing(c, input).app == c.app
    ensures Performs(c, FeedPing(c, input), [PingIn(input)])
  {
    hide DrainPing, Ping.Handle, RoutePing, ReportPing, Acts, News, PingAfter, IdentifyAfter;
    DrainPingForm(c.(ping := Ping.Handle(c.ping, input).0));
    ScriptOne(c.net, c.app, c.ping, c.identify, PingIn(input));
  }

  /** Only the end of a remote's message can make a peer known. */
  lemma {:induction false} OnlyFailures(net: Net, app: App, events: seq<Identify.Event>)
    requires forall i :: 0 <= i < |events| ==> events[i].Failed?
    ensures Absorb(net, app, events).0 == app
    decreases |events|
  {
    if events != [] {
      OnlyFailures(net, app, events[1..]);
    }
  }

  lemma ReportsFailures(m: Identify.Machine, input: Identify.Input)
    requires Identify.Idle(m) && !input.StreamRemoteWriteClosed?
    ensures var n := Identify.Handle(m, input).0;
            forall i :: 0 <= i < |n.events| ==> n.events[i].Failed?
  {
  }

  lemma DrainIdentifyPerforms(c: Core, input: Identify.Input)
    requires Identify.Idle(c.identify)
    ensures var d := DrainIdentify(c.(identify := Identify.Handle(c.identify, input).0));
            && d.net == c.net && Performs(c, d, [IdentifyIn(input)])
            && (!input.StreamRemoteWriteClosed? ==> d.app == c.app)
  {
    hide DrainIdentify, Identify.Handle, RouteIdentify, Absorb, Acts, News, PingAfter, IdentifyAfter;
    var m := Identify.Handle(c.identify, input).0;
    DrainIdentifyForm(c.(identify := m));
    ScriptOne(c.net, c.app, c.ping, c.identify, IdentifyIn(input));
    if !input.StreamRemoteWriteClosed? {
      ReportsFailures(c.identify, input);
      OnlyFailures(c.net, c.app, m.events);
    }
  }

  lemma FeedIdentifyPerforms(c: Core, input: Identify.Input)
    requires Identify.Idle(c.identify)
    ensures FeedIdentify(c, input).net == c.net && Performs(c, FeedIdentify(c, input), [IdentifyIn(input)])
    ensures !input.StreamRemoteWriteClosed? ==> FeedIdentify(c, input).app == c.app
  {
    hide DrainIdentify, Performs, Identify.Handle;
    DrainIdentifyPerforms(c, input);
  }

  // ------------------------------------------------------------------------------ data events

  lemma DispatchPerforms(c: Core, env: Env, conn: ConnId, stream: StreamId, data: Blob, nowMs: u64)
    requires Inv(c, env)
    ensures var key := (conn, stream);
            var kind := if key in c.net.owner then Some(c.net.owner[key]) else None;
            Performs(c, Dispatch(c, conn, stream, data, nowMs),
                     Received(kind, PeerOf(c.net, conn), stream, data, nowMs))
    ensures Dispatch(c, conn, stream, data, nowMs).app == c.app
  {
    hide Inv, FeedPing, FeedIdentify, Performs;
    var key, d := (conn, stream), Dispatch(c, conn, stream, data, nowMs);
    InvIdle(c, env);
    PerformsNothing(c, c);
    if key in c.net.owner {
      OwnerNamed(c, env, key);
      var peer := c.net.connToPeer[conn];
      match c.net.owner[key] {
        case PingKind => FeedPingPerforms(c, Ping.StreamData(peer, stream, data, nowMs));
        case IdentifyInitiator => FeedIdentifyPerforms(c, Identify.StreamData(peer, stream, data));
        case IdentifyResponder =>
        case User(_) => PerformsReport(c, d, UserStreamData(peer, stream, data));
      }
    }
  }

  lemma {:induction false} SayingDeeds(key: Key, outputs: seq<Multistream.Output>)
    ensures Plainly(Saying(key, outputs)) && Notices(Saying(key, outputs)) == []
    ensures Deeds(Saying(key, outputs)) == Talked(key.0, key.1, outputs)
  {
    if outputs != [] {
      SayingDeeds(key, outputs[1..]);
      if outputs[0].OutboundData? {
        assert Saying(key, outputs)[1..] == Saying(key, outputs[1..]);
      } else {
        assert Saying(key, outputs) == Saying(key, outputs[1..]);
      }
    }
  }

  lemma {:induction false} ReportingNotices(events: seq<Event>)
    ensures Plainly(Reporting(events)) && Deeds(Reporting(events)) == [] && Notices(Reporting(events)) == events
  {
    if events != [] {
      ReportingNotices(events[1..]);
      assert Reporting(events)[1..] == Reporting(events[1..]);
    }
  }

  lemma TalkingDeeds(c: Core, key: Key, n: Multistream.Select, refusal: Option<ErrorKind>)
    ensures var talk := Talking(c, key, n, refusal);
            && Plainly(talk) && Deeds(talk) == Talked(key.0, key.1, n.pending)
            && Notices(talk) == Complains(c.net, key.0, Verdict(n), refusal)
  {
    hide Complains, Saying, Deeds, Notices, Reporting, Talked, Verdict;
    var said, told := Saying(key, n.pending), Complains(c.net, key.0, Verdict(n), refusal);
    SayingDeeds(key, n.pending);
    ReportingNotices(told);
    DeedsAppend(said, Reporting(told));
    NoticesAppend(said, Reporting(told));
  }

  /** Talk, then whatever the verdict leads to. */
  lemma TalkThen(c: Core, gone: Core, d: Core, key: Key, n: Multistream.Select, refusal: Option<ErrorKind>,
                 more: seq<Doing>)
    requires gone.actions == c.actions + Talked(key.0, key.1, n.pending)
    requires gone.events == c.events + Complains(c.net, key.0, Verdict(n), refusal)
    requires gone.ping == c.ping && gone.identify == c.identify && gone.app == c.app && Performs(gone, d, more)
    ensures Performs(c, d, Talking(c, key, n, refusal) + more)
  {
    hide Performs, Talked, Talking, Complains, SameUnder, Plainly, Verdict;
    var talk := Talking(c, key, n, refusal);
    TalkingDeeds(c, key, n, refusal);
    PerformsPlainly(c, gone, talk);
    PlainSame(gone.net, d.net, c, talk);
    PerformsThen(c, gone, d, talk, more);
  }

  lemma JoinInPerforms(c: Core, conn: ConnId, stream: StreamId, protocol: Blob)
    requires Ping.Idle(c.ping) && Identify.Idle(c.identify)
    ensures Performs(c, InboundNegotiated(c, conn, stream, protocol), JoinsIn(c, (conn, stream), protocol))
    ensures InboundNegotiated(c, conn, stream, protocol).app == c.app
  {
    hide FeedPing, DrainIdentify, Performs, Ensure, Identify.RegisterOutbound, InboundIdentify;
    var key, peer := (conn, stream), PeerOf(c.net, conn);
    var d, c1 := InboundNegotiated(c, conn, stream, protocol), c.(net := Ensure(c.net, conn));
    EnsureAddr(c.net, conn);
    if protocol == PING_ID {
      var c2 := c1.(net := Own(c1.net, key, PingKind));
      FeedPingPerforms(c2, Ping.RegisterInboundStream(peer, stream));
      PerformsFrom(c, c2, d, [PingIn(Ping.RegisterInboundStream(peer, stream))]);
    } else if protocol == IDENTIFY_ID {
      AnswerPerforms(c1, conn, stream, peer);
      PerformsFrom(c, c1, d, JoinsIn(c, key, protocol));
    } else if protocol in c.app.users {
      PerformsReport(c, d, UserStreamReady(peer, stream, protocol, false));
    } else {
      PerformsNothing(c, d);
    }
  }

  lemma EnsureAddr(net: Net, conn: ConnId)
    ensures Ensure(net, conn).remoteAddr == net.remoteAddr
  {
  }

  lemma AnswerPerforms(c: Core, conn: ConnId, stream: StreamId, peer: PeerId)
    requires Identify.Idle(c.identify)
    ensures var observed := if conn in c.net.remoteAddr then Some(c.net.remoteAddr[conn]) else None;
            var input := Identify.RegisterOutboundStream(peer, stream, observed, c.app.localAddrs);
            Performs(c, InboundIdentify(c, conn, stream, peer),
                     if Identify.Peer(c.identify, peer).outbound.Some?
                     then [Reports(RuntimeError(IdentifyStreamRejected, Some(peer), Some(conn))),
                           Does(ResetStream(conn, stream))]
                     else [IdentifyIn(input)])
    ensures InboundIdentify(c, conn, stream, peer).app == c.app
  {
    hide DrainIdentify, Performs;
    var observed := if conn in c.net.remoteAddr then Some(c.net.remoteAddr[conn]) else None;
    var input := Identify.RegisterOutboundStream(peer, stream, observed, c.app.localAddrs);
    var d, c1 := InboundIdentify(c, conn, stream, peer), c.(net := Own(c.net, (conn, stream), IdentifyResponder));
    if Identify.Peer(c.identify, peer).outbound.None? {
      DrainIdentifyPerforms(c1, input);
      PerformsFrom(c, c1, d, [IdentifyIn(input)]);
    } else {
      RefusalPerforms(c, d, RuntimeError(IdentifyStreamRejected, Some(peer), Some(conn)), ResetStream(conn, stream));
    }
  }

  /** A refused stream is reported and reset. */
  lemma RefusalPerforms(c: Core, d: Core, event: Event, action: Action)
    requires d.actions == c.actions + [action] && d.events == c.events + [event]
    requires d.ping == c.ping && d.identify == c.identify
    ensures Performs(c, d, [Reports(event), Does(action)])
  {
    hide Performs, Deeds, Notices;
    DeedsTwo(event, action);
    PerformsPlainly(c, d, [Reports(event), Does(action)]);
  }

  lemma JoinOutPerforms(c: Core, conn: ConnId, stream: StreamId, target: Kind, nowMs: u64)
    requires conn in c.net.connToPeer && Ping.Idle(c.ping) && Identify.Idle(c.identify)
    ensures Performs(c, OutboundNegotiated(c, conn, stream, target, nowMs), JoinsOut(c, (conn, stream), target, nowMs))
    ensures OutboundNegotiated(c, conn, stream, target, nowMs).app.ready == c.app.ready
  {
    hide OutboundPing, FeedIdentify, Performs, PingTaken, Fires;
    var key, peer := (conn, stream), c.net.connToPeer[conn];
    var d, c1 := OutboundNegotiated(c, conn, stream, target, nowMs), c.(net := Own(c.net, key, target));
    match target {
      case PingKind =>
        OutboundPingPerforms(c1, conn, stream, peer, nowMs);
        FiresSame(c, c1, conn, peer, nowMs);
        PerformsFrom(c, c1, d, JoinsOut(c, key, target, nowMs));
      case IdentifyInitiator =>
        FeedIdentifyPerforms(c1, Identify.RegisterInboundStream(peer, stream));
        PerformsFrom(c, c1, d, JoinsOut(c, key, target, nowMs));
      case IdentifyResponder => PerformsNothing(c, d);
      case User(protocol) => PerformsReport(c, d, UserStreamReady(peer, stream, protocol, true));
    }
  }

  lemma FiresSame(c: Core, d: Core, conn: ConnId, peer: PeerId, nowMs: u64)
    requires d.app == c.app && d.ping == c.ping
    ensures Fires(d, conn, peer, nowMs) == Fires(c, conn, peer, nowMs)
  {
  }

  lemma OutboundPingPerforms(c: Core, conn: ConnId, stream: StreamId, peer: PeerId, nowMs: u64)
    requires Ping.Idle(c.ping)
    ensures Performs(c, OutboundPing(c, conn, stream, peer, nowMs),
                     if PingTaken(c.ping, peer, stream)
                     then [Reports(RuntimeError(PingFault, Some(peer), Some(conn))), Does(ResetStream(conn, stream))]
                     else [PingIn(Ping.RegisterOutboundStream(peer, stream))] + Fires(c, conn, peer, nowMs))
    ensures OutboundPing(c, conn, stream, peer, nowMs).app.ready == c.app.ready
  {
    hide DrainPing, Performs, Ping.SendOne, SameUnder;
    var register := Ping.RegisterOutboundStream(peer, stream);
    var d := OutboundPing(c, conn, stream, peer, nowMs);
    if PingTaken(c.ping, peer, stream) {
      RefusalPerforms(c, d, RuntimeError(PingFault, Some(peer), Some(conn)), ResetStream(conn, stream));
    } else {
      FeedPingPerforms(c, register);
      FeedPingEffect(c, register);
      var c1 := FeedPing(c, register);
      RegisteredPing(c.ping, peer, stream);
      assert Ping.Idle(c1.ping);
      FirePerforms(c1, conn, peer, nowMs);
      SameHere(c1.net, c, [PingIn(register)]);
      PerformsThen(c, c1, d, [PingIn(register)], Fires(c, conn, peer, nowMs));
    }
  }

  lemma SameHere(net: Net, c: Core, script: seq<Doing>)
    ensures SameUnder(net, net, c, script)
  {
  }

  lemma RegisteredPing(m: Ping.Machine, peer: PeerId, stream: StreamId)
    requires !PingTaken(m, peer, stream)
    ensures var n := PingDrained(Ping.RegisterOutbound(m, peer, stream).0);
            Ping.Peer(n, peer).outbound == Some(stream) && Ping.Peer(n, peer).pending == Ping.Peer(m, peer).pending
  {
  }

  /** A queued payload is fired, or dropped when the machine refuses it. */
  lemma FirePerforms(c: Core, conn: ConnId, peer: PeerId, nowMs: u64)
    requires Ping.Idle(c.ping) && Ping.Peer(c.ping, peer).outbound.Some?
    ensures var d := Fired(c, conn, peer, nowMs);
            d.net == c.net && d.app.ready == c.app.ready && Performs(c, d, Fires(c, conn, peer, nowMs))
  {
    hide DrainPing, Performs;
    var d := Fired(c, conn, peer, nowMs);
    if peer !in c.app.pendingPings {
      PerformsNothing(c, c);
    } else {
      var payload := c.app.pendingPings[peer];
      var c2 := c.(app := c.app.(pendingPings := c.app.pendingPings - {peer}));
      var input := Ping.SendPing(peer, payload, nowMs);
      if Ping.SendOne(c2.ping, peer, payload, nowMs).1.None? {
        FeedPingPerforms(c2, input);
        PerformsFrom(c, c2, FeedPing(c2, input), [PingIn(input)]);
      } else {
        PerformsReport(c, d, RuntimeError(PingFault, Some(peer), Some(conn)));
      }
    }
  }

  /** What becomes of a queued payload once its stream is registered. */
  function Fired(c: Core, conn: ConnId, peer: PeerId, nowMs: u64): Core {
    if peer !in c.app.pendingPings then c
    else
      var payload := c.app.pendingPings[peer];
      var c2 := c.(app := c.app.(pendingPings := c.app.pendingPings - {peer}));
      var (m, e) := Ping.SendOne(c2.ping, peer, payload, nowMs);
      if e.None? then DrainPing(c2.(ping := m)) else Fault(c2, PingFault, Some(peer), Some(conn))
  }

  /** An agreed protocol, then the bytes behind the handshake. */
  lemma JoinReceive(gone: Core, c2: Core, d: Core, join: seq<Doing>, more: seq<Doing>)
    requires Performs(gone, c2, join) && Performs(c2, d, more) && d.net == c2.net && c2.app.ready == gone.app.ready
    ensures Performs(gone, d, join + more)
  {
    hide Performs, SameUnder;
    SameHere(c2.net, gone, join);
    PerformsThen(gone, c2, d, join, more);
  }

  lemma InboundPerforms(c: Core, env: Env, conn: ConnId, stream: StreamId, data: Blob, nowMs: u64)
    requires Inv(c, env) && Negotiating(c.net) && (conn, stream) in c.net.inbound
    ensures Performs(c, FeedInbound(c, conn, stream, data, nowMs), InboundScript(c, (conn, stream), data, nowMs))
  {
    hide FeedInbound, Dispatch, InboundNegotiated, Inv, Tells, Multistream.Receive, Negotiating, Performs, Talked,
         Talking, Ensure, Ping.RegisterInbound, JoinsIn, Received, Complains, Verdict;
    var key := (conn, stream);
    var gone := FeedInboundCases(c, env, conn, stream, data, nowMs);
    InboundAlone(c, env, key);
    UndecidedValid(c.net.inbound[key]);
    var n, d := FedIn(c, key, data), FeedInbound(c, conn, stream, data, nowMs);
    if Verdict(n).None? {
      PerformsNothing(gone, d);
      TalkThen(c, gone, d, key, n, None, []);
    } else if Verdict(n).value.Negotiated? {
      var protocol, peer := Verdict(n).value.protocol, PeerOf(c.net, conn);
      JoinedIn(c, env, gone, key, protocol, n.recvBuf, nowMs);
      var more := if n.recvBuf == [] then []
                  else Received(InboundKind(c, peer, protocol), peer, stream, n.recvBuf, nowMs);
      TalkThen(c, gone, d, key, n, None, JoinsIn(c, key, protocol) + more);
    } else {
      PerformsAct(gone, d, ResetStream(conn, stream));
      TalkThen(c, gone, d, key, n, None, [Does(ResetStream(conn, stream))]);
    }
  }

  lemma JoinedIn(c: Core, env: Env, gone: Core, key: Key, protocol: Blob, rest: Blob, nowMs: u64)
    requires Inv(gone, env) && key in env.used && Live(env, key.0)
    requires key !in gone.net.inbound && key !in gone.net.outbound && key !in gone.net.owner
    requires gone.net.connToPeer == c.net.connToPeer && gone.net.remoteAddr == c.net.remoteAddr
    requires gone.app == c.app && gone.identify == c.identify
    ensures var c2 := InboundNegotiated(gone, key.0, key.1, protocol);
            var d, peer := if rest == [] then c2 else Dispatch(c2, key.0, key.1, rest, nowMs), PeerOf(c.net, key.0);
            var more := if rest == [] then [] else Received(InboundKind(c, peer, protocol), peer, key.1, rest, nowMs);
            Performs(gone, d, JoinsIn(c, key, protocol) + more)
  {
    hide Dispatch, InboundNegotiated, Inv, Performs, Received, JoinsIn, InboundKind;
    var conn, stream, peer := key.0, key.1, PeerOf(gone.net, key.0);
    var c2 := InboundNegotiated(gone, conn, stream, protocol);
    InvIdle(gone, env);
    JoinInPerforms(gone, conn, stream, protocol);
    JoinsInSame(c, gone, key, protocol);
    KindIn(gone, conn, stream, protocol);
    InboundNegotiatedKeeps(gone, env, conn, stream, protocol);
    DispatchPerforms(c2, env, conn, stream, rest, nowMs);
    DispatchNet(c2, env, conn, stream, rest, nowMs);
    PerformsNothing(c2, c2);
    var d := if rest == [] then c2 else Dispatch(c2, conn, stream, rest, nowMs);
    var more := if rest == [] then [] else Received(InboundKind(c, peer, protocol), peer, stream, rest, nowMs);
    JoinReceive(gone, c2, d, JoinsIn(c, key, protocol), more);
  }

  lemma JoinsInSame(c: Core, gone: Core, key: Key, protocol: Blob)
    requires gone.net.connToPeer == c.net.connToPeer && gone.net.remoteAddr == c.net.remoteAddr
    requires gone.app == c.app && gone.identify == c.identify
    ensures JoinsIn(gone, key, protocol) == JoinsIn(c, key, protocol)
    ensures InboundKind(gone, PeerOf(c.net, key.0), protocol) == InboundKind(c, PeerOf(c.net, key.0), protocol)
  {
  }

  lemma JoinsOutSame(c: Core, gone: Core, key: Key, target: Kind, nowMs: u64)
    requires gone.net.connToPeer == c.net.connToPeer && gone.ping == c.ping && gone.app == c.app
    ensures JoinsOut(gone, key, target, nowMs) == JoinsOut(c, key, target, nowMs)
    ensures OutboundKind(gone, PeerOf(c.net, key.0), key.1, target)
         == OutboundKind(c, PeerOf(c.net, key.0), key.1, target)
  {
  }

  function KindAt(net: Net, key: Key): Option<Kind> {
    if key in net.owner then Some(net.owner[key]) else None
  }

  /** Whom a stream belongs to once its protocol is agreed on. */
  lemma KindIn(c: Core, conn: ConnId, stream: StreamId, protocol: Blob)
    requires Identify.Idle(c.identify) && (conn, stream) !in c.net.owner
    ensures var net := InboundNegotiated(c, conn, stream, protocol).net;
            && KindAt(net, (conn, stream)) == InboundKind(c, PeerOf(c.net, conn), protocol)
            && PeerOf(net, conn) == PeerOf(c.net, conn)
  {
    hide InboundNegotiated, Tells, Ensure, Ping.RegisterInbound, InboundKind;
    InboundNegotiatedEffect(c, conn, stream, protocol);
    EnsureStreams(c.net, conn);
    EnsurePeer(c.net, conn);
  }

  lemma KindOut(c: Core, conn: ConnId, stream: StreamId, target: Kind, nowMs: u64)
    requires conn in c.net.connToPeer && Identify.Idle(c.identify)
    ensures var net := OutboundNegotiated(c, conn, stream, target, nowMs).net;
            && KindAt(net, (conn, stream)) == OutboundKind(c, c.net.connToPeer[conn], stream, target)
            && PeerOf(net, conn) == PeerOf(c.net, conn)
  {
    hide OutboundNegotiated, Tells, PingOpened, Identify.RegisterInbound, PingRefuses, PingTaken;
    OutboundNegotiatedEffect(c, conn, stream, target, nowMs);
    RefusesTaken(c.ping, c.net.connToPeer[conn], stream);
  }

  lemma RefusesTaken(m: Ping.Machine, peer: PeerId, stream: StreamId)
    ensures PingRefuses(m, peer, stream) <==> PingTaken(m, peer, stream)
  {
  }

  lemma EnsurePeer(net: Net, conn: ConnId)
    ensures conn in Ensure(net, conn).connToPeer && Ensure(net, conn).connToPeer[conn] == PeerOf(net, conn)
  {
  }

  lemma OutboundPerforms(c: Core, env: Env, conn: ConnId, stream: StreamId, data: Blob, nowMs: u64)
    requires Inv(c, env) && Negotiating(c.net) && (conn, stream) in c.net.outbound
    ensures Performs(c, FeedOutbound(c, conn, stream, data, nowMs), OutboundScript(c, (conn, stream), data, nowMs))
  {
    hide FeedOutbound, Dispatch, OutboundNegotiated, Inv, Tells, Multistream.Receive, Negotiating, Performs,
         Talked, Talking, JoinsOut, Received, Complains, Verdict, PingTaken;
    var key := (conn, stream);
    var gone := FeedOutboundCases(c, env, conn, stream, data, nowMs);
    OutboundAlone(c, env, key);
    UndecidedValid(c.net.outbound[key].negotiator);
    var n, d, target := FedOut(c, key, data), FeedOutbound(c, conn, stream, data, nowMs), c.net.outbound[key].target;
    var refusal := Some(UnsupportedProtocol);
    if Verdict(n).None? {
      PerformsNothing(gone, d);
      TalkThen(c, gone, d, key, n, refusal, []);
    } else if Verdict(n).value.Negotiated? {
      JoinedOut(c, env, gone, key, target, n.recvBuf, nowMs);
      var peer := PeerOf(c.net, conn);
      var more := if n.recvBuf == [] then []
                  else Received(OutboundKind(c, peer, stream, target), peer, stream, n.recvBuf, nowMs);
      TalkThen(c, gone, d, key, n, refusal, JoinsOut(c, key, target, nowMs) + more);
    } else {
      PerformsAct(gone, d, ResetStream(conn, stream));
      TalkThen(c, gone, d, key, n, refusal, [Does(ResetStream(conn, stream))]);
    }
  }

  lemma JoinedOut(c: Core, env: Env, gone: Core, key: Key, target: Kind, rest: Blob, nowMs: u64)
    requires Inv(gone, env) && key in env.used && key.0 in gone.net.connToPeer
    requires key !in gone.net.inbound && key !in gone.net.outbound && key !in gone.net.owner
    requires target.IdentifyInitiator? ==> Known(gone.net, key.0)
    requires gone.net.connToPeer == c.net.connToPeer && gone.app == c.app && gone.ping == c.ping
    ensures var c2 := OutboundNegotiated(gone, key.0, key.1, target, nowMs);
            var d, peer := if rest == [] then c2 else Dispatch(c2, key.0, key.1, rest, nowMs), PeerOf(c.net, key.0);
            var more := if rest == [] then []
                        else Received(OutboundKind(c, peer, key.1, target), peer, key.1, rest, nowMs);
            Performs(gone, d, JoinsOut(c, key, target, nowMs) + more)
  {
    hide Dispatch, OutboundNegotiated, Inv, Performs, Received, JoinsOut, OutboundKind;
    var conn, stream, peer := key.0, key.1, PeerOf(gone.net, key.0);
    var c2 := OutboundNegotiated(gone, conn, stream, target, nowMs);
    InvIdle(gone, env);
    JoinOutPerforms(gone, conn, stream, target, nowMs);
    JoinsOutSame(c, gone, key, target, nowMs);
    KindOut(gone, conn, stream, target, nowMs);
    OutboundNegotiatedKeeps(gone, env, conn, stream, target, nowMs);
    DispatchPerforms(c2, env, conn, stream, rest, nowMs);
    DispatchNet(c2, env, conn, stream, rest, nowMs);
    PerformsNothing(c2, c2);
    var d := if rest == [] then c2 else Dispatch(c2, conn, stream, rest, nowMs);
    var more := if rest == [] then [] else Received(OutboundKind(c, peer, stream, target), peer, stream, rest, nowMs);
    JoinReceive(gone, c2, d, JoinsOut(c, key, target, nowMs), more);
  }

  lemma DataPerforms(c: Core, env: Env, conn: ConnId, stream: StreamId, data: Blob, nowMs: u64)
    requires Inv(c, env) && Negotiating(c.net)
    ensures Performs(c, StreamData(c, conn, stream, data, nowMs), DataScript(c, (conn, stream), data, nowMs))
  {
    hide Inv, FeedInbound, FeedOutbound, Dispatch, InboundScript, OutboundScript, Performs;
    if (conn, stream) in c.net.inbound {
      InboundPerforms(c, env, conn, stream, data, nowMs);
    } else if (conn, stream) in c.net.outbound {
      OutboundPerforms(c, env, conn, stream, data, nowMs);
    } else {
      DispatchPerforms(c, env, conn, stream, data, nowMs);
    }
  }

  // ----------------------------------------------------------------------------- other events

  lemma WriteClosePerforms(c: Core, env: Env, conn: ConnId, stream: StreamId)
    requires Inv(c, env)
    ensures Performs(c, RemoteWriteClosed(c, conn, stream), WriteCloseScript(c, (conn, stream)))
  {
    hide Inv, FeedPing, FeedIdentify, Performs;
    var key, d := (conn, stream), RemoteWriteClosed(c, conn, stream);
    InvIdle(c, env);
    PerformsNothing(c, c);
    if key in c.net.owner {
      OwnerNamed(c, env, key);
      var peer := c.net.connToPeer[conn];
      match c.net.owner[key] {
        case PingKind => FeedPingPerforms(c, Ping.StreamRemoteWriteClosed(peer, stream));
        case IdentifyInitiator => FeedIdentifyPerforms(c, Identify.StreamRemoteWriteClosed(peer, stream));
        case IdentifyResponder =>
        case User(_) => PerformsReport(c, d, UserStreamRemoteWriteClosed(peer, stream));
      }
    }
  }

  /** Whether a stream is still negotiating makes no difference to routing. */
  lemma {:induction false} RoutesAlike(net: Net, to: Net, actions: seq<Ping.Action>)
    requires to.connToPeer == net.connToPeer && to.owner == net.owner
    ensures RoutePing(to, actions) == RoutePing(net, actions)
  {
    hide Least;
    if actions != [] {
      RoutesAlike(net, to, actions[1..]);
      assert OwnedOn(to, actions[0].peer, actions[0].stream, PingKind)
          == OwnedOn(net, actions[0].peer, actions[0].stream, PingKind);
    }
  }

  lemma {:induction false} AnswersAlike(net: Net, to: Net, actions: seq<Identify.Action>)
    requires to.peerToConn == net.peerToConn
    ensures RouteIdentify(to, actions) == RouteIdentify(net, actions)
  {
    if actions != [] {
      AnswersAlike(net, to, actions[1..]);
    }
  }

  lemma {:induction false} ReportsAlike(net: Net, to: Net, events: seq<Ping.Event>)
    requires to.peerToConn == net.peerToConn
    ensures ReportPing(to, events) == ReportPing(net, events)
  {
    if events != [] {
      ReportsAlike(net, to, events[1..]);
    }
  }

  lemma {:induction false} AbsorbsAlike(net: Net, to: Net, app: App, events: seq<Identify.Event>)
    requires to.peerToConn == net.peerToConn
    ensures Absorb(to, app, events) == Absorb(net, app, events)
    decreases |events|
  {
    if events != [] {
      AbsorbsAlike(net, to, AbsorbOne(net, app, events[0]).0, events[1..]);
    }
  }

  lemma AlikeOne(net: Net, to: Net, c: Core, doing: Doing)
    requires to.connToPeer == net.connToPeer && to.peerToConn == net.peerToConn && to.owner == net.owner
    ensures SameUnder(net, to, c, [doing])
  {
    hide RoutePing, RouteIdentify, ReportPing, Absorb, Ping.Handle, Identify.Handle, Acts, News;
    ScriptOne(net, c.app, c.ping, c.identify, doing);
    ScriptOne(to, c.app, c.ping, c.identify, doing);
    if doing.PingIn? {
      RoutesAlike(net, to, Ping.Handle(c.ping, doing.ping).0.actions);
      ReportsAlike(net, to, Ping.Handle(c.ping, doing.ping).0.events);
    } else if doing.IdentifyIn? {
      AnswersAlike(net, to, Identify.Handle(c.identify, doing.identify).0.actions);
      AbsorbsAlike(net, to, c.app, Identify.Handle(c.identify, doing.identify).0.events);
    }
  }

  lemma ClosePerforms(c: Core, env: Env, conn: ConnId, stream: StreamId)
    requires Inv(c, env)
    ensures Performs(c, StreamClosed(c, conn, stream), CloseScript(c, (conn, stream)))
  {
    hide Inv, FeedPing, FeedIdentify, Performs, SameUnder;
    var key, d := (conn, stream), StreamClosed(c, conn, stream);
    InvIdle(c, env);
    var c0 := c.(net := c.net.(owner := c.net.owner - {key}));
    if key in c.net.owner {
      OwnerNamed(c, env, key);
      var peer, script := c.net.connToPeer[conn], CloseScript(c, key);
      var c1 := Closing(c0, c.net.owner[key], peer, stream);
      ClosingPerforms(c0, c.net.owner[key], peer, stream);
      AlikeOne(c1.net, d.net, c0, script[0]);
      assert script == [script[0]];
      PerformsAlike(c, c0, c1, d, script);
    } else {
      PerformsNothing(c, d);
    }
  }

  lemma ClosingPerforms(c: Core, kind: Kind, peer: PeerId, stream: StreamId)
    requires Ping.Idle(c.ping) && Identify.Idle(c.identify)
    ensures Closing(c, kind, peer, stream).net == c.net
    ensures Performs(c, Closing(c, kind, peer, stream), ClosingScript(kind, peer, stream))
  {
    hide FeedPing, FeedIdentify, Performs;
    match kind {
      case PingKind => FeedPingPerforms(c, Ping.StreamClosed(peer, stream));
      case User(_) => PerformsReport(c, Closing(c, kind, peer, stream), UserStreamClosed(peer, stream));
      case _ => FeedIdentifyPerforms(c, Identify.StreamClosed(peer, stream));
    }
  }

  lemma OpeningPerforms(c: Core, env: Env, op: Op)
    requires Inv(c, env) && Negotiating(c.net) && (op.StreamArrives? || op.DriverOpened? || op.DriverFailed?)
    ensures Performs(c, Step(c, op), Part(c, op))
  {
    hide Opened, Multistream.EncodeMessage, Performs, Negotiating, Inv, EstablishedPeer, PublicName;
    var d := Step(c, op);
    match op {
      case StreamArrives(id, stream) => GreetingPerforms(c, d, id, stream);
      case DriverOpened(id, stream, token) =>
        if token in c.net.opens && c.net.opens[token].conn == id {
          GreetingPerforms(c, d, id, stream);
        } else {
          PublicNear(c, env, id, token);
          PerformsReport(c, d, d.events[|c.events|]);
        }
      case DriverFailed(token) =>
        if token in c.net.opens {
          PublicNear(c, env, c.net.opens[token].conn, token);
        }
        PerformsReport(c, d, d.events[|c.events|]);
    }
  }

  lemma PublicNear(c: Core, env: Env, conn: ConnId, token: u64)
    requires Inv(c, env)
    ensures EstablishedPeer(c.(net := c.net.(opens := c.net.opens - {token})), conn) == PublicName(c.net, conn)
  {
    hide Inv;
    PublicIs(c, env, conn);
  }

  lemma GreetingPerforms(c: Core, d: Core, conn: ConnId, stream: StreamId)
    requires d.actions == c.actions + [SendStream(conn, stream, Multistream.EncodeMessage(Multistream.HEADER))]
    requires d.events == c.events && d.ping == c.ping && d.identify == c.identify
    ensures Performs(c, d, Greeting(conn, stream))
  {
    hide Performs, Multistream.EncodeMessage;
    PerformsAct(c, d, SendStream(conn, stream, Multistream.EncodeMessage(Multistream.HEADER)));
  }

  // --------------------------------------------------------------------- asking for streams

  /** The tables once streams have been asked for, under the next tokens. */
  ghost function Asking(net: Net, asked: seq<PendingOpen>): (to: Net)
    requires net.nextToken + |asked| < TWO_64
    ensures to.nextToken == net.nextToken + |asked|
    decreases |asked|
  {
    if asked == [] then net
    else
      Asking(net.(opens := net.opens[net.nextToken := asked[0]], nextToken := net.nextToken + 1), asked[1..])
  }

  lemma AskingOne(net: Net, open: PendingOpen)
    requires net.nextToken + 1 < TWO_64
    ensures Asking(net, [open]) == net.(opens := net.opens[net.nextToken := open], nextToken := net.nextToken + 1)
  {
    assert [open][1..] == [];
  }

  lemma AskingTwo(net: Net, open: PendingOpen, more: PendingOpen)
    requires net.nextToken + 2 < TWO_64
    ensures Asking(net, [open] + [more]) == Asking(Asking(net, [open]), [more])
  {
    AskingOne(net, open);
    assert ([open] + [more])[1..] == [more];
  }

  lemma QueueOpenForm(c: Core, peer: PeerId, protocol: Blob, target: Kind)
    requires 1 <= c.net.nextToken && c.net.nextToken + 1 < TWO_64 && peer in c.net.peerToConn
    ensures var conn := c.net.peerToConn[peer];
            QueueOpen(c, peer, protocol, target)
              == (c.(net := Asking(c.net, [PendingOpen(conn, protocol, target)]),
                     actions := c.actions + [OpenStream(conn, c.net.nextToken)]), None)
  {
    hide Asking;
    AskingOne(c.net, PendingOpen(c.net.peerToConn[peer], protocol, target));
  }

  lemma OpensPlain(token: nat, asked: seq<PendingOpen>)
    requires token + |asked| < TWO_64
    ensures Plainly(Opens(token, asked)) && Notices(Opens(token, asked)) == []
    ensures |asked| == 0 ==> Deeds(Opens(token, asked)) == []
    ensures |asked| == 1 ==> Deeds(Opens(token, asked)) == [OpenStream(asked[0].conn, token)]
    ensures |asked| == 2 ==>
              Deeds(Opens(token, asked)) == [OpenStream(asked[0].conn, token), OpenStream(asked[1].conn, token + 1)]
    decreases |asked|
  {
    if asked != [] {
      OpensPlain(token + 1, asked[1..]);
      assert Opens(token, asked)[1..] == Opens(token + 1, asked[1..]);
    }
  }

  /** The streams asked for when a connection is announced. */
  ghost function Announced(c: Core, conn: ConnId, peer: PeerId): seq<PendingOpen> {
    [PendingOpen(conn, IDENTIFY_ID, IdentifyInitiator)] +
    if peer in c.app.pendingPings && Ping.OutboundStream(c.ping, peer).None? && NoPing(c.net, conn)
    then [PendingOpen(conn, PING_ID, PingKind)] else []
  }

  lemma PendingIff(net: Net, peer: PeerId)
    requires peer in net.peerToConn
    ensures HasPendingPing(net, peer) <==> !NoPing(net, net.peerToConn[peer])
  {
    if !HasPendingPing(net, peer) {
      NotPending(net, peer);
    }
  }

  lemma AskedIdentify(net: Net, conn: ConnId, on: ConnId)
    requires net.nextToken + 1 < TWO_64 && net.nextToken !in net.opens
    ensures NoPing(Asking(net, [PendingOpen(conn, IDENTIFY_ID, IdentifyInitiator)]), on) <==> NoPing(net, on)
  {
    hide Asking;
    var to := Asking(net, [PendingOpen(conn, IDENTIFY_ID, IdentifyInitiator)]);
    AskingOne(net, PendingOpen(conn, IDENTIFY_ID, IdentifyInitiator));
    assert forall t :: PingOpening(to, t) <==> PingOpening(net, t);
    assert forall t :: PingOpening(net, t) ==> to.opens[t] == net.opens[t];
    assert forall k :: PingNegotiating(to, k) <==> PingNegotiating(net, k);
  }

  lemma AnnounceForm(c: Core, conn: ConnId, peer: PeerId)
    requires 1 <= c.net.nextToken && c.net.nextToken + 2 < TWO_64 && c.net.nextToken !in c.net.opens
    requires peer in c.net.peerToConn && c.net.peerToConn[peer] == conn
    ensures var asked := Announced(c, conn, peer);
            Announce(c, conn, peer) ==
              c.(net := Asking(c.net, asked), app := c.app.(established := c.app.established + {peer}),
                 events := c.events + [ConnectionEstablished(peer)],
                 actions := c.actions + Deeds(Opens(c.net.nextToken, asked)))
  {
    hide QueueOpen, Asking, HasPendingPing, NoPing, Opens;
    var identify, ping := PendingOpen(conn, IDENTIFY_ID, IdentifyInitiator), PendingOpen(conn, PING_ID, PingKind);
    var t := c.net.nextToken;
    var c1 := Push(c.(app := c.app.(established := c.app.established + {peer})), ConnectionEstablished(peer));
    QueueOpenForm(c1, peer, IDENTIFY_ID, IdentifyInitiator);
    AskingOne(c.net, identify);
    var c2 := QueueOpen(c1, peer, IDENTIFY_ID, IdentifyInitiator).0;
    PendingIff(c2.net, peer);
    AskedIdentify(c.net, conn, conn);
    OpensPlain(t, Announced(c, conn, peer));
    if peer in c.app.pendingPings && Ping.OutboundStream(c.ping, peer).None? && NoPing(c.net, conn) {
      QueueOpenForm(c2, peer, PING_ID, PingKind);
      AskingTwo(c.net, identify, ping);
      assert Announced(c, conn, peer) == [identify] + [ping];
      assert c.actions + [OpenStream(conn, t)] + [OpenStream(conn, t + 1)]
          == c.actions + [OpenStream(conn, t), OpenStream(conn, t + 1)];
    } else {
      assert Announced(c, conn, peer) == [identify];
    }
  }

  // ------------------------------------------------------------------------------ connections

  lemma SilentInputs(m: Ping.Machine, n: Identify.Machine, ping: Ping.Input, identify: Identify.Input)
    requires Ping.Idle(m) && Identify.Idle(n)
    requires (ping.RemovePeer? || ping.MigratePeer?) && (identify.RemovePeer? || identify.MigratePeer?)
    ensures Ping.Idle(Ping.Handle(m, ping).0) && Identify.Idle(Identify.Handle(n, identify).0)
  {
  }

  /** A pair of inputs the machines take in silence, and then what the core does itself. */
  lemma PerformsSilently(c: Core, d: Core, ping: Ping.Input, identify: Identify.Input, rest: seq<Doing>)
    requires Ping.Idle(c.ping) && Identify.Idle(c.identify) && Plainly(rest)
    requires (ping.RemovePeer? || ping.MigratePeer?) && (identify.RemovePeer? || identify.MigratePeer?)
    requires d.ping == PingDrained(Ping.Handle(c.ping, ping).0)
    requires d.identify == IdentifyDrained(Identify.Handle(c.identify, identify).0)
    requires d.actions == c.actions + Deeds(rest) && d.events == c.events + Notices(rest)
    ensures Performs(c, d, [PingIn(ping), IdentifyIn(identify)] + rest)
  {
    hide Ping.Handle, Identify.Handle, Performs, SameUnder, Deeds, Notices;
    SilentInputs(c.ping, c.identify, ping, identify);
    var b := c.(ping := d.ping);
    var e := b.(identify := d.identify);
    SilentOne(c, b, PingIn(ping));
    SilentOne(b, e, IdentifyIn(identify));
    SilentSame(c, PingIn(ping), b.net, d.net);
    SameHere(b.net, c, [PingIn(ping)]);
    PerformsThen(c, b, e, [PingIn(ping)], [IdentifyIn(identify)]);
    var pair := [PingIn(ping), IdentifyIn(identify)];
    assert [PingIn(ping)] + [IdentifyIn(identify)] == pair;
    PerformsPlainly(e, d, rest);
    PairSame(c, ping, identify, e.net, d.net);
    PerformsThen(c, e, d, pair, rest);
  }

  lemma SilentOne(c: Core, d: Core, doing: Doing)
    requires d.actions == c.actions && d.events == c.events
    requires doing.PingIn? || doing.IdentifyIn?
    requires doing.PingIn? ==> Ping.Idle(Ping.Handle(c.ping, doing.ping).0)
    requires doing.IdentifyIn? ==> Identify.Idle(Identify.Handle(c.identify, doing.identify).0)
    requires d.ping == PingDoes(c.ping, doing) && d.identify == IdentifyDoes(c.identify, doing)
    ensures Performs(c, d, [doing])
  {
    hide Ping.Handle, Identify.Handle, Acts, News;
    ScriptOne(d.net, c.app, c.ping, c.identify, doing);
  }

  lemma SilentSame(c: Core, doing: Doing, net: Net, to: Net)
    requires doing.PingIn? ==> Ping.Idle(Ping.Handle(c.ping, doing.ping).0)
    requires doing.IdentifyIn? ==> Identify.Idle(Identify.Handle(c.identify, doing.identify).0)
    ensures SameUnder(net, to, c, [doing])
  {
    hide Ping.Handle, Identify.Handle, Acts, News;
    ScriptOne(net, c.app, c.ping, c.identify, doing);
    ScriptOne(to, c.app, c.ping, c.identify, doing);
  }

  lemma PairSame(c: Core, ping: Ping.Input, identify: Identify.Input, net: Net, to: Net)
    requires Ping.Idle(Ping.Handle(c.ping, ping).0) && Identify.Idle(Identify.Handle(c.identify, identify).0)
    ensures SameUnder(net, to, c, [PingIn(ping), IdentifyIn(identify)])
  {
    hide Ping.Handle, Identify.Handle, Acts, News;
    var first, second := [PingIn(ping)], [IdentifyIn(identify)];
    assert first + second == [PingIn(ping), IdentifyIn(identify)];
    var b := c.(ping := PingAfter(c.ping, first));
    SilentSame(c, PingIn(ping), net, to);
    ScriptOne(net, c.app, c.ping, c.identify, PingIn(ping));
    SilentSame(b, IdentifyIn(identify), net, to);
    ActsAppend(net, c.ping, c.identify, first, second);
    ActsAppend(to, c.ping, c.identify, first, second);
    NewsAppend(net, c.app, c.ping, c.identify, first, second);
    NewsAppend(to, c.app, c.ping, c.identify, first, second);
  }

  /** Streams asked for on a new connection of a peer. */
  ghost function Welcomed(c: Core, conn: ConnId, peer: PeerId): seq<PendingOpen> {
    Asked(c, Connected(conn, Some(peer), []))
  }

  lemma TokenFree(c: Core, env: Env)
    requires Inv(c, env)
    ensures 1 <= c.net.nextToken && c.net.nextToken !in c.net.opens
  {
  }

  lemma FreshQuiet(net: Net, env: Env, to: Net, conn: ConnId)
    requires Disciplined(net, env) && conn !in net.connToPeer && Recedes(net, to) && to.nextToken == net.nextToken
    ensures NoPing(to, conn)
  {
  }

  lemma AdmittedPing(c: Core, env: Env, conn: ConnId, peer: PeerId)
    requires Inv(c, env)
    ensures var a := Admitted(c, conn, peer);
            && a.ping == (if peer in c.net.peerToConn then Ping.Remove(c.ping, peer) else c.ping)
            && a.identify == (if peer in c.net.peerToConn then Identify.Remove(c.identify, peer) else c.identify)
            && a.app.pendingPings == c.app.pendingPings && a.events == c.events
            && a.actions == c.actions + (if peer in c.net.peerToConn
                                         then [CloseConnection(c.net.peerToConn[peer])] else [])
            && a.net.peerToConn == c.net.peerToConn[peer := conn]
  {
    hide Supersede, Inv, Bind;
    if peer in c.net.peerToConn {
      SupersedeForm(c, env, peer);
      DetachedFacts(c.net, c.net.peerToConn[peer]);
    }
    AdmittedBind(c, conn, peer);
  }

  lemma AdmittedBind(c: Core, conn: ConnId, peer: PeerId)
    ensures var c1 := if peer in c.net.peerToConn then Supersede(c, c.net.peerToConn[peer]) else c;
            Admitted(c, conn, peer).net.peerToConn == c1.net.peerToConn[peer := conn]
  {
    hide Supersede;
  }

  lemma WelcomeIs(c: Core, env: Env, conn: ConnId, peer: PeerId)
    requires Inv(c, env) && conn !in c.net.connToPeer
    ensures Announced(Admitted(c, conn, peer), conn, peer) == Welcomed(c, conn, peer)
  {
    hide Admitted, Readiness, Coherent, Alive, Named, Handshaking, NoPing;
    AdmittedPing(c, env, conn, peer);
    AdmittedRecedes(c, env, conn, peer);
    FreshQuiet(c.net, env, Admitted(c, conn, peer).net, conn);
  }

  lemma RegisterForm(c: Core, env: Env, conn: ConnId, peer: PeerId)
    requires Inv(c, env) && Live(env, conn) && conn !in c.net.connToPeer && peer.Verified?
    requires c.net.nextToken + 2 < TWO_64
    ensures Admitted(c, conn, peer).net.nextToken == c.net.nextToken
    ensures var a, asked := Admitted(c, conn, peer), Welcomed(c, conn, peer);
            Register(c, conn, peer)
              == a.(net := Asking(a.net, asked), events := c.events + [ConnectionEstablished(peer)],
                    actions := a.actions + Deeds(Opens(c.net.nextToken, asked)))
  {
    hide Admitted, Inv, Supersede, Announce, Deeds, Opens, Announced, Welcomed;
    assert peer in c.net.peerToConn ==> PointsBack(c.net, peer) by { Points(c, env); }
    RegisterIs(c, conn, peer);
    Admits(c, env, conn, peer);
    AdmittedPing(c, env, conn, peer);
    AdmittedEstablished(c, conn, peer);
    var a := Admitted(c, conn, peer);
    TokenFree(a, env);
    AnnounceForm(a, conn, peer);
    WelcomeIs(c, env, conn, peer);
    assert a.app.established + {peer} == a.app.established;
  }

  lemma RegisterPerforms(c: Core, env: Env, conn: ConnId, peer: PeerId)
    requires Inv(c, env) && Live(env, conn) && conn !in c.net.connToPeer && peer.Verified?
    requires c.net.nextToken + 2 < TWO_64
    ensures Performs(c, Register(c, conn, peer),
                     Displaces(c, peer) + [Reports(ConnectionEstablished(peer))]
                     + Opens(c.net.nextToken, Welcomed(c, conn, peer)))
  {
    hide Register, Inv, Performs, Opens, Welcomed, Asking, Admitted, Deeds, Notices, Plainly;
    InvIdle(c, env);
    RegisterForm(c, env, conn, peer);
    AdmittedPing(c, env, conn, peer);
    var d, opens := Register(c, conn, peer), Opens(c.net.nextToken, Welcomed(c, conn, peer));
    OpensPlain(c.net.nextToken, Welcomed(c, conn, peer));
    var tell := Reports(ConnectionEstablished(peer));
    OneThen(tell, opens);
    if peer in c.net.peerToConn {
      var shut := Does(CloseConnection(c.net.peerToConn[peer]));
      OneThen(shut, [tell] + opens);
      var rest := [shut] + ([tell] + opens);
      assert d.actions == c.actions + Deeds(rest);
      RemovedDrained(c.ping, c.identify, peer);
      PerformsSilently(c, d, Ping.RemovePeer(peer), Identify.RemovePeer(peer), rest);
      assert Displaces(c, peer) + [tell] + opens == Forget(peer) + rest;
    } else {
      PerformsPlainly(c, d, [tell] + opens);
      assert Displaces(c, peer) + [tell] + opens == [tell] + opens;
    }
  }

  lemma OneThen(doing: Doing, rest: seq<Doing>)
    requires Plainly(rest) && (doing.Does? || doing.Reports?)
    ensures Plainly([doing] + rest)
    ensures Deeds([doing] + rest) == (if doing.Does? then [doing.action] else []) + Deeds(rest)
    ensures Notices([doing] + rest) == (if doing.Reports? then [doing.event] else []) + Notices(rest)
  {
    assert ([doing] + rest)[1..] == rest;
  }

  lemma RemovedDrained(m: Ping.Machine, n: Identify.Machine, peer: PeerId)
    requires Ping.Idle(m) && Identify.Idle(n)
    ensures PingDrained(Ping.Handle(m, Ping.RemovePeer(peer)).0) == Ping.Remove(m, peer)
    ensures IdentifyDrained(Identify.Handle(n, Identify.RemovePeer(peer)).0) == Identify.Remove(n, peer)
  {
  }

  lemma UpgradedIs(c: Core, env: Env, conn: ConnId, peer: PeerId)
    requires Inv(c, env) && !(conn in c.net.connToPeer && c.net.connToPeer[conn] == peer)
    ensures var u, from := Upgraded(c, conn, peer), FormerName(c, conn);
            && u.actions == c.actions && u.net.nextToken == c.net.nextToken && u.net.opens == c.net.opens
            && u.net.peerToConn
                 == (if from.Some? then c.net.peerToConn - {from.value} else c.net.peerToConn)[peer := conn]
            && u.ping == (if from.Some? then Ping.Migrate(c.ping, from.value, peer) else c.ping)
            && u.identify == (if from.Some? then Identify.Migrate(c.identify, from.value, peer) else c.identify)
            && u.events == (if from.Some? then RenameEvents(c.events, from.value, peer) else c.events)
            && (peer in u.app.ready <==> ReadyThen(c, from, peer))
            && (if peer in u.app.peerInfo then Some(u.app.peerInfo[peer]) else None) == InfoThen(c, from, peer)
  {
    hide Rekey, Sound, Coherent, Readiness, RenameEvents, Ping.Migrate, Identify.Migrate;
    if conn in c.net.connToPeer {
      RekeyForm(c, c.net.connToPeer[conn], peer);
    }
  }

  lemma UpgradeForm(c: Core, env: Env, conn: ConnId, peer: PeerId)
    requires Inv(c, env) && Live(env, conn) && peer.Verified? && c.net.nextToken + 2 < TWO_64
    requires !(conn in c.net.connToPeer && c.net.connToPeer[conn] == peer)
    ensures Upgraded(c, conn, peer).net.nextToken == c.net.nextToken
    ensures var u, d := Upgraded(c, conn, peer), Upgrade(c, conn, peer);
            && d.net == Asking(u.net, [PendingOpen(conn, IDENTIFY_ID, IdentifyInitiator)])
            && d.actions == c.actions + [OpenStream(conn, c.net.nextToken)]
            && d.events == u.events + Notices(Introduces(c, FormerName(c, conn), peer))
            && d.ping == u.ping && d.identify == u.identify
  {
    hide Rekey, QueueOpen, Inv, Asking, RenameEvents, Ping.Migrate, Identify.Migrate, Bind, Upgraded;
    CounterStarted(c, env);
    UpgradedIs(c, env, conn, peer);
    UpgradeIs(c, conn, peer);
    var u := Upgraded(c, conn, peer);
    var c3 := TryReady(Push(u, ConnectionEstablished(peer)), peer);
    QueueOpenForm(c3, peer, IDENTIFY_ID, IdentifyInitiator);
    IntroducesPlain(c, FormerName(c, conn), peer);
  }

  lemma UpgradeIs(c: Core, conn: ConnId, peer: PeerId)
    requires !(conn in c.net.connToPeer && c.net.connToPeer[conn] == peer)
    ensures var c3 := TryReady(Push(Upgraded(c, conn, peer), ConnectionEstablished(peer)), peer);
            var (c4, e) := QueueOpen(c3, peer, IDENTIFY_ID, IdentifyInitiator);
            Upgrade(c, conn, peer) == if e.None? then c4 else Fault(c4, IdentifyFault, Some(peer), Some(conn))
  {
    hide Rekey, QueueOpen, Bind, TryReady;
  }

  lemma IntroducesPlain(c: Core, from: Option<PeerId>, peer: PeerId)
    ensures var script := Introduces(c, from, peer);
            && Plainly(script) && Deeds(script) == []
            && Notices(script) == [ConnectionEstablished(peer)]
                 + if InfoThen(c, from, peer).Some? && !ReadyThen(c, from, peer)
                   then [PeerReady(peer, InfoThen(c, from, peer).value.protocols)] else []
  {
    hide InfoThen, ReadyThen, Deeds, Notices;
    var tell := Reports(ConnectionEstablished(peer));
    DeedsOne(tell);
    if InfoThen(c, from, peer).Some? && !ReadyThen(c, from, peer) {
      var ready := Reports(PeerReady(peer, InfoThen(c, from, peer).value.protocols));
      DeedsOne(ready);
      DeedsAppend([tell], [ready]);
      NoticesAppend([tell], [ready]);
    } else {
      assert Introduces(c, from, peer) == [tell];
    }
  }

  lemma UpgradePerforms(c: Core, env: Env, conn: ConnId, peer: PeerId)
    requires Inv(c, env) && Live(env, conn) && peer.Verified? && c.net.nextToken + 2 < TWO_64
    requires !(conn in c.net.connToPeer && c.net.connToPeer[conn] == peer)
    ensures var from, u := FormerName(c, conn), Upgraded(c, conn, peer);
            Performs(c.(events := u.events), Upgrade(c, conn, peer),
                     Migrates(from, peer) + Introduces(c, from, peer)
                     + Opens(c.net.nextToken, [PendingOpen(conn, IDENTIFY_ID, IdentifyInitiator)]))
  {
    hide Upgrade, Inv, Performs, Opens, Asking, Upgraded, Introduces, Ping.Migrate, Identify.Migrate, RenameEvents,
         InfoThen, ReadyThen, Deeds, Notices, Plainly;
    InvIdle(c, env);
    UpgradeForm(c, env, conn, peer);
    UpgradedIs(c, env, conn, peer);
    var from, asked := FormerName(c, conn), [PendingOpen(conn, IDENTIFY_ID, IdentifyInitiator)];
    var d, opens, tell := Upgrade(c, conn, peer), Opens(c.net.nextToken, asked), Introduces(c, from, peer);
    OpensPlain(c.net.nextToken, asked);
    IntroducesPlain(c, from, peer);
    DeedsAppend(tell, opens);
    NoticesAppend(tell, opens);
    PlainJoin(tell, opens);
    var b := c.(events := Upgraded(c, conn, peer).events);
    if from.Some? {
      MigratedIdle(c.ping, c.identify, from.value, peer);
      PerformsSilently(b, d, Ping.MigratePeer(from.value, peer), Identify.MigratePeer(from.value, peer), tell + opens);
      assert Migrates(from, peer) + tell + opens == Migrates(from, peer) + (tell + opens);
    } else {
      PerformsPlainly(b, d, tell + opens);
      assert Migrates(from, peer) + tell + opens == tell + opens;
    }
  }

  lemma PlainJoin(s: seq<Doing>, t: seq<Doing>)
    requires Plainly(s) && Plainly(t)
    ensures Plainly(s + t)
  {
  }

  lemma MigratedIdle(m: Ping.Machine, n: Identify.Machine, from: PeerId, to: PeerId)
    requires Ping.Idle(m) && Identify.Idle(n)
    ensures PingDrained(Ping.Migrate(m, from, to)) == Ping.Migrate(m, from, to)
    ensures IdentifyDrained(Identify.Migrate(n, from, to)) == Identify.Migrate(n, from, to)
  {
  }

  lemma ConnClosedActions(c: Core, conn: ConnId)
    requires Ping.Idle(c.ping) && Identify.Idle(c.identify)
    ensures ConnClosed(c, conn).actions == c.actions
  {
    hide ForgetPeer;
    if conn in c.net.connToPeer {
      var peer := c.net.connToPeer[conn];
      var net1 := c.net.(active := c.net.active - {conn}, remoteAddr := c.net.remoteAddr - {conn},
                         connToPeer := c.net.connToPeer - {conn});
      ForgetForm(c.(net := net1.(peerToConn := net1.peerToConn - {peer})), peer);
    }
  }

  lemma ConnClosedPerforms(c: Core, conn: ConnId)
    requires Ping.Idle(c.ping) && Identify.Idle(c.identify) && Negotiating(c.net)
    ensures Performs(c, ConnClosed(c, conn), Part(c, ConnectionCloses(conn)))
  {
    hide ConnClosed, Performs, Negotiating, DataScript, WriteCloseScript, CloseScript;
    ConnClosedMachines(c, conn);
    ConnClosedActions(c, conn);
    SwarmEvents.CloseTells(c, conn);
    var d := ConnClosed(c, conn);
    if conn in c.net.connToPeer && ConnFor(c.net, c.net.connToPeer[conn]) == Some(conn) {
      var peer := c.net.connToPeer[conn];
      DeedsOne(Reports(ConnectionClosed(peer)));
      PerformsSilently(c, d, Ping.RemovePeer(peer), Identify.RemovePeer(peer), [Reports(ConnectionClosed(peer))]);
    } else {
      PerformsNothing(c, d);
    }
  }

  lemma SameScripts(c: Core, d: Core, peer: PeerId, conn: ConnId)
    requires d == c.(net := d.net) && d.net.peerToConn == c.net.peerToConn && d.net.connToPeer == c.net.connToPeer
    ensures Displaces(d, peer) == Displaces(c, peer) && Welcomed(d, conn, peer) == Welcomed(c, conn, peer)
    ensures FormerName(d, conn) == FormerName(c, conn)
    ensures Introduces(d, FormerName(c, conn), peer) == Introduces(c, FormerName(c, conn), peer)
  {
  }

  lemma ConnectedPerforms(c: Core, env: Env, op: Op)
    requires Inv(c, env) && Negotiating(c.net) && Allowed(env, c, op) && op.Connected?
    ensures Performs(c, Step(c, op), Script(c, op))
  {
    hide Inv, Register, Performs, Negotiating, Displaces, Opens;
    var c1, env1 := Seen(Activate(c, op.id, true), op.id, op.addr), Advance(env, op);
    if op.who.Some? {
      var peer := op.who.value;
      ConnectedSound(c, env, op.id);
      SeenKeeps(c, env1, op.id, op.addr);
      RegisterPerforms(c1, env1, op.id, peer);
      SameScripts(c, c1, peer, op.id);
      PerformsFrom(c, c1, Step(c, op), Script(c, op));
    } else {
      PerformsNothing(c, Step(c, op));
      assert Script(c, op) == [];
    }
  }

  lemma VerifiedPerforms(c: Core, env: Env, op: Op)
    requires Inv(c, env) && Negotiating(c.net) && Allowed(env, c, op) && op.IdentityVerified?
    ensures Performs(Readdressed(c, op), Step(c, op), Script(c, op))
  {
    hide Inv, Upgrade, Performs, Negotiating, Opens, Upgraded, RenameEvents, Introduces, Ping.Migrate, Identify.Migrate,
         InfoThen, ReadyThen;
    var c1, d := Seen(c, op.id, op.addr), Step(c, op);
    if Renames(c, op) {
      var peer := op.who.value;
      SeenKeeps(c, env, op.id, op.addr);
      UpgradePerforms(c1, env, op.id, peer);
      UpgradedIs(c1, env, op.id, peer);
      SameScripts(c, c1, peer, op.id);
      PerformsFrom(Readdressed(c, op), c1.(events := Upgraded(c1, op.id, peer).events), d, Script(c, op));
    } else {
      if op.who.Some? {
        UpgradeIdle(c1, op.id, op.who.value);
      }
      PerformsNothing(c, d);
      assert Script(c, op) == [];
    }
  }

  lemma TickPerforms(c: Core, env: Env, nowMs: u64, order: seq<PeerId>)
    requires Inv(c, env)
    ensures var d := DrainIdentify(DrainPing(c.(ping := Ping.TickAll(c.ping, nowMs, order))));
            Performs(c, d, [PingIn(Ping.Tick(nowMs, order))])
  {
    hide Inv, DrainPing, DrainIdentify, Ping.TickAll, Performs;
    InvIdle(c, env);
    var input := Ping.Tick(nowMs, order);
    FeedPingPerforms(c, input);
    FeedPingEffect(c, input);
    IdleIdentify(FeedPing(c, input));
  }

  /** A step that only asks for one stream, or for none. */
  lemma AskPerforms(c: Core, d: Core, asked: seq<PendingOpen>)
    requires |asked| <= 1 && c.net.nextToken + 2 < TWO_64
    requires d.actions == c.actions + (if asked == [] then [] else [OpenStream(asked[0].conn, c.net.nextToken)])
    requires d.events == c.events && d.ping == c.ping && d.identify == c.identify
    ensures Performs(c, d, [] + Opens(c.net.nextToken, asked))
  {
    hide Performs;
    var opens := Opens(c.net.nextToken, asked);
    OpensPlain(c.net.nextToken, asked);
    PerformsPlainly(c, d, opens);
    assert [] + opens == opens;
  }

  lemma PingPeerPerforms(c: Core, env: Env, peer: PeerId, payload: Blob, nowMs: u64)
    requires Inv(c, env) && c.net.nextToken + 2 < TWO_64 && Negotiating(c.net)
    ensures Performs(c, PingPeer(c, peer, payload, nowMs).0, Script(c, CallPing(peer, payload, nowMs)))
  {
    hide Inv, QueueOpen, DrainPing, HasPendingPing, Ping.SendOne, Negotiating, Performs, NoPing, Opens, Asking;
    CounterStarted(c, env);
    InvIdle(c, env);
    var d, op := PingPeer(c, peer, payload, nowMs).0, CallPing(peer, payload, nowMs);
    if peer !in c.net.peerToConn {
      AskPerforms(c, c, []);
    } else if Ping.OutboundStream(c.ping, peer).Some? {
      PingSends(c, peer, payload, nowMs);
      assert Script(c, op) == [PingIn(Ping.SendPing(peer, payload, nowMs))];
    } else {
      var queued := c.(app := c.app.(pendingPings := c.app.pendingPings[peer := payload]));
      QueueOpenForm(queued, peer, PING_ID, PingKind);
      PendingIff(c.net, peer);
      AskPerforms(c, d, Asked(c, op));
    }
  }

  lemma PingSends(c: Core, peer: PeerId, payload: Blob, nowMs: u64)
    requires Ping.Idle(c.ping) && peer in c.net.peerToConn && Ping.OutboundStream(c.ping, peer).Some?
    ensures Performs(c, PingPeer(c, peer, payload, nowMs).0, [PingIn(Ping.SendPing(peer, payload, nowMs))])
  {
    hide DrainPing, Ping.SendOne, Performs, QueueOpen, HasPendingPing;
    var input := Ping.SendPing(peer, payload, nowMs);
    if Ping.SendOne(c.ping, peer, payload, nowMs).1.Some? {
      SendOneRefused(c.ping, peer, payload, nowMs);
      SilentOne(c, c, PingIn(input));
    } else {
      FeedPingPerforms(c, input);
    }
  }

  lemma UserCallPerforms(c: Core, peer: PeerId, stream: StreamId, call: UserCall)
    requires Negotiating(c.net) && c.net.nextToken + 2 < TWO_64
    ensures Performs(c, UserStreamCall(c, peer, stream, call).0, Script(c, CallUser(peer, stream, call)))
  {
    hide Performs, Negotiating, UserConns, Least, Opens;
    var d, op := UserStreamCall(c, peer, stream, call).0, CallUser(peer, stream, call);
    assert Script(c, op) == Part(c, op);
    if UserConns(c.net, peer, stream) == {} {
      PerformsNothing(c, d);
    } else {
      var conn := Least(UserConns(c.net, peer, stream));
      match call {
        case SendUser(data) => PerformsAct(c, d, SendStream(conn, stream, data));
        case CloseUserWrite => PerformsAct(c, d, CloseStreamWrite(conn, stream));
        case ResetUser => PerformsAct(c, d, ResetStream(conn, stream));
      }
    }
  }

  lemma OpenUserPerforms(c: Core, env: Env, peer: PeerId, protocol: Blob)
    requires Inv(c, env) && Negotiating(c.net) && c.net.nextToken + 2 < TWO_64
    ensures Performs(c, OpenUserStream(c, peer, protocol).0, Script(c, CallOpen(peer, protocol)))
  {
    hide Inv, QueueOpen, Negotiating, Performs, Opens, Asking;
    CounterStarted(c, env);
    var d, op := OpenUserStream(c, peer, protocol).0, CallOpen(peer, protocol);
    if MayOpen(c, peer, protocol) {
      QueueOpenForm(c, peer, protocol, User(protocol));
    }
    AskPerforms(c, d, Asked(c, op));
  }

  lemma OfferPerforms(c: Core, d: Core, protocol: Blob)
    requires d.actions == c.actions && d.events == c.events && d.ping == c.ping
    requires d.identify == Identify.AddProtocol(c.identify, protocol)
    ensures Performs(c, d, [Offers(protocol)])
  {
    hide Acts, News;
    ScriptOne(d.net, c.app, c.ping, c.identify, Offers(protocol));
  }

  /** The remaining calls and reports. */
  lemma PlainStepPerforms(c: Core, env: Env, op: Op)
    requires Inv(c, env) && Negotiating(c.net)
    requires op.IncomingConnection? || op.TransportFails? || op.Ignored? || op.DriverReports? || op.CallSetAddresses?
             || op.CallDisconnect? || op.CallAddProtocol?
    ensures Performs(c, Step(c, op), Part(c, op))
  {
    hide Negotiating, Performs, Register, Upgrade, ConnClosed, StreamData, RemoteWriteClosed, StreamClosed, Inv,
         IncomingStream, StreamOpened, OpenFailed, DrainIdentify, DrainPing, PingPeer, OpenUserStream, UserStreamCall,
         EstablishedPeer, PublicName, Identify.AddProtocol, DataScript, WriteCloseScript, CloseScript;
    var d := Step(c, op);
    match op {
      case TransportFails(id) =>
        PublicIs(c, env, id);
        PerformsReport(c, d, RuntimeError(TransportFault, PublicName(c.net, id), Some(id)));
      case DriverReports(kind, on) => PerformsReport(c, d, RuntimeError(kind, None, on));
      case CallDisconnect(peer) =>
        if peer in c.net.peerToConn {
          PerformsAct(c, d, CloseConnection(c.net.peerToConn[peer]));
        } else {
          PerformsNothing(c, d);
        }
      case CallAddProtocol(protocol) => OfferPerforms(c, d, protocol);
      case _ => PerformsNothing(c, d);
    }
  }

  /** Steps that ask for no stream consist of their own part. */
  lemma NothingAsked(c: Core, op: Op)
    requires Negotiating(c.net) && c.net.nextToken + 2 < TWO_64
    requires !op.Connected? && !op.IdentityVerified? && !op.CallPing? && !op.CallOpen?
    ensures Script(c, op) == Part(c, op) && Readdressed(c, op) == c
  {
    hide Negotiating, Part;
    assert Part(c, op) + [] == Part(c, op);
  }

  /** Every step performs its script: what it queues, for the transport and for the application, is
      exactly what the script leads to, behind what was queued before. */
  lemma StepPerforms(c: Core, env: Env, op: Op)
    requires Inv(c, env) && Negotiating(c.net) && Allowed(env, c, op) && !op.PollOutput?
    ensures Performs(Readdressed(c, op), Step(c, op), Script(c, op))
  {
    hide Inv, Performs, Register, Upgrade, StreamData, RemoteWriteClosed, StreamClosed, ConnClosed, IncomingStream,
         StreamOpened, OpenFailed, DrainPing, DrainIdentify, PingPeer, OpenUserStream, UserStreamCall, AddUserProtocol,
         Negotiating, DataScript, WriteCloseScript, CloseScript, Script;
    InvIdle(c, env);
    if !op.Connected? && !op.IdentityVerified? && !op.CallPing? && !op.CallOpen? {
      NothingAsked(c, op);
    }
    match op {
      case Connected(_, _, _) => ConnectedPerforms(c, env, op);
      case IdentityVerified(_, _, _) => VerifiedPerforms(c, env, op);
      case ConnectionCloses(id) => ConnClosedPerforms(c, id);
      case StreamArrives(_, _) => OpeningPerforms(c, env, op);
      case DriverOpened(_, _, _) => OpeningPerforms(c, env, op);
      case DriverFailed(_) => OpeningPerforms(c, env, op);
      case DataArrives(id, stream, data, nowMs) => DataPerforms(c, env, id, stream, data, nowMs);
      case WriteCloses(id, stream) => WriteClosePerforms(c, env, id, stream);
      case StreamCloses(id, stream) => ClosePerforms(c, env, id, stream);
      case Ticks(nowMs, order) => TickPerforms(c, env, nowMs, order);
      case CallPing(peer, payload, nowMs) => PingPeerPerforms(c, env, peer, payload, nowMs);
      case CallOpen(peer, protocol) => OpenUserPerforms(c, env, peer, protocol);
      case CallUser(peer, stream, call) => UserCallPerforms(c, peer, stream, call);
      case _ => PlainStepPerforms(c, env, op);
    }
  }
}

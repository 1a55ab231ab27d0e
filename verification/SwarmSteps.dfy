/** Every stream event, driver report and application call keeps the swarm's invariants.
    First come edits of one table at a time, then the handling of streams and of negotiation in terms
    of those edits, then the calls of the application, and last one step of any kind (`StepKeeps`).
    Outputs are no part of the invariant (`OutputsFree`), and replacing tables without renaming a peer
    is covered once (`SwapNet`). Each lemma hides the functions below the layer it speaks about, so
    that its proof only sees that layer. */
module SwarmSteps {
  import opened Bytes
  import opened Ids
  import opened Swarm
  import opened SwarmRouting
  import opened SwarmInvariant
  import Multistream
  import MultistreamOutcome
  import Ping
  import Identify

  // -------------------------------------------------------------- edits of the stream tables

  function Use(env: Env, key: Key): Env {
    env.(used := env.used + {key})
  }

  lemma UseSound(net: Net, env: Env, key: Key)
    requires Sound(net, env)
    ensures Sound(net, Use(env, key))
  {
  }

  lemma CoherentKept(net: Net, to: Net)
    requires Coherent(net) && to.connToPeer == net.connToPeer && to.peerToConn == net.peerToConn
    ensures Coherent(to)
  {
    assert forall p :: p in net.peerToConn ==> PointsBack(net, p);
  }

  lemma PutInbound(net: Net, env: Env, key: Key, m: Multistream.Select)
    requires Sound(net, env) && Live(env, key.0) && key in env.used && Undecided(m)
    requires key !in net.outbound && key !in net.owner
    ensures Sound(net.(inbound := net.inbound[key := m]), env)
  {
    assert forall id :: Known(net, id) ==> Known(net.(inbound := net.inbound[key := m]), id);
  }

  lemma DropInbound(net: Net, env: Env, key: Key)
    requires Sound(net, env)
    ensures Sound(net.(inbound := net.inbound - {key}), env)
  {
    hide Undecided;
    assert forall id :: Known(net, id) ==> Known(net.(inbound := net.inbound - {key}), id);
  }

  lemma PutOutbound(net: Net, env: Env, key: Key, p: PendingOutbound)
    requires Sound(net, env) && key.0 in net.connToPeer && key in env.used && Undecided(p.negotiator)
    requires key !in net.inbound && key !in net.owner
    requires p.target.IdentifyInitiator? ==> Known(net, key.0)
    ensures Sound(net.(outbound := net.outbound[key := p]), env)
  {
    assert forall id :: Known(net, id) ==> Known(net.(outbound := net.outbound[key := p]), id);
  }

  lemma DropOutbound(net: Net, env: Env, key: Key)
    requires Sound(net, env)
    ensures Sound(net.(outbound := net.outbound - {key}), env)
  {
    hide Undecided;
    assert forall id :: Known(net, id) ==> Known(net.(outbound := net.outbound - {key}), id);
  }

  lemma DropOpen(net: Net, env: Env, token: u64)
    requires Sound(net, env)
    ensures Sound(net.(opens := net.opens - {token}), env)
  {
    hide Handshaking;
    HandshakingKept(net, net.(opens := net.opens - {token}));
    assert forall id :: Known(net, id) ==> Known(net.(opens := net.opens - {token}), id);
  }

  lemma OwnsDisciplined(net: Net, env: Env, key: Key, kind: Kind)
    requires Alive(net, env) && Disciplined(net, env) && key.0 in net.connToPeer && key in env.used
    requires key !in net.inbound && key !in net.outbound
    ensures Alive(Own(net, key, kind), env) && Disciplined(Own(net, key, kind), env)
  {
  }

  lemma OwnsNamed(net: Net, key: Key, kind: Kind)
    requires Named(net) && (kind.IdentifyInitiator? ==> Known(net, key.0))
    ensures Named(Own(net, key, kind))
  {
    assert forall id :: Known(net, id) ==> Known(Own(net, key, kind), id);
  }

  lemma Owns(net: Net, env: Env, key: Key, kind: Kind)
    requires Sound(net, env) && key.0 in net.connToPeer && key in env.used
    requires key !in net.inbound && key !in net.outbound
    requires kind.IdentifyInitiator? ==> Known(net, key.0)
    ensures Sound(Own(net, key, kind), env)
  {
    hide Alive, Disciplined, Named, Handshaking;
    OwnsDisciplined(net, env, key, kind);
    OwnsNamed(net, key, kind);
    HandshakingKept(net, Own(net, key, kind));
  }

  lemma Disowns(net: Net, env: Env, key: Key)
    requires Sound(net, env)
    ensures Sound(net.(owner := net.owner - {key}), env)
  {
    hide Undecided;
    assert forall id :: Known(net, id) ==> Known(net.(owner := net.owner - {key}), id);
  }

  /** Replacing the tables by ones with the same names for peers. */
  lemma SwapNet(c: Core, env: Env, net: Net, env2: Env)
    requires Inv(c, env) && Sound(net, env2)
    requires net.connToPeer == c.net.connToPeer && net.peerToConn == c.net.peerToConn
    ensures Inv(c.(net := net), env2)
  {
    hide Sound;
    CoherentKept(c.net, net);
  }

  /** Outputs are not part of the invariant. */
  lemma OutputsFree(c: Core, env: Env, d: Core)
    requires Inv(c, env) && d == c.(events := d.events, actions := d.actions)
    ensures Inv(d, env)
  {
    hide Sound, Coherent, Readiness;
  }

  // -------------------------------------------------------------------- stream lifecycle

  lemma OpenedUndecided(role: Multistream.Role)
    ensures Undecided(Opened(role))
  {
  }

  lemma IncomingStreamKeeps(c: Core, env: Env, conn: ConnId, stream: StreamId)
    requires Inv(c, env) && Live(env, conn) && (conn, stream) !in env.used
    ensures Inv(IncomingStream(c, conn, stream), Use(env, (conn, stream)))
  {
    hide Opened, Multistream.EncodeMessage;
    var role := Multistream.Listener(set p | p in c.app.supported);
    var env2 := Use(env, (conn, stream));
    OpenedUndecided(role);
    UseSound(c.net, env, (conn, stream));
    PutInbound(c.net, env2, (conn, stream), Opened(role));
    var net := c.net.(inbound := c.net.inbound[(conn, stream) := Opened(role)]);
    SwapNet(c, env, net, env2);
    OutputsFree(c.(net := net), env2, IncomingStream(c, conn, stream));
  }

  lemma StreamOpenedKeeps(c: Core, env: Env, conn: ConnId, stream: StreamId, token: u64)
    requires Inv(c, env) && (conn, stream) !in env.used
    ensures Inv(StreamOpened(c, conn, stream, token), Use(env, (conn, stream)))
  {
    hide Opened, Multistream.EncodeMessage;
    var env2 := Use(env, (conn, stream));
    var d := StreamOpened(c, conn, stream, token);
    UseSound(c.net, env, (conn, stream));
    SwapNet(c, env, c.net, env2);
    if token !in c.net.opens {
      OutputsFree(c, env2, d);
    } else {
      var open := c.net.opens[token];
      var net := c.net.(opens := c.net.opens - {token});
      DropOpen(c.net, env2, token);
      SwapNet(c, env2, net, env2);
      if open.conn != conn {
        OutputsFree(c.(net := net), env2, d);
      } else {
        var role := Multistream.Dialer(open.protocol);
        var pending := PendingOutbound(Opened(role), open.target);
        OpenedUndecided(role);
        assert open.target.IdentifyInitiator? ==> Known(c.net, conn) && Known(net, conn);
        PutOutbound(net, env2, (conn, stream), pending);
        var net2 := net.(outbound := net.outbound[(conn, stream) := pending]);
        SwapNet(c, env2, net2, env2);
        OutputsFree(c.(net := net2), env2, d);
      }
    }
  }

  lemma OpenFailedKeeps(c: Core, env: Env, token: u64)
    requires Inv(c, env)
    ensures Inv(OpenFailed(c, token), env)
  {
    hide Sound, Coherent, Readiness;
    var net := c.net.(opens := c.net.opens - {token});
    DropOpen(c.net, env, token);
    SwapNet(c, env, net, env);
    OutputsFree(if token in c.net.opens then c.(net := net) else c, env, OpenFailed(c, token));
  }

  /** An owned stream's connection has a name, a real one for identify's receiving side. */
  lemma OwnerNamed(c: Core, env: Env, key: Key)
    requires Inv(c, env) && key in c.net.owner
    ensures key.0 in c.net.connToPeer && Live(env, key.0) && Ensure(c.net, key.0) == c.net
    ensures PeerOf(c.net, key.0) == c.net.connToPeer[key.0]
    ensures c.net.owner[key].IdentifyInitiator? ==> c.net.connToPeer[key.0].Verified?
  {
    assert c.net.owner[key].IdentifyInitiator? ==> Known(c.net, key.0);
  }

  lemma DispatchKeeps(c: Core, env: Env, conn: ConnId, stream: StreamId, data: Blob, nowMs: u64)
    requires Inv(c, env)
    ensures Inv(Dispatch(c, conn, stream, data, nowMs), env)
  {
    hide Sound, Coherent, Readiness, FeedPing, FeedIdentify;
    var key := (conn, stream);
    if key in c.net.owner {
      OwnerNamed(c, env, key);
      var peer := c.net.connToPeer[conn];
      match c.net.owner[key] {
        case PingKind => FeedPingKeeps(c, env, Ping.StreamData(peer, stream, data, nowMs));
        case IdentifyInitiator => FeedIdentifyKeeps(c, env, Identify.StreamData(peer, stream, data));
        case _ => OutputsFree(c, env, Dispatch(c, conn, stream, data, nowMs));
      }
    }
  }

  lemma RemoteWriteClosedKeeps(c: Core, env: Env, conn: ConnId, stream: StreamId)
    requires Inv(c, env)
    ensures Inv(RemoteWriteClosed(c, conn, stream), env)
  {
    hide Sound, Coherent, Readiness, FeedPing, FeedIdentify;
    var key := (conn, stream);
    if key in c.net.owner {
      OwnerNamed(c, env, key);
      var peer := c.net.connToPeer[conn];
      match c.net.owner[key] {
        case PingKind => FeedPingKeeps(c, env, Ping.StreamRemoteWriteClosed(peer, stream));
        case IdentifyInitiator => FeedIdentifyKeeps(c, env, Identify.StreamRemoteWriteClosed(peer, stream));
        case _ => OutputsFree(c, env, RemoteWriteClosed(c, conn, stream));
      }
    }
  }

  lemma StreamClosedKeeps(c: Core, env: Env, conn: ConnId, stream: StreamId)
    requires Inv(c, env)
    ensures Inv(StreamClosed(c, conn, stream), env)
  {
    hide Sound, Coherent, Readiness, FeedPing, FeedIdentify, Inv;
    var key := (conn, stream);
    var c0 := c.(net := c.net.(owner := c.net.owner - {key}));
    DisownKeeps(c, env, key);
    if key in c.net.owner && conn in c.net.connToPeer {
      var peer := c.net.connToPeer[conn];
      match c.net.owner[key] {
        case PingKind => FeedPingKeeps(c0, env, Ping.StreamClosed(peer, stream));
        case IdentifyInitiator => FeedIdentifyKeeps(c0, env, Identify.StreamClosed(peer, stream));
        case IdentifyResponder => FeedIdentifyKeeps(c0, env, Identify.StreamClosed(peer, stream));
        case User(_) => OutputsFree(c0, env, Push(c0, UserStreamClosed(peer, stream)));
      }
    }
    var d := StreamClosed(c, conn, stream);
    var c1 := d.(net := c0.net);
    assert d.net == c0.net.(inbound := c0.net.inbound - {key}, outbound := c0.net.outbound - {key});
    assert Inv(c1, env);
    DropStream(c1, env, key);
  }

  lemma DisownKeeps(c: Core, env: Env, key: Key)
    requires Inv(c, env)
    ensures Inv(c.(net := c.net.(owner := c.net.owner - {key})), env)
  {
    hide Sound, Coherent, Readiness;
    Disowns(c.net, env, key);
    SwapNet(c, env, c.net.(owner := c.net.owner - {key}), env);
  }

  lemma DropStream(c: Core, env: Env, key: Key)
    requires Inv(c, env)
    ensures Inv(c.(net := c.net.(inbound := c.net.inbound - {key}, outbound := c.net.outbound - {key})), env)
  {
    hide Sound, Coherent, Readiness;
    DropInbound(c.net, env, key);
    var net := c.net.(inbound := c.net.inbound - {key});
    DropOutbound(net, env, key);
    SwapNet(c, env, net.(outbound := net.outbound - {key}), env);
  }

  // ------------------------------------------------------------------------ negotiation

  /** Playing negotiation outputs only queues actions and faults. */
  lemma {:induction false} PlayFrame(c: Core, conn: ConnId, stream: StreamId, outputs: seq<Multistream.Output>,
                                     agreed: Option<Blob>, refusal: Option<ErrorKind>)
    ensures var p := Play(c, conn, stream, outputs, agreed, refusal);
            p.core == c.(events := p.core.events, actions := p.core.actions)
    decreases |outputs|
  {
    if outputs != [] {
      match outputs[0] {
        case OutboundData(bytes) =>
          PlayFrame(Do(c, SendStream(conn, stream, bytes)), conn, stream, outputs[1..], agreed, refusal);
        case Negotiated(protocol) => PlayFrame(c, conn, stream, outputs[1..], Some(protocol), refusal);
        case _ =>
      }
    }
  }

  /** Talk ends undecided; a verdict after talk is taken as it is. */
  lemma {:induction false} PlayVerdict(c: Core, conn: ConnId, stream: StreamId, outputs: seq<Multistream.Output>,
                                       refusal: Option<ErrorKind>)
    requires outputs != [] ==> MultistreamOutcome.Talk(outputs[..|outputs| - 1])
    ensures var p := Play(c, conn, stream, outputs, None, refusal);
            if MultistreamOutcome.Talk(outputs) then !p.aborted && p.agreed == None
            else
              var verdict := outputs[|outputs| - 1];
              if verdict.Negotiated? then !p.aborted && p.agreed == Some(verdict.protocol) else p.aborted
    decreases |outputs|
  {
    if outputs != [] && outputs[0].OutboundData? {
      var rest := outputs[1..];
      if rest != [] {
        assert rest[..|rest| - 1] == outputs[..|outputs| - 1][1..];
        assert rest[|rest| - 1] == outputs[|outputs| - 1];
      }
      PlayVerdict(Do(c, SendStream(conn, stream, outputs[0].bytes)), conn, stream, rest, refusal);
      assert MultistreamOutcome.Talk(outputs) <==> MultistreamOutcome.Talk(rest) by {
        assert forall i :: 0 <= i < |rest| ==> rest[i] == outputs[i + 1];
        assert forall i :: 0 < i < |outputs| ==> outputs[i] == rest[i - 1];
      }
    } else if outputs != [] {
      assert |outputs| == 1 && outputs[1..] == [];
    }
  }

  lemma EnsureKeeps(c: Core, env: Env, conn: ConnId)
    requires Inv(c, env) && Live(env, conn)
    ensures Inv(c.(net := Ensure(c.net, conn)), env)
    ensures conn in Ensure(c.net, conn).connToPeer && Ensure(c.net, conn).connToPeer[conn] == PeerOf(c.net, conn)
  {
    hide Sound, Coherent;
    if conn !in c.net.connToPeer {
      PointsElsewhere(c.net, conn);
      Binds(c.net, env, conn, Placeholder(conn));
      var net := Bind(c.net, conn, Placeholder(conn));
      assert (set p | p in net.peerToConn && p.Verified?) == (set p | p in c.net.peerToConn && p.Verified?);
    }
  }

  lemma OwnKeeps(c: Core, env: Env, key: Key, kind: Kind)
    requires Inv(c, env) && key.0 in c.net.connToPeer && key in env.used
    requires key !in c.net.inbound && key !in c.net.outbound
    requires kind.IdentifyInitiator? ==> Known(c.net, key.0)
    ensures Inv(c.(net := Own(c.net, key, kind)), env)
  {
    hide Sound, Coherent, Readiness;
    Owns(c.net, env, key, kind);
    SwapNet(c, env, Own(c.net, key, kind), env);
  }

  lemma NewInfoUntold(m: Identify.Machine, peer: PeerId, stream: StreamId, observed: Option<Blob>, listen: seq<Blob>)
    requires Identify.Idle(m)
    ensures Trusted(Identify.RegisterOutbound(m, peer, stream, observed, listen).0.events)
  {
  }

  lemma InboundNegotiatedKeeps(c: Core, env: Env, conn: ConnId, stream: StreamId, protocol: Blob)
    requires Inv(c, env) && Live(env, conn) && (conn, stream) in env.used
    requires (conn, stream) !in c.net.inbound && (conn, stream) !in c.net.outbound
    ensures Inv(InboundNegotiated(c, conn, stream, protocol), env)
  {
    hide Sound, Coherent, Readiness, FeedPing, DrainIdentify, Identify.RegisterOutbound, Inv;
    var key, peer := (conn, stream), PeerOf(c.net, conn);
    var c1 := c.(net := Ensure(c.net, conn));
    EnsureKeeps(c, env, conn);
    if protocol == PING_ID {
      OwnKeeps(c1, env, key, PingKind);
      FeedPingKeeps(c1.(net := Own(c1.net, key, PingKind)), env, Ping.RegisterInboundStream(peer, stream));
    } else if protocol == IDENTIFY_ID {
      InboundIdentifyKeeps(c, c1, env, conn, stream);
    } else if protocol in c1.app.users {
      OwnKeeps(c1, env, key, User(protocol));
      OutputsFree(c1.(net := Own(c1.net, key, User(protocol))), env, InboundNegotiated(c, conn, stream, protocol));
    }
  }

  lemma InboundIdentifyKeeps(c: Core, c1: Core, env: Env, conn: ConnId, stream: StreamId)
    requires c1 == c.(net := Ensure(c.net, conn)) && Inv(c1, env) && conn in c1.net.connToPeer
    requires (conn, stream) in env.used
    requires (conn, stream) !in c.net.inbound && (conn, stream) !in c.net.outbound
    ensures Inv(InboundNegotiated(c, conn, stream, IDENTIFY_ID), env)
  {
    hide Sound, Coherent, Readiness, DrainIdentify, Identify.RegisterOutbound, FeedPing;
    var key, peer := (conn, stream), PeerOf(c.net, conn);
    var observed := if conn in c1.net.remoteAddr then Some(c1.net.remoteAddr[conn]) else None;
    var (m, e) := Identify.RegisterOutbound(c1.identify, peer, stream, observed, c1.app.localAddrs);
    var d := InboundNegotiated(c, conn, stream, IDENTIFY_ID);
    assert PING_ID != IDENTIFY_ID;
    if e.None? {
      NewInfoUntold(c1.identify, peer, stream, observed, c1.app.localAddrs);
      OwnKeeps(c1, env, key, IdentifyResponder);
      ReadinessKept(c1.net, Own(c1.net, key, IdentifyResponder), c1.app);
      IdentifyFrame(c1.(identify := m, net := Own(c1.net, key, IdentifyResponder)));
    } else {
      OutputsFree(c1, env, d);
    }
  }

  lemma ReadinessKept(net: Net, to: Net, app: App)
    requires Readiness(net, app) && to.peerToConn == net.peerToConn
    ensures Readiness(to, app)
  {
  }

  lemma PingReplaced(c: Core, env: Env, m: Ping.Machine)
    requires Inv(c, env)
    ensures Inv(DrainPing(c.(ping := m)), env)
    ensures DrainPing(c.(ping := m)).net == c.net && DrainPing(c.(ping := m)).app == c.app
  {
    hide Sound, Coherent, Readiness, DrainPing;
    PingFrame(c.(ping := m));
  }

  lemma OutboundPingKeeps(c: Core, env: Env, conn: ConnId, stream: StreamId, peer: PeerId, nowMs: u64)
    requires Inv(c, env)
    ensures Inv(OutboundPing(c, conn, stream, peer, nowMs), env)
  {
    hide Sound, Coherent, Readiness, DrainPing, Ping.RegisterOutbound, Ping.SendOne, Inv;
    var (m, e) := Ping.RegisterOutbound(c.ping, peer, stream);
    var d := OutboundPing(c, conn, stream, peer, nowMs);
    if e.Some? {
      DisownKeeps(c, env, (conn, stream));
      OutputsFree(c.(net := c.net.(owner := c.net.owner - {(conn, stream)})), env, d);
    } else {
      PingReplaced(c, env, m);
      var c1 := DrainPing(c.(ping := m));
      if peer in c1.app.pendingPings {
        var payload := c1.app.pendingPings[peer];
        var c2 := c1.(app := c1.app.(pendingPings := c1.app.pendingPings - {peer}));
        assert Inv(c2, env) by { PendingFree(c1, env, c1.app.pendingPings - {peer}); }
        var (m2, e2) := Ping.SendOne(c2.ping, peer, payload, nowMs);
        PingReplaced(c2, env, m2);
        if e2.Some? {
          OutputsFree(c2, env, d);
        }
      }
    }
  }

  lemma PendingFree(c: Core, env: Env, pings: map<PeerId, Blob>)
    requires Inv(c, env)
    ensures Inv(c.(app := c.app.(pendingPings := pings)), env)
  {
    hide Sound, Coherent;
  }

  lemma OutboundNegotiatedKeeps(c: Core, env: Env, conn: ConnId, stream: StreamId, target: Kind, nowMs: u64)
    requires Inv(c, env) && conn in c.net.connToPeer && (conn, stream) in env.used
    requires (conn, stream) !in c.net.inbound && (conn, stream) !in c.net.outbound
    requires target.IdentifyInitiator? ==> Known(c.net, conn)
    ensures Inv(OutboundNegotiated(c, conn, stream, target, nowMs), env)
  {
    hide Sound, Coherent, Readiness, OutboundPing, FeedIdentify, Inv;
    var key, peer := (conn, stream), c.net.connToPeer[conn];
    var c1 := c.(net := Own(c.net, key, target));
    OwnKeeps(c, env, key, target);
    match target {
      case PingKind => OutboundPingKeeps(c1, env, conn, stream, peer, nowMs);
      case IdentifyInitiator => FeedIdentifyKeeps(c1, env, Identify.RegisterInboundStream(peer, stream));
      case IdentifyResponder =>
      case User(protocol) => OutputsFree(c1, env, Push(c1, UserStreamReady(peer, stream, protocol, true)));
    }
  }

  /** What a fed negotiator has put out, and whether it is still undecided. */
  lemma ReceiveUndecided(m: Multistream.Select, data: Blob)
    requires Undecided(m)
    ensures var n := Multistream.Receive(m, data);
            && (n.pending != [] ==> MultistreamOutcome.Talk(n.pending[..|n.pending| - 1]))
            && (n.state.Done? <==> !MultistreamOutcome.Talk(n.pending))
            && (!n.state.Done? ==> Undecided(n.(pending := [])))
  {
    hide Multistream.Process, MultistreamOutcome.Consumed;
    MultistreamOutcome.ProcessOutcome(m.role, m.state, m.recvBuf + data);
    var p := Multistream.Process(m.role, m.state, m.recvBuf + data);
    assert [] + p.outputs == p.outputs;
  }

  lemma FeedInboundKeeps(c: Core, env: Env, conn: ConnId, stream: StreamId, data: Blob, nowMs: u64)
    requires Inv(c, env) && Negotiating(c.net) && (conn, stream) in c.net.inbound
    ensures Inv(FeedInbound(c, conn, stream, data, nowMs), env)
  {
    hide Sound, Coherent, Readiness, Multistream.Receive, Play, InboundNegotiated, Dispatch, Undecided, Inv;
    var key := (conn, stream);
    InboundAlone(c, env, key);
    var n := Multistream.Receive(c.net.inbound[key], data);
    ReceiveUndecided(c.net.inbound[key], data);
    var c1 := c.(net := c.net.(inbound := c.net.inbound[key := n.(pending := [])]));
    PlayFrame(c1, conn, stream, n.pending, None, None);
    PlayVerdict(c1, conn, stream, n.pending, None);
    var p := Play(c1, conn, stream, n.pending, None, None);
    if p.agreed.None? && !p.aborted {
      FedInbound(c, env, key, n.(pending := []));
      OutputsFree(c1, env, p.core);
    } else {
      var gone := p.core.(net := p.core.net.(inbound := p.core.net.inbound - {key}));
      assert gone.net == c.net.(inbound := c.net.inbound - {key});
      GoneInbound(c, env, key);
      OutputsFree(c.(net := c.net.(inbound := c.net.inbound - {key})), env, gone);
      if p.aborted {
        OutputsFree(gone, env, Do(gone, ResetStream(conn, stream)));
      } else {
        InboundNegotiatedKeeps(gone, env, conn, stream, p.agreed.value);
        DispatchKeeps(InboundNegotiated(gone, conn, stream, p.agreed.value), env, conn, stream, n.recvBuf, nowMs);
      }
    }
  }

  lemma InboundAlone(c: Core, env: Env, key: Key)
    requires Inv(c, env) && key in c.net.inbound
    ensures key in env.used && Live(env, key.0) && key !in c.net.outbound && key !in c.net.owner
    ensures Undecided(c.net.inbound[key])
  {
  }

  lemma FedInbound(c: Core, env: Env, key: Key, m: Multistream.Select)
    requires Inv(c, env) && key in c.net.inbound && Undecided(m)
    ensures Inv(c.(net := c.net.(inbound := c.net.inbound[key := m])), env)
  {
    hide Coherent, Readiness, Sound, Undecided;
    InboundAlone(c, env, key);
    PutInbound(c.net, env, key, m);
    SwapNet(c, env, c.net.(inbound := c.net.inbound[key := m]), env);
  }

  lemma GoneInbound(c: Core, env: Env, key: Key)
    requires Inv(c, env)
    ensures Inv(c.(net := c.net.(inbound := c.net.inbound - {key})), env)
  {
    hide Coherent, Readiness, Sound;
    DropInbound(c.net, env, key);
    SwapNet(c, env, c.net.(inbound := c.net.inbound - {key}), env);
  }

  lemma OutboundAlone(c: Core, env: Env, key: Key)
    requires Inv(c, env) && key in c.net.outbound
    ensures key in env.used && key.0 in c.net.connToPeer && Live(env, key.0)
    ensures key !in c.net.inbound && key !in c.net.owner
    ensures Undecided(c.net.outbound[key].negotiator)
    ensures c.net.outbound[key].target.IdentifyInitiator? ==> Known(c.net, key.0)
  {
  }

  lemma FedOutbound(c: Core, env: Env, key: Key, m: Multistream.Select)
    requires Inv(c, env) && key in c.net.outbound && Undecided(m)
    ensures Inv(c.(net := c.net.(outbound := c.net.outbound[key := c.net.outbound[key].(negotiator := m)])), env)
  {
    hide Coherent, Readiness, Sound, Undecided;
    OutboundAlone(c, env, key);
    var p := c.net.outbound[key].(negotiator := m);
    PutOutbound(c.net, env, key, p);
    SwapNet(c, env, c.net.(outbound := c.net.outbound[key := p]), env);
  }

  lemma GoneOutbound(c: Core, env: Env, key: Key)
    requires Inv(c, env)
    ensures Inv(c.(net := c.net.(outbound := c.net.outbound - {key})), env)
  {
    hide Coherent, Readiness, Sound;
    DropOutbound(c.net, env, key);
    SwapNet(c, env, c.net.(outbound := c.net.outbound - {key}), env);
  }

  lemma FeedOutboundKeeps(c: Core, env: Env, conn: ConnId, stream: StreamId, data: Blob, nowMs: u64)
    requires Inv(c, env) && Negotiating(c.net) && (conn, stream) in c.net.outbound
    ensures Inv(FeedOutbound(c, conn, stream, data, nowMs), env)
  {
    hide Sound, Coherent, Readiness, Multistream.Receive, Play, OutboundNegotiated, Dispatch, Undecided, Inv;
    var key := (conn, stream);
    OutboundAlone(c, env, key);
    var pending := c.net.outbound[key];
    var n := Multistream.Receive(pending.negotiator, data);
    ReceiveUndecided(pending.negotiator, data);
    var c1 := c.(net := c.net.(outbound := c.net.outbound[key := pending.(negotiator := n.(pending := []))]));
    PlayFrame(c1, conn, stream, n.pending, None, Some(UnsupportedProtocol));
    PlayVerdict(c1, conn, stream, n.pending, Some(UnsupportedProtocol));
    var p := Play(c1, conn, stream, n.pending, None, Some(UnsupportedProtocol));
    if p.agreed.None? && !p.aborted {
      FedOutbound(c, env, key, n.(pending := []));
      OutputsFree(c1, env, p.core);
    } else {
      var gone := p.core.(net := p.core.net.(outbound := p.core.net.outbound - {key}));
      assert gone.net == c.net.(outbound := c.net.outbound - {key});
      GoneOutbound(c, env, key);
      OutputsFree(c.(net := c.net.(outbound := c.net.outbound - {key})), env, gone);
      if p.aborted {
        OutputsFree(gone, env, Do(gone, ResetStream(conn, stream)));
      } else {
        OutboundNegotiatedKeeps(gone, env, conn, stream, pending.target, nowMs);
        DispatchKeeps(OutboundNegotiated(gone, conn, stream, pending.target, nowMs), env, conn, stream, n.recvBuf,
                      nowMs);
      }
    }
  }

  lemma StreamDataKeeps(c: Core, env: Env, conn: ConnId, stream: StreamId, data: Blob, nowMs: u64)
    requires Inv(c, env) && Negotiating(c.net)
    ensures Inv(StreamData(c, conn, stream, data, nowMs), env)
  {
    hide Inv, FeedInbound, FeedOutbound, Dispatch;
    if (conn, stream) in c.net.inbound {
      FeedInboundKeeps(c, env, conn, stream, data, nowMs);
    } else if (conn, stream) in c.net.outbound {
      FeedOutboundKeeps(c, env, conn, stream, data, nowMs);
    } else {
      DispatchKeeps(c, env, conn, stream, data, nowMs);
    }
  }

  // ------------------------------------------------------------------ application calls

  lemma PingPeerKeeps(c: Core, env: Env, peer: PeerId, payload: Blob, nowMs: u64)
    requires Inv(c, env) && c.net.nextToken + 2 < TWO_64
    ensures Inv(PingPeer(c, peer, payload, nowMs).0, env)
  {
    hide Inv, QueueOpen, DrainPing, Ping.SendOne, HasPendingPing, Ping.OutboundStream;
    PingReplaced(c, env, Ping.SendOne(c.ping, peer, payload, nowMs).0);
    var pings := c.app.pendingPings[peer := payload];
    PendingFree(c, env, pings);
    QueueOpenKeeps(c.(app := c.app.(pendingPings := pings)), env, peer, PING_ID, PingKind);
  }

  lemma OpenUserStreamKeeps(c: Core, env: Env, peer: PeerId, protocol: Blob)
    requires Inv(c, env) && c.net.nextToken + 2 < TWO_64
    ensures Inv(OpenUserStream(c, peer, protocol).0, env)
  {
    hide Inv, QueueOpen;
    QueueOpenKeeps(c, env, peer, protocol, User(protocol));
  }

  lemma CallKeeps(c: Core, env: Env, op: Op)
    requires Inv(c, env) && Negotiating(c.net) && Allowed(env, c, op)
    requires op.CallAddProtocol? || op.CallSetAddresses? || op.CallPing? || op.CallOpen? || op.CallUser?
             || op.CallDisconnect? || op.PollOutput? || op.Ignored? || op.TransportFails? || op.DriverReports?
    ensures Inv(Step(c, op), env)
  {
    hide Sound, Coherent, Readiness, PingPeer, OpenUserStream, UserConns, Least;
    if op.CallAddProtocol? {
      AddProtocolKeeps(c, env, op.protocol);
    } else if op.CallSetAddresses? {
      ReadinessApp(c.net, c.app, c.app.(localAddrs := op.addrs));
    } else if op.CallPing? {
      PingPeerKeeps(c, env, op.peer, op.payload, op.nowMs);
    } else if op.CallOpen? {
      OpenUserStreamKeeps(c, env, op.peer, op.protocol);
    } else {
      OutputsFree(c, env, Step(c, op));
    }
  }

  lemma ReadinessApp(net: Net, app: App, to: App)
    requires Readiness(net, app)
    requires to.established == app.established && to.ready == app.ready && to.peerInfo == app.peerInfo
    ensures Readiness(net, to)
  {
  }

  lemma AddProtocolKeeps(c: Core, env: Env, protocol: Blob)
    requires Inv(c, env)
    ensures Inv(AddUserProtocol(c, protocol), env)
  {
    hide Sound, Coherent, Readiness;
    ReadinessApp(c.net, c.app, AddUserProtocol(c, protocol).app);
  }

  // ------------------------------------------------------------------------------ steps

  lemma TickKeeps(c: Core, env: Env, nowMs: u64, order: seq<PeerId>)
    requires Inv(c, env)
    ensures Inv(DrainIdentify(DrainPing(c.(ping := Ping.TickAll(c.ping, nowMs, order)))), env)
  {
    hide Sound, Coherent, Readiness, DrainPing, DrainIdentify, Ping.TickAll;
    var c1 := c.(ping := Ping.TickAll(c.ping, nowMs, order));
    PingFrame(c1);
    IdleIdentify(DrainPing(c1));
  }

  lemma SeenKeeps(c: Core, env: Env, conn: ConnId, addr: Blob)
    requires Inv(c, env) && conn !in env.closed
    ensures Inv(Seen(c, conn, addr), env)
    ensures forall b :: Inv(Seen(Activate(c, conn, b), conn, addr), env)
  {
    hide Sound, Coherent, Readiness;
    SeenSound(c.net, env, conn, addr);
    SwapNet(c, env, c.net.(remoteAddr := c.net.remoteAddr[conn := addr]), env);
    forall b: bool
      ensures Inv(Seen(Activate(c, conn, b), conn, addr), env)
    {
      ActiveSound(c.net, env, conn, b);
      var net := c.net.(active := c.net.active[conn := b]);
      SeenSound(net, env, conn, addr);
      SwapNet(c, env, net.(remoteAddr := net.remoteAddr[conn := addr]), env);
    }
  }

  lemma SeenSound(net: Net, env: Env, conn: ConnId, addr: Blob)
    requires Sound(net, env) && conn !in env.closed
    ensures Sound(net.(remoteAddr := net.remoteAddr[conn := addr]), env)
  {
    hide Handshaking;
    HandshakingKept(net, net.(remoteAddr := net.remoteAddr[conn := addr]));
  }

  lemma ActiveSound(net: Net, env: Env, conn: ConnId, established: bool)
    requires Sound(net, env) && conn !in env.closed
    ensures Sound(net.(active := net.active[conn := established]), env)
  {
    hide Handshaking;
    HandshakingKept(net, net.(active := net.active[conn := established]));
  }

  lemma ConnectedSound(c: Core, env: Env, conn: ConnId)
    requires Inv(c, env)
    ensures Inv(c, env.(connected := env.connected + {conn}))
    ensures conn !in env.connected ==> conn !in c.net.connToPeer
  {
  }

  lemma ConnectedKeeps(c: Core, env: Env, op: Op)
    requires Inv(c, env) && Negotiating(c.net) && Allowed(env, c, op) && op.Connected?
    ensures Inv(Step(c, op), Advance(env, op))
  {
    hide Inv, Register;
    var env2 := Advance(env, op);
    ConnectedSound(c, env, op.id);
    SeenKeeps(c, env2, op.id, op.addr);
    var c1 := Seen(Activate(c, op.id, true), op.id, op.addr);
    if op.who.Some? {
      RegisterKeeps(c1, env2, op.id, op.who.value);
    } else {
      EnsureKeeps(c1, env2, op.id);
    }
  }

  /** Every step the contract allows keeps every invariant. */
  lemma StepKeeps(c: Core, env: Env, op: Op)
    requires Inv(c, env) && Negotiating(c.net) && Allowed(env, c, op)
    ensures Inv(Step(c, op), Advance(env, op))
  {
    hide Inv, Register, Upgrade, StreamData, RemoteWriteClosed, StreamClosed, ConnClosed, IncomingStream, StreamOpened,
         OpenFailed, DrainPing, DrainIdentify, PingPeer, OpenUserStream, UserStreamCall, AddUserProtocol, Negotiating;
    match op {
      case Connected(_, _, _) => ConnectedKeeps(c, env, op);
      case IdentityVerified(id, who, addr) =>
        SeenKeeps(c, env, id, addr);
        if who.Some? {
          UpgradeKeeps(Seen(c, id, addr), env, id, who.value);
        }
      case IncomingConnection(id, addr) => SeenKeeps(c, env, id, addr);
      case StreamArrives(id, stream) => IncomingStreamKeeps(c, env, id, stream);
      case DataArrives(id, stream, data, nowMs) => StreamDataKeeps(c, env, id, stream, data, nowMs);
      case WriteCloses(id, stream) => RemoteWriteClosedKeeps(c, env, id, stream);
      case StreamCloses(id, stream) => StreamClosedKeeps(c, env, id, stream);
      case ConnectionCloses(id) => ConnClosedKeeps(c, env, id);
      case DriverOpened(id, stream, token) => StreamOpenedKeeps(c, env, id, stream, token);
      case DriverFailed(token) => OpenFailedKeeps(c, env, token);
      case Ticks(nowMs, order) => TickKeeps(c, env, nowMs, order);
      case _ => CallKeeps(c, env, op);
    }
  }
}

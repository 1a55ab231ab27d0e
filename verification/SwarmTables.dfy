/** The tables of the swarm after every step, in closed form (crates/swarm/src/core.rs:314-392,
    428-620, 765-963). Which connection is called what, which streams belong to whom, which are being
    opened and what is known of each peer is given outright by the state before and the event
    (`StepNet`, `StepApp`); the laws about opens, about streams elsewhere and about refusals follow. */
module SwarmTables {
  import opened Bytes
  import opened Ids
  import opened Swarm
  import opened SwarmRouting
  import opened SwarmInvariant
  import opened SwarmSteps
  import opened SwarmEffects
  import opened SwarmRuns
  import opened SwarmAgreement
  import opened SwarmScripts
  import opened SwarmActions
  import IdentifyMessage
  import Multistream
  import Ping
  import Identify

  // --------------------------------------------------------------------------- closed forms

  /** The tables once a connection has left them. */
  function Left(net: Net, conn: ConnId): Net {
    net.(connToPeer := net.connToPeer - {conn}, active := net.active - {conn}, remoteAddr := net.remoteAddr - {conn},
         inbound := map k | k in net.inbound && k.0 != conn :: net.inbound[k],
         outbound := map k | k in net.outbound && k.0 != conn :: net.outbound[k],
         owner := map k | k in net.owner && k.0 != conn :: net.owner[k],
         opens := map t | t in net.opens && net.opens[t].conn != conn :: net.opens[t])
  }

  lemma DetachedLeft(net: Net, conn: ConnId)
    ensures Detached(net, conn) == Left(net, conn)
  {
  }

  /** The connection a step takes out of the tables: one that closes, or one for which a newer
      connection of its peer is taken. */
  predicate Leaves(c: Core, op: Op, conn: ConnId) {
    || (op.ConnectionCloses? && op.id == conn)
    || (op.Connected? && op.who.Some? && op.who.value in c.net.peerToConn && c.net.peerToConn[op.who.value] == conn)
  }

  /** A connection under a name. */
  function Called(net: Net, conn: ConnId, peer: PeerId): Net {
    net.(connToPeer := net.connToPeer[conn := peer], peerToConn := net.peerToConn[peer := conn])
  }

  function Unnamed(net: Net, from: Option<PeerId>): Net {
    if from.None? then net else net.(peerToConn := net.peerToConn - {from.value})
  }

  function SeenAt(net: Net, conn: ConnId, addr: Blob): Net {
    net.(remoteAddr := net.remoteAddr[conn := addr])
  }

  /** What remotes may ask for. */
  ghost function Offered(app: App): set<Blob> {
    {PING_ID, IDENTIFY_ID} + set p | p in app.users
  }

  /** The tables after a step that is not about one stream, but for the streams it asks for. */
  ghost function Base(c: Core, op: Op): Net {
    if op.Connected? && op.who.Some? then
      var peer := op.who.value;
      var rest := if peer in c.net.peerToConn then Left(c.net, c.net.peerToConn[peer]) else c.net;
      SeenAt(Called(rest, op.id, peer).(active := rest.active[op.id := true]), op.id, op.addr)
    else if op.Connected? then
      SeenAt(Called(c.net, op.id, Placeholder(op.id)).(active := c.net.active[op.id := true]), op.id, op.addr)
    else if op.IdentityVerified? then
      SeenAt(if Renames(c, op) then Called(Unnamed(c.net, FormerName(c, op.id)), op.id, op.who.value) else c.net,
             op.id, op.addr)
    else if op.IncomingConnection? then SeenAt(c.net.(active := c.net.active[op.id := false]), op.id, op.addr)
    else if op.ConnectionCloses? then
      var peer := FormerName(c, op.id);
      Left(if peer.Some? && ConnFor(c.net, peer.value) == Some(op.id) then Unnamed(c.net, peer) else c.net, op.id)
    else c.net
  }

  lemma AdmittedNet(c: Core, env: Env, conn: ConnId, peer: PeerId)
    requires Inv(c, env)
    ensures Admitted(c, conn, peer).net
         == Called(if peer in c.net.peerToConn then Left(c.net, c.net.peerToConn[peer]) else c.net, conn, peer)
  {
    hide Supersede, Inv, Detached, Left;
    if peer in c.net.peerToConn {
      SupersedeForm(c, env, peer);
      DetachedLeft(c.net, c.net.peerToConn[peer]);
    }
  }

  lemma LeftSeen(net: Net, conn: ConnId, addr: Blob, other: ConnId)
    requires other != conn
    ensures var seen := net.(active := net.active[conn := true], remoteAddr := net.remoteAddr[conn := addr]);
            Left(seen, other) == Left(net, other).(active := Left(net, other).active[conn := true],
                                                   remoteAddr := Left(net, other).remoteAddr[conn := addr])
  {
    var seen := net.(active := net.active[conn := true], remoteAddr := net.remoteAddr[conn := addr]);
    assert seen.active - {other} == (net.active - {other})[conn := true];
    assert seen.remoteAddr - {other} == (net.remoteAddr - {other})[conn := addr];
  }

  lemma ConnectedNet(c: Core, env: Env, op: Op)
    requires Inv(c, env) && Negotiating(c.net) && Allowed(env, c, op) && op.Connected?
    ensures Base(c, op).nextToken == c.net.nextToken && Step(c, op).net == Asking(Base(c, op), Asked(c, op))
  {
    hide Inv, Register, Negotiating, Asking, Left, Admitted, Deeds, Opens;
    var c1, env1 := Seen(Activate(c, op.id, true), op.id, op.addr), Advance(env, op);
    ConnectedSound(c, env, op.id);
    if op.who.Some? {
      var peer := op.who.value;
      SeenKeeps(c, env1, op.id, op.addr);
      assert peer in c.net.peerToConn ==> PointsBack(c.net, peer) by { Points(c, env); }
      RegisterForm(c1, env1, op.id, peer);
      AdmittedNet(c1, env1, op.id, peer);
      SameScripts(c, c1, peer, op.id);
      assert Asked(c, op) == Welcomed(c, op.id, peer);
      if peer in c.net.peerToConn {
        LeftSeen(c.net, op.id, op.addr, c.net.peerToConn[peer]);
      }
    } else {
      AskingNone(Base(c, op));
    }
  }

  lemma AskingNone(net: Net)
    requires net.nextToken < TWO_64
    ensures Asking(net, []) == net
  {
  }

  lemma VerifiedNet(c: Core, env: Env, op: Op)
    requires Inv(c, env) && Negotiating(c.net) && Allowed(env, c, op) && op.IdentityVerified?
    ensures Base(c, op).nextToken == c.net.nextToken && Step(c, op).net == Asking(Base(c, op), Asked(c, op))
  {
    hide Inv, Upgrade, Negotiating, Asking, Upgraded;
    var c1 := Seen(c, op.id, op.addr);
    if Renames(c, op) {
      SeenKeeps(c, env, op.id, op.addr);
      UpgradeForm(c1, env, op.id, op.who.value);
      UpgradedNet(c1, env, op.id, op.who.value);
    } else {
      if op.who.Some? {
        UpgradeIdle(c1, op.id, op.who.value);
      }
      AskingNone(Base(c, op));
    }
  }

  lemma UpgradedNet(c: Core, env: Env, conn: ConnId, peer: PeerId)
    requires Inv(c, env)
    ensures Upgraded(c, conn, peer).net == Called(Unnamed(c.net, FormerName(c, conn)), conn, peer)
  {
    hide Rekey, Sound, Coherent, Readiness, RenameEvents, Ping.Migrate, Identify.Migrate, Moved, MovedIn;
    if conn in c.net.connToPeer {
      RekeyForm(c, c.net.connToPeer[conn], peer);
    }
  }

  lemma ClosedNetIs(c: Core, env: Env, conn: ConnId)
    requires Inv(c, env)
    ensures ConnClosed(c, conn).net == Base(c, ConnectionCloses(conn))
  {
    hide Inv, ConnClosed, Detached, Left, Purge;
    InvIdle(c, env);
    ConnClosedForm(c, conn);
    if conn in c.net.connToPeer {
      DetachedLeft(c.net, conn);
      DetachedLeft(c.net.(peerToConn := c.net.peerToConn - {c.net.connToPeer[conn]}), conn);
    } else {
      DetachedIs(c.net, conn);
      DetachedLeft(c.net, conn);
    }
  }

  lemma CallNetIs(c: Core, env: Env, op: Op)
    requires Inv(c, env) && Negotiating(c.net) && Allowed(env, c, op) && (op.CallPing? || op.CallOpen?)
    ensures Step(c, op).net == Asking(c.net, Asked(c, op))
  {
    hide Inv, QueueOpen, DrainPing, HasPendingPing, Ping.SendOne, Negotiating, NoPing, Asking, Register, Upgrade,
         ConnClosed, StreamData, RemoteWriteClosed, StreamClosed, IncomingStream, StreamOpened, OpenFailed,
         DrainIdentify, UserStreamCall;
    CounterStarted(c, env);
    AskingNone(c.net);
    if op.CallPing? {
      if op.peer in c.net.peerToConn {
        PingFrame(c.(ping := Ping.SendOne(c.ping, op.peer, op.payload, op.nowMs).0));
        PendingIff(c.net, op.peer);
        var queued := c.(app := c.app.(pendingPings := c.app.pendingPings[op.peer := op.payload]));
        QueueOpenForm(queued, op.peer, PING_ID, PingKind);
      }
    } else if op.peer in c.net.peerToConn {
      QueueOpenForm(c, op.peer, op.protocol, User(op.protocol));
    }
  }

  /** The tables after every step that is not about one stream: names, addresses and states of
      connections as the event says, everything of a connection that leaves gone and everything else
      untouched, and then the streams asked for. */
  lemma StepNet(c: Core, env: Env, op: Op)
    requires Inv(c, env) && Negotiating(c.net) && Allowed(env, c, op) && !OnStream(op)
    ensures Base(c, op).nextToken == c.net.nextToken && Step(c, op).net == Asking(Base(c, op), Asked(c, op))
  {
    hide Inv, Negotiating, Asking, Register, Upgrade, ConnClosed, StreamData, RemoteWriteClosed, StreamClosed,
         IncomingStream, StreamOpened, OpenFailed, DrainPing, DrainIdentify, PingPeer, OpenUserStream, UserStreamCall,
         AddUserProtocol, Left;
    if op.Connected? {
      ConnectedNet(c, env, op);
    } else if op.IdentityVerified? {
      VerifiedNet(c, env, op);
    } else if op.CallPing? || op.CallOpen? {
      CallNetIs(c, env, op);
    } else {
      LeftCounter(c.net, op);
      AskingNone(Base(c, op));
      if op.ConnectionCloses? {
        ClosedNetIs(c, env, op.id);
      } else if op.Ticks? {
        InvIdle(c, env);
        TickGrows(c, op.nowMs, op.order);
      } else {
        OtherNet(c, op);
      }
    }
  }

  lemma LeftCounter(net: Net, op: Op)
    ensures op.ConnectionCloses? ==> forall from :: Left(Unnamed(net, from), op.id).nextToken == net.nextToken
    ensures op.ConnectionCloses? ==> Left(net, op.id).nextToken == net.nextToken
  {
  }

  lemma OtherNet(c: Core, op: Op)
    requires Negotiating(c.net)
    requires op.CallAddProtocol? || op.CallUser? || op.CallSetAddresses? || op.CallDisconnect? || op.Ignored?
             || op.TransportFails? || op.DriverReports? || op.IncomingConnection? || op.PollOutput?
    ensures Step(c, op).net == Base(c, op)
  {
    hide UserConns, Least, Negotiating, Register, Upgrade, ConnClosed, StreamData, RemoteWriteClosed,
         StreamClosed, IncomingStream, StreamOpened, OpenFailed, DrainPing, DrainIdentify, PingPeer, OpenUserStream;
  }

  // ---------------------------------------------------------------------------- stream events

  /** A stream leaves negotiation, for an owner or for nobody. */
  function Handed(net: Net, key: Key, kind: Option<Kind>): Net {
    var to := net.(inbound := net.inbound - {key}, outbound := net.outbound - {key});
    if kind.None? then to else to.(owner := net.owner[key := kind.value])
  }

  function NamedAtLeast(net: Net, conn: ConnId): Net {
    if conn in net.connToPeer then net else Called(net, conn, Placeholder(conn))
  }

  ghost function InboundThen(c: Core, key: Key, data: Blob): Net
    requires key in c.net.inbound && c.net.inbound[key].Valid()
  {
    var n := FedIn(c, key, data);
    if Verdict(n).None? then c.net.(inbound := c.net.inbound[key := n.(pending := [])])
    else if Verdict(n).value.Negotiated? then
      Handed(NamedAtLeast(c.net, key.0), key, InboundKind(c, PeerOf(c.net, key.0), Verdict(n).value.protocol))
    else Handed(c.net, key, None)
  }

  ghost function OutboundThen(c: Core, key: Key, data: Blob): Net
    requires key in c.net.outbound && c.net.outbound[key].negotiator.Valid()
  {
    var n, p := FedOut(c, key, data), c.net.outbound[key];
    if Verdict(n).None? then c.net.(outbound := c.net.outbound[key := p.(negotiator := n.(pending := []))])
    else if Verdict(n).value.Negotiated? then
      Handed(c.net, key, OutboundKind(c, PeerOf(c.net, key.0), key.1, p.target))
    else Handed(c.net, key, None)
  }

  ghost function OpenedThen(c: Core, key: Key, token: u64): Net {
    if token !in c.net.opens then c.net
    else
      var open, rest := c.net.opens[token], c.net.(opens := c.net.opens - {token});
      if open.conn != key.0 then rest
      else
        var dialer := Opened(Multistream.Dialer(open.protocol));
        rest.(outbound := c.net.outbound[key := PendingOutbound(dialer, open.target)])
  }

  /** The tables after an event about one stream. */
  ghost function StreamThen(c: Core, op: Op): Net
    requires Negotiating(c.net) && OnStream(op)
  {
    if op.DriverFailed? then c.net.(opens := c.net.opens - {op.token})
    else
      var key := (op.id, op.stream);
      if op.StreamArrives? then
        c.net.(inbound := c.net.inbound[key := Opened(Multistream.Listener(Offered(c.app)))])
      else if op.DriverOpened? then OpenedThen(c, key, op.token)
      else if op.StreamCloses? then Handed(c.net, key, None).(owner := c.net.owner - {key})
      else if op.WriteCloses? then c.net
      else if key in c.net.inbound then InboundThen(c, key, op.data)
      else if key in c.net.outbound then OutboundThen(c, key, op.data)
      else c.net
  }

  lemma InboundNet(c: Core, env: Env, conn: ConnId, stream: StreamId, data: Blob, nowMs: u64)
    requires Inv(c, env) && Negotiating(c.net) && (conn, stream) in c.net.inbound
    ensures FeedInbound(c, conn, stream, data, nowMs).net == InboundThen(c, (conn, stream), data)
  {
    hide FeedInbound, Dispatch, InboundNegotiated, Inv, Tells, Multistream.Receive, Negotiating, Verdict, Talked,
         Complains, Ping.RegisterInbound, InboundKind, Ensure, Handed, NamedAtLeast, OwnIf;
    var key := (conn, stream);
    var gone := FeedInboundCases(c, env, conn, stream, data, nowMs);
    InboundAlone(c, env, key);
    UndecidedValid(c.net.inbound[key]);
    var n := FedIn(c, key, data);
    HandedNobody(c.net, key);
    if Verdict(n).Some? && Verdict(n).value.Negotiated? {
      var protocol := Verdict(n).value.protocol;
      InvIdle(gone, env);
      InboundNegotiatedEffect(gone, conn, stream, protocol);
      InboundNegotiatedKeeps(gone, env, conn, stream, protocol);
      DispatchNet(InboundNegotiated(gone, conn, stream, protocol), env, conn, stream, n.recvBuf, nowMs);
      JoinsInSame(c, gone, key, protocol);
      EnsureNamed(gone.net, conn);
      HandedIs(c.net, key, InboundKind(c, PeerOf(c.net, conn), protocol));
    }
  }

  lemma HandedNobody(net: Net, key: Key)
    requires key !in net.outbound
    ensures Handed(net, key, None) == net.(inbound := net.inbound - {key})
  {
    assert net.outbound - {key} == net.outbound;
  }

  lemma HandedIs(net: Net, key: Key, kind: Option<Kind>)
    requires key !in net.outbound
    ensures OwnIf(NamedAtLeast(net.(inbound := net.inbound - {key}), key.0), key, kind)
         == Handed(NamedAtLeast(net, key.0), key, kind)
  {
    assert net.outbound - {key} == net.outbound;
  }

  lemma EnsureNamed(net: Net, conn: ConnId)
    ensures Ensure(net, conn) == NamedAtLeast(net, conn)
  {
  }

  lemma OutboundNet(c: Core, env: Env, conn: ConnId, stream: StreamId, data: Blob, nowMs: u64)
    requires Inv(c, env) && Negotiating(c.net) && (conn, stream) in c.net.outbound
    ensures FeedOutbound(c, conn, stream, data, nowMs).net == OutboundThen(c, (conn, stream), data)
  {
    hide FeedOutbound, Dispatch, OutboundNegotiated, Inv, Tells, Multistream.Receive, Negotiating, Verdict, Talked,
         Complains, PingOpened, PingRefuses, PingTaken, Identify.RegisterInbound;
    var key := (conn, stream);
    var gone := FeedOutboundCases(c, env, conn, stream, data, nowMs);
    OutboundAlone(c, env, key);
    UndecidedValid(c.net.outbound[key].negotiator);
    var n, target := FedOut(c, key, data), c.net.outbound[key].target;
    assert c.net.inbound - {key} == c.net.inbound && c.net.owner - {key} == c.net.owner;
    if Verdict(n).Some? && Verdict(n).value.Negotiated? {
      InvIdle(gone, env);
      OutboundNegotiatedEffect(gone, conn, stream, target, nowMs);
      OutboundNegotiatedKeeps(gone, env, conn, stream, target, nowMs);
      DispatchNet(OutboundNegotiated(gone, conn, stream, target, nowMs), env, conn, stream, n.recvBuf, nowMs);
      RefusesTaken(gone.ping, c.net.connToPeer[conn], stream);
    }
  }

  lemma OfferedIs(c: Core, env: Env)
    requires Inv(c, env)
    ensures (set p | p in c.app.supported) == Offered(c.app)
  {
    hide Sound, Coherent, Readiness;
  }

  lemma OpeningNet(c: Core, env: Env, op: Op)
    requires Inv(c, env) && Negotiating(c.net) && (op.StreamArrives? || op.DriverOpened? || op.DriverFailed?)
    ensures Step(c, op).net == StreamThen(c, op)
  {
    hide Inv, Negotiating, Opened, Multistream.EncodeMessage, Register, Upgrade, ConnClosed, StreamData,
         RemoteWriteClosed, StreamClosed, DrainPing, DrainIdentify, PingPeer, OpenUserStream, UserStreamCall,
         AddUserProtocol, Offered;
    OfferedIs(c, env);
    if op.DriverFailed? && op.token !in c.net.opens {
      assert c.net.opens - {op.token} == c.net.opens;
    }
  }

  /** The tables after every event about one stream: a new listener offers ping, identify and what the
      application registered, a new dialer proposes what was asked for, a stream leaves negotiation when
      its verdict falls and then belongs to the protocol agreed on, and nothing else changes. */
  lemma StreamNet(c: Core, env: Env, op: Op)
    requires Inv(c, env) && Negotiating(c.net) && Allowed(env, c, op) && OnStream(op)
    ensures Step(c, op).net == StreamThen(c, op)
  {
    hide Inv, Negotiating, FeedInbound, FeedOutbound, Dispatch, RemoteWriteClosed, StreamClosed, IncomingStream,
         StreamOpened, OpenFailed, Register, Upgrade, ConnClosed, DrainPing, DrainIdentify, PingPeer, OpenUserStream,
         UserStreamCall, AddUserProtocol, InboundThen, OutboundThen, OpenedThen, Tells, PingReacts, IdentifyReacts;
    if op.DataArrives? {
      var key := (op.id, op.stream);
      if key in c.net.inbound {
        InboundNet(c, env, op.id, op.stream, op.data, op.nowMs);
      } else if key in c.net.outbound {
        OutboundNet(c, env, op.id, op.stream, op.data, op.nowMs);
      } else {
        DispatchNet(c, env, op.id, op.stream, op.data, op.nowMs);
      }
    } else if op.StreamCloses? {
      StreamClosedEffect(c, env, op.id, op.stream);
    } else if op.WriteCloses? {
      if (op.id, op.stream) in c.net.owner {
        RemoteWriteClosedEffect(c, env, op.id, op.stream);
      } else {
        UnownedWriteCloses(c, op.id, op.stream);
      }
    } else {
      OpeningNet(c, env, op);
    }
  }

  // --------------------------------------------------------------------- streams being opened

  lemma {:induction false} AskingHas(net: Net, asked: seq<PendingOpen>)
    requires net.nextToken + |asked| < TWO_64 && forall t :: t in net.opens ==> t < net.nextToken
    ensures var to, n := Asking(net, asked), net.nextToken;
            && (forall t :: t in to.opens <==> t in net.opens || n <= t < n + |asked|)
            && (forall t :: t in to.opens ==> to.opens[t] == if t < n then net.opens[t] else asked[t - n])
    decreases |asked|
  {
    if asked != [] {
      var n := net.nextToken;
      var next := net.(opens := net.opens[n := asked[0]], nextToken := n + 1);
      AskingHas(next, asked[1..]);
    }
  }

  /** A pending open is over: reported by the driver, or of a connection that leaves. */
  predicate Settles(c: Core, op: Op, t: u64)
    requires t in c.net.opens
  {
    ((op.DriverOpened? || op.DriverFailed?) && op.token == t) || Leaves(c, op, c.net.opens[t].conn)
  }

  lemma BaseOpens(c: Core, op: Op)
    requires !OnStream(op)
    ensures var b := Base(c, op);
            && (forall t :: t in b.opens <==> t in c.net.opens && !Settles(c, op, t))
            && (forall t :: t in b.opens ==> b.opens[t] == c.net.opens[t])
  {
    hide Left;
    LeftOpens(c.net);
    LeftOpens(Unnamed(c.net, FormerName(c, if op.ConnectionCloses? then op.id else 0)));
  }

  lemma LeftOpens(net: Net)
    ensures forall conn :: var to := Left(net, conn);
              && (forall t :: t in to.opens <==> t in net.opens && net.opens[t].conn != conn)
              && (forall t :: t in to.opens ==> to.opens[t] == net.opens[t])
  {
  }

  lemma StreamOpens(c: Core, env: Env, op: Op)
    requires Inv(c, env) && Negotiating(c.net) && OnStream(op)
    ensures var to := StreamThen(c, op);
            && to.nextToken == c.net.nextToken
            && (forall t :: t in to.opens <==> t in c.net.opens && !Settles(c, op, t))
            && (forall t :: t in to.opens ==> to.opens[t] == c.net.opens[t])
  {
    hide Inv, Negotiating, Opened, Offered, InboundThen, OutboundThen, OpenedThen;
    if op.DataArrives? {
      NegotiatingOpens(c, (op.id, op.stream), op.data);
    } else if op.DriverOpened? {
      OpenedOpens(c, (op.id, op.stream), op.token);
    }
  }

  lemma NegotiatingOpens(c: Core, key: Key, data: Blob)
    requires Negotiating(c.net)
    ensures key in c.net.inbound ==>
              InboundThen(c, key, data).opens == c.net.opens && InboundThen(c, key, data).nextToken == c.net.nextToken
    ensures key in c.net.outbound ==>
              OutboundThen(c, key, data).opens == c.net.opens && OutboundThen(c, key, data).nextToken == c.net.nextToken
  {
    hide FedIn, FedOut, InboundKind, OutboundKind, Verdict, Handed, NamedAtLeast;
    HandedOpens(c.net, key);
    HandedOpens(NamedAtLeast(c.net, key.0), key);
  }

  lemma HandedOpens(net: Net, key: Key)
    ensures forall kind ::
              Handed(net, key, kind).opens == net.opens && Handed(net, key, kind).nextToken == net.nextToken
    ensures NamedAtLeast(net, key.0).opens == net.opens && NamedAtLeast(net, key.0).nextToken == net.nextToken
  {
  }

  lemma OpenedOpens(c: Core, key: Key, token: u64)
    ensures OpenedThen(c, key, token).opens == c.net.opens - {token}
    ensures OpenedThen(c, key, token).nextToken == c.net.nextToken
  {
    hide Opened;
    assert token !in c.net.opens ==> c.net.opens - {token} == c.net.opens;
  }

  lemma TokensBelow(c: Core, env: Env)
    requires Inv(c, env)
    ensures forall t :: t in c.net.opens ==> t < c.net.nextToken
  {
  }

  /** The streams being opened after a step: those that were, less the ones that are over, and the ones
      the step asks for, under the next tokens and in order. */
  lemma StepOpens(c: Core, env: Env, op: Op)
    requires Inv(c, env) && Negotiating(c.net) && Allowed(env, c, op)
    ensures var to, n, asked := Step(c, op).net, c.net.nextToken, Asked(c, op);
            && to.nextToken == n + |asked|
            && (forall t :: t in to.opens <==> (t in c.net.opens && !Settles(c, op, t)) || n <= t < n + |asked|)
            && (forall t :: t in to.opens ==> to.opens[t] == if t < n then c.net.opens[t] else asked[t - n])
  {
    hide Inv, Negotiating, Step, Base, StreamThen, Asking, Settles;
    TokensBelow(c, env);
    if OnStream(op) {
      StreamNet(c, env, op);
      StreamOpens(c, env, op);
    } else {
      StepNet(c, env, op);
      BaseOpens(c, op);
      AskingHas(Base(c, op), Asked(c, op));
    }
  }

  /** Whenever a connection is given a name it did not have, when it connects or when its identity is
      verified, exactly one identify stream is asked for: on that connection, for the identify
      protocol, to be read by us. */
  lemma IdentifyAsked(c: Core, env: Env, op: Op)
    requires Inv(c, env) && Negotiating(c.net) && Allowed(env, c, op)
    requires (op.Connected? || op.IdentityVerified?) && op.who.Some?
    requires op.id in c.net.connToPeer ==> c.net.connToPeer[op.id] != op.who.value
    ensures var d, n := Step(c, op), c.net.nextToken;
            && n !in c.net.opens && n in d.net.opens
            && d.net.opens[n] == PendingOpen(op.id, IDENTIFY_ID, IdentifyInitiator)
            && (forall t ::
                  t in d.net.opens && t !in c.net.opens && d.net.opens[t].target.IdentifyInitiator? ==> t == n)
            && c.actions <= d.actions && OpenStream(op.id, n) in d.actions[|c.actions|..]
  {
    hide Inv, Negotiating, Step, Settles, Performs, Script, Acts, RenameEvents;
    TokensBelow(c, env);
    StepOpens(c, env, op);
    StepPerforms(c, env, op);
    OpensActed(c, Readdressed(c, op), Step(c, op), op);
  }

  /** What a step asks for is among its actions. */
  lemma OpensActed(c: Core, b: Core, d: Core, op: Op)
    requires Negotiating(c.net) && c.net.nextToken + 2 < TWO_64 && b == c.(events := b.events)
    requires Performs(b, d, Script(c, op)) && Asked(c, op) != []
    ensures c.actions <= d.actions && OpenStream(Asked(c, op)[0].conn, c.net.nextToken) in d.actions[|c.actions|..]
  {
    hide Negotiating, Part, Acts, News, PingAfter, IdentifyAfter, Asked, Opens;
    var part, asked, n := Part(c, op), Asked(c, op), c.net.nextToken;
    var opens := Opens(n, asked);
    ActsAppend(d.net, c.ping, c.identify, part, opens);
    OpensPlain(n, asked);
    PlainActs(d.net, c.app, PingAfter(c.ping, part), IdentifyAfter(c.identify, part), opens);
    var before := Acts(d.net, c.ping, c.identify, part);
    assert d.actions == (c.actions + before) + Deeds(opens);
    assert d.actions[|c.actions|..] == before + Deeds(opens);
    assert Deeds(opens)[0] == OpenStream(asked[0].conn, n);
  }

  // ---------------------------------------------------------------- what is known of each peer

  /** What is known under one name passes to another, which keeps its own where there is nothing. */
  function Passed<T>(m: map<PeerId, T>, from: Option<PeerId>, to: PeerId): map<PeerId, T> {
    map p | p in m.Keys + {to} && from != Some(p) && (p in m || (from.Some? && from.value in m)) ::
      if p == to && from.Some? && from.value in m then m[from.value] else m[p]
  }

  /** A verified connection: queued pings and infos pass to the new name, and a peer whose info is here
      is ready. */
  ghost function RenamedApp(c: Core, from: Option<PeerId>, peer: PeerId): App {
    var left := if from.Some? then {from.value} else {};
    c.app.(pendingPings := Passed(c.app.pendingPings, from, peer), peerInfo := Passed(c.app.peerInfo, from, peer),
           ready := (c.app.ready - left) + (if InfoThen(c, from, peer).Some? then {peer} else {}),
           established := (c.app.established - left) + {peer})
  }

  function ForgottenApp(app: App, peer: PeerId): App {
    app.(peerInfo := app.peerInfo - {peer}, ready := app.ready - {peer}, established := app.established - {peer})
  }

  function WithProtocol(protocols: seq<Blob>, protocol: Blob): seq<Blob> {
    if protocol in protocols then protocols else protocols + [protocol]
  }

  /** The peer whose queued ping a step takes: that of a ping stream just agreed on. */
  ghost predicate TakesPing(c: Core, op: Op)
    requires Negotiating(c.net)
  {
    op.DataArrives? &&
    var key := (op.id, op.stream);
    && key !in c.net.inbound && key in c.net.outbound && c.net.outbound[key].target.PingKind?
    && Verdict(FedOut(c, key, op.data)).Some? && Verdict(FedOut(c, key, op.data)).value.Negotiated?
    && !PingTaken(c.ping, PeerOf(c.net, op.id), op.stream)
  }

  /** What is kept for the application after a step. */
  ghost function AppThen(c: Core, op: Op): App
    requires Negotiating(c.net)
  {
    if op.Connected? && op.who.Some? then
      var app := if op.who.value in c.net.peerToConn then ForgottenApp(c.app, op.who.value) else c.app;
      app.(established := app.established + {op.who.value})
    else if Renames(c, op) then RenamedApp(c, FormerName(c, op.id), op.who.value)
    else if op.ConnectionCloses? && op.id in c.net.connToPeer && ConnFor(c.net, c.net.connToPeer[op.id]) == Some(op.id)
    then
      var peer := c.net.connToPeer[op.id];
      ForgottenApp(c.app, peer).(pendingPings := c.app.pendingPings - {peer})
    else if TakesPing(c, op) then c.app.(pendingPings := c.app.pendingPings - {PeerOf(c.net, op.id)})
    else if op.WriteCloses? && KindAt(c.net, (op.id, op.stream)) == Some(IdentifyInitiator) then
      var input := Identify.StreamRemoteWriteClosed(PeerOf(c.net, op.id), op.stream);
      Absorb(c.net, c.app, Identify.Handle(c.identify, input).0.events).0
    else if op.CallAddProtocol? then
      c.app.(users := WithProtocol(c.app.users, op.protocol), supported := WithProtocol(c.app.supported, op.protocol))
    else if op.CallSetAddresses? then c.app.(localAddrs := op.addrs)
    else if op.CallPing? && op.peer in c.net.peerToConn && Ping.Peer(c.ping, op.peer).outbound.None? then
      c.app.(pendingPings := c.app.pendingPings[op.peer := op.payload])
    else c.app
  }

  lemma PassedIs<T>(m: map<PeerId, T>, from: PeerId, to: PeerId)
    requires from != to
    ensures Moved(m, from, to) == Passed(m, Some(from), to)
  {
    if from in m {
      assert Moved(m, from, to).Keys == m.Keys - {from} + {to};
    }
  }

  lemma PassedNone<T>(m: map<PeerId, T>, to: PeerId)
    ensures Passed(m, None, to) == m
  {
  }

  lemma UpgradeApp(c: Core, env: Env, conn: ConnId, peer: PeerId)
    requires Inv(c, env) && Live(env, conn) && peer.Verified? && c.net.nextToken + 2 < TWO_64
    requires !(conn in c.net.connToPeer && c.net.connToPeer[conn] == peer)
    ensures Upgrade(c, conn, peer).app == RenamedApp(c, FormerName(c, conn), peer)
  {
    hide Rekey, QueueOpen, Sound, Coherent, Asking, RenameEvents, Ping.Migrate, Identify.Migrate, Bind, Passed;
    UpgradeIs(c, conn, peer);
    UpgradedIs(c, env, conn, peer);
    var u := Upgraded(c, conn, peer);
    var c3 := TryReady(Push(u, ConnectionEstablished(peer)), peer);
    CounterStarted(c, env);
    QueueOpenForm(c3, peer, IDENTIFY_ID, IdentifyInitiator);
    if conn in c.net.connToPeer {
      var from := c.net.connToPeer[conn];
      RekeyForm(c, from, peer);
      PassedIs(c.app.pendingPings, from, peer);
      PassedIs(c.app.peerInfo, from, peer);
    } else {
      PassedNone(c.app.pendingPings, peer);
      PassedNone(c.app.peerInfo, peer);
    }
    assert Upgrade(c, conn, peer).app == c3.app;
    assert c3.app.ready == RenamedApp(c, FormerName(c, conn), peer).ready;
    assert c3.app.established == RenamedApp(c, FormerName(c, conn), peer).established;
  }

  lemma ConnectedApp(c: Core, env: Env, op: Op)
    requires Inv(c, env) && Negotiating(c.net) && Allowed(env, c, op) && op.Connected?
    ensures Step(c, op).app == AppThen(c, op)
  {
    hide Inv, Register, Negotiating, Asking, Admitted, Deeds, Opens;
    var c1, env1 := Seen(Activate(c, op.id, true), op.id, op.addr), Advance(env, op);
    ConnectedSound(c, env, op.id);
    if op.who.Some? {
      SeenKeeps(c, env1, op.id, op.addr);
      RegisterForm(c1, env1, op.id, op.who.value);
      AdmittedApp(c1, env1, op.id, op.who.value);
    }
  }

  lemma AdmittedApp(c: Core, env: Env, conn: ConnId, peer: PeerId)
    requires Inv(c, env)
    ensures var app := if peer in c.net.peerToConn then ForgottenApp(c.app, peer) else c.app;
            Admitted(c, conn, peer).app == app.(established := app.established + {peer})
  {
    hide Supersede, Inv, Bind, Detached;
    if peer in c.net.peerToConn {
      SupersedeForm(c, env, peer);
    }
  }

  lemma VerifiedApp(c: Core, env: Env, op: Op)
    requires Inv(c, env) && Negotiating(c.net) && Allowed(env, c, op) && op.IdentityVerified?
    ensures Step(c, op).app == AppThen(c, op)
  {
    hide Inv, Upgrade, Negotiating, Passed;
    var c1 := Seen(c, op.id, op.addr);
    if Renames(c, op) {
      SeenKeeps(c, env, op.id, op.addr);
      UpgradeApp(c1, env, op.id, op.who.value);
      assert FormerName(c1, op.id) == FormerName(c, op.id);
    } else if op.who.Some? {
      UpgradeIdle(c1, op.id, op.who.value);
    }
  }

  lemma OutboundPingApp(c: Core, conn: ConnId, stream: StreamId, peer: PeerId, nowMs: u64)
    ensures OutboundPing(c, conn, stream, peer, nowMs).app
         == if PingTaken(c.ping, peer, stream) then c.app
            else c.app.(pendingPings := c.app.pendingPings - {peer})
  {
    hide DrainPing, Ping.SendOne;
    var m := Ping.RegisterOutbound(c.ping, peer, stream).0;
    PingFrame(c.(ping := m));
    var c1 := DrainPing(c.(ping := m));
    if peer in c.app.pendingPings {
      var c2 := c1.(app := c1.app.(pendingPings := c1.app.pendingPings - {peer}));
      PingFrame(c2.(ping := Ping.SendOne(c2.ping, peer, c.app.pendingPings[peer], nowMs).0));
    } else {
      assert c.app.pendingPings - {peer} == c.app.pendingPings;
    }
  }

  lemma OutboundNegotiatedApp(c: Core, conn: ConnId, stream: StreamId, target: Kind, nowMs: u64)
    requires conn in c.net.connToPeer && Identify.Idle(c.identify)
    ensures OutboundNegotiated(c, conn, stream, target, nowMs).app
         == if target.PingKind? && !PingTaken(c.ping, c.net.connToPeer[conn], stream)
            then c.app.(pendingPings := c.app.pendingPings - {c.net.connToPeer[conn]}) else c.app
  {
    hide OutboundPing, FeedIdentify, Performs;
    var peer := c.net.connToPeer[conn];
    var c1 := c.(net := Own(c.net, (conn, stream), target));
    OutboundPingApp(c1, conn, stream, peer, nowMs);
    FeedIdentifyPerforms(c1, Identify.RegisterInboundStream(peer, stream));
  }

  lemma InboundApp(c: Core, env: Env, conn: ConnId, stream: StreamId, data: Blob, nowMs: u64)
    requires Inv(c, env) && Negotiating(c.net) && (conn, stream) in c.net.inbound
    ensures FeedInbound(c, conn, stream, data, nowMs).app == c.app
  {
    hide FeedInbound, Dispatch, InboundNegotiated, Inv, Tells, Multistream.Receive, Negotiating, Verdict, Talked,
         Complains, Performs, JoinsIn, Received;
    var key := (conn, stream);
    var gone := FeedInboundCases(c, env, conn, stream, data, nowMs);
    InboundAlone(c, env, key);
    UndecidedValid(c.net.inbound[key]);
    var n := FedIn(c, key, data);
    if Verdict(n).Some? && Verdict(n).value.Negotiated? {
      var protocol := Verdict(n).value.protocol;
      InvIdle(gone, env);
      JoinInPerforms(gone, conn, stream, protocol);
      InboundNegotiatedKeeps(gone, env, conn, stream, protocol);
      DispatchPerforms(InboundNegotiated(gone, conn, stream, protocol), env, conn, stream, n.recvBuf, nowMs);
    }
  }

  lemma OutboundApp(c: Core, env: Env, conn: ConnId, stream: StreamId, data: Blob, nowMs: u64)
    requires Inv(c, env) && Negotiating(c.net) && (conn, stream) in c.net.outbound && (conn, stream) !in c.net.inbound
    ensures FeedOutbound(c, conn, stream, data, nowMs).app == AppThen(c, DataArrives(conn, stream, data, nowMs))
  {
    hide FeedOutbound, Dispatch, OutboundNegotiated, Inv, Tells, Multistream.Receive, Negotiating, Verdict, Talked,
         Complains, Performs, Received, PingTaken, FedOut;
    var key := (conn, stream);
    var gone := FeedOutboundCases(c, env, conn, stream, data, nowMs);
    OutboundAlone(c, env, key);
    UndecidedValid(c.net.outbound[key].negotiator);
    var n, target := FedOut(c, key, data), c.net.outbound[key].target;
    if Verdict(n).Some? && Verdict(n).value.Negotiated? {
      InvIdle(gone, env);
      OutboundNegotiatedApp(gone, conn, stream, target, nowMs);
      OutboundNegotiatedKeeps(gone, env, conn, stream, target, nowMs);
      DispatchPerforms(OutboundNegotiated(gone, conn, stream, target, nowMs), env, conn, stream, n.recvBuf, nowMs);
    }
  }

  lemma DataApp(c: Core, env: Env, op: Op)
    requires Inv(c, env) && Negotiating(c.net) && op.DataArrives?
    ensures Step(c, op).app == AppThen(c, op)
  {
    hide FeedInbound, FeedOutbound, Dispatch, Inv, Verdict, FedOut, PingTaken, Performs, Received, Register, Upgrade,
         ConnClosed, RemoteWriteClosed, StreamClosed, IncomingStream, StreamOpened, OpenFailed, DrainPing,
         DrainIdentify, PingPeer, OpenUserStream, UserStreamCall, AddUserProtocol;
    var key := (op.id, op.stream);
    if key in c.net.inbound {
      InboundApp(c, env, op.id, op.stream, op.data, op.nowMs);
    } else if key in c.net.outbound {
      OutboundApp(c, env, op.id, op.stream, op.data, op.nowMs);
    } else {
      DispatchPerforms(c, env, op.id, op.stream, op.data, op.nowMs);
    }
  }

  lemma EndingApp(c: Core, env: Env, op: Op)
    requires Inv(c, env) && Negotiating(c.net) && (op.WriteCloses? || op.StreamCloses?)
    ensures Step(c, op).app == AppThen(c, op)
  {
    hide Inv, FeedPing, DrainIdentify, Negotiating, Performs, Absorb, Ping.Handle, Identify.Handle, Register, Upgrade,
         ConnClosed, StreamData, IncomingStream, StreamOpened, OpenFailed, DrainPing, PingPeer, OpenUserStream,
         UserStreamCall, AddUserProtocol;
    InvIdle(c, env);
    var key := (op.id, op.stream);
    if key in c.net.owner {
      OwnerNamed(c, env, key);
      var peer := c.net.connToPeer[op.id];
      var c0 := c.(net := c.net.(owner := c.net.owner - {key}));
      FeedPingPerforms(c, Ping.StreamRemoteWriteClosed(peer, op.stream));
      var ends := Identify.StreamRemoteWriteClosed(peer, op.stream);
      DrainIdentifyForm(c.(identify := Identify.Handle(c.identify, ends).0));
      FeedPingPerforms(c0, Ping.StreamClosed(peer, op.stream));
      FeedIdentifyPerforms(c0, Identify.StreamClosed(peer, op.stream));
    }
  }

  lemma OtherApp(c: Core, env: Env, op: Op)
    requires Inv(c, env) && Negotiating(c.net) && Allowed(env, c, op)
    requires !op.Connected? && !op.IdentityVerified? && !op.DataArrives? && !op.WriteCloses? && !op.StreamCloses?
    ensures Step(c, op).app == AppThen(c, op)
  {
    hide Inv, Negotiating, Opened, Multistream.EncodeMessage, Register, Upgrade, ConnClosed, StreamData, UserConns,
         RemoteWriteClosed, StreamClosed, DrainPing, DrainIdentify, QueueOpen, Ping.SendOne, HasPendingPing, Asking,
         Identify.AddProtocol, Least, Tells, Ping.TickAll;
    InvIdle(c, env);
    CounterStarted(c, env);
    match op {
      case ConnectionCloses(id) => ConnClosedForm(c, id);
      case Ticks(nowMs, order) =>
        PingFrame(c.(ping := Ping.TickAll(c.ping, nowMs, order)));
        IdleIdentify(DrainPing(c.(ping := Ping.TickAll(c.ping, nowMs, order))));
      case CallPing(peer, payload, nowMs) =>
        PingFrame(c.(ping := Ping.SendOne(c.ping, peer, payload, nowMs).0));
        if peer in c.net.peerToConn {
          var queued := c.(app := c.app.(pendingPings := c.app.pendingPings[peer := payload]));
          QueueOpenForm(queued, peer, PING_ID, PingKind);
        }
      case CallOpen(peer, protocol) =>
        if peer in c.net.peerToConn {
          QueueOpenForm(c, peer, protocol, User(protocol));
        }
      case _ =>
    }
  }

  /** What is kept for the application, after every step. */
  lemma StepApp(c: Core, env: Env, op: Op)
    requires Inv(c, env) && Negotiating(c.net) && Allowed(env, c, op)
    ensures Step(c, op).app == AppThen(c, op)
  {
    hide Inv, Negotiating, Step, AppThen;
    if op.Connected? {
      ConnectedApp(c, env, op);
    } else if op.IdentityVerified? {
      VerifiedApp(c, env, op);
    } else if op.DataArrives? {
      DataApp(c, env, op);
    } else if op.WriteCloses? || op.StreamCloses? {
      EndingApp(c, env, op);
    } else {
      OtherApp(c, env, op);
    }
  }

  // ------------------------------------------------------------------------ names and refusals

  /** The peer an event is about. */
  function Addressee(event: Event): Option<PeerId> {
    if event.RuntimeError? then event.errorPeer else Some(event.peer)
  }

  /** An upgrade readdresses exactly the queued events about the connection's former name, and changes
      nothing else about them. */
  lemma EventsReaddressed(c: Core, op: Op)
    ensures var r, from := Readdressed(c, op).events, if op.IdentityVerified? then FormerName(c, op.id) else None;
            && |r| == |c.events|
            && (forall i :: 0 <= i < |r| ==> Anon(r[i]) == Anon(c.events[i]))
            && (forall i :: 0 <= i < |r| ==>
                  Addressee(r[i]) == if Renames(c, op) && from.Some? && Addressee(c.events[i]) == from
                                     then op.who else Addressee(c.events[i]))
  {
  }

  /** A user stream of that id on a connection of the peer. */
  ghost predicate HasUserStream(net: Net, peer: PeerId, stream: StreamId) {
    exists conn :: UserStreamOn(net, peer, stream, conn)
  }

  predicate UserStreamOn(net: Net, peer: PeerId, stream: StreamId, conn: ConnId) {
    && conn in net.connToPeer && net.connToPeer[conn] == peer
    && (conn, stream) in net.owner && net.owner[(conn, stream)].User?
  }

  lemma UserConnsAre(net: Net, peer: PeerId, stream: StreamId)
    ensures forall conn :: conn in UserConns(net, peer, stream) <==> UserStreamOn(net, peer, stream, conn)
  {
    forall conn: ConnId | UserStreamOn(net, peer, stream, conn)
      ensures conn in UserConns(net, peer, stream)
    {
      var k := (conn, stream);
      assert k in net.owner && k.1 == stream && k.0 == conn;
    }
  }

  /** A call on a user stream is refused exactly when no connection of the peer has such a stream. */
  lemma UserCallRefused(c: Core, peer: PeerId, stream: StreamId, call: UserCall)
    ensures var (d, e) := UserStreamCall(c, peer, stream, call);
            && e == (if HasUserStream(c.net, peer, stream) then None else Some(UserStreamNotFound))
            && (e.Some? ==> d == c)
  {
    hide Least, UserConns;
    UserConnsAre(c.net, peer, stream);
    if UserConns(c.net, peer, stream) != {} {
      assert UserStreamOn(c.net, peer, stream, Least(UserConns(c.net, peer, stream)));
    }
  }

  /** Opening is refused for a protocol the application has not registered, then for a peer that is not
      connected, then for a protocol the peer has said it does not speak, and never otherwise; what is
      refused changes nothing, and what is not is asked for. */
  lemma OpenRefused(c: Core, env: Env, peer: PeerId, protocol: Blob)
    requires Inv(c, env) && c.net.nextToken + 2 < TWO_64
    ensures var (d, e) := OpenUserStream(c, peer, protocol);
            && (e.None? <==> MayOpen(c, peer, protocol)) && (e.Some? ==> d == c)
            && (e == Some(ProtocolNotRegistered) <==> protocol !in c.app.users)
            && (e == Some(NotConnected) <==> protocol in c.app.users && peer !in c.net.peerToConn)
            && (e == Some(RemoteDoesNotSupport) <==>
                  protocol in c.app.users && peer in c.net.peerToConn && !MayOpen(c, peer, protocol))
  {
    hide Inv, QueueOpen, Asking;
    CounterStarted(c, env);
    if peer in c.net.peerToConn {
      QueueOpenForm(c, peer, protocol, User(protocol));
    }
  }

  /** A ping is refused for a peer that is not connected, and on a ping stream that is there already if
      it has the wrong length or another one is in flight; nothing then changes. */
  lemma PingRefused(c: Core, env: Env, peer: PeerId, payload: Blob, nowMs: u64)
    requires Inv(c, env) && c.net.nextToken + 2 < TWO_64
    ensures var (d, e) := PingPeer(c, peer, payload, nowMs);
            var state := Ping.Peer(c.ping, peer);
            && (e == Some(NotConnected) <==> peer !in c.net.peerToConn)
            && (e == Some(PingRejected) <==>
                  peer in c.net.peerToConn && state.outbound.Some? && (|payload| != 32 || state.pending.Some?))
            && (e.Some? ==> d == c && (e.value == NotConnected || e.value == PingRejected))
  {
    hide Inv, QueueOpen, Asking, DrainPing, HasPendingPing;
    CounterStarted(c, env);
    if peer in c.net.peerToConn {
      QueueOpenForm(c.(app := c.app.(pendingPings := c.app.pendingPings[peer := payload])), peer, PING_ID, PingKind);
    }
  }

  /** Disconnecting asks for the close of the peer's connection, and is refused if there is none. */
  lemma DisconnectRefused(c: Core, peer: PeerId)
    ensures var (d, e) := Disconnect(c, peer);
            && (e.None? <==> peer in c.net.peerToConn) && (e.Some? ==> d == c && e.value == NotConnected)
            && (e.None? ==> d == c.(actions := c.actions + [CloseConnection(c.net.peerToConn[peer])]))
  {
  }
}

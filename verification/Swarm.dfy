/** The Sans-I/O swarm as a value and its steps (crates/swarm/src/core.rs:59-1577). Error texts are
    left out, addresses are carried in binary form, and a tick is told in which order the ping
    machine walks its peers. */
module Swarm {
  import opened Bytes
  import opened Ids
  import Multistream
  import Ping
  import Identify
  import IdentifyMessage

  // "/ipfs/ping/1.0.0"
  const PING_ID: Blob := [47, 105, 112, 102, 115, 47, 112, 105, 110, 103, 47, 49, 46, 48, 46, 48]
  // "/ipfs/id/1.0.0"
  const IDENTIFY_ID: Blob := [47, 105, 112, 102, 115, 47, 105, 100, 47, 49, 46, 48, 46, 48]

  /** Which protocol a negotiated or negotiating stream belongs to. */
  datatype Kind = PingKind | IdentifyResponder | IdentifyInitiator | User(protocol: Blob)

  datatype PendingOutbound = PendingOutbound(negotiator: Multistream.Select, target: Kind)

  datatype PendingOpen = PendingOpen(conn: ConnId, protocol: Blob, target: Kind)

  datatype ErrorKind =
    | TransportFault | MultistreamFault | IdentifyFault | PingFault | IdentifyStreamRejected
    | OpenStreamFault | UnsupportedProtocol | DriverFault

  datatype Event =
    | ConnectionEstablished(peer: PeerId)
    | ConnectionClosed(peer: PeerId)
    | IdentifyReceived(peer: PeerId, info: IdentifyMessage.Info)
    | PeerReady(peer: PeerId, protocols: seq<Blob>)
    | PingRttMeasured(peer: PeerId, rttMs: nat)
    | PingTimeout(peer: PeerId)
    | UserStreamReady(peer: PeerId, stream: StreamId, protocol: Blob, initiatedLocally: bool)
    | UserStreamData(peer: PeerId, stream: StreamId, data: Blob)
    | UserStreamRemoteWriteClosed(peer: PeerId, stream: StreamId)
    | UserStreamClosed(peer: PeerId, stream: StreamId)
    | RuntimeError(kind: ErrorKind, errorPeer: Option<PeerId>, conn: Option<ConnId>)

  datatype Action =
    | OpenStream(conn: ConnId, token: u64)
    | SendStream(conn: ConnId, stream: StreamId, data: Blob)
    | CloseStreamWrite(conn: ConnId, stream: StreamId)
    | ResetStream(conn: ConnId, stream: StreamId)
    | CloseConnection(conn: ConnId)

  /** Rejections of application calls. */
  datatype CallError =
    | NotConnected | ProtocolNotRegistered | RemoteDoesNotSupport | UserStreamNotFound | PingRejected

  /** The connection and stream tables. */
  datatype Net = Net(
    connToPeer: map<ConnId, PeerId>,
    peerToConn: map<PeerId, ConnId>,
    active: map<ConnId, bool>,
    remoteAddr: map<ConnId, Blob>,
    inbound: map<Key, Multistream.Select>,
    outbound: map<Key, PendingOutbound>,
    owner: map<Key, Kind>,
    opens: map<u64, PendingOpen>,
    nextToken: u64)

  /** What is kept per peer and for the application. */
  datatype App = App(
    supported: seq<Blob>,
    users: seq<Blob>,
    pendingPings: map<PeerId, Blob>,
    localAddrs: seq<Blob>,
    peerInfo: map<PeerId, IdentifyMessage.Info>,
    ready: set<PeerId>,
    established: set<PeerId>)

  datatype Core = Core(
    net: Net, app: App, ping: Ping.Machine, identify: Identify.Machine, events: seq<Event>, actions: seq<Action>)

  function New(config: Identify.Config, pingTimeoutMs: u64): Core {
    Core(Net(map[], map[], map[], map[], map[], map[], map[], map[], 1),
         App([IDENTIFY_ID, PING_ID], [], map[], [], map[], {}, {}),
         Ping.New(pingTimeoutMs), Identify.New(config), [], [])
  }

  // ------------------------------------------------------------------- small helpers

  function Push(c: Core, event: Event): Core {
    c.(events := c.events + [event])
  }

  function Do(c: Core, action: Action): Core {
    c.(actions := c.actions + [action])
  }

  function Fault(c: Core, kind: ErrorKind, peer: Option<PeerId>, conn: Option<ConnId>): Core {
    Push(c, RuntimeError(kind, peer, conn))
  }

  function EstablishedPeer(c: Core, conn: ConnId): Option<PeerId> {
    if conn in c.net.connToPeer && c.net.connToPeer[conn] in c.app.established
    then Some(c.net.connToPeer[conn]) else None
  }

  function ConnFor(net: Net, peer: PeerId): Option<ConnId> {
    if peer in net.peerToConn then Some(net.peerToConn[peer]) else None
  }

  function TryReady(c: Core, peer: PeerId): Core {
    if peer in c.app.ready || peer !in c.app.peerInfo || peer !in c.net.peerToConn then c
    else
      Push(c.(app := c.app.(ready := c.app.ready + {peer})), PeerReady(peer, c.app.peerInfo[peer].protocols))
  }

  /** The token a wrapping counter yields, zero skipped, and the counter after it. */
  function NextToken(raw: u64): (u64, u64) {
    if raw == 0 then (1, 2) else (raw, (raw + 1) % TWO_64)
  }

  predicate HasPendingPing(net: Net, peer: PeerId) {
    peer in net.peerToConn &&
    var conn := net.peerToConn[peer];
    || (exists k :: k in net.outbound && k.0 == conn && net.outbound[k].target.PingKind?)
    || (exists t :: t in net.opens && net.opens[t].conn == conn && net.opens[t].target.PingKind?)
  }

  function AddOpen(net: Net, open: PendingOpen): Net {
    var (token, next) := NextToken(net.nextToken);
    net.(opens := net.opens[token := open], nextToken := next)
  }

  /** Asks the driver for a stream on the peer's connection. */
  function QueueOpen(c: Core, peer: PeerId, protocol: Blob, target: Kind): (Core, Option<CallError>) {
    if peer !in c.net.peerToConn then (c, Some(NotConnected))
    else
      var conn := c.net.peerToConn[peer];
      (Do(c.(net := AddOpen(c.net, PendingOpen(conn, protocol, target))),
          OpenStream(conn, NextToken(c.net.nextToken).0)), None)
  }

  /** The assertion in `queue_open_protocol_stream`. */
  predicate OpenAsserts(net: Net, peer: PeerId) {
    peer in net.peerToConn ==>
      net.peerToConn[peer] in net.connToPeer && net.connToPeer[net.peerToConn[peer]] == peer
  }

  function Bind(net: Net, conn: ConnId, peer: PeerId): Net {
    net.(connToPeer := net.connToPeer[conn := peer], peerToConn := net.peerToConn[peer := conn])
  }

  function PeerOf(net: Net, conn: ConnId): PeerId {
    if conn in net.connToPeer then net.connToPeer[conn] else Placeholder(conn)
  }

  /** `ensure_peer_id_for_conn`: afterwards the connection maps to `PeerOf`. */
  function Ensure(net: Net, conn: ConnId): Net {
    if conn in net.connToPeer then net else Bind(net, conn, Placeholder(conn))
  }

  function Elsewhere<V>(streams: map<Key, V>, conn: ConnId): map<Key, V> {
    map k | k in streams && k.0 != conn :: streams[k]
  }

  function OpensElsewhere(opens: map<u64, PendingOpen>, conn: ConnId): map<u64, PendingOpen> {
    map t | t in opens && opens[t].conn != conn :: opens[t]
  }

  /** Forgets every stream and pending open of a connection. */
  function Purge(net: Net, conn: ConnId): Net {
    net.(active := net.active - {conn},
         remoteAddr := net.remoteAddr - {conn},
         inbound := Elsewhere(net.inbound, conn),
         outbound := Elsewhere(net.outbound, conn),
         owner := Elsewhere(net.owner, conn),
         opens := OpensElsewhere(net.opens, conn))
  }

  function Own(net: Net, key: Key, kind: Kind): Net {
    net.(owner := net.owner[key := kind])
  }

  // ------------------------------------------------------ actions of embedded machines

  /** The connections on which a peer's stream is owned by `kind`. */
  function OwnedOn(net: Net, peer: PeerId, stream: StreamId, kind: Kind): set<ConnId> {
    set k | k in net.owner && k.1 == stream && net.owner[k] == kind
            && k.0 in net.connToPeer && net.connToPeer[k.0] == peer :: k.0
  }

  lemma {:induction false} HasLeast(s: set<ConnId>)
    requires s != {}
    ensures exists c :: IsLeast(s, c)
    decreases |s|
  {
    var x :| x in s;
    var rest := s - {x};
    assert forall d :: d in s ==> d == x || d in rest;
    if rest == {} {
      assert IsLeast(s, x);
    } else {
      HasLeast(rest);
      var c :| IsLeast(rest, c);
      assert IsLeast(s, if x < c then x else c);
    }
  }

  predicate IsLeast(s: set<ConnId>, c: ConnId) {
    c in s && forall d :: d in s ==> c <= d
  }

  function Least(s: set<ConnId>): (c: ConnId)
    requires s != {}
    ensures IsLeast(s, c)
  {
    HasLeast(s);
    var c :| IsLeast(s, c);
    c
  }

  /** `conn_for_owned_stream`: the first match in key order. */
  function ConnForOwned(net: Net, peer: PeerId, stream: StreamId, kind: Kind): Option<ConnId> {
    var conns := OwnedOn(net, peer, stream, kind);
    if conns == {} then None else Some(Least(conns))
  }

  function ExecutePing(c: Core, action: Ping.Action): Core {
    match ConnForOwned(c.net, action.peer, action.stream, PingKind)
    case None => c
    case Some(conn) =>
      match action
      case Send(_, stream, data) => Do(c, SendStream(conn, stream, data))
      case CloseStreamWrite(_, stream) => Do(c, CloseStreamWrite(conn, stream))
      case ResetStream(_, stream) => Do(c, ResetStream(conn, stream))
  }

  function HandlePingEvent(c: Core, event: Ping.Event): Core {
    match event
    case RttMeasured(peer, _, rtt) => Push(c, PingRttMeasured(peer, rtt))
    case Timeout(peer, _, _) => Push(c, PingTimeout(peer))
    case ProtocolViolation(peer, _, _) => Fault(c, PingFault, Some(peer), ConnFor(c.net, peer))
    case _ => c
  }

  function DrainPing(c: Core): Core
    decreases |c.ping.actions| + |c.ping.events|
  {
    match Ping.Poll(c.ping)
    case (_, None) => c
    case (m, Some(Act(action))) => DrainPing(ExecutePing(c.(ping := m), action))
    case (m, Some(Tell(event))) => DrainPing(HandlePingEvent(c.(ping := m), event))
  }

  function ExecuteIdentify(c: Core, action: Identify.Action): Core {
    if action.peer !in c.net.peerToConn then c
    else
      var conn := c.net.peerToConn[action.peer];
      match action
      case Send(_, stream, data) => Do(c, SendStream(conn, stream, data))
      case CloseStreamWrite(_, stream) => Do(c, CloseStreamWrite(conn, stream))
  }

  function HandleIdentifyEvent(c: Core, event: Identify.Event): Core {
    match event
    case Received(peer, info) =>
      TryReady(Push(c.(app := c.app.(peerInfo := c.app.peerInfo[peer := info])), IdentifyReceived(peer, info)), peer)
    case Failed(_, _) => Fault(c, IdentifyFault, None, None)
  }

  function DrainIdentify(c: Core): Core
    decreases |c.identify.actions| + |c.identify.events|
  {
    match Identify.Poll(c.identify)
    case (_, None) => c
    case (m, Some(Act(action))) => DrainIdentify(ExecuteIdentify(c.(identify := m), action))
    case (m, Some(Tell(event))) => DrainIdentify(HandleIdentifyEvent(c.(identify := m), event))
  }

  /** Feeds the embedded ping machine and routes what it puts out. */
  function FeedPing(c: Core, input: Ping.Input): Core {
    DrainPing(c.(ping := Ping.Handle(c.ping, input).0))
  }

  function FeedIdentify(c: Core, input: Identify.Input): Core {
    DrainIdentify(c.(identify := Identify.Handle(c.identify, input).0))
  }

  // --------------------------------------------------------------- connection lifecycle

  function ForgetPeer(c: Core, peer: PeerId): Core {
    FeedIdentify(FeedPing(c, Ping.RemovePeer(peer)), Identify.RemovePeer(peer))
  }

  /** Closes an older connection in favour of a newer one to the same peer. */
  function Supersede(c: Core, conn: ConnId): Core {
    var c1 :=
      if conn !in c.net.connToPeer then c
      else
        var peer := c.net.connToPeer[conn];
        var f := ForgetPeer(c.(net := c.net.(connToPeer := c.net.connToPeer - {conn})), peer);
        f.(app := f.app.(peerInfo := f.app.peerInfo - {peer}, ready := f.app.ready - {peer},
                         established := f.app.established - {peer}));
    Do(c1.(net := Purge(c1.net, conn)), CloseConnection(conn))
  }

  function Register(c: Core, conn: ConnId, peer: PeerId): Core {
    var isNew := conn !in c.net.connToPeer;
    var c1 :=
      if peer in c.net.peerToConn && c.net.peerToConn[peer] != conn
      then Supersede(c, c.net.peerToConn[peer]) else c;
    var c2 := c1.(net := Bind(c1.net, conn, peer));
    if !isNew then c2 else Announce(c2, conn, peer)
  }

  /** Surfaces a new connection, asks for its identify stream, and reopens a queued ping. */
  function Announce(c: Core, conn: ConnId, peer: PeerId): Core {
    var c1 := Push(c.(app := c.app.(established := c.app.established + {peer})), ConnectionEstablished(peer));
    var (c2, e2) := QueueOpen(c1, peer, IDENTIFY_ID, IdentifyInitiator);
    var c3 := if e2.None? then c2 else Fault(c2, IdentifyFault, Some(peer), Some(conn));
    ReopenPing(c3, conn, peer)
  }

  function ReopenPing(c: Core, conn: ConnId, peer: PeerId): Core {
    if peer in c.app.pendingPings && Ping.OutboundStream(c.ping, peer).None? && !HasPendingPing(c.net, peer) then
      var (d, e) := QueueOpen(c, peer, PING_ID, PingKind);
      if e.None? then d else Fault(d, PingFault, Some(peer), Some(conn))
    else c
  }

  function RenameEvent(event: Event, from: PeerId, to: PeerId): Event {
    if event.RuntimeError? then
      if event.errorPeer == Some(from) then event.(errorPeer := Some(to)) else event
    else if event.peer == from then event.(peer := to) else event
  }

  function RenameEvents(events: seq<Event>, from: PeerId, to: PeerId): (r: seq<Event>)
    ensures |r| == |events|
  {
    seq(|events|, i requires 0 <= i < |events| => RenameEvent(events[i], from, to))
  }

  function Moved<T>(m: map<PeerId, T>, from: PeerId, to: PeerId): map<PeerId, T> {
    if from in m then (m - {from})[to := m[from]] else m
  }

  function MovedIn(s: set<PeerId>, from: PeerId, to: PeerId): set<PeerId> {
    if from in s then s - {from} + {to} else s
  }

  /** Moves everything known under a stale identity to the verified one. */
  function Rekey(c: Core, from: PeerId, to: PeerId): Core {
    var c1 := c.(net := c.net.(peerToConn := c.net.peerToConn - {from}));
    var c2 := c1.(ping := Ping.Migrate(c1.ping, from, to), identify := Identify.Migrate(c1.identify, from, to));
    var c3 := DrainIdentify(DrainPing(c2));
    c3.(app := c3.app.(pendingPings := Moved(c3.app.pendingPings, from, to),
                       peerInfo := Moved(c3.app.peerInfo, from, to),
                       ready := MovedIn(c3.app.ready, from, to),
                       established := MovedIn(c3.app.established, from, to)),
        events := RenameEvents(c3.events, from, to))
  }

  function Upgrade(c: Core, conn: ConnId, peer: PeerId): Core {
    if conn in c.net.connToPeer && c.net.connToPeer[conn] == peer then c
    else
      var c1 := if conn in c.net.connToPeer then Rekey(c, c.net.connToPeer[conn], peer) else c;
      var c2 := c1.(net := Bind(c1.net, conn, peer), app := c1.app.(established := c1.app.established + {peer}));
      var c3 := TryReady(Push(c2, ConnectionEstablished(peer)), peer);
      var (c4, e) := QueueOpen(c3, peer, IDENTIFY_ID, IdentifyInitiator);
      if e.None? then c4 else Fault(c4, IdentifyFault, Some(peer), Some(conn))
  }

  /** The peer's only named connection is gone. */
  function PeerGone(c: Core, peer: PeerId): Core {
    var f := ForgetPeer(c.(net := c.net.(peerToConn := c.net.peerToConn - {peer})), peer);
    Push(f.(app := f.app.(pendingPings := f.app.pendingPings - {peer}, peerInfo := f.app.peerInfo - {peer},
                          ready := f.app.ready - {peer}, established := f.app.established - {peer})),
         ConnectionClosed(peer))
  }

  function ConnClosed(c: Core, conn: ConnId): Core {
    var c0 := c.(net := c.net.(active := c.net.active - {conn}, remoteAddr := c.net.remoteAddr - {conn}));
    var c1 :=
      if conn !in c0.net.connToPeer then c0
      else
        var peer := c0.net.connToPeer[conn];
        var u := c0.(net := c0.net.(connToPeer := c0.net.connToPeer - {conn}));
        if ConnFor(u.net, peer) != Some(conn) then u else PeerGone(u, peer);
    c1.(net := Purge(c1.net, conn))
  }

  // -------------------------------------------------------------------- stream lifecycle

  /** A fresh negotiator whose header has been handed to the transport. */
  function Opened(role: Multistream.Role): Multistream.Select {
    Multistream.Start(Multistream.New(role)).(pending := [])
  }

  function SendHeader(c: Core, conn: ConnId, stream: StreamId): Core {
    Do(c, SendStream(conn, stream, Multistream.EncodeMessage(Multistream.HEADER)))
  }

  function IncomingStream(c: Core, conn: ConnId, stream: StreamId): Core {
    var listener := Opened(Multistream.Listener(set p | p in c.app.supported));
    SendHeader(c.(net := c.net.(inbound := c.net.inbound[(conn, stream) := listener])), conn, stream)
  }

  function StreamOpened(c: Core, conn: ConnId, stream: StreamId, token: u64): Core {
    if token !in c.net.opens then Fault(c, DriverFault, None, None)
    else
      var open := c.net.opens[token];
      var c1 := c.(net := c.net.(opens := c.net.opens - {token}));
      if open.conn != conn then Fault(c1, DriverFault, EstablishedPeer(c1, conn), Some(conn))
      else
        var pending := PendingOutbound(Opened(Multistream.Dialer(open.protocol)), open.target);
        SendHeader(c1.(net := c1.net.(outbound := c1.net.outbound[(conn, stream) := pending])), conn, stream)
  }

  function OpenFailed(c: Core, token: u64): Core {
    if token !in c.net.opens then Fault(c, OpenStreamFault, None, None)
    else
      var conn := c.net.opens[token].conn;
      var c1 := c.(net := c.net.(opens := c.net.opens - {token}));
      Fault(c1, OpenStreamFault, EstablishedPeer(c1, conn), Some(conn))
  }

  function Dispatch(c: Core, conn: ConnId, stream: StreamId, data: Blob, nowMs: u64): Core {
    if (conn, stream) !in c.net.owner then c
    else
      var peer := PeerOf(c.net, conn);
      var c1 := c.(net := Ensure(c.net, conn));
      match c.net.owner[(conn, stream)]
      case PingKind => FeedPing(c1, Ping.StreamData(peer, stream, data, nowMs))
      case IdentifyInitiator => FeedIdentify(c1, Identify.StreamData(peer, stream, data))
      case IdentifyResponder => c1
      case User(_) => Push(c1, UserStreamData(peer, stream, data))
  }

  function RemoteWriteClosed(c: Core, conn: ConnId, stream: StreamId): Core {
    if (conn, stream) !in c.net.owner then c
    else
      var peer := PeerOf(c.net, conn);
      var c1 := c.(net := Ensure(c.net, conn));
      match c.net.owner[(conn, stream)]
      case PingKind => FeedPing(c1, Ping.StreamRemoteWriteClosed(peer, stream))
      case IdentifyInitiator => FeedIdentify(c1, Identify.StreamRemoteWriteClosed(peer, stream))
      case IdentifyResponder => c1
      case User(_) => Push(c1, UserStreamRemoteWriteClosed(peer, stream))
  }

  /** Tells the owner of a stream that it closed. */
  function Closing(c: Core, kind: Kind, peer: PeerId, stream: StreamId): Core {
    match kind
    case PingKind => FeedPing(c, Ping.StreamClosed(peer, stream))
    case IdentifyInitiator => FeedIdentify(c, Identify.StreamClosed(peer, stream))
    case IdentifyResponder => FeedIdentify(c, Identify.StreamClosed(peer, stream))
    case User(_) => Push(c, UserStreamClosed(peer, stream))
  }

  function StreamClosed(c: Core, conn: ConnId, stream: StreamId): Core {
    var key := (conn, stream);
    var c0 := c.(net := c.net.(owner := c.net.owner - {key}));
    var c1 :=
      if key !in c.net.owner || conn !in c.net.connToPeer then c0
      else
        Closing(c0, c.net.owner[key], c.net.connToPeer[conn], stream);
    c1.(net := c1.net.(inbound := c1.net.inbound - {key}, outbound := c1.net.outbound - {key}))
  }

  // ------------------------------------------------------------------------ negotiation

  /** The effect of negotiation outputs up to a refusal or failure: the core, the protocol agreed
      on so far, and whether negotiation was cut off. */
  datatype Played = Played(core: Core, agreed: Option<Blob>, aborted: bool)

  function Play(c: Core, conn: ConnId, stream: StreamId, outputs: seq<Multistream.Output>, agreed: Option<Blob>,
                refusal: Option<ErrorKind>): Played
    decreases |outputs|
  {
    if outputs == [] then Played(c, agreed, false)
    else
      match outputs[0]
      case OutboundData(bytes) =>
        Play(Do(c, SendStream(conn, stream, bytes)), conn, stream, outputs[1..], agreed, refusal)
      case Negotiated(protocol) => Play(c, conn, stream, outputs[1..], Some(protocol), refusal)
      case NotAvailable =>
        Played(if refusal.None? then c else Fault(c, refusal.value, EstablishedPeer(c, conn), Some(conn)), agreed, true)
      case ProtocolError(_) =>
        Played(Fault(c, MultistreamFault, EstablishedPeer(c, conn), Some(conn)), agreed, true)
  }

  function FeedInbound(c: Core, conn: ConnId, stream: StreamId, data: Blob, nowMs: u64): Core
    requires (conn, stream) in c.net.inbound && c.net.inbound[(conn, stream)].Valid()
  {
    var key := (conn, stream);
    var n := Multistream.Receive(c.net.inbound[key], data);
    var c1 := c.(net := c.net.(inbound := c.net.inbound[key := n.(pending := [])]));
    var p := Play(c1, conn, stream, n.pending, None, None);
    var gone := p.core.(net := p.core.net.(inbound := p.core.net.inbound - {key}));
    if p.aborted then Do(gone, ResetStream(conn, stream))
    else if p.agreed.None? then p.core
    else
      var c2 := InboundNegotiated(gone, conn, stream, p.agreed.value);
      if n.recvBuf == [] then c2 else Dispatch(c2, conn, stream, n.recvBuf, nowMs)
  }

  function FeedOutbound(c: Core, conn: ConnId, stream: StreamId, data: Blob, nowMs: u64): Core
    requires (conn, stream) in c.net.outbound && c.net.outbound[(conn, stream)].negotiator.Valid()
  {
    var key := (conn, stream);
    var pending := c.net.outbound[key];
    var n := Multistream.Receive(pending.negotiator, data);
    var kept := pending.(negotiator := n.(pending := []));
    var c1 := c.(net := c.net.(outbound := c.net.outbound[key := kept]));
    var p := Play(c1, conn, stream, n.pending, None, Some(UnsupportedProtocol));
    var gone := p.core.(net := p.core.net.(outbound := p.core.net.outbound - {key}));
    if p.aborted then Do(gone, ResetStream(conn, stream))
    else if p.agreed.None? then p.core
    else
      var c2 := OutboundNegotiated(gone, conn, stream, pending.target, nowMs);
      if n.recvBuf == [] then c2 else Dispatch(c2, conn, stream, n.recvBuf, nowMs)
  }

  /** Registers a negotiated identify stream on which our own info is to be sent. */
  function InboundIdentify(c: Core, conn: ConnId, stream: StreamId, peer: PeerId): Core {
    var observed := if conn in c.net.remoteAddr then Some(c.net.remoteAddr[conn]) else None;
    var (m, e) := Identify.RegisterOutbound(c.identify, peer, stream, observed, c.app.localAddrs);
    if e.None? then DrainIdentify(c.(identify := m, net := Own(c.net, (conn, stream), IdentifyResponder)))
    else Do(Fault(c, IdentifyStreamRejected, Some(peer), Some(conn)), ResetStream(conn, stream))
  }

  function InboundNegotiated(c: Core, conn: ConnId, stream: StreamId, protocol: Blob): Core {
    var key := (conn, stream);
    var peer := PeerOf(c.net, conn);
    var c1 := c.(net := Ensure(c.net, conn));
    if protocol == PING_ID then
      FeedPing(c1.(net := Own(c1.net, key, PingKind)), Ping.RegisterInboundStream(peer, stream))
    else if protocol == IDENTIFY_ID then InboundIdentify(c1, conn, stream, peer)
    else if protocol in c1.app.users then
      Push(c1.(net := Own(c1.net, key, User(protocol))), UserStreamReady(peer, stream, protocol, false))
    else c1
  }

  function OutboundNegotiated(c: Core, conn: ConnId, stream: StreamId, target: Kind, nowMs: u64): Core {
    var key := (conn, stream);
    var peer := PeerOf(c.net, conn);
    var net1 := Ensure(c.net, conn);
    var c1 := c.(net := Own(net1, key, target));
    match target
    case PingKind => OutboundPing(c1, conn, stream, peer, nowMs)
    case IdentifyInitiator => FeedIdentify(c1, Identify.RegisterInboundStream(peer, stream))
    case IdentifyResponder => c1
    case User(protocol) => Push(c1, UserStreamReady(peer, stream, protocol, true))
  }

  /** Registers a negotiated ping stream and fires the queued payload, if any. */
  function OutboundPing(c: Core, conn: ConnId, stream: StreamId, peer: PeerId, nowMs: u64): Core {
    var (m, e) := Ping.RegisterOutbound(c.ping, peer, stream);
    if e.Some? then
      Do(Fault(c, PingFault, Some(peer), Some(conn)).(net := c.net.(owner := c.net.owner - {(conn, stream)})),
         ResetStream(conn, stream))
    else
      var c1 := DrainPing(c.(ping := m));
      if peer !in c1.app.pendingPings then c1
      else
        var payload := c1.app.pendingPings[peer];
        var c2 := c1.(app := c1.app.(pendingPings := c1.app.pendingPings - {peer}));
        var (m2, e2) := Ping.SendOne(c2.ping, peer, payload, nowMs);
        if e2.None? then DrainPing(c2.(ping := m2)) else Fault(c2, PingFault, Some(peer), Some(conn))
  }

  /** Every negotiator in the tables is well formed. */
  ghost predicate Negotiating(net: Net) {
    && (forall k :: k in net.inbound ==> net.inbound[k].Valid())
    && (forall k :: k in net.outbound ==> net.outbound[k].negotiator.Valid())
  }

  function StreamData(c: Core, conn: ConnId, stream: StreamId, data: Blob, nowMs: u64): Core
    requires Negotiating(c.net)
  {
    if (conn, stream) in c.net.inbound then FeedInbound(c, conn, stream, data, nowMs)
    else if (conn, stream) in c.net.outbound then FeedOutbound(c, conn, stream, data, nowMs)
    else Dispatch(c, conn, stream, data, nowMs)
  }

  // ------------------------------------------------------------------ application calls

  function AddUserProtocol(c: Core, protocol: Blob): Core {
    c.(app := c.app.(
         users := if protocol in c.app.users then c.app.users else c.app.users + [protocol],
         supported := if protocol in c.app.supported then c.app.supported else c.app.supported + [protocol]),
       identify := Identify.AddProtocol(c.identify, protocol))
  }

  function PingPeer(c: Core, peer: PeerId, payload: Blob, nowMs: u64): (Core, Option<CallError>) {
    if peer !in c.net.peerToConn then (c, Some(NotConnected))
    else if Ping.OutboundStream(c.ping, peer).Some? then
      var (m, e) := Ping.SendOne(c.ping, peer, payload, nowMs);
      if e.Some? then (c, Some(PingRejected)) else (DrainPing(c.(ping := m)), None)
    else
      var queued := c.(app := c.app.(pendingPings := c.app.pendingPings[peer := payload]));
      if HasPendingPing(c.net, peer) then (queued, None) else QueueOpen(queued, peer, PING_ID, PingKind)
  }

  function OpenUserStream(c: Core, peer: PeerId, protocol: Blob): (Core, Option<CallError>) {
    if protocol !in c.app.users then (c, Some(ProtocolNotRegistered))
    else if peer !in c.net.peerToConn then (c, Some(NotConnected))
    else if peer in c.app.ready && !(peer in c.app.peerInfo && protocol in c.app.peerInfo[peer].protocols)
    then (c, Some(RemoteDoesNotSupport))
    else QueueOpen(c, peer, protocol, User(protocol))
  }

  /** `require_user_stream_conn`: the first connection of the peer with such a user stream. */
  function UserConns(net: Net, peer: PeerId, stream: StreamId): set<ConnId> {
    set k | k in net.owner && k.1 == stream && net.owner[k].User?
            && k.0 in net.connToPeer && net.connToPeer[k.0] == peer :: k.0
  }

  datatype UserCall = SendUser(data: Blob) | CloseUserWrite | ResetUser

  function UserStreamCall(c: Core, peer: PeerId, stream: StreamId, call: UserCall): (Core, Option<CallError>) {
    var conns := UserConns(c.net, peer, stream);
    if conns == {} then (c, Some(UserStreamNotFound))
    else
      var conn := Least(conns);
      (Do(c, match call
             case SendUser(data) => SendStream(conn, stream, data)
             case CloseUserWrite => CloseStreamWrite(conn, stream)
             case ResetUser => ResetStream(conn, stream)), None)
  }

  function Disconnect(c: Core, peer: PeerId): (Core, Option<CallError>) {
    if peer !in c.net.peerToConn then (c, Some(NotConnected))
    else (Do(c, CloseConnection(c.net.peerToConn[peer])), None)
  }

  // ---------------------------------------------------------------------------- steps

  /** Everything that can happen to a core: transport events, driver reports, ticks, calls of the
      application, and the driver draining one output. */
  datatype Op =
    | Connected(id: ConnId, who: Option<PeerId>, addr: Blob)
    | IdentityVerified(id: ConnId, who: Option<PeerId>, addr: Blob)
    | IncomingConnection(id: ConnId, addr: Blob)
    | StreamArrives(id: ConnId, stream: StreamId)
    | DataArrives(id: ConnId, stream: StreamId, data: Blob, nowMs: u64)
    | WriteCloses(id: ConnId, stream: StreamId)
    | StreamCloses(id: ConnId, stream: StreamId)
    | ConnectionCloses(id: ConnId)
    | TransportFails(id: ConnId)
    | Ignored
    | DriverOpened(id: ConnId, stream: StreamId, token: u64)
    | DriverFailed(token: u64)
    | DriverReports(kind: ErrorKind, on: Option<ConnId>)
    | Ticks(nowMs: u64, order: seq<PeerId>)
    | CallAddProtocol(protocol: Blob)
    | CallSetAddresses(addrs: seq<Blob>)
    | CallPing(peer: PeerId, payload: Blob, nowMs: u64)
    | CallOpen(peer: PeerId, protocol: Blob)
    | CallUser(peer: PeerId, stream: StreamId, call: UserCall)
    | CallDisconnect(peer: PeerId)
    | PollOutput

  function Poll(c: Core): Core {
    if c.actions != [] then c.(actions := c.actions[1..])
    else if c.events != [] then c.(events := c.events[1..])
    else c
  }

  function Seen(c: Core, conn: ConnId, addr: Blob): Core {
    c.(net := c.net.(remoteAddr := c.net.remoteAddr[conn := addr]))
  }

  function Activate(c: Core, conn: ConnId, established: bool): Core {
    c.(net := c.net.(active := c.net.active[conn := established]))
  }

  function Step(c: Core, op: Op): Core
    requires Negotiating(c.net)
  {
    match op
    case Connected(id, who, addr) =>
      var c1 := Seen(Activate(c, id, true), id, addr);
      if who.Some? then Register(c1, id, who.value) else c1.(net := Ensure(c1.net, id))
    case IdentityVerified(id, who, addr) =>
      var c1 := Seen(c, id, addr);
      if who.Some? then Upgrade(c1, id, who.value) else c1
    case IncomingConnection(id, addr) => Seen(Activate(c, id, false), id, addr)
    case StreamArrives(id, stream) => IncomingStream(c, id, stream)
    case DataArrives(id, stream, data, nowMs) => StreamData(c, id, stream, data, nowMs)
    case WriteCloses(id, stream) => RemoteWriteClosed(c, id, stream)
    case StreamCloses(id, stream) => StreamClosed(c, id, stream)
    case ConnectionCloses(id) => ConnClosed(c, id)
    case TransportFails(id) => Fault(c, TransportFault, EstablishedPeer(c, id), Some(id))
    case Ignored => c
    case DriverOpened(id, stream, token) => StreamOpened(c, id, stream, token)
    case DriverFailed(token) => OpenFailed(c, token)
    case DriverReports(kind, on) => Fault(c, kind, None, on)
    case Ticks(nowMs, order) =>
      DrainIdentify(DrainPing(c.(ping := Ping.TickAll(c.ping, nowMs, order))))
    case CallAddProtocol(protocol) => AddUserProtocol(c, protocol)
    case CallSetAddresses(addrs) => c.(app := c.app.(localAddrs := addrs))
    case CallPing(peer, payload, nowMs) => PingPeer(c, peer, payload, nowMs).0
    case CallOpen(peer, protocol) => OpenUserStream(c, peer, protocol).0
    case CallUser(peer, stream, call) => UserStreamCall(c, peer, stream, call).0
    case CallDisconnect(peer) => Disconnect(c, peer).0
    case PollOutput => Poll(c)
  }
}

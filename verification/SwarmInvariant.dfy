/** What every step of the swarm keeps, over all runs a transport obeying its contract
    (crates/transport/src/transport.rs:13-46, crates/transport/src/event.rs:51-62) can cause.
    The invariant is split by table: names of connections (`Coherent`, `Named`), lifetimes (`Alive`),
    streams and tokens (`Disciplined`), negotiators (`Handshaking`) and readiness (`Readiness`). The
    proofs follow updates of single tables and then the connection lifecycle; stream events and calls
    are in `SwarmSteps`. */
module SwarmInvariant {
  import opened Bytes
  import opened Ids
  import opened Swarm
  import opened SwarmRouting
  import Multistream
  import Ping
  import Identify

  // ------------------------------------------------------------------ environment

  /** What the transport has reported so far. */
  datatype Env = Env(connected: set<ConnId>, closed: set<ConnId>, used: set<Key>)

  predicate Live(env: Env, conn: ConnId) {
    conn in env.connected && conn !in env.closed
  }

  /** The transport contract: a connection connects once, identities and streams come between its
      `Connected` and its `Closed`, and stream ids are fresh. The token counter has not wrapped. */
  predicate Allowed(env: Env, c: Core, op: Op) {
    c.net.nextToken + 2 < TWO_64 &&
    match op
    case Connected(id, who, _) =>
      id !in env.connected && id !in env.closed && (who.Some? ==> who.value.Verified?)
    case IdentityVerified(id, who, _) => Live(env, id) && (who.Some? ==> who.value.Verified?)
    case IncomingConnection(id, _) => id !in env.closed
    case StreamArrives(id, stream) => Live(env, id) && (id, stream) !in env.used
    case DriverOpened(id, stream, _) => (id, stream) !in env.used
    case _ => true
  }

  function Advance(env: Env, op: Op): Env {
    match op
    case Connected(id, _, _) => env.(connected := env.connected + {id})
    case ConnectionCloses(id) => env.(closed := env.closed + {id})
    case StreamArrives(id, stream) => env.(used := env.used + {(id, stream)})
    case DriverOpened(id, stream, _) => env.(used := env.used + {(id, stream)})
    case _ => env
  }

  // -------------------------------------------------------------------- invariants

  /** A peer's connection is a connection to that peer. */
  ghost predicate Coherent(net: Net) {
    forall p :: p in net.peerToConn ==> PointsBack(net, p)
  }

  predicate PointsBack(net: Net, peer: PeerId)
    requires peer in net.peerToConn
  {
    net.peerToConn[peer] in net.connToPeer && net.connToPeer[net.peerToConn[peer]] == peer
  }

  /** No table mentions a connection before it connects or after it closes. */
  ghost predicate Alive(net: Net, env: Env) {
    && (forall id :: id in net.connToPeer ==> Live(env, id))
    && (forall id :: id in net.active ==> id !in env.closed)
    && (forall id :: id in net.remoteAddr ==> id !in env.closed)
    && (forall k :: k in net.inbound ==> Live(env, k.0))
  }

  /** A stream is in at most one table, owned and opening streams are on connections with a peer,
      and tokens come from the counter. */
  ghost predicate Disciplined(net: Net, env: Env) {
    && (forall k :: k in net.inbound ==> k in env.used)
    && (forall k :: k in net.outbound ==> k.0 in net.connToPeer && k in env.used && k !in net.inbound)
    && (forall k :: k in net.owner ==>
          k.0 in net.connToPeer && k in env.used && k !in net.inbound && k !in net.outbound)
    && (forall t :: t in net.opens ==> net.opens[t].conn in net.connToPeer && 1 <= t < net.nextToken)
    && 1 <= net.nextToken
  }

  /** A placeholder names its own connection, and identify streams are only asked of real peers. */
  ghost predicate Named(net: Net) {
    && (forall id :: id in net.connToPeer ==> net.connToPeer[id].Verified? || net.connToPeer[id] == Placeholder(id))
    && (forall k :: k in net.outbound && net.outbound[k].target.IdentifyInitiator? ==> Known(net, k.0))
    && (forall k :: k in net.owner && net.owner[k].IdentifyInitiator? ==> Known(net, k.0))
    && (forall t :: t in net.opens && net.opens[t].target.IdentifyInitiator? ==> Known(net, net.opens[t].conn))
  }

  predicate Known(net: Net, conn: ConnId) {
    conn in net.connToPeer && net.connToPeer[conn].Verified?
  }

  /** Every negotiator is started, drained and undecided. */
  ghost predicate Undecided(m: Multistream.Select) {
    m.Valid() && m.pending == [] && !m.state.Done?
  }

  ghost predicate Handshaking(net: Net) {
    && (forall k :: k in net.inbound ==> Undecided(net.inbound[k]))
    && (forall k :: k in net.outbound ==> Undecided(net.outbound[k].negotiator))
  }

  /** Everything about the tables but coherence. */
  ghost predicate Sound(net: Net, env: Env) {
    Alive(net, env) && Disciplined(net, env) && Named(net) && Handshaking(net)
  }

  /** The readiness views agree with the tables. */
  ghost predicate Readiness(net: Net, app: App) {
    && app.established == (set p | p in net.peerToConn && p.Verified?)
    && app.ready <= app.established
    && (forall p :: p in app.ready ==> p in app.peerInfo)
  }

  /** Remotes may ask for ping, identify and what the application registered, and nothing else. */
  ghost predicate Advertised(app: App) {
    forall p :: p in app.supported <==> p == PING_ID || p == IDENTIFY_ID || p in app.users
  }

  ghost predicate Inv(c: Core, env: Env) {
    && Sound(c.net, env)
    && Coherent(c.net)
    && Readiness(c.net, c.app)
    && Advertised(c.app)
    && Ping.Idle(c.ping)
    && Identify.Idle(c.identify)
  }

  lemma InvNew(config: Identify.Config, timeoutMs: u64)
    ensures Inv(New(config, timeoutMs), Env({}, {}, {}))
  {
  }

  lemma InvNegotiating(c: Core, env: Env)
    requires Inv(c, env)
    ensures Negotiating(c.net)
  {
  }

  // -------------------------------------------------- draining the embedded machines

  /** Nothing but the ping machine's queues, and the outputs, changes. */
  lemma PingFrame(c: Core)
    ensures var d := DrainPing(c);
            && d.net == c.net && d.app == c.app && d.identify == c.identify
            && d.ping == PingDrained(c.ping) && Ping.Idle(d.ping)
  {
    DrainPingForm(c);
  }

  ghost predicate Trusted(events: seq<Identify.Event>) {
    forall i :: 0 <= i < |events| && events[i].Received? ==> events[i].peer.Verified?
  }

  lemma {:induction false} AbsorbReadiness(net: Net, app: App, events: seq<Identify.Event>)
    requires Readiness(net, app) && Trusted(events)
    ensures Readiness(net, Absorb(net, app, events).0)
    ensures Absorb(net, app, events).0
         == app.(peerInfo := Absorb(net, app, events).0.peerInfo, ready := Absorb(net, app, events).0.ready)
    decreases |events|
  {
    if events != [] {
      var first := AbsorbOne(net, app, events[0]).0;
      assert Readiness(net, first);
      AbsorbReadiness(net, first, events[1..]);
    }
  }

  lemma IdentifyFrame(c: Core)
    requires Readiness(c.net, c.app) && Trusted(c.identify.events)
    ensures var d := DrainIdentify(c);
            && d.net == c.net && d.ping == c.ping
            && d.identify == IdentifyDrained(c.identify) && Identify.Idle(d.identify)
            && Readiness(d.net, d.app)
            && d.app == c.app.(peerInfo := d.app.peerInfo, ready := d.app.ready)
  {
    DrainIdentifyForm(c);
    AbsorbReadiness(c.net, c.app, c.identify.events);
  }

  /** Feeding ping keeps the whole invariant, whatever the input. */
  lemma FeedPingKeeps(c: Core, env: Env, input: Ping.Input)
    requires Inv(c, env)
    ensures Inv(FeedPing(c, input), env)
    ensures FeedPing(c, input).net == c.net && FeedPing(c, input).app == c.app
  {
    hide DrainPing, Ping.Handle, Readiness, Sound;
    PingFrame(c.(ping := Ping.Handle(c.ping, input).0));
  }

  /** Only the end of a remote's message makes identify report a peer, and then that very peer. */
  lemma IdentifyReports(m: Identify.Machine, input: Identify.Input)
    requires Identify.Idle(m)
    requires input.StreamRemoteWriteClosed? ==> input.peer.Verified?
    ensures Trusted(Identify.Handle(m, input).0.events)
  {
    hide Identify.DecodeFramed;
  }

  lemma FeedIdentifyKeeps(c: Core, env: Env, input: Identify.Input)
    requires Inv(c, env)
    requires input.StreamRemoteWriteClosed? ==> input.peer.Verified?
    ensures Inv(FeedIdentify(c, input), env)
    ensures var d := FeedIdentify(c, input);
            d.net == c.net && d.ping == c.ping && d.app == c.app.(peerInfo := d.app.peerInfo, ready := d.app.ready)
  {
    hide DrainIdentify, Identify.Handle, Readiness, Sound;
    IdentifyReports(c.identify, input);
    IdentifyFrame(c.(identify := Identify.Handle(c.identify, input).0));
  }

  // ------------------------------------------------------------- updates of the tables

  /** Naming a connection keeps everything, when all other peers' connections are coherent. */
  lemma Binds(net: Net, env: Env, conn: ConnId, peer: PeerId)
    requires Sound(net, env) && Live(env, conn)
    requires peer.Verified? || (peer == Placeholder(conn) && conn !in net.connToPeer)
    requires forall p :: p in net.peerToConn && p != peer ==> net.peerToConn[p] != conn && PointsBack(net, p)
    ensures Sound(Bind(net, conn, peer), env) && Coherent(Bind(net, conn, peer))
  {
    hide Alive, Disciplined, Named, Handshaking, Coherent;
    BindCoherent(net, conn, peer);
    BindNamed(net, env, conn, peer);
    BindAlive(net, env, conn, peer);
    HandshakingKept(net, Bind(net, conn, peer));
  }

  lemma BindCoherent(net: Net, conn: ConnId, peer: PeerId)
    requires forall p :: p in net.peerToConn && p != peer ==> net.peerToConn[p] != conn && PointsBack(net, p)
    ensures Coherent(Bind(net, conn, peer))
  {
    var to := Bind(net, conn, peer);
    forall p | p in to.peerToConn
      ensures PointsBack(to, p)
    {
      assert p != peer ==> PointsBack(net, p);
    }
  }

  lemma BindNamed(net: Net, env: Env, conn: ConnId, peer: PeerId)
    requires Named(net) && Disciplined(net, env)
    requires peer.Verified? || (peer == Placeholder(conn) && conn !in net.connToPeer)
    ensures Named(Bind(net, conn, peer))
  {
    assert forall id :: Known(net, id) ==> Known(Bind(net, conn, peer), id);
  }

  lemma BindAlive(net: Net, env: Env, conn: ConnId, peer: PeerId)
    requires Alive(net, env) && Disciplined(net, env) && Live(env, conn)
    ensures Alive(Bind(net, conn, peer), env) && Disciplined(Bind(net, conn, peer), env)
  {
  }

  lemma HandshakingKept(net: Net, to: Net)
    requires Handshaking(net) && to.inbound == net.inbound && to.outbound == net.outbound
    ensures Handshaking(to)
  {
  }

  /** A connection's tables once it is gone. */
  function Detached(net: Net, conn: ConnId): Net {
    Purge(net.(connToPeer := net.connToPeer - {conn}), conn)
  }

  lemma DetachAlive(net: Net, env: Env, conn: ConnId)
    requires Alive(net, env)
    ensures Alive(Detached(net, conn), env) && Alive(Detached(net, conn), env.(closed := env.closed + {conn}))
  {
  }

  lemma DetachDisciplined(net: Net, env: Env, conn: ConnId)
    requires Disciplined(net, env)
    ensures Disciplined(Detached(net, conn), env)
  {
  }

  lemma DetachNamed(net: Net, conn: ConnId)
    requires Named(net)
    ensures Named(Detached(net, conn))
  {
    hide Elsewhere, OpensElsewhere;
    var to := Detached(net, conn);
    assert forall id :: id != conn && Known(net, id) ==> Known(to, id);
    ElsewhereFacts(net.outbound, conn);
    ElsewhereFacts(net.owner, conn);
    OpensElsewhereFacts(net.opens, conn);
  }

  lemma ElsewhereFacts<V>(streams: map<Key, V>, conn: ConnId)
    ensures forall k :: k in Elsewhere(streams, conn) ==>
              k in streams && k.0 != conn && Elsewhere(streams, conn)[k] == streams[k]
  {
  }

  lemma OpensElsewhereFacts(opens: map<u64, PendingOpen>, conn: ConnId)
    ensures forall t :: t in OpensElsewhere(opens, conn) ==>
              t in opens && opens[t].conn != conn && OpensElsewhere(opens, conn)[t] == opens[t]
  {
  }

  lemma DetachHandshaking(net: Net, conn: ConnId)
    requires Handshaking(net)
    ensures Handshaking(Detached(net, conn))
  {
    hide Undecided;
  }

  lemma Detaches(net: Net, env: Env, conn: ConnId)
    requires Sound(net, env)
    ensures Sound(Detached(net, conn), env) && Sound(Detached(net, conn), env.(closed := env.closed + {conn}))
  {
    hide Alive, Named, Handshaking, Detached;
    DetachAlive(net, env, conn);
    DetachDisciplined(net, env, conn);
    DetachNamed(net, conn);
    DetachHandshaking(net, conn);
  }

  lemma AddsOpen(net: Net, env: Env, peer: PeerId, protocol: Blob, target: Kind)
    requires Sound(net, env) && Coherent(net) && peer in net.peerToConn && net.nextToken + 1 < TWO_64
    requires target.IdentifyInitiator? ==> peer.Verified?
    ensures var to := AddOpen(net, PendingOpen(net.peerToConn[peer], protocol, target));
            && Sound(to, env) && Coherent(to) && net.nextToken !in net.opens
            && to.peerToConn == net.peerToConn && to.nextToken == net.nextToken + 1
  {
    hide Handshaking, Alive, Named;
    var open := PendingOpen(net.peerToConn[peer], protocol, target);
    var to := AddOpen(net, open);
    assert PointsBack(net, peer);
    HandshakingKept(net, to);
    AddOpenNamed(net, open);
    AddOpenAlive(net, env, open);
    assert forall p :: p in to.peerToConn ==> PointsBack(net, p) && PointsBack(to, p);
  }

  lemma AddOpenNamed(net: Net, open: PendingOpen)
    requires Named(net) && (open.target.IdentifyInitiator? ==> Known(net, open.conn))
    ensures Named(AddOpen(net, open))
  {
    assert forall id :: Known(net, id) ==> Known(AddOpen(net, open), id);
  }

  lemma AddOpenAlive(net: Net, env: Env, open: PendingOpen)
    requires Alive(net, env)
    ensures Alive(AddOpen(net, open), env)
  {
  }

  lemma QueueOpenKeeps(c: Core, env: Env, peer: PeerId, protocol: Blob, target: Kind)
    requires Inv(c, env) && c.net.nextToken + 1 < TWO_64
    requires target.IdentifyInitiator? ==> peer.Verified?
    ensures var (d, e) := QueueOpen(c, peer, protocol, target);
            && Inv(d, env) && (e.None? <==> peer in c.net.peerToConn)
            && d.net.peerToConn == c.net.peerToConn && d.net.nextToken <= c.net.nextToken + 1
            && OpenAsserts(c.net, peer)
  {
    hide Sound;
    if peer in c.net.peerToConn {
      assert PointsBack(c.net, peer);
      AddsOpen(c.net, env, peer, protocol, target);
    }
  }

  // --------------------------------------------------------------- connection lifecycle

  lemma IdlePing(c: Core)
    requires Ping.Idle(c.ping)
    ensures DrainPing(c) == c
  {
  }

  lemma IdleIdentify(c: Core)
    requires Identify.Idle(c.identify)
    ensures DrainIdentify(c) == c
  {
  }

  lemma ForgetForm(c: Core, peer: PeerId)
    requires Ping.Idle(c.ping) && Identify.Idle(c.identify)
    ensures ForgetPeer(c, peer) == c.(ping := Ping.Remove(c.ping, peer), identify := Identify.Remove(c.identify, peer))
  {
    hide DrainPing, DrainIdentify;
    var c1 := c.(ping := Ping.Remove(c.ping, peer));
    IdlePing(c1);
    IdleIdentify(c1.(identify := Identify.Remove(c1.identify, peer)));
  }

  lemma SupersedeForm(c: Core, env: Env, peer: PeerId)
    requires Inv(c, env) && peer in c.net.peerToConn
    ensures var conn := c.net.peerToConn[peer];
            Supersede(c, conn) ==
              c.(net := Detached(c.net, conn), ping := Ping.Remove(c.ping, peer),
                 identify := Identify.Remove(c.identify, peer),
                 app := c.app.(peerInfo := c.app.peerInfo - {peer}, ready := c.app.ready - {peer},
                               established := c.app.established - {peer}),
                 actions := c.actions + [CloseConnection(conn)])
  {
    hide ForgetPeer, Sound;
    var conn := c.net.peerToConn[peer];
    assert PointsBack(c.net, peer);
    ForgetForm(c.(net := c.net.(connToPeer := c.net.connToPeer - {conn})), peer);
  }

  /** A new connection of a verified peer, before it is announced. */
  function Admitted(c: Core, conn: ConnId, peer: PeerId): Core {
    var c1 := if peer in c.net.peerToConn then Supersede(c, c.net.peerToConn[peer]) else c;
    c1.(net := Bind(c1.net, conn, peer), app := c1.app.(established := c1.app.established + {peer}))
  }

  lemma Admits(c: Core, env: Env, conn: ConnId, peer: PeerId)
    requires Inv(c, env) && Live(env, conn) && conn !in c.net.connToPeer && peer.Verified?
    ensures Inv(Admitted(c, conn, peer), env) && Admitted(c, conn, peer).net.nextToken == c.net.nextToken
    ensures peer in Admitted(c, conn, peer).net.peerToConn
  {
    hide Supersede, Sound, Coherent, Readiness, Detached;
    AdmitReadiness(c, env, conn, peer);
    if peer in c.net.peerToConn {
      var was := c.net.peerToConn[peer];
      SupersedeForm(c, env, peer);
      Detaches(c.net, env, was);
      DetachPoints(c.net, was, peer);
      PointsElsewhere(c.net, conn);
      Binds(Detached(c.net, was), env, conn, peer);
    } else {
      PointsElsewhere(c.net, conn);
      Binds(c.net, env, conn, peer);
    }
  }

  lemma PointsElsewhere(net: Net, conn: ConnId)
    requires Coherent(net) && conn !in net.connToPeer
    ensures forall p :: p in net.peerToConn ==> net.peerToConn[p] != conn && PointsBack(net, p)
  {
  }

  /** Detaching a peer's connection leaves the other peers' connections coherent. */
  lemma DetachPoints(net: Net, conn: ConnId, peer: PeerId)
    requires Coherent(net) && peer in net.peerToConn && net.peerToConn[peer] == conn
    ensures Detached(net, conn).peerToConn == net.peerToConn && Detached(net, conn).nextToken == net.nextToken
    ensures forall p :: p in net.peerToConn && p != peer ==> PointsBack(Detached(net, conn), p)
  {
    assert PointsBack(net, peer);
    assert forall p :: p in net.peerToConn ==> PointsBack(net, p);
  }

  lemma AdmitReadiness(c: Core, env: Env, conn: ConnId, peer: PeerId)
    requires Inv(c, env) && peer.Verified?
    ensures Readiness(Admitted(c, conn, peer).net, Admitted(c, conn, peer).app)
  {
    hide Supersede, Sound;
    if peer in c.net.peerToConn {
      SupersedeForm(c, env, peer);
    }
  }

  lemma AnnounceKeeps(c: Core, env: Env, conn: ConnId, peer: PeerId)
    requires Inv(c, env) && peer.Verified? && peer in c.net.peerToConn && peer in c.app.established
    requires c.net.nextToken + 2 < TWO_64
    ensures Inv(Announce(c, conn, peer), env)
  {
    hide Sound, Coherent, Readiness, QueueOpen, HasPendingPing;
    assert c.app.established + {peer} == c.app.established;
    var c1 := Push(c.(app := c.app.(established := c.app.established + {peer})), ConnectionEstablished(peer));
    QueueOpenKeeps(c1, env, peer, IDENTIFY_ID, IdentifyInitiator);
    var c2 := QueueOpen(c1, peer, IDENTIFY_ID, IdentifyInitiator).0;
    QueueOpenKeeps(c2, env, peer, PING_ID, PingKind);
  }

  lemma RegisterIs(c: Core, conn: ConnId, peer: PeerId)
    requires conn !in c.net.connToPeer && (peer in c.net.peerToConn ==> c.net.peerToConn[peer] != conn)
    ensures Register(c, conn, peer) == Announce(Admitted(c, conn, peer), conn, peer)
  {
    hide Supersede, QueueOpen, HasPendingPing;
    var a := Admitted(c, conn, peer);
    assert a.app.established + {peer} == a.app.established;
  }

  lemma RegisterKeeps(c: Core, env: Env, conn: ConnId, peer: PeerId)
    requires Inv(c, env) && Live(env, conn) && conn !in c.net.connToPeer && peer.Verified?
    requires c.net.nextToken + 2 < TWO_64
    ensures Inv(Register(c, conn, peer), env)
  {
    hide Sound, Readiness, Supersede, Announce;
    assert peer in c.net.peerToConn ==> PointsBack(c.net, peer);
    RegisterIs(c, conn, peer);
    Admits(c, env, conn, peer);
    AdmittedEstablished(c, conn, peer);
    AnnounceKeeps(Admitted(c, conn, peer), env, conn, peer);
  }

  lemma AdmittedEstablished(c: Core, conn: ConnId, peer: PeerId)
    ensures peer in Admitted(c, conn, peer).app.established
  {
  }

  /** Everything known under the stale identity, moved. */
  lemma RekeyForm(c: Core, from: PeerId, to: PeerId)
    requires Ping.Idle(c.ping) && Identify.Idle(c.identify)
    ensures Rekey(c, from, to) ==
              c.(net := c.net.(peerToConn := c.net.peerToConn - {from}),
                 ping := Ping.Migrate(c.ping, from, to), identify := Identify.Migrate(c.identify, from, to),
                 app := c.app.(pendingPings := Moved(c.app.pendingPings, from, to),
                               peerInfo := Moved(c.app.peerInfo, from, to),
                               ready := MovedIn(c.app.ready, from, to),
                               established := MovedIn(c.app.established, from, to)),
                 events := RenameEvents(c.events, from, to))
    ensures Ping.Idle(Rekey(c, from, to).ping) && Identify.Idle(Rekey(c, from, to).identify)
  {
    hide DrainPing, DrainIdentify, RenameEvents;
    var c1 := c.(net := c.net.(peerToConn := c.net.peerToConn - {from}));
    var c2 := c1.(ping := Ping.Migrate(c1.ping, from, to), identify := Identify.Migrate(c1.identify, from, to));
    IdlePing(c2);
    IdleIdentify(c2);
  }

  /** A connection under its new identity, before the change is announced. */
  function Upgraded(c: Core, conn: ConnId, peer: PeerId): Core {
    var c1 := if conn in c.net.connToPeer then Rekey(c, c.net.connToPeer[conn], peer) else c;
    c1.(net := Bind(c1.net, conn, peer), app := c1.app.(established := c1.app.established + {peer}))
  }

  lemma UpgradeReadiness(c: Core, env: Env, conn: ConnId, peer: PeerId)
    requires Inv(c, env) && peer.Verified?
    requires conn in c.net.connToPeer ==> c.net.connToPeer[conn] != peer
    ensures Readiness(Upgraded(c, conn, peer).net, Upgraded(c, conn, peer).app)
  {
    hide Rekey, Sound;
    if conn in c.net.connToPeer {
      RekeyForm(c, c.net.connToPeer[conn], peer);
    }
  }

  /** Dropping a stale name leaves the other peers' connections coherent and away from `conn`. */
  lemma StalePoints(net: Net, conn: ConnId)
    requires Coherent(net) && conn in net.connToPeer
    ensures var to := net.(peerToConn := net.peerToConn - {net.connToPeer[conn]});
            forall p :: p in to.peerToConn ==> to.peerToConn[p] != conn && PointsBack(to, p)
  {
    assert forall p :: p in net.peerToConn ==> PointsBack(net, p);
  }

  lemma SoundUnnamed(net: Net, env: Env, peers: map<PeerId, ConnId>)
    requires Sound(net, env)
    ensures Sound(net.(peerToConn := peers), env)
  {
    assert forall id :: Known(net, id) ==> Known(net.(peerToConn := peers), id);
  }

  lemma Upgrades(c: Core, env: Env, conn: ConnId, peer: PeerId)
    requires Inv(c, env) && Live(env, conn) && peer.Verified?
    requires conn in c.net.connToPeer ==> c.net.connToPeer[conn] != peer
    ensures Inv(Upgraded(c, conn, peer), env) && Upgraded(c, conn, peer).net.nextToken == c.net.nextToken
    ensures peer in Upgraded(c, conn, peer).net.peerToConn
  {
    hide Rekey, Sound, Coherent, Readiness;
    UpgradeReadiness(c, env, conn, peer);
    if conn in c.net.connToPeer {
      var from := c.net.connToPeer[conn];
      RekeyForm(c, from, peer);
      StalePoints(c.net, conn);
      SoundUnnamed(c.net, env, c.net.peerToConn - {from});
      Binds(c.net.(peerToConn := c.net.peerToConn - {from}), env, conn, peer);
    } else {
      PointsElsewhere(c.net, conn);
      Binds(c.net, env, conn, peer);
    }
  }

  lemma TryReadyNet(c: Core, peer: PeerId)
    ensures TryReady(c, peer).net == c.net
  {
  }

  lemma TryReadyKeeps(c: Core, env: Env, peer: PeerId)
    requires Inv(c, env) && peer.Verified?
    ensures Inv(TryReady(c, peer), env) && TryReady(c, peer).net == c.net
  {
    hide Sound, Coherent;
  }

  lemma UpgradeKeeps(c: Core, env: Env, conn: ConnId, peer: PeerId)
    requires Inv(c, env) && Live(env, conn) && peer.Verified? && c.net.nextToken + 2 < TWO_64
    ensures Inv(Upgrade(c, conn, peer), env)
  {
    hide Rekey, Sound, Coherent, Readiness, QueueOpen, TryReady;
    if conn !in c.net.connToPeer || c.net.connToPeer[conn] != peer {
      Upgrades(c, env, conn, peer);
      var c2 := Push(Upgraded(c, conn, peer), ConnectionEstablished(peer));
      TryReadyKeeps(c2, env, peer);
      QueueOpenKeeps(TryReady(c2, peer), env, peer, IDENTIFY_ID, IdentifyInitiator);
    }
  }

  /** The tables once the transport has closed a connection. */
  function ClosedNet(net: Net, conn: ConnId): Net {
    if conn !in net.connToPeer then Purge(net, conn)
    else
      var peer := net.connToPeer[conn];
      Detached(if ConnFor(net, peer) == Some(conn) then net.(peerToConn := net.peerToConn - {peer}) else net, conn)
  }

  lemma ConnClosedForm(c: Core, conn: ConnId)
    requires Ping.Idle(c.ping) && Identify.Idle(c.identify)
    ensures var d := ConnClosed(c, conn);
            && d.net == ClosedNet(c.net, conn) && Ping.Idle(d.ping) && Identify.Idle(d.identify)
            && d.app == (if conn in c.net.connToPeer && ConnFor(c.net, c.net.connToPeer[conn]) == Some(conn)
                         then var peer := c.net.connToPeer[conn];
                              c.app.(pendingPings := c.app.pendingPings - {peer}, peerInfo := c.app.peerInfo - {peer},
                                     ready := c.app.ready - {peer}, established := c.app.established - {peer})
                         else c.app)
  {
    hide ForgetPeer;
    var net0 := c.net.(active := c.net.active - {conn}, remoteAddr := c.net.remoteAddr - {conn});
    assert Purge(net0, conn) == Purge(c.net, conn);
    if conn in c.net.connToPeer {
      var peer := c.net.connToPeer[conn];
      var net1 := net0.(connToPeer := c.net.connToPeer - {conn});
      var net2 := net1.(peerToConn := net1.peerToConn - {peer});
      ForgetForm(c.(net := net2), peer);
    }
  }

  lemma ClosedSound(net: Net, env: Env, conn: ConnId)
    requires Sound(net, env)
    ensures Sound(ClosedNet(net, conn), env.(closed := env.closed + {conn}))
  {
    hide Sound, Detached, Purge;
    if conn in net.connToPeer {
      SoundUnnamed(net, env, net.peerToConn - {net.connToPeer[conn]});
      Detaches(net, env, conn);
      Detaches(net.(peerToConn := net.peerToConn - {net.connToPeer[conn]}), env, conn);
    } else {
      assert net.connToPeer - {conn} == net.connToPeer;
      assert Detached(net, conn) == Purge(net, conn) by { DetachedIs(net, conn); }
      Detaches(net, env, conn);
    }
  }

  lemma DetachedIs(net: Net, conn: ConnId)
    requires conn !in net.connToPeer
    ensures Detached(net, conn) == Purge(net, conn)
  {
    assert net.connToPeer - {conn} == net.connToPeer;
  }

  lemma ClosedCoherent(net: Net, conn: ConnId)
    requires Coherent(net)
    ensures Coherent(ClosedNet(net, conn))
  {
    var to := ClosedNet(net, conn);
    forall p | p in to.peerToConn
      ensures PointsBack(to, p)
    {
      assert PointsBack(net, p);
    }
  }

  lemma ConnClosedKeeps(c: Core, env: Env, conn: ConnId)
    requires Inv(c, env)
    ensures Inv(ConnClosed(c, conn), env.(closed := env.closed + {conn}))
  {
    hide Sound, Coherent, ConnClosed;
    ConnClosedForm(c, conn);
    ClosedSound(c.net, env, conn);
    ClosedCoherent(c.net, conn);
  }
}

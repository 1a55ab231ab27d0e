/** Routing agreement between the swarm's tables and the embedded protocol machines, in runs where
    no connection takes on the identity of another (crates/swarm/src/core.rs:275-312, 630-738,
    765-843, 1293-1525); and that this is exactly what keeps it. Machines that hold no more streams
    than before and tables that lose none are treated once and for all. */
module SwarmAgreement {
  import opened Bytes
  import opened Ids
  import opened Swarm
  import opened SwarmRouting
  import opened SwarmInvariant
  import opened SwarmSteps
  import opened SwarmEffects
  import opened SwarmRuns
  import Framing
  import Multistream
  import Ping
  import Identify
  import IdentifyMessage

  /** The peer has no connection but this one. */
  predicate Unclaimed(net: Net, conn: ConnId, peer: PeerId) {
    peer in net.peerToConn ==> net.peerToConn[peer] == conn
  }

  /** A verified identity is not that of another connection. */
  predicate Steady(c: Core, op: Op) {
    op.IdentityVerified? && op.who.Some? ==> Unclaimed(c.net, op.id, op.who.value)
  }

  // ------------------------------------------------------------------------------ invariants

  ghost predicate Inverse(net: Net) {
    forall id :: id in net.connToPeer ==> LeadsBack(net, id)
  }

  predicate LeadsBack(net: Net, id: ConnId)
    requires id in net.connToPeer
  {
    net.connToPeer[id] in net.peerToConn && net.peerToConn[net.connToPeer[id]] == id
  }

  predicate PingOpening(net: Net, t: u64) {
    t in net.opens && net.opens[t].target.PingKind?
  }

  predicate PingNegotiating(net: Net, k: Key) {
    k in net.outbound && net.outbound[k].target.PingKind?
  }

  /** At most one ping stream is being opened or negotiated on a connection. */
  ghost predicate OnePing(net: Net) {
    && (forall t, u :: PingOpening(net, t) && PingOpening(net, u) && net.opens[t].conn == net.opens[u].conn ==> t == u)
    && (forall k, j :: PingNegotiating(net, k) && PingNegotiating(net, j) && k.0 == j.0 ==> k == j)
    && (forall t, k :: PingOpening(net, t) && PingNegotiating(net, k) ==> net.opens[t].conn != k.0)
  }

  /** The connection's peer has no outbound ping stream. */
  predicate Free(net: Net, ping: Ping.Machine, conn: ConnId) {
    conn in net.connToPeer && Ping.OutboundStream(ping, net.connToPeer[conn]).None?
  }

  ghost predicate PingsFree(net: Net, ping: Ping.Machine) {
    && (forall t :: PingOpening(net, t) ==> Free(net, ping, net.opens[t].conn))
    && (forall k :: PingNegotiating(net, k) ==> Free(net, ping, k.0))
  }

  predicate Holds(ping: Ping.Machine, peer: PeerId, stream: StreamId) {
    Ping.Known(Ping.Peer(ping, peer), stream)
  }

  predicate Answers(identify: Identify.Machine, peer: PeerId, stream: StreamId) {
    Identify.Peer(identify, peer).outbound == Some(stream)
  }

  predicate Collects(identify: Identify.Machine, peer: PeerId, stream: StreamId) {
    stream in Identify.Peer(identify, peer).inbound
  }

  /** The peer's connection owns the stream for the protocol. */
  predicate OwnedAs(net: Net, peer: PeerId, stream: StreamId, kind: Kind) {
    peer in net.peerToConn && (net.peerToConn[peer], stream) in net.owner
    && net.owner[(net.peerToConn[peer], stream)] == kind
  }

  ghost predicate PingOwned(net: Net, ping: Ping.Machine) {
    forall p, s :: Holds(ping, p, s) ==> OwnedAs(net, p, s, PingKind)
  }

  ghost predicate IdentifyOwned(net: Net, identify: Identify.Machine) {
    && (forall p, s :: Answers(identify, p, s) ==> OwnedAs(net, p, s, IdentifyResponder))
    && (forall p, s :: Collects(identify, p, s) ==> OwnedAs(net, p, s, IdentifyInitiator))
  }

  ghost predicate Routed(net: Net, ping: Ping.Machine, identify: Identify.Machine) {
    Inverse(net) && OnePing(net) && PingsFree(net, ping) && PingOwned(net, ping) && IdentifyOwned(net, identify)
  }

  ghost predicate Agree(c: Core) {
    Routed(c.net, c.ping, c.identify)
  }

  lemma AgreeNew(config: Identify.Config, timeoutMs: u64)
    ensures Agree(New(config, timeoutMs))
  {
  }

  // ------------------------------------------------- machines that hold no more than before

  ghost predicate PingRecedes(m: Ping.Machine, n: Ping.Machine) {
    && (forall p, s :: Holds(n, p, s) ==> Holds(m, p, s))
    && (forall p :: Ping.OutboundStream(n, p).Some? ==> Ping.OutboundStream(m, p).Some?)
  }

  ghost predicate IdentifyRecedes(m: Identify.Machine, n: Identify.Machine) {
    && (forall p, s :: Answers(n, p, s) ==> Answers(m, p, s))
    && (forall p, s :: Collects(n, p, s) ==> Collects(m, p, s))
  }

  lemma RoutedRecedes(net: Net, ping: Ping.Machine, identify: Identify.Machine, ping2: Ping.Machine,
                      identify2: Identify.Machine)
    requires Routed(net, ping, identify) && PingRecedes(ping, ping2) && IdentifyRecedes(identify, identify2)
    ensures Routed(net, ping2, identify2)
  {
    hide Inverse, OnePing, Holds, Answers, Collects, Ping.OutboundStream;
  }

  lemma {:induction false} TickRecedes(m: Ping.Machine, nowMs: u64, order: seq<PeerId>)
    ensures PingRecedes(m, Ping.TickAll(m, nowMs, order))
    decreases |order|
  {
    if order != [] {
      ExpireRecedes(m, order[0], nowMs);
      TickRecedes(Ping.Expire(m, order[0], nowMs), nowMs, order[1..]);
    }
  }

  lemma ExpireRecedes(m: Ping.Machine, peer: PeerId, nowMs: u64)
    ensures PingRecedes(m, Ping.Expire(m, peer, nowMs))
  {
  }

  predicate Registers(input: Ping.Input) {
    input.RegisterOutboundStream? || input.RegisterInboundStream? || input.MigratePeer?
  }

  lemma DataRecedes(m: Ping.Machine, peer: PeerId, stream: StreamId, data: Blob, nowMs: u64)
    ensures PingRecedes(m, Ping.Data(m, peer, stream, data, nowMs))
  {
  }

  /** Only registration and migration can give the ping machine a stream. */
  lemma PingInputRecedes(m: Ping.Machine, input: Ping.Input)
    requires !Registers(input)
    ensures PingRecedes(m, Ping.Handle(m, input).0) && PingRecedes(m, PingDrained(Ping.Handle(m, input).0))
  {
    hide Ping.TickAll, Ping.Data;
    match input {
      case Tick(nowMs, order) => TickRecedes(m, nowMs, order);
      case StreamData(peer, stream, data, nowMs) => DataRecedes(m, peer, stream, data, nowMs);
      case _ =>
    }
    DrainRecedes(m, Ping.Handle(m, input).0);
  }

  lemma DrainRecedes(m: Ping.Machine, n: Ping.Machine)
    requires PingRecedes(m, n)
    ensures PingRecedes(m, PingDrained(n))
  {
    assert forall p :: Ping.Peer(PingDrained(n), p) == Ping.Peer(n, p);
    assert forall p, s :: Holds(PingDrained(n), p, s) ==> Holds(n, p, s);
    assert forall p :: Ping.OutboundStream(PingDrained(n), p) == Ping.OutboundStream(n, p);
  }

  lemma IdentifyInputRecedes(m: Identify.Machine, input: Identify.Input)
    requires input.StreamData? || input.StreamRemoteWriteClosed? || input.StreamClosed? || input.RemovePeer?
    ensures IdentifyRecedes(m, IdentifyDrained(Identify.Handle(m, input).0))
  {
    hide Identify.DecodeFramed;
  }

  // ------------------------------------------------------------------ updates of the tables

  /** Peers and owners as before, and no ping opening or negotiation that was not there. */
  ghost predicate Calmer(net: Net, to: Net) {
    && to.connToPeer == net.connToPeer && to.peerToConn == net.peerToConn
    && (forall k :: k in net.owner ==> k in to.owner && to.owner[k] == net.owner[k])
    && (forall t :: PingOpening(to, t) ==> PingOpening(net, t) && to.opens[t] == net.opens[t])
    && (forall k :: PingNegotiating(to, k) ==> PingNegotiating(net, k))
  }

  lemma RoutedCalmer(net: Net, to: Net, ping: Ping.Machine, identify: Identify.Machine)
    requires Routed(net, ping, identify) && Calmer(net, to)
    ensures Routed(to, ping, identify)
  {
    hide Holds, Answers, Collects, Ping.OutboundStream;
    assert Inverse(to) by {
      assert forall id :: id in net.connToPeer ==> LeadsBack(net, id);
    }
    assert OnePing(to) && PingsFree(to, ping);
    assert forall p, s, kind :: OwnedAs(net, p, s, kind) ==> OwnedAs(to, p, s, kind);
  }

  /** Naming a connection that had no name. */
  lemma RoutedEnsure(net: Net, env: Env, conn: ConnId, ping: Ping.Machine, identify: Identify.Machine)
    requires Routed(net, ping, identify) && Sound(net, env) && Coherent(net)
    ensures Routed(Ensure(net, conn), ping, identify)
  {
    hide Holds, Answers, Collects, Handshaking, Alive;
    if conn !in net.connToPeer {
      var peer, to := Placeholder(conn), Ensure(net, conn);
      PointsElsewhere(net, conn);
      assert peer !in net.peerToConn by {
        assert peer in net.peerToConn ==> PointsBack(net, peer);
      }
      BindFresh(net, conn, peer, ping, identify);
      assert PingsFree(to, ping) by { FreeKept(net, env, conn, peer, ping); }
    }
  }

  /** The parts of agreement that binding an unnamed connection to a new peer keeps. */
  lemma BindFresh(net: Net, conn: ConnId, peer: PeerId, ping: Ping.Machine, identify: Identify.Machine)
    requires Inverse(net) && OnePing(net) && PingOwned(net, ping) && IdentifyOwned(net, identify)
    requires conn !in net.connToPeer && peer !in net.peerToConn
    ensures var to := Bind(net, conn, peer);
            Inverse(to) && OnePing(to) && PingOwned(to, ping) && IdentifyOwned(to, identify)
  {
    hide Holds, Answers, Collects;
    var to := Bind(net, conn, peer);
    assert Inverse(to) by {
      assert forall id :: id in net.connToPeer ==> LeadsBack(net, id);
    }
    assert OnePing(to) by { OnePingKept(net, to); }
    assert forall p, s, kind :: OwnedAs(net, p, s, kind) ==> OwnedAs(to, p, s, kind);
  }

  lemma OnePingKept(net: Net, to: Net)
    requires OnePing(net) && to.opens == net.opens && to.outbound == net.outbound
    ensures OnePing(to)
  {
    assert forall t :: PingOpening(to, t) ==> PingOpening(net, t);
    assert forall k :: PingNegotiating(to, k) ==> PingNegotiating(net, k);
  }

  lemma FreeKept(net: Net, env: Env, conn: ConnId, peer: PeerId, ping: Ping.Machine)
    requires Disciplined(net, env) && PingsFree(net, ping) && conn !in net.connToPeer
    ensures PingsFree(Bind(net, conn, peer), ping)
  {
    var to := Bind(net, conn, peer);
    assert forall t :: PingOpening(to, t) ==> PingOpening(net, t);
    assert forall k :: PingNegotiating(to, k) ==> PingNegotiating(net, k);
    assert forall id :: Free(net, ping, id) ==> Free(to, ping, id);
  }

  /** A new open that is no ping, or the only ping on a connection whose peer has no ping stream. */
  lemma RoutedAddOpen(net: Net, env: Env, open: PendingOpen, ping: Ping.Machine, identify: Identify.Machine)
    requires Routed(net, ping, identify) && Sound(net, env) && net.nextToken + 1 < TWO_64
    requires open.target.PingKind? ==> Free(net, ping, open.conn) && NoPing(net, open.conn)
    ensures Routed(AddOpen(net, open), ping, identify)
  {
    hide Holds, Answers, Collects, OnePing, PingsFree, Alive, Named, Handshaking, NoPing, Free;
    var to := AddOpen(net, open);
    AddOpenOnePing(net, env, open, ping);
    assert Inverse(to) by {
      assert forall id :: id in net.connToPeer ==> LeadsBack(net, id);
    }
    assert forall p, s, kind :: OwnedAs(net, p, s, kind) ==> OwnedAs(to, p, s, kind);
  }

  lemma AddOpenOnePing(net: Net, env: Env, open: PendingOpen, ping: Ping.Machine)
    requires OnePing(net) && PingsFree(net, ping) && Disciplined(net, env) && net.nextToken + 1 < TWO_64
    requires open.target.PingKind? ==> Free(net, ping, open.conn) && NoPing(net, open.conn)
    ensures OnePing(AddOpen(net, open)) && PingsFree(AddOpen(net, open), ping)
  {
    hide Ping.OutboundStream;
    var to, token := AddOpen(net, open), net.nextToken;
    assert forall t :: PingOpening(to, t) && t != token ==> PingOpening(net, t) && to.opens[t] == net.opens[t];
    assert forall k :: PingNegotiating(to, k) ==> PingNegotiating(net, k);
    assert forall id :: Free(net, ping, id) ==> Free(to, ping, id);
  }

  /** No ping stream is being opened or negotiated on the connection. */
  ghost predicate NoPing(net: Net, conn: ConnId) {
    && (forall t :: PingOpening(net, t) ==> net.opens[t].conn != conn)
    && (forall k :: PingNegotiating(net, k) ==> k.0 != conn)
  }

  lemma NotPending(net: Net, peer: PeerId)
    requires peer in net.peerToConn && !HasPendingPing(net, peer)
    ensures NoPing(net, net.peerToConn[peer])
  {
  }

  lemma QueueOpenAgrees(c: Core, env: Env, peer: PeerId, protocol: Blob, target: Kind)
    requires Inv(c, env) && Agree(c) && c.net.nextToken + 1 < TWO_64
    requires target.PingKind? ==> Ping.OutboundStream(c.ping, peer).None? && !HasPendingPing(c.net, peer)
    ensures Agree(QueueOpen(c, peer, protocol, target).0)
  {
    hide Routed, HasPendingPing, Sound;
    if peer in c.net.peerToConn {
      assert PointsBack(c.net, peer);
      if target.PingKind? {
        NotPending(c.net, peer);
      }
      RoutedAddOpen(c.net, env, PendingOpen(c.net.peerToConn[peer], protocol, target), c.ping, c.identify);
    }
  }

  // ---------------------------------------------------------------------- connection lifecycle

  /** Detaching a connection whose peer both machines have forgotten. */
  lemma RoutedDetach(net: Net, conn: ConnId, ping: Ping.Machine, identify: Identify.Machine)
    requires Routed(net, ping, identify) && Coherent(net) && conn in net.connToPeer
    ensures var peer := net.connToPeer[conn];
            var to := Detached(net, conn).(peerToConn := net.peerToConn - {peer});
            Routed(to, Ping.Remove(ping, peer), Identify.Remove(identify, peer))
  {
    var peer := net.connToPeer[conn];
    var to := Detached(net, conn).(peerToConn := net.peerToConn - {peer});
    assert LeadsBack(net, conn);
    DetachInverse(net, conn);
    DetachOnePing(net, conn, ping);
    DetachOwned(net, conn, ping, identify);
  }

  lemma DetachInverse(net: Net, conn: ConnId)
    requires Inverse(net) && conn in net.connToPeer
    ensures Inverse(Detached(net, conn).(peerToConn := net.peerToConn - {net.connToPeer[conn]}))
  {
    assert forall id :: id in net.connToPeer ==> LeadsBack(net, id);
  }

  lemma DetachOnePing(net: Net, conn: ConnId, ping: Ping.Machine)
    requires Inverse(net) && OnePing(net) && PingsFree(net, ping) && conn in net.connToPeer
    ensures var peer := net.connToPeer[conn];
            var to := Detached(net, conn).(peerToConn := net.peerToConn - {peer});
            OnePing(to) && PingsFree(to, Ping.Remove(ping, peer))
  {
    var peer := net.connToPeer[conn];
    var to := Detached(net, conn).(peerToConn := net.peerToConn - {peer});
    assert forall t :: PingOpening(to, t) ==>
             PingOpening(net, t) && to.opens[t] == net.opens[t] && net.opens[t].conn != conn;
    assert forall k :: PingNegotiating(to, k) ==> PingNegotiating(net, k) && k.0 != conn;
    assert forall id :: id != conn && Free(net, ping, id) ==> Free(to, Ping.Remove(ping, peer), id);
  }

  lemma DetachOwned(net: Net, conn: ConnId, ping: Ping.Machine, identify: Identify.Machine)
    requires Coherent(net) && conn in net.connToPeer && PingOwned(net, ping) && IdentifyOwned(net, identify)
    ensures var peer := net.connToPeer[conn];
            var to := Detached(net, conn).(peerToConn := net.peerToConn - {peer});
            PingOwned(to, Ping.Remove(ping, peer)) && IdentifyOwned(to, Identify.Remove(identify, peer))
  {
    var peer := net.connToPeer[conn];
    var to := Detached(net, conn).(peerToConn := net.peerToConn - {peer});
    assert forall p :: p in net.peerToConn ==> PointsBack(net, p);
    assert forall p, s, kind :: p != peer && OwnedAs(net, p, s, kind) ==> OwnedAs(to, p, s, kind);
    assert forall p, s :: Holds(Ping.Remove(ping, peer), p, s) ==> p != peer && Holds(ping, p, s);
    assert forall p, s :: Answers(Identify.Remove(identify, peer), p, s) ==> p != peer && Answers(identify, p, s);
    assert forall p, s :: Collects(Identify.Remove(identify, peer), p, s) ==> p != peer && Collects(identify, p, s);
  }

  /** A new connection of a peer: its old connection, if any, is forgotten everywhere. */
  lemma AdmittedAgrees(c: Core, env: Env, conn: ConnId, peer: PeerId)
    requires Inv(c, env) && Agree(c) && Live(env, conn) && conn !in c.net.connToPeer && peer.Verified?
    ensures Agree(Admitted(c, conn, peer))
  {
    hide Supersede, Readiness, Routed, Detached;
    if peer in c.net.peerToConn {
      var was := c.net.peerToConn[peer];
      assert PointsBack(c.net, peer);
      SupersedeForm(c, env, peer);
      RoutedDetach(c.net, was, c.ping, c.identify);
      DetachedFacts(c.net, was);
      var net := Detached(c.net, was).(peerToConn := c.net.peerToConn - {peer});
      var to := Bind(Detached(c.net, was), conn, peer);
      assert to == Bind(net, conn, peer) by {
        assert (c.net.peerToConn - {peer})[peer := conn] == c.net.peerToConn[peer := conn];
      }
      Detaches(c.net, env, was);
      SoundUnnamed(Detached(c.net, was), env, c.net.peerToConn - {peer});
      RoutedBind(net, env, conn, peer, Ping.Remove(c.ping, peer), Identify.Remove(c.identify, peer));
    } else {
      RoutedBind(c.net, env, conn, peer, c.ping, c.identify);
    }
  }

  lemma DetachedFacts(net: Net, conn: ConnId)
    ensures Detached(net, conn).connToPeer == net.connToPeer - {conn}
    ensures Detached(net, conn).peerToConn == net.peerToConn
  {
  }

  lemma RoutedBind(net: Net, env: Env, conn: ConnId, peer: PeerId, ping: Ping.Machine, identify: Identify.Machine)
    requires Routed(net, ping, identify) && Sound(net, env) && conn !in net.connToPeer && peer !in net.peerToConn
    ensures Routed(Bind(net, conn, peer), ping, identify)
  {
    hide Inverse, OnePing, PingsFree, PingOwned, IdentifyOwned, Bind, Alive, Named, Handshaking, Disciplined;
    BindFresh(net, conn, peer, ping, identify);
    FreeKept(net, env, conn, peer, ping);
  }

  lemma AnnounceAgrees(c: Core, env: Env, conn: ConnId, peer: PeerId)
    requires Inv(c, env) && Agree(c) && peer.Verified? && peer in c.net.peerToConn && peer in c.app.established
    requires c.net.nextToken + 2 < TWO_64
    ensures Agree(Announce(c, conn, peer))
  {
    hide Sound, Coherent, Readiness, QueueOpen, HasPendingPing, Routed, Ping.OutboundStream;
    assert c.app.established + {peer} == c.app.established;
    var c1 := Push(c.(app := c.app.(established := c.app.established + {peer})), ConnectionEstablished(peer));
    QueueOpenKeeps(c1, env, peer, IDENTIFY_ID, IdentifyInitiator);
    QueueOpenAgrees(c1, env, peer, IDENTIFY_ID, IdentifyInitiator);
    var c2 := QueueOpen(c1, peer, IDENTIFY_ID, IdentifyInitiator).0;
    if Ping.OutboundStream(c2.ping, peer).None? && !HasPendingPing(c2.net, peer) {
      QueueOpenAgrees(c2, env, peer, PING_ID, PingKind);
    }
  }

  lemma RegisterAgrees(c: Core, env: Env, conn: ConnId, peer: PeerId)
    requires Inv(c, env) && Agree(c) && Live(env, conn) && conn !in c.net.connToPeer && peer.Verified?
    requires c.net.nextToken + 2 < TWO_64
    ensures Agree(Register(c, conn, peer))
  {
    hide Sound, Readiness, Announce, Agree, Admitted;
    assert peer in c.net.peerToConn ==> PointsBack(c.net, peer);
    RegisterIs(c, conn, peer);
    Admits(c, env, conn, peer);
    AdmittedEstablished(c, conn, peer);
    AdmittedAgrees(c, env, conn, peer);
    AnnounceAgrees(Admitted(c, conn, peer), env, conn, peer);
  }

  lemma ConnClosedMachines(c: Core, conn: ConnId)
    requires Ping.Idle(c.ping) && Identify.Idle(c.identify)
    ensures var d := ConnClosed(c, conn);
            if conn in c.net.connToPeer && ConnFor(c.net, c.net.connToPeer[conn]) == Some(conn)
            then
              && d.ping == Ping.Remove(c.ping, c.net.connToPeer[conn])
              && d.identify == Identify.Remove(c.identify, c.net.connToPeer[conn])
            else d.ping == c.ping && d.identify == c.identify
  {
    hide ForgetPeer, Purge;
    if conn in c.net.connToPeer {
      var peer := c.net.connToPeer[conn];
      var net1 := c.net.(active := c.net.active - {conn}, remoteAddr := c.net.remoteAddr - {conn},
                         connToPeer := c.net.connToPeer - {conn});
      ForgetForm(c.(net := net1.(peerToConn := net1.peerToConn - {peer})), peer);
    }
  }

  lemma ConnClosedAgrees(c: Core, env: Env, conn: ConnId)
    requires Inv(c, env) && Agree(c)
    ensures Agree(ConnClosed(c, conn))
  {
    hide ConnClosed, Readiness, Sound, Routed, Purge;
    ConnClosedForm(c, conn);
    ConnClosedMachines(c, conn);
    if conn in c.net.connToPeer {
      LeadsBackFrom(c.net, c.ping, c.identify, conn);
      RoutedDetach(c.net, conn, c.ping, c.identify);
      assert Detached(c.net.(peerToConn := c.net.peerToConn - {c.net.connToPeer[conn]}), conn)
          == Detached(c.net, conn).(peerToConn := c.net.peerToConn - {c.net.connToPeer[conn]}) by {
        DetachCommutes(c.net, conn, c.net.peerToConn - {c.net.connToPeer[conn]});
      }
    } else {
      PurgeCalmer(c.net, env, conn);
      RoutedCalmer(c.net, Purge(c.net, conn), c.ping, c.identify);
    }
  }

  lemma LeadsBackFrom(net: Net, ping: Ping.Machine, identify: Identify.Machine, conn: ConnId)
    requires Routed(net, ping, identify) && conn in net.connToPeer
    ensures LeadsBack(net, conn)
  {
  }

  lemma DetachCommutes(net: Net, conn: ConnId, peers: map<PeerId, ConnId>)
    ensures Detached(net.(peerToConn := peers), conn) == Detached(net, conn).(peerToConn := peers)
  {
  }

  lemma PurgeCalmer(net: Net, env: Env, conn: ConnId)
    requires Sound(net, env) && conn !in net.connToPeer
    ensures Calmer(net, Purge(net, conn))
  {
    hide Alive, Named, Handshaking;
  }

  // ----------------------------------------------------------------------------- stream events

  /** An open the driver has fulfilled goes on as a negotiation for the same target. */
  lemma RoutedMove(net: Net, token: u64, key: Key, p: PendingOutbound, ping: Ping.Machine, identify: Identify.Machine)
    requires Routed(net, ping, identify) && token in net.opens && key !in net.outbound
    requires p.target == net.opens[token].target && key.0 == net.opens[token].conn
    ensures Routed(net.(opens := net.opens - {token}, outbound := net.outbound[key := p]), ping, identify)
  {
    hide Holds, Answers, Collects, Ping.OutboundStream;
    var to := net.(opens := net.opens - {token}, outbound := net.outbound[key := p]);
    assert Inverse(to) by {
      assert forall id :: id in net.connToPeer ==> LeadsBack(net, id);
    }
    assert forall t :: PingOpening(to, t) ==> PingOpening(net, t) && t != token && to.opens[t] == net.opens[t];
    assert forall k :: PingNegotiating(to, k) ==> PingNegotiating(net, k) || (k == key && PingOpening(net, token));
    assert forall id :: Free(net, ping, id) ==> Free(to, ping, id);
    assert forall q, s, kind :: OwnedAs(net, q, s, kind) ==> OwnedAs(to, q, s, kind);
  }

  lemma OpeningAgrees(c: Core, env: Env, conn: ConnId, stream: StreamId, token: u64)
    requires Inv(c, env) && Agree(c)
    ensures Agree(IncomingStream(c, conn, stream)) && Agree(OpenFailed(c, token))
    ensures (conn, stream) !in env.used ==> Agree(StreamOpened(c, conn, stream, token))
  {
    hide Opened, Multistream.EncodeMessage, Routed, Alive, Named, Handshaking, Readiness, Coherent;
    RoutedCalmer(c.net, IncomingStream(c, conn, stream).net, c.ping, c.identify);
    RoutedCalmer(c.net, OpenFailed(c, token).net, c.ping, c.identify);
    if (conn, stream) !in env.used {
      if token in c.net.opens && c.net.opens[token].conn == conn {
        var open := c.net.opens[token];
        var p := PendingOutbound(Opened(Multistream.Dialer(open.protocol)), open.target);
        RoutedMove(c.net, token, (conn, stream), p, c.ping, c.identify);
      } else {
        RoutedCalmer(c.net, StreamOpened(c, conn, stream, token).net, c.ping, c.identify);
      }
    }
  }

  lemma Unmoved(ping: Ping.Machine, identify: Identify.Machine)
    ensures PingRecedes(ping, ping) && IdentifyRecedes(identify, identify)
  {
  }

  lemma DispatchAgrees(c: Core, env: Env, conn: ConnId, stream: StreamId, data: Blob, nowMs: u64)
    requires Inv(c, env) && Agree(c)
    ensures Agree(Dispatch(c, conn, stream, data, nowMs))
  {
    hide Inv, Dispatch, Routed, PingRecedes, IdentifyRecedes, Ping.Handle, Identify.Handle, Tells;
    if (conn, stream) in c.net.owner {
      var d := Dispatch(c, conn, stream, data, nowMs);
      DispatchEffect(c, env, conn, stream, data, nowMs);
      var peer := c.net.connToPeer[conn];
      Unmoved(c.ping, c.identify);
      PingInputRecedes(c.ping, Ping.StreamData(peer, stream, data, nowMs));
      IdentifyInputRecedes(c.identify, Identify.StreamData(peer, stream, data));
      RoutedRecedes(c.net, c.ping, c.identify, d.ping, d.identify);
    } else {
      UnownedData(c, conn, stream, data, nowMs);
    }
  }

  lemma UnownedData(c: Core, conn: ConnId, stream: StreamId, data: Blob, nowMs: u64)
    requires (conn, stream) !in c.net.owner
    ensures Dispatch(c, conn, stream, data, nowMs) == c
  {
  }

  lemma WriteClosedAgrees(c: Core, env: Env, conn: ConnId, stream: StreamId)
    requires Inv(c, env) && Agree(c)
    ensures Agree(RemoteWriteClosed(c, conn, stream))
  {
    hide Inv, RemoteWriteClosed, Routed, PingRecedes, IdentifyRecedes, Ping.Handle, Identify.Handle, Tells;
    if (conn, stream) in c.net.owner {
      var d := RemoteWriteClosed(c, conn, stream);
      RemoteWriteClosedEffect(c, env, conn, stream);
      var peer := c.net.connToPeer[conn];
      Unmoved(c.ping, c.identify);
      PingInputRecedes(c.ping, Ping.StreamRemoteWriteClosed(peer, stream));
      IdentifyInputRecedes(c.identify, Identify.StreamRemoteWriteClosed(peer, stream));
      RoutedRecedes(c.net, c.ping, c.identify, d.ping, d.identify);
    } else {
      UnownedWriteCloses(c, conn, stream);
    }
  }

  /** No machine holds the stream of a key for the key's peer. */
  ghost predicate Unheld(net: Net, key: Key, ping: Ping.Machine, identify: Identify.Machine) {
    forall p :: p in net.peerToConn && net.peerToConn[p] == key.0 ==>
      !Holds(ping, p, key.1) && !Answers(identify, p, key.1) && !Collects(identify, p, key.1)
  }

  lemma RoutedWithout(net: Net, key: Key, ping: Ping.Machine, identify: Identify.Machine)
    requires Routed(net, ping, identify) && Unheld(net, key, ping, identify)
    ensures Routed(Without(net, key), ping, identify)
  {
    hide Holds, Answers, Collects, Ping.OutboundStream;
    var to := Without(net, key);
    assert Inverse(to) by {
      assert forall id :: id in net.connToPeer ==> LeadsBack(net, id);
    }
    assert forall t :: PingOpening(to, t) ==> PingOpening(net, t) && to.opens[t] == net.opens[t];
    assert forall k :: PingNegotiating(to, k) ==> PingNegotiating(net, k);
    assert forall id :: Free(net, ping, id) ==> Free(to, ping, id);
    assert forall p, s: StreamId, kind ::
             OwnedAs(net, p, s, kind) && (net.peerToConn[p], s) != key ==> OwnedAs(to, p, s, kind);
  }

  lemma StreamClosedAgrees(c: Core, env: Env, conn: ConnId, stream: StreamId)
    requires Inv(c, env) && Agree(c)
    ensures Agree(StreamClosed(c, conn, stream))
  {
    hide Inv, StreamClosed, Routed, PingRecedes, IdentifyRecedes, Ping.Handle, Identify.Handle, Tells, Without, Unheld;
    var d, key := StreamClosed(c, conn, stream), (conn, stream);
    StreamClosedEffect(c, env, conn, stream);
    Unmoved(c.ping, c.identify);
    if key in c.net.owner {
      var peer := c.net.connToPeer[conn];
      PingInputRecedes(c.ping, Ping.StreamClosed(peer, stream));
      IdentifyInputRecedes(c.identify, Identify.StreamClosed(peer, stream));
    }
    RoutedRecedes(c.net, c.ping, c.identify, d.ping, d.identify);
    ClosedUnheld(c, env, conn, stream);
    RoutedWithout(c.net, key, d.ping, d.identify);
  }

  lemma ClosedUnheld(c: Core, env: Env, conn: ConnId, stream: StreamId)
    requires Inv(c, env) && Agree(c)
    ensures var d := StreamClosed(c, conn, stream);
            Unheld(c.net, (conn, stream), d.ping, d.identify)
  {
    hide StreamClosed, Tells, Sound, Readiness, Ping.Handle, Identify.Handle, Inverse, OnePing, PingsFree;
    var d, key := StreamClosed(c, conn, stream), (conn, stream);
    StreamClosedEffect(c, env, conn, stream);
    forall p | p in c.net.peerToConn && c.net.peerToConn[p] == conn
      ensures !Holds(d.ping, p, stream) && !Answers(d.identify, p, stream) && !Collects(d.identify, p, stream)
    {
      assert PointsBack(c.net, p);
      assert Holds(c.ping, p, stream) ==> OwnedAs(c.net, p, stream, PingKind);
      assert Answers(c.identify, p, stream) ==> OwnedAs(c.net, p, stream, IdentifyResponder);
      assert Collects(c.identify, p, stream) ==> OwnedAs(c.net, p, stream, IdentifyInitiator);
      ClosedReleases(c.ping, c.identify, p, stream);
    }
  }

  lemma ClosedReleases(ping: Ping.Machine, identify: Identify.Machine, peer: PeerId, stream: StreamId)
    ensures !Holds(PingDrained(Ping.Handle(ping, Ping.StreamClosed(peer, stream)).0), peer, stream)
    ensures var m := IdentifyDrained(Identify.Handle(identify, Identify.StreamClosed(peer, stream)).0);
            !Answers(m, peer, stream) && !Collects(m, peer, stream)
  {
  }

  // ------------------------------------------------------------------------------- negotiation

  /** A machine that took on one more stream, which its peer's connection owns. */
  lemma PingTakes(net: Net, ping: Ping.Machine, identify: Identify.Machine, peer: PeerId, stream: StreamId)
    requires Routed(net, ping, identify) && OwnedAs(net, peer, stream, PingKind)
    ensures Routed(net, PingDrained(Ping.RegisterInbound(ping, peer, stream)), identify)
  {
    hide Inverse, OnePing, IdentifyOwned, OwnedAs;
    var m := PingDrained(Ping.RegisterInbound(ping, peer, stream));
    assert forall p :: Ping.OutboundStream(m, p) == Ping.OutboundStream(ping, p);
    assert forall id :: Free(net, ping, id) ==> Free(net, m, id);
    assert forall p, s :: Holds(m, p, s) ==> Holds(ping, p, s) || (p == peer && s == stream);
  }

  lemma IdentifyTakes(net: Net, ping: Ping.Machine, identify: Identify.Machine, peer: PeerId, stream: StreamId)
    requires Routed(net, ping, identify)
    ensures OwnedAs(net, peer, stream, IdentifyResponder) ==>
              Routed(net, ping, IdentifyDrained(Identify.Put(identify, peer,
                                                  Identify.Peer(identify, peer).(outbound := Some(stream)))))
    ensures OwnedAs(net, peer, stream, IdentifyInitiator) ==>
              Routed(net, ping, IdentifyDrained(Identify.RegisterInbound(identify, peer, stream)))
  {
    hide Inverse, OnePing, PingsFree, PingOwned, OwnedAs;
    var m := IdentifyDrained(Identify.Put(identify, peer, Identify.Peer(identify, peer).(outbound := Some(stream))));
    var n := IdentifyDrained(Identify.RegisterInbound(identify, peer, stream));
    assert forall p, s :: Answers(m, p, s) ==> Answers(identify, p, s) || (p == peer && s == stream);
    assert forall p, s :: Collects(m, p, s) ==> Collects(identify, p, s);
    assert forall p, s :: Answers(n, p, s) ==> Answers(identify, p, s);
    assert forall p, s :: Collects(n, p, s) ==> Collects(identify, p, s) || (p == peer && s == stream);
  }

  lemma OwnCalmer(net: Net, key: Key, kind: Option<Kind>)
    requires key !in net.owner
    ensures Calmer(net, OwnIf(net, key, kind))
  {
  }

  lemma InboundNegotiatedAgrees(c: Core, env: Env, conn: ConnId, stream: StreamId, protocol: Blob)
    requires Inv(c, env) && Agree(c) && Live(env, conn) && (conn, stream) !in c.net.owner
    ensures Agree(InboundNegotiated(c, conn, stream, protocol))
  {
    hide InboundNegotiated, Readiness, Sound, Routed, Ensure, Tells, Ping.RegisterInbound, Coherent;
    var key, peer := (conn, stream), PeerOf(c.net, conn);
    InvIdle(c, env);
    InboundNegotiatedEffect(c, conn, stream, protocol);
    EnsureKeeps(c, env, conn);
    RoutedEnsure(c.net, env, conn, c.ping, c.identify);
    var net1 := Ensure(c.net, conn);
    var kind := InboundKind(c, peer, protocol);
    EnsureStreams(c.net, conn);
    var net2 := OwnIf(net1, key, kind);
    OwnCalmer(net1, key, kind);
    RoutedCalmer(net1, net2, c.ping, c.identify);
    if kind.Some? {
      LeadsBackFrom(net2, c.ping, c.identify, conn);
      assert OwnedAs(net2, peer, stream, kind.value);
      if kind.value.PingKind? {
        PingTakes(net2, c.ping, c.identify, peer, stream);
      } else if kind.value.IdentifyResponder? {
        IdentifyTakes(net2, c.ping, c.identify, peer, stream);
      }
    }
  }

  lemma EnsureStreams(net: Net, conn: ConnId)
    ensures Ensure(net, conn).owner == net.owner && Ensure(net, conn).outbound == net.outbound
    ensures Ensure(net, conn).inbound == net.inbound
  {
  }

  lemma PingOpens(net: Net, ping: Ping.Machine, identify: Identify.Machine, conn: ConnId, stream: StreamId)
    requires Routed(net, ping, identify) && conn in net.connToPeer && NoPing(net, conn) && Free(net, ping, conn)
    requires OwnedAs(net, net.connToPeer[conn], stream, PingKind)
    ensures !PingRefuses(ping, net.connToPeer[conn], stream)
    ensures Routed(net, PingDrained(Ping.RegisterOutbound(ping, net.connToPeer[conn], stream).0), identify)
  {
    hide OnePing, IdentifyOwned, OwnedAs;
    var peer := net.connToPeer[conn];
    var m := PingDrained(Ping.RegisterOutbound(ping, peer, stream).0);
    assert forall id :: id in net.connToPeer ==> LeadsBack(net, id);
    assert forall p :: p != peer ==> Ping.OutboundStream(m, p) == Ping.OutboundStream(ping, p);
    assert forall id :: id != conn && Free(net, ping, id) ==> Free(net, m, id);
    assert forall p, s :: Holds(m, p, s) ==> Holds(ping, p, s) || (p == peer && s == stream);
  }

  lemma OutboundNegotiatedAgrees(c: Core, env: Env, conn: ConnId, stream: StreamId, target: Kind, nowMs: u64)
    requires Inv(c, env) && Agree(c) && conn in c.net.connToPeer && (conn, stream) !in c.net.owner
    requires target.PingKind? ==> Free(c.net, c.ping, conn) && NoPing(c.net, conn)
    ensures Agree(OutboundNegotiated(c, conn, stream, target, nowMs))
  {
    hide OutboundNegotiated, Inv, Routed, Tells, Ping.RegisterOutbound, Identify.RegisterInbound, Ping.SendOne,
         Ping.OutboundStream, PingRefuses, PingRecedes, IdentifyRecedes;
    var key, peer := (conn, stream), c.net.connToPeer[conn];
    InvIdle(c, env);
    OutboundNegotiatedEffect(c, conn, stream, target, nowMs);
    var net := Own(c.net, key, target);
    OwnCalmer(c.net, key, Some(target));
    RoutedCalmer(c.net, net, c.ping, c.identify);
    LeadsBackFrom(net, c.ping, c.identify, conn);
    assert OwnedAs(net, peer, stream, target);
    if target.PingKind? {
      NoPingKept(c.net, key, conn);
      PingOpens(net, c.ping, c.identify, conn, stream);
      var m := PingDrained(Ping.RegisterOutbound(c.ping, peer, stream).0);
      if peer in c.app.pendingPings {
        Unmoved(m, c.identify);
        PingInputRecedes(m, Ping.SendPing(peer, c.app.pendingPings[peer], nowMs));
        SendIs(m, peer, c.app.pendingPings[peer], nowMs);
        RoutedRecedes(net, m, c.identify, PingOpened(c, peer, stream, nowMs), c.identify);
      }
    } else if target.IdentifyInitiator? {
      IdentifyTakes(net, c.ping, c.identify, peer, stream);
    }
  }

  lemma SendIs(m: Ping.Machine, peer: PeerId, payload: Blob, nowMs: u64)
    ensures Ping.Handle(m, Ping.SendPing(peer, payload, nowMs)) == Ping.SendOne(m, peer, payload, nowMs)
  {
  }

  lemma NoPingKept(net: Net, key: Key, conn: ConnId)
    requires NoPing(net, conn)
    ensures NoPing(Own(net, key, PingKind), conn)
  {
    assert forall t :: PingOpening(Own(net, key, PingKind), t) ==> PingOpening(net, t);
    assert forall k :: PingNegotiating(Own(net, key, PingKind), k) ==> PingNegotiating(net, k);
  }

  lemma FeedInboundAgrees(c: Core, env: Env, conn: ConnId, stream: StreamId, data: Blob, nowMs: u64)
    requires Inv(c, env) && Negotiating(c.net) && Agree(c) && (conn, stream) in c.net.inbound
    ensures Agree(FeedInbound(c, conn, stream, data, nowMs))
  {
    hide FeedInbound, Dispatch, InboundNegotiated, Inv, Tells, Multistream.Receive, Negotiating, Routed;
    var key := (conn, stream);
    var gone := FeedInboundCases(c, env, conn, stream, data, nowMs);
    InboundAlone(c, env, key);
    UndecidedValid(c.net.inbound[key]);
    var n := FedIn(c, key, data);
    RoutedCalmer(c.net, c.net.(inbound := c.net.inbound[key := n.(pending := [])]), c.ping, c.identify);
    RoutedCalmer(c.net, gone.net, c.ping, c.identify);
    if Verdict(n).Some? && Verdict(n).value.Negotiated? {
      var protocol := Verdict(n).value.protocol;
      InboundNegotiatedAgrees(gone, env, conn, stream, protocol);
      InboundNegotiatedKeeps(gone, env, conn, stream, protocol);
      DispatchAgrees(InboundNegotiated(gone, conn, stream, protocol), env, conn, stream, n.recvBuf, nowMs);
    }
  }

  /** Without its one negotiating ping, a connection has none. */
  lemma LastPing(net: Net, key: Key, ping: Ping.Machine, identify: Identify.Machine)
    requires Routed(net, ping, identify) && key in net.outbound
    ensures var to := net.(outbound := net.outbound - {key});
            && Calmer(net, to)
            && (PingNegotiating(net, key) ==> Free(to, ping, key.0) && NoPing(to, key.0))
  {
    hide Inverse, PingOwned, IdentifyOwned;
    var to := net.(outbound := net.outbound - {key});
    assert forall t :: PingOpening(to, t) ==> PingOpening(net, t) && to.opens[t] == net.opens[t];
    assert forall k :: PingNegotiating(to, k) ==> PingNegotiating(net, k) && k != key;
    if PingNegotiating(net, key) {
      assert Free(net, ping, key.0);
    }
  }

  lemma FeedOutboundAgrees(c: Core, env: Env, conn: ConnId, stream: StreamId, data: Blob, nowMs: u64)
    requires Inv(c, env) && Negotiating(c.net) && Agree(c) && (conn, stream) in c.net.outbound
    ensures Agree(FeedOutbound(c, conn, stream, data, nowMs))
  {
    hide FeedOutbound, Dispatch, OutboundNegotiated, Inv, Tells, Multistream.Receive, Negotiating, Routed, Free, NoPing;
    var key := (conn, stream);
    var gone := FeedOutboundCases(c, env, conn, stream, data, nowMs);
    OutboundAlone(c, env, key);
    UndecidedValid(c.net.outbound[key].negotiator);
    var n, target := FedOut(c, key, data), c.net.outbound[key].target;
    RoutedCalmer(c.net, Fed(c, key, n), c.ping, c.identify);
    LastPing(c.net, key, c.ping, c.identify);
    RoutedCalmer(c.net, gone.net, c.ping, c.identify);
    if Verdict(n).Some? && Verdict(n).value.Negotiated? {
      OutboundNegotiatedAgrees(gone, env, conn, stream, target, nowMs);
      OutboundNegotiatedKeeps(gone, env, conn, stream, target, nowMs);
      DispatchAgrees(OutboundNegotiated(gone, conn, stream, target, nowMs), env, conn, stream, n.recvBuf, nowMs);
    }
  }

  lemma DataAgrees(c: Core, env: Env, conn: ConnId, stream: StreamId, data: Blob, nowMs: u64)
    requires Inv(c, env) && Negotiating(c.net) && Agree(c)
    ensures Agree(StreamData(c, conn, stream, data, nowMs))
  {
    hide Inv, Agree, FeedInbound, FeedOutbound, Dispatch;
    if (conn, stream) in c.net.inbound {
      FeedInboundAgrees(c, env, conn, stream, data, nowMs);
    } else if (conn, stream) in c.net.outbound {
      FeedOutboundAgrees(c, env, conn, stream, data, nowMs);
    } else {
      DispatchAgrees(c, env, conn, stream, data, nowMs);
    }
  }

  // -------------------------------------------------------------------------- identity upgrades

  /** The tables under the new name of a connection. */
  function Renamed(net: Net, conn: ConnId, peer: PeerId): Net
    requires conn in net.connToPeer
  {
    Bind(net.(peerToConn := net.peerToConn - {net.connToPeer[conn]}), conn, peer)
  }

  /** Moving a peer's streams to a name that holds none. */
  lemma MigrateMoves(ping: Ping.Machine, identify: Identify.Machine, from: PeerId, to: PeerId)
    requires from != to
    requires forall s :: !Holds(ping, to, s) && !Answers(identify, to, s) && !Collects(identify, to, s)
    ensures var m := Ping.Migrate(ping, from, to);
            && (forall p, s :: Holds(m, p, s) ==> p != from && Holds(ping, if p == to then from else p, s))
            && (forall p :: p != from ==>
                  Ping.OutboundStream(m, p).Some? ==> Ping.OutboundStream(ping, if p == to then from else p).Some?)
    ensures var n := Identify.Migrate(identify, from, to);
            && (forall p, s :: Answers(n, p, s) ==> p != from && Answers(identify, if p == to then from else p, s))
            && (forall p, s :: Collects(n, p, s) ==> p != from && Collects(identify, if p == to then from else p, s))
  {
    var m, n := Ping.Migrate(ping, from, to), Identify.Migrate(identify, from, to);
    assert forall p :: p != from && p != to ==> Ping.Peer(m, p) == Ping.Peer(ping, p);
    assert forall p :: p != from && p != to ==> Identify.Peer(n, p) == Identify.Peer(identify, p);
    assert Ping.Peer(m, to) == if from in ping.peers then Ping.Peer(ping, from) else Ping.Peer(ping, to);
    assert Identify.Peer(n, to)
        == if from in identify.peers then Identify.Peer(identify, from) else Identify.Peer(identify, to);
    assert forall s :: !Holds(m, from, s) && !Answers(n, from, s) && !Collects(n, from, s);
    assert forall s :: Holds(m, to, s) ==> Holds(ping, to, s) || Holds(ping, from, s);
    assert forall s :: Answers(n, to, s) ==> Answers(identify, to, s) || Answers(identify, from, s);
    assert forall s :: Collects(n, to, s) ==> Collects(identify, to, s) || Collects(identify, from, s);
    if Ping.OutboundStream(ping, to).Some? {
      assert Holds(ping, to, Ping.OutboundStream(ping, to).value);
    }
  }

  lemma RenamedInverse(net: Net, conn: ConnId, peer: PeerId)
    requires Inverse(net) && OnePing(net) && conn in net.connToPeer && peer !in net.peerToConn
    ensures Inverse(Renamed(net, conn, peer)) && OnePing(Renamed(net, conn, peer))
  {
    var to := Renamed(net, conn, peer);
    assert forall id :: id in net.connToPeer ==> LeadsBack(net, id);
    OnePingKept(net, to);
  }

  lemma RenamedOwned(net: Net, conn: ConnId, peer: PeerId, stream: StreamId, kind: Kind, was: PeerId)
    requires conn in net.connToPeer && LeadsBack(net, conn) && peer !in net.peerToConn && peer != net.connToPeer[conn]
    requires was != net.connToPeer[conn]
    requires OwnedAs(net, if was == peer then net.connToPeer[conn] else was, stream, kind)
    ensures OwnedAs(Renamed(net, conn, peer), was, stream, kind)
  {
  }

  lemma RoutedRenamed(net: Net, conn: ConnId, peer: PeerId, ping: Ping.Machine, identify: Identify.Machine)
    requires Routed(net, ping, identify) && conn in net.connToPeer && peer !in net.peerToConn
    ensures var from := net.connToPeer[conn];
            Routed(Renamed(net, conn, peer), Ping.Migrate(ping, from, peer), Identify.Migrate(identify, from, peer))
  {
    hide Inverse, OnePing, Holds, Answers, Collects, Renamed, Ping.Migrate, Identify.Migrate, OwnedAs;
    var from, to := net.connToPeer[conn], Renamed(net, conn, peer);
    LeadsBackFrom(net, ping, identify, conn);
    RenamedInverse(net, conn, peer);
    Strangers(net, ping, identify, peer);
    MigrateMoves(ping, identify, from, peer);
    RenamedFree(net, conn, peer, ping, identify);
    var m, n := Ping.Migrate(ping, from, peer), Identify.Migrate(identify, from, peer);
    forall p, s | Holds(m, p, s)
      ensures OwnedAs(to, p, s, PingKind)
    {
      RenamedOwned(net, conn, peer, s, PingKind, p);
    }
    forall p, s | Answers(n, p, s)
      ensures OwnedAs(to, p, s, IdentifyResponder)
    {
      RenamedOwned(net, conn, peer, s, IdentifyResponder, p);
    }
    forall p, s | Collects(n, p, s)
      ensures OwnedAs(to, p, s, IdentifyInitiator)
    {
      RenamedOwned(net, conn, peer, s, IdentifyInitiator, p);
    }
  }

  /** A peer without a connection holds no stream. */
  lemma Strangers(net: Net, ping: Ping.Machine, identify: Identify.Machine, peer: PeerId)
    requires PingOwned(net, ping) && IdentifyOwned(net, identify) && peer !in net.peerToConn
    ensures forall s :: !Holds(ping, peer, s) && !Answers(identify, peer, s) && !Collects(identify, peer, s)
  {
    hide Holds, Answers, Collects;
  }

  lemma RenamedFree(net: Net, conn: ConnId, peer: PeerId, ping: Ping.Machine, identify: Identify.Machine)
    requires Inverse(net) && PingsFree(net, ping) && conn in net.connToPeer && peer !in net.peerToConn
    requires forall s :: !Holds(ping, peer, s) && !Answers(identify, peer, s) && !Collects(identify, peer, s)
    ensures PingsFree(Renamed(net, conn, peer), Ping.Migrate(ping, net.connToPeer[conn], peer))
  {
    hide Holds, Answers, Collects, Ping.Migrate, Identify.Migrate, Ping.OutboundStream;
    var from, to := net.connToPeer[conn], Renamed(net, conn, peer);
    var m := Ping.Migrate(ping, from, peer);
    assert forall id :: id in net.connToPeer ==> LeadsBack(net, id);
    MigrateMoves(ping, identify, from, peer);
    assert forall id :: Free(net, ping, id) ==> Free(to, m, id);
    assert forall t :: PingOpening(to, t) ==> PingOpening(net, t);
    assert forall k :: PingNegotiating(to, k) ==> PingNegotiating(net, k);
  }

  lemma UpgradedAgrees(c: Core, env: Env, conn: ConnId, peer: PeerId)
    requires Inv(c, env) && Agree(c) && peer !in c.net.peerToConn
    ensures Agree(Upgraded(c, conn, peer))
  {
    hide Rekey, Routed, Sound, Coherent, Readiness, Ping.Migrate, Identify.Migrate, RenameEvents, Moved, MovedIn;
    if conn in c.net.connToPeer {
      RekeyForm(c, c.net.connToPeer[conn], peer);
      RoutedRenamed(c.net, conn, peer, c.ping, c.identify);
    } else {
      RoutedBind(c.net, env, conn, peer, c.ping, c.identify);
    }
  }

  lemma UpgradeKeepsAgreement(c: Core, env: Env, conn: ConnId, peer: PeerId)
    requires Inv(c, env) && Agree(c) && Live(env, conn) && peer.Verified? && c.net.nextToken + 2 < TWO_64
    requires peer !in c.net.peerToConn
    ensures Agree(Upgrade(c, conn, peer))
  {
    hide Rekey, Sound, Coherent, Readiness, QueueOpen, TryReady, Routed;
    assert conn in c.net.connToPeer ==> c.net.connToPeer[conn] != peer by {
      if conn in c.net.connToPeer {
        LeadsBackFrom(c.net, c.ping, c.identify, conn);
      }
    }
    Upgrades(c, env, conn, peer);
    UpgradedAgrees(c, env, conn, peer);
    var c2 := Push(Upgraded(c, conn, peer), ConnectionEstablished(peer));
    TryReadyKeeps(c2, env, peer);
    TryReadyMachines(c2, peer);
    QueueOpenAgrees(TryReady(c2, peer), env, peer, IDENTIFY_ID, IdentifyInitiator);
  }

  lemma TryReadyMachines(c: Core, peer: PeerId)
    ensures TryReady(c, peer).net == c.net
    ensures TryReady(c, peer).ping == c.ping && TryReady(c, peer).identify == c.identify
  {
  }

  /** The tables after an upgrade to another identity. */
  lemma UpgradeNames(c: Core, env: Env, conn: ConnId, peer: PeerId)
    requires Inv(c, env) && !(conn in c.net.connToPeer && c.net.connToPeer[conn] == peer)
    ensures var to := Upgrade(c, conn, peer).net;
            && to.connToPeer == c.net.connToPeer[conn := peer]
            && to.peerToConn == (if conn in c.net.connToPeer
                                 then c.net.peerToConn - {c.net.connToPeer[conn]} else c.net.peerToConn)[peer := conn]
  {
    hide Rekey, Sound, Readiness, Coherent, TryReady, QueueOpen, RenameEvents, Moved, MovedIn;
    if conn in c.net.connToPeer {
      RekeyForm(c, c.net.connToPeer[conn], peer);
    }
    var c2 := Push(Upgraded(c, conn, peer), ConnectionEstablished(peer));
    TryReadyNet(c2, peer);
    QueueOpenNames(TryReady(c2, peer), peer);
  }

  lemma QueueOpenNames(c: Core, peer: PeerId)
    ensures var d := QueueOpen(c, peer, IDENTIFY_ID, IdentifyInitiator).0;
            d.net.connToPeer == c.net.connToPeer && d.net.peerToConn == c.net.peerToConn
  {
  }

  /** An identity upgrade keeps the tables mutually inverse exactly when the new identity has no
      other connection: an upgrade does not supersede. */
  lemma UpgradeInverse(c: Core, env: Env, conn: ConnId, peer: PeerId)
    requires Inv(c, env) && Inverse(c.net)
    ensures Inverse(Upgrade(c, conn, peer).net) <==> Unclaimed(c.net, conn, peer)
  {
    hide Upgrade, Sound, Readiness;
    assert forall id :: id in c.net.connToPeer ==> LeadsBack(c.net, id);
    assert forall p :: p in c.net.peerToConn ==> PointsBack(c.net, p);
    if conn in c.net.connToPeer && c.net.connToPeer[conn] == peer {
      assert LeadsBack(c.net, conn);
      UpgradeIdle(c, conn, peer);
    } else {
      UpgradeNames(c, env, conn, peer);
      var to := Upgrade(c, conn, peer).net;
      if peer in c.net.peerToConn && c.net.peerToConn[peer] != conn {
        assert !LeadsBack(to, c.net.peerToConn[peer]);
      } else {
        forall id | id in to.connToPeer
          ensures LeadsBack(to, id)
        {
          assert id != conn ==> LeadsBack(c.net, id);
          assert conn in c.net.connToPeer ==> LeadsBack(c.net, conn);
        }
      }
    }
  }

  lemma UpgradeIdle(c: Core, conn: ConnId, peer: PeerId)
    requires conn in c.net.connToPeer && c.net.connToPeer[conn] == peer
    ensures Upgrade(c, conn, peer) == c
  {
  }

  lemma InverseOf(c: Core)
    requires Agree(c)
    ensures Inverse(c.net)
  {
  }

  /** An identity upgrade keeps tables and machines in agreement exactly when the new identity has no
      other connection. */
  lemma UpgradeAgreesIff(c: Core, env: Env, conn: ConnId, peer: PeerId)
    requires Inv(c, env) && Agree(c) && Live(env, conn) && peer.Verified? && c.net.nextToken + 2 < TWO_64
    ensures Agree(Upgrade(c, conn, peer)) <==> Unclaimed(c.net, conn, peer)
  {
    hide Inv, Agree, Upgrade, Inverse;
    InverseOf(c);
    UpgradeInverse(c, env, conn, peer);
    if Agree(Upgrade(c, conn, peer)) {
      InverseOf(Upgrade(c, conn, peer));
    }
    if peer !in c.net.peerToConn {
      UpgradeKeepsAgreement(c, env, conn, peer);
    } else if Unclaimed(c.net, conn, peer) {
      assert PointsBack(c.net, peer) by { Points(c, env); }
      UpgradeIdle(c, conn, peer);
    }
  }

  lemma VerifiedAgrees(c: Core, env: Env, op: Op)
    requires Inv(c, env) && Negotiating(c.net) && Agree(c) && Allowed(env, c, op) && op.IdentityVerified?
    ensures Agree(Step(c, op)) <==> Steady(c, op)
  {
    hide Inv, Routed, Upgrade;
    var c1 := Seen(c, op.id, op.addr);
    RoutedCalmer(c.net, c1.net, c.ping, c.identify);
    if op.who.Some? {
      SeenKeeps(c, env, op.id, op.addr);
      UpgradeAgreesIff(c1, env, op.id, op.who.value);
    }
  }

  // ------------------------------------------------------------------------------------- steps

  lemma PingPeerAgrees(c: Core, env: Env, peer: PeerId, payload: Blob, nowMs: u64)
    requires Inv(c, env) && Agree(c) && c.net.nextToken + 2 < TWO_64
    ensures Agree(PingPeer(c, peer, payload, nowMs).0)
  {
    hide Inv, Routed, QueueOpen, DrainPing, Ping.SendOne, HasPendingPing, Ping.OutboundStream, PingRecedes,
         IdentifyRecedes;
    var m := Ping.SendOne(c.ping, peer, payload, nowMs).0;
    PingFrame(c.(ping := m));
    Unmoved(c.ping, c.identify);
    SendIs(c.ping, peer, payload, nowMs);
    PingInputRecedes(c.ping, Ping.SendPing(peer, payload, nowMs));
    RoutedRecedes(c.net, c.ping, c.identify, PingDrained(m), c.identify);
    var pings := c.app.pendingPings[peer := payload];
    PendingFree(c, env, pings);
    if Ping.OutboundStream(c.ping, peer).None? && !HasPendingPing(c.net, peer) {
      QueueOpenAgrees(c.(app := c.app.(pendingPings := pings)), env, peer, PING_ID, PingKind);
    }
  }

  lemma TickAgrees(c: Core, env: Env, nowMs: u64, order: seq<PeerId>)
    requires Inv(c, env) && Agree(c)
    ensures Agree(DrainIdentify(DrainPing(c.(ping := Ping.TickAll(c.ping, nowMs, order)))))
  {
    hide Sound, Coherent, Readiness, DrainPing, DrainIdentify, Ping.TickAll, Routed, PingRecedes, IdentifyRecedes;
    var m := Ping.TickAll(c.ping, nowMs, order);
    PingFrame(c.(ping := m));
    IdleIdentify(DrainPing(c.(ping := m)));
    Unmoved(c.ping, c.identify);
    TickRecedes(c.ping, nowMs, order);
    DrainRecedes(c.ping, m);
    RoutedRecedes(c.net, c.ping, c.identify, PingDrained(m), c.identify);
  }

  lemma ConnectedAgrees(c: Core, env: Env, op: Op)
    requires Inv(c, env) && Agree(c) && Negotiating(c.net) && Allowed(env, c, op) && op.Connected?
    ensures Agree(Step(c, op))
  {
    hide Inv, Register, Routed;
    var env2 := Advance(env, op);
    ConnectedSound(c, env, op.id);
    SeenKeeps(c, env2, op.id, op.addr);
    var c1 := Seen(Activate(c, op.id, true), op.id, op.addr);
    RoutedCalmer(c.net, c1.net, c.ping, c.identify);
    if op.who.Some? {
      RegisterAgrees(c1, env2, op.id, op.who.value);
    } else {
      InvParts(c1, env2);
      RoutedEnsure(c1.net, env2, op.id, c.ping, c.identify);
    }
  }

  lemma InvParts(c: Core, env: Env)
    requires Inv(c, env)
    ensures Sound(c.net, env) && Coherent(c.net)
  {
  }

  lemma CallAgrees(c: Core, env: Env, op: Op)
    requires Inv(c, env) && Negotiating(c.net) && Agree(c) && Allowed(env, c, op) && !op.IdentityVerified?
    requires !OnStream(op) && !op.Connected? && !op.ConnectionCloses? && !op.Ticks? && !op.CallPing? && !op.CallOpen?
    ensures Agree(Step(c, op))
  {
    hide Inv, Routed, Register, Rekey, ConnClosed, StreamData, DrainPing, DrainIdentify, UserConns, Least, PingPeer,
         OpenUserStream, RemoteWriteClosed, StreamClosed, IncomingStream, StreamOpened, OpenFailed, Negotiating;
    var d := Step(c, op);
    if op.CallAddProtocol? {
      AddProtocolAgrees(c, op.protocol);
    } else {
      RoutedCalmer(c.net, d.net, c.ping, c.identify);
    }
  }

  lemma AddProtocolAgrees(c: Core, protocol: Blob)
    requires Agree(c)
    ensures Agree(AddUserProtocol(c, protocol))
  {
    hide Inverse, OnePing, PingsFree, PingOwned;
    var d := AddUserProtocol(c, protocol);
    assert forall p, s :: Answers(d.identify, p, s) ==> Answers(c.identify, p, s);
    assert forall p, s :: Collects(d.identify, p, s) ==> Collects(c.identify, p, s);
  }

  /** A step keeps tables and machines in agreement exactly when it does not give a connection the
      identity of another. */
  lemma StepAgrees(c: Core, env: Env, op: Op)
    requires Inv(c, env) && Negotiating(c.net) && Agree(c) && Allowed(env, c, op)
    ensures Agree(Step(c, op)) <==> Steady(c, op)
  {
    hide Inv, Agree, Register, Upgrade, StreamData, RemoteWriteClosed, StreamClosed, ConnClosed, IncomingStream,
         StreamOpened, OpenFailed, DrainPing, DrainIdentify, PingPeer, OpenUserStream, UserStreamCall,
         AddUserProtocol, Negotiating;
    match op {
      case Connected(_, _, _) => ConnectedAgrees(c, env, op);
      case IdentityVerified(_, _, _) => VerifiedAgrees(c, env, op);
      case ConnectionCloses(id) => ConnClosedAgrees(c, env, id);
      case StreamArrives(id, stream) => OpeningAgrees(c, env, id, stream, 0);
      case DriverOpened(id, stream, token) => OpeningAgrees(c, env, id, stream, token);
      case DriverFailed(token) => OpeningAgrees(c, env, 0, 0, token);
      case DataArrives(id, stream, data, nowMs) => DataAgrees(c, env, id, stream, data, nowMs);
      case WriteCloses(id, stream) => WriteClosedAgrees(c, env, id, stream);
      case StreamCloses(id, stream) => StreamClosedAgrees(c, env, id, stream);
      case Ticks(nowMs, order) => TickAgrees(c, env, nowMs, order);
      case CallPing(peer, payload, nowMs) => PingPeerAgrees(c, env, peer, payload, nowMs);
      case CallOpen(peer, protocol) => OpenUserAgrees(c, env, peer, protocol);
      case _ => CallAgrees(c, env, op);
    }
  }

  lemma OpenUserAgrees(c: Core, env: Env, peer: PeerId, protocol: Blob)
    requires Inv(c, env) && Agree(c) && c.net.nextToken + 2 < TWO_64
    ensures Agree(OpenUserStream(c, peer, protocol).0)
  {
    hide Inv, Agree, QueueOpen;
    QueueOpenAgrees(c, env, peer, protocol, User(protocol));
  }

  // ---------------------------------------------------------------------------------- routing

  /** A stream held for a peer is found on the peer's connection and nowhere else. */
  lemma OwnedRoute(net: Net, peer: PeerId, stream: StreamId)
    requires Inverse(net) && Coherent(net) && OwnedAs(net, peer, stream, PingKind)
    ensures ConnForOwned(net, peer, stream, PingKind) == Some(net.peerToConn[peer])
  {
    var conn := net.peerToConn[peer];
    assert PointsBack(net, peer);
    assert OwnedOn(net, peer, stream, PingKind) == {conn} by {
      forall id | id in OwnedOn(net, peer, stream, PingKind)
        ensures id == conn
      {
        assert LeadsBack(net, id);
      }
      assert (conn, stream) in net.owner;
    }
  }

  /** The bytes ping wants sent, each on its peer's connection. */
  function Wanted(net: Net, actions: seq<Ping.Action>): seq<Action> {
    if actions == [] then []
    else
      var a := actions[0];
      (if a.Send? && a.peer in net.peerToConn then [SendStream(net.peerToConn[a.peer], a.stream, a.data)] else [])
      + Wanted(net, actions[1..])
  }

  /** Everything ping sends is sent on streams owned by ping on the connections of its peers, so that
      none of it is missing from `Wanted`. */
  ghost predicate Placed(net: Net, actions: seq<Ping.Action>) {
    forall i :: 0 <= i < |actions| && actions[i].Send? ==> OwnedAs(net, actions[i].peer, actions[i].stream, PingKind)
  }

  function Sends(actions: seq<Action>): seq<Action> {
    if actions == [] then []
    else (if actions[0].SendStream? then [actions[0]] else []) + Sends(actions[1..])
  }

  lemma {:induction false} SendsAppend(a: seq<Action>, b: seq<Action>)
    ensures Sends(a + b) == Sends(a) + Sends(b)
  {
    if a == [] {
      assert a + b == b;
    } else {
      SendsAppend(a[1..], b);
      assert (a + b)[1..] == a[1..] + b;
      var head := if a[0].SendStream? then [a[0]] else [];
      assert head + (Sends(a[1..]) + Sends(b)) == (head + Sends(a[1..])) + Sends(b);
    }
  }

  lemma {:induction false} RoutesWanted(net: Net, actions: seq<Ping.Action>)
    requires Inverse(net) && Coherent(net) && Placed(net, actions)
    ensures Sends(RoutePing(net, actions)) == Wanted(net, actions)
  {
    hide ConnForOwned, Inverse, Coherent;
    if actions != [] {
      var a, one := actions[0], RoutePingOne(net, actions[0]);
      RoutesWanted(net, actions[1..]);
      SendsAppend(one, RoutePing(net, actions[1..]));
      assert one == [] || one[1..] == [];
      if a.Send? {
        OwnedRoute(net, a.peer, a.stream);
      }
    }
  }

  /** The ping machine only ever sends on streams it holds. */
  lemma SendsHeld(m: Ping.Machine, input: Ping.Input)
    requires Ping.Idle(m)
    ensures var n := Ping.Handle(m, input).0;
            forall i :: 0 <= i < |n.actions| && n.actions[i].Send? ==> Holds(n, n.actions[i].peer, n.actions[i].stream)
  {
    if input.Tick? {
      TickSendsNothing(m, input.nowMs, input.order);
    }
  }

  predicate Silent(actions: seq<Ping.Action>) {
    forall i :: 0 <= i < |actions| ==> !actions[i].Send?
  }

  lemma {:induction false} TickSendsNothing(m: Ping.Machine, nowMs: u64, order: seq<PeerId>)
    requires Silent(m.actions)
    ensures Silent(Ping.TickAll(m, nowMs, order).actions)
    decreases |order|
  {
    if order != [] {
      TickSendsNothing(Ping.Expire(m, order[0], nowMs), nowMs, order[1..]);
    }
  }

  /** Registration and migration send nothing. */
  lemma RegistersSilent(m: Ping.Machine, input: Ping.Input)
    requires Ping.Idle(m) && Registers(input)
    ensures Silent(Ping.Handle(m, input).0.actions)
  {
  }

  /** Each send of the ping machine, whatever the input, becomes exactly one `SendStream`, on the
      connection of its peer and on a stream that connection owns for ping. */
  lemma SendsRouted(c: Core, env: Env, input: Ping.Input)
    requires Inv(c, env) && Agree(c)
    ensures |c.actions| <= |FeedPing(c, input).actions|
    ensures var m, d := Ping.Handle(c.ping, input).0, FeedPing(c, input);
            && Placed(c.net, m.actions)
            && d.actions[..|c.actions|] == c.actions
            && Sends(d.actions[|c.actions|..]) == Wanted(c.net, m.actions)
  {
    hide DrainPing, Ping.Handle, Sound, Readiness, OwnedAs, PingRecedes;
    var m := Ping.Handle(c.ping, input).0;
    DrainPingForm(c.(ping := m));
    if Registers(input) {
      RegistersSilent(c.ping, input);
    } else {
      SendsHeld(c.ping, input);
      PingInputRecedes(c.ping, input);
      HeldBefore(c.ping, m);
    }
    RoutesWanted(c.net, m.actions);
    assert FeedPing(c, input).actions[|c.actions|..] == RoutePing(c.net, m.actions);
  }

  lemma HeldBefore(m: Ping.Machine, n: Ping.Machine)
    requires PingRecedes(m, n)
    ensures forall p, s :: Holds(n, p, s) ==> Holds(m, p, s)
  {
  }

  /** A ping on a stream that is already open leaves as one `SendStream` on the peer's connection. */
  lemma PingLeaves(c: Core, env: Env, peer: PeerId, payload: Blob, nowMs: u64)
    requires Inv(c, env) && Agree(c) && peer in c.net.peerToConn && |payload| == Ping.PAYLOAD_LEN
    requires Ping.Peer(c.ping, peer).outbound.Some? && Ping.Peer(c.ping, peer).pending.None?
    ensures var (d, e) := PingPeer(c, peer, payload, nowMs);
            e.None? && d.actions == c.actions
              + [SendStream(c.net.peerToConn[peer], Ping.Peer(c.ping, peer).outbound.value, payload)]
  {
    hide DrainPing, ConnForOwned, Sound, Readiness;
    var m := Ping.SendOne(c.ping, peer, payload, nowMs).0;
    var stream := Ping.Peer(c.ping, peer).outbound.value;
    DrainPingForm(c.(ping := m));
    assert Holds(c.ping, peer, stream);
    OwnedRoute(c.net, peer, stream);
    assert m.actions == [Ping.Send(peer, stream, payload)] && m.actions[1..] == [];
    assert RoutePing(c.net, m.actions) == RoutePingOne(c.net, m.actions[0]) + [];
  }

  /** A ping queued until its stream was open leaves, once the stream is agreed on, as one `SendStream`
      on that very stream. */
  lemma DeferredPingLeaves(c: Core, env: Env, conn: ConnId, stream: StreamId, nowMs: u64)
    requires Inv(c, env) && Agree(c) && Ping.Sound(c.ping) && Free(c.net, c.ping, conn)
    requires (conn, stream) in c.net.owner && c.net.owner[(conn, stream)] == PingKind
    requires var peer := c.net.connToPeer[conn];
             peer in c.app.pendingPings && |c.app.pendingPings[peer]| == Ping.PAYLOAD_LEN
    ensures var peer := c.net.connToPeer[conn];
            OutboundPing(c, conn, stream, peer, nowMs).actions
              == c.actions + [SendStream(conn, stream, c.app.pendingPings[peer])]
  {
    hide DrainPing, ConnForOwned, Sound, Readiness;
    var peer := c.net.connToPeer[conn];
    var payload, m := c.app.pendingPings[peer], Ping.RegisterOutbound(c.ping, peer, stream).0;
    assert Ping.PeerSound(Ping.Peer(c.ping, peer));
    assert LeadsBack(c.net, conn);
    OwnedRoute(c.net, peer, stream);
    DrainPingForm(c.(ping := m));
    var c1 := DrainPing(c.(ping := m));
    assert c1.actions == c.actions + RoutePing(c.net, []) == c.actions;
    var sent := Ping.SendOne(c1.ping, peer, payload, nowMs).0;
    assert sent.actions == [Ping.Send(peer, stream, payload)] && sent.actions[1..] == [];
    var c2 := c1.(app := c1.app.(pendingPings := c1.app.pendingPings - {peer}), ping := sent);
    DrainPingForm(c2);
    assert RoutePing(c.net, sent.actions) == RoutePingOne(c.net, sent.actions[0]) + [];
  }

  /** A complete inbound payload leaves as one echo on the connection it came from. */
  lemma EchoLeaves(c: Core, env: Env, conn: ConnId, stream: StreamId, data: Blob, nowMs: u64)
    requires Inv(c, env) && Agree(c) && conn in c.net.connToPeer
    requires var state := Ping.Peer(c.ping, c.net.connToPeer[conn]);
             && stream in state.inbound && state.outbound != Some(stream)
             && |Ping.Buffered(state, stream) + data| == Ping.PAYLOAD_LEN
    ensures (conn, stream) in c.net.owner && c.net.owner[(conn, stream)] == PingKind
    ensures Dispatch(c, conn, stream, data, nowMs).actions == c.actions
              + [SendStream(conn, stream, Ping.Buffered(Ping.Peer(c.ping, c.net.connToPeer[conn]), stream) + data)]
  {
    hide DrainPing, ConnForOwned, Sound, Readiness;
    var peer := c.net.connToPeer[conn];
    assert LeadsBack(c.net, conn);
    assert Holds(c.ping, peer, stream);
    var m := Ping.Data(c.ping, peer, stream, data, nowMs);
    var echo := Ping.Buffered(Ping.Peer(c.ping, peer), stream) + data;
    OwnerNamed(c, env, (conn, stream));
    DrainPingForm(c.(ping := m));
    OwnedRoute(c.net, peer, stream);
    assert m.actions == [Ping.Send(peer, stream, echo)] && m.actions[1..] == [];
    assert RoutePing(c.net, m.actions) == RoutePingOne(c.net, m.actions[0]) + [];
  }

  lemma AnswersAs(c: Core, conn: ConnId, stream: StreamId)
    requires conn in c.net.connToPeer
    ensures InboundNegotiated(c, conn, stream, IDENTIFY_ID) == InboundIdentify(c, conn, stream, c.net.connToPeer[conn])
  {
    hide InboundIdentify, FeedPing;
    assert |PING_ID| != |IDENTIFY_ID|;
  }

  /** A negotiated identify stream is answered with our own info, and then half-closed, on the very
      connection and stream it came in on. */
  lemma IdentifyAnswers(c: Core, env: Env, conn: ConnId, stream: StreamId)
    requires Inv(c, env) && Agree(c) && conn in c.net.connToPeer
    requires Identify.Peer(c.identify, c.net.connToPeer[conn]).outbound.None?
    ensures var observed := if conn in c.net.remoteAddr then Some(c.net.remoteAddr[conn]) else None;
            var k := c.identify.config;
            var info := IdentifyMessage.Info(
              publicKey := Some(k.publicKey), listenAddrs := c.app.localAddrs, protocols := k.protocols,
              observedAddr := observed, protocolVersion := Some(k.protocolVersion),
              agentVersion := Some(k.agentVersion));
            InboundNegotiated(c, conn, stream, IDENTIFY_ID).actions == c.actions
              + [SendStream(conn, stream, Framing.Frame(IdentifyMessage.Encode(info))), CloseStreamWrite(conn, stream)]
  {
    hide InboundNegotiated, InboundIdentify, Inv, Routed, Framing.Frame, IdentifyMessage.Encode;
    AnswersAs(c, conn, stream);
    LeadsBackFrom(c.net, c.ping, c.identify, conn);
    InvIdle(c, env);
    InfoLeaves(c, conn, stream);
  }

  lemma InfoLeaves(c: Core, conn: ConnId, stream: StreamId)
    requires Identify.Idle(c.identify) && conn in c.net.connToPeer && LeadsBack(c.net, conn)
    requires Identify.Peer(c.identify, c.net.connToPeer[conn]).outbound.None?
    ensures var observed := if conn in c.net.remoteAddr then Some(c.net.remoteAddr[conn]) else None;
            var k := c.identify.config;
            var info := IdentifyMessage.Info(
              publicKey := Some(k.publicKey), listenAddrs := c.app.localAddrs, protocols := k.protocols,
              observedAddr := observed, protocolVersion := Some(k.protocolVersion),
              agentVersion := Some(k.agentVersion));
            InboundIdentify(c, conn, stream, c.net.connToPeer[conn]).actions == c.actions
              + [SendStream(conn, stream, Framing.Frame(IdentifyMessage.Encode(info))), CloseStreamWrite(conn, stream)]
  {
    hide DrainIdentify, Framing.Frame, IdentifyMessage.Encode, RouteIdentify, Absorb;
    var peer := c.net.connToPeer[conn];
    var observed := if conn in c.net.remoteAddr then Some(c.net.remoteAddr[conn]) else None;
    var m := Identify.RegisterOutbound(c.identify, peer, stream, observed, c.app.localAddrs).0;
    var owned := c.(identify := m, net := Own(c.net, (conn, stream), IdentifyResponder));
    DrainIdentifyForm(owned);
    var info := Identify.OwnInfo(c.identify.config, observed, c.app.localAddrs);
    var send := Identify.Send(peer, stream, Framing.Frame(IdentifyMessage.Encode(info)));
    assert m.actions == [send, Identify.CloseStreamWrite(peer, stream)];
    RouteTwo(owned.net, send, Identify.CloseStreamWrite(peer, stream));
  }

  lemma RouteTwo(net: Net, a: Identify.Action, b: Identify.Action)
    ensures RouteIdentify(net, [a, b]) == RouteIdentifyOne(net, a) + RouteIdentifyOne(net, b)
  {
    hide RouteIdentifyOne;
    assert [a, b][1..] == [b] && [b][1..] == [];
    assert RouteIdentify(net, [b]) == RouteIdentifyOne(net, b) + [];
  }

  // ---------------------------------------------------------------------------------- theorem

  ghost predicate SteadyRun(c: Core, ops: seq<Op>)
    decreases |ops|
  {
    ops == [] || (Steady(c, ops[0]) && SteadyRun(Next(c, ops[0]), ops[1..]))
  }

  lemma {:induction false} RunAgrees(c: Core, env: Env, ops: seq<Op>)
    requires Inv(c, env) && Agree(c) && Lawful(c, env, ops) && SteadyRun(c, ops)
    ensures Agree(Run(c, ops))
    decreases |ops|
  {
    hide Inv, Agree, Allowed, Next, Advance, Negotiating, Step;
    if ops != [] {
      NextKeeps(c, env, ops[0]);
      StepAgrees(c, env, ops[0]);
      RunAgrees(Next(c, ops[0]), Advance(env, ops[0]), ops[1..]);
    }
  }

  /** Tables and machines agree in every state of a run. */
  ghost predicate AgreesThroughout(c: Core, ops: seq<Op>)
    decreases |ops|
  {
    Agree(c) && (ops == [] || AgreesThroughout(Next(c, ops[0]), ops[1..]))
  }

  /** Agreement lasts exactly as long as no connection takes on the identity of another. */
  lemma {:induction false} AgreementIff(c: Core, env: Env, ops: seq<Op>)
    requires Inv(c, env) && Agree(c) && Lawful(c, env, ops)
    ensures AgreesThroughout(c, ops) <==> SteadyRun(c, ops)
    decreases |ops|
  {
    hide Inv, Agree, Allowed, Next, Advance, Negotiating, Step, Steady;
    if ops != [] {
      NextKeeps(c, env, ops[0]);
      StepAgrees(c, env, ops[0]);
      if Steady(c, ops[0]) {
        AgreementIff(Next(c, ops[0]), Advance(env, ops[0]), ops[1..]);
      } else {
        assert !AgreesThroughout(Next(c, ops[0]), ops[1..]);
      }
    }
  }

  /** The pings being opened or negotiated on a connection. */
  function Opening(net: Net, conn: ConnId): set<u64> {
    set t | t in net.opens && PingOpening(net, t) && net.opens[t].conn == conn
  }

  function Negotiated(net: Net, conn: ConnId): set<Key> {
    set k | k in net.outbound && PingNegotiating(net, k) && k.0 == conn
  }

  lemma AtMostOne(net: Net, conn: ConnId)
    requires OnePing(net)
    ensures |Opening(net, conn)| + |Negotiated(net, conn)| <= 1
  {
    var ts, ks := Opening(net, conn), Negotiated(net, conn);
    if t :| t in ts {
      assert ts == {t};
      assert ks == {} by {
        assert forall k :: k in ks ==> PingNegotiating(net, k);
      }
    } else if k :| k in ks {
      assert ks == {k};
    }
  }

  /** Routing agreement: over every run in which no connection takes on the identity of another,
      upgrades from a placeholder or to a new identity included, the two connection tables are
      mutual inverses, a connection has at most one ping stream opening or negotiating, registering
      the ping stream that is negotiating cannot be refused, and every stream ping or identify holds
      is owned for that protocol on the connection of its peer. */
  lemma RoutingAgreement(config: Identify.Config, timeoutMs: u64, ops: seq<Op>)
    requires Lawful(New(config, timeoutMs), NOWHERE, ops) && SteadyRun(New(config, timeoutMs), ops)
    ensures var c := Run(New(config, timeoutMs), ops);
            && (forall id, p :: (id in c.net.connToPeer && c.net.connToPeer[id] == p)
                                <==> (p in c.net.peerToConn && c.net.peerToConn[p] == id))
            && (forall id :: |Opening(c.net, id)| + |Negotiated(c.net, id)| <= 1)
            && (forall k :: PingNegotiating(c.net, k) ==>
                  k.0 in c.net.connToPeer && !PingRefuses(c.ping, c.net.connToPeer[k.0], k.1))
            && PingOwned(c.net, c.ping) && IdentifyOwned(c.net, c.identify)
  {
    hide Lawful, Run, SteadyRun, Sound, Readiness, PingOwned, IdentifyOwned, Opening, Negotiated;
    var start := New(config, timeoutMs);
    InvNew(config, timeoutMs);
    AgreeNew(config, timeoutMs);
    RunKeeps(start, NOWHERE, ops);
    RunAgrees(start, NOWHERE, ops);
    var c := Run(start, ops);
    assert forall id :: id in c.net.connToPeer ==> LeadsBack(c.net, id);
    assert forall p :: p in c.net.peerToConn ==> PointsBack(c.net, p);
    forall id: ConnId
      ensures |Opening(c.net, id)| + |Negotiated(c.net, id)| <= 1
    {
      AtMostOne(c.net, id);
    }
    forall k | PingNegotiating(c.net, k)
      ensures k.0 in c.net.connToPeer && !PingRefuses(c.ping, c.net.connToPeer[k.0], k.1)
    {
      assert Free(c.net, c.ping, k.0);
    }
  }

  // --------------------------------------------------------------- where agreement breaks down

  /** Three allowed events after which two connections have the same peer. */
  lemma TwinConnections(config: Identify.Config, timeoutMs: u64, peer: PeerId)
    requires peer.Verified?
    ensures var ops := [Connected(1, Some(peer), []), Connected(2, None, []), IdentityVerified(2, Some(peer), [])];
            && Lawful(New(config, timeoutMs), NOWHERE, ops)
            && !Inverse(Run(New(config, timeoutMs), ops).net)
  {
    hide Step, Inv, Inverse;
    var c0, first, second := New(config, timeoutMs), Connected(1, Some(peer), []), Connected(2, None, []);
    var third := IdentityVerified(2, Some(peer), []);
    var e1 := Advance(NOWHERE, first);
    var e2 := Advance(e1, second);
    InvNew(config, timeoutMs);
    AgreeNew(config, timeoutMs);
    NextKeeps(c0, NOWHERE, first);
    StepAgrees(c0, NOWHERE, first);
    var c1 := Next(c0, first);
    FirstConnection(config, timeoutMs, peer);
    NextKeeps(c1, e1, second);
    StepAgrees(c1, e1, second);
    var c2 := Next(c1, second);
    SecondConnection(c1, peer);
    var ops := [first, second, third];
    assert ops[1..] == [second, third] && ops[1..][1..] == [third] && ops[1..][1..][1..] == [];
    NextKeeps(c2, e2, third);
    var c3 := Next(c2, third);
    assert Run(c0, ops) == Run(c1, [second, third]) == Run(c2, [third]) == Run(c3, []) == c3;
    assert Lawful(c2, e2, [third]);
    assert Lawful(c1, e1, [second, third]);
    SeenKeeps(c2, e2, 2, []);
    UpgradeStep(c2, peer);
    AgreeSeen(c2);
    UpgradeInverse(Seen(c2, 2, []), e2, 2, peer);
  }

  lemma FirstConnection(config: Identify.Config, timeoutMs: u64, peer: PeerId)
    requires peer.Verified?
    ensures var c1 := Next(New(config, timeoutMs), Connected(1, Some(peer), []));
            c1.net.peerToConn == map[peer := 1] && c1.net.connToPeer == map[1 := peer] && c1.net.nextToken == 2
  {
  }

  lemma SecondConnection(c: Core, peer: PeerId)
    requires Negotiating(c.net) && c.net.peerToConn == map[peer := 1] && c.net.connToPeer == map[1 := peer]
    ensures var d := Next(c, Connected(2, None, []));
            peer in d.net.peerToConn && d.net.nextToken == c.net.nextToken
            && (peer.Verified? ==> d.net.peerToConn[peer] == 1)
  {
  }

  lemma UpgradeStep(c: Core, peer: PeerId)
    requires Negotiating(c.net)
    ensures Step(c, IdentityVerified(2, Some(peer), [])) == Upgrade(Seen(c, 2, []), 2, peer)
  {
  }

  lemma AgreeSeen(c: Core)
    requires Agree(c)
    ensures Inverse(Seen(c, 2, []).net)
  {
    assert forall id :: id in c.net.connToPeer ==> LeadsBack(c.net, id);
  }
}

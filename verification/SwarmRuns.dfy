/** Safety of the swarm over whole runs: every sequence of events, reports and calls, from a new
    core, that a contract-abiding transport can cause. */
module SwarmRuns {
  import opened Bytes
  import opened Ids
  import opened Swarm
  import opened SwarmRouting
  import opened SwarmInvariant
  import opened SwarmSteps
  import opened SwarmEffects
  import Multistream
  import Ping
  import Identify

  /** A step; the guard is never false in a run (`RunKeeps`). */
  ghost function Next(c: Core, op: Op): Core {
    if Negotiating(c.net) then Step(c, op) else c
  }

  ghost function Run(c: Core, ops: seq<Op>): Core
    decreases |ops|
  {
    if ops == [] then c else Run(Next(c, ops[0]), ops[1..])
  }

  function Surroundings(env: Env, ops: seq<Op>): Env
    decreases |ops|
  {
    if ops == [] then env else Surroundings(Advance(env, ops[0]), ops[1..])
  }

  ghost predicate Lawful(c: Core, env: Env, ops: seq<Op>)
    decreases |ops|
  {
    ops == [] || (Allowed(env, c, ops[0]) && Lawful(Next(c, ops[0]), Advance(env, ops[0]), ops[1..]))
  }

  const NOWHERE: Env := Env({}, {}, {})

  lemma NextKeeps(c: Core, env: Env, op: Op)
    requires Inv(c, env) && Allowed(env, c, op)
    ensures Negotiating(c.net) && Next(c, op) == Step(c, op) && Inv(Next(c, op), Advance(env, op))
  {
    hide Step, Inv, Allowed;
    InvNegotiating(c, env);
    StepKeeps(c, env, op);
  }

  lemma {:induction false} RunKeeps(c: Core, env: Env, ops: seq<Op>)
    requires Inv(c, env) && Lawful(c, env, ops)
    ensures Inv(Run(c, ops), Surroundings(env, ops)) && Negotiating(Run(c, ops).net)
    decreases |ops|
  {
    hide Inv, Allowed, Next, Advance, Negotiating;
    InvNegotiating(c, env);
    if ops != [] {
      NextKeeps(c, env, ops[0]);
      RunKeeps(Next(c, ops[0]), Advance(env, ops[0]), ops[1..]);
    }
  }

  lemma {:induction false} RunAppend(c: Core, env: Env, ops: seq<Op>, more: seq<Op>)
    ensures Run(c, ops + more) == Run(Run(c, ops), more)
    ensures Surroundings(env, ops + more) == Surroundings(Surroundings(env, ops), more)
    ensures Lawful(c, env, ops + more) <==> Lawful(c, env, ops) && Lawful(Run(c, ops), Surroundings(env, ops), more)
    decreases |ops|
  {
    hide Allowed, Next, Advance;
    if ops == [] {
      assert ops + more == more;
    } else {
      RunAppend(Next(c, ops[0]), Advance(env, ops[0]), ops[1..], more);
      assert (ops + more)[0] == ops[0] && (ops + more)[1..] == ops[1..] + more;
    }
  }

  lemma RunFromNew(config: Identify.Config, timeoutMs: u64, ops: seq<Op>)
    requires Lawful(New(config, timeoutMs), NOWHERE, ops)
    ensures Inv(Run(New(config, timeoutMs), ops), Surroundings(NOWHERE, ops))
  {
    hide Inv, Lawful, Run, Surroundings;
    InvNew(config, timeoutMs);
    RunKeeps(New(config, timeoutMs), NOWHERE, ops);
  }

  // ------------------------------------------------------------------------- theorems

  /** Map coherence, supersession and identity upgrades included: a peer's connection is named after
      that peer, so the assertion guarding every open holds for whichever peer is asked for. */
  lemma MapCoherence(config: Identify.Config, timeoutMs: u64, ops: seq<Op>, peer: PeerId)
    requires Lawful(New(config, timeoutMs), NOWHERE, ops)
    ensures OpenAsserts(Run(New(config, timeoutMs), ops).net, peer)
  {
    hide Lawful, Run, Surroundings, Sound, Readiness;
    RunFromNew(config, timeoutMs, ops);
    var net := Run(New(config, timeoutMs), ops).net;
    assert peer in net.peerToConn ==> PointsBack(net, peer);
  }

  predicate Mentions(net: Net, conn: ConnId) {
    || conn in net.connToPeer
    || (exists p :: p in net.peerToConn && net.peerToConn[p] == conn)
    || conn in net.active || conn in net.remoteAddr
    || (exists k :: k in net.inbound && k.0 == conn)
    || (exists k :: k in net.outbound && k.0 == conn)
    || (exists k :: k in net.owner && k.0 == conn)
    || (exists t :: t in net.opens && net.opens[t].conn == conn)
  }

  /** After `Closed` no table mentions the connection, at any later time. */
  lemma ClosedForgotten(config: Identify.Config, timeoutMs: u64, ops: seq<Op>, conn: ConnId)
    requires Lawful(New(config, timeoutMs), NOWHERE, ops)
    requires conn in Surroundings(NOWHERE, ops).closed
    ensures !Mentions(Run(New(config, timeoutMs), ops).net, conn)
  {
    hide Lawful, Run, Surroundings, Readiness, Handshaking;
    RunFromNew(config, timeoutMs, ops);
    var net := Run(New(config, timeoutMs), ops).net;
    assert forall p :: p in net.peerToConn ==> PointsBack(net, p);
  }

  lemma {:induction false} ClosedSoFar(env: Env, ops: seq<Op>, conn: ConnId)
    ensures conn in Surroundings(env, ops).closed <==> conn in env.closed || ConnectionCloses(conn) in ops
    decreases |ops|
  {
    if ops != [] {
      ClosedSoFar(Advance(env, ops[0]), ops[1..], conn);
      assert ConnectionCloses(conn) in ops <==> ops[0] == ConnectionCloses(conn) || ConnectionCloses(conn) in ops[1..];
    }
  }

  /** Stream-table discipline: the three stream tables are pairwise disjoint, everything owned,
      negotiating outbound or being opened is on a connection with a peer, and tokens in use are
      below the counter. */
  lemma StreamTables(config: Identify.Config, timeoutMs: u64, ops: seq<Op>)
    requires Lawful(New(config, timeoutMs), NOWHERE, ops)
    ensures var net := Run(New(config, timeoutMs), ops).net;
            && net.inbound.Keys !! net.outbound.Keys && net.inbound.Keys !! net.owner.Keys
            && net.outbound.Keys !! net.owner.Keys
            && (forall k :: k in net.outbound || k in net.owner ==> k.0 in net.connToPeer)
            && (forall t :: t in net.opens ==> net.opens[t].conn in net.connToPeer && 1 <= t < net.nextToken)
  {
    hide Lawful, Run, Surroundings, Readiness, Handshaking, Coherent;
    RunFromNew(config, timeoutMs, ops);
  }

  /** Readiness views agree: the established peers are exactly the verified peers with a connection,
      ready peers are established and have sent their info, and both embedded machines are idle. */
  lemma ReadinessAgrees(config: Identify.Config, timeoutMs: u64, ops: seq<Op>)
    requires Lawful(New(config, timeoutMs), NOWHERE, ops)
    ensures var c := Run(New(config, timeoutMs), ops);
            && (forall p :: p in c.app.established <==> p in c.net.peerToConn && p.Verified?)
            && (forall p :: p in c.app.ready ==> p in c.app.established && p in c.app.peerInfo)
            && Ping.Idle(c.ping) && Identify.Idle(c.identify)
  {
    hide Lawful, Run, Surroundings, Sound, Coherent;
    RunFromNew(config, timeoutMs, ops);
  }

  // --------------------------------------------------------------------------- tokens

  /** Pending opens stay as they are or go away; new ones take tokens never handed out before. */
  ghost predicate OpensGrow(net: Net, to: Net) {
    && net.nextToken <= to.nextToken
    && forall t :: t in to.opens ==>
         (t in net.opens && to.opens[t] == net.opens[t]) || net.nextToken <= t < to.nextToken
  }

  /** The protocol a stream of some kind is for; ours to open, but for answering identify. */
  function ProtocolOf(kind: Kind): Blob {
    match kind
    case PingKind => PING_ID
    case IdentifyResponder => IDENTIFY_ID
    case IdentifyInitiator => IDENTIFY_ID
    case User(protocol) => protocol
  }

  predicate Speaks(target: Kind, protocol: Blob) {
    !target.IdentifyResponder? && protocol == ProtocolOf(target)
  }

  /** A stream is opened for the protocol its owner speaks. */
  predicate Honest(open: PendingOpen) {
    Speaks(open.target, open.protocol)
  }

  /** No stream changed hands: negotiations and ownerships stay as they are or go away. */
  ghost predicate Recedes(net: Net, to: Net) {
    && OpensGrow(net, to)
    && (forall k :: k in to.inbound ==> k in net.inbound && to.inbound[k] == net.inbound[k])
    && (forall k :: k in to.outbound ==> k in net.outbound && to.outbound[k] == net.outbound[k])
    && (forall k :: k in to.owner ==> k in net.owner && to.owner[k] == net.owner[k])
    && (forall t :: t in to.opens ==> (t in net.opens && to.opens[t] == net.opens[t]) || Honest(to.opens[t]))
  }

  lemma RecedesThen(a: Net, b: Net, c: Net)
    requires Recedes(a, b) && Recedes(b, c)
    ensures Recedes(a, c)
  {
  }

  lemma RecedesSame(a: Net, b: Net)
    requires b == a.(connToPeer := b.connToPeer, peerToConn := b.peerToConn, active := b.active,
                     remoteAddr := b.remoteAddr)
    ensures Recedes(a, b)
  {
  }

  /** An event without the name of its peer, which an identity upgrade may rewrite. */
  function Anon(event: Event): Event {
    if event.RuntimeError? then event.(errorPeer := None) else event.(peer := Verified([]))
  }

  /** Events are only appended: plain ones, and none about user streams. */
  ghost predicate Announces(c: Core, d: Core) {
    && c.events <= d.events
    && (forall i :: |c.events| <= i < |d.events| ==> !AboutUserStream(d.events[i]) && Plain(d.events[i]))
  }

  /** Old events keep their places and, but for names, their contents; new ones are proper and not
      about user streams. */
  ghost predicate Surfaces(c: Core, d: Core) {
    && |c.events| <= |d.events|
    && (forall i :: 0 <= i < |c.events| ==>
          Anon(d.events[i]) == Anon(c.events[i]) && (Proper(c.events[i]) ==> Proper(d.events[i])))
    && (forall i :: |c.events| <= i < |d.events| ==> !AboutUserStream(d.events[i]) && Proper(d.events[i]))
  }

  lemma AnnouncesSurfaces(c: Core, d: Core)
    requires Announces(c, d)
    ensures Surfaces(c, d)
  {
  }

  lemma QueueOpenGrows(c: Core, peer: PeerId, protocol: Blob, target: Kind)
    requires 1 <= c.net.nextToken && c.net.nextToken + 1 < TWO_64 && Honest(PendingOpen(0, protocol, target))
    ensures var d := QueueOpen(c, peer, protocol, target).0;
            Recedes(c.net, d.net) && d.net.nextToken <= c.net.nextToken + 1 && d.events == c.events
  {
  }

  lemma AnnounceGrows(c: Core, conn: ConnId, peer: PeerId)
    requires 1 <= c.net.nextToken && c.net.nextToken + 2 < TWO_64 && peer.Verified?
    ensures Recedes(c.net, Announce(c, conn, peer).net) && Announces(c, Announce(c, conn, peer))
  {
    hide QueueOpen, HasPendingPing, Recedes;
    var c1 := Push(c.(app := c.app.(established := c.app.established + {peer})), ConnectionEstablished(peer));
    QueueOpenGrows(c1, peer, IDENTIFY_ID, IdentifyInitiator);
    var (c2, e2) := QueueOpen(c1, peer, IDENTIFY_ID, IdentifyInitiator);
    var c3 := if e2.None? then c2 else Fault(c2, IdentifyFault, Some(peer), Some(conn));
    CounterGrows(c1.net, c2.net);
    QueueOpenGrows(c3, peer, PING_ID, PingKind);
    RecedesThen(c.net, c3.net, QueueOpen(c3, peer, PING_ID, PingKind).0.net);
  }

  lemma CounterGrows(net: Net, to: Net)
    requires Recedes(net, to)
    ensures net.nextToken <= to.nextToken
  {
  }

  lemma PurgeRecedes(net: Net, conn: ConnId)
    ensures Recedes(net, Purge(net, conn)) && Recedes(net, Detached(net, conn))
  {
  }

  lemma AdmittedRecedes(c: Core, env: Env, conn: ConnId, peer: PeerId)
    requires Inv(c, env)
    ensures var a := Admitted(c, conn, peer);
            Recedes(c.net, a.net) && a.net.nextToken == c.net.nextToken && a.events == c.events
  {
    hide Supersede, Coherent, Readiness, Sound, Recedes, Purge;
    if peer in c.net.peerToConn {
      var was := c.net.peerToConn[peer];
      SupersedeForm(c, env, peer);
      PurgeRecedes(c.net, was);
      var net := Detached(c.net, was);
      RecedesSame(net, Bind(net, conn, peer));
      RecedesThen(c.net, net, Bind(net, conn, peer));
      assert net.nextToken == c.net.nextToken by { PurgeCounter(c.net, was); }
    } else {
      RecedesSame(c.net, Bind(c.net, conn, peer));
    }
  }

  lemma PurgeCounter(net: Net, conn: ConnId)
    ensures Detached(net, conn).nextToken == net.nextToken
  {
  }

  lemma RegisterGrows(c: Core, env: Env, conn: ConnId, peer: PeerId)
    requires Inv(c, env) && c.net.nextToken + 2 < TWO_64 && conn !in c.net.connToPeer && peer.Verified?
    ensures Recedes(c.net, Register(c, conn, peer).net) && Announces(c, Register(c, conn, peer))
  {
    hide Announce, Supersede, Coherent, Readiness, Sound, Recedes, Admitted, Inv;
    assert peer in c.net.peerToConn ==> PointsBack(c.net, peer) by { Points(c, env); }
    CounterStarted(c, env);
    AdmittedRecedes(c, env, conn, peer);
    RegisterIs(c, conn, peer);
    AnnounceGrows(Admitted(c, conn, peer), conn, peer);
    RecedesThen(c.net, Admitted(c, conn, peer).net, Register(c, conn, peer).net);
  }

  lemma UpgradedRecedes(c: Core, env: Env, conn: ConnId, peer: PeerId)
    requires Inv(c, env) && peer.Verified?
    ensures var u := Upgraded(c, conn, peer);
            Recedes(c.net, u.net) && u.net.nextToken == c.net.nextToken && Surfaces(c, u)
  {
    hide Rekey, Coherent, Readiness, Sound, Recedes;
    if conn in c.net.connToPeer {
      RekeyForm(c, c.net.connToPeer[conn], peer);
    }
    RecedesSame(c.net, Upgraded(c, conn, peer).net);
  }

  lemma UpgradeGrows(c: Core, env: Env, conn: ConnId, peer: PeerId)
    requires Inv(c, env) && c.net.nextToken + 2 < TWO_64 && peer.Verified?
    ensures Recedes(c.net, Upgrade(c, conn, peer).net) && Surfaces(c, Upgrade(c, conn, peer))
  {
    hide Rekey, QueueOpen, Inv, Recedes, Bind;
    CounterStarted(c, env);
    RecedesSame(c.net, c.net);
    if !(conn in c.net.connToPeer && c.net.connToPeer[conn] == peer) {
      UpgradedRecedes(c, env, conn, peer);
      var c3 := TryReady(Push(Upgraded(c, conn, peer), ConnectionEstablished(peer)), peer);
      QueueOpenGrows(c3, peer, IDENTIFY_ID, IdentifyInitiator);
      RecedesThen(c.net, c3.net, Upgrade(c, conn, peer).net);
    }
  }

  lemma ConnClosedGrows(c: Core, env: Env, conn: ConnId)
    requires Inv(c, env)
    ensures Recedes(c.net, ConnClosed(c, conn).net) && Surfaces(c, ConnClosed(c, conn))
  {
    hide ConnClosed, Sound, Coherent, Readiness, Recedes, Purge;
    ConnClosedForm(c, conn);
    ConnClosedEvents(c, conn);
    PurgeRecedes(c.net, conn);
    if conn in c.net.connToPeer {
      var net := c.net.(peerToConn := c.net.peerToConn - {c.net.connToPeer[conn]});
      RecedesSame(c.net, net);
      PurgeRecedes(net, conn);
      RecedesThen(c.net, net, Detached(net, conn));
    }
  }

  lemma ConnClosedEvents(c: Core, conn: ConnId)
    requires Ping.Idle(c.ping) && Identify.Idle(c.identify)
    ensures Surfaces(c, ConnClosed(c, conn))
  {
    hide ForgetPeer, Purge;
    if conn in c.net.connToPeer {
      var peer := c.net.connToPeer[conn];
      var net1 := c.net.(active := c.net.active - {conn}, remoteAddr := c.net.remoteAddr - {conn},
                         connToPeer := c.net.connToPeer - {conn});
      ForgetForm(c.(net := net1.(peerToConn := net1.peerToConn - {peer})), peer);
    }
  }

  lemma Points(c: Core, env: Env)
    requires Inv(c, env)
    ensures forall p :: p in c.net.peerToConn ==> PointsBack(c.net, p)
  {
  }

  lemma CounterStarted(c: Core, env: Env)
    requires Inv(c, env)
    ensures 1 <= c.net.nextToken
  {
  }

  lemma CallGrows(c: Core, op: Op)
    requires Negotiating(c.net) && 1 <= c.net.nextToken && c.net.nextToken + 2 < TWO_64
    requires op.CallPing? || op.CallOpen?
    ensures Recedes(c.net, Step(c, op).net) && Announces(c, Step(c, op))
  {
    hide QueueOpen, DrainPing, HasPendingPing, Ping.SendOne, Negotiating, Recedes, Tells, Register, Upgrade,
         ConnClosed, StreamData, RemoteWriteClosed, StreamClosed, IncomingStream, StreamOpened, OpenFailed,
         DrainIdentify, UserStreamCall;
    RecedesSame(c.net, c.net);
    if op.CallPing? {
      var m := Ping.SendOne(c.ping, op.peer, op.payload, op.nowMs).0;
      PingFrame(c.(ping := m));
      DrainPingTells(c, m);
      TellsAnnounces(c, DrainPing(c.(ping := m)));
      var queued := c.(app := c.app.(pendingPings := c.app.pendingPings[op.peer := op.payload]));
      QueueOpenGrows(queued, op.peer, PING_ID, PingKind);
    } else {
      QueueOpenGrows(c, op.peer, op.protocol, User(op.protocol));
    }
  }

  lemma TellsAnnounces(c: Core, d: Core)
    requires Tells(c, d, [])
    ensures Announces(c, d)
  {
    forall i | 0 <= i < |c.events|
      ensures d.events[i] == c.events[i]
    {
      assert d.events[..|c.events|][i] == d.events[i];
    }
    NoUsers(d.events[|c.events|..]);
    forall i | |c.events| <= i < |d.events|
      ensures !AboutUserStream(d.events[i]) && Plain(d.events[i])
    {
      assert d.events[|c.events|..][i - |c.events|] == d.events[i];
    }
  }

  lemma {:induction false} NoUsers(events: seq<Event>)
    ensures Users(events) == [] <==> forall i :: 0 <= i < |events| ==> !AboutUserStream(events[i])
  {
    if events != [] {
      NoUsers(events[1..]);
      assert forall i :: 0 < i < |events| ==> events[i] == events[1..][i - 1];
      assert forall i :: 0 <= i < |events[1..]| ==> events[1..][i] == events[i + 1];
    }
  }

  lemma TickGrows(c: Core, nowMs: u64, order: seq<PeerId>)
    requires Identify.Idle(c.identify)
    ensures var d := DrainIdentify(DrainPing(c.(ping := Ping.TickAll(c.ping, nowMs, order))));
            d.net == c.net && Announces(c, d)
  {
    hide DrainPing, DrainIdentify, Ping.TickAll, Tells;
    var m := Ping.TickAll(c.ping, nowMs, order);
    PingFrame(c.(ping := m));
    DrainPingTells(c, m);
    var c1 := DrainPing(c.(ping := m));
    DrainIdentifyTells(c1, c1.identify);
    TellsThen(c, c1, DrainIdentify(c1), []);
    TellsAnnounces(c, DrainIdentify(c1));
  }

  lemma CallNet(c: Core, op: Op)
    requires Negotiating(c.net)
    requires op.CallAddProtocol? || op.CallUser? || op.CallSetAddresses? || op.CallDisconnect? || op.Ignored?
             || op.TransportFails? || op.DriverReports? || op.IncomingConnection?
    requires Vouched(c.app)
    ensures Recedes(c.net, Step(c, op).net) && Announces(c, Step(c, op))
  {
    hide UserConns, Least, Recedes, Negotiating, Register, Upgrade, ConnClosed, StreamData, RemoteWriteClosed,
         StreamClosed, IncomingStream, StreamOpened, OpenFailed, DrainPing, DrainIdentify, PingPeer, OpenUserStream;
    RecedesSame(c.net, Step(c, op).net);
  }

  predicate OnStream(op: Op) {
    op.DataArrives? || op.WriteCloses? || op.StreamCloses? || op.StreamArrives? || op.DriverOpened? || op.DriverFailed?
  }

  /** Steps that are not about one stream move no stream and tell nothing of user streams. */
  lemma OtherStepRecedes(c: Core, env: Env, op: Op)
    requires Inv(c, env) && Negotiating(c.net) && Allowed(env, c, op) && !OnStream(op) && !op.PollOutput?
    ensures Recedes(c.net, Step(c, op).net) && Surfaces(c, Step(c, op))
    ensures !op.IdentityVerified? && !op.ConnectionCloses? ==> Announces(c, Step(c, op))
  {
    hide Inv, Register, Upgrade, ConnClosed, DrainPing, DrainIdentify, PingPeer, OpenUserStream, UserStreamCall,
         AddUserProtocol, Negotiating, Recedes;
    CounterStarted(c, env);
    InvVouched(c, env);
    match op {
      case Connected(id, who, addr) =>
        var c1 := Seen(Activate(c, id, true), id, addr);
        RecedesSame(c.net, c1.net);
        if who.Some? {
          ConnectedSound(c, env, id);
          SeenKeeps(c, env, id, addr);
          RegisterGrows(c1, env, id, who.value);
          RecedesThen(c.net, c1.net, Step(c, op).net);
        } else {
          RecedesSame(c.net, Step(c, op).net);
        }
      case IdentityVerified(id, who, addr) =>
        var c1 := Seen(c, id, addr);
        RecedesSame(c.net, c1.net);
        if who.Some? {
          SeenKeeps(c, env, id, addr);
          UpgradeGrows(c1, env, id, who.value);
          RecedesThen(c.net, c1.net, Step(c, op).net);
        }
      case ConnectionCloses(id) => ConnClosedGrows(c, env, id);
      case Ticks(nowMs, order) =>
        InvIdle(c, env);
        TickGrows(c, nowMs, order);
        RecedesSame(c.net, c.net);
      case CallPing(_, _, _) => CallGrows(c, op);
      case CallOpen(_, _) => CallGrows(c, op);
      case _ => CallNet(c, op);
    }
    if !op.IdentityVerified? && !op.ConnectionCloses? {
      AnnouncesSurfaces(c, Step(c, op));
    }
  }

  lemma StreamStepGrows(c: Core, env: Env, op: Op)
    requires Inv(c, env) && Negotiating(c.net)
    requires op.DataArrives? || op.WriteCloses? || op.StreamCloses?
    ensures OpensGrow(c.net, Step(c, op).net)
  {
    hide Inv, StreamData, RemoteWriteClosed, StreamClosed, Negotiating, Tells, PingReacts, IdentifyReacts;
    if op.DataArrives? {
      StreamDataElsewhere(c, env, op.id, op.stream, op.data, op.nowMs);
    } else if op.StreamCloses? {
      StreamClosedEffect(c, env, op.id, op.stream);
    } else if (op.id, op.stream) in c.net.owner {
      RemoteWriteClosedEffect(c, env, op.id, op.stream);
    } else {
      UnownedWriteCloses(c, op.id, op.stream);
    }
  }

  lemma UnownedWriteCloses(c: Core, conn: ConnId, stream: StreamId)
    requires (conn, stream) !in c.net.owner
    ensures RemoteWriteClosed(c, conn, stream) == c
  {
  }

  lemma OpenedGrows(c: Core, conn: ConnId, stream: StreamId, token: u64)
    ensures OpensGrow(c.net, IncomingStream(c, conn, stream).net)
    ensures OpensGrow(c.net, StreamOpened(c, conn, stream, token).net)
    ensures OpensGrow(c.net, OpenFailed(c, token).net)
  {
    hide Opened, Multistream.EncodeMessage;
  }

  lemma StepGrows(c: Core, env: Env, op: Op)
    requires Inv(c, env) && Negotiating(c.net) && Allowed(env, c, op)
    ensures OpensGrow(c.net, Step(c, op).net)
  {
    hide Inv, StreamData, RemoteWriteClosed, StreamClosed, IncomingStream, StreamOpened, OpenFailed, Negotiating,
         Register, Upgrade, ConnClosed, DrainPing, DrainIdentify, PingPeer, OpenUserStream, UserStreamCall,
         AddUserProtocol;
    match op {
      case DataArrives(_, _, _, _) => StreamStepGrows(c, env, op);
      case WriteCloses(_, _) => StreamStepGrows(c, env, op);
      case StreamCloses(_, _) => StreamStepGrows(c, env, op);
      case StreamArrives(id, stream) => OpenedGrows(c, id, stream, 0);
      case DriverOpened(id, stream, token) => OpenedGrows(c, id, stream, token);
      case DriverFailed(token) => OpenedGrows(c, 0, 0, token);
      case PollOutput =>
      case _ => OtherStepRecedes(c, env, op);
    }
  }

  lemma {:induction false} RunGrows(c: Core, env: Env, ops: seq<Op>)
    requires Inv(c, env) && Lawful(c, env, ops)
    ensures OpensGrow(c.net, Run(c, ops).net)
    decreases |ops|
  {
    hide Inv, Allowed, Next, Advance, Negotiating;
    if ops != [] {
      NextKeeps(c, env, ops[0]);
      StepGrows(c, env, ops[0]);
      RunGrows(Next(c, ops[0]), Advance(env, ops[0]), ops[1..]);
    }
  }

  lemma Resolves(c: Core, op: Op)
    requires Negotiating(c.net) && (op.DriverOpened? || op.DriverFailed?)
    ensures op.token !in Step(c, op).net.opens && Step(c, op).net.nextToken == c.net.nextToken
  {
    hide Opened, Multistream.EncodeMessage, Negotiating;
  }

  /** A token resolves at most one pending open: once the driver has reported it, opened or failed,
      then in every later state of every run another report of either kind opens nothing and is
      answered with a fault. */
  lemma TokenResolvedOnce(c: Core, env: Env, op: Op, ops: seq<Op>, conn: ConnId, stream: StreamId)
    requires Inv(c, env) && (op.DriverOpened? || op.DriverFailed?) && op.token < c.net.nextToken
    requires Lawful(c, env, [op] + ops)
    ensures var later := Run(Next(c, op), ops);
            && StreamOpened(later, conn, stream, op.token) == Fault(later, DriverFault, None, None)
            && OpenFailed(later, op.token) == Fault(later, OpenStreamFault, None, None)
  {
    hide Inv, Allowed, Run, Advance, Negotiating, Step;
    var all := [op] + ops;
    assert all[0] == op && all[1..] == ops;
    NextKeeps(c, env, op);
    var d := Next(c, op);
    Resolves(c, op);
    RunGrows(d, Advance(env, op), ops);
  }
}

/** The stateful swarm core (crates/swarm/src/core.rs:92-1577), every method proved to be the
    corresponding value-level step. */
module SwarmObject {
  import opened Bytes
  import opened Ids
  import opened Swarm
  import SwarmInvariant
  import SwarmSteps
  import Multistream
  import Ping
  import Identify
  import IdentifyMessage

  class SwarmCore {
    const ping: Ping.PingProtocol
    const identify: Identify.IdentifyProtocol
    var connToPeer: map<ConnId, PeerId>
    var peerToConn: map<PeerId, ConnId>
    var activeConnections: map<ConnId, bool>
    var connToRemoteAddr: map<ConnId, Blob>
    var inboundNegotiators: map<Key, Multistream.Select>
    var outboundNegotiators: map<Key, PendingOutbound>
    var streamOwner: map<Key, Kind>
    var pendingOpens: map<u64, PendingOpen>
    var nextOpenToken: u64
    var supportedProtocols: seq<Blob>
    var userProtocols: seq<Blob>
    var pendingPings: map<PeerId, Blob>
    var localAddresses: seq<Blob>
    var peerInfo: map<PeerId, IdentifyMessage.Info>
    var readyPeers: set<PeerId>
    var establishedPeers: set<PeerId>
    var events: seq<Event>
    var actions: seq<Action>

    /** What the transport has reported so far. */
    ghost var env: SwarmInvariant.Env

    ghost function Tables(): Net
      reads this
    {
      Net(connToPeer, peerToConn, activeConnections, connToRemoteAddr, inboundNegotiators, outboundNegotiators,
          streamOwner, pendingOpens, nextOpenToken)
    }

    ghost function View(): Core
      reads this, ping, identify
    {
      Core(Tables(),
           App(supportedProtocols, userProtocols, pendingPings, localAddresses, peerInfo, readyPeers, establishedPeers),
           ping.View(), identify.View(), events, actions)
    }

    ghost predicate Valid()
      reads this, ping, identify
    {
      SwarmInvariant.Inv(View(), env)
    }

    constructor (config: Identify.Config, pingTimeoutMs: u64)
      ensures Valid() && fresh(ping) && fresh(identify)
      ensures View() == New(config, pingTimeoutMs) && env == SwarmInvariant.Env({}, {}, {})
    {
      ping := new Ping.PingProtocol(pingTimeoutMs);
      identify := new Identify.IdentifyProtocol(config);
      connToPeer, peerToConn, activeConnections, connToRemoteAddr := map[], map[], map[], map[];
      inboundNegotiators, outboundNegotiators, streamOwner, pendingOpens := map[], map[], map[], map[];
      nextOpenToken := 1;
      supportedProtocols, userProtocols := [IDENTIFY_ID, PING_ID], [];
      pendingPings, localAddresses, peerInfo, readyPeers, establishedPeers := map[], [], map[], {}, {};
      events, actions := [], [];
      env := SwarmInvariant.Env({}, {}, {});
      new;
      SwarmInvariant.InvNew(config, pingTimeoutMs);
    }

    // ------------------------------------------------------------------------ small helpers

    method EmitError(kind: ErrorKind, peer: Option<PeerId>, conn: Option<ConnId>)
      modifies this
      ensures View() == Fault(old(View()), kind, peer, conn) && env == old(env)
    {
      events := events + [RuntimeError(kind, peer, conn)];
    }

    method EstablishedPeerForConn(conn: ConnId) returns (peer: Option<PeerId>)
      ensures peer == EstablishedPeer(View(), conn)
    {
      if conn !in connToPeer {
        return None;
      }
      if connToPeer[conn] in establishedPeers {
        return Some(connToPeer[conn]);
      }
      return None;
    }

    method TryEmitPeerReady(peer: PeerId)
      modifies this
      ensures View() == TryReady(old(View()), peer) && env == old(env)
    {
      if peer in readyPeers {
        return;
      }
      if peer !in peerInfo {
        return;
      }
      if peer !in peerToConn {
        return;
      }
      readyPeers := readyPeers + {peer};
      events := events + [PeerReady(peer, peerInfo[peer].protocols)];
    }

    /** A wrapping counter that skips zero. */
    method TakeOpenToken() returns (token: u64)
      modifies this
      ensures token == NextToken(old(nextOpenToken)).0 && token != 0
      ensures View() == old(View()).(net := old(View()).net.(nextToken := NextToken(old(nextOpenToken)).1))
      ensures env == old(env)
    {
      while true
        invariant View() == old(View()).(net := old(View()).net.(nextToken := nextOpenToken)) && env == old(env)
        invariant NextToken(nextOpenToken) == NextToken(old(nextOpenToken))
        decreases nextOpenToken == 0
      {
        token := nextOpenToken;
        nextOpenToken := (nextOpenToken + 1) % TWO_64;
        if token != 0 {
          return;
        }
      }
    }

    method QueueOpenProtocolStream(peer: PeerId, protocol: Blob, target: Kind) returns (error: Option<CallError>)
      requires OpenAsserts(Tables(), peer)
      modifies this
      ensures (View(), error) == QueueOpen(old(View()), peer, protocol, target) && env == old(env)
    {
      if peer !in peerToConn {
        return Some(NotConnected);
      }
      var conn := peerToConn[peer];
      assert conn in connToPeer && connToPeer[conn] == peer;
      var token := TakeOpenToken();
      pendingOpens := pendingOpens[token := PendingOpen(conn, protocol, target)];
      actions := actions + [OpenStream(conn, token)];
      return None;
    }

    method EnsurePeerIdForConn(conn: ConnId) returns (peer: PeerId)
      modifies this
      ensures peer == PeerOf(old(Tables()), conn)
      ensures View() == old(View()).(net := Ensure(old(Tables()), conn)) && env == old(env)
    {
      if conn in connToPeer {
        return connToPeer[conn];
      }
      peer := Placeholder(conn);
      connToPeer := connToPeer[conn := peer];
      peerToConn := peerToConn[peer := conn];
    }

    // -------------------------------------------------------- outputs of the embedded machines

    method ExecutePingAction(action: Ping.Action)
      modifies this
      ensures View() == ExecutePing(old(View()), action) && env == old(env)
    {
      var found := ConnForOwned(
        Net(connToPeer, peerToConn, activeConnections, connToRemoteAddr, inboundNegotiators, outboundNegotiators,
            streamOwner, pendingOpens, nextOpenToken), action.peer, action.stream, PingKind);
      if found.Some? {
        match action {
          case Send(_, stream, data) => actions := actions + [SendStream(found.value, stream, data)];
          case CloseStreamWrite(_, stream) => actions := actions + [CloseStreamWrite(found.value, stream)];
          case ResetStream(_, stream) => actions := actions + [ResetStream(found.value, stream)];
        }
      }
    }

    method OnPingEvent(event: Ping.Event)
      modifies this
      ensures View() == HandlePingEvent(old(View()), event) && env == old(env)
    {
      match event {
        case RttMeasured(peer, _, rtt) => events := events + [PingRttMeasured(peer, rtt)];
        case Timeout(peer, _, _) => events := events + [PingTimeout(peer)];
        case ProtocolViolation(peer, _, _) =>
          EmitError(PingFault, Some(peer), if peer in peerToConn then Some(peerToConn[peer]) else None);
        case _ =>
      }
    }

    method DrainPingOutputs()
      modifies this, ping
      ensures View() == DrainPing(old(View())) && env == old(env)
    {
      while true
        invariant DrainPing(View()) == DrainPing(old(View())) && env == old(env)
        decreases |ping.pendingActions| + |ping.pendingEvents|
      {
        ghost var here := View();
        var output := ping.PollOutput();
        match output {
          case None => return;
          case Some(Act(action)) => ExecutePingAction(action);
          case Some(Tell(event)) => OnPingEvent(event);
        }
      }
    }

    method ExecuteIdentifyAction(action: Identify.Action)
      modifies this
      ensures View() == ExecuteIdentify(old(View()), action) && env == old(env)
    {
      if action.peer in peerToConn {
        var conn := peerToConn[action.peer];
        match action {
          case Send(_, stream, data) => actions := actions + [SendStream(conn, stream, data)];
          case CloseStreamWrite(_, stream) => actions := actions + [CloseStreamWrite(conn, stream)];
        }
      }
    }

    method OnIdentifyEvent(event: Identify.Event)
      modifies this
      ensures View() == HandleIdentifyEvent(old(View()), event) && env == old(env)
    {
      match event {
        case Received(peer, info) =>
          peerInfo := peerInfo[peer := info];
          events := events + [IdentifyReceived(peer, info)];
          TryEmitPeerReady(peer);
        case Failed(_, _) => EmitError(IdentifyFault, None, None);
      }
    }

    method DrainIdentifyOutputs()
      modifies this, identify
      ensures View() == DrainIdentify(old(View())) && env == old(env)
    {
      while true
        invariant DrainIdentify(View()) == DrainIdentify(old(View())) && env == old(env)
        decreases |identify.actions| + |identify.events|
      {
        var output := identify.PollOutput();
        match output {
          case None => return;
          case Some(Act(action)) => ExecuteIdentifyAction(action);
          case Some(Tell(event)) => OnIdentifyEvent(event);
        }
      }
    }

    method TellPing(input: Ping.Input)
      modifies this, ping
      ensures View() == FeedPing(old(View()), input) && env == old(env)
    {
      var _ := ping.HandleInput(input);
      DrainPingOutputs();
    }

    method TellIdentify(input: Identify.Input)
      modifies this, identify
      ensures View() == FeedIdentify(old(View()), input) && env == old(env)
    {
      var _ := identify.HandleInput(input);
      DrainIdentifyOutputs();
    }

    // ------------------------------------------------------------------ connection lifecycle

    ghost predicate Quiet()
      reads this, ping, identify
    {
      Ping.Idle(ping.View()) && Identify.Idle(identify.View())
    }

    method ForgetConnection(conn: ConnId)
      modifies this
      ensures View() == old(View()).(net := old(Tables()).(active := old(activeConnections) - {conn},
                                                           remoteAddr := old(connToRemoteAddr) - {conn}))
      ensures env == old(env)
    {
      activeConnections := activeConnections - {conn};
      connToRemoteAddr := connToRemoteAddr - {conn};
    }

    method RetainOtherNegotiators(conn: ConnId)
      modifies this
      ensures View() == old(View()).(net := old(Tables()).(inbound := Elsewhere(old(inboundNegotiators), conn),
                                                           outbound := Elsewhere(old(outboundNegotiators), conn)))
      ensures env == old(env)
    {
      inboundNegotiators := Elsewhere(inboundNegotiators, conn);
      outboundNegotiators := Elsewhere(outboundNegotiators, conn);
    }

    method ForgetStreams(conn: ConnId)
      modifies this
      ensures View() == old(View()).(net := Purge(old(Tables()), conn)) && env == old(env)
    {
      hide Elsewhere, OpensElsewhere;
      ForgetConnection(conn);
      streamOwner := Elsewhere(streamOwner, conn);
      RetainOtherNegotiators(conn);
      pendingOpens := OpensElsewhere(pendingOpens, conn);
    }

    method RemoveFromMachines(peer: PeerId)
      requires Quiet()
      modifies this, ping, identify
      ensures View() == old(View()).(ping := Ping.Remove(old(ping.View()), peer),
                                     identify := Identify.Remove(old(identify.View()), peer))
      ensures Quiet() && env == old(env)
    {
      var _ := ping.HandleInput(Ping.RemovePeer(peer));
      var _ := identify.HandleInput(Identify.RemovePeer(peer));
      SwarmInvariant.IdlePing(View());
      DrainPingOutputs();
      SwarmInvariant.IdleIdentify(View());
      DrainIdentifyOutputs();
    }

    method ForgetReadiness(peer: PeerId)
      modifies this
      ensures var app := old(View()).app;
              View() == old(View()).(app := app.(peerInfo := app.peerInfo - {peer}, ready := app.ready - {peer},
                                                 established := app.established - {peer}))
      ensures env == old(env)
    {
      peerInfo := peerInfo - {peer};
      readyPeers := readyPeers - {peer};
      establishedPeers := establishedPeers - {peer};
    }

    /** The queued ping of a superseded peer outlives the removal. */
    method RemoveButKeepPing(peer: PeerId)
      requires Quiet()
      modifies this, ping, identify
      ensures View() == old(View()).(ping := Ping.Remove(old(ping.View()), peer),
                                     identify := Identify.Remove(old(identify.View()), peer))
      ensures Quiet() && env == old(env)
    {
      var pending := if peer in pendingPings then Some(pendingPings[peer]) else None;
      pendingPings := pendingPings - {peer};
      RemoveFromMachines(peer);
      if pending.Some? {
        pendingPings := pendingPings[peer := pending.value];
      }
      assert pendingPings == old(pendingPings);
    }

    method SupersedeConnection(conn: ConnId)
      requires Quiet()
      modifies this, ping, identify
      ensures View() == Supersede(old(View()), conn) && Quiet() && env == old(env)
    {
      hide Purge, ForgetPeer;
      if conn in connToPeer {
        var peer := connToPeer[conn];
        connToPeer := connToPeer - {conn};
        SwarmInvariant.ForgetForm(View(), peer);
        RemoveButKeepPing(peer);
        ForgetReadiness(peer);
      }
      ForgetStreams(conn);
      actions := actions + [CloseConnection(conn)];
    }

    method RegisterConnection(conn: ConnId, peer: PeerId)
      requires Quiet()
      modifies this, ping, identify
      ensures View() == Register(old(View()), conn, peer) && env == old(env)
    {
      var isNew := conn !in connToPeer;
      if peer in peerToConn && peerToConn[peer] != conn {
        SupersedeConnection(peerToConn[peer]);
      }
      NameConnection(conn, peer);
      if isNew {
        AnnounceConnection(conn, peer);
      }
    }

    method NameConnection(conn: ConnId, peer: PeerId)
      modifies this
      ensures View() == old(View()).(net := Bind(old(Tables()), conn, peer)) && env == old(env)
    {
      connToPeer := connToPeer[conn := peer];
      peerToConn := peerToConn[peer := conn];
    }

    method AnnounceConnection(conn: ConnId, peer: PeerId)
      requires OpenAsserts(Tables(), peer)
      modifies this
      ensures View() == Announce(old(View()), conn, peer) && env == old(env)
    {
      hide ReopenPing;
      establishedPeers := establishedPeers + {peer};
      events := events + [ConnectionEstablished(peer)];
      var e := QueueOpenProtocolStream(peer, IDENTIFY_ID, IdentifyInitiator);
      if e.Some? {
        EmitError(IdentifyFault, Some(peer), Some(conn));
      }
      ReopenPendingPing(conn, peer);
    }

    method ReopenPendingPing(conn: ConnId, peer: PeerId)
      requires OpenAsserts(Tables(), peer)
      modifies this
      ensures View() == ReopenPing(old(View()), conn, peer) && env == old(env)
    {
      hide QueueOpen, HasPendingPing;
      if peer in pendingPings && (peer !in ping.peers || ping.peers[peer].outbound.None?) {
        var pending := HasPendingPingStream(peer);
        if !pending {
          var e := QueueOpenProtocolStream(peer, PING_ID, PingKind);
          if e.Some? {
            EmitError(PingFault, Some(peer), Some(conn));
          }
        }
      }
    }

    method HasPendingPingStream(peer: PeerId) returns (pending: bool)
      ensures pending == HasPendingPing(Tables(), peer)
    {
      if peer !in peerToConn {
        return false;
      }
      var conn := peerToConn[peer];
      if exists k :: k in outboundNegotiators && k.0 == conn && outboundNegotiators[k].target.PingKind? {
        return true;
      }
      return exists t :: t in pendingOpens && pendingOpens[t].conn == conn && pendingOpens[t].target.PingKind?;
    }

    method MigrateBufferedEvents(from: PeerId, to: PeerId)
      modifies this
      ensures View() == old(View()).(events := RenameEvents(old(events), from, to)) && env == old(env)
    {
      var i := 0;
      while i < |events|
        invariant 0 <= i <= |events| == |old(events)|
        invariant forall j :: 0 <= j < |events| ==>
                    events[j] == if j < i then RenameEvent(old(events)[j], from, to) else old(events)[j]
        invariant View() == old(View()).(events := events) && env == old(env)
      {
        if events[i].RuntimeError? {
          if events[i].errorPeer == Some(from) {
            events := events[i := events[i].(errorPeer := Some(to))];
          }
        } else if events[i].peer == from {
          events := events[i := events[i].(peer := to)];
        }
        i := i + 1;
      }
    }

    method RekeyPeer(from: PeerId, to: PeerId)
      requires Quiet()
      modifies this, ping, identify
      ensures View() == Rekey(old(View()), from, to) && Quiet() && env == old(env)
    {
      hide Rekey, RenameEvents, DrainPing, DrainIdentify, Ping.Migrate, Identify.Migrate, Moved, MovedIn;
      SwarmInvariant.RekeyForm(View(), from, to);
      peerToConn := peerToConn - {from};
      var _ := ping.HandleInput(Ping.MigratePeer(from, to));
      var _ := identify.HandleInput(Identify.MigratePeer(from, to));
      SwarmInvariant.IdlePing(View());
      DrainPingOutputs();
      SwarmInvariant.IdleIdentify(View());
      DrainIdentifyOutputs();
      MovePeerRecords(from, to);
      MoveReadiness(from, to);
      MigrateBufferedEvents(from, to);
    }

    method MovePeerRecords(from: PeerId, to: PeerId)
      modifies this
      ensures View() == old(View()).(app := old(View()).app.(pendingPings := Moved(old(pendingPings), from, to),
                                                             peerInfo := Moved(old(peerInfo), from, to)))
      ensures env == old(env)
    {
      if from in pendingPings {
        pendingPings := (pendingPings - {from})[to := pendingPings[from]];
      }
      if from in peerInfo {
        peerInfo := (peerInfo - {from})[to := peerInfo[from]];
      }
    }

    method MoveReadiness(from: PeerId, to: PeerId)
      modifies this
      ensures View() == old(View()).(app := old(View()).app.(ready := MovedIn(old(readyPeers), from, to),
                                                             established := MovedIn(old(establishedPeers), from, to)))
      ensures env == old(env)
    {
      if from in readyPeers {
        readyPeers := readyPeers - {from} + {to};
      }
      if from in establishedPeers {
        establishedPeers := establishedPeers - {from} + {to};
      }
    }

    method UpgradeConnectionIdentity(conn: ConnId, peer: PeerId)
      requires Quiet()
      modifies this, ping, identify
      ensures View() == Upgrade(old(View()), conn, peer) && env == old(env)
    {
      hide Rekey, QueueOpen, TryReady;
      if conn in connToPeer {
        if connToPeer[conn] == peer {
          return;
        }
        RekeyPeer(connToPeer[conn], peer);
      }
      NameConnection(conn, peer);
      establishedPeers := establishedPeers + {peer};
      events := events + [ConnectionEstablished(peer)];
      SwarmInvariant.TryReadyNet(View(), peer);
      TryEmitPeerReady(peer);
      var e := QueueOpenProtocolStream(peer, IDENTIFY_ID, IdentifyInitiator);
      if e.Some? {
        EmitError(IdentifyFault, Some(peer), Some(conn));
      }
    }

    method DropPendingPing(peer: PeerId)
      modifies this
      ensures View() == old(View()).(app := old(View()).app.(pendingPings := old(pendingPings) - {peer}))
      ensures env == old(env)
    {
      pendingPings := pendingPings - {peer};
    }

    method OnPeerGone(peer: PeerId)
      requires Quiet()
      modifies this, ping, identify
      ensures View() == PeerGone(old(View()), peer) && env == old(env)
    {
      hide ForgetPeer;
      peerToConn := peerToConn - {peer};
      SwarmInvariant.ForgetForm(View(), peer);
      RemoveFromMachines(peer);
      DropPendingPing(peer);
      ForgetReadiness(peer);
      events := events + [ConnectionClosed(peer)];
    }

    method OnConnectionClosed(conn: ConnId)
      requires Quiet()
      modifies this, ping, identify
      ensures View() == ConnClosed(old(View()), conn) && env == old(env)
    {
      hide Purge, PeerGone;
      ForgetConnection(conn);
      if conn in connToPeer {
        var peer := connToPeer[conn];
        connToPeer := connToPeer - {conn};
        if peer in peerToConn && peerToConn[peer] == conn {
          OnPeerGone(peer);
        }
      }
      ForgetStreams(conn);
    }

    // ---------------------------------------------------------------------- stream lifecycle

    method HandleIncomingStream(conn: ConnId, stream: StreamId)
      modifies this
      ensures View() == IncomingStream(old(View()), conn, stream) && env == old(env)
    {
      hide Multistream.EncodeMessage;
      var key := (conn, stream);
      var listener := Multistream.Start(Multistream.New(Multistream.Listener(set p | p in supportedProtocols)));
      inboundNegotiators := inboundNegotiators[key := listener.(pending := [])];
      var i := 0;
      while i < |listener.pending|
        invariant i <= |listener.pending| == 1
        invariant env == old(env)
        invariant View() == if i == 0 then old(View()).(net := Tables()) else IncomingStream(old(View()), conn, stream)
        invariant Tables() == old(Tables()).(inbound := old(inboundNegotiators)[key := listener.(pending := [])])
      {
        var _, _ := HandleMultistreamOutput(conn, stream, listener.pending[i]);
        i := i + 1;
      }
    }

    method HandleStreamOpened(conn: ConnId, stream: StreamId, token: u64)
      modifies this
      ensures View() == StreamOpened(old(View()), conn, stream, token) && env == old(env)
    {
      hide Multistream.EncodeMessage, EstablishedPeer;
      if token !in pendingOpens {
        EmitError(DriverFault, None, None);
        return;
      }
      var open := pendingOpens[token];
      pendingOpens := pendingOpens - {token};
      if open.conn != conn {
        var peer := EstablishedPeerForConn(conn);
        EmitError(DriverFault, peer, Some(conn));
        return;
      }
      var negotiator := Multistream.Start(Multistream.New(Multistream.Dialer(open.protocol)));
      var i := 0;
      while i < |negotiator.pending|
        invariant i <= |negotiator.pending| == 1
        invariant env == old(env)
        invariant Tables() == old(Tables()).(opens := old(pendingOpens) - {token})
        invariant View() == (if i == 0 then old(View()) else SendHeader(old(View()), conn, stream)).(net := Tables())
      {
        var _, _ := HandleMultistreamOutput(conn, stream, negotiator.pending[i]);
        i := i + 1;
      }
      outboundNegotiators :=
        outboundNegotiators[(conn, stream) := PendingOutbound(negotiator.(pending := []), open.target)];
    }

    method HandleOpenStreamFailed(token: u64)
      modifies this
      ensures View() == OpenFailed(old(View()), token) && env == old(env)
    {
      if token in pendingOpens {
        var conn := pendingOpens[token].conn;
        pendingOpens := pendingOpens - {token};
        var peer := EstablishedPeerForConn(conn);
        EmitError(OpenStreamFault, peer, Some(conn));
      } else {
        EmitError(OpenStreamFault, None, None);
      }
    }

    /** Carries out one negotiation output; tells what was agreed on and whether the stream is lost. */
    method HandleMultistreamOutput(conn: ConnId, stream: StreamId, output: Multistream.Output)
      returns (agreed: Option<Blob>, lost: bool)
      modifies this
      ensures env == old(env)
      ensures agreed == (if output.Negotiated? then Some(output.protocol) else None)
      ensures lost == (output.NotAvailable? || output.ProtocolError?)
      ensures View() == match output
                        case OutboundData(bytes) => Do(old(View()), SendStream(conn, stream, bytes))
                        case ProtocolError(_) =>
                          Fault(old(View()), MultistreamFault, EstablishedPeer(old(View()), conn), Some(conn))
                        case _ => old(View())
    {
      match output {
        case OutboundData(bytes) =>
          actions := actions + [SendStream(conn, stream, bytes)];
          return None, false;
        case Negotiated(protocol) =>
          return Some(protocol), false;
        case NotAvailable =>
          return None, true;
        case ProtocolError(_) =>
          var peer := EstablishedPeerForConn(conn);
          EmitError(MultistreamFault, peer, Some(conn));
          return None, true;
      }
    }

    method DispatchProtocolData(conn: ConnId, stream: StreamId, data: Blob, nowMs: u64)
      modifies this, ping, identify
      ensures View() == Dispatch(old(View()), conn, stream, data, nowMs) && env == old(env)
    {
      hide FeedPing, FeedIdentify;
      if (conn, stream) !in streamOwner {
        return;
      }
      var protocol := streamOwner[(conn, stream)];
      var peer := EnsurePeerIdForConn(conn);
      match protocol {
        case PingKind => TellPing(Ping.StreamData(peer, stream, data, nowMs));
        case IdentifyInitiator => TellIdentify(Identify.StreamData(peer, stream, data));
        case IdentifyResponder =>
        case User(_) => events := events + [UserStreamData(peer, stream, data)];
      }
    }

    method HandleStreamRemoteWriteClosed(conn: ConnId, stream: StreamId)
      modifies this, ping, identify
      ensures View() == RemoteWriteClosed(old(View()), conn, stream) && env == old(env)
    {
      hide FeedPing, FeedIdentify;
      if (conn, stream) !in streamOwner {
        return;
      }
      var protocol := streamOwner[(conn, stream)];
      var peer := EnsurePeerIdForConn(conn);
      match protocol {
        case PingKind => TellPing(Ping.StreamRemoteWriteClosed(peer, stream));
        case IdentifyInitiator => TellIdentify(Identify.StreamRemoteWriteClosed(peer, stream));
        case IdentifyResponder =>
        case User(_) => events := events + [UserStreamRemoteWriteClosed(peer, stream)];
      }
    }

    method DropNegotiators(key: Key)
      modifies this
      ensures View() == old(View()).(net := old(Tables()).(inbound := old(inboundNegotiators) - {key},
                                                           outbound := old(outboundNegotiators) - {key}))
      ensures env == old(env)
    {
      inboundNegotiators := inboundNegotiators - {key};
      outboundNegotiators := outboundNegotiators - {key};
    }

    method ReportStreamClosed(protocol: Kind, peer: PeerId, stream: StreamId)
      modifies this, ping, identify
      ensures View() == Closing(old(View()), protocol, peer, stream) && env == old(env)
    {
      hide FeedPing, FeedIdentify;
      match protocol {
        case PingKind => TellPing(Ping.StreamClosed(peer, stream));
        case IdentifyInitiator => TellIdentify(Identify.StreamClosed(peer, stream));
        case IdentifyResponder => TellIdentify(Identify.StreamClosed(peer, stream));
        case User(_) => events := events + [UserStreamClosed(peer, stream)];
      }
    }

    method HandleStreamClosed(conn: ConnId, stream: StreamId)
      modifies this, ping, identify
      ensures View() == StreamClosed(old(View()), conn, stream) && env == old(env)
    {
      hide Closing;
      var key := (conn, stream);
      if key in streamOwner {
        var protocol := streamOwner[key];
        streamOwner := streamOwner - {key};
        if conn in connToPeer {
          ReportStreamClosed(protocol, connToPeer[conn], stream);
        }
      } else {
        assert streamOwner - {key} == streamOwner;
      }
      DropNegotiators(key);
    }

    // -------------------------------------------------------------------------- negotiation

    method OnInboundNegotiated(conn: ConnId, stream: StreamId, protocol: Blob)
      modifies this, ping, identify
      ensures View() == InboundNegotiated(old(View()), conn, stream, protocol) && env == old(env)
    {
      hide FeedPing, InboundIdentify;
      var peer := EnsurePeerIdForConn(conn);
      if protocol == PING_ID {
        streamOwner := streamOwner[(conn, stream) := PingKind];
        TellPing(Ping.RegisterInboundStream(peer, stream));
        return;
      }
      if protocol == IDENTIFY_ID {
        OnInboundIdentify(conn, stream, peer);
        return;
      }
      if protocol in userProtocols {
        streamOwner := streamOwner[(conn, stream) := User(protocol)];
        events := events + [UserStreamReady(peer, stream, protocol, false)];
      }
    }

    method OnInboundIdentify(conn: ConnId, stream: StreamId, peer: PeerId)
      modifies this, identify
      ensures View() == InboundIdentify(old(View()), conn, stream, peer) && env == old(env)
    {
      hide DrainIdentify, Identify.RegisterOutbound;
      var observed := if conn in connToRemoteAddr then Some(connToRemoteAddr[conn]) else None;
      var e := identify.HandleInput(Identify.RegisterOutboundStream(peer, stream, observed, localAddresses));
      if e.None? {
        streamOwner := streamOwner[(conn, stream) := IdentifyResponder];
        DrainIdentifyOutputs();
      } else {
        RefusedUnchanged(old(identify.View()), peer, stream, observed, localAddresses);
        EmitError(IdentifyStreamRejected, Some(peer), Some(conn));
        actions := actions + [ResetStream(conn, stream)];
      }
    }

    static lemma RefusedUnchanged(m: Identify.Machine, peer: PeerId, stream: StreamId, observed: Option<Blob>,
                                  listen: seq<Blob>)
      ensures Identify.RegisterOutbound(m, peer, stream, observed, listen).1.Some? ==>
                Identify.RegisterOutbound(m, peer, stream, observed, listen).0 == m
    {
    }

    method OnOutboundNegotiated(conn: ConnId, stream: StreamId, target: Kind, nowMs: u64)
      modifies this, ping, identify
      ensures View() == OutboundNegotiated(old(View()), conn, stream, target, nowMs) && env == old(env)
    {
      hide OutboundPing, FeedIdentify;
      var peer := EnsurePeerIdForConn(conn);
      streamOwner := streamOwner[(conn, stream) := target];
      match target {
        case PingKind => OnOutboundPing(conn, stream, peer, nowMs);
        case IdentifyInitiator => TellIdentify(Identify.RegisterInboundStream(peer, stream));
        case IdentifyResponder =>
        case User(protocol) => events := events + [UserStreamReady(peer, stream, protocol, true)];
      }
    }

    method OnOutboundPing(conn: ConnId, stream: StreamId, peer: PeerId, nowMs: u64)
      modifies this, ping
      ensures View() == OutboundPing(old(View()), conn, stream, peer, nowMs) && env == old(env)
    {
      hide DrainPing, Ping.RegisterOutbound, Ping.SendOne;
      PingRefusals(ping.View(), peer, stream);
      var e := ping.HandleInput(Ping.RegisterOutboundStream(peer, stream));
      if e.Some? {
        EmitError(PingFault, Some(peer), Some(conn));
        streamOwner := streamOwner - {(conn, stream)};
        actions := actions + [ResetStream(conn, stream)];
        return;
      }
      DrainPingOutputs();
      if peer in pendingPings {
        FireQueuedPing(conn, peer, nowMs);
      }
    }

    method FireQueuedPing(conn: ConnId, peer: PeerId, nowMs: u64)
      requires peer in pendingPings
      modifies this, ping
      ensures var c, payload := old(View()), old(pendingPings[peer]);
              var taken := c.(app := c.app.(pendingPings := c.app.pendingPings - {peer}));
              var (m, e) := Ping.SendOne(c.ping, peer, payload, nowMs);
              View() == if e.None? then DrainPing(taken.(ping := m))
                        else Fault(taken, PingFault, Some(peer), Some(conn))
      ensures env == old(env)
    {
      hide DrainPing, Ping.SendOne;
      var payload := pendingPings[peer];
      pendingPings := pendingPings - {peer};
      SendRefusals(ping.View(), peer, payload, nowMs);
      var e := ping.HandleInput(Ping.SendPing(peer, payload, nowMs));
      if e.None? {
        DrainPingOutputs();
      } else {
        EmitError(PingFault, Some(peer), Some(conn));
      }
    }

    static lemma PingRefusals(m: Ping.Machine, peer: PeerId, stream: StreamId)
      ensures Ping.RegisterOutbound(m, peer, stream).1.Some? ==> Ping.RegisterOutbound(m, peer, stream).0 == m
    {
    }

    static lemma SendRefusals(m: Ping.Machine, peer: PeerId, payload: Blob, nowMs: u64)
      ensures Ping.SendOne(m, peer, payload, nowMs).1.Some? ==> Ping.SendOne(m, peer, payload, nowMs).0 == m
    {
    }

    method RejectInbound(conn: ConnId, stream: StreamId)
      modifies this
      ensures var gone := old(View()).(net := old(Tables()).(inbound := old(inboundNegotiators) - {(conn, stream)}));
              View() == Do(gone, ResetStream(conn, stream))
      ensures env == old(env)
    {
      inboundNegotiators := inboundNegotiators - {(conn, stream)};
      actions := actions + [ResetStream(conn, stream)];
    }

    method FeedInboundNegotiator(conn: ConnId, stream: StreamId, data: Blob, nowMs: u64)
      requires (conn, stream) in inboundNegotiators && inboundNegotiators[(conn, stream)].Valid()
      modifies this, ping, identify
      ensures View() == FeedInbound(old(View()), conn, stream, data, nowMs) && env == old(env)
    {
      hide Multistream.Receive, InboundNegotiated, Dispatch;
      var key := (conn, stream);
      var n := Multistream.Receive(inboundNegotiators[key], data);
      inboundNegotiators := inboundNegotiators[key := n.(pending := [])];
      var i, negotiated := 0, None;
      ghost var goal := Play(View(), conn, stream, n.pending, None, None);
      while i < |n.pending|
        invariant 0 <= i <= |n.pending| && env == old(env)
        invariant Play(View(), conn, stream, n.pending[i..], negotiated, None) == goal
      {
        ghost var rest := n.pending[i..];
        assert rest[0] == n.pending[i] && rest[1..] == n.pending[i + 1..];
        var agreed, lost := HandleMultistreamOutput(conn, stream, n.pending[i]);
        if lost {
          assert View() == goal.core && goal.aborted;
          RejectInbound(conn, stream);
          return;
        }
        if agreed.Some? {
          negotiated := agreed;
        }
        i := i + 1;
      }
      assert View() == goal.core && !goal.aborted && goal.agreed == negotiated;
      if negotiated.Some? {
        var remaining := n.recvBuf;
        inboundNegotiators := inboundNegotiators - {key};
        OnInboundNegotiated(conn, stream, negotiated.value);
        if remaining != [] {
          DispatchProtocolData(conn, stream, remaining, nowMs);
        }
      }
    }

    method RejectOutbound(conn: ConnId, stream: StreamId)
      modifies this
      ensures var gone := old(View()).(net := old(Tables()).(outbound := old(outboundNegotiators) - {(conn, stream)}));
              View() == Do(gone, ResetStream(conn, stream))
      ensures env == old(env)
    {
      outboundNegotiators := outboundNegotiators - {(conn, stream)};
      actions := actions + [ResetStream(conn, stream)];
    }

    method FeedOutboundNegotiator(conn: ConnId, stream: StreamId, data: Blob, nowMs: u64)
      requires (conn, stream) in outboundNegotiators && outboundNegotiators[(conn, stream)].negotiator.Valid()
      modifies this, ping, identify
      ensures View() == FeedOutbound(old(View()), conn, stream, data, nowMs) && env == old(env)
    {
      hide Multistream.Receive, OutboundNegotiated, Dispatch;
      var key, pending := (conn, stream), outboundNegotiators[(conn, stream)];
      var n := Multistream.Receive(pending.negotiator, data);
      outboundNegotiators := outboundNegotiators[key := pending.(negotiator := n.(pending := []))];
      var i, negotiated := 0, false;
      ghost var agreed: Option<Blob> := None;
      ghost var goal := Play(View(), conn, stream, n.pending, None, Some(UnsupportedProtocol));
      while i < |n.pending|
        invariant 0 <= i <= |n.pending| && env == old(env)
        invariant negotiated == agreed.Some?
        invariant Play(View(), conn, stream, n.pending[i..], agreed, Some(UnsupportedProtocol)) == goal
      {
        ghost var rest := n.pending[i..];
        assert rest[0] == n.pending[i] && rest[1..] == n.pending[i + 1..];
        if n.pending[i].NotAvailable? {
          var peer := EstablishedPeerForConn(conn);
          EmitError(UnsupportedProtocol, peer, Some(conn));
          assert View() == goal.core && goal.aborted;
          RejectOutbound(conn, stream);
          return;
        }
        var told, lost := HandleMultistreamOutput(conn, stream, n.pending[i]);
        if lost {
          assert View() == goal.core && goal.aborted;
          RejectOutbound(conn, stream);
          return;
        }
        if told.Some? {
          negotiated, agreed := true, told;
        }
        i := i + 1;
      }
      assert View() == goal.core && !goal.aborted && goal.agreed == agreed;
      if negotiated {
        var remaining := n.recvBuf;
        outboundNegotiators := outboundNegotiators - {key};
        OnOutboundNegotiated(conn, stream, pending.target, nowMs);
        if remaining != [] {
          DispatchProtocolData(conn, stream, remaining, nowMs);
        }
      }
    }

    method HandleStreamData(conn: ConnId, stream: StreamId, data: Blob, nowMs: u64)
      requires Negotiating(Tables())
      modifies this, ping, identify
      ensures View() == StreamData(old(View()), conn, stream, data, nowMs) && env == old(env)
    {
      hide FeedInbound, FeedOutbound, Dispatch;
      if (conn, stream) in inboundNegotiators {
        FeedInboundNegotiator(conn, stream, data, nowMs);
        return;
      }
      if (conn, stream) in outboundNegotiators {
        FeedOutboundNegotiator(conn, stream, data, nowMs);
        return;
      }
      DispatchProtocolData(conn, stream, data, nowMs);
    }

    // -------------------------------------------------------------------- application calls

    method RegisterUserProtocol(protocol: Blob)
      modifies this, identify
      ensures View() == AddUserProtocol(old(View()), protocol) && env == old(env)
    {
      if protocol !in userProtocols {
        userProtocols := userProtocols + [protocol];
      }
      if protocol !in supportedProtocols {
        supportedProtocols := supportedProtocols + [protocol];
      }
      identify.AddProtocolId(protocol);
    }

    method PingRemote(peer: PeerId, payload: Blob, nowMs: u64) returns (error: Option<CallError>)
      requires OpenAsserts(Tables(), peer)
      modifies this, ping
      ensures (View(), error) == PingPeer(old(View()), peer, payload, nowMs) && env == old(env)
    {
      hide DrainPing, Ping.SendOne, QueueOpen, HasPendingPing;
      if peer !in peerToConn {
        return Some(NotConnected);
      }
      if peer in ping.peers && ping.peers[peer].outbound.Some? {
        SendRefusals(ping.View(), peer, payload, nowMs);
        var e := ping.HandleInput(Ping.SendPing(peer, payload, nowMs));
        if e.Some? {
          return Some(PingRejected);
        }
        DrainPingOutputs();
        return None;
      }
      var pending := HasPendingPingStream(peer);
      if pending {
        pendingPings := pendingPings[peer := payload];
        return None;
      }
      pendingPings := pendingPings[peer := payload];
      error := QueueOpenProtocolStream(peer, PING_ID, PingKind);
    }

    method OpenStreamFor(peer: PeerId, protocol: Blob) returns (error: Option<CallError>)
      requires OpenAsserts(Tables(), peer)
      modifies this
      ensures (View(), error) == OpenUserStream(old(View()), peer, protocol) && env == old(env)
    {
      hide QueueOpen;
      if protocol !in userProtocols {
        return Some(ProtocolNotRegistered);
      }
      if peer !in peerToConn {
        return Some(NotConnected);
      }
      if peer in readyPeers && !(peer in peerInfo && protocol in peerInfo[peer].protocols) {
        return Some(RemoteDoesNotSupport);
      }
      error := QueueOpenProtocolStream(peer, protocol, User(protocol));
    }

    method CallUserStream(peer: PeerId, stream: StreamId, call: UserCall) returns (error: Option<CallError>)
      modifies this
      ensures (View(), error) == UserStreamCall(old(View()), peer, stream, call) && env == old(env)
      ensures error.Some? ==> actions == old(actions)
      ensures error.None? ==> exists conn ::
                && conn in connToPeer && connToPeer[conn] == peer
                && (conn, stream) in streamOwner && streamOwner[(conn, stream)].User?
                && (call.SendUser? ==> actions == old(actions) + [SendStream(conn, stream, call.data)])
                && (call.CloseUserWrite? ==> actions == old(actions) + [CloseStreamWrite(conn, stream)])
                && (call.ResetUser? ==> actions == old(actions) + [ResetStream(conn, stream)])
    {
      var conns := set k | k in streamOwner && k.1 == stream && streamOwner[k].User?
                           && k.0 in connToPeer && connToPeer[k.0] == peer :: k.0;
      assert conns == UserConns(Tables(), peer, stream);
      if conns == {} {
        return Some(UserStreamNotFound);
      }
      var conn := Least(conns);
      match call {
        case SendUser(data) => actions := actions + [SendStream(conn, stream, data)];
        case CloseUserWrite => actions := actions + [CloseStreamWrite(conn, stream)];
        case ResetUser => actions := actions + [ResetStream(conn, stream)];
      }
      return None;
    }

    method DisconnectPeer(peer: PeerId) returns (error: Option<CallError>)
      modifies this
      ensures (View(), error) == Disconnect(old(View()), peer) && env == old(env)
    {
      if peer !in peerToConn {
        return Some(NotConnected);
      }
      actions := actions + [CloseConnection(peerToConn[peer])];
      return None;
    }

    method PollNext()
      returns (action: Option<Action>, event: Option<Event>)
      modifies this
      ensures View() == Poll(old(View())) && env == old(env)
      ensures old(actions) != [] ==> action == Some(old(actions)[0]) && event == None
      ensures old(actions) == [] && old(events) != [] ==> action == None && event == Some(old(events)[0])
      ensures old(actions) == [] && old(events) == [] ==> action == None && event == None
    {
      if actions != [] {
        action, event := Some(actions[0]), None;
        actions := actions[1..];
        return;
      }
      if events != [] {
        action, event := None, Some(events[0]);
        events := events[1..];
        return;
      }
      return None, None;
    }

    // ------------------------------------------------------------------------------- steps

    method RemoteSeen(conn: ConnId, addr: Blob)
      modifies this
      ensures View() == Seen(old(View()), conn, addr) && env == old(env)
    {
      connToRemoteAddr := connToRemoteAddr[conn := addr];
    }

    method Activated(conn: ConnId, established: bool)
      modifies this
      ensures View() == Activate(old(View()), conn, established) && env == old(env)
    {
      activeConnections := activeConnections[conn := established];
    }

    /** `handle_tick`. */
    method HandleTick(nowMs: u64, order: seq<PeerId>)
      modifies this, ping, identify
      ensures View() == DrainIdentify(DrainPing(old(View()).(ping := Ping.TickAll(old(ping.View()), nowMs, order))))
      ensures env == old(env)
    {
      hide DrainPing, DrainIdentify, Ping.TickAll;
      var _ := ping.HandleInput(Ping.Tick(nowMs, order));
      DrainPingOutputs();
      DrainIdentifyOutputs();
    }

    static predicate FromTransport(op: Op) {
      op.Connected? || op.IdentityVerified? || op.IncomingConnection? || op.StreamArrives? || op.DataArrives?
      || op.WriteCloses? || op.StreamCloses? || op.ConnectionCloses? || op.TransportFails? || op.Ignored?
    }

    method HandleTransportEvent(op: Op)
      requires Negotiating(Tables()) && Quiet() && FromTransport(op)
      modifies this, ping, identify
      ensures View() == Step(old(View()), op) && env == old(env)
    {
      hide Register, Upgrade, StreamData, RemoteWriteClosed, StreamClosed, ConnClosed, IncomingStream, StreamOpened,
           OpenFailed, DrainPing, DrainIdentify, PingPeer, OpenUserStream, UserStreamCall, AddUserProtocol, Negotiating,
           Disconnect, Ensure;
      match op {
        case Connected(id, who, addr) =>
          Activated(id, true);
          RemoteSeen(id, addr);
          if who.Some? {
            RegisterConnection(id, who.value);
          } else {
            var _ := EnsurePeerIdForConn(id);
          }
        case IdentityVerified(id, who, addr) =>
          RemoteSeen(id, addr);
          if who.Some? {
            UpgradeConnectionIdentity(id, who.value);
          }
        case IncomingConnection(id, addr) =>
          Activated(id, false);
          RemoteSeen(id, addr);
        case StreamArrives(id, stream) => HandleIncomingStream(id, stream);
        case DataArrives(id, stream, data, nowMs) => HandleStreamData(id, stream, data, nowMs);
        case WriteCloses(id, stream) => HandleStreamRemoteWriteClosed(id, stream);
        case StreamCloses(id, stream) => HandleStreamClosed(id, stream);
        case ConnectionCloses(id) => OnConnectionClosed(id);
        case TransportFails(id) =>
          var peer := EstablishedPeerForConn(id);
          EmitError(TransportFault, peer, Some(id));
        case Ignored =>
      }
    }

    static predicate FromDriver(op: Op) {
      op.DriverOpened? || op.DriverFailed? || op.DriverReports? || op.Ticks? || op.PollOutput?
    }

    /** Driver reports, ticks and polls. */
    method HandleDriver(op: Op)
      requires Negotiating(Tables()) && FromDriver(op)
      modifies this, ping, identify
      ensures View() == Step(old(View()), op) && env == old(env)
    {
      hide Register, Upgrade, StreamData, RemoteWriteClosed, StreamClosed, ConnClosed, IncomingStream, StreamOpened,
           OpenFailed, DrainPing, DrainIdentify, PingPeer, OpenUserStream, UserStreamCall, AddUserProtocol, Negotiating,
           Disconnect, Ensure, Poll, Ping.TickAll;
      match op {
        case DriverOpened(id, stream, token) => HandleStreamOpened(id, stream, token);
        case DriverFailed(token) => HandleOpenStreamFailed(token);
        case DriverReports(kind, on) => EmitError(kind, None, on);
        case Ticks(nowMs, order) => HandleTick(nowMs, order);
        case PollOutput => var _, _ := PollNext();
      }
    }

    /** Calls of the application. */
    method HandleCall(op: Op)
      requires Negotiating(Tables()) && !FromTransport(op) && !FromDriver(op)
      requires forall peer :: OpenAsserts(Tables(), peer)
      modifies this, ping, identify
      ensures View() == Step(old(View()), op) && env == old(env)
    {
      hide Register, Upgrade, StreamData, RemoteWriteClosed, StreamClosed, ConnClosed, IncomingStream, StreamOpened,
           OpenFailed, DrainPing, DrainIdentify, PingPeer, OpenUserStream, UserStreamCall, AddUserProtocol, Negotiating,
           Disconnect, Ensure;
      match op {
        case CallAddProtocol(protocol) => RegisterUserProtocol(protocol);
        case CallSetAddresses(addrs) => localAddresses := addrs;
        case CallPing(peer, payload, nowMs) => var _ := PingRemote(peer, payload, nowMs);
        case CallOpen(peer, protocol) => var _ := OpenStreamFor(peer, protocol);
        case CallUser(peer, stream, call) => var _ := CallUserStream(peer, stream, call);
        case CallDisconnect(peer) => var _ := DisconnectPeer(peer);
      }
    }

    /** Any event, report or call the transport contract allows is the corresponding step and keeps
        every invariant. */
    method Handle(op: Op)
      requires Valid() && SwarmInvariant.Allowed(env, View(), op)
      modifies this, ping, identify
      ensures Negotiating(old(Tables())) && View() == Step(old(View()), op)
      ensures Valid() && env == SwarmInvariant.Advance(old(env), op)
    {
      hide SwarmInvariant.Inv, SwarmInvariant.Allowed, SwarmInvariant.Advance, Step, Negotiating, OpenAsserts;
      ghost var next := SwarmInvariant.Advance(env, op);
      SwarmInvariant.InvNegotiating(View(), env);
      SwarmSteps.StepKeeps(View(), env, op);
      Sane(View(), env, op);
      if FromTransport(op) {
        HandleTransportEvent(op);
      } else if FromDriver(op) {
        HandleDriver(op);
      } else {
        HandleCall(op);
      }
      env := next;
    }

    static lemma Sane(c: Core, env: SwarmInvariant.Env, op: Op)
      requires SwarmInvariant.Inv(c, env)
      ensures Ping.Idle(c.ping) && Identify.Idle(c.identify)
      ensures forall peer :: OpenAsserts(c.net, peer)
    {
      forall peer: PeerId
        ensures OpenAsserts(c.net, peer)
      {
        assert peer in c.net.peerToConn ==> SwarmInvariant.PointsBack(c.net, peer);
      }
    }
  }
}

/** User-stream fidelity: what the application is told about a user stream is what the stream
    carried (crates/swarm/src/core.rs:965-1029, 1126-1258). */
module SwarmFidelity {
  import opened Bytes
  import opened Ids
  import opened Swarm
  import opened SwarmRouting
  import opened SwarmInvariant
  import opened SwarmSteps
  import opened SwarmEffects
  import opened SwarmRuns
  import Multistream
  import MultistreamAgreement
  import MultistreamOutcome
  import Ping
  import Identify

  /** For each stream, the bytes the transport delivered and the user-stream events queued for it. */
  datatype Ledger = Ledger(got: map<Key, Blob>, told: map<Key, seq<Event>>)

  const BLANK: Ledger := Ledger(map[], map[])

  function Got(l: Ledger, key: Key): Blob {
    if key in l.got then l.got[key] else []
  }

  function Told(l: Ledger, key: Key): seq<Event> {
    if key in l.told then l.told[key] else []
  }

  /** The user-stream events a step queued. */
  function Fresh(c: Core, d: Core): seq<Event> {
    if |c.events| <= |d.events| then Users(d.events[|c.events|..]) else []
  }

  /** The entries of one step; a step about no stream has none (`NothingUnrecorded`). */
  function Record(l: Ledger, op: Op, news: seq<Event>): Ledger {
    match op
    case StreamArrives(id, stream) => Enter(l, (id, stream), [], [])
    case DriverOpened(id, stream, _) => Enter(l, (id, stream), [], [])
    case DataArrives(id, stream, data, _) =>
      Enter(l, (id, stream), Got(l, (id, stream)) + data, Told(l, (id, stream)) + news)
    case WriteCloses(id, stream) => Enter(l, (id, stream), Got(l, (id, stream)), Told(l, (id, stream)) + news)
    case StreamCloses(id, stream) => Enter(l, (id, stream), Got(l, (id, stream)), Told(l, (id, stream)) + news)
    case _ => l
  }

  function Enter(l: Ledger, key: Key, got: Blob, told: seq<Event>): Ledger {
    Ledger(l.got[key := got], l.told[key := told])
  }

  // ------------------------------------------------------------------------ what is promised

  /** The payload bytes among some user-stream events, in order. */
  function Payload(told: seq<Event>): Blob {
    if told == [] then []
    else Datum(told[0]) + Payload(told[1..])
  }

  function Datum(event: Event): Blob {
    if event.UserStreamData? then event.data else []
  }

  /** Ready first and once, nothing after it but data and the end of the remote's writing, all of
      it for this stream, and the bytes told are exactly those after the handshake. */
  ghost predicate Delivered(protocol: Blob, stream: StreamId, got: Blob, told: seq<Event>) {
    && told != []
    && told[0].UserStreamReady? && told[0].protocol == protocol && told[0].stream == stream
    && (forall i :: 0 < i < |told| ==> Carries(told[i], stream))
    && got == MultistreamAgreement.Script(protocol) + Payload(told)
  }

  predicate Carries(event: Event, stream: StreamId) {
    (event.UserStreamData? || event.UserStreamRemoteWriteClosed?) && event.stream == stream
  }

  /** A negotiating stream has been told of nothing and knows exactly the bytes it was given. */
  ghost predicate Waiting(m: Multistream.Select, got: Blob, told: seq<Event>) {
    MultistreamOutcome.Tracked(m, got) && told == []
  }

  /** What the tables promise about one stream. */
  ghost predicate FaithfulAt(net: Net, k: Key, got: Blob, told: seq<Event>) {
    && (k in net.inbound ==> net.inbound[k].role.Listener? && Waiting(net.inbound[k], got, told))
    && (k in net.outbound ==> DialsFor(net.outbound[k]) && Waiting(net.outbound[k].negotiator, got, told))
    && (k in net.owner && net.owner[k].User? ==> Delivered(net.owner[k].protocol, k.1, got, told))
    && (k in net.owner ==> Spoken(net.owner[k], got))
  }

  ghost predicate Faithful(net: Net, l: Ledger) {
    && (forall k :: FaithfulAt(net, k, Got(l, k), Told(l, k)))
    && (forall t :: t in net.opens ==> Honest(net.opens[t]))
  }

  /** A dialer proposes the protocol its target speaks. */
  predicate DialsFor(p: PendingOutbound) {
    p.negotiator.role.Dialer? && Speaks(p.target, p.negotiator.role.desired)
  }

  /** A stream belongs to a protocol only if the remote has gone through the handshake for it. */
  ghost predicate Spoken(kind: Kind, got: Blob) {
    MultistreamAgreement.Script(ProtocolOf(kind)) <= got
  }

  lemma FaithfulNew(config: Identify.Config, timeoutMs: u64)
    ensures Faithful(New(config, timeoutMs).net, BLANK)
  {
  }

  // ------------------------------------------------------------------------------ payloads

  lemma {:induction false} PayloadAppend(a: seq<Event>, b: seq<Event>)
    ensures Payload(a + b) == Payload(a) + Payload(b)
  {
    if a == [] {
      assert a + b == b;
    } else {
      hide Datum;
      PayloadAppend(a[1..], b);
      assert (a + b)[1..] == a[1..] + b && (a + b)[0] == a[0];
      var head := Datum(a[0]);
      assert Payload(a + b) == head + Payload(a[1..] + b);
      assert head + (Payload(a[1..]) + Payload(b)) == (head + Payload(a[1..])) + Payload(b);
    }
  }

  lemma PayloadOne(event: Event)
    ensures Payload([event]) == Datum(event)
  {
    assert [event][1..] == [];
    assert Payload([]) == [];
  }

  lemma DeliveredMore(protocol: Blob, stream: StreamId, got: Blob, told: seq<Event>, event: Event)
    requires Delivered(protocol, stream, got, told) && Carries(event, stream)
    ensures Delivered(protocol, stream, got + Datum(event), told + [event])
  {
    hide MultistreamAgreement.Script;
    PayloadAppend(told, [event]);
    PayloadOne(event);
    var more := Datum(event);
    assert got + more == MultistreamAgreement.Script(protocol) + (Payload(told) + more);
  }

  /** A stream that just became ready, with the bytes pipelined behind its handshake. */
  lemma DeliveredReady(protocol: Blob, stream: StreamId, rest: Blob, ready: Event, peer: PeerId)
    requires ready.UserStreamReady? && ready.protocol == protocol && ready.stream == stream
    ensures Delivered(protocol, stream, MultistreamAgreement.Script(protocol) + rest,
                      if rest == [] then [ready] else [ready] + [UserStreamData(peer, stream, rest)])
  {
    hide MultistreamAgreement.Script;
    PayloadOne(ready);
    var script := MultistreamAgreement.Script(protocol);
    assert script + [] == script;
    if rest != [] {
      DeliveredMore(protocol, stream, script, [ready], UserStreamData(peer, stream, rest));
    }
  }

  // --------------------------------------------------------------------------------- steps

  lemma TellsFresh(c: Core, d: Core, told: seq<Event>)
    requires Tells(c, d, told)
    ensures Fresh(c, d) == told
  {
  }

  /** A step at one stream keeps the promise elsewhere. */
  lemma FaithfulElsewhere(key: Key, net: Net, to: Net, l: Ledger, got: Blob, told: seq<Event>)
    requires Faithful(net, l) && OnlyAt(key, net, to) && FaithfulAt(to, key, got, told)
    ensures Faithful(to, Enter(l, key, got, told))
  {
    hide Waiting, Delivered, DialsFor;
    var l2 := Enter(l, key, got, told);
    forall k: Key
      ensures FaithfulAt(to, k, Got(l2, k), Told(l2, k))
    {
      if k != key {
        assert FaithfulAt(net, k, Got(l, k), Told(l, k));
        assert k in to.inbound ==> k in to.inbound - {key};
        assert k in to.outbound ==> k in to.outbound - {key};
        assert k in to.owner ==> k in to.owner - {key};
        assert k in net.inbound - {key} ==> (net.inbound - {key})[k] == net.inbound[k];
        assert k in net.outbound - {key} ==> (net.outbound - {key})[k] == net.outbound[k];
        assert k in net.owner - {key} ==> (net.owner - {key})[k] == net.owner[k];
      }
    }
  }

  /** A step that moves no stream keeps the promise. */
  lemma FaithfulRecedes(net: Net, to: Net, l: Ledger)
    requires Faithful(net, l) && Recedes(net, to)
    ensures Faithful(to, l)
  {
    hide Waiting, Delivered, DialsFor;
    forall k: Key
      ensures FaithfulAt(to, k, Got(l, k), Told(l, k))
    {
      assert FaithfulAt(net, k, Got(l, k), Told(l, k));
    }
  }

  lemma InboundFaithful(c: Core, env: Env, l: Ledger, conn: ConnId, stream: StreamId, data: Blob, nowMs: u64)
    requires Inv(c, env) && Negotiating(c.net) && Faithful(c.net, l) && (conn, stream) in c.net.inbound
    ensures var d, key := FeedInbound(c, conn, stream, data, nowMs), (conn, stream);
            FaithfulAt(d.net, key, Got(l, key) + data, Told(l, key) + Fresh(c, d))
  {
    hide FeedInbound, Dispatch, InboundNegotiated, Inv, Tells, Multistream.Receive, Ping.RegisterInbound, Negotiating,
         MultistreamOutcome.Tracked, MultistreamAgreement.Script, Ensure, Multistream.Sendable, Fresh, Delivered;
    var key, got := (conn, stream), Got(l, (conn, stream));
    var gone := FeedInboundCases(c, env, conn, stream, data, nowMs);
    InboundAlone(c, env, key);
    UndecidedValid(c.net.inbound[key]);
    var d := FeedInbound(c, conn, stream, data, nowMs);
    assert [] + Fresh(c, d) == Fresh(c, d);
    assert FaithfulAt(c.net, key, got, Told(l, key));
    MultistreamOutcome.ReceiveTracked(c.net.inbound[key], got, data);
    var n := FedIn(c, key, data);
    match Verdict(n) {
      case None =>
        TellsFresh(c, d, []) by { TellsAlike(c.(net := d.net), d, c, d, []); }
      case Some(verdict) =>
        TellsAlike(c.(net := gone.net), gone, c, gone, []);
        if verdict.Negotiated? {
          InboundReady(c, env, gone, conn, stream, verdict.protocol, n.recvBuf, nowMs);
        }
    }
  }

  /** An inbound stream has agreed on a protocol and is handed the bytes behind the handshake. */
  lemma InboundReady(c: Core, env: Env, gone: Core, conn: ConnId, stream: StreamId, protocol: Blob, rest: Blob,
                     nowMs: u64)
    requires Inv(gone, env) && Tells(c, gone, []) && (conn, stream) in env.used && Live(env, conn)
    requires (conn, stream) !in gone.net.inbound && (conn, stream) !in gone.net.outbound
             && (conn, stream) !in gone.net.owner
    ensures var c2 := InboundNegotiated(gone, conn, stream, protocol);
            var d := if rest == [] then c2 else Dispatch(c2, conn, stream, rest, nowMs);
            FaithfulAt(d.net, (conn, stream), MultistreamAgreement.Script(protocol) + rest, Fresh(c, d))
  {
    hide Dispatch, InboundNegotiated, Inv, Tells, Ping.RegisterInbound, Delivered, Waiting,
         MultistreamAgreement.Script, Fresh, PingReacts, IdentifyReacts, InboundKind, Spoken;
    var key, peer := (conn, stream), PeerOf(gone.net, conn);
    var c2 := InboundNegotiated(gone, conn, stream, protocol);
    InvIdle(gone, env);
    InboundNegotiatedEffect(gone, conn, stream, protocol);
    InboundNegotiatedKeeps(gone, env, conn, stream, protocol);
    KindSpeaks(gone, peer, protocol);
    SpokenNow(protocol, rest);
    if key in c2.net.owner && c2.net.owner[key].User? {
      var ready := UserStreamReady(peer, stream, protocol, false);
      TellsThen(c, gone, c2, [ready]);
      Readied(c, c2, env, conn, stream, protocol, rest, nowMs, ready);
    } else {
      DispatchNet(c2, env, conn, stream, rest, nowMs);
    }
  }

  lemma KindSpeaks(c: Core, peer: PeerId, protocol: Blob)
    ensures InboundKind(c, peer, protocol).Some? ==> ProtocolOf(InboundKind(c, peer, protocol).value) == protocol
  {
  }

  lemma SpokenNow(protocol: Blob, rest: Blob)
    ensures forall kind: Kind :: ProtocolOf(kind) == protocol ==>
              Spoken(kind, MultistreamAgreement.Script(protocol) + rest)
  {
    hide MultistreamAgreement.Script;
  }

  /** A user stream that was just reported ready is handed the bytes behind the handshake. */
  lemma Readied(c: Core, c2: Core, env: Env, conn: ConnId, stream: StreamId, protocol: Blob, rest: Blob, nowMs: u64,
                ready: Event)
    requires Inv(c2, env) && Tells(c, c2, [ready])
    requires ready.UserStreamReady? && ready.protocol == protocol && ready.stream == stream
    requires (conn, stream) in c2.net.owner && c2.net.owner[(conn, stream)] == User(protocol)
    ensures var d := if rest == [] then c2 else Dispatch(c2, conn, stream, rest, nowMs);
            FaithfulAt(d.net, (conn, stream), MultistreamAgreement.Script(protocol) + rest, Fresh(c, d))
  {
    hide Dispatch, Inv, Tells, Delivered, Waiting, MultistreamAgreement.Script, Fresh, PingReacts, IdentifyReacts;
    var key := (conn, stream);
    var d := if rest == [] then c2 else Dispatch(c2, conn, stream, rest, nowMs);
    DispatchEffect(c2, env, conn, stream, rest, nowMs);
    var peer := c2.net.connToPeer[conn];
    if rest != [] {
      TellsBoth(c, c2, d, [ready], [UserStreamData(peer, stream, rest)]);
    }
    TellsFresh(c, d, if rest == [] then [ready] else [ready] + [UserStreamData(peer, stream, rest)]);
    DeliveredReady(protocol, stream, rest, ready, peer);
    OwnedAlone(c2, env, key);
  }

  lemma OwnedAlone(c: Core, env: Env, key: Key)
    requires Inv(c, env) && key in c.net.owner
    ensures key !in c.net.inbound && key !in c.net.outbound
  {
  }

  lemma OutboundFaithful(c: Core, env: Env, l: Ledger, conn: ConnId, stream: StreamId, data: Blob, nowMs: u64)
    requires Inv(c, env) && Negotiating(c.net) && Faithful(c.net, l) && (conn, stream) in c.net.outbound
    ensures var d, key := FeedOutbound(c, conn, stream, data, nowMs), (conn, stream);
            FaithfulAt(d.net, key, Got(l, key) + data, Told(l, key) + Fresh(c, d))
  {
    hide FeedOutbound, Dispatch, OutboundNegotiated, Inv, Tells, Multistream.Receive, Negotiating,
         MultistreamOutcome.Tracked, MultistreamAgreement.Script, Multistream.Sendable, Fresh, Delivered;
    var key, got := (conn, stream), Got(l, (conn, stream));
    var gone := FeedOutboundCases(c, env, conn, stream, data, nowMs);
    OutboundAlone(c, env, key);
    UndecidedValid(c.net.outbound[key].negotiator);
    var d := FeedOutbound(c, conn, stream, data, nowMs);
    assert [] + Fresh(c, d) == Fresh(c, d);
    assert FaithfulAt(c.net, key, got, Told(l, key));
    MultistreamOutcome.ReceiveTracked(c.net.outbound[key].negotiator, got, data);
    var n := FedOut(c, key, data);
    match Verdict(n) {
      case None =>
        TellsFresh(c, d, []) by { TellsAlike(c.(net := d.net), d, c, d, []); }
      case Some(verdict) =>
        TellsAlike(c.(net := gone.net), gone, c, gone, []);
        if verdict.Negotiated? {
          var target := c.net.outbound[key].target;
          OutboundReady(c, env, gone, conn, stream, target, verdict.protocol, n.recvBuf, nowMs);
        }
    }
  }

  lemma OutboundReady(c: Core, env: Env, gone: Core, conn: ConnId, stream: StreamId, target: Kind, protocol: Blob,
                      rest: Blob, nowMs: u64)
    requires Inv(gone, env) && Tells(c, gone, []) && (conn, stream) in env.used && conn in gone.net.connToPeer
    requires (conn, stream) !in gone.net.inbound && (conn, stream) !in gone.net.outbound
             && (conn, stream) !in gone.net.owner
    requires target.IdentifyInitiator? ==> Known(gone.net, conn)
    requires Speaks(target, protocol)
    ensures var c2 := OutboundNegotiated(gone, conn, stream, target, nowMs);
            var d := if rest == [] then c2 else Dispatch(c2, conn, stream, rest, nowMs);
            FaithfulAt(d.net, (conn, stream), MultistreamAgreement.Script(protocol) + rest, Fresh(c, d))
  {
    hide Dispatch, OutboundNegotiated, Inv, Tells, Delivered, Waiting, MultistreamAgreement.Script, Fresh, PingOpened,
         PingRefuses, Identify.RegisterInbound, Spoken;
    var key := (conn, stream);
    var c2 := OutboundNegotiated(gone, conn, stream, target, nowMs);
    InvIdle(gone, env);
    OutboundNegotiatedEffect(gone, conn, stream, target, nowMs);
    OutboundNegotiatedKeeps(gone, env, conn, stream, target, nowMs);
    SpokenNow(protocol, rest);
    if target.User? {
      var ready := UserStreamReady(gone.net.connToPeer[conn], stream, protocol, true);
      TellsThen(c, gone, c2, [ready]);
      Readied(c, c2, env, conn, stream, protocol, rest, nowMs, ready);
    } else {
      DispatchNet(c2, env, conn, stream, rest, nowMs);
    }
  }

  /** Data on a stream that is past negotiation. */
  lemma DispatchFaithful(c: Core, env: Env, l: Ledger, conn: ConnId, stream: StreamId, data: Blob, nowMs: u64)
    requires Inv(c, env) && Faithful(c.net, l)
    requires (conn, stream) !in c.net.inbound && (conn, stream) !in c.net.outbound
    ensures var d, key := Dispatch(c, conn, stream, data, nowMs), (conn, stream);
            FaithfulAt(d.net, key, Got(l, key) + data, Told(l, key) + Fresh(c, d))
  {
    hide Dispatch, Inv, Tells, Delivered, Waiting, Fresh, PingReacts, IdentifyReacts;
    var d, key := Dispatch(c, conn, stream, data, nowMs), (conn, stream);
    DispatchNet(c, env, conn, stream, data, nowMs);
    assert FaithfulAt(c.net, key, Got(l, key), Told(l, key));
    if key in c.net.owner && c.net.owner[key].User? {
      DispatchEffect(c, env, conn, stream, data, nowMs);
      var event := UserStreamData(c.net.connToPeer[conn], stream, data);
      TellsFresh(c, d, [event]);
      DeliveredMore(c.net.owner[key].protocol, stream, Got(l, key), Told(l, key), event);
    }
  }

  lemma WriteClosedFaithful(c: Core, env: Env, l: Ledger, conn: ConnId, stream: StreamId)
    requires Inv(c, env) && Faithful(c.net, l)
    ensures var d, key := RemoteWriteClosed(c, conn, stream), (conn, stream);
            d.net == c.net && FaithfulAt(d.net, key, Got(l, key), Told(l, key) + Fresh(c, d))
  {
    hide RemoteWriteClosed, Inv, Tells, Delivered, Waiting, Fresh, PingReacts, IdentifyReacts;
    var d, key := RemoteWriteClosed(c, conn, stream), (conn, stream);
    assert FaithfulAt(c.net, key, Got(l, key), Told(l, key));
    assert Told(l, key) + [] == Told(l, key);
    if key in c.net.owner {
      OwnedAlone(c, env, key);
      RemoteWriteClosedEffect(c, env, conn, stream);
      if c.net.owner[key].User? {
        var event := UserStreamRemoteWriteClosed(c.net.connToPeer[conn], stream);
        TellsFresh(c, d, [event]);
        DeliveredMore(c.net.owner[key].protocol, stream, Got(l, key), Told(l, key), event);
        assert Got(l, key) + [] == Got(l, key);
      }
    } else {
      UnownedWriteCloses(c, conn, stream);
      TellsNothing(c, d);
      TellsFresh(c, d, []);
    }
  }

  lemma NegotiatorWaits(role: Multistream.Role)
    ensures Waiting(Opened(role), [], []) && Opened(role).role == role
  {
    MultistreamOutcome.OpenedTracked(role);
  }

  /** Opening a stream, from either side. */
  lemma OpeningFaithful(c: Core, env: Env, l: Ledger, op: Op)
    requires Inv(c, env) && Negotiating(c.net) && Faithful(c.net, l) && Allowed(env, c, op)
    requires op.StreamArrives? || op.DriverOpened?
    ensures Faithful(Step(c, op).net, Enter(l, (op.id, op.stream), [], []))
  {
    hide Waiting, Opened, Delivered, Negotiating;
    var key := (op.id, op.stream);
    assert key !in c.net.inbound && key !in c.net.outbound && key !in c.net.owner;
    if op.StreamArrives? {
      var role := Multistream.Listener(set p | p in c.app.supported);
      NegotiatorWaits(role);
      OnlyAtInbound(key, c.net, Opened(role));
      FaithfulElsewhere(key, c.net, c.net.(inbound := c.net.inbound[key := Opened(role)]), l, [], []);
    } else {
      OpenedFaithful(c, l, op.id, op.stream, op.token);
    }
  }

  lemma OpenedFaithful(c: Core, l: Ledger, conn: ConnId, stream: StreamId, token: u64)
    requires Faithful(c.net, l)
    requires var key := (conn, stream); key !in c.net.inbound && key !in c.net.outbound && key !in c.net.owner
    ensures Faithful(StreamOpened(c, conn, stream, token).net, Enter(l, (conn, stream), [], []))
  {
    hide Waiting, Opened, Delivered, OnlyAt;
    var key, d := (conn, stream), StreamOpened(c, conn, stream, token);
    var net := c.net.(opens := c.net.opens - {token});
    ClosedOpenFaithful(c.net, l, token);
    OnlyAtEnsure(key, net);
    OnlyAtEnsure(key, c.net);
    if token in c.net.opens && c.net.opens[token].conn == conn {
      var open := c.net.opens[token];
      var role := Multistream.Dialer(open.protocol);
      NegotiatorWaits(role);
      OnlyAtOutbound(key, net, PendingOutbound(Opened(role), open.target));
      FaithfulElsewhere(key, net, d.net, l, [], []);
    } else {
      OnlyAtSame(key, d.net);
      FaithfulElsewhere(key, d.net, d.net, l, [], []);
    }
  }

  lemma OnlyAtSame(key: Key, net: Net)
    ensures OnlyAt(key, net, net)
  {
  }

  lemma ClosedOpenFaithful(net: Net, l: Ledger, token: u64)
    requires Faithful(net, l)
    ensures Faithful(net.(opens := net.opens - {token}), l)
  {
    hide Waiting, Delivered, DialsFor;
    forall k: Key
      ensures FaithfulAt(net.(opens := net.opens - {token}), k, Got(l, k), Told(l, k))
    {
      assert FaithfulAt(net, k, Got(l, k), Told(l, k));
    }
  }

  lemma WithoutFaithful(net: Net, l: Ledger, key: Key, got: Blob, told: seq<Event>)
    requires Faithful(net, l)
    ensures Faithful(Without(net, key), Enter(l, key, got, told))
  {
    hide Waiting, Delivered, DialsFor;
    FaithfulElsewhere(key, net, Without(net, key), l, got, told);
  }

  lemma DataFaithful(c: Core, env: Env, l: Ledger, conn: ConnId, stream: StreamId, data: Blob, nowMs: u64)
    requires Inv(c, env) && Negotiating(c.net) && Faithful(c.net, l)
    ensures var d, key := StreamData(c, conn, stream, data, nowMs), (conn, stream);
            Faithful(d.net, Enter(l, key, Got(l, key) + data, Told(l, key) + Fresh(c, d)))
  {
    hide FeedInbound, FeedOutbound, Dispatch, Inv, Faithful, FaithfulAt, Fresh;
    var d, key := StreamData(c, conn, stream, data, nowMs), (conn, stream);
    if key in c.net.inbound {
      InboundFaithful(c, env, l, conn, stream, data, nowMs);
    } else if key in c.net.outbound {
      OutboundFaithful(c, env, l, conn, stream, data, nowMs);
    } else {
      DispatchFaithful(c, env, l, conn, stream, data, nowMs);
    }
    StreamDataElsewhere(c, env, conn, stream, data, nowMs);
    FaithfulElsewhere(key, c.net, d.net, l, Got(l, key) + data, Told(l, key) + Fresh(c, d));
  }

  /** Every allowed step keeps the ledger faithful. */
  lemma StepFaithful(c: Core, env: Env, l: Ledger, op: Op)
    requires Inv(c, env) && Negotiating(c.net) && Faithful(c.net, l) && Allowed(env, c, op)
    ensures Faithful(Step(c, op).net, Record(l, op, Fresh(c, Step(c, op))))
  {
    hide Inv, Faithful, FaithfulAt, StreamData, RemoteWriteClosed, StreamClosed, IncomingStream, StreamOpened,
         OpenFailed, Negotiating, Register, Upgrade, ConnClosed, DrainPing, DrainIdentify, PingPeer, OpenUserStream,
         UserStreamCall, AddUserProtocol, Fresh;
    match op {
      case DataArrives(id, stream, data, nowMs) => DataFaithful(c, env, l, id, stream, data, nowMs);
      case WriteCloses(id, stream) =>
        WriteClosedFaithful(c, env, l, id, stream);
        OnlyAtSame((id, stream), c.net);
        FaithfulElsewhere((id, stream), c.net, c.net, l, Got(l, (id, stream)),
                          Told(l, (id, stream)) + Fresh(c, Step(c, op)));
      case StreamCloses(id, stream) =>
        StreamClosedEffect(c, env, id, stream);
        WithoutFaithful(c.net, l, (id, stream), Got(l, (id, stream)), Told(l, (id, stream)) + Fresh(c, Step(c, op)));
      case StreamArrives(id, stream) => OpeningFaithful(c, env, l, op);
      case DriverOpened(id, stream, token) => OpeningFaithful(c, env, l, op);
      case DriverFailed(token) => FailedFaithful(c, l, token);
      case PollOutput =>
      case _ =>
        OtherStepRecedes(c, env, op);
        FaithfulRecedes(c.net, Step(c, op).net, l);
    }
  }

  lemma FailedFaithful(c: Core, l: Ledger, token: u64)
    requires Faithful(c.net, l)
    ensures Faithful(OpenFailed(c, token).net, l)
  {
    hide Faithful;
    ClosedOpenFaithful(c.net, l, token);
  }

  /** Whatever is queued about user streams is queued by a step about a stream, and so recorded. */
  lemma NothingUnrecorded(c: Core, env: Env, op: Op)
    requires Inv(c, env) && Negotiating(c.net) && Allowed(env, c, op)
    requires !op.DataArrives? && !op.WriteCloses? && !op.StreamCloses?
    ensures Fresh(c, Step(c, op)) == []
  {
    hide Inv, StreamData, RemoteWriteClosed, StreamClosed, Negotiating, Register, Upgrade, ConnClosed, DrainPing,
         DrainIdentify, PingPeer, OpenUserStream, UserStreamCall, AddUserProtocol, Opened;
    var d := Step(c, op);
    InvVouched(c, env);
    if !OnStream(op) && !op.PollOutput? {
      OtherStepRecedes(c, env, op);
      NoUsers(d.events[|c.events|..]);
    } else if op.StreamArrives? {
      TellsNothing(c, d);
    } else if op.DriverOpened? {
      OpenedTells(c, op.id, op.stream, op.token);
    } else if op.DriverFailed? {
      OpenedTells(c, 0, 0, op.token);
    }
  }

  lemma OpenedTells(c: Core, conn: ConnId, stream: StreamId, token: u64)
    requires Vouched(c.app)
    ensures Tells(c, StreamOpened(c, conn, stream, token), []) && Tells(c, OpenFailed(c, token), [])
  {
    hide Opened, Tells, Multistream.EncodeMessage;
    var d, f := StreamOpened(c, conn, stream, token), OpenFailed(c, token);
    if |d.events| == |c.events| {
      TellsNothing(c, d);
    } else {
      TellsOne(c, d, d.events[|c.events|]);
    }
    TellsOne(c, f, f.events[|c.events|]);
  }

  // ------------------------------------------------------------------- the peer that is named

  /** A user-stream event about this stream, under the name its connection has. */
  predicate NamesOne(net: Net, key: Key, event: Event) {
    AboutUserStream(event) && event.stream == key.1 && key.0 in net.connToPeer && event.peer == net.connToPeer[key.0]
  }

  predicate Names(net: Net, key: Key, told: seq<Event>) {
    forall i :: 0 <= i < |told| ==> NamesOne(net, key, told[i])
  }

  /** The user-stream events queued between two cores are about this stream. */
  ghost predicate FreshNames(c: Core, d: Core, key: Key) {
    Names(d.net, key, Fresh(c, d))
  }

  lemma NamedFresh(c: Core, d: Core, key: Key, told: seq<Event>)
    requires Tells(c, d, told) && Names(d.net, key, told)
    ensures FreshNames(c, d, key)
  {
  }

  lemma DispatchTells(c: Core, env: Env, conn: ConnId, stream: StreamId, data: Blob, nowMs: u64)
    returns (told: seq<Event>)
    requires Inv(c, env)
    ensures var d := Dispatch(c, conn, stream, data, nowMs);
            d.net == c.net && Tells(c, d, told) && Names(c.net, (conn, stream), told)
  {
    hide Inv, Tells, FeedPing, FeedIdentify;
    told := [];
    if (conn, stream) in c.net.owner {
      DispatchEffect(c, env, conn, stream, data, nowMs);
      if c.net.owner[(conn, stream)].User? {
        told := [UserStreamData(c.net.connToPeer[conn], stream, data)];
      }
    } else {
      TellsNothing(c, c);
    }
  }

  /** An agreed stream and the bytes behind its handshake. */
  lemma AgreedNames(c: Core, gone: Core, c2: Core, env: Env, conn: ConnId, stream: StreamId, rest: Blob, nowMs: u64,
                    told: seq<Event>)
    requires Inv(c2, env) && Tells(c, gone, []) && Tells(gone, c2, told) && Names(c2.net, (conn, stream), told)
    ensures FreshNames(c, if rest == [] then c2 else Dispatch(c2, conn, stream, rest, nowMs), (conn, stream))
  {
    hide Inv, Tells, Dispatch, FreshNames, NamesOne;
    var key := (conn, stream);
    TellsThen(c, gone, c2, told);
    var more := DispatchTells(c2, env, conn, stream, rest, nowMs);
    if rest == [] {
      NamedFresh(c, c2, key, told);
    } else {
      var d := Dispatch(c2, conn, stream, rest, nowMs);
      TellsBoth(c, c2, d, told, more);
      NamedFresh(c, d, key, told + more);
    }
  }

  lemma InboundNames(c: Core, env: Env, conn: ConnId, stream: StreamId, data: Blob, nowMs: u64)
    requires Inv(c, env) && Negotiating(c.net) && (conn, stream) in c.net.inbound
    ensures FreshNames(c, FeedInbound(c, conn, stream, data, nowMs), (conn, stream))
  {
    hide FeedInbound, Dispatch, InboundNegotiated, Inv, Tells, Multistream.Receive, Ping.RegisterInbound, Negotiating,
         FreshNames;
    var key := (conn, stream);
    var gone := FeedInboundCases(c, env, conn, stream, data, nowMs);
    InboundAlone(c, env, key);
    UndecidedValid(c.net.inbound[key]);
    var d := FeedInbound(c, conn, stream, data, nowMs);
    var n := FedIn(c, key, data);
    TellsAlike(c.(net := gone.net), gone, c, gone, []);
    if Verdict(n).None? {
      TellsAlike(c.(net := d.net), d, c, d, []);
      NamedFresh(c, d, key, []);
    } else if Verdict(n).value.Negotiated? {
      var protocol, peer := Verdict(n).value.protocol, PeerOf(gone.net, conn);
      InvIdle(gone, env);
      InboundNegotiatedEffect(gone, conn, stream, protocol);
      InboundNegotiatedKeeps(gone, env, conn, stream, protocol);
      var kind := InboundKind(gone, peer, protocol);
      var told := if kind.Some? && kind.value.User? then [UserStreamReady(peer, stream, protocol, false)] else [];
      AgreedNames(c, gone, InboundNegotiated(gone, conn, stream, protocol), env, conn, stream, n.recvBuf, nowMs, told);
    } else {
      TellsThen(c, gone, d, []);
      NamedFresh(c, d, key, []);
    }
  }

  lemma OutboundNames(c: Core, env: Env, conn: ConnId, stream: StreamId, data: Blob, nowMs: u64)
    requires Inv(c, env) && Negotiating(c.net) && (conn, stream) in c.net.outbound
    ensures FreshNames(c, FeedOutbound(c, conn, stream, data, nowMs), (conn, stream))
  {
    hide FeedOutbound, Dispatch, OutboundNegotiated, Inv, Tells, Multistream.Receive, Negotiating, FreshNames,
         PingOpened, PingRefuses, Identify.RegisterInbound;
    var key := (conn, stream);
    var gone := FeedOutboundCases(c, env, conn, stream, data, nowMs);
    OutboundAlone(c, env, key);
    UndecidedValid(c.net.outbound[key].negotiator);
    var d := FeedOutbound(c, conn, stream, data, nowMs);
    var n, target := FedOut(c, key, data), c.net.outbound[key].target;
    TellsAlike(c.(net := gone.net), gone, c, gone, []);
    if Verdict(n).None? {
      TellsAlike(c.(net := d.net), d, c, d, []);
      NamedFresh(c, d, key, []);
    } else if Verdict(n).value.Negotiated? {
      InvIdle(gone, env);
      OutboundNegotiatedEffect(gone, conn, stream, target, nowMs);
      OutboundNegotiatedKeeps(gone, env, conn, stream, target, nowMs);
      var told := if target.User?
                  then [UserStreamReady(gone.net.connToPeer[conn], stream, target.protocol, true)] else [];
      var c2 := OutboundNegotiated(gone, conn, stream, target, nowMs);
      AgreedNames(c, gone, c2, env, conn, stream, n.recvBuf, nowMs, told);
    } else {
      TellsThen(c, gone, d, []);
      NamedFresh(c, d, key, []);
    }
  }

  lemma EndingNames(c: Core, env: Env, conn: ConnId, stream: StreamId)
    requires Inv(c, env)
    ensures FreshNames(c, RemoteWriteClosed(c, conn, stream), (conn, stream))
    ensures FreshNames(c, StreamClosed(c, conn, stream), (conn, stream))
  {
    hide Inv, Tells, RemoteWriteClosed, StreamClosed, PingReacts, IdentifyReacts, FreshNames;
    var key, w, d := (conn, stream), RemoteWriteClosed(c, conn, stream), StreamClosed(c, conn, stream);
    StreamClosedEffect(c, env, conn, stream);
    if key in c.net.owner {
      RemoteWriteClosedEffect(c, env, conn, stream);
      var peer, user := c.net.connToPeer[conn], c.net.owner[key].User?;
      NamedFresh(c, w, key, if user then [UserStreamRemoteWriteClosed(peer, stream)] else []);
      NamedFresh(c, d, key, if user then [UserStreamClosed(peer, stream)] else []);
    } else {
      UnownedWriteCloses(c, conn, stream);
      TellsNothing(c, w);
      NamedFresh(c, w, key, []);
      NamedFresh(c, d, key, []);
    }
  }

  /** Whatever a step tells about user streams is about its own stream and names the peer of that
      stream's connection; until it is handed out, an identity upgrade of the connection may rename it. */
  lemma StepNames(c: Core, env: Env, op: Op)
    requires Inv(c, env) && Negotiating(c.net) && Allowed(env, c, op)
    ensures Fresh(c, Step(c, op)) != [] ==>
              (op.DataArrives? || op.WriteCloses? || op.StreamCloses?) && FreshNames(c, Step(c, op), (op.id, op.stream))
  {
    hide Inv, Fresh, FreshNames, StreamData, RemoteWriteClosed, StreamClosed, IncomingStream, StreamOpened, OpenFailed,
         Negotiating, Register, Upgrade, ConnClosed, DrainPing, DrainIdentify, PingPeer, OpenUserStream, UserStreamCall,
         AddUserProtocol;
    if op.DataArrives? {
      DataNames(c, env, op.id, op.stream, op.data, op.nowMs);
    } else if op.WriteCloses? || op.StreamCloses? {
      EndingNames(c, env, op.id, op.stream);
    } else {
      NothingUnrecorded(c, env, op);
    }
  }

  lemma DataNames(c: Core, env: Env, conn: ConnId, stream: StreamId, data: Blob, nowMs: u64)
    requires Inv(c, env) && Negotiating(c.net)
    ensures FreshNames(c, StreamData(c, conn, stream, data, nowMs), (conn, stream))
  {
    hide Inv, FreshNames, FeedInbound, FeedOutbound, Dispatch, Tells, NamesOne;
    if (conn, stream) in c.net.inbound {
      InboundNames(c, env, conn, stream, data, nowMs);
    } else if (conn, stream) in c.net.outbound {
      OutboundNames(c, env, conn, stream, data, nowMs);
    } else {
      var told := DispatchTells(c, env, conn, stream, data, nowMs);
      NamedFresh(c, Dispatch(c, conn, stream, data, nowMs), (conn, stream), told);
    }
  }

  /** In every step of a run user-stream events name the peer of the connection they are about. */
  ghost predicate WellNamed(c: Core, ops: seq<Op>)
    decreases |ops|
  {
    ops == [] ||
    var d, op := Next(c, ops[0]), ops[0];
    && (Fresh(c, d) != [] ==>
          (op.DataArrives? || op.WriteCloses? || op.StreamCloses?) && FreshNames(c, d, (op.id, op.stream)))
    && WellNamed(d, ops[1..])
  }

  lemma {:induction false} RunNames(c: Core, env: Env, ops: seq<Op>)
    requires Inv(c, env) && Lawful(c, env, ops)
    ensures WellNamed(c, ops)
    decreases |ops|
  {
    hide Inv, Allowed, Next, Advance, Negotiating, Fresh, FreshNames, Step;
    if ops != [] {
      NextKeeps(c, env, ops[0]);
      StepNames(c, env, ops[0]);
      RunNames(Next(c, ops[0]), Advance(env, ops[0]), ops[1..]);
    }
  }

  // ----------------------------------------------------------------------------- completion

  /** The handshake being complete is enough: an inbound stream then belongs to the user protocol. */
  lemma InboundCompletes(c: Core, env: Env, l: Ledger, conn: ConnId, stream: StreamId, data: Blob, nowMs: u64,
                         protocol: Blob, rest: Blob)
    requires Inv(c, env) && Negotiating(c.net) && Faithful(c.net, l) && (conn, stream) in c.net.inbound
    requires protocol in c.app.users && protocol != PING_ID && protocol != IDENTIFY_ID
    requires Multistream.Sendable(protocol)
    requires Got(l, (conn, stream)) + data == MultistreamAgreement.Script(protocol) + rest
    requires c.net.inbound[(conn, stream)].role.Listener? && protocol in c.net.inbound[(conn, stream)].role.supported
    ensures var d := StreamData(c, conn, stream, data, nowMs);
            (conn, stream) in d.net.owner && d.net.owner[(conn, stream)] == User(protocol)
  {
    hide FeedInbound, Dispatch, InboundNegotiated, Inv, Tells, Multistream.Receive, Negotiating, Ensure, Faithful,
         MultistreamOutcome.Tracked, MultistreamAgreement.Script, Multistream.Sendable, MultistreamAgreement.Answered,
         Ping.RegisterInbound;
    var key, got := (conn, stream), Got(l, (conn, stream));
    var gone := FeedInboundCases(c, env, conn, stream, data, nowMs);
    InboundAlone(c, env, key);
    UndecidedValid(c.net.inbound[key]);
    InboundTracked(c.net, l, key);
    MultistreamOutcome.ReceiveCompletes(c.net.inbound[key], got, data, protocol, rest);
    MultistreamAgreement.Reactions([], c.net.inbound[key].role.supported, protocol);
    assert Verdict(FedIn(c, key, data)) == Some(Multistream.Negotiated(protocol));
    InvIdle(gone, env);
    InboundNegotiatedEffect(gone, conn, stream, protocol);
    InboundNegotiatedKeeps(gone, env, conn, stream, protocol);
    DispatchNet(InboundNegotiated(gone, conn, stream, protocol), env, conn, stream, rest, nowMs);
  }

  lemma InboundTracked(net: Net, l: Ledger, key: Key)
    requires Faithful(net, l) && key in net.inbound
    ensures MultistreamOutcome.Tracked(net.inbound[key], Got(l, key))
  {
    assert FaithfulAt(net, key, Got(l, key), Told(l, key));
  }

  lemma OutboundTracked(net: Net, l: Ledger, key: Key)
    requires Faithful(net, l) && key in net.outbound
    ensures DialsFor(net.outbound[key]) && MultistreamOutcome.Tracked(net.outbound[key].negotiator, Got(l, key))
  {
    assert FaithfulAt(net, key, Got(l, key), Told(l, key));
  }

  lemma OutboundCompletes(c: Core, env: Env, l: Ledger, conn: ConnId, stream: StreamId, data: Blob, nowMs: u64,
                          protocol: Blob, rest: Blob)
    requires Inv(c, env) && Negotiating(c.net) && Faithful(c.net, l) && (conn, stream) in c.net.outbound
    requires c.net.outbound[(conn, stream)].target == User(protocol) && Multistream.Sendable(protocol)
    requires Got(l, (conn, stream)) + data == MultistreamAgreement.Script(protocol) + rest
    ensures var d := StreamData(c, conn, stream, data, nowMs);
            (conn, stream) in d.net.owner && d.net.owner[(conn, stream)] == User(protocol)
  {
    hide FeedOutbound, Dispatch, OutboundNegotiated, Inv, Tells, Multistream.Receive, Negotiating, Faithful,
         MultistreamOutcome.Tracked, MultistreamAgreement.Script, Multistream.Sendable, MultistreamAgreement.Answered,
         PingOpened, PingRefuses;
    var key, got := (conn, stream), Got(l, (conn, stream));
    var gone := FeedOutboundCases(c, env, conn, stream, data, nowMs);
    OutboundAlone(c, env, key);
    UndecidedValid(c.net.outbound[key].negotiator);
    OutboundTracked(c.net, l, key);
    MultistreamOutcome.ReceiveCompletes(c.net.outbound[key].negotiator, got, data, protocol, rest);
    MultistreamAgreement.Reactions(protocol, {}, protocol);
    assert Verdict(FedOut(c, key, data)) == Some(Multistream.Negotiated(protocol));
    InvIdle(gone, env);
    OutboundNegotiatedEffect(gone, conn, stream, User(protocol), nowMs);
    OutboundNegotiatedKeeps(gone, env, conn, stream, User(protocol), nowMs);
    DispatchNet(OutboundNegotiated(gone, conn, stream, User(protocol), nowMs), env, conn, stream, rest, nowMs);
  }

  // -------------------------------------------------------------------------------- theorem

  /** The ledger of a run. */
  ghost function Ledge(c: Core, l: Ledger, ops: seq<Op>): Ledger
    decreases |ops|
  {
    if ops == [] then l
    else
      var d := Next(c, ops[0]);
      Ledge(d, Record(l, ops[0], Fresh(c, d)), ops[1..])
  }

  lemma {:induction false} RunFaithful(c: Core, env: Env, l: Ledger, ops: seq<Op>)
    requires Inv(c, env) && Lawful(c, env, ops) && Faithful(c.net, l)
    ensures Faithful(Run(c, ops).net, Ledge(c, l, ops))
    decreases |ops|
  {
    hide Inv, Allowed, Next, Advance, Negotiating, Faithful, Fresh, Record, Step;
    if ops != [] {
      NextKeeps(c, env, ops[0]);
      StepFaithful(c, env, l, ops[0]);
      var d := Next(c, ops[0]);
      RunFaithful(d, Advance(env, ops[0]), Record(l, ops[0], Fresh(c, d)), ops[1..]);
    }
  }

  /** No complete handshake has been delivered. */
  ghost predicate Unfinished(got: Blob) {
    forall line :: Multistream.Sendable(line) ==> !(MultistreamAgreement.Script(line) <= got)
  }

  /** User-stream fidelity, over every run and every chunking. While a stream belongs to a user
      protocol, the application has been told first that it is ready, and then exactly the bytes the
      transport delivered behind the handshake, pipelined ones included. A stream that is still
      negotiating has told nothing and has not been given a complete handshake. Each event, when it is
      queued, names the peer of its connection. */
  lemma UserStreamFidelity(config: Identify.Config, timeoutMs: u64, ops: seq<Op>, key: Key)
    requires Lawful(New(config, timeoutMs), NOWHERE, ops)
    ensures var net, l := Run(New(config, timeoutMs), ops).net, Ledge(New(config, timeoutMs), BLANK, ops);
            && (key in net.owner && net.owner[key].User? ==>
                  Delivered(net.owner[key].protocol, key.1, Got(l, key), Told(l, key)))
            && (key in net.inbound || key in net.outbound ==> Told(l, key) == [] && Unfinished(Got(l, key)))
    ensures WellNamed(New(config, timeoutMs), ops)
  {
    hide Lawful, Run, Ledge, WellNamed, Delivered, Multistream.Sendable, MultistreamAgreement.Script,
         MultistreamOutcome.Tracked;
    var start := New(config, timeoutMs);
    InvNew(config, timeoutMs);
    FaithfulNew(config, timeoutMs);
    RunFaithful(start, NOWHERE, BLANK, ops);
    RunNames(start, NOWHERE, ops);
    var net, l := Run(start, ops).net, Ledge(start, BLANK, ops);
    assert FaithfulAt(net, key, Got(l, key), Told(l, key));
    forall line | Multistream.Sendable(line) && (key in net.inbound || key in net.outbound)
      ensures !(MultistreamAgreement.Script(line) <= Got(l, key))
    {
      var m := if key in net.inbound then net.inbound[key] else net.outbound[key].negotiator;
      MultistreamOutcome.TrackedUnfinished(m, Got(l, key), line);
    }
  }

  /** Every stream is opened, proposed and handed over for one protocol: over every run, what is being
      opened and what is being dialled is for the protocol its target speaks, and a stream belongs to
      ping, identify or a user protocol only once the transport has delivered the whole handshake for
      that very protocol. */
  lemma TargetsMatch(config: Identify.Config, timeoutMs: u64, ops: seq<Op>)
    requires Lawful(New(config, timeoutMs), NOWHERE, ops)
    ensures var net, l := Run(New(config, timeoutMs), ops).net, Ledge(New(config, timeoutMs), BLANK, ops);
            && (forall t :: t in net.opens ==> Speaks(net.opens[t].target, net.opens[t].protocol))
            && (forall k :: k in net.outbound ==>
                  var role := net.outbound[k].negotiator.role;
                  role.Dialer? && Speaks(net.outbound[k].target, role.desired))
            && (forall k :: k in net.owner ==>
                  MultistreamAgreement.Script(ProtocolOf(net.owner[k])) <= Got(l, k))
  {
    hide Lawful, Run, Ledge, Delivered, MultistreamAgreement.Script, MultistreamOutcome.Tracked, Speaks;
    var start := New(config, timeoutMs);
    InvNew(config, timeoutMs);
    FaithfulNew(config, timeoutMs);
    RunFaithful(start, NOWHERE, BLANK, ops);
    var net, l := Run(start, ops).net, Ledge(start, BLANK, ops);
    forall k | k in net.outbound
      ensures DialsFor(net.outbound[k])
    {
      assert FaithfulAt(net, k, Got(l, k), Told(l, k));
    }
    forall k | k in net.owner
      ensures Spoken(net.owner[k], Got(l, k))
    {
      assert FaithfulAt(net, k, Got(l, k), Told(l, k));
    }
  }
}

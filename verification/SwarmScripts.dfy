/** What one step of the swarm consists of (crates/swarm/src/core.rs:232-312, 765-1124, 1126-1525).
    A step is described by a script: the actions the core asks for itself, the events it reports itself,
    and the inputs it gives to ping and identify. `Performs` says that a core has done exactly what a
    script leads to: the same actions and events, in order and no others, and the same machines. That
    every step performs its script is shown in `SwarmActions`. */
module SwarmScripts {
  import opened Bytes
  import opened Ids
  import opened Swarm
  import opened SwarmRouting
  import opened SwarmInvariant
  import opened SwarmEffects
  import opened SwarmAgreement
  import IdentifyMessage
  import Multistream
  import Ping
  import Identify

  datatype Doing =
    | Does(action: Action)
    | Reports(event: Event)
    | PingIn(ping: Ping.Input)
    | IdentifyIn(identify: Identify.Input)
    | Offers(protocol: Blob)

  function PingDoes(m: Ping.Machine, doing: Doing): Ping.Machine {
    if doing.PingIn? then PingDrained(Ping.Handle(m, doing.ping).0) else m
  }

  function IdentifyDoes(m: Identify.Machine, doing: Doing): Identify.Machine {
    if doing.IdentifyIn? then IdentifyDrained(Identify.Handle(m, doing.identify).0)
    else if doing.Offers? then Identify.AddProtocol(m, doing.protocol)
    else m
  }

  /** The ping machine on its own, run over its inputs. */
  function PingAfter(m: Ping.Machine, script: seq<Doing>): Ping.Machine
    decreases |script|
  {
    if script == [] then m else PingAfter(PingDoes(m, script[0]), script[1..])
  }

  function IdentifyAfter(m: Identify.Machine, script: seq<Doing>): Identify.Machine
    decreases |script|
  {
    if script == [] then m else IdentifyAfter(IdentifyDoes(m, script[0]), script[1..])
  }

  function ActsOne(net: Net, m: Ping.Machine, n: Identify.Machine, doing: Doing): seq<Action> {
    match doing
    case Does(action) => [action]
    case Reports(_) => []
    case PingIn(input) => RoutePing(net, Ping.Handle(m, input).0.actions)
    case IdentifyIn(input) => RouteIdentify(net, Identify.Handle(n, input).0.actions)
    case Offers(_) => []
  }

  /** The core's own actions, and whatever the machines want done, as the core routes it. */
  function Acts(net: Net, m: Ping.Machine, n: Identify.Machine, script: seq<Doing>): seq<Action>
    decreases |script|
  {
    if script == [] then []
    else
      ActsOne(net, m, n, script[0]) + Acts(net, PingDoes(m, script[0]), IdentifyDoes(n, script[0]), script[1..])
  }

  function NewsOne(net: Net, app: App, m: Ping.Machine, n: Identify.Machine, doing: Doing): seq<Event> {
    match doing
    case Does(_) => []
    case Reports(event) => [event]
    case PingIn(input) => ReportPing(net, Ping.Handle(m, input).0.events)
    case IdentifyIn(input) => Absorb(net, app, Identify.Handle(n, input).0.events).1
    case Offers(_) => []
  }

  /** The core's own events, and what the machines report, as the application is told. */
  function News(net: Net, app: App, m: Ping.Machine, n: Identify.Machine, script: seq<Doing>): seq<Event>
    decreases |script|
  {
    if script == [] then []
    else
      NewsOne(net, app, m, n, script[0])
      + News(net, app, PingDoes(m, script[0]), IdentifyDoes(n, script[0]), script[1..])
  }

  /** A core has done exactly this. */
  ghost predicate Performs(c: Core, d: Core, script: seq<Doing>) {
    && d.actions == c.actions + Acts(d.net, c.ping, c.identify, script)
    && d.events == c.events + News(d.net, c.app, c.ping, c.identify, script)
    && d.ping == PingAfter(c.ping, script) && d.identify == IdentifyAfter(c.identify, script)
  }

  // ------------------------------------------------------------------------ putting together

  lemma {:induction false} MachinesAppend(m: Ping.Machine, n: Identify.Machine, s: seq<Doing>, t: seq<Doing>)
    ensures PingAfter(m, s + t) == PingAfter(PingAfter(m, s), t)
    ensures IdentifyAfter(n, s + t) == IdentifyAfter(IdentifyAfter(n, s), t)
    decreases |s|
  {
    hide PingDoes, IdentifyDoes;
    if s == [] {
      assert s + t == t;
    } else {
      assert (s + t)[1..] == s[1..] + t && (s + t)[0] == s[0];
      MachinesAppend(PingDoes(m, s[0]), IdentifyDoes(n, s[0]), s[1..], t);
    }
  }

  lemma {:induction false} ActsAppend(net: Net, m: Ping.Machine, n: Identify.Machine, s: seq<Doing>, t: seq<Doing>)
    ensures Acts(net, m, n, s + t) == Acts(net, m, n, s) + Acts(net, PingAfter(m, s), IdentifyAfter(n, s), t)
    decreases |s|
  {
    hide PingDoes, IdentifyDoes, ActsOne;
    if s == [] {
      assert s + t == t;
    } else {
      var m1, n1 := PingDoes(m, s[0]), IdentifyDoes(n, s[0]);
      assert (s + t)[1..] == s[1..] + t && (s + t)[0] == s[0];
      ActsAppend(net, m1, n1, s[1..], t);
      var head := ActsOne(net, m, n, s[0]);
      var tail := Acts(net, PingAfter(m, s), IdentifyAfter(n, s), t);
      assert head + (Acts(net, m1, n1, s[1..]) + tail) == (head + Acts(net, m1, n1, s[1..])) + tail;
    }
  }

  lemma {:induction false} NewsAppend(net: Net, app: App, m: Ping.Machine, n: Identify.Machine, s: seq<Doing>,
                                      t: seq<Doing>)
    ensures News(net, app, m, n, s + t)
         == News(net, app, m, n, s) + News(net, app, PingAfter(m, s), IdentifyAfter(n, s), t)
    decreases |s|
  {
    hide PingDoes, IdentifyDoes, NewsOne;
    if s == [] {
      assert s + t == t;
    } else {
      var m1, n1 := PingDoes(m, s[0]), IdentifyDoes(n, s[0]);
      assert (s + t)[1..] == s[1..] + t && (s + t)[0] == s[0];
      NewsAppend(net, app, m1, n1, s[1..], t);
      var head := NewsOne(net, app, m, n, s[0]);
      var tail := News(net, app, PingAfter(m, s), IdentifyAfter(n, s), t);
      assert head + (News(net, app, m1, n1, s[1..]) + tail) == (head + News(net, app, m1, n1, s[1..])) + tail;
    }
  }

  lemma ScriptOne(net: Net, app: App, m: Ping.Machine, n: Identify.Machine, doing: Doing)
    ensures PingAfter(m, [doing]) == PingDoes(m, doing) && IdentifyAfter(n, [doing]) == IdentifyDoes(n, doing)
    ensures Acts(net, m, n, [doing]) == ActsOne(net, m, n, doing)
    ensures News(net, app, m, n, [doing]) == NewsOne(net, app, m, n, doing)
  {
    hide PingDoes, IdentifyDoes, ActsOne, NewsOne;
    assert [doing][1..] == [];
    assert ActsOne(net, m, n, doing) + [] == ActsOne(net, m, n, doing);
    assert NewsOne(net, app, m, n, doing) + [] == NewsOne(net, app, m, n, doing);
  }

  lemma ScriptNone(net: Net, app: App, m: Ping.Machine, n: Identify.Machine)
    ensures PingAfter(m, []) == m && IdentifyAfter(n, []) == n
    ensures Acts(net, m, n, []) == [] && News(net, app, m, n, []) == []
  {
  }

  /** What the application is told depends on its tables only through who is ready. */
  lemma {:induction false} AbsorbAlike(net: Net, app: App, other: App, events: seq<Identify.Event>)
    requires app.ready == other.ready
    ensures Absorb(net, app, events).1 == Absorb(net, other, events).1
    decreases |events|
  {
    if events != [] {
      AbsorbAlike(net, AbsorbOne(net, app, events[0]).0, AbsorbOne(net, other, events[0]).0, events[1..]);
    }
  }

  lemma {:induction false} NewsAlike(net: Net, app: App, other: App, m: Ping.Machine, n: Identify.Machine,
                                     script: seq<Doing>)
    requires app.ready == other.ready
    ensures News(net, app, m, n, script) == News(net, other, m, n, script)
    decreases |script|
  {
    hide PingDoes, IdentifyDoes, Ping.Handle, Identify.Handle, Absorb, ReportPing;
    if script != [] {
      if script[0].IdentifyIn? {
        AbsorbAlike(net, app, other, Identify.Handle(n, script[0].identify).0.events);
      }
      NewsAlike(net, app, other, PingDoes(m, script[0]), IdentifyDoes(n, script[0]), script[1..]);
    }
  }

  /** Two nets under which a script leads to the same outputs. */
  ghost predicate SameUnder(net: Net, to: Net, c: Core, script: seq<Doing>) {
    && Acts(to, c.ping, c.identify, script) == Acts(net, c.ping, c.identify, script)
    && News(to, c.app, c.ping, c.identify, script) == News(net, c.app, c.ping, c.identify, script)
  }

  /** Two performances in a row; what the first did comes out the same under the last net. */
  lemma PerformsThen(a: Core, b: Core, c: Core, s: seq<Doing>, t: seq<Doing>)
    requires Performs(a, b, s) && Performs(b, c, t) && SameUnder(b.net, c.net, a, s) && a.app.ready == b.app.ready
    ensures Performs(a, c, s + t)
  {
    hide Acts, News, PingAfter, IdentifyAfter;
    MachinesAppend(a.ping, a.identify, s, t);
    ActsAppend(c.net, a.ping, a.identify, s, t);
    NewsAppend(c.net, a.app, a.ping, a.identify, s, t);
    NewsAlike(c.net, a.app, b.app, b.ping, b.identify, t);
  }

  /** Same machines, queues and ready peers at the start; a net that leads to the same at the end. */
  lemma PerformsAlike(a: Core, b: Core, c: Core, d: Core, script: seq<Doing>)
    requires Performs(b, c, script) && SameUnder(c.net, d.net, b, script)
    requires a.actions == b.actions && a.events == b.events && a.ping == b.ping && a.identify == b.identify
    requires d.actions == c.actions && d.events == c.events && d.ping == c.ping && d.identify == c.identify
    requires a.app.ready == b.app.ready
    ensures Performs(a, d, script)
  {
    hide Acts, News, PingAfter, IdentifyAfter;
    NewsAlike(d.net, a.app, b.app, b.ping, b.identify, script);
  }

  lemma PerformsFrom(a: Core, b: Core, c: Core, script: seq<Doing>)
    requires Performs(b, c, script) && a.app.ready == b.app.ready
    requires a.actions == b.actions && a.events == b.events && a.ping == b.ping && a.identify == b.identify
    ensures Performs(a, c, script)
  {
    hide Performs, Acts, News;
    PerformsAlike(a, b, c, c, script);
  }

  // ---------------------------------------------------------------- scripts without machines

  predicate Plainly(script: seq<Doing>) {
    forall i :: 0 <= i < |script| ==> script[i].Does? || script[i].Reports?
  }

  function Deeds(script: seq<Doing>): seq<Action> {
    if script == [] then [] else (if script[0].Does? then [script[0].action] else []) + Deeds(script[1..])
  }

  function Notices(script: seq<Doing>): seq<Event> {
    if script == [] then [] else (if script[0].Reports? then [script[0].event] else []) + Notices(script[1..])
  }

  lemma {:induction false} DeedsAppend(s: seq<Doing>, t: seq<Doing>)
    ensures Deeds(s + t) == Deeds(s) + Deeds(t)
  {
    if s == [] {
      assert s + t == t;
    } else {
      DeedsAppend(s[1..], t);
      assert (s + t)[1..] == s[1..] + t && (s + t)[0] == s[0];
      var head := if s[0].Does? then [s[0].action] else [];
      assert head + (Deeds(s[1..]) + Deeds(t)) == (head + Deeds(s[1..])) + Deeds(t);
    }
  }

  lemma {:induction false} NoticesAppend(s: seq<Doing>, t: seq<Doing>)
    ensures Notices(s + t) == Notices(s) + Notices(t)
  {
    if s == [] {
      assert s + t == t;
    } else {
      NoticesAppend(s[1..], t);
      assert (s + t)[1..] == s[1..] + t && (s + t)[0] == s[0];
      var head := if s[0].Reports? then [s[0].event] else [];
      assert head + (Notices(s[1..]) + Notices(t)) == (head + Notices(s[1..])) + Notices(t);
    }
  }

  lemma {:induction false} PlainActs(net: Net, app: App, m: Ping.Machine, n: Identify.Machine, script: seq<Doing>)
    requires Plainly(script)
    ensures Acts(net, m, n, script) == Deeds(script) && News(net, app, m, n, script) == Notices(script)
    ensures PingAfter(m, script) == m && IdentifyAfter(n, script) == n
    decreases |script|
  {
    if script != [] {
      PlainActs(net, app, m, n, script[1..]);
    }
  }

  lemma PlainSame(net: Net, to: Net, c: Core, script: seq<Doing>)
    requires Plainly(script)
    ensures SameUnder(net, to, c, script)
  {
    hide Acts, News, Plainly;
    PlainActs(net, c.app, c.ping, c.identify, script);
    PlainActs(to, c.app, c.ping, c.identify, script);
  }

  lemma PerformsPlainly(c: Core, d: Core, script: seq<Doing>)
    requires Plainly(script) && d.ping == c.ping && d.identify == c.identify
    requires d.actions == c.actions + Deeds(script) && d.events == c.events + Notices(script)
    ensures Performs(c, d, script)
  {
    hide Acts, News, Plainly, PingAfter, IdentifyAfter;
    PlainActs(d.net, c.app, c.ping, c.identify, script);
  }

  lemma PerformsNothing(c: Core, d: Core)
    requires d.actions == c.actions && d.events == c.events && d.ping == c.ping && d.identify == c.identify
    ensures Performs(c, d, [])
  {
    ScriptNone(d.net, c.app, c.ping, c.identify);
  }

  lemma DeedsOne(doing: Doing)
    ensures Deeds([doing]) == (if doing.Does? then [doing.action] else [])
    ensures Notices([doing]) == (if doing.Reports? then [doing.event] else [])
  {
    assert [doing][1..] == [];
  }

  lemma PerformsAct(c: Core, d: Core, action: Action)
    requires d.actions == c.actions + [action] && d.events == c.events && d.ping == c.ping && d.identify == c.identify
    ensures Performs(c, d, [Does(action)])
  {
    hide Performs;
    DeedsOne(Does(action));
    PerformsPlainly(c, d, [Does(action)]);
  }

  lemma PerformsReport(c: Core, d: Core, event: Event)
    requires d.actions == c.actions && d.events == c.events + [event] && d.ping == c.ping && d.identify == c.identify
    ensures Performs(c, d, [Reports(event)])
  {
    hide Performs;
    DeedsOne(Reports(event));
    PerformsPlainly(c, d, [Reports(event)]);
  }

  lemma DeedsTwo(event: Event, action: Action)
    ensures var two := [Reports(event), Does(action)];
            Plainly(two) && Deeds(two) == [action] && Notices(two) == [event]
  {
    DeedsOne(Reports(event));
    DeedsOne(Does(action));
    DeedsAppend([Reports(event)], [Does(action)]);
    NoticesAppend([Reports(event)], [Does(action)]);
    assert [Reports(event)] + [Does(action)] == [Reports(event), Does(action)];
  }

  // --------------------------------------------------------------------------------- scripts

  function Reporting(events: seq<Event>): (r: seq<Doing>)
    ensures |r| == |events|
  {
    seq(|events|, i requires 0 <= i < |events| => Reports(events[i]))
  }

  function Forget(peer: PeerId): seq<Doing> {
    [PingIn(Ping.RemovePeer(peer)), IdentifyIn(Identify.RemovePeer(peer))]
  }

  function Saying(key: Key, outputs: seq<Multistream.Output>): seq<Doing> {
    if outputs == [] then []
    else
      (if outputs[0].OutboundData? then [Does(SendStream(key.0, key.1, outputs[0].bytes))] else [])
      + Saying(key, outputs[1..])
  }

  /** What a negotiator says, and the report and reset if it has failed. */
  function Talking(c: Core, key: Key, n: Multistream.Select, refusal: Option<ErrorKind>): seq<Doing> {
    Saying(key, n.pending) + Reporting(Complains(c.net, key.0, Verdict(n), refusal))
  }

  /** Bytes for a stream past negotiation. */
  function Received(kind: Option<Kind>, peer: PeerId, stream: StreamId, data: Blob, nowMs: u64): seq<Doing> {
    if kind == Some(PingKind) then [PingIn(Ping.StreamData(peer, stream, data, nowMs))]
    else if kind == Some(IdentifyInitiator) then [IdentifyIn(Identify.StreamData(peer, stream, data))]
    else if kind.Some? && kind.value.User? then [Reports(UserStreamData(peer, stream, data))]
    else []
  }

  /** A stream of the remote's has agreed on a protocol. */
  function JoinsIn(c: Core, key: Key, protocol: Blob): seq<Doing> {
    var peer := PeerOf(c.net, key.0);
    var observed := if key.0 in c.net.remoteAddr then Some(c.net.remoteAddr[key.0]) else None;
    if protocol == PING_ID then [PingIn(Ping.RegisterInboundStream(peer, key.1))]
    else if protocol == IDENTIFY_ID then
      if Identify.Peer(c.identify, peer).outbound.Some?
      then [Reports(RuntimeError(IdentifyStreamRejected, Some(peer), Some(key.0))), Does(ResetStream(key.0, key.1))]
      else [IdentifyIn(Identify.RegisterOutboundStream(peer, key.1, observed, c.app.localAddrs))]
    else if protocol in c.app.users then [Reports(UserStreamReady(peer, key.1, protocol, false))]
    else []
  }

  /** A queued ping is fired on its new stream, or dropped with a report if it cannot be sent. */
  function Fires(c: Core, conn: ConnId, peer: PeerId, nowMs: u64): seq<Doing> {
    if peer !in c.app.pendingPings then []
    else if |c.app.pendingPings[peer]| != Ping.PAYLOAD_LEN || Ping.Peer(c.ping, peer).pending.Some?
    then [Reports(RuntimeError(PingFault, Some(peer), Some(conn)))]
    else [PingIn(Ping.SendPing(peer, c.app.pendingPings[peer], nowMs))]
  }

  /** A second outbound ping stream of a peer. */
  predicate PingTaken(m: Ping.Machine, peer: PeerId, stream: StreamId) {
    Ping.Peer(m, peer).outbound.Some? && Ping.Peer(m, peer).outbound.value != stream
  }

  /** A stream of ours has been agreed to. */
  function JoinsOut(c: Core, key: Key, target: Kind, nowMs: u64): seq<Doing> {
    var peer := PeerOf(c.net, key.0);
    match target
    case PingKind =>
      if PingTaken(c.ping, peer, key.1)
      then [Reports(RuntimeError(PingFault, Some(peer), Some(key.0))), Does(ResetStream(key.0, key.1))]
      else [PingIn(Ping.RegisterOutboundStream(peer, key.1))] + Fires(c, key.0, peer, nowMs)
    case IdentifyInitiator => [IdentifyIn(Identify.RegisterInboundStream(peer, key.1))]
    case IdentifyResponder => []
    case User(protocol) => [Reports(UserStreamReady(peer, key.1, protocol, true))]
  }

  function OutboundKind(c: Core, peer: PeerId, stream: StreamId, target: Kind): Option<Kind> {
    if target.PingKind? && PingTaken(c.ping, peer, stream) then None else Some(target)
  }

  function InboundScript(c: Core, key: Key, data: Blob, nowMs: u64): seq<Doing>
    requires key in c.net.inbound && c.net.inbound[key].Valid()
  {
    var n, peer := FedIn(c, key, data), PeerOf(c.net, key.0);
    Talking(c, key, n, None) +
    if Verdict(n).None? then []
    else if Verdict(n).value.Negotiated? then
      JoinsIn(c, key, Verdict(n).value.protocol) +
      if n.recvBuf == [] then []
      else Received(InboundKind(c, peer, Verdict(n).value.protocol), peer, key.1, n.recvBuf, nowMs)
    else [Does(ResetStream(key.0, key.1))]
  }

  function OutboundScript(c: Core, key: Key, data: Blob, nowMs: u64): seq<Doing>
    requires key in c.net.outbound && c.net.outbound[key].negotiator.Valid()
  {
    var n, peer, target := FedOut(c, key, data), PeerOf(c.net, key.0), c.net.outbound[key].target;
    Talking(c, key, n, Some(UnsupportedProtocol)) +
    if Verdict(n).None? then []
    else if Verdict(n).value.Negotiated? then
      JoinsOut(c, key, target, nowMs) +
      if n.recvBuf == [] then []
      else Received(OutboundKind(c, peer, key.1, target), peer, key.1, n.recvBuf, nowMs)
    else [Does(ResetStream(key.0, key.1))]
  }

  function DataScript(c: Core, key: Key, data: Blob, nowMs: u64): seq<Doing>
    requires Negotiating(c.net)
  {
    if key in c.net.inbound then InboundScript(c, key, data, nowMs)
    else if key in c.net.outbound then OutboundScript(c, key, data, nowMs)
    else if key in c.net.owner then Received(Some(c.net.owner[key]), PeerOf(c.net, key.0), key.1, data, nowMs)
    else []
  }

  function WriteCloseScript(c: Core, key: Key): seq<Doing> {
    if key !in c.net.owner then []
    else
      var peer := PeerOf(c.net, key.0);
      match c.net.owner[key]
      case PingKind => [PingIn(Ping.StreamRemoteWriteClosed(peer, key.1))]
      case IdentifyInitiator => [IdentifyIn(Identify.StreamRemoteWriteClosed(peer, key.1))]
      case IdentifyResponder => []
      case User(_) => [Reports(UserStreamRemoteWriteClosed(peer, key.1))]
  }

  function CloseScript(c: Core, key: Key): seq<Doing> {
    if key !in c.net.owner then [] else ClosingScript(c.net.owner[key], PeerOf(c.net, key.0), key.1)
  }

  function ClosingScript(kind: Kind, peer: PeerId, stream: StreamId): seq<Doing> {
    match kind
    case PingKind => [PingIn(Ping.StreamClosed(peer, stream))]
    case User(_) => [Reports(UserStreamClosed(peer, stream))]
    case _ => [IdentifyIn(Identify.StreamClosed(peer, stream))]
  }

  function Greeting(conn: ConnId, stream: StreamId): seq<Doing> {
    [Does(SendStream(conn, stream, Multistream.EncodeMessage(Multistream.HEADER)))]
  }

  function OpenedScript(c: Core, conn: ConnId, stream: StreamId, token: u64): seq<Doing> {
    if token !in c.net.opens then [Reports(RuntimeError(DriverFault, None, None))]
    else if c.net.opens[token].conn != conn
    then [Reports(RuntimeError(DriverFault, PublicName(c.net, conn), Some(conn)))]
    else Greeting(conn, stream)
  }

  function FailedScript(c: Core, token: u64): seq<Doing> {
    if token !in c.net.opens then [Reports(RuntimeError(OpenStreamFault, None, None))]
    else
      var conn := c.net.opens[token].conn;
      [Reports(RuntimeError(OpenStreamFault, PublicName(c.net, conn), Some(conn)))]
  }

  /** The connection gets this name, which it did not have. */
  predicate Renames(c: Core, op: Op) {
    op.IdentityVerified? && op.who.Some? && !(op.id in c.net.connToPeer && c.net.connToPeer[op.id] == op.who.value)
  }

  /** What is known of a peer once the knowledge about another name has moved to it. */
  function InfoThen(c: Core, from: Option<PeerId>, peer: PeerId): Option<IdentifyMessage.Info> {
    if from.Some? && from.value in c.app.peerInfo then Some(c.app.peerInfo[from.value])
    else if peer in c.app.peerInfo then Some(c.app.peerInfo[peer])
    else None
  }

  predicate ReadyThen(c: Core, from: Option<PeerId>, peer: PeerId) {
    (from.Some? && from.value in c.app.ready) || peer in c.app.ready
  }

  function FormerName(c: Core, conn: ConnId): Option<PeerId> {
    if conn in c.net.connToPeer then Some(c.net.connToPeer[conn]) else None
  }

  function Migrates(from: Option<PeerId>, peer: PeerId): seq<Doing> {
    if from.None? then []
    else [PingIn(Ping.MigratePeer(from.value, peer)), IdentifyIn(Identify.MigratePeer(from.value, peer))]
  }

  /** A connection is announced under its new name, and the peer is ready if it was or its info is here. */
  function Introduces(c: Core, from: Option<PeerId>, peer: PeerId): seq<Doing> {
    [Reports(ConnectionEstablished(peer))]
    + if InfoThen(c, from, peer).Some? && !ReadyThen(c, from, peer)
      then [Reports(PeerReady(peer, InfoThen(c, from, peer).value.protocols))] else []
  }

  function Displaces(c: Core, peer: PeerId): seq<Doing> {
    if peer in c.net.peerToConn then Forget(peer) + [Does(CloseConnection(c.net.peerToConn[peer]))] else []
  }

  function CallScript(conn: ConnId, stream: StreamId, call: UserCall): seq<Doing> {
    match call
    case SendUser(data) => [Does(SendStream(conn, stream, data))]
    case CloseUserWrite => [Does(CloseStreamWrite(conn, stream))]
    case ResetUser => [Does(ResetStream(conn, stream))]
  }

  /** What one event, report or call consists of, but for the streams it asks for. */
  function Part(c: Core, op: Op): seq<Doing>
    requires Negotiating(c.net)
  {
    match op
    case Connected(id, who, _) =>
      if who.Some? then Displaces(c, who.value) + [Reports(ConnectionEstablished(who.value))] else []
    case IdentityVerified(id, who, _) =>
      if Renames(c, op)
      then Migrates(FormerName(c, id), who.value) + Introduces(c, FormerName(c, id), who.value) else []
    case ConnectionCloses(id) =>
      if id in c.net.connToPeer && ConnFor(c.net, c.net.connToPeer[id]) == Some(id)
      then Forget(c.net.connToPeer[id]) + [Reports(ConnectionClosed(c.net.connToPeer[id]))] else []
    case TransportFails(id) => [Reports(RuntimeError(TransportFault, PublicName(c.net, id), Some(id)))]
    case StreamArrives(id, stream) => Greeting(id, stream)
    case DriverOpened(id, stream, token) => OpenedScript(c, id, stream, token)
    case DriverFailed(token) => FailedScript(c, token)
    case DriverReports(kind, on) => [Reports(RuntimeError(kind, None, on))]
    case DataArrives(id, stream, data, nowMs) => DataScript(c, (id, stream), data, nowMs)
    case WriteCloses(id, stream) => WriteCloseScript(c, (id, stream))
    case StreamCloses(id, stream) => CloseScript(c, (id, stream))
    case Ticks(nowMs, order) => [PingIn(Ping.Tick(nowMs, order))]
    case CallAddProtocol(protocol) => [Offers(protocol)]
    case CallPing(peer, payload, nowMs) =>
      if peer in c.net.peerToConn && Ping.OutboundStream(c.ping, peer).Some?
      then [PingIn(Ping.SendPing(peer, payload, nowMs))] else []
    case CallUser(peer, stream, call) =>
      if UserConns(c.net, peer, stream) == {} then []
      else CallScript(Least(UserConns(c.net, peer, stream)), stream, call)
    case CallDisconnect(peer) =>
      if peer in c.net.peerToConn then [Does(CloseConnection(c.net.peerToConn[peer]))] else []
    case _ => []
  }

  /** The application may open a stream: it speaks the protocol, the peer is connected, and a peer that
      has said what it speaks speaks it too. */
  predicate MayOpen(c: Core, peer: PeerId, protocol: Blob) {
    && protocol in c.app.users && peer in c.net.peerToConn
    && (peer in c.app.ready ==> peer in c.app.peerInfo && protocol in c.app.peerInfo[peer].protocols)
  }

  /** The streams a step asks the transport for: identify on every connection that gets a new name, a
      ping stream for a ping that has none, and what the application opens. */
  ghost function Asked(c: Core, op: Op): (r: seq<PendingOpen>)
    ensures |r| <= 2
  {
    match op
    case Connected(id, who, _) =>
      if who.None? then []
      else
        [PendingOpen(id, IDENTIFY_ID, IdentifyInitiator)] +
        if who.value in c.app.pendingPings
           && (who.value in c.net.peerToConn || Ping.OutboundStream(c.ping, who.value).None?)
        then [PendingOpen(id, PING_ID, PingKind)] else []
    case IdentityVerified(id, who, _) =>
      if Renames(c, op) then [PendingOpen(id, IDENTIFY_ID, IdentifyInitiator)] else []
    case CallPing(peer, _, _) =>
      if peer in c.net.peerToConn && Ping.OutboundStream(c.ping, peer).None? && NoPing(c.net, c.net.peerToConn[peer])
      then [PendingOpen(c.net.peerToConn[peer], PING_ID, PingKind)] else []
    case CallOpen(peer, protocol) =>
      if MayOpen(c, peer, protocol) then [PendingOpen(c.net.peerToConn[peer], protocol, User(protocol))] else []
    case _ => []
  }

  /** The opens, under consecutive tokens. */
  function Opens(token: nat, asked: seq<PendingOpen>): (r: seq<Doing>)
    requires token + |asked| <= TWO_64
    ensures |r| == |asked|
  {
    seq(|asked|, i requires 0 <= i < |asked| => Does(OpenStream(asked[i].conn, token + i)))
  }

  ghost function Script(c: Core, op: Op): seq<Doing>
    requires Negotiating(c.net) && c.net.nextToken + 2 < TWO_64
  {
    Part(c, op) + Opens(c.net.nextToken, Asked(c, op))
  }

  /** The state before a step, but with what is queued about a connection under the name it is getting. */
  function Readdressed(c: Core, op: Op): Core {
    if Renames(c, op) && op.id in c.net.connToPeer
    then c.(events := RenameEvents(c.events, c.net.connToPeer[op.id], op.who.value)) else c
  }
}

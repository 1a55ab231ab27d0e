/** On whose behalf the swarm acts (crates/swarm/src/core.rs:232-312, 345-392, 965-1124, 1417-1576).
    While no connection takes on the identity of another, every action of every step is one the core
    owes for the event, or one that ping or identify want, carried out on the connection of their peer
    and on a stream that belongs to them (`ActionsOfStep`, `ActionsOfRun`). On streams of the application
    nothing happens but what it calls for (`UserCallsOfRun`). */
module SwarmConduct {
  import opened Bytes
  import opened Ids
  import opened Swarm
  import opened SwarmRouting
  import opened SwarmInvariant
  import opened SwarmSteps
  import opened SwarmEffects
  import opened SwarmRuns
  import opened SwarmAgreement
  import opened SwarmScripts
  import opened SwarmActions
  import opened SwarmTables
  import opened SwarmTraffic
  import Multistream
  import Ping
  import Identify

  // ------------------------------------------------------------------ what the machines want

  function PingWish(conn: ConnId, action: Ping.Action): Action {
    match action
    case Send(_, stream, data) => SendStream(conn, stream, data)
    case CloseStreamWrite(_, stream) => CloseStreamWrite(conn, stream)
    case ResetStream(_, stream) => ResetStream(conn, stream)
  }

  function IdentifyWish(conn: ConnId, action: Identify.Action): Action {
    match action
    case Send(_, stream, data) => SendStream(conn, stream, data)
    case CloseStreamWrite(_, stream) => CloseStreamWrite(conn, stream)
  }

  /** What ping wants, each on the connection of its peer. */
  function PingWants(net: Net, actions: seq<Ping.Action>): seq<Action> {
    if actions == [] then []
    else
      (if actions[0].peer in net.peerToConn then [PingWish(net.peerToConn[actions[0].peer], actions[0])] else [])
      + PingWants(net, actions[1..])
  }

  function IdentifyWants(net: Net, actions: seq<Identify.Action>): seq<Action> {
    if actions == [] then []
    else
      (if actions[0].peer in net.peerToConn then [IdentifyWish(net.peerToConn[actions[0].peer], actions[0])] else [])
      + IdentifyWants(net, actions[1..])
  }

  /** Every wish has a place: a stream that the peer's connection keeps for that protocol. */
  ghost predicate PingPlaced(net: Net, actions: seq<Ping.Action>) {
    forall i :: 0 <= i < |actions| ==> OwnedAs(net, actions[i].peer, actions[i].stream, PingKind)
  }

  predicate OwnedByIdentify(net: Net, peer: PeerId, stream: StreamId) {
    OwnedAs(net, peer, stream, IdentifyResponder) || OwnedAs(net, peer, stream, IdentifyInitiator)
  }

  ghost predicate IdentifyPlaced(net: Net, actions: seq<Identify.Action>) {
    forall i :: 0 <= i < |actions| ==> OwnedByIdentify(net, actions[i].peer, actions[i].stream)
  }

  lemma {:induction false} PingRouted(net: Net, actions: seq<Ping.Action>)
    requires Inverse(net) && Coherent(net) && PingPlaced(net, actions)
    ensures RoutePing(net, actions) == PingWants(net, actions)
  {
    hide Inverse, Coherent, ConnForOwned;
    if actions != [] {
      PingRouted(net, actions[1..]);
      OwnedRoute(net, actions[0].peer, actions[0].stream);
    }
  }

  lemma {:induction false} IdentifyRouted(net: Net, actions: seq<Identify.Action>)
    ensures RouteIdentify(net, actions) == IdentifyWants(net, actions)
  {
    if actions != [] {
      IdentifyRouted(net, actions[1..]);
    }
  }

  function DoneOne(net: Net, m: Ping.Machine, n: Identify.Machine, doing: Doing): seq<Action> {
    match doing
    case Does(action) => [action]
    case Reports(_) => []
    case PingIn(input) => PingWants(net, Ping.Handle(m, input).0.actions)
    case IdentifyIn(input) => IdentifyWants(net, Identify.Handle(n, input).0.actions)
    case Offers(_) => []
  }

  /** What the core owes, and what the two machines, run on their own over their inputs, want: each once,
      in order, on the connection of its peer. */
  function Done(net: Net, m: Ping.Machine, n: Identify.Machine, script: seq<Doing>): seq<Action>
    decreases |script|
  {
    if script == [] then []
    else
      DoneOne(net, m, n, script[0]) + Done(net, PingDoes(m, script[0]), IdentifyDoes(n, script[0]), script[1..])
  }

  ghost predicate PlacedOne(net: Net, m: Ping.Machine, n: Identify.Machine, doing: Doing) {
    && (doing.PingIn? ==> PingPlaced(net, Ping.Handle(m, doing.ping).0.actions))
    && (doing.IdentifyIn? ==> IdentifyPlaced(net, Identify.Handle(n, doing.identify).0.actions))
  }

  ghost predicate AllPlaced(net: Net, m: Ping.Machine, n: Identify.Machine, script: seq<Doing>)
    decreases |script|
  {
    script == [] ||
    (PlacedOne(net, m, n, script[0])
     && AllPlaced(net, PingDoes(m, script[0]), IdentifyDoes(n, script[0]), script[1..]))
  }

  lemma {:induction false} DoneIs(net: Net, m: Ping.Machine, n: Identify.Machine, script: seq<Doing>)
    requires Inverse(net) && Coherent(net) && AllPlaced(net, m, n, script)
    ensures Acts(net, m, n, script) == Done(net, m, n, script)
    decreases |script|
  {
    hide PingDoes, IdentifyDoes, Inverse, Coherent, RoutePing, RouteIdentify, Ping.Handle, Identify.Handle, PingPlaced,
         IdentifyPlaced, PingWants, IdentifyWants;
    if script != [] {
      var x := script[0];
      if x.PingIn? {
        PingRouted(net, Ping.Handle(m, x.ping).0.actions);
      } else if x.IdentifyIn? {
        IdentifyRouted(net, Identify.Handle(n, x.identify).0.actions);
      }
      DoneIs(net, PingDoes(m, x), IdentifyDoes(n, x), script[1..]);
    }
  }

  // ----------------------------------------------------------------------- every wish has a place

  /** Inputs about a stream, in answer to which ping acts on that stream. */
  predicate OwnStream(input: Ping.Input) {
    input.StreamData? || input.RegisterInboundStream? || input.StreamRemoteWriteClosed?
  }

  /** The input is about a stream that belongs to the machine. */
  ghost predicate AtHome(net: Net, doing: Doing) {
    && (doing.PingIn? && OwnStream(doing.ping) ==> OwnedAs(net, doing.ping.peer, doing.ping.stream, PingKind))
    && (doing.IdentifyIn? && doing.identify.RegisterOutboundStream? ==>
          OwnedAs(net, doing.identify.peer, doing.identify.stream, IdentifyResponder))
    && (doing.IdentifyIn? && doing.identify.StreamRemoteWriteClosed? ==>
          OwnedAs(net, doing.identify.peer, doing.identify.stream, IdentifyInitiator))
  }

  ghost predicate AllAtHome(net: Net, script: seq<Doing>) {
    forall i :: 0 <= i < |script| ==> AtHome(net, script[i])
  }

  lemma OwnActs(m: Ping.Machine, input: Ping.Input)
    requires Ping.Idle(m) && OwnStream(input)
    ensures var actions := Ping.Handle(m, input).0.actions;
            forall i :: 0 <= i < |actions| ==> actions[i].peer == input.peer && actions[i].stream == input.stream
  {
  }

  lemma OtherActs(m: Ping.Machine, input: Ping.Input)
    requires Ping.Idle(m) && !OwnStream(input) && !input.SendPing? && !input.Tick? && !input.CloseOutboundStreamWrite?
    ensures Ping.Handle(m, input).0.actions == []
  {
  }

  lemma SendActs(m: Ping.Machine, input: Ping.Input)
    requires Ping.Idle(m) && input.SendPing?
    ensures var actions := Ping.Handle(m, input).0.actions;
            forall i :: 0 <= i < |actions| ==>
              Holds(PingDrained(Ping.Handle(m, input).0), actions[i].peer, actions[i].stream)
  {
  }

  ghost predicate AllHeld(m: Ping.Machine, actions: seq<Ping.Action>) {
    forall i :: 0 <= i < |actions| ==> Holds(m, actions[i].peer, actions[i].stream)
  }

  lemma {:induction false} TickActs(start: Ping.Machine, m: Ping.Machine, nowMs: u64, order: seq<PeerId>)
    requires PingRecedes(start, m) && AllHeld(start, m.actions)
    ensures AllHeld(start, Ping.TickAll(m, nowMs, order).actions)
    decreases |order|
  {
    hide PingRecedes, Holds;
    if order != [] {
      var next := Ping.Expire(m, order[0], nowMs);
      ExpireRecedes(m, order[0], nowMs);
      RecedesOn(start, m, next);
      ExpireHeld(m, order[0], nowMs);
      HeldBefore(start, m);
      TickActs(start, next, nowMs, order[1..]);
    }
  }

  lemma RecedesOn(a: Ping.Machine, b: Ping.Machine, c: Ping.Machine)
    requires PingRecedes(a, b) && PingRecedes(b, c)
    ensures PingRecedes(a, c)
  {
  }

  lemma ExpireHeld(m: Ping.Machine, peer: PeerId, nowMs: u64)
    ensures var n := Ping.Expire(m, peer, nowMs);
            n.actions == m.actions ||
            exists s :: Holds(m, peer, s) && n.actions == m.actions + [Ping.ResetStream(peer, s)]
  {
    var state := Ping.Peer(m, peer);
    if Ping.Expired(m, peer, nowMs) {
      assert Holds(m, peer, state.outbound.value);
    }
  }

  lemma IdentifyActs(n: Identify.Machine, input: Identify.Input)
    requires Identify.Idle(n)
    ensures var actions := Identify.Handle(n, input).0.actions;
            && (!input.RegisterOutboundStream? && !input.StreamRemoteWriteClosed? ==> actions == [])
            && (input.RegisterOutboundStream? || input.StreamRemoteWriteClosed? ==>
                  forall i :: 0 <= i < |actions| ==> actions[i].peer == input.peer && actions[i].stream == input.stream)
  {
    hide Identify.DecodeFramed;
  }

  /** Inputs that neither send a ping nor look at the clock. */
  predicate Steered(doing: Doing) {
    doing.PingIn? ==> !doing.ping.SendPing? && !doing.ping.Tick? && !doing.ping.CloseOutboundStreamWrite?
  }

  lemma SteeredPlaced(net: Net, m: Ping.Machine, n: Identify.Machine, doing: Doing)
    requires Ping.Idle(m) && Identify.Idle(n) && AtHome(net, doing) && Steered(doing)
    ensures PlacedOne(net, m, n, doing)
  {
    hide Ping.Handle, Identify.Handle, OwnedAs;
    if doing.PingIn? {
      if OwnStream(doing.ping) {
        OwnActs(m, doing.ping);
      } else {
        OtherActs(m, doing.ping);
      }
    } else if doing.IdentifyIn? {
      IdentifyActs(n, doing.identify);
    }
  }

  lemma DoesIdle(m: Ping.Machine, n: Identify.Machine, doing: Doing)
    requires Ping.Idle(m) && Identify.Idle(n)
    ensures Ping.Idle(PingDoes(m, doing)) && Identify.Idle(IdentifyDoes(n, doing))
  {
    hide Ping.Handle, Identify.Handle;
  }

  lemma {:induction false} AllSteeredPlaced(net: Net, m: Ping.Machine, n: Identify.Machine, script: seq<Doing>)
    requires Ping.Idle(m) && Identify.Idle(n) && AllAtHome(net, script)
    requires forall i :: 0 <= i < |script| ==> Steered(script[i])
    ensures AllPlaced(net, m, n, script)
    decreases |script|
  {
    hide PlacedOne, PingDoes, IdentifyDoes, Steered, AtHome, Ping.Idle, Identify.Idle;
    if script != [] {
      SteeredPlaced(net, m, n, script[0]);
      DoesIdle(m, n, script[0]);
      AllSteeredPlaced(net, PingDoes(m, script[0]), IdentifyDoes(n, script[0]), script[1..]);
    }
  }

  /** Inputs that take no stream away from ping. */
  predicate Keeping(doing: Doing) {
    doing.PingIn? ==> doing.ping.SendPing? || doing.ping.StreamData? || doing.ping.RegisterOutboundStream?
                      || doing.ping.RegisterInboundStream?
  }

  predicate AllKeeping(script: seq<Doing>) {
    forall i :: 0 <= i < |script| ==> Keeping(script[i])
  }

  lemma KeepsOne(m: Ping.Machine, doing: Doing)
    requires Keeping(doing)
    ensures forall p, s :: Holds(m, p, s) ==> Holds(PingDoes(m, doing), p, s)
  {
    if doing.PingIn? {
      var n := PingDoes(m, doing);
      forall p, s | Holds(m, p, s)
        ensures Holds(n, p, s)
      {
        if p != doing.ping.peer {
          assert Ping.Peer(n, p) == Ping.Peer(m, p);
        }
      }
    }
  }

  lemma {:induction false} KeepsAll(m: Ping.Machine, script: seq<Doing>)
    requires AllKeeping(script)
    ensures forall p, s :: Holds(m, p, s) ==> Holds(PingAfter(m, script), p, s)
    decreases |script|
  {
    hide Holds, PingDoes;
    if script != [] {
      KeepsOne(m, script[0]);
      KeepsAll(PingDoes(m, script[0]), script[1..]);
    }
  }

  /** Streams held at the end of a script that takes none away were there to be sent on. */
  lemma {:induction false} AllKeepingPlaced(net: Net, m: Ping.Machine, n: Identify.Machine, script: seq<Doing>)
    requires Ping.Idle(m) && Identify.Idle(n) && AllKeeping(script) && AllAtHome(net, script)
    requires PingOwned(net, PingAfter(m, script))
    ensures AllPlaced(net, m, n, script)
    decreases |script|
  {
    hide Holds, OwnedAs, PingDoes, IdentifyDoes, Ping.Handle, Identify.Handle, AtHome, IdentifyPlaced;
    if script != [] {
      var x, m1, n1 := script[0], PingDoes(m, script[0]), IdentifyDoes(n, script[0]);
      DoesIdle(m, n, x);
      AllKeepingPlaced(net, m1, n1, script[1..]);
      KeepsAll(m1, script[1..]);
      if x.PingIn? && x.ping.SendPing? {
        SendActs(m, x.ping);
        assert m1 == PingDrained(Ping.Handle(m, x.ping).0) by { DoesPing(m, x); }
      } else {
        SteeredPlaced(net, m, n, x);
      }
    }
  }

  lemma DoesPing(m: Ping.Machine, doing: Doing)
    requires doing.PingIn?
    ensures PingDoes(m, doing) == PingDrained(Ping.Handle(m, doing.ping).0)
  {
    hide Ping.Handle;
  }

  lemma TickPlaced(net: Net, m: Ping.Machine, n: Identify.Machine, nowMs: u64, order: seq<PeerId>)
    requires Ping.Idle(m) && PingOwned(net, m)
    ensures AllPlaced(net, m, n, [PingIn(Ping.Tick(nowMs, order))])
  {
    hide Holds, OwnedAs, PingDoes, IdentifyDoes, Ping.TickAll, PingRecedes;
    Unmoved(m, n);
    TickActs(m, m, nowMs, order);
    assert [PingIn(Ping.Tick(nowMs, order))][1..] == [];
  }

  // ------------------------------------------------------------------------ scripts at home

  lemma OwnerSeats(net: Net, key: Key)
    requires Inverse(net) && key in net.owner && key.0 in net.connToPeer
    ensures OwnedAs(net, net.connToPeer[key.0], key.1, net.owner[key])
  {
    assert LeadsBack(net, key.0);
  }

  /** A stream and its owner, under the name of its connection. */
  ghost predicate Resides(net: Net, key: Key, peer: PeerId, kind: Option<Kind>) {
    KindAt(net, key) == kind && (kind.Some? ==> OwnedAs(net, peer, key.1, kind.value))
  }

  lemma ReceivedAtHome(net: Net, key: Key, peer: PeerId, kind: Option<Kind>, data: Blob, nowMs: u64)
    requires Resides(net, key, peer, kind)
    ensures AllAtHome(net, Received(kind, peer, key.1, data, nowMs))
  {
  }

  lemma JoinsInAtHome(net: Net, c: Core, key: Key, protocol: Blob)
    requires Resides(net, key, PeerOf(c.net, key.0), InboundKind(c, PeerOf(c.net, key.0), protocol))
    ensures AllAtHome(net, JoinsIn(c, key, protocol))
  {
    hide OwnedAs;
  }

  lemma JoinsOutAtHome(net: Net, c: Core, key: Key, target: Kind, nowMs: u64)
    ensures AllAtHome(net, JoinsOut(c, key, target, nowMs))
  {
    hide PingTaken;
  }

  lemma PlainAtHome(net: Net, script: seq<Doing>)
    requires Plainly(script)
    ensures AllAtHome(net, script) && AllKeeping(script)
  {
  }

  lemma Together(net: Net, s: seq<Doing>, t: seq<Doing>)
    requires AllAtHome(net, s) && AllAtHome(net, t) && AllKeeping(s) && AllKeeping(t)
    ensures AllAtHome(net, s + t) && AllKeeping(s + t)
  {
    hide AtHome, Keeping;
  }

  lemma JoinsKeep(c: Core, key: Key, protocol: Blob, target: Kind, kind: Option<Kind>, peer: PeerId, data: Blob,
                  nowMs: u64)
    ensures AllKeeping(JoinsIn(c, key, protocol)) && AllKeeping(JoinsOut(c, key, target, nowMs))
    ensures AllKeeping(Received(kind, peer, key.1, data, nowMs))
  {
    hide PingTaken;
  }

  /** Where a stream is once its handshake is over. */
  lemma HandedResides(net: Net, key: Key, kind: Option<Kind>, to: Net)
    requires to == Handed(net, key, kind) && Inverse(to) && key.0 in net.connToPeer && key !in net.owner
    ensures Resides(to, key, net.connToPeer[key.0], kind)
  {
    hide Inverse;
    if kind.Some? {
      OwnerSeats(to, key);
    }
  }

  lemma InboundAtHome(c: Core, env: Env, key: Key, data: Blob, nowMs: u64, to: Net)
    requires Inv(c, env) && Negotiating(c.net) && key in c.net.inbound
    requires to == InboundThen(c, key, data) && Inverse(to)
    ensures var script := InboundScript(c, key, data, nowMs);
            AllAtHome(to, script) && AllKeeping(script)
  {
    hide Inv, Negotiating, FedIn, Verdict, Talking, JoinsIn, Received, InboundKind, AllAtHome, AllKeeping, Inverse,
         Handed, Resides, NamedAtLeast, Plainly;
    InboundAlone(c, env, key);
    UndecidedValid(c.net.inbound[key]);
    var n, peer := FedIn(c, key, data), PeerOf(c.net, key.0);
    var talk := Talking(c, key, n, None);
    TalkingDeeds(c, key, n, None);
    PlainAtHome(to, talk);
    EmptyAtHome(to);
    if Verdict(n).None? {
      Together(to, talk, []);
    } else if Verdict(n).value.Negotiated? {
      var protocol := Verdict(n).value.protocol;
      var kind := InboundKind(c, peer, protocol);
      NamedSame(c.net, key);
      HandedResides(NamedAtLeast(c.net, key.0), key, kind, to);
      JoinsInAtHome(to, c, key, protocol);
      ReceivedAtHome(to, key, peer, kind, n.recvBuf, nowMs);
      JoinsKeep(c, key, protocol, PingKind, kind, peer, n.recvBuf, nowMs);
      var more := if n.recvBuf == [] then [] else Received(kind, peer, key.1, n.recvBuf, nowMs);
      Together(to, JoinsIn(c, key, protocol), more);
      Together(to, talk, JoinsIn(c, key, protocol) + more);
    } else {
      ResetAtHome(to, key);
      Together(to, talk, [Does(ResetStream(key.0, key.1))]);
    }
  }

  lemma NamedSame(net: Net, key: Key)
    ensures var to := NamedAtLeast(net, key.0);
            key.0 in to.connToPeer && to.connToPeer[key.0] == PeerOf(net, key.0) && to.owner == net.owner
  {
  }

  lemma EmptyAtHome(net: Net)
    ensures AllAtHome(net, []) && AllKeeping([])
  {
  }

  lemma ResetAtHome(net: Net, key: Key)
    ensures var script := [Does(ResetStream(key.0, key.1))];
            AllAtHome(net, script) && AllKeeping(script)
  {
  }

  lemma OutboundAtHome(c: Core, env: Env, key: Key, data: Blob, nowMs: u64, to: Net)
    requires Inv(c, env) && Negotiating(c.net) && key in c.net.outbound
    requires to == OutboundThen(c, key, data) && Inverse(to)
    ensures var script := OutboundScript(c, key, data, nowMs);
            AllAtHome(to, script) && AllKeeping(script)
  {
    hide Inv, Negotiating, FedOut, Verdict, Talking, JoinsOut, Received, OutboundKind, AllAtHome, AllKeeping, Inverse,
         Handed, Resides, Plainly;
    OutboundAlone(c, env, key);
    UndecidedValid(c.net.outbound[key].negotiator);
    var n, peer, target := FedOut(c, key, data), PeerOf(c.net, key.0), c.net.outbound[key].target;
    var talk := Talking(c, key, n, Some(UnsupportedProtocol));
    TalkingDeeds(c, key, n, Some(UnsupportedProtocol));
    PlainAtHome(to, talk);
    EmptyAtHome(to);
    if Verdict(n).None? {
      Together(to, talk, []);
    } else if Verdict(n).value.Negotiated? {
      var kind := OutboundKind(c, peer, key.1, target);
      HandedResides(c.net, key, kind, to);
      JoinsOutAtHome(to, c, key, target, nowMs);
      ReceivedAtHome(to, key, peer, kind, n.recvBuf, nowMs);
      JoinsKeep(c, key, [], target, kind, peer, n.recvBuf, nowMs);
      var more := if n.recvBuf == [] then [] else Received(kind, peer, key.1, n.recvBuf, nowMs);
      Together(to, JoinsOut(c, key, target, nowMs), more);
      Together(to, talk, JoinsOut(c, key, target, nowMs) + more);
    } else {
      ResetAtHome(to, key);
      Together(to, talk, [Does(ResetStream(key.0, key.1))]);
    }
  }

  lemma DataAtHome(c: Core, env: Env, op: Op, to: Net)
    requires Inv(c, env) && Negotiating(c.net) && op.DataArrives? && to == StreamThen(c, op) && Inverse(to)
    ensures AllAtHome(to, Part(c, op)) && AllKeeping(Part(c, op))
  {
    hide Inv, Negotiating, InboundThen, OutboundThen, AllAtHome, AllKeeping, Inverse, InboundScript, OutboundScript,
         Received;
    var key := (op.id, op.stream);
    EmptyAtHome(to);
    if key in c.net.inbound {
      InboundAtHome(c, env, key, op.data, op.nowMs, to);
    } else if key in c.net.outbound {
      OutboundAtHome(c, env, key, op.data, op.nowMs, to);
    } else if key in c.net.owner {
      OwnerNamed(c, env, key);
      OwnerSeats(to, key);
      var peer, kind := c.net.connToPeer[op.id], Some(c.net.owner[key]);
      ReceivedAtHome(to, key, peer, kind, op.data, op.nowMs);
      JoinsKeep(c, key, [], PingKind, kind, peer, op.data, op.nowMs);
    }
  }

  /** Scripts of the other steps: their inputs about streams are about streams of the machines, too. */
  lemma OtherAtHome(c: Core, env: Env, op: Op, to: Net)
    requires Inv(c, env) && Negotiating(c.net) && Inverse(c.net) && !op.DataArrives? && !op.Ticks?
    requires op.WriteCloses? ==> to == c.net
    ensures AllAtHome(to, Part(c, op))
    ensures AllKeeping(Part(c, op)) || forall i :: 0 <= i < |Part(c, op)| ==> Steered(Part(c, op)[i])
  {
    hide Inv, Negotiating, Inverse, UserConns, Least, Multistream.EncodeMessage, DataScript, InfoThen, ReadyThen,
         PublicName, OwnedAs;
    if op.WriteCloses? && (op.id, op.stream) in c.net.owner {
      OwnerNamed(c, env, (op.id, op.stream));
      OwnerSeats(c.net, (op.id, op.stream));
    }
  }

  lemma PlanParts(c: Core, op: Op, to: Net)
    requires Negotiating(c.net) && c.net.nextToken + 2 < TWO_64 && !op.PollOutput? && AllAtHome(to, Part(c, op))
    ensures AllAtHome(to, Plan(c, op))
    ensures AllKeeping(Part(c, op)) ==> AllKeeping(Plan(c, op))
    ensures (forall i :: 0 <= i < |Part(c, op)| ==> Steered(Part(c, op)[i])) ==>
              forall i :: 0 <= i < |Plan(c, op)| ==> Steered(Plan(c, op)[i])
  {
    hide Negotiating, Part, Asked, AtHome, Plainly;
    var opens := Opens(c.net.nextToken, Asked(c, op));
    OpensPlain(c.net.nextToken, Asked(c, op));
    PlainAtHome(to, opens);
    assert forall i :: 0 <= i < |opens| ==> Steered(opens[i]);
  }

  lemma PartAtHome(c: Core, env: Env, op: Op)
    requires Inv(c, env) && Negotiating(c.net) && Allowed(env, c, op) && Inverse(c.net) && Inverse(Step(c, op).net)
    requires !op.Ticks?
    ensures AllAtHome(Step(c, op).net, Part(c, op))
    ensures AllKeeping(Part(c, op)) || forall i :: 0 <= i < |Part(c, op)| ==> Steered(Part(c, op)[i])
  {
    hide Inv, Negotiating, Inverse, Step, Part, AllAtHome, AllKeeping, StreamThen, InboundThen, OutboundThen;
    if op.DataArrives? {
      StreamNet(c, env, op);
      DataAtHome(c, env, op, Step(c, op).net);
    } else {
      if op.WriteCloses? {
        StreamNet(c, env, op);
        WriteCloseNet(c, op);
      }
      OtherAtHome(c, env, op, Step(c, op).net);
    }
  }

  lemma WriteCloseNet(c: Core, op: Op)
    requires Negotiating(c.net) && op.WriteCloses?
    ensures StreamThen(c, op) == c.net
  {
    hide Negotiating;
  }

  lemma TickNet(c: Core, env: Env, op: Op)
    requires Inv(c, env) && Negotiating(c.net) && Allowed(env, c, op) && op.Ticks?
    ensures Step(c, op).net == c.net && Plan(c, op) == [PingIn(Ping.Tick(op.nowMs, op.order))]
  {
    hide Inv, Negotiating, Step, Asking;
    StepNet(c, env, op);
    AskingNone(c.net);
    NothingAsked(c, op);
  }

  // -------------------------------------------------------------------------------- theorem

  lemma StepPlaced(c: Core, env: Env, op: Op)
    requires Inv(c, env) && Allowed(env, c, op) && Agree(c) && Steady(c, op)
    ensures AllPlaced(Next(c, op).net, c.ping, c.identify, Plan(c, op))
  {
    hide Step, Negotiating, Sound, Coherent, Readiness, PingAfter, IdentifyAfter, Puts, Takes, Plan, Part, AllPlaced,
         AllAtHome, Acts, PingOwned, IdentifyOwned, Inverse, Steered, AllKeeping;
    NextKeeps(c, env, op);
    NextPerforms(c, env, op);
    StepAgrees(c, env, op);
    var d := Next(c, op);
    if op.PollOutput? {
      PollPlaced(c, op, d.net);
    } else if op.Ticks? {
      TickNet(c, env, op);
      TickPlaced(d.net, c.ping, c.identify, op.nowMs, op.order);
    } else {
      PartAtHome(c, env, op);
      PlanParts(c, op, d.net);
      if AllKeeping(Part(c, op)) {
        AllKeepingPlaced(d.net, c.ping, c.identify, Plan(c, op));
      } else {
        AllSteeredPlaced(d.net, c.ping, c.identify, Plan(c, op));
      }
    }
  }

  lemma PollPlaced(c: Core, op: Op, net: Net)
    requires op.PollOutput?
    ensures AllPlaced(net, c.ping, c.identify, Plan(c, op))
  {
  }

  /** In a step that keeps agreement, the actions queued are exactly those the core owes and those the two
      machines want, each in its place. */
  lemma ActionsOfStep(c: Core, env: Env, op: Op)
    requires Inv(c, env) && Allowed(env, c, op) && Agree(c) && Steady(c, op)
    ensures var d := Next(c, op);
            && AllPlaced(d.net, c.ping, c.identify, Plan(c, op))
            && Puts(c, d, op) == Done(d.net, c.ping, c.identify, Plan(c, op))
  {
    hide Step, Negotiating, Sound, Readiness, PingAfter, IdentifyAfter, Puts, Takes, Plan, Acts, AllPlaced, Done;
    NextKeeps(c, env, op);
    NextPerforms(c, env, op);
    StepAgrees(c, env, op);
    StepPlaced(c, env, op);
    DoneIs(Next(c, op).net, c.ping, c.identify, Plan(c, op));
  }

  /** What a run does: `m` and `n` are a ping and an identify machine outside the swarm, which are given
      the inputs of the scripts and nothing else. */
  ghost function RunDone(c: Core, m: Ping.Machine, n: Identify.Machine, ops: seq<Op>): seq<Action>
    decreases |ops|
  {
    if ops == [] then []
    else
      var d, plan := Next(c, ops[0]), Plan(c, ops[0]);
      Done(d.net, m, n, plan) + RunDone(d, PingAfter(m, plan), IdentifyAfter(n, plan), ops[1..])
  }

  ghost predicate RunPlaced(c: Core, m: Ping.Machine, n: Identify.Machine, ops: seq<Op>)
    decreases |ops|
  {
    ops == [] ||
    var d, plan := Next(c, ops[0]), Plan(c, ops[0]);
    AllPlaced(d.net, m, n, plan) && RunPlaced(d, PingAfter(m, plan), IdentifyAfter(n, plan), ops[1..])
  }

  lemma {:induction false} RunDoes(c: Core, env: Env, ops: seq<Op>)
    requires Inv(c, env) && Lawful(c, env, ops) && Agree(c) && SteadyRun(c, ops)
    ensures AllPuts(c, ops) == RunDone(c, c.ping, c.identify, ops)
    ensures RunPlaced(c, c.ping, c.identify, ops)
    decreases |ops|
  {
    hide Inv, Next, Allowed, Advance, Puts, Plan, Takes, Agree, Steady, AllPlaced, Done, PingAfter, IdentifyAfter,
         Negotiating, Step;
    if ops != [] {
      NextKeeps(c, env, ops[0]);
      NextPerforms(c, env, ops[0]);
      ActionsOfStep(c, env, ops[0]);
      StepAgrees(c, env, ops[0]);
      RunDoes(Next(c, ops[0]), Advance(env, ops[0]), ops[1..]);
    }
  }

  /** Over every run in which no connection takes on the identity of another, the actions queued are
      exactly those the core owes for each event and call, and those that ping and identify, run on their
      own, want: in order, each once, on the connection of its peer and on a stream of that protocol. */
  lemma ActionsOfRun(config: Identify.Config, timeoutMs: u64, ops: seq<Op>)
    requires Lawful(New(config, timeoutMs), NOWHERE, ops) && SteadyRun(New(config, timeoutMs), ops)
    ensures var c := New(config, timeoutMs);
            && AllPuts(c, ops) == RunDone(c, Ping.New(timeoutMs), Identify.New(config), ops)
            && RunPlaced(c, Ping.New(timeoutMs), Identify.New(config), ops)
  {
    hide Lawful, SteadyRun, RunDone, RunPlaced, AllPuts;
    InvNew(config, timeoutMs);
    AgreeNew(config, timeoutMs);
    RunDoes(New(config, timeoutMs), NOWHERE, ops);
  }

  // ---------------------------------------------------------------- the embedded ping machine

  lemma {:induction false} ScriptSound(m: Ping.Machine, script: seq<Doing>)
    requires Ping.Sound(m)
    ensures Ping.Sound(PingAfter(m, script))
    decreases |script|
  {
    hide Ping.Sound, Ping.Handle;
    if script != [] {
      var x := script[0];
      if x.PingIn? {
        Ping.HandleSound(m, x.ping);
        DrainedSound(Ping.Handle(m, x.ping).0);
      }
      ScriptSound(PingDoes(m, x), script[1..]);
    }
  }

  lemma DrainedSound(m: Ping.Machine)
    requires Ping.Sound(m)
    ensures Ping.Sound(PingDrained(m))
  {
  }

  /** The embedded ping machine is a ping machine: what its inputs keep holds in every state of every
      run. */
  lemma {:induction false} PingStaysSound(c: Core, env: Env, ops: seq<Op>)
    requires Inv(c, env) && Lawful(c, env, ops) && Ping.Sound(c.ping)
    ensures Ping.Sound(Run(c, ops).ping)
    decreases |ops|
  {
    hide Inv, Next, Allowed, Advance, Puts, Plan, Takes, PingAfter, IdentifyAfter, Ping.Sound, Acts, Tokens;
    if ops != [] {
      NextKeeps(c, env, ops[0]);
      NextPerforms(c, env, ops[0]);
      ScriptSound(c.ping, Plan(c, ops[0]));
      PingStaysSound(Next(c, ops[0]), Advance(env, ops[0]), ops[1..]);
    }
  }

  // ------------------------------------------------------------- streams of the application

  predicate OnOneStream(action: Action) {
    action.SendStream? || action.CloseStreamWrite? || action.ResetStream?
  }

  /** An action on a stream of the application. */
  predicate OfUser(net: Net, action: Action) {
    OnOneStream(action) && (action.conn, action.stream) in net.owner && net.owner[(action.conn, action.stream)].User?
  }

  /** An action on a stream of ping or identify; only ping resets. */
  predicate OfMachine(net: Net, action: Action) {
    && OnOneStream(action) && (action.conn, action.stream) in net.owner
    && !net.owner[(action.conn, action.stream)].User?
    && (action.ResetStream? ==> net.owner[(action.conn, action.stream)].PingKind?)
  }

  /** The actions on streams of the application, in order. */
  function OnUsers(net: Net, actions: seq<Action>): seq<Action> {
    if actions == [] then [] else (if OfUser(net, actions[0]) then [actions[0]] else []) + OnUsers(net, actions[1..])
  }

  lemma {:induction false} Spared(net: Net, actions: seq<Action>)
    requires forall a :: a in actions ==> !OfUser(net, a)
    ensures OnUsers(net, actions) == []
  {
    if actions != [] {
      assert forall a :: a in actions[1..] ==> a in actions;
      Spared(net, actions[1..]);
    }
  }

  lemma {:induction false} PingWantsPlaced(net: Net, actions: seq<Ping.Action>, a: Action)
    requires PingPlaced(net, actions) && a in PingWants(net, actions)
    ensures OfMachine(net, a)
  {
    if actions != [] {
      assert OwnedAs(net, actions[0].peer, actions[0].stream, PingKind);
      if a in PingWants(net, actions[1..]) {
        PingWantsPlaced(net, actions[1..], a);
      }
    }
  }

  lemma {:induction false} IdentifyWantsPlaced(net: Net, actions: seq<Identify.Action>, a: Action)
    requires IdentifyPlaced(net, actions) && a in IdentifyWants(net, actions)
    ensures OfMachine(net, a)
  {
    if actions != [] {
      assert OwnedByIdentify(net, actions[0].peer, actions[0].stream);
      if a in IdentifyWants(net, actions[1..]) {
        IdentifyWantsPlaced(net, actions[1..], a);
      }
    }
  }

  /** Every action is one the core owes, or one a machine wants on a stream of its own. */
  lemma {:induction false} Origin(net: Net, m: Ping.Machine, n: Identify.Machine, script: seq<Doing>, a: Action)
    requires AllPlaced(net, m, n, script) && a in Done(net, m, n, script)
    ensures Does(a) in script || OfMachine(net, a)
    decreases |script|
  {
    hide PingDoes, IdentifyDoes, PingPlaced, IdentifyPlaced, PingWants, IdentifyWants, Ping.Handle, Identify.Handle,
         OfMachine;
    if script != [] {
      var x := script[0];
      if a in DoneOne(net, m, n, x) {
        if x.PingIn? {
          PingWantsPlaced(net, Ping.Handle(m, x.ping).0.actions, a);
        } else if x.IdentifyIn? {
          IdentifyWantsPlaced(net, Identify.Handle(n, x.identify).0.actions, a);
        }
      } else {
        Origin(net, PingDoes(m, x), IdentifyDoes(n, x), script[1..], a);
      }
    }
  }

  /** A stream that stays owned stays with its owner. */
  ghost predicate OwnersStay(net: Net, to: Net) {
    forall k :: k in net.owner && k in to.owner ==> to.owner[k] == net.owner[k]
  }

  lemma AskingOwner(net: Net, asked: seq<PendingOpen>)
    requires net.nextToken + |asked| < TWO_64
    ensures Asking(net, asked).owner == net.owner
    decreases |asked|
  {
  }

  lemma StepOwners(c: Core, env: Env, op: Op)
    requires Inv(c, env) && Negotiating(c.net) && Allowed(env, c, op)
    ensures OwnersStay(c.net, Step(c, op).net)
  {
    hide Inv, Negotiating, Step, Base, StreamThen, Asking, OwnersStay;
    if OnStream(op) {
      StreamNet(c, env, op);
      StreamOwners(c, env, op);
    } else {
      StepNet(c, env, op);
      AskingOwner(Base(c, op), Asked(c, op));
      BaseOwners(c, op);
      assert OwnersStay(c.net, Step(c, op).net) by { SameOwners(c.net, Base(c, op), Step(c, op).net); }
    }
  }

  lemma SameOwners(net: Net, to: Net, end: Net)
    requires OwnersStay(net, to) && end.owner == to.owner
    ensures OwnersStay(net, end)
  {
  }

  lemma BaseOwners(c: Core, op: Op)
    ensures OwnersStay(c.net, Base(c, op))
  {
    hide Left;
    LeftOwners(c.net);
    LeftOwners(Unnamed(c.net, FormerName(c, if op.ConnectionCloses? then op.id else 0)));
  }

  lemma LeftOwners(net: Net)
    ensures forall conn, k :: k in Left(net, conn).owner ==> k in net.owner && Left(net, conn).owner[k] == net.owner[k]
  {
  }

  lemma HandedOwners(net: Net, key: Key, kind: Option<Kind>)
    requires key !in net.owner
    ensures OwnersStay(net, Handed(net, key, kind)) && OwnersStay(net, Handed(NamedAtLeast(net, key.0), key, kind))
  {
  }

  lemma StreamOwners(c: Core, env: Env, op: Op)
    requires Inv(c, env) && Negotiating(c.net) && OnStream(op)
    ensures OwnersStay(c.net, StreamThen(c, op))
  {
    hide Inv, Negotiating, Opened, Offered, FedIn, FedOut, Verdict, InboundKind, OutboundKind, Handed, NamedAtLeast;
    if op.DataArrives? {
      var key := (op.id, op.stream);
      hide OwnersStay;
      if key in c.net.inbound {
        InboundAlone(c, env, key);
        UndecidedValid(c.net.inbound[key]);
        var n := FedIn(c, key, op.data);
        KeptOwners(c.net, InboundThen(c, key, op.data));
        HandedOwners(c.net, key, None);
        if Verdict(n).Some? && Verdict(n).value.Negotiated? {
          HandedOwners(c.net, key, InboundKind(c, PeerOf(c.net, key.0), Verdict(n).value.protocol));
        }
      } else if key in c.net.outbound {
        OutboundAlone(c, env, key);
        UndecidedValid(c.net.outbound[key].negotiator);
        KeptOwners(c.net, OutboundThen(c, key, op.data));
        HandedOwners(c.net, key, None);
        HandedOwners(c.net, key, OutboundKind(c, PeerOf(c.net, key.0), key.1, c.net.outbound[key].target));
      } else {
        KeptOwners(c.net, c.net);
      }
    } else if op.StreamCloses? {
      ClosedOwners(c.net, (op.id, op.stream));
    }
  }

  lemma ClosedOwners(net: Net, key: Key)
    ensures OwnersStay(net, Handed(net, key, None).(owner := net.owner - {key}))
  {
  }

  lemma KeptOwners(net: Net, to: Net)
    ensures to.owner == net.owner ==> OwnersStay(net, to)
  {
  }

  // ------------------------------------------------------------------ what the core owes itself

  /** The core's own actions in a script are about this stream. */
  predicate DeedsOn(key: Key, script: seq<Doing>) {
    forall i :: 0 <= i < |script| && script[i].Does? ==>
      OnOneStream(script[i].action) && (script[i].action.conn, script[i].action.stream) == key
  }

  lemma {:induction false} SayingOn(key: Key, outputs: seq<Multistream.Output>)
    ensures DeedsOn(key, Saying(key, outputs))
    ensures forall i :: 0 <= i < |Saying(key, outputs)| ==>
              Saying(key, outputs)[i].Does? && Saying(key, outputs)[i].action.SendStream?
  {
    if outputs != [] {
      SayingOn(key, outputs[1..]);
    }
  }

  lemma DataOn(c: Core, key: Key, data: Blob, nowMs: u64)
    requires Negotiating(c.net)
    ensures DeedsOn(key, DataScript(c, key, data, nowMs))
    ensures key !in c.net.inbound && key !in c.net.outbound ==>
              forall i :: 0 <= i < |DataScript(c, key, data, nowMs)| ==> !DataScript(c, key, data, nowMs)[i].Does?
  {
    hide Saying, FedIn, FedOut, Verdict, PingTaken, Complains, InboundKind, OutboundKind;
    if key in c.net.inbound {
      SayingOn(key, FedIn(c, key, data).pending);
    } else if key in c.net.outbound {
      SayingOn(key, FedOut(c, key, data).pending);
    }
  }

  lemma UnusedUnowned(c: Core, env: Env, key: Key)
    requires Inv(c, env) && key !in env.used
    ensures key !in c.net.owner
  {
  }

  lemma NegotiatingUnowned(c: Core, env: Env, key: Key)
    requires Inv(c, env) && (key in c.net.inbound || key in c.net.outbound)
    ensures key !in c.net.owner
  {
    hide Inv;
    if key in c.net.inbound {
      InboundAlone(c, env, key);
    } else {
      OutboundAlone(c, env, key);
    }
  }

  lemma DataOwes(c: Core, env: Env, op: Op, a: Action)
    requires Inv(c, env) && Negotiating(c.net) && op.DataArrives? && Does(a) in Part(c, op)
    ensures OnOneStream(a) && (a.conn, a.stream) == (op.id, op.stream) && (a.conn, a.stream) !in c.net.owner
    ensures (a.conn, a.stream) in c.net.inbound || (a.conn, a.stream) in c.net.outbound
  {
    hide Inv, Negotiating, DataScript;
    var key := (op.id, op.stream);
    DataOn(c, key, op.data, op.nowMs);
    NegotiatingOrNot(c, env, key);
  }

  lemma NegotiatingOrNot(c: Core, env: Env, key: Key)
    requires Inv(c, env)
    ensures key in c.net.inbound || key in c.net.outbound ==> key !in c.net.owner
  {
    hide Inv;
    if key in c.net.inbound || key in c.net.outbound {
      NegotiatingUnowned(c, env, key);
    }
  }

  /** But for calls of the application, the core itself does nothing on its streams. */
  lemma OwesNothing(c: Core, env: Env, op: Op, a: Action)
    requires Inv(c, env) && Negotiating(c.net) && Allowed(env, c, op) && !op.CallUser? && Does(a) in Part(c, op)
    ensures !OfUser(c.net, a)
  {
    hide Inv, Negotiating, Multistream.EncodeMessage, DataScript, InfoThen, ReadyThen, PublicName, UserConns, Least;
    if op.DataArrives? {
      DataOwes(c, env, op, a);
    } else if op.StreamArrives? || op.DriverOpened? {
      UnusedUnowned(c, env, (op.id, op.stream));
    }
  }

  lemma OpensOnly(token: nat, asked: seq<PendingOpen>, a: Action)
    requires token + |asked| <= TWO_64 && Does(a) in Opens(token, asked)
    ensures a.OpenStream?
  {
  }

  /** Where the actions of a step come from. */
  lemma StepOrigin(c: Core, env: Env, op: Op, a: Action)
    requires Inv(c, env) && Allowed(env, c, op) && Agree(c) && Steady(c, op) && a in Puts(c, Next(c, op), op)
    ensures Negotiating(c.net)
    ensures a.OpenStream? || Does(a) in Part(c, op) || OfMachine(Next(c, op).net, a)
  {
    hide Step, Negotiating, Inv, Part, Puts, Agree, Steady, AllPlaced, Done, Asked, Opens;
    NextKeeps(c, env, op);
    ActionsOfStep(c, env, op);
    Origin(Next(c, op).net, c.ping, c.identify, Plan(c, op), a);
    if !op.PollOutput? && Does(a) in Opens(c.net.nextToken, Asked(c, op)) {
      OpensOnly(c.net.nextToken, Asked(c, op), a);
    }
  }

  // ----------------------------------------------------------------- what the application calls

  function CallAction(conn: ConnId, stream: StreamId, call: UserCall): Action {
    match call
    case SendUser(data) => SendStream(conn, stream, data)
    case CloseUserWrite => CloseStreamWrite(conn, stream)
    case ResetUser => ResetStream(conn, stream)
  }

  /** What a call of the application comes to: bytes to send are sent, a close of the writing side closes
      it, and a reset resets, on the stream of that id on the peer's connection if it is the
      application's. */
  function CalledFor(c: Core, op: Op): seq<Action> {
    if op.CallUser? && op.peer in c.net.peerToConn
       && (c.net.peerToConn[op.peer], op.stream) in c.net.owner
       && c.net.owner[(c.net.peerToConn[op.peer], op.stream)].User?
    then [CallAction(c.net.peerToConn[op.peer], op.stream, op.call)] else []
  }

  lemma CallsPeer(net: Net, peer: PeerId, stream: StreamId)
    requires Inverse(net) && Coherent(net)
    ensures UserConns(net, peer, stream)
         == if peer in net.peerToConn && (net.peerToConn[peer], stream) in net.owner
               && net.owner[(net.peerToConn[peer], stream)].User?
            then {net.peerToConn[peer]} else {}
  {
    hide UserConns;
    UserConnsAre(net, peer, stream);
    assert peer in net.peerToConn ==> PointsBack(net, peer);
    forall conn | UserStreamOn(net, peer, stream, conn)
      ensures peer in net.peerToConn && net.peerToConn[peer] == conn
    {
      assert LeadsBack(net, conn);
    }
  }

  lemma CallPlan(c: Core, env: Env, op: Op)
    requires Inv(c, env) && Allowed(env, c, op) && Inverse(c.net) && Coherent(c.net) && op.CallUser?
    ensures Plan(c, op) == Reported(CalledFor(c, op))
  {
    hide Inv, Negotiating, Inverse, Coherent, UserConns;
    InvNegotiating(c, env);
    CallsPeer(c.net, op.peer, op.stream);
    NothingAsked(c, op);
  }

  function Reported(actions: seq<Action>): seq<Doing> {
    seq(|actions|, i requires 0 <= i < |actions| => Does(actions[i]))
  }

  /** On streams of the application, a step does exactly what the application calls for. */
  lemma UserCallsOfStep(c: Core, env: Env, op: Op)
    requires Inv(c, env) && Allowed(env, c, op) && Agree(c) && Steady(c, op)
    ensures OnUsers(c.net, Puts(c, Next(c, op), op)) == CalledFor(c, op)
  {
    hide Step, Negotiating, Sound, Readiness, Puts, Part, Plan, Steady, AllPlaced, Done, PingOwned, IdentifyOwned,
         OnePing, PingsFree, OfUser, OfMachine, Takes, PingAfter, IdentifyAfter, Tokens, Range;
    NextKeeps(c, env, op);
    var d := Next(c, op);
    if op.CallUser? {
      NextPerforms(c, env, op);
      CallPlan(c, env, op);
      CallActed(c, d, op);
    } else {
      StepOwners(c, env, op);
      forall a | a in Puts(c, d, op)
        ensures !OfUser(c.net, a)
      {
        StepOrigin(c, env, op, a);
        if Does(a) in Part(c, op) {
          OwesNothing(c, env, op, a);
        } else {
          MachineSpares(c.net, d.net, a);
        }
      }
      Spared(c.net, Puts(c, d, op));
    }
  }

  lemma MachineSpares(net: Net, to: Net, a: Action)
    requires OwnersStay(net, to) && (a.OpenStream? || OfMachine(to, a))
    ensures !OfUser(net, a)
  {
  }

  lemma CallActed(c: Core, d: Core, op: Op)
    requires op.CallUser? && Puts(c, d, op) == Acts(d.net, c.ping, c.identify, Reported(CalledFor(c, op)))
    ensures OnUsers(c.net, Puts(c, d, op)) == CalledFor(c, op)
  {
    hide Puts, Acts;
    var called := CalledFor(c, op);
    if called == [] {
      assert Reported(called) == [];
      ScriptNone(d.net, c.app, c.ping, c.identify);
    } else {
      assert Reported(called) == [Does(called[0])];
      ScriptOne(d.net, c.app, c.ping, c.identify, Does(called[0]));
      assert called == [called[0]] && called[1..] == [];
    }
  }

  ghost function AllOnUsers(c: Core, ops: seq<Op>): seq<Action>
    decreases |ops|
  {
    if ops == [] then []
    else OnUsers(c.net, Puts(c, Next(c, ops[0]), ops[0])) + AllOnUsers(Next(c, ops[0]), ops[1..])
  }

  ghost function AllCalledFor(c: Core, ops: seq<Op>): seq<Action>
    decreases |ops|
  {
    if ops == [] then [] else CalledFor(c, ops[0]) + AllCalledFor(Next(c, ops[0]), ops[1..])
  }

  lemma {:induction false} RunCalls(c: Core, env: Env, ops: seq<Op>)
    requires Inv(c, env) && Lawful(c, env, ops) && Agree(c) && SteadyRun(c, ops)
    ensures AllOnUsers(c, ops) == AllCalledFor(c, ops)
    decreases |ops|
  {
    hide Inv, Next, Allowed, Advance, Puts, Agree, Steady, Negotiating, Step, OnUsers, CalledFor;
    if ops != [] {
      NextKeeps(c, env, ops[0]);
      UserCallsOfStep(c, env, ops[0]);
      StepAgrees(c, env, ops[0]);
      RunCalls(Next(c, ops[0]), Advance(env, ops[0]), ops[1..]);
    }
  }

  /** Over every run in which no connection takes on the identity of another, the sends, closes of the
      writing side and resets on streams of the application are, in order, exactly those it called for,
      each as the action it names and on the connection of the peer it names. */
  lemma UserCallsOfRun(config: Identify.Config, timeoutMs: u64, ops: seq<Op>)
    requires Lawful(New(config, timeoutMs), NOWHERE, ops) && SteadyRun(New(config, timeoutMs), ops)
    ensures AllOnUsers(New(config, timeoutMs), ops) == AllCalledFor(New(config, timeoutMs), ops)
  {
    hide Lawful, SteadyRun, AllOnUsers, AllCalledFor;
    InvNew(config, timeoutMs);
    AgreeNew(config, timeoutMs);
    RunCalls(New(config, timeoutMs), NOWHERE, ops);
  }

  // ------------------------------------------------------------------------ why streams are reset

  /** A stream is given up: its negotiation fails, or it agrees on identify while we already answer that
      peer, or on ping while that peer already has a ping stream of ours. */
  ghost predicate GivenUp(c: Core, key: Key, data: Blob)
    requires Negotiating(c.net)
  {
    if key in c.net.inbound then
      var verdict, peer := Verdict(FedIn(c, key, data)), PeerOf(c.net, key.0);
      verdict.Some? && (verdict.value.Negotiated? ==>
        verdict.value.protocol == IDENTIFY_ID && Identify.Peer(c.identify, peer).outbound.Some?)
    else
      key in c.net.outbound &&
      var verdict, peer := Verdict(FedOut(c, key, data)), PeerOf(c.net, key.0);
      verdict.Some? && (verdict.value.Negotiated? ==>
        c.net.outbound[key].target.PingKind? && PingTaken(c.ping, peer, key.1))
  }

  lemma InboundResets(c: Core, key: Key, data: Blob, nowMs: u64)
    requires Negotiating(c.net) && key in c.net.inbound
    ensures Does(ResetStream(key.0, key.1)) in InboundScript(c, key, data, nowMs) <==> GivenUp(c, key, data)
  {
    hide FedIn, Verdict, Complains, Saying, InboundKind;
    var n, x := FedIn(c, key, data), Does(ResetStream(key.0, key.1));
    SayingOn(key, n.pending);
    assert x !in Talking(c, key, n, None);
    assert |PING_ID| != |IDENTIFY_ID|;
    if Verdict(n).Some? && !Verdict(n).value.Negotiated? {
      var script := InboundScript(c, key, data, nowMs);
      assert script[|script| - 1] == x;
    } else if GivenUp(c, key, data) {
      var join := JoinsIn(c, key, Verdict(n).value.protocol);
      assert join[1] == x;
      assert x in join;
    }
  }

  lemma OutboundResets(c: Core, key: Key, data: Blob, nowMs: u64)
    requires Negotiating(c.net) && key in c.net.outbound && key !in c.net.inbound
    ensures Does(ResetStream(key.0, key.1)) in OutboundScript(c, key, data, nowMs) <==> GivenUp(c, key, data)
  {
    hide FedOut, Verdict, Complains, Saying, OutboundKind, PingTaken;
    var n, x := FedOut(c, key, data), Does(ResetStream(key.0, key.1));
    SayingOn(key, n.pending);
    assert x !in Talking(c, key, n, Some(UnsupportedProtocol));
    if Verdict(n).Some? && !Verdict(n).value.Negotiated? {
      var script := OutboundScript(c, key, data, nowMs);
      assert script[|script| - 1] == x;
    } else if GivenUp(c, key, data) {
      var join := JoinsOut(c, key, c.net.outbound[key].target, nowMs);
      assert join[1] == x;
      assert x in join;
    }
  }

  lemma DataResets(c: Core, env: Env, op: Op)
    requires Inv(c, env) && Negotiating(c.net) && op.DataArrives?
    ensures Does(ResetStream(op.id, op.stream)) in Part(c, op) <==> GivenUp(c, (op.id, op.stream), op.data)
  {
    hide Inv, Negotiating, InboundScript, OutboundScript, GivenUp;
    var key := (op.id, op.stream);
    if key in c.net.inbound {
      InboundResets(c, key, op.data, op.nowMs);
    } else if key in c.net.outbound {
      OutboundResets(c, key, op.data, op.nowMs);
    } else {
      NotGivenUp(c, key, op.data);
    }
  }

  lemma NotGivenUp(c: Core, key: Key, data: Blob)
    requires Negotiating(c.net) && key !in c.net.inbound && key !in c.net.outbound
    ensures !GivenUp(c, key, data)
  {
  }

  lemma CallResets(c: Core, op: Op, a: Action)
    requires Negotiating(c.net) && Inverse(c.net) && Coherent(c.net) && op.CallUser? && Does(a) in Part(c, op)
    ensures [a] == CalledFor(c, op)
  {
    hide Negotiating, Inverse, Coherent, UserConns;
    CallsPeer(c.net, op.peer, op.stream);
  }

  /** Streams are reset for three reasons only: the application resets its stream, ping asks for it on a
      stream of its own, or a stream that was negotiating is given up; and whatever is given up is reset. */
  lemma ResetCauses(c: Core, env: Env, op: Op, a: Action)
    requires Inv(c, env) && Allowed(env, c, op) && Agree(c) && Steady(c, op) && a.ResetStream?
    ensures Negotiating(c.net)
    ensures a in Puts(c, Next(c, op), op) ==>
              || (op.CallUser? && op.call.ResetUser? && [a] == CalledFor(c, op))
              || (op.DataArrives? && a == ResetStream(op.id, op.stream) && GivenUp(c, (op.id, op.stream), op.data))
              || OfMachine(Next(c, op).net, a)
    ensures op.DataArrives? && GivenUp(c, (op.id, op.stream), op.data) ==>
              ResetStream(op.id, op.stream) in Puts(c, Next(c, op), op)
  {
    hide Step, Negotiating, Sound, Readiness, Puts, Steady, PingOwned, IdentifyOwned, OnePing, PingsFree, OfMachine,
         GivenUp, Multistream.EncodeMessage, DataScript, InfoThen, ReadyThen, PublicName, UserConns, Least, Inverse,
         Coherent;
    NextKeeps(c, env, op);
    if a in Puts(c, Next(c, op), op) {
      StepOrigin(c, env, op, a);
      if Does(a) in Part(c, op) {
        if op.DataArrives? {
          DataOwes(c, env, op, a);
          DataResets(c, env, op);
        } else if op.CallUser? {
          CallResets(c, op, a);
        }
      }
    }
    if op.DataArrives? && GivenUp(c, (op.id, op.stream), op.data) {
      DataResets(c, env, op);
      PartActed(c, env, op, ResetStream(op.id, op.stream));
    }
  }

  lemma {:induction false} DeedActed(net: Net, m: Ping.Machine, n: Identify.Machine, script: seq<Doing>, a: Action)
    requires Does(a) in script
    ensures a in Acts(net, m, n, script)
    decreases |script|
  {
    hide PingDoes, IdentifyDoes, RoutePing, RouteIdentify, Ping.Handle, Identify.Handle;
    if script[0] != Does(a) {
      DeedActed(net, PingDoes(m, script[0]), IdentifyDoes(n, script[0]), script[1..], a);
    }
  }

  lemma PartActed(c: Core, env: Env, op: Op, a: Action)
    requires Inv(c, env) && Allowed(env, c, op) && Negotiating(c.net) && op.DataArrives? && Does(a) in Part(c, op)
    ensures a in Puts(c, Next(c, op), op)
  {
    hide Inv, Negotiating, Part, Acts, Puts, Takes, Tokens, Range, PingAfter, IdentifyAfter, Asked, Opens, Next;
    NextPerforms(c, env, op);
    DeedActed(Next(c, op).net, c.ping, c.identify, Plan(c, op), a);
  }
}

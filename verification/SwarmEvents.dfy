/** The application receives every queued event once and in order (crates/swarm/src/core.rs:213-230,
    906-938). */
module SwarmEvents {
  import opened Bytes
  import opened Ids
  import opened Swarm
  import opened SwarmInvariant
  import opened SwarmSteps
  import opened SwarmEffects
  import opened SwarmRuns
  import Multistream
  import Ping
  import Identify

  /** Events without the names of peers, which an identity upgrade may rewrite. */
  function Nameless(events: seq<Event>): (r: seq<Event>)
    ensures |r| == |events|
  {
    seq(|events|, i requires 0 <= i < |events| => Anon(events[i]))
  }

  lemma NamelessAppend(a: seq<Event>, b: seq<Event>)
    ensures Nameless(a + b) == Nameless(a) + Nameless(b)
  {
  }

  /** Old events keep their places and, but for names, their contents. */
  ghost predicate Appends(c: Core, d: Core) {
    |c.events| <= |d.events| && Nameless(d.events[..|c.events|]) == Nameless(c.events)
  }

  lemma SurfacesAppends(c: Core, d: Core)
    requires Surfaces(c, d)
    ensures Appends(c, d)
  {
  }

  /** Events are only appended, and plain ones. */
  ghost predicate Grows(c: Core, d: Core) {
    c.events <= d.events && AllPlain(d.events[|c.events|..])
  }

  lemma TellsGrows(c: Core, d: Core, told: seq<Event>)
    requires Tells(c, d, told)
    ensures Grows(c, d)
  {
  }

  lemma GrowsThen(a: Core, b: Core, c: Core)
    requires Grows(a, b) && Grows(b, c)
    ensures Grows(a, c)
  {
    var x, y := b.events[|a.events|..], c.events[|b.events|..];
    assert c.events[|a.events|..] == x + y;
  }

  lemma GrowsAlike(a: Core, b: Core, c: Core)
    requires a.events == b.events && Grows(b, c)
    ensures Grows(a, c)
  {
  }

  lemma DispatchPrefix(c: Core, env: Env, conn: ConnId, stream: StreamId, data: Blob, nowMs: u64)
    requires Inv(c, env)
    ensures Grows(c, Dispatch(c, conn, stream, data, nowMs))
  {
    hide Inv, FeedPing, FeedIdentify;
    if (conn, stream) in c.net.owner {
      DispatchEffect(c, env, conn, stream, data, nowMs);
    }
  }

  lemma InboundPrefix(gone: Core, env: Env, conn: ConnId, stream: StreamId, protocol: Blob, rest: Blob, nowMs: u64)
    requires Inv(gone, env) && (conn, stream) in env.used && Live(env, conn)
    requires (conn, stream) !in gone.net.inbound && (conn, stream) !in gone.net.outbound
    ensures var c2 := InboundNegotiated(gone, conn, stream, protocol);
            Grows(gone, c2) && Grows(gone, Dispatch(c2, conn, stream, rest, nowMs))
  {
    hide Inv, InboundNegotiated, Dispatch, InboundKind, OwnIf, Ensure, Ping.RegisterInbound, Tells, Grows;
    InvIdle(gone, env);
    InboundNegotiatedEffect(gone, conn, stream, protocol);
    InboundNegotiatedKeeps(gone, env, conn, stream, protocol);
    var c2 := InboundNegotiated(gone, conn, stream, protocol);
    DispatchPrefix(c2, env, conn, stream, rest, nowMs);
    NegotiatedGrows(gone, c2);
    GrowsThen(gone, c2, Dispatch(c2, conn, stream, rest, nowMs));
  }

  lemma NegotiatedGrows(c: Core, d: Core)
    requires exists told :: Tells(c, d, told)
    ensures Grows(c, d)
  {
    hide Tells, Grows;
    var told :| Tells(c, d, told);
    TellsGrows(c, d, told);
  }

  lemma OutboundPrefix(gone: Core, env: Env, conn: ConnId, stream: StreamId, target: Kind, rest: Blob, nowMs: u64)
    requires Inv(gone, env) && (conn, stream) in env.used && conn in gone.net.connToPeer
    requires (conn, stream) !in gone.net.inbound && (conn, stream) !in gone.net.outbound
    requires target.IdentifyInitiator? ==> Known(gone.net, conn)
    ensures var c2 := OutboundNegotiated(gone, conn, stream, target, nowMs);
            Grows(gone, c2) && Grows(gone, Dispatch(c2, conn, stream, rest, nowMs))
  {
    hide Inv, OutboundNegotiated, Dispatch, PingOpened, PingRefuses, Tells, Grows;
    InvIdle(gone, env);
    OutboundNegotiatedEffect(gone, conn, stream, target, nowMs);
    OutboundNegotiatedKeeps(gone, env, conn, stream, target, nowMs);
    var c2 := OutboundNegotiated(gone, conn, stream, target, nowMs);
    DispatchPrefix(c2, env, conn, stream, rest, nowMs);
    NegotiatedGrows(gone, c2);
    GrowsThen(gone, c2, Dispatch(c2, conn, stream, rest, nowMs));
  }

  lemma DataPrefix(c: Core, env: Env, conn: ConnId, stream: StreamId, data: Blob, nowMs: u64)
    requires Inv(c, env) && Negotiating(c.net)
    ensures Grows(c, StreamData(c, conn, stream, data, nowMs))
  {
    hide Inv, FeedInbound, FeedOutbound, Dispatch, InboundNegotiated, OutboundNegotiated, Multistream.Receive,
         Negotiating, Tells, Grows;
    var key, d := (conn, stream), StreamData(c, conn, stream, data, nowMs);
    if key in c.net.inbound {
      var gone := FeedInboundCases(c, env, conn, stream, data, nowMs);
      InboundAlone(c, env, key);
      UndecidedValid(c.net.inbound[key]);
      var n := FedIn(c, key, data);
      UnheardGrows(c, c.(net := gone.net), gone);
      if Verdict(n).None? {
        UnheardGrows(c, c.(net := d.net), d);
      } else if Verdict(n).value.Negotiated? {
        InboundPrefix(gone, env, conn, stream, Verdict(n).value.protocol, n.recvBuf, nowMs);
        GrowsThen(c, gone, d);
      } else {
        UnheardGrows(gone, gone, d);
        GrowsThen(c, gone, d);
      }
    } else if key in c.net.outbound {
      var gone := FeedOutboundCases(c, env, conn, stream, data, nowMs);
      OutboundAlone(c, env, key);
      UndecidedValid(c.net.outbound[key].negotiator);
      var n := FedOut(c, key, data);
      UnheardGrows(c, c.(net := gone.net), gone);
      if Verdict(n).None? {
        UnheardGrows(c, c.(net := d.net), d);
      } else if Verdict(n).value.Negotiated? {
        OutboundPrefix(gone, env, conn, stream, c.net.outbound[key].target, n.recvBuf, nowMs);
        GrowsThen(c, gone, d);
      } else {
        UnheardGrows(gone, gone, d);
        GrowsThen(c, gone, d);
      }
    } else {
      DispatchPrefix(c, env, conn, stream, data, nowMs);
    }
  }

  lemma UnheardGrows(c: Core, b: Core, d: Core)
    requires b.events == c.events && Unheard(b, d)
    ensures Grows(c, d)
  {
    hide Tells, Grows;
    TellsGrows(b, d, []);
    GrowsAlike(c, b, d);
  }

  lemma PrefixAppends(c: Core, d: Core)
    requires c.events <= d.events
    ensures Appends(c, d)
  {
  }

  lemma EndingPrefix(c: Core, env: Env, conn: ConnId, stream: StreamId)
    requires Inv(c, env)
    ensures Grows(c, RemoteWriteClosed(c, conn, stream)) && Grows(c, StreamClosed(c, conn, stream))
  {
    hide Inv, StreamClosed, RemoteWriteClosed;
    StreamClosedEffect(c, env, conn, stream);
    if (conn, stream) in c.net.owner {
      RemoteWriteClosedEffect(c, env, conn, stream);
    } else {
      UnownedWriteCloses(c, conn, stream);
    }
  }

  lemma OpeningPrefix(c: Core, conn: ConnId, stream: StreamId, token: u64)
    requires Vouched(c.app)
    ensures Grows(c, IncomingStream(c, conn, stream))
    ensures Grows(c, StreamOpened(c, conn, stream, token))
    ensures Grows(c, OpenFailed(c, token))
  {
    hide Opened, Multistream.EncodeMessage;
  }

  lemma StreamStepGrows(c: Core, env: Env, op: Op)
    requires Inv(c, env) && Negotiating(c.net) && OnStream(op)
    ensures Grows(c, Step(c, op))
  {
    hide Inv, StreamData, RemoteWriteClosed, StreamClosed, Negotiating, Grows, IncomingStream, StreamOpened,
         OpenFailed, Register, Upgrade, ConnClosed, DrainPing, DrainIdentify, PingPeer, OpenUserStream,
         UserStreamCall, AddUserProtocol;
    InvVouched(c, env);
    if op.DataArrives? {
      DataPrefix(c, env, op.id, op.stream, op.data, op.nowMs);
    } else if op.WriteCloses? || op.StreamCloses? {
      EndingPrefix(c, env, op.id, op.stream);
    } else if op.StreamArrives? {
      OpeningPrefix(c, op.id, op.stream, 0);
    } else if op.DriverOpened? {
      OpeningPrefix(c, op.id, op.stream, op.token);
    } else {
      OpeningPrefix(c, 0, 0, op.token);
    }
  }

  lemma StepAppends(c: Core, env: Env, op: Op)
    requires Inv(c, env) && Negotiating(c.net) && Allowed(env, c, op) && !op.PollOutput?
    ensures Appends(c, Step(c, op))
  {
    hide Inv, Step, Negotiating, Appends;
    var d := Step(c, op);
    if !OnStream(op) {
      OtherStepRecedes(c, env, op);
      SurfacesAppends(c, d);
    } else {
      StreamStepGrows(c, env, op);
      PrefixAppends(c, d);
    }
  }

  /** Proper events stay proper, and new ones are. */
  lemma StepProper(c: Core, env: Env, op: Op)
    requires Inv(c, env) && Negotiating(c.net) && Allowed(env, c, op) && AllProper(c.events)
    ensures AllProper(Step(c, op).events)
  {
    hide Inv, Step, Negotiating, Allowed, Proper;
    var d := Step(c, op);
    if op.PollOutput? {
      PollIs(c);
    } else if !OnStream(op) {
      OtherStepRecedes(c, env, op);
    } else {
      StreamStepGrows(c, env, op);
      assert d.events == c.events + d.events[|c.events|..];
    }
  }

  lemma {:induction false} RunProper(c: Core, env: Env, ops: seq<Op>)
    requires Inv(c, env) && Lawful(c, env, ops) && AllProper(c.events)
    ensures AllProper(Run(c, ops).events) && AllProper(HandedOut(c, ops))
    decreases |ops|
  {
    hide Inv, Next, Allowed, Advance, Proper;
    if ops != [] {
      NextKeeps(c, env, ops[0]);
      assert AllProper(Next(c, ops[0]).events) by { NextProper(c, env, ops[0]); }
      RunProper(Next(c, ops[0]), Advance(env, ops[0]), ops[1..]);
    }
  }

  lemma NextProper(c: Core, env: Env, op: Op)
    requires Inv(c, env) && Allowed(env, c, op) && AllProper(c.events)
    ensures AllProper(Next(c, op).events)
  {
    hide Inv, Step, Allowed, AllProper, Negotiating;
    NextKeeps(c, env, op);
    StepProper(c, env, op);
  }

  /** Placeholders stay internal: over every run no event, handed out or queued, reports a placeholder
      as established, identified or ready. */
  lemma PlaceholdersStayInternal(config: Identify.Config, timeoutMs: u64, ops: seq<Op>)
    requires Lawful(New(config, timeoutMs), NOWHERE, ops)
    ensures AllProper(HandedOut(New(config, timeoutMs), ops)) && AllProper(Run(New(config, timeoutMs), ops).events)
  {
    hide Lawful, HandedOut, Run;
    InvNew(config, timeoutMs);
    RunProper(New(config, timeoutMs), NOWHERE, ops);
  }

  // -------------------------------------------------------------------------------- theorem

  /** The events a step queues, and the event it hands out. */
  function Queues(c: Core, d: Core, op: Op): seq<Event> {
    if !op.PollOutput? && |c.events| <= |d.events| then d.events[|c.events|..] else []
  }

  function HandsOut(c: Core, op: Op): seq<Event> {
    if op.PollOutput? && c.actions == [] && c.events != [] then [c.events[0]] else []
  }

  ghost function Queued(c: Core, ops: seq<Op>): seq<Event>
    decreases |ops|
  {
    if ops == [] then [] else Queues(c, Next(c, ops[0]), ops[0]) + Queued(Next(c, ops[0]), ops[1..])
  }

  ghost function HandedOut(c: Core, ops: seq<Op>): seq<Event>
    decreases |ops|
  {
    if ops == [] then [] else HandsOut(c, ops[0]) + HandedOut(Next(c, ops[0]), ops[1..])
  }

  lemma StepInOrder(c: Core, env: Env, op: Op)
    requires Inv(c, env) && Allowed(env, c, op)
    ensures var d := Next(c, op);
            Nameless(HandsOut(c, op)) + Nameless(d.events) == Nameless(c.events) + Nameless(Queues(c, d, op))
  {
    hide Inv, Step, Allowed, Negotiating;
    NextKeeps(c, env, op);
    var d := Next(c, op);
    if op.PollOutput? {
      PollIs(c);
      assert c.events != [] ==> [c.events[0]] + c.events[1..] == c.events;
      NamelessAppend(HandsOut(c, op), d.events);
      assert HandsOut(c, op) + d.events == c.events;
    } else {
      StepAppends(c, env, op);
      assert d.events == d.events[..|c.events|] + d.events[|c.events|..];
      NamelessAppend(d.events[..|c.events|], d.events[|c.events|..]);
    }
  }

  lemma PollIs(c: Core)
    requires Negotiating(c.net)
    ensures Step(c, PollOutput) == Poll(c)
  {
  }

  /** Events in order: over every run, what has been handed out followed by what is still queued is
      exactly what was queued, nothing lost, repeated or reordered; only names may be rewritten. */
  lemma {:induction false} EventsInOrder(c: Core, env: Env, ops: seq<Op>)
    requires Inv(c, env) && Lawful(c, env, ops)
    ensures Nameless(HandedOut(c, ops)) + Nameless(Run(c, ops).events)
         == Nameless(c.events) + Nameless(Queued(c, ops))
    decreases |ops|
  {
    hide Inv, Next, Allowed, Advance, HandsOut, Queues, Nameless;
    if ops == [] {
      NamelessEmpty();
      assert [] + Nameless(c.events) == Nameless(c.events) + [];
    } else {
      var d, rest := Next(c, ops[0]), ops[1..];
      NextKeeps(c, env, ops[0]);
      EventsInOrder(d, Advance(env, ops[0]), rest);
      StepInOrder(c, env, ops[0]);
      NamelessAppend(HandsOut(c, ops[0]), HandedOut(d, rest));
      NamelessAppend(Queues(c, d, ops[0]), Queued(d, rest));
      Regroup(Nameless(HandsOut(c, ops[0])), Nameless(HandedOut(d, rest)), Nameless(Run(c, ops).events),
              Nameless(d.events), Nameless(Queued(d, rest)), Nameless(c.events), Nameless(Queues(c, d, ops[0])));
    }
  }

  lemma NamelessEmpty()
    ensures Nameless([]) == []
  {
  }

  lemma Regroup(h: seq<Event>, hs: seq<Event>, end: seq<Event>, mid: seq<Event>, qs: seq<Event>, start: seq<Event>,
                q: seq<Event>)
    requires hs + end == mid + qs && h + mid == start + q
    ensures (h + hs) + end == start + (q + qs)
  {
    assert (h + hs) + end == h + (hs + end);
    assert h + (mid + qs) == (h + mid) + qs;
    assert (start + q) + qs == start + (q + qs);
  }

  // --------------------------------------------------- exactly which closes name a placeholder

  predicate Unnamed(event: Event) {
    event.ConnectionClosed? && event.peer.Placeholder?
  }

  /** The closes of placeholders among some events. */
  function UnnamedCloses(events: seq<Event>): seq<Event> {
    if events == [] then [] else (if Unnamed(events[0]) then [events[0]] else []) + UnnamedCloses(events[1..])
  }

  lemma {:induction false} UnnamedAppend(a: seq<Event>, b: seq<Event>)
    ensures UnnamedCloses(a + b) == UnnamedCloses(a) + UnnamedCloses(b)
  {
    if a == [] {
      assert a + b == b;
    } else {
      UnnamedAppend(a[1..], b);
      assert (a + b)[1..] == a[1..] + b;
      var head := if Unnamed(a[0]) then [a[0]] else [];
      assert head + (UnnamedCloses(a[1..]) + UnnamedCloses(b)) == (head + UnnamedCloses(a[1..])) + UnnamedCloses(b);
    }
  }

  lemma {:induction false} NoneUnnamed(events: seq<Event>)
    requires forall i :: 0 <= i < |events| ==> !Unnamed(events[i])
    ensures UnnamedCloses(events) == []
  {
    if events != [] {
      NoneUnnamed(events[1..]);
    }
  }

  /** The connection that closes is the one its placeholder leads to. */
  predicate ClosesUnnamed(c: Core, op: Op) {
    && op.ConnectionCloses? && op.id in c.net.connToPeer && c.net.connToPeer[op.id].Placeholder?
    && ConnFor(c.net, c.net.connToPeer[op.id]) == Some(op.id)
  }

  /** A close tells exactly the peer it leaves without a connection. */
  lemma CloseTells(c: Core, conn: ConnId)
    requires Ping.Idle(c.ping) && Identify.Idle(c.identify)
    ensures ConnClosed(c, conn).events == c.events
              + if conn in c.net.connToPeer && ConnFor(c.net, c.net.connToPeer[conn]) == Some(conn)
                then [ConnectionClosed(c.net.connToPeer[conn])] else []
  {
    hide ForgetPeer, Purge;
    if conn in c.net.connToPeer {
      var peer := c.net.connToPeer[conn];
      var net1 := c.net.(active := c.net.active - {conn}, remoteAddr := c.net.remoteAddr - {conn},
                         connToPeer := c.net.connToPeer - {conn});
      ForgetForm(c.(net := net1.(peerToConn := net1.peerToConn - {peer})), peer);
    }
  }

  /** An upgrade renames what is queued and tells nothing of closes. */
  lemma UpgradeTells(c: Core, env: Env, conn: ConnId, peer: PeerId)
    requires Inv(c, env) && peer.Verified?
    ensures var d, was := Upgrade(c, conn, peer), PeerOf(c.net, conn);
            && |c.events| <= |d.events|
            && d.events[..|c.events|] == (if conn in c.net.connToPeer && was != peer
                                          then RenameEvents(c.events, was, peer) else c.events)
            && forall i :: |c.events| <= i < |d.events| ==> !Unnamed(d.events[i])
  {
    hide Rekey, QueueOpen, Sound, Coherent, Readiness, Bind, RenameEvents, Moved, MovedIn;
    if !(conn in c.net.connToPeer && c.net.connToPeer[conn] == peer) {
      if conn in c.net.connToPeer {
        RekeyForm(c, c.net.connToPeer[conn], peer);
      }
      var u := Upgraded(c, conn, peer);
      var c3 := TryReady(Push(u, ConnectionEstablished(peer)), peer);
      QueueOpenTells(c3, peer);
      assert c3.events[..|u.events|] == u.events;
    }
  }

  lemma QueueOpenTells(c: Core, peer: PeerId)
    ensures QueueOpen(c, peer, IDENTIFY_ID, IdentifyInitiator).0.events == c.events
  {
  }

  /** Queued closes name connections that are closed for good. */
  ghost predicate LaidToRest(events: seq<Event>, env: Env) {
    forall i :: 0 <= i < |events| && Unnamed(events[i]) ==> events[i].peer.conn in env.closed
  }

  lemma {:induction false} RenamedUnnamed(events: seq<Event>, env: Env, from: PeerId, to: PeerId)
    requires LaidToRest(events, env) && to.Verified? && (from.Placeholder? ==> from.conn !in env.closed)
    ensures UnnamedCloses(RenameEvents(events, from, to)) == UnnamedCloses(events)
  {
    if events != [] {
      RenamedUnnamed(events[1..], env, from, to);
      assert RenameEvents(events, from, to)[1..] == RenameEvents(events[1..], from, to);
      assert Unnamed(events[0]) ==> RenameEvent(events[0], from, to) == events[0];
    }
  }

  lemma RenamedRest(events: seq<Event>, env: Env, from: PeerId, to: PeerId)
    requires LaidToRest(events, env) && to.Verified?
    ensures LaidToRest(RenameEvents(events, from, to), env)
  {
  }

  /** The close a step owes the application: of a connection that was never identified. */
  function Owed(c: Core, op: Op): seq<Event> {
    if ClosesUnnamed(c, op) then [ConnectionClosed(Placeholder(op.id))] else []
  }

  /** A step at the end of which no placeholder close has been added or lost. */
  ghost predicate Undisturbed(c: Core, d: Core, env: Env) {
    UnnamedCloses(d.events) == UnnamedCloses(c.events) && LaidToRest(d.events, env)
  }

  lemma GrownUndisturbed(c: Core, d: Core, env: Env)
    requires c.events <= d.events && LaidToRest(c.events, env)
    requires forall i :: |c.events| <= i < |d.events| ==> !Unnamed(d.events[i])
    ensures Undisturbed(c, d, env)
  {
    var news := d.events[|c.events|..];
    assert d.events == c.events + news;
    NoneUnnamed(news);
    UnnamedAppend(c.events, news);
    assert UnnamedCloses(c.events) + [] == UnnamedCloses(c.events);
  }

  lemma UpgradeUndisturbed(c: Core, env: Env, conn: ConnId, peer: PeerId)
    requires Inv(c, env) && peer.Verified? && LaidToRest(c.events, env)
    ensures Undisturbed(c, Upgrade(c, conn, peer), env)
  {
    hide Upgrade, Readiness, Coherent, UnnamedCloses, RenameEvents, LaidToRest, Unnamed, Handshaking, Disciplined;
    UpgradeTells(c, env, conn, peer);
    var d := Upgrade(c, conn, peer);
    if conn in c.net.connToPeer && c.net.connToPeer[conn] != peer {
      var was := c.net.connToPeer[conn];
      RenamedUnnamed(c.events, env, was, peer);
      RenamedRest(c.events, env, was, peer);
      var renamed := c.(events := RenameEvents(c.events, was, peer));
      assert renamed.events <= d.events;
      GrownUndisturbed(renamed, d, env);
    } else {
      GrownUndisturbed(c, d, env);
    }
  }

  /** Plain steps. */
  lemma PlainUndisturbed(c: Core, env: Env, op: Op)
    requires Inv(c, env) && Negotiating(c.net) && Allowed(env, c, op) && LaidToRest(c.events, env)
    requires !op.PollOutput? && !op.ConnectionCloses? && !op.IdentityVerified?
    ensures Undisturbed(c, Step(c, op), env)
  {
    hide Inv, Step, Negotiating, Allowed, Undisturbed, LaidToRest;
    var d := Step(c, op);
    if OnStream(op) {
      StreamStepGrows(c, env, op);
      assert forall i :: |c.events| <= i < |d.events| ==> d.events[i] == d.events[|c.events|..][i - |c.events|];
    } else {
      OtherStepRecedes(c, env, op);
    }
    GrownUndisturbed(c, d, env);
  }

  lemma RestsLonger(events: seq<Event>, env: Env, op: Op)
    requires LaidToRest(events, env)
    ensures LaidToRest(events, Advance(env, op))
  {
  }

  lemma CloseOwes(c: Core, env: Env, op: Op)
    requires Inv(c, env) && Negotiating(c.net) && op.ConnectionCloses? && LaidToRest(c.events, env)
    ensures UnnamedCloses(Step(c, op).events) == UnnamedCloses(c.events) + Owed(c, op)
    ensures LaidToRest(Step(c, op).events, Advance(env, op))
  {
    hide ConnClosed, Readiness, Coherent, Handshaking, Disciplined, Alive;
    InvIdle(c, env);
    CloseTells(c, op.id);
    var d := Step(c, op);
    var news := d.events[|c.events|..];
    assert d.events == c.events + news;
    UnnamedAppend(c.events, news);
    assert news == [] || news[1..] == [];
    assert UnnamedCloses(news) == Owed(c, op);
  }

  /** A step that hands nothing out queues exactly the closes of placeholders it owes. */
  lemma StepOwes(c: Core, env: Env, op: Op)
    requires Inv(c, env) && Negotiating(c.net) && Allowed(env, c, op) && LaidToRest(c.events, env) && !op.PollOutput?
    ensures UnnamedCloses(Step(c, op).events) == UnnamedCloses(c.events) + Owed(c, op)
    ensures LaidToRest(Step(c, op).events, Advance(env, op))
  {
    hide Inv, Step, Negotiating, LaidToRest, UnnamedCloses;
    assert UnnamedCloses(c.events) + [] == UnnamedCloses(c.events);
    if op.ConnectionCloses? {
      CloseOwes(c, env, op);
    } else {
      if op.IdentityVerified? {
        VerifiedUndisturbed(c, env, op);
      } else {
        PlainUndisturbed(c, env, op);
      }
      RestsLonger(Step(c, op).events, env, op);
    }
  }

  lemma VerifiedUndisturbed(c: Core, env: Env, op: Op)
    requires Inv(c, env) && Negotiating(c.net) && Allowed(env, c, op) && LaidToRest(c.events, env)
    requires op.IdentityVerified?
    ensures Undisturbed(c, Step(c, op), env)
  {
    hide Inv, Upgrade, LaidToRest, UnnamedCloses, Negotiating;
    SeenKeeps(c, env, op.id, op.addr);
    if op.who.Some? {
      UpgradeUndisturbed(Seen(c, op.id, op.addr), env, op.id, op.who.value);
    }
  }

  /** The closes of unidentified connections in a run, in order. */
  ghost function AllOwed(c: Core, ops: seq<Op>): seq<Event>
    decreases |ops|
  {
    if ops == [] then [] else Owed(c, ops[0]) + AllOwed(Next(c, ops[0]), ops[1..])
  }

  lemma {:induction false} RunOwes(c: Core, env: Env, ops: seq<Op>)
    requires Inv(c, env) && Lawful(c, env, ops) && LaidToRest(c.events, env)
    ensures UnnamedCloses(HandedOut(c, ops)) + UnnamedCloses(Run(c, ops).events)
         == UnnamedCloses(c.events) + AllOwed(c, ops)
    decreases |ops|
  {
    hide Inv, Next, Allowed, Advance, UnnamedCloses, LaidToRest, HandsOut, Owed;
    if ops == [] {
      assert UnnamedCloses([]) == [] by { NoneUnnamed([]); }
      assert [] + UnnamedCloses(c.events) == UnnamedCloses(c.events) + [];
    } else {
      var d, rest := Next(c, ops[0]), ops[1..];
      NextKeeps(c, env, ops[0]);
      NextOwes(c, env, ops[0]);
      RunOwes(d, Advance(env, ops[0]), rest);
      UnnamedAppend(HandsOut(c, ops[0]), HandedOut(d, rest));
      Regroup(UnnamedCloses(HandsOut(c, ops[0])), UnnamedCloses(HandedOut(d, rest)), UnnamedCloses(Run(c, ops).events),
              UnnamedCloses(d.events), AllOwed(d, rest), UnnamedCloses(c.events), Owed(c, ops[0]));
    }
  }

  lemma NextOwes(c: Core, env: Env, op: Op)
    requires Inv(c, env) && Allowed(env, c, op) && LaidToRest(c.events, env)
    ensures UnnamedCloses(HandsOut(c, op)) + UnnamedCloses(Next(c, op).events) == UnnamedCloses(c.events) + Owed(c, op)
    ensures LaidToRest(Next(c, op).events, Advance(env, op))
  {
    hide Inv, Step, Allowed, Negotiating, UnnamedCloses, LaidToRest, Poll;
    NextKeeps(c, env, op);
    NoneUnnamed([]);
    if op.PollOutput? {
      PollIs(c);
      PollOwes(c, env);
      assert UnnamedCloses(c.events) + [] == UnnamedCloses(c.events);
    } else {
      StepOwes(c, env, op);
      assert [] + UnnamedCloses(Next(c, op).events) == UnnamedCloses(Next(c, op).events);
    }
  }

  lemma PollOwes(c: Core, env: Env)
    requires LaidToRest(c.events, env)
    ensures UnnamedCloses(HandsOut(c, PollOutput)) + UnnamedCloses(Poll(c).events) == UnnamedCloses(c.events)
    ensures LaidToRest(Poll(c).events, env)
  {
    hide UnnamedCloses;
    var out, d := HandsOut(c, PollOutput), Poll(c);
    assert c.events != [] ==> [c.events[0]] + c.events[1..] == c.events;
    assert out + d.events == c.events;
    UnnamedAppend(out, d.events);
  }

  /** Over every run, the closes of placeholders the application is handed or will be are exactly
      those of the connections that closed while their placeholder led to them, in that order. */
  lemma PlaceholderClosesIff(config: Identify.Config, timeoutMs: u64, ops: seq<Op>)
    requires Lawful(New(config, timeoutMs), NOWHERE, ops)
    ensures var start := New(config, timeoutMs);
            UnnamedCloses(HandedOut(start, ops)) + UnnamedCloses(Run(start, ops).events) == AllOwed(start, ops)
  {
    hide Lawful, HandedOut, Run, AllOwed;
    InvNew(config, timeoutMs);
    RunOwes(New(config, timeoutMs), NOWHERE, ops);
    assert [] + AllOwed(New(config, timeoutMs), ops) == AllOwed(New(config, timeoutMs), ops);
  }

  /** One step: it queues the close of a placeholder exactly when it closes a connection whose name is
      a placeholder leading to it. */
  lemma StepClosesIff(c: Core, env: Env, op: Op)
    requires Inv(c, env) && Negotiating(c.net) && Allowed(env, c, op) && LaidToRest(c.events, env) && !op.PollOutput?
    ensures UnnamedCloses(Step(c, op).events) != UnnamedCloses(c.events) <==> ClosesUnnamed(c, op)
  {
    hide Inv, Step, Negotiating, LaidToRest, UnnamedCloses;
    StepOwes(c, env, op);
    assert |UnnamedCloses(c.events) + Owed(c, op)| == |UnnamedCloses(c.events)| + |Owed(c, op)|;
    assert UnnamedCloses(c.events) + [] == UnnamedCloses(c.events);
  }

  /** They are not kept from everything: the close of an unidentified connection names one. */
  lemma PlaceholderCloses(config: Identify.Config, timeoutMs: u64)
    ensures var ops := [Connected(1, None, []), ConnectionCloses(1)];
            && Lawful(New(config, timeoutMs), NOWHERE, ops)
            && ConnectionClosed(Placeholder(1)) in Run(New(config, timeoutMs), ops).events
  {
    hide Step;
    var c0, first, second := New(config, timeoutMs), Connected(1, None, []), ConnectionCloses(1);
    var ops := [first, second];
    InvNew(config, timeoutMs);
    NextKeeps(c0, NOWHERE, first);
    var c1 := Next(c0, first);
    FirstUnnamed(config, timeoutMs);
    var e1 := Advance(NOWHERE, first);
    NextKeeps(c1, e1, second);
    assert ops[1..] == [second] && ops[1..][1..] == [];
    assert Lawful(c1, e1, [second]);
    assert Run(c0, ops) == Run(c1, [second]) == Run(Next(c1, second), []) == Next(c1, second);
    InvIdle(c1, e1);
    UnnamedEnds(c1);
  }

  lemma FirstUnnamed(config: Identify.Config, timeoutMs: u64)
    ensures var c := Next(New(config, timeoutMs), Connected(1, None, []));
            c.net.connToPeer == map[1 := Placeholder(1)] && c.net.peerToConn == map[Placeholder(1) := 1]
            && c.net.nextToken == 1
  {
  }

  lemma UnnamedEnds(c: Core)
    requires Negotiating(c.net) && Ping.Idle(c.ping) && Identify.Idle(c.identify)
    requires c.net.connToPeer == map[1 := Placeholder(1)] && c.net.peerToConn == map[Placeholder(1) := 1]
    ensures ConnectionClosed(Placeholder(1)) in Step(c, ConnectionCloses(1)).events
  {
    hide ConnClosed, Negotiating;
    CloseTells(c, 1);
  }

  /** The other events a placeholder may appear in do name it: bytes on a user stream, a refused second
      identify stream and a refused ping stream name whatever the connection is called. */
  lemma UnidentifiedNamed(c: Core, env: Env, conn: ConnId, stream: StreamId, data: Blob, nowMs: u64)
    requires Inv(c, env) && conn in c.net.connToPeer
    ensures (conn, stream) in c.net.owner && c.net.owner[(conn, stream)].User? ==>
              Dispatch(c, conn, stream, data, nowMs).events
                == c.events + [UserStreamData(c.net.connToPeer[conn], stream, data)]
    ensures Identify.Peer(c.identify, c.net.connToPeer[conn]).outbound.Some? ==>
              InboundNegotiated(c, conn, stream, IDENTIFY_ID).events
                == c.events + [RuntimeError(IdentifyStreamRejected, Some(c.net.connToPeer[conn]), Some(conn))]
    ensures PingRefuses(c.ping, c.net.connToPeer[conn], stream) ==>
              OutboundNegotiated(c, conn, stream, PingKind, nowMs).events
                == c.events + [RuntimeError(PingFault, Some(c.net.connToPeer[conn]), Some(conn))]
  {
    hide Inv, FeedPing, FeedIdentify, DrainPing, DrainIdentify, Ping.RegisterOutbound;
    assert |PING_ID| != |IDENTIFY_ID|;
  }
}

/** The `/ipfs/ping/1.0.0` machine (crates/ping/src/lib.rs): per-peer streams, fragmented payloads,
    timeouts and identity migration. */
module Ping {
  import opened Bytes
  import opened Ids

  const PAYLOAD_LEN: nat := 32
  const MAX_INBOUND: nat := 2

  datatype Action =
    | Send(peer: PeerId, stream: StreamId, data: Blob)
    | CloseStreamWrite(peer: PeerId, stream: StreamId)
    | ResetStream(peer: PeerId, stream: StreamId)

  datatype Violation = UnknownStream | BufferTooLong | NoRequest | PayloadMismatch | ClosedBeforeResponse

  datatype Event =
    | OutboundStreamRegistered(peer: PeerId, stream: StreamId)
    | InboundStreamAccepted(peer: PeerId, stream: StreamId)
    | RttMeasured(peer: PeerId, stream: StreamId, rttMs: nat)
    | Timeout(peer: PeerId, stream: StreamId, timeoutMs: nat)
    | OutboundStreamClosed(peer: PeerId, stream: StreamId)
    | StreamLimitExceeded(peer: PeerId, stream: StreamId)
    | ProtocolViolation(peer: PeerId, stream: StreamId, why: Violation)

  datatype Error = OutboundStreamExists | OutboundStreamMissing | PingAlreadyInFlight | InvalidPayloadLength

  /** `Tick` carries the order in which the peer table is walked. */
  datatype Input =
    | RegisterOutboundStream(peer: PeerId, stream: StreamId)
    | RegisterInboundStream(peer: PeerId, stream: StreamId)
    | SendPing(peer: PeerId, payload: Blob, nowMs: u64)
    | CloseOutboundStreamWrite(peer: PeerId)
    | StreamData(peer: PeerId, stream: StreamId, data: Blob, nowMs: u64)
    | StreamRemoteWriteClosed(peer: PeerId, stream: StreamId)
    | StreamClosed(peer: PeerId, stream: StreamId)
    | RemovePeer(peer: PeerId)
    | MigratePeer(from: PeerId, to: PeerId)
    | Tick(nowMs: u64, order: seq<PeerId>)

  datatype PendingPing = PendingPing(payload: Blob, sentAtMs: u64)

  datatype PeerState = PeerState(
    outbound: Option<StreamId>,
    inbound: set<StreamId>,
    pending: Option<PendingPing>,
    recvBufs: map<StreamId, Blob>)

  const FRESH_PEER: PeerState := PeerState(None, {}, None, map[])

  datatype Machine = Machine(
    peers: map<PeerId, PeerState>, events: seq<Event>, actions: seq<Action>, timeoutMs: u64)

  function New(timeoutMs: u64): Machine {
    Machine(map[], [], [], timeoutMs)
  }

  // -------------------------------------------------------------- value-level steps

  function Peer(m: Machine, peer: PeerId): PeerState {
    if peer in m.peers then m.peers[peer] else FRESH_PEER
  }

  function Put(m: Machine, peer: PeerId, state: PeerState): Machine {
    m.(peers := m.peers[peer := state])
  }

  function Emit(m: Machine, event: Event): Machine {
    m.(events := m.events + [event])
  }

  function Do(m: Machine, action: Action): Machine {
    m.(actions := m.actions + [action])
  }

  function Violate(m: Machine, peer: PeerId, stream: StreamId, why: Violation): Machine {
    Do(Emit(m, ProtocolViolation(peer, stream, why)), ResetStream(peer, stream))
  }

  function OutboundStream(m: Machine, peer: PeerId): Option<StreamId> {
    Peer(m, peer).outbound
  }

  function RegisterOutbound(m: Machine, peer: PeerId, stream: StreamId): (Machine, Option<Error>) {
    var state := Peer(m, peer);
    if state.outbound.Some? then
      if state.outbound.value != stream then (m, Some(OutboundStreamExists)) else (m, None)
    else
      (Emit(Put(m, peer, state.(outbound := Some(stream))), OutboundStreamRegistered(peer, stream)), None)
  }

  function RegisterInbound(m: Machine, peer: PeerId, stream: StreamId): Machine {
    var state := Peer(m, peer);
    var known := Put(m, peer, state);
    if stream in state.inbound then known
    else if |state.inbound| >= MAX_INBOUND then
      Do(Emit(known, StreamLimitExceeded(peer, stream)), ResetStream(peer, stream))
    else
      Emit(Put(m, peer, state.(inbound := state.inbound + {stream})), InboundStreamAccepted(peer, stream))
  }

  function SendOne(m: Machine, peer: PeerId, payload: Blob, nowMs: u64): (Machine, Option<Error>) {
    var state := Peer(m, peer);
    if |payload| != PAYLOAD_LEN then (m, Some(InvalidPayloadLength))
    else if state.outbound.None? then (m, Some(OutboundStreamMissing))
    else if state.pending.Some? then (m, Some(PingAlreadyInFlight))
    else
      (Do(Put(m, peer, state.(pending := Some(PendingPing(payload, nowMs)))),
          Send(peer, state.outbound.value, payload)), None)
  }

  function CloseOutboundWrite(m: Machine, peer: PeerId): (Machine, Option<Error>) {
    var state := Peer(m, peer);
    if state.outbound.None? then (m, Some(OutboundStreamMissing))
    else if state.pending.Some? then (m, Some(PingAlreadyInFlight))
    else (Do(m, CloseStreamWrite(peer, state.outbound.value)), None)
  }

  function Elapsed(nowMs: u64, sentAtMs: u64): nat {
    if nowMs > sentAtMs then nowMs - sentAtMs else 0
  }

  predicate Known(state: PeerState, stream: StreamId) {
    state.outbound == Some(stream) || stream in state.inbound
  }

  function Buffered(state: PeerState, stream: StreamId): Blob {
    if stream in state.recvBufs then state.recvBufs[stream] else []
  }

  function Data(m: Machine, peer: PeerId, stream: StreamId, data: Blob, nowMs: u64): Machine {
    var state := Peer(m, peer);
    if !Known(state, stream) then Violate(m, peer, stream, UnknownStream)
    else
      var buf := Buffered(state, stream) + data;
      var cleared := state.(recvBufs := state.recvBufs - {stream});
      if |buf| > PAYLOAD_LEN then Violate(Put(m, peer, cleared), peer, stream, BufferTooLong)
      else if |buf| < PAYLOAD_LEN then Put(m, peer, state.(recvBufs := state.recvBufs[stream := buf]))
      else CompletePayload(Put(m, peer, cleared), peer, stream, buf, nowMs)
  }

  function CompletePayload(m: Machine, peer: PeerId, stream: StreamId, payload: Blob, nowMs: u64): Machine {
    var state := Peer(m, peer);
    if state.outbound == Some(stream) then
      match state.pending
      case None => Violate(m, peer, stream, NoRequest)
      case Some(ping) =>
        var taken := Put(m, peer, state.(pending := None));
        if ping.payload != payload then Violate(taken, peer, stream, PayloadMismatch)
        else Emit(taken, RttMeasured(peer, stream, Elapsed(nowMs, ping.sentAtMs)))
    else if stream in state.inbound then Do(m, Send(peer, stream, payload))
    else m
  }

  function RemoteWriteClosed(m: Machine, peer: PeerId, stream: StreamId): Machine {
    if peer !in m.peers then m
    else
      var state := m.peers[peer];
      var unbuffered := state.recvBufs - {stream};
      if stream in state.inbound then
        Put(m, peer, state.(inbound := state.inbound - {stream}, recvBufs := unbuffered))
      else if state.outbound == Some(stream) then
        var closed := Put(m, peer, state.(pending := None, outbound := None, recvBufs := unbuffered));
        if state.pending.Some? then Violate(closed, peer, stream, ClosedBeforeResponse)
        else Emit(closed, OutboundStreamClosed(peer, stream))
      else m
  }

  function Closed(m: Machine, peer: PeerId, stream: StreamId): Machine {
    if peer !in m.peers then m
    else
      var state := m.peers[peer];
      var kept := state.(inbound := state.inbound - {stream}, recvBufs := state.recvBufs - {stream});
      Put(m, peer, if state.outbound == Some(stream) then kept.(outbound := None, pending := None) else kept)
  }

  function Remove(m: Machine, peer: PeerId): Machine {
    m.(peers := m.peers - {peer})
  }

  function Rename(event: Event, from: PeerId, to: PeerId): Event {
    if event.peer == from then event.(peer := to) else event
  }

  function RenameAll(events: seq<Event>, from: PeerId, to: PeerId): (r: seq<Event>)
    ensures |r| == |events|
  {
    seq(|events|, i requires 0 <= i < |events| => Rename(events[i], from, to))
  }

  function Migrate(m: Machine, from: PeerId, to: PeerId): Machine {
    if from == to then m
    else
      var peers := if from in m.peers then (m.peers - {from})[to := m.peers[from]] else m.peers;
      m.(peers := peers, events := RenameAll(m.events, from, to))
  }

  predicate Expired(m: Machine, peer: PeerId, nowMs: u64) {
    var state := Peer(m, peer);
    state.outbound.Some? && state.pending.Some? && Elapsed(nowMs, state.pending.value.sentAtMs) > m.timeoutMs
  }

  function Expire(m: Machine, peer: PeerId, nowMs: u64): Machine {
    if !Expired(m, peer, nowMs) then m
    else
      var state := m.peers[peer];
      var stream := state.outbound.value;
      var dropped := state.(pending := None, outbound := None, recvBufs := state.recvBufs - {stream});
      Do(Emit(Emit(Put(m, peer, dropped), Timeout(peer, stream, m.timeoutMs)), OutboundStreamClosed(peer, stream)),
         ResetStream(peer, stream))
  }

  function TickAll(m: Machine, nowMs: u64, order: seq<PeerId>): Machine
    decreases |order|
  {
    if order == [] then m else TickAll(Expire(m, order[0], nowMs), nowMs, order[1..])
  }

  function Handle(m: Machine, input: Input): (Machine, Option<Error>) {
    match input
    case RegisterOutboundStream(peer, stream) => RegisterOutbound(m, peer, stream)
    case RegisterInboundStream(peer, stream) => (RegisterInbound(m, peer, stream), None)
    case SendPing(peer, payload, nowMs) => SendOne(m, peer, payload, nowMs)
    case CloseOutboundStreamWrite(peer) => CloseOutboundWrite(m, peer)
    case StreamData(peer, stream, data, nowMs) => (Data(m, peer, stream, data, nowMs), None)
    case StreamRemoteWriteClosed(peer, stream) => (RemoteWriteClosed(m, peer, stream), None)
    case StreamClosed(peer, stream) => (Closed(m, peer, stream), None)
    case RemovePeer(peer) => (Remove(m, peer), None)
    case MigratePeer(from, to) => (Migrate(m, from, to), None)
    case Tick(nowMs, order) => (TickAll(m, nowMs, order), None)
  }

  datatype Output = Act(action: Action) | Tell(event: Event)

  predicate Idle(m: Machine) {
    m.actions == [] && m.events == []
  }

  /** The next output: actions before events. */
  function Poll(m: Machine): (Machine, Option<Output>) {
    if m.actions != [] then (m.(actions := m.actions[1..]), Some(Act(m.actions[0])))
    else if m.events != [] then (m.(events := m.events[1..]), Some(Tell(m.events[0])))
    else (m, None)
  }

  // ------------------------------------------------------------------- invariants

  predicate PeerSound(state: PeerState) {
    && (state.pending.Some? ==> state.outbound.Some?)
    && |state.inbound| <= MAX_INBOUND
    && forall s :: s in state.recvBufs ==> Known(state, s) && |state.recvBufs[s]| < PAYLOAD_LEN
  }

  /** A pending ping has a stream, at most two inbound streams, and every buffer is a proper
      fragment of a payload on a registered stream. */
  ghost predicate Sound(m: Machine) {
    forall p :: p in m.peers ==> PeerSound(m.peers[p])
  }

  lemma {:induction false} TickSound(m: Machine, nowMs: u64, order: seq<PeerId>)
    requires Sound(m)
    ensures Sound(TickAll(m, nowMs, order))
    decreases |order|
  {
    if order != [] {
      TickSound(Expire(m, order[0], nowMs), nowMs, order[1..]);
    }
  }

  lemma DataSound(m: Machine, peer: PeerId, stream: StreamId, data: Blob, nowMs: u64)
    requires Sound(m)
    ensures Sound(Data(m, peer, stream, data, nowMs))
  {
    assert PeerSound(Peer(m, peer));
  }

  lemma RegisterSound(m: Machine, peer: PeerId, stream: StreamId)
    requires Sound(m)
    ensures Sound(RegisterOutbound(m, peer, stream).0) && Sound(RegisterInbound(m, peer, stream))
  {
    assert PeerSound(Peer(m, peer));
  }

  lemma EndSound(m: Machine, peer: PeerId, stream: StreamId)
    requires Sound(m)
    ensures Sound(RemoteWriteClosed(m, peer, stream)) && Sound(Closed(m, peer, stream))
  {
  }

  lemma HandleSound(m: Machine, input: Input)
    requires Sound(m)
    ensures Sound(Handle(m, input).0)
  {
    hide Data, TickAll, RegisterOutbound, RegisterInbound, RemoteWriteClosed, Closed;
    match input {
      case Tick(nowMs, order) => TickSound(m, nowMs, order);
      case StreamData(peer, stream, data, nowMs) => DataSound(m, peer, stream, data, nowMs);
      case RegisterOutboundStream(peer, stream) => RegisterSound(m, peer, stream);
      case RegisterInboundStream(peer, stream) => RegisterSound(m, peer, stream);
      case StreamRemoteWriteClosed(peer, stream) => EndSound(m, peer, stream);
      case StreamClosed(peer, stream) => EndSound(m, peer, stream);
      case _ =>
    }
  }

  // ----------------------------------------------------------------- conservation

  /** The ways a ping can end with an event. */
  datatype Ending = Measured | TimedOut | Mismatched | CutOff

  function EndingOf(event: Event): Option<Ending> {
    match event
    case RttMeasured(_, _, _) => Some(Measured)
    case Timeout(_, _, _) => Some(TimedOut)
    case ProtocolViolation(_, _, PayloadMismatch) => Some(Mismatched)
    case ProtocolViolation(_, _, ClosedBeforeResponse) => Some(CutOff)
    case _ => None
  }

  function Count(events: seq<Event>, ending: Ending): nat {
    if events == [] then 0
    else (if EndingOf(events[0]) == Some(ending) then 1 else 0) + Count(events[1..], ending)
  }

  function Ended(events: seq<Event>): nat {
    Count(events, Measured) + Count(events, TimedOut) + Count(events, Mismatched) + Count(events, CutOff)
  }

  /** The peers with a ping in flight. */
  function Waiting(m: Machine): set<PeerId> {
    set p | p in m.peers && m.peers[p].pending.Some?
  }

  /** Whether an input is a `SendPing` that is accepted. */
  function Accepts(m: Machine, input: Input): nat {
    if input.SendPing? && Handle(m, input).1.None? then 1 else 0
  }

  /** Whether an input silently discards a ping: its stream closes, its peer is removed, or the
      peer's state is overwritten by a migration. */
  function Drops(m: Machine, input: Input): nat {
    match input
    case StreamClosed(peer, stream) =>
      if peer in Waiting(m) && m.peers[peer].outbound == Some(stream) then 1 else 0
    case RemovePeer(peer) => if peer in Waiting(m) then 1 else 0
    case MigratePeer(from, to) => if from != to && from in m.peers && to in Waiting(m) then 1 else 0
    case _ => 0
  }

  lemma {:induction false} CountAppend(a: seq<Event>, b: seq<Event>, ending: Ending)
    ensures Count(a + b, ending) == Count(a, ending) + Count(b, ending)
  {
    if a == [] {
      assert a + b == b;
    } else {
      assert (a + b)[1..] == a[1..] + b;
      CountAppend(a[1..], b, ending);
    }
  }

  lemma EndedAppend(a: seq<Event>, b: seq<Event>)
    ensures Ended(a + b) == Ended(a) + Ended(b)
  {
    CountAppend(a, b, Measured);
    CountAppend(a, b, TimedOut);
    CountAppend(a, b, Mismatched);
    CountAppend(a, b, CutOff);
  }

  lemma EndedEmit(m: Machine, event: Event)
    ensures Ended(Emit(m, event).events) == Ended(m.events) + if EndingOf(event).Some? then 1 else 0
  {
    EndedAppend(m.events, [event]);
    assert [event][1..] == [];
    assert forall e: Ending :: Count([event], e) == if EndingOf(event) == Some(e) then 1 else 0;
  }

  lemma {:induction false} CountRenamed(events: seq<Event>, from: PeerId, to: PeerId, ending: Ending)
    ensures Count(RenameAll(events, from, to), ending) == Count(events, ending)
  {
    if events != [] {
      CountRenamed(events[1..], from, to, ending);
      assert RenameAll(events, from, to)[1..] == RenameAll(events[1..], from, to);
    }
  }

  lemma EndedRenamed(events: seq<Event>, from: PeerId, to: PeerId)
    ensures Ended(RenameAll(events, from, to)) == Ended(events)
  {
    CountRenamed(events, from, to, Measured);
    CountRenamed(events, from, to, TimedOut);
    CountRenamed(events, from, to, Mismatched);
    CountRenamed(events, from, to, CutOff);
  }

  /** Replacing one peer's state moves only that peer in or out of the waiting set. */
  lemma WaitingPut(m: Machine, peer: PeerId, state: PeerState)
    ensures Waiting(Put(m, peer, state))
         == if state.pending.Some? then Waiting(m) + {peer} else Waiting(m) - {peer}
  {
  }

  lemma ExpireConserves(m: Machine, peer: PeerId, nowMs: u64)
    ensures |Waiting(m)| + Ended(m.events)
         == |Waiting(Expire(m, peer, nowMs))| + Ended(Expire(m, peer, nowMs).events)
  {
    hide Ended;
    if Expired(m, peer, nowMs) {
      var stream := m.peers[peer].outbound.value;
      var dropped := m.peers[peer].(pending := None, outbound := None, recvBufs := m.peers[peer].recvBufs - {stream});
      var n := Put(m, peer, dropped);
      WaitingPut(m, peer, dropped);
      EndedEmit(n, Timeout(peer, stream, m.timeoutMs));
      EndedEmit(Emit(n, Timeout(peer, stream, m.timeoutMs)), OutboundStreamClosed(peer, stream));
      assert peer in Waiting(m);
    }
  }

  lemma {:induction false} TickConserves(m: Machine, nowMs: u64, order: seq<PeerId>)
    ensures |Waiting(m)| + Ended(m.events)
         == |Waiting(TickAll(m, nowMs, order))| + Ended(TickAll(m, nowMs, order).events)
    decreases |order|
  {
    hide Ended, Waiting, Expire;
    if order != [] {
      ExpireConserves(m, order[0], nowMs);
      TickConserves(Expire(m, order[0], nowMs), nowMs, order[1..]);
    }
  }

  /** A complete payload ends a pending ping with one event or leaves the waiting set alone. */
  lemma CompleteConserves(m: Machine, peer: PeerId, stream: StreamId, payload: Blob, nowMs: u64)
    ensures |Waiting(m)| + Ended(m.events)
         == |Waiting(CompletePayload(m, peer, stream, payload, nowMs))|
            + Ended(CompletePayload(m, peer, stream, payload, nowMs).events)
  {
    hide Ended;
    var state := Peer(m, peer);
    EndedEmit(m, ProtocolViolation(peer, stream, NoRequest));
    if state.outbound == Some(stream) && state.pending.Some? {
      var taken := Put(m, peer, state.(pending := None));
      WaitingPut(m, peer, state.(pending := None));
      EndedEmit(taken, ProtocolViolation(peer, stream, PayloadMismatch));
      EndedEmit(taken, RttMeasured(peer, stream, Elapsed(nowMs, state.pending.value.sentAtMs)));
      assert peer in Waiting(m);
    } else {
      WaitingDependsOnPeers(m, CompletePayload(m, peer, stream, payload, nowMs));
    }
  }

  lemma DataConserves(m: Machine, peer: PeerId, stream: StreamId, data: Blob, nowMs: u64)
    ensures |Waiting(m)| + Ended(m.events)
         == |Waiting(Data(m, peer, stream, data, nowMs))| + Ended(Data(m, peer, stream, data, nowMs).events)
  {
    hide Ended, Waiting, CompletePayload;
    var state := Peer(m, peer);
    if !Known(state, stream) {
      EndedEmit(m, ProtocolViolation(peer, stream, UnknownStream));
      WaitingDependsOnPeers(m, Violate(m, peer, stream, UnknownStream));
    } else {
      var buf := Buffered(state, stream) + data;
      var cleared := state.(recvBufs := state.recvBufs - {stream});
      var n := Put(m, peer, cleared);
      WaitingKept(m, peer, cleared);
      WaitingKept(m, peer, state.(recvBufs := state.recvBufs[stream := buf]));
      EndedEmit(n, ProtocolViolation(peer, stream, BufferTooLong));
      WaitingDependsOnPeers(n, Violate(n, peer, stream, BufferTooLong));
      if |buf| == PAYLOAD_LEN {
        CompleteConserves(n, peer, stream, buf, nowMs);
      }
    }
  }

  lemma RemoteWriteClosedConserves(m: Machine, peer: PeerId, stream: StreamId)
    ensures |Waiting(m)| + Ended(m.events)
         == |Waiting(RemoteWriteClosed(m, peer, stream))| + Ended(RemoteWriteClosed(m, peer, stream).events)
  {
    hide Ended;
    if peer in m.peers {
      var state := m.peers[peer];
      var unbuffered := state.recvBufs - {stream};
      var half := state.(inbound := state.inbound - {stream}, recvBufs := unbuffered);
      var gone := state.(pending := None, outbound := None, recvBufs := unbuffered);
      WaitingPut(m, peer, half);
      WaitingPut(m, peer, gone);
      EndedEmit(Put(m, peer, gone), ProtocolViolation(peer, stream, ClosedBeforeResponse));
      EndedEmit(Put(m, peer, gone), OutboundStreamClosed(peer, stream));
      assert state.pending.Some? <==> peer in Waiting(m);
    }
  }

  lemma WaitingMigrated(m: Machine, from: PeerId, to: PeerId)
    requires from != to && from in m.peers
    ensures Waiting(Migrate(m, from, to))
         == (Waiting(m) - {from, to}) + if from in Waiting(m) then {to} else {}
  {
  }

  lemma MigrateConserves(m: Machine, from: PeerId, to: PeerId)
    ensures |Waiting(m)| + Ended(m.events)
         == |Waiting(Migrate(m, from, to))| + Ended(Migrate(m, from, to).events) + Drops(m, MigratePeer(from, to))
  {
    hide Ended, Waiting;
    EndedRenamed(m.events, from, to);
    if from != to && from in m.peers {
      WaitingMigrated(m, from, to);
      SplitPair(Waiting(m), from, to);
    } else {
      WaitingDependsOnPeers(m, Migrate(m, from, to));
    }
  }

  lemma SplitPair(s: set<PeerId>, a: PeerId, b: PeerId)
    requires a != b
    ensures |s| == |s - {a, b}| + (if a in s then 1 else 0) + if b in s then 1 else 0
  {
    assert s - {a, b} == (s - {a}) - {b};
  }

  /** One input: what was in flight plus what is newly accepted is what remains in flight, what has
      ended with an event, and what was discarded. */
  lemma HandleConserves(m: Machine, input: Input)
    requires Sound(m)
    ensures |Waiting(m)| + Ended(m.events) + Accepts(m, input)
         == |Waiting(Handle(m, input).0)| + Ended(Handle(m, input).0.events) + Drops(m, input)
  {
    hide Ended, Data, RemoteWriteClosed, Migrate, TickAll, RegisterInbound, RegisterOutbound, SendOne, Waiting;
    match input {
      case RegisterOutboundStream(peer, stream) => RegisterOutboundConserves(m, peer, stream);
      case RegisterInboundStream(peer, stream) => RegisterInboundConserves(m, peer, stream);
      case SendPing(peer, payload, nowMs) => SendConserves(m, peer, payload, nowMs);
      case CloseOutboundStreamWrite(_) => WaitingDependsOnPeers(m, CloseOutboundWrite(m, input.peer).0);
      case StreamData(peer, stream, data, nowMs) => DataConserves(m, peer, stream, data, nowMs);
      case StreamRemoteWriteClosed(peer, stream) => RemoteWriteClosedConserves(m, peer, stream);
      case StreamClosed(peer, stream) => ClosedConserves(m, peer, stream);
      case RemovePeer(peer) => RemoveConserves(m, peer);
      case MigratePeer(from, to) => MigrateConserves(m, from, to);
      case Tick(nowMs, order) => TickConserves(m, nowMs, order);
    }
  }

  lemma WaitingDependsOnPeers(m: Machine, n: Machine)
    requires m.peers == n.peers
    ensures Waiting(m) == Waiting(n)
  {
  }

  /** Changing anything but the pending ping leaves the waiting set alone. */
  lemma WaitingKept(m: Machine, peer: PeerId, state: PeerState)
    requires state.pending == Peer(m, peer).pending
    ensures Waiting(Put(m, peer, state)) == Waiting(m)
  {
    WaitingPut(m, peer, state);
    assert state.pending.Some? <==> peer in Waiting(m);
  }

  lemma RegisterOutboundConserves(m: Machine, peer: PeerId, stream: StreamId)
    ensures |Waiting(m)| + Ended(m.events)
         == |Waiting(RegisterOutbound(m, peer, stream).0)| + Ended(RegisterOutbound(m, peer, stream).0.events)
  {
    hide Ended, Waiting;
    var state := Peer(m, peer).(outbound := Some(stream));
    var n := Put(m, peer, state);
    WaitingKept(m, peer, state);
    EndedEmit(n, OutboundStreamRegistered(peer, stream));
    WaitingDependsOnPeers(n, Emit(n, OutboundStreamRegistered(peer, stream)));
  }

  lemma RegisterInboundConserves(m: Machine, peer: PeerId, stream: StreamId)
    ensures |Waiting(m)| + Ended(m.events)
         == |Waiting(RegisterInbound(m, peer, stream))| + Ended(RegisterInbound(m, peer, stream).events)
  {
    hide Ended, Waiting;
    var state := Peer(m, peer);
    var more := state.(inbound := state.inbound + {stream});
    WaitingKept(m, peer, state);
    WaitingKept(m, peer, more);
    var (n, k) := (Put(m, peer, state), Put(m, peer, more));
    EndedEmit(n, StreamLimitExceeded(peer, stream));
    EndedEmit(k, InboundStreamAccepted(peer, stream));
    var r := RegisterInbound(m, peer, stream);
    WaitingDependsOnPeers(if r.peers == n.peers then n else k, r);
  }

  lemma SendConserves(m: Machine, peer: PeerId, payload: Blob, nowMs: u64)
    requires Sound(m)
    ensures |Waiting(m)| + (if SendOne(m, peer, payload, nowMs).1.None? then 1 else 0)
         == |Waiting(SendOne(m, peer, payload, nowMs).0)|
    ensures SendOne(m, peer, payload, nowMs).0.events == m.events
  {
    WaitingPut(m, peer, Peer(m, peer).(pending := Some(PendingPing(payload, nowMs))));
    assert Peer(m, peer).pending.Some? <==> peer in Waiting(m);
  }

  lemma ClosedConserves(m: Machine, peer: PeerId, stream: StreamId)
    ensures |Waiting(m)| == |Waiting(Closed(m, peer, stream))| + Drops(m, StreamClosed(peer, stream))
    ensures Closed(m, peer, stream).events == m.events
  {
    if peer in m.peers {
      WaitingPut(m, peer, Closed(m, peer, stream).peers[peer]);
      assert m.peers[peer].pending.Some? <==> peer in Waiting(m);
    }
  }

  lemma RemoveConserves(m: Machine, peer: PeerId)
    ensures |Waiting(m)| == |Waiting(Remove(m, peer))| + Drops(m, RemovePeer(peer))
  {
    assert Waiting(Remove(m, peer)) == Waiting(m) - {peer};
  }

  /** A run interleaves inputs and polls; the host keeps every event it has been handed. */
  datatype Op = Feed(input: Input) | PollOnce

  datatype World = World(machine: Machine, heard: seq<Event>)

  function Step(w: World, op: Op): World {
    match op
    case Feed(input) => w.(machine := Handle(w.machine, input).0)
    case PollOnce =>
      var (m, output) := Poll(w.machine);
      World(m, if output.Some? && output.value.Tell? then w.heard + [output.value.event] else w.heard)
  }

  function Run(w: World, ops: seq<Op>): World
    decreases |ops|
  {
    if ops == [] then w else Run(Step(w, ops[0]), ops[1..])
  }

  function AcceptedIn(w: World, ops: seq<Op>): nat
    decreases |ops|
  {
    if ops == [] then 0
    else (if ops[0].Feed? then Accepts(w.machine, ops[0].input) else 0) + AcceptedIn(Step(w, ops[0]), ops[1..])
  }

  function DroppedIn(w: World, ops: seq<Op>): nat
    decreases |ops|
  {
    if ops == [] then 0
    else (if ops[0].Feed? then Drops(w.machine, ops[0].input) else 0) + DroppedIn(Step(w, ops[0]), ops[1..])
  }

  /** Every event of the run so far, handed out or still queued. */
  function History(w: World): seq<Event> {
    w.heard + w.machine.events
  }

  lemma StepConserves(w: World, op: Op)
    requires Sound(w.machine)
    ensures Sound(Step(w, op).machine)
    ensures |Waiting(w.machine)| + Ended(History(w)) + (if op.Feed? then Accepts(w.machine, op.input) else 0)
         == |Waiting(Step(w, op).machine)| + Ended(History(Step(w, op)))
            + if op.Feed? then Drops(w.machine, op.input) else 0
  {
    hide Ended, Handle, Accepts, Drops;
    EndedAppend(w.heard, w.machine.events);
    match op {
      case Feed(input) =>
        HandleSound(w.machine, input);
        HandleConserves(w.machine, input);
        EndedAppend(w.heard, Handle(w.machine, input).0.events);
      case PollOnce =>
        var m := w.machine;
        assert Waiting(Poll(m).0) == Waiting(m);
        if m.actions == [] && m.events != [] {
          assert w.heard + [m.events[0]] + m.events[1..] == w.heard + m.events;
        }
    }
  }

  lemma {:induction false} RunConserves(w: World, ops: seq<Op>)
    requires Sound(w.machine)
    ensures Sound(Run(w, ops).machine)
    ensures |Waiting(w.machine)| + Ended(History(w)) + AcceptedIn(w, ops)
         == |Waiting(Run(w, ops).machine)| + Ended(History(Run(w, ops))) + DroppedIn(w, ops)
    decreases |ops|
  {
    hide Ended, Step, Accepts, Drops, Waiting;
    if ops != [] {
      StepConserves(w, ops[0]);
      RunConserves(Step(w, ops[0]), ops[1..]);
    }
  }

  /** Ping conservation: over every run from a new machine the accepted pings are exactly those
      measured, timed out, mismatched, cut off, discarded or still in flight; and each ping in
      flight has an outbound stream, no peer has more than two inbound streams, and every receive
      buffer is a proper fragment on a registered stream. */
  lemma Conservation(timeoutMs: u64, ops: seq<Op>)
    ensures var start := World(New(timeoutMs), []);
            var end := Run(start, ops);
            && Sound(end.machine)
            && AcceptedIn(start, ops) == Count(History(end), Measured) + Count(History(end), TimedOut)
                 + Count(History(end), Mismatched) + Count(History(end), CutOff)
                 + DroppedIn(start, ops) + |Waiting(end.machine)|
  {
    hide Run, AcceptedIn, DroppedIn, Count, Sound;
    assert Sound(New(timeoutMs)) by { NewSound(timeoutMs); }
    var start := World(New(timeoutMs), []);
    RunConserves(start, ops);
    assert Waiting(start.machine) == {};
    assert History(start) == [];
    NothingEnded();
  }

  lemma NewSound(timeoutMs: u64)
    ensures Sound(New(timeoutMs))
  {
  }

  lemma NothingEnded()
    ensures Ended([]) == 0
  {
  }

  // ----------------------------------------------------------------- fragmentation

  /** A piece of data and the clock when it arrived. */
  datatype Chunk = Chunk(data: Blob, nowMs: u64)

  function FeedAll(m: Machine, peer: PeerId, stream: StreamId, chunks: seq<Chunk>): Machine
    decreases |chunks|
  {
    if chunks == [] then m
    else FeedAll(Data(m, peer, stream, chunks[0].data, chunks[0].nowMs), peer, stream, chunks[1..])
  }

  function Contents(chunks: seq<Chunk>): Blob {
    if chunks == [] then [] else chunks[0].data + Contents(chunks[1..])
  }

  /** For every byte the clock when it arrived. */
  function Clocks(chunks: seq<Chunk>): (r: seq<u64>)
    ensures |r| == |Contents(chunks)|
  {
    if chunks == [] then [] else seq(|chunks[0].data|, _ => chunks[0].nowMs) + Clocks(chunks[1..])
  }

  /** Bytes that wait in a buffer do not complete a payload, so their clocks play no part. */
  function Earlier(n: nat): (r: seq<u64>)
    ensures |r| == n
  {
    seq(n, _ => 0)
  }

  /** What a complete payload leads to: on our own stream a measurement or a violation, on the
      remote's an echo. */
  function Reaction(state: PeerState, peer: PeerId, stream: StreamId, payload: Blob, nowMs: u64)
    : (seq<Event>, seq<Action>)
  {
    if state.outbound != Some(stream) then ([], [Send(peer, stream, payload)])
    else if state.pending.None? then ([ProtocolViolation(peer, stream, NoRequest)], [ResetStream(peer, stream)])
    else if state.pending.value.payload != payload then
      ([ProtocolViolation(peer, stream, PayloadMismatch)], [ResetStream(peer, stream)])
    else
      var sentAtMs := state.pending.value.sentAtMs;
      ([RttMeasured(peer, stream, if nowMs > sentAtMs then nowMs - sentAtMs else 0)], [])
  }

  /** No chunk takes the bytes received for a payload past its end. */
  predicate Aligned(fill: nat, chunks: seq<Chunk>)
    decreases |chunks|
  {
    chunks == [] || (fill + |chunks[0].data| <= PAYLOAD_LEN
                     && Aligned((fill + |chunks[0].data|) % PAYLOAD_LEN, chunks[1..]))
  }

  /** A peer's state once a complete payload has been reacted to. */
  function Settled(state: PeerState, stream: StreamId): PeerState {
    if state.outbound == Some(stream) then state.(pending := None) else state
  }

  /** What the payloads in some bytes lead to, one after the other, each at the clock of its last byte;
      bytes that fill none lead to nothing. */
  function Reactions(state: PeerState, peer: PeerId, stream: StreamId, bytes: Blob, clocks: seq<u64>)
    : (seq<Event>, seq<Action>)
    requires |clocks| == |bytes|
    decreases |bytes|
  {
    if |bytes| < PAYLOAD_LEN then ([], [])
    else
      var (told, done) := Reaction(state, peer, stream, bytes[..PAYLOAD_LEN], clocks[PAYLOAD_LEN - 1]);
      var (later, rest) :=
        Reactions(Settled(state, stream), peer, stream, bytes[PAYLOAD_LEN..], clocks[PAYLOAD_LEN..]);
      (told + later, done + rest)
  }

  /** What chunks lead to behind the bytes already buffered. */
  function Due(state: PeerState, peer: PeerId, stream: StreamId, chunks: seq<Chunk>): (seq<Event>, seq<Action>) {
    var buf := Buffered(state, stream);
    Reactions(state, peer, stream, buf + Contents(chunks), Earlier(|buf|) + Clocks(chunks))
  }

  /** The echoes of the payloads in some bytes. */
  function Echoes(peer: PeerId, stream: StreamId, bytes: Blob): seq<Action>
    decreases |bytes|
  {
    if |bytes| < PAYLOAD_LEN then []
    else [Send(peer, stream, bytes[..PAYLOAD_LEN])] + Echoes(peer, stream, bytes[PAYLOAD_LEN..])
  }

  /** The part of a peer's state that reactions on a stream depend on. */
  predicate SameFor(a: PeerState, b: PeerState, stream: StreamId) {
    a.outbound == b.outbound && (a.outbound == Some(stream) ==> a.pending == b.pending)
  }

  lemma {:induction false} ReactionsSame(a: PeerState, b: PeerState, peer: PeerId, stream: StreamId, bytes: Blob,
                                         clocks: seq<u64>)
    requires SameFor(a, b, stream) && |clocks| == |bytes|
    ensures Reactions(a, peer, stream, bytes, clocks) == Reactions(b, peer, stream, bytes, clocks)
    decreases |bytes|
  {
    if |bytes| >= PAYLOAD_LEN {
      ReactionsSame(Settled(a, stream), Settled(b, stream), peer, stream, bytes[PAYLOAD_LEN..], clocks[PAYLOAD_LEN..]);
    }
  }

  /** The clocks of bytes that come before the last one of a payload play no part. */
  lemma ClocksBefore(state: PeerState, peer: PeerId, stream: StreamId, bytes: Blob, a: seq<u64>, b: seq<u64>, n: nat)
    requires |a| == |b| == |bytes| && n < PAYLOAD_LEN && n <= |bytes| && a[n..] == b[n..]
    ensures Reactions(state, peer, stream, bytes, a) == Reactions(state, peer, stream, bytes, b)
  {
    hide Reaction;
    if |bytes| >= PAYLOAD_LEN {
      var k := PAYLOAD_LEN - 1;
      assert a[n..][k - n] == a[k] && b[n..][k - n] == b[k];
      assert a[k + 1..] == a[n..][k + 1 - n..] && b[k + 1..] == b[n..][k + 1 - n..];
    }
  }

  lemma ReactionsFirst(state: PeerState, peer: PeerId, stream: StreamId, bytes: Blob, clocks: seq<u64>)
    requires |clocks| == |bytes|
    ensures |bytes| < PAYLOAD_LEN ==> Reactions(state, peer, stream, bytes, clocks) == ([], [])
    ensures |bytes| >= PAYLOAD_LEN ==>
              var first := Reaction(state, peer, stream, bytes[..PAYLOAD_LEN], clocks[PAYLOAD_LEN - 1]);
              var rest :=
                Reactions(Settled(state, stream), peer, stream, bytes[PAYLOAD_LEN..], clocks[PAYLOAD_LEN..]);
              Reactions(state, peer, stream, bytes, clocks) == (first.0 + rest.0, first.1 + rest.1)
  {
    hide Reaction;
  }

  /** One chunk within a payload: it is kept, or completes the payload and is reacted to. */
  lemma AlignedStep(m: Machine, peer: PeerId, stream: StreamId, data: Blob, nowMs: u64)
    requires Known(Peer(m, peer), stream) && |Buffered(Peer(m, peer), stream) + data| <= PAYLOAD_LEN
    ensures var n, state := Data(m, peer, stream, data, nowMs), Peer(m, peer);
            var buf := Buffered(state, stream) + data;
            var kept := |buf| < PAYLOAD_LEN;
            var (told, done) := if kept then ([], []) else Reaction(state, peer, stream, buf, nowMs);
            && n.events == m.events + told && n.actions == m.actions + done && Known(Peer(n, peer), stream)
            && Buffered(Peer(n, peer), stream) == (if kept then buf else [])
            && SameFor(Peer(n, peer), if kept then state else Settled(state, stream), stream)
  {
  }

  /** A kept chunk changes nothing about what is due. */
  lemma DueKept(state: PeerState, next: PeerState, peer: PeerId, stream: StreamId, chunks: seq<Chunk>)
    requires chunks != [] && |Buffered(state, stream) + chunks[0].data| < PAYLOAD_LEN
    requires Buffered(next, stream) == Buffered(state, stream) + chunks[0].data && SameFor(next, state, stream)
    ensures Due(next, peer, stream, chunks[1..]) == Due(state, peer, stream, chunks)
  {
    hide Reactions, SameFor, Buffered;
    var buf, now, rest := Buffered(state, stream), chunks[0].data, chunks[1..];
    var bytes := buf + Contents(chunks);
    assert bytes == (buf + now) + Contents(rest);
    var stamped := seq(|now|, _ => chunks[0].nowMs);
    var a, b := Earlier(|buf|) + Clocks(chunks), Earlier(|buf + now|) + Clocks(rest);
    assert a == (Earlier(|buf|) + stamped) + Clocks(rest);
    assert a[|buf + now|..] == Clocks(rest) == b[|buf + now|..];
    ClocksBefore(state, peer, stream, bytes, a, b, |buf + now|);
    ReactionsSame(next, state, peer, stream, bytes, b);
  }

  /** A completing chunk makes its payload due, at its own clock. */
  lemma DueDone(state: PeerState, next: PeerState, peer: PeerId, stream: StreamId, chunks: seq<Chunk>)
    requires chunks != [] && |Buffered(state, stream)| < |Buffered(state, stream) + chunks[0].data| == PAYLOAD_LEN
    requires Buffered(next, stream) == [] && SameFor(next, Settled(state, stream), stream)
    ensures var first := Reaction(state, peer, stream, Buffered(state, stream) + chunks[0].data, chunks[0].nowMs);
            var rest := Due(next, peer, stream, chunks[1..]);
            Due(state, peer, stream, chunks) == (first.0 + rest.0, first.1 + rest.1)
  {
    hide Reactions, Reaction, SameFor, Buffered, Settled;
    var buf, now, rest := Buffered(state, stream), chunks[0].data, chunks[1..];
    var bytes, clocks := buf + Contents(chunks), Earlier(|buf|) + Clocks(chunks);
    var stamped := seq(|now|, _ => chunks[0].nowMs);
    assert bytes == (buf + now) + Contents(rest);
    assert clocks == (Earlier(|buf|) + stamped) + Clocks(rest);
    assert clocks[PAYLOAD_LEN - 1] == stamped[PAYLOAD_LEN - 1 - |buf|] == chunks[0].nowMs;
    assert bytes[..PAYLOAD_LEN] == buf + now && bytes[PAYLOAD_LEN..] == Contents(rest);
    assert clocks[PAYLOAD_LEN..] == Clocks(rest);
    ReactionsFirst(state, peer, stream, bytes, clocks);
    assert [] + Contents(rest) == Contents(rest) && Earlier(0) + Clocks(rest) == Clocks(rest);
    ReactionsSame(next, Settled(state, stream), peer, stream, Contents(rest), Clocks(rest));
  }

  lemma DueNothing(state: PeerState, peer: PeerId, stream: StreamId)
    requires |Buffered(state, stream)| < PAYLOAD_LEN
    ensures Due(state, peer, stream, []) == ([], [])
  {
  }

  /** The machine has told and done what was due. */
  predicate Reacted(m: Machine, n: Machine, due: (seq<Event>, seq<Action>)) {
    n.events == m.events + due.0 && n.actions == m.actions + due.1
  }

  /** Chunks that respect the payloads lead to the reactions to those payloads. */
  lemma {:induction false} AlignedReacts(m: Machine, peer: PeerId, stream: StreamId, chunks: seq<Chunk>)
    requires Known(Peer(m, peer), stream) && |Buffered(Peer(m, peer), stream)| < PAYLOAD_LEN
    requires Aligned(|Buffered(Peer(m, peer), stream)|, chunks)
    ensures Reacted(m, FeedAll(m, peer, stream, chunks), Due(Peer(m, peer), peer, stream, chunks))
    decreases |chunks|
  {
    hide Reaction, Known, Data, Buffered, Peer, SameFor, Settled, Due;
    var state, buf := Peer(m, peer), Buffered(Peer(m, peer), stream);
    if chunks == [] {
      DueNothing(state, peer, stream);
    } else {
      var now, rest := chunks[0], chunks[1..];
      var n := Data(m, peer, stream, now.data, now.nowMs);
      AlignedStep(m, peer, stream, now.data, now.nowMs);
      AlignedReacts(n, peer, stream, rest);
      if |buf + now.data| < PAYLOAD_LEN {
        DueKept(state, Peer(n, peer), peer, stream, chunks);
      } else {
        DueDone(state, Peer(n, peer), peer, stream, chunks);
        AppendTwice(m, n, FeedAll(n, peer, stream, rest),
                    Reaction(state, peer, stream, buf + now.data, now.nowMs), Due(Peer(n, peer), peer, stream, rest));
      }
    }
  }

  lemma AppendTwice(a: Machine, b: Machine, c: Machine, first: (seq<Event>, seq<Action>),
                    second: (seq<Event>, seq<Action>))
    requires Reacted(a, b, first) && Reacted(b, c, second)
    ensures Reacted(a, c, (first.0 + second.0, first.1 + second.1))
  {
  }

  lemma {:induction false} OnePayloadAligned(fill: nat, chunks: seq<Chunk>)
    requires fill + |Contents(chunks)| <= PAYLOAD_LEN
    ensures Aligned(fill % PAYLOAD_LEN, chunks)
    decreases |chunks|
  {
    if chunks != [] {
      OnePayloadAligned(fill + |chunks[0].data|, chunks[1..]);
    }
  }

  /** However a payload is cut into chunks and whenever these arrive, it leads to one reaction, at the
      clock of the chunk that completes it, and to nothing before. */
  lemma FragmentsAddUp(m: Machine, peer: PeerId, stream: StreamId, chunks: seq<Chunk>)
    requires Known(Peer(m, peer), stream) && |Buffered(Peer(m, peer), stream)| < PAYLOAD_LEN
    requires |Buffered(Peer(m, peer), stream) + Contents(chunks)| <= PAYLOAD_LEN
    ensures var n, buf := FeedAll(m, peer, stream, chunks), Buffered(Peer(m, peer), stream);
            var payload := buf + Contents(chunks);
            if |payload| < PAYLOAD_LEN then n.events == m.events && n.actions == m.actions
            else
              Reacted(m, n, Reaction(Peer(m, peer), peer, stream, payload, Clocks(chunks)[PAYLOAD_LEN - 1 - |buf|]))
  {
    hide Reaction, Known, FeedAll, Reactions, Buffered, Peer, Settled;
    var state, buf := Peer(m, peer), Buffered(Peer(m, peer), stream);
    OnePayloadAligned(|buf|, chunks);
    AlignedReacts(m, peer, stream, chunks);
    var payload, clocks := buf + Contents(chunks), Earlier(|buf|) + Clocks(chunks);
    ReactionsFirst(state, peer, stream, payload, clocks);
    if |payload| == PAYLOAD_LEN {
      assert payload[..PAYLOAD_LEN] == payload && payload[PAYLOAD_LEN..] == [];
      ReactionsFirst(Settled(state, stream), peer, stream, payload[PAYLOAD_LEN..], clocks[PAYLOAD_LEN..]);
      assert clocks[PAYLOAD_LEN - 1] == Clocks(chunks)[PAYLOAD_LEN - 1 - |buf|];
      var first := Reaction(state, peer, stream, payload, clocks[PAYLOAD_LEN - 1]);
      assert first.0 + [] == first.0 && first.1 + [] == first.1;
    }
  }

  predicate TooLong(event: Event) {
    event.ProtocolViolation? && event.why.BufferTooLong?
  }

  lemma {:induction false} ReactionsNeverTooLong(state: PeerState, peer: PeerId, stream: StreamId, bytes: Blob,
                                                 clocks: seq<u64>)
    requires |clocks| == |bytes|
    ensures forall e :: e in Reactions(state, peer, stream, bytes, clocks).0 ==> !TooLong(e)
    decreases |bytes|
  {
    if |bytes| >= PAYLOAD_LEN {
      ReactionsNeverTooLong(Settled(state, stream), peer, stream, bytes[PAYLOAD_LEN..], clocks[PAYLOAD_LEN..]);
    }
  }

  lemma DataAppends(m: Machine, peer: PeerId, stream: StreamId, data: Blob, nowMs: u64)
    ensures m.events <= Data(m, peer, stream, data, nowMs).events
    ensures m.actions <= Data(m, peer, stream, data, nowMs).actions
  {
  }

  lemma {:induction false} FeedAppends(m: Machine, peer: PeerId, stream: StreamId, chunks: seq<Chunk>)
    ensures m.events <= FeedAll(m, peer, stream, chunks).events
    ensures m.actions <= FeedAll(m, peer, stream, chunks).actions
    decreases |chunks|
  {
    hide Data;
    if chunks != [] {
      DataAppends(m, peer, stream, chunks[0].data, chunks[0].nowMs);
      FeedAppends(Data(m, peer, stream, chunks[0].data, chunks[0].nowMs), peer, stream, chunks[1..]);
    }
  }

  lemma OverlongStep(m: Machine, peer: PeerId, stream: StreamId, data: Blob, nowMs: u64)
    requires Known(Peer(m, peer), stream) && |Buffered(Peer(m, peer), stream) + data| > PAYLOAD_LEN
    ensures var n := Data(m, peer, stream, data, nowMs);
            Reacted(m, n, ([ProtocolViolation(peer, stream, BufferTooLong)], [ResetStream(peer, stream)]))
  {
  }

  /** Among what was added there is the report of an overlong buffer and the reset of its stream. */
  ghost predicate Overlong(m: Machine, n: Machine) {
    && (exists i :: |m.events| <= i < |n.events| && TooLong(n.events[i]))
    && (exists i :: |m.actions| <= i < |n.actions| && n.actions[i].ResetStream?)
  }

  lemma OverlongKept(m: Machine, n: Machine, end: Machine)
    requires n.events <= end.events && n.actions <= end.actions && Overlong(m, n)
    ensures Overlong(m, end)
  {
    var i :| |m.events| <= i < |n.events| && TooLong(n.events[i]);
    var j :| |m.actions| <= j < |n.actions| && n.actions[j].ResetStream?;
    assert TooLong(end.events[i]) && end.actions[j].ResetStream?;
  }

  lemma OverlongLater(m: Machine, n: Machine, end: Machine)
    requires m.events <= n.events && m.actions <= n.actions && Overlong(n, end)
    ensures Overlong(m, end)
  {
  }

  /** A chunk that crosses the end of a payload is reported, and its stream reset. */
  lemma {:induction false} MisalignedReports(m: Machine, peer: PeerId, stream: StreamId, chunks: seq<Chunk>)
    requires Known(Peer(m, peer), stream) && |Buffered(Peer(m, peer), stream)| < PAYLOAD_LEN
    requires !Aligned(|Buffered(Peer(m, peer), stream)|, chunks)
    ensures Overlong(m, FeedAll(m, peer, stream, chunks))
    decreases |chunks|
  {
    hide Reaction, Known, Data, Peer, Buffered, SameFor, Overlong;
    var buf, now, rest := Buffered(Peer(m, peer), stream), chunks[0], chunks[1..];
    var n := Data(m, peer, stream, now.data, now.nowMs);
    if |buf + now.data| > PAYLOAD_LEN {
      OverlongStep(m, peer, stream, now.data, now.nowMs);
      OverlongNow(m, n, peer, stream);
      FeedAppends(n, peer, stream, rest);
      OverlongKept(m, n, FeedAll(n, peer, stream, rest));
    } else {
      AlignedStep(m, peer, stream, now.data, now.nowMs);
      DataAppends(m, peer, stream, now.data, now.nowMs);
      MisalignedReports(n, peer, stream, rest);
      OverlongLater(m, n, FeedAll(n, peer, stream, rest));
    }
  }

  lemma OverlongNow(m: Machine, n: Machine, peer: PeerId, stream: StreamId)
    requires Reacted(m, n, ([ProtocolViolation(peer, stream, BufferTooLong)], [ResetStream(peer, stream)]))
    ensures Overlong(m, n)
  {
    assert TooLong(n.events[|m.events|]) && n.actions[|m.actions|].ResetStream?;
  }

  /** Chunking matters exactly when it cuts across payloads: over every chunking of any number of
      payloads, whenever the chunks arrive, on our own stream and on the remote's, the machine tells and
      does what those payloads lead to if and only if no chunk crosses the end of a payload. */
  lemma ChunkingIff(m: Machine, peer: PeerId, stream: StreamId, chunks: seq<Chunk>)
    requires Known(Peer(m, peer), stream) && |Buffered(Peer(m, peer), stream)| < PAYLOAD_LEN
    ensures Reacted(m, FeedAll(m, peer, stream, chunks), Due(Peer(m, peer), peer, stream, chunks))
            <==> Aligned(|Buffered(Peer(m, peer), stream)|, chunks)
  {
    hide FeedAll, Reactions, Known, Peer, Buffered;
    var state := Peer(m, peer);
    var buf := Buffered(state, stream);
    if Aligned(|buf|, chunks) {
      AlignedReacts(m, peer, stream, chunks);
    } else {
      MisalignedReports(m, peer, stream, chunks);
      ReactionsNeverTooLong(state, peer, stream, buf + Contents(chunks), Earlier(|buf|) + Clocks(chunks));
      var n, told := FeedAll(m, peer, stream, chunks), Due(state, peer, stream, chunks).0;
      var i :| |m.events| <= i < |n.events| && TooLong(n.events[i]);
      var all := m.events + told;
      if i < |all| {
        assert all[i] == told[i - |m.events|] && all[i] in told;
      }
    }
  }

  lemma {:induction false} ReactionsEcho(state: PeerState, peer: PeerId, stream: StreamId, bytes: Blob,
                                         clocks: seq<u64>)
    requires state.outbound != Some(stream) && |clocks| == |bytes|
    ensures Reactions(state, peer, stream, bytes, clocks) == ([], Echoes(peer, stream, bytes))
    decreases |bytes|
  {
    if |bytes| >= PAYLOAD_LEN {
      assert Settled(state, stream) == state;
      ReactionsEcho(state, peer, stream, bytes[PAYLOAD_LEN..], clocks[PAYLOAD_LEN..]);
      var none: seq<Event> := [];
      assert none + none == none;
    }
  }

  lemma {:induction false} EchoesSend(peer: PeerId, stream: StreamId, bytes: Blob)
    ensures forall a :: a in Echoes(peer, stream, bytes) ==> a.Send?
    decreases |bytes|
  {
    if |bytes| >= PAYLOAD_LEN {
      EchoesSend(peer, stream, bytes[PAYLOAD_LEN..]);
    }
  }

  /** On the remote's stream: every payload is echoed, and nothing else happens, if and only if no
      chunk crosses the end of a payload. */
  lemma EchoIff(m: Machine, peer: PeerId, stream: StreamId, chunks: seq<Chunk>)
    requires stream in Peer(m, peer).inbound && Peer(m, peer).outbound != Some(stream)
    requires |Buffered(Peer(m, peer), stream)| < PAYLOAD_LEN
    ensures FeedAll(m, peer, stream, chunks).actions
              == m.actions + Echoes(peer, stream, Buffered(Peer(m, peer), stream) + Contents(chunks))
            <==> Aligned(|Buffered(Peer(m, peer), stream)|, chunks)
  {
    hide FeedAll, Reactions, Echoes;
    var buf := Buffered(Peer(m, peer), stream);
    var bytes := buf + Contents(chunks);
    ReactionsEcho(Peer(m, peer), peer, stream, bytes, Earlier(|buf|) + Clocks(chunks));
    if Aligned(|buf|, chunks) {
      AlignedReacts(m, peer, stream, chunks);
    } else {
      MisalignedReports(m, peer, stream, chunks);
      EchoesSend(peer, stream, bytes);
      var n := FeedAll(m, peer, stream, chunks);
      var i :| |m.actions| <= i < |n.actions| && n.actions[i].ResetStream?;
      var all := m.actions + Echoes(peer, stream, bytes);
      if i < |all| {
        assert all[i] == Echoes(peer, stream, bytes)[i - |m.actions|] && all[i] in Echoes(peer, stream, bytes);
      }
    }
  }

  // ------------------------------------------------------------------------ timeouts

  lemma ExpireOthers(m: Machine, peer: PeerId, nowMs: u64)
    ensures var n := Expire(m, peer, nowMs);
            && !Expired(n, peer, nowMs) && n.timeoutMs == m.timeoutMs && n.peers.Keys == m.peers.Keys
            && forall p :: Expired(n, p, nowMs) ==> Expired(m, p, nowMs)
  {
  }

  lemma {:induction false} TickExpires(m: Machine, nowMs: u64, order: seq<PeerId>)
    ensures forall p :: Expired(TickAll(m, nowMs, order), p, nowMs) ==> Expired(m, p, nowMs) && p !in order
    decreases |order|
  {
    hide Expire, Expired;
    if order != [] {
      ExpireOthers(m, order[0], nowMs);
      TickExpires(Expire(m, order[0], nowMs), nowMs, order[1..]);
      assert forall p :: p in order ==> p == order[0] || p in order[1..];
    }
  }

  /** No ping has been waiting for longer than the limit. */
  predicate InTime(m: Machine, nowMs: u64) {
    forall p :: p in m.peers && m.peers[p].outbound.Some? && m.peers[p].pending.Some? ==>
      nowMs <= m.peers[p].pending.value.sentAtMs + m.timeoutMs
  }

  /** A walk over the whole peer table leaves no ping overdue. */
  lemma TickExpiresAll(m: Machine, nowMs: u64, order: seq<PeerId>)
    requires forall p :: p in m.peers ==> p in order
    ensures InTime(TickAll(m, nowMs, order), nowMs)
  {
    hide TickAll;
    TickExpires(m, nowMs, order);
    var n := TickAll(m, nowMs, order);
    assert forall p :: Expired(m, p, nowMs) ==> p in m.peers;
    forall p | p in n.peers && n.peers[p].outbound.Some? && n.peers[p].pending.Some?
      ensures nowMs <= n.peers[p].pending.value.sentAtMs + n.timeoutMs
    {
      assert !Expired(n, p, nowMs);
    }
  }

  // -------------------------------------------------------------- imperative form

  /** The stateful machine. */
  class PingProtocol {
    var peers: map<PeerId, PeerState>
    var pendingEvents: seq<Event>
    var pendingActions: seq<Action>
    const requestTimeoutMs: u64

    ghost function View(): Machine
      reads this
    {
      Machine(peers, pendingEvents, pendingActions, requestTimeoutMs)
    }

    constructor (timeoutMs: u64)
      ensures View() == New(timeoutMs)
    {
      peers, pendingEvents, pendingActions, requestTimeoutMs := map[], [], [], timeoutMs;
    }

    method Entry(peer: PeerId) returns (state: PeerState)
      modifies this
      ensures state == Peer(old(View()), peer) && View() == Put(old(View()), peer, state)
    {
      if peer !in peers {
        peers := peers[peer := FRESH_PEER];
      }
      state := peers[peer];
    }

    method Violation(peer: PeerId, stream: StreamId, why: Violation) returns (actions: seq<Action>)
      modifies this
      ensures actions == [ResetStream(peer, stream)]
      ensures View() == Emit(old(View()), ProtocolViolation(peer, stream, why))
    {
      pendingEvents := pendingEvents + [ProtocolViolation(peer, stream, why)];
      return [ResetStream(peer, stream)];
    }

    method OnStreamData(peer: PeerId, stream: StreamId, data: Blob, nowMs: u64) returns (actions: seq<Action>)
      modifies this
      ensures View().(actions := old(pendingActions) + actions) == Data(old(View()), peer, stream, data, nowMs)
      ensures pendingActions == old(pendingActions)
    {
      if peer !in peers || !Known(peers[peer], stream) {
        actions := Violation(peer, stream, UnknownStream);
        return;
      }
      var state := peers[peer];
      var buf := Buffered(state, stream) + data;
      if |buf| > PAYLOAD_LEN {
        peers := peers[peer := state.(recvBufs := state.recvBufs - {stream})];
        actions := Violation(peer, stream, BufferTooLong);
        return;
      }
      if |buf| < PAYLOAD_LEN {
        peers := peers[peer := state.(recvBufs := state.recvBufs[stream := buf])];
        return [];
      }
      peers := peers[peer := state.(recvBufs := state.recvBufs - {stream})];
      actions := ProcessCompletePayload(peer, stream, buf, nowMs);
    }

    method ProcessCompletePayload(peer: PeerId, stream: StreamId, payload: Blob, nowMs: u64)
      returns (actions: seq<Action>)
      requires peer in peers
      modifies this
      ensures View().(actions := old(pendingActions) + actions)
           == CompletePayload(old(View()), peer, stream, payload, nowMs)
      ensures pendingActions == old(pendingActions)
    {
      var state := peers[peer];
      if state.outbound == Some(stream) {
        if state.pending.None? {
          actions := Violation(peer, stream, NoRequest);
          return;
        }
        peers := peers[peer := state.(pending := None)];
        if state.pending.value.payload != payload {
          actions := Violation(peer, stream, PayloadMismatch);
          return;
        }
        pendingEvents := pendingEvents
          + [RttMeasured(peer, stream, Elapsed(nowMs, state.pending.value.sentAtMs))];
        return [];
      }
      if stream in state.inbound {
        return [Send(peer, stream, payload)];
      }
      return [];
    }

    method OnTick(nowMs: u64, order: seq<PeerId>) returns (actions: seq<Action>)
      modifies this
      ensures View().(actions := old(pendingActions) + actions) == TickAll(old(View()), nowMs, order)
      ensures pendingActions == old(pendingActions)
      ensures (forall p :: p in old(peers) ==> p in order) ==> InTime(View(), nowMs)
    {
      if forall p :: p in peers ==> p in order {
        TickExpiresAll(View(), nowMs, order);
      }
      actions := [];
      var i := 0;
      assert order[0..] == order && pendingActions + [] == pendingActions;
      while i < |order|
        invariant 0 <= i <= |order|
        invariant pendingActions == old(pendingActions)
        invariant TickAll(View().(actions := pendingActions + actions), nowMs, order[i..])
               == TickAll(old(View()), nowMs, order)
      {
        var peer := order[i];
        assert order[i..][1..] == order[i + 1..];
        ghost var here := View().(actions := pendingActions + actions);
        assert TickAll(here, nowMs, order[i..]) == TickAll(Expire(here, peer, nowMs), nowMs, order[i + 1..]);
        if peer in peers && peers[peer].outbound.Some? && peers[peer].pending.Some? {
          var state := peers[peer];
          var stream := state.outbound.value;
          if Elapsed(nowMs, state.pending.value.sentAtMs) > requestTimeoutMs {
            peers := peers[peer := state.(pending := None, outbound := None, recvBufs := state.recvBufs - {stream})];
            pendingEvents := pendingEvents + [Timeout(peer, stream, requestTimeoutMs)];
            pendingEvents := pendingEvents + [OutboundStreamClosed(peer, stream)];
            assert pendingActions + (actions + [ResetStream(peer, stream)])
                == (pendingActions + actions) + [ResetStream(peer, stream)];
            actions := actions + [ResetStream(peer, stream)];
          }
        }
        assert View().(actions := pendingActions + actions) == Expire(here, peer, nowMs);
        i := i + 1;
      }
      assert InTime(View(), nowMs) == InTime(View().(actions := pendingActions + actions), nowMs);
    }

    method OnRemoteWriteClosed(peer: PeerId, stream: StreamId) returns (actions: seq<Action>)
      modifies this
      ensures View().(actions := old(pendingActions) + actions) == RemoteWriteClosed(old(View()), peer, stream)
      ensures pendingActions == old(pendingActions)
    {
      if peer !in peers {
        return [];
      }
      var state := peers[peer];
      if stream in state.inbound {
        peers := peers[peer := state.(inbound := state.inbound - {stream}, recvBufs := state.recvBufs - {stream})];
        return [];
      }
      if state.outbound == Some(stream) {
        peers := peers[peer := state.(pending := None, outbound := None, recvBufs := state.recvBufs - {stream})];
        if state.pending.Some? {
          actions := Violation(peer, stream, ClosedBeforeResponse);
          return;
        }
        pendingEvents := pendingEvents + [OutboundStreamClosed(peer, stream)];
      }
      return [];
    }

    method OnSendPing(peer: PeerId, payload: Blob, nowMs: u64) returns (error: Option<Error>)
      modifies this
      ensures (View(), error) == SendOne(old(View()), peer, payload, nowMs)
    {
      if |payload| != PAYLOAD_LEN {
        return Some(InvalidPayloadLength);
      }
      if peer !in peers || peers[peer].outbound.None? {
        return Some(OutboundStreamMissing);
      }
      var state := peers[peer];
      if state.pending.Some? {
        return Some(PingAlreadyInFlight);
      }
      peers := peers[peer := state.(pending := Some(PendingPing(payload, nowMs)))];
      pendingActions := pendingActions + [Send(peer, state.outbound.value, payload)];
      return None;
    }

    method OnRegisterInbound(peer: PeerId, stream: StreamId)
      modifies this
      ensures View() == RegisterInbound(old(View()), peer, stream)
    {
      var state := Entry(peer);
      if stream !in state.inbound {
        if |state.inbound| >= MAX_INBOUND {
          pendingEvents := pendingEvents + [StreamLimitExceeded(peer, stream)];
          pendingActions := pendingActions + [ResetStream(peer, stream)];
        } else {
          peers := peers[peer := state.(inbound := state.inbound + {stream})];
          assert peers == old(peers)[peer := state.(inbound := state.inbound + {stream})];
          pendingEvents := pendingEvents + [InboundStreamAccepted(peer, stream)];
        }
      }
    }

    /** `handle_input`: every input is the corresponding value-level step. */
    method HandleInput(input: Input) returns (error: Option<Error>)
      modifies this
      ensures (View(), error) == Handle(old(View()), input)
    {
      hide Data, RemoteWriteClosed, TickAll, Migrate, SendOne, RegisterInbound;
      match input {
        case RegisterOutboundStream(peer, stream) =>
          if peer in peers && peers[peer].outbound.Some? {
            return if peers[peer].outbound.value != stream then Some(OutboundStreamExists) else None;
          }
          var state := Entry(peer);
          peers := peers[peer := state.(outbound := Some(stream))];
          assert peers == old(peers)[peer := state.(outbound := Some(stream))];
          pendingEvents := pendingEvents + [OutboundStreamRegistered(peer, stream)];
        case RegisterInboundStream(peer, stream) =>
          OnRegisterInbound(peer, stream);
        case SendPing(peer, payload, nowMs) =>
          error := OnSendPing(peer, payload, nowMs);
          return;
        case CloseOutboundStreamWrite(peer) =>
          if peer !in peers || peers[peer].outbound.None? {
            return Some(OutboundStreamMissing);
          }
          if peers[peer].pending.Some? {
            return Some(PingAlreadyInFlight);
          }
          pendingActions := pendingActions + [CloseStreamWrite(peer, peers[peer].outbound.value)];
        case StreamData(peer, stream, data, nowMs) =>
          var actions := OnStreamData(peer, stream, data, nowMs);
          pendingActions := pendingActions + actions;
        case StreamRemoteWriteClosed(peer, stream) =>
          var actions := OnRemoteWriteClosed(peer, stream);
          pendingActions := pendingActions + actions;
        case StreamClosed(peer, stream) =>
          if peer in peers {
            var state := peers[peer];
            state := state.(inbound := state.inbound - {stream}, recvBufs := state.recvBufs - {stream});
            if state.outbound == Some(stream) {
              state := state.(outbound := None, pending := None);
            }
            peers := peers[peer := state];
          }
        case RemovePeer(peer) =>
          peers := peers - {peer};
        case MigratePeer(from, to) =>
          MigratePeerState(from, to);
        case Tick(nowMs, order) =>
          var actions := OnTick(nowMs, order);
          pendingActions := pendingActions + actions;
      }
      return None;
    }

    method MigratePeerState(from: PeerId, to: PeerId)
      modifies this
      ensures View() == Migrate(old(View()), from, to)
    {
      if from == to {
        return;
      }
      if from in peers {
        var state := peers[from];
        peers := peers - {from};
        peers := peers[to := state];
      }
      var i := 0;
      while i < |pendingEvents|
        invariant 0 <= i <= |pendingEvents| == |old(pendingEvents)|
        invariant forall j :: 0 <= j < |pendingEvents| ==>
                    pendingEvents[j] == if j < i then Rename(old(pendingEvents)[j], from, to) else old(pendingEvents)[j]
        invariant pendingActions == old(pendingActions)
        invariant peers == Migrate(old(View()), from, to).peers
      {
        if pendingEvents[i].peer == from {
          pendingEvents := pendingEvents[i := pendingEvents[i].(peer := to)];
        }
        i := i + 1;
      }
    }

    method PollOutput() returns (output: Option<Output>)
      modifies this
      ensures (View(), output) == Poll(old(View()))
    {
      if pendingActions != [] {
        output := Some(Act(pendingActions[0]));
        pendingActions := pendingActions[1..];
        return;
      }
      if pendingEvents == [] {
        return None;
      }
      output := Some(Tell(pendingEvents[0]));
      pendingEvents := pendingEvents[1..];
    }
  }
}

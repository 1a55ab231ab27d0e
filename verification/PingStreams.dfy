/** What the ping machine answers to the opening and closing of streams, to requests it refuses and to a
    change of identity (crates/ping/src/lib.rs:237-364, 473-564), told on the streams a peer has: who may
    have how many, what is reported, what is reset, and what stays as it was. */
module PingStreams {
  import opened Bytes
  import opened Ids
  import opened Ping

  /** Only this peer's state, and what is queued, may differ. */
  ghost predicate OnlyPeer(m: Machine, n: Machine, peer: PeerId) {
    n.timeoutMs == m.timeoutMs && forall p :: p != peer ==> Peer(n, p) == Peer(m, p)
  }

  /** These events and actions were queued, behind what was. */
  predicate Says(m: Machine, n: Machine, events: seq<Event>, actions: seq<Action>) {
    n.events == m.events + events && n.actions == m.actions + actions
  }

  predicate Unchanged(m: Machine, n: Machine, error: Option<Error>, why: Error) {
    n == m && error == Some(why)
  }

  /** A peer may have two inbound ping streams. A third is reported and reset, and leaves no trace; one
      that is known already is taken in silence. */
  lemma InboundLimit(m: Machine, peer: PeerId, stream: StreamId)
    ensures var (n, e) := Handle(m, RegisterInboundStream(peer, stream));
            var before, after := Peer(m, peer), Peer(n, peer);
            && e.None? && OnlyPeer(m, n, peer) && after == before.(inbound := after.inbound)
            && (forall s :: s in after.inbound <==> s in before.inbound || (s == stream && |before.inbound| < 2))
            && (if stream in before.inbound then Says(m, n, [], [])
                else if stream in after.inbound then Says(m, n, [InboundStreamAccepted(peer, stream)], [])
                else Says(m, n, [StreamLimitExceeded(peer, stream)], [ResetStream(peer, stream)]))
  {
  }

  /** A peer has one outbound ping stream. A second one is refused; the same one again changes nothing. */
  lemma OneOutbound(m: Machine, peer: PeerId, stream: StreamId)
    ensures var (n, e) := Handle(m, RegisterOutboundStream(peer, stream));
            var before, after := Peer(m, peer), Peer(n, peer);
            && OnlyPeer(m, n, peer)
            && (if before.outbound.None? then
                  && e.None? && after == before.(outbound := Some(stream))
                  && Says(m, n, [OutboundStreamRegistered(peer, stream)], [])
                else if before.outbound.value == stream then e.None? && n == m
                else Unchanged(m, n, e, OutboundStreamExists))
  {
  }

  /** A ping of 32 bytes is sent on the peer's stream unless one is in flight; every refusal says why and
      changes nothing. */
  lemma SendAnswered(m: Machine, peer: PeerId, payload: Blob, nowMs: u64)
    ensures var (n, e) := Handle(m, SendPing(peer, payload, nowMs));
            var before, after := Peer(m, peer), Peer(n, peer);
            if |payload| != 32 then Unchanged(m, n, e, InvalidPayloadLength)
            else if before.outbound.None? then Unchanged(m, n, e, OutboundStreamMissing)
            else if before.pending.Some? then Unchanged(m, n, e, PingAlreadyInFlight)
            else
              && e.None? && OnlyPeer(m, n, peer)
              && after == before.(pending := Some(PendingPing(payload, nowMs)))
              && Says(m, n, [], [Send(peer, before.outbound.value, payload)])
  {
  }

  /** The writing side of the peer's stream is closed unless a ping is in flight. */
  lemma CloseAnswered(m: Machine, peer: PeerId)
    ensures var (n, e) := Handle(m, CloseOutboundStreamWrite(peer));
            var before := Peer(m, peer);
            if before.outbound.None? then Unchanged(m, n, e, OutboundStreamMissing)
            else if before.pending.Some? then Unchanged(m, n, e, PingAlreadyInFlight)
            else
              && e.None? && n.peers == m.peers && n.timeoutMs == m.timeoutMs
              && Says(m, n, [], [CloseStreamWrite(peer, before.outbound.value)])
  {
  }

  /** Bytes on a stream nobody registered are a violation, whatever they are. */
  lemma StrangersReset(m: Machine, peer: PeerId, stream: StreamId, data: Blob, nowMs: u64)
    requires Peer(m, peer).outbound != Some(stream) && stream !in Peer(m, peer).inbound
    ensures var (n, e) := Handle(m, StreamData(peer, stream, data, nowMs));
            && e.None? && n.peers == m.peers && n.timeoutMs == m.timeoutMs
            && Says(m, n, [ProtocolViolation(peer, stream, UnknownStream)], [ResetStream(peer, stream)])
  {
  }

  /** The remote stops writing: an inbound stream is forgotten in silence, an outbound one is reported
      closed, and if a ping was in flight on it that is a violation. */
  lemma RemoteEnds(m: Machine, peer: PeerId, stream: StreamId)
    ensures var (n, e) := Handle(m, StreamRemoteWriteClosed(peer, stream));
            var before, after := Peer(m, peer), Peer(n, peer);
            && e.None? && OnlyPeer(m, n, peer)
            && (if stream in before.inbound then
                  && after == before.(inbound := before.inbound - {stream}, recvBufs := before.recvBufs - {stream})
                  && Says(m, n, [], [])
                else if before.outbound == Some(stream) then
                  && after == before.(outbound := None, pending := None, recvBufs := before.recvBufs - {stream})
                  && (if before.pending.Some?
                      then Says(m, n, [ProtocolViolation(peer, stream, ClosedBeforeResponse)],
                                [ResetStream(peer, stream)])
                      else Says(m, n, [OutboundStreamClosed(peer, stream)], []))
                else after == before && Says(m, n, [], []))
  {
  }

  /** A closed stream is forgotten, with the ping in flight on it, and nothing is said. */
  lemma StreamForgotten(m: Machine, peer: PeerId, stream: StreamId)
    ensures var (n, e) := Handle(m, StreamClosed(peer, stream));
            var before, after := Peer(m, peer), Peer(n, peer);
            && e.None? && OnlyPeer(m, n, peer) && Says(m, n, [], [])
            && after.inbound == before.inbound - {stream} && after.recvBufs == before.recvBufs - {stream}
            && (if before.outbound == Some(stream) then after.outbound == None && after.pending == None
                else after.outbound == before.outbound && after.pending == before.pending)
  {
    var state := Peer(m, peer);
    assert state.inbound == {} ==> state.inbound - {stream} == {};
    assert state.recvBufs == map[] ==> state.recvBufs - {stream} == map[];
  }

  /** A removed peer is as if it had never been seen. */
  lemma PeerForgotten(m: Machine, peer: PeerId)
    ensures var (n, e) := Handle(m, RemovePeer(peer));
            && e.None? && OnlyPeer(m, n, peer) && Says(m, n, [], [])
            && Peer(n, peer) == PeerState(None, {}, None, map[]) && peer !in n.peers
  {
  }

  /** Under its new identity a peer has the streams, the ping in flight and the fragments it had, and
      exactly what is queued about its former identity is readdressed. */
  lemma IdentityMoves(m: Machine, from: PeerId, to: PeerId)
    requires from != to
    ensures var (n, e) := Handle(m, MigratePeer(from, to));
            && e.None? && n.actions == m.actions && n.timeoutMs == m.timeoutMs
            && from !in n.peers && Peer(n, to) == (if from in m.peers then m.peers[from] else Peer(m, to))
            && (forall p :: p != from && p != to ==> Peer(n, p) == Peer(m, p))
            && |n.events| == |m.events|
            && (forall i :: 0 <= i < |m.events| ==>
                  n.events[i] == m.events[i].(peer := if m.events[i].peer == from then to else m.events[i].peer))
  {
  }

  /** Over every run a peer has at most two inbound streams, a ping in flight has a stream to be answered
      on, and fragments kept are shorter than a payload. */
  lemma StreamsBounded(timeoutMs: u64, ops: seq<Op>, peer: PeerId)
    ensures var state := Peer(Run(World(New(timeoutMs), []), ops).machine, peer);
            && |state.inbound| <= 2 && (state.pending.Some? ==> state.outbound.Some?)
            && (forall s :: s in state.recvBufs ==>
                  |state.recvBufs[s]| < 32 && (s in state.inbound || state.outbound == Some(s)))
  {
    hide Run, Handle;
    RunSound(World(New(timeoutMs), []), ops);
  }

  lemma {:induction false} RunSound(w: World, ops: seq<Op>)
    requires Sound(w.machine)
    ensures Sound(Run(w, ops).machine)
    decreases |ops|
  {
    hide Handle, Sound;
    if ops != [] {
      if ops[0].Feed? {
        HandleSound(w.machine, ops[0].input);
      } else {
        PollSound(w.machine);
      }
      RunSound(Step(w, ops[0]), ops[1..]);
    }
  }

  lemma PollSound(m: Machine)
    requires Sound(m)
    ensures Sound(Poll(m).0)
  {
  }
}

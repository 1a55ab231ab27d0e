/** What the identify machine answers to the opening, the bytes and the closing of streams, and to a change
    of identity (crates/identify/src/lib.rs:221-420), told on what it holds for a peer: which stream our
    info goes out on, and which streams the peer's is being collected from. */
module IdentifyStreams {
  import opened Bytes
  import opened Ids
  import opened Identify

  ghost predicate OnlyPeer(m: Machine, n: Machine, peer: PeerId) {
    n.config == m.config && forall p :: p != peer ==> Peer(n, p) == Peer(m, p)
  }

  predicate Says(m: Machine, n: Machine, events: seq<Event>, actions: seq<Action>) {
    n.events == m.events + events && n.actions == m.actions + actions
  }

  /** A peer is answered on one stream; another is refused and changes nothing. */
  lemma AnswersOnce(m: Machine, peer: PeerId, stream: StreamId, observed: Option<Blob>, listen: seq<Blob>)
    ensures var (n, e) := Handle(m, RegisterOutboundStream(peer, stream, observed, listen));
            if Peer(m, peer).outbound.Some? then n == m && e == Some(StreamAlreadyRegistered)
            else
              && e.None? && OnlyPeer(m, n, peer) && n.events == m.events
              && Peer(n, peer) == Peer(m, peer).(outbound := Some(stream))
  {
  }

  /** A stream is collected from once it is registered; registering it again keeps what came. */
  lemma Collects(m: Machine, peer: PeerId, stream: StreamId)
    ensures var (n, e) := Handle(m, RegisterInboundStream(peer, stream));
            var before, after := Peer(m, peer), Peer(n, peer);
            && e.None? && OnlyPeer(m, n, peer) && Says(m, n, [], []) && after.outbound == before.outbound
            && after.inbound == (if stream in before.inbound then before.inbound else before.inbound[stream := []])
  {
  }

  /** Bytes are collected up to 8192 per stream; beyond, the stream is given up and reported. Bytes on
      other streams are ignored. */
  lemma DataGathers(m: Machine, peer: PeerId, stream: StreamId, data: Blob)
    ensures var (n, e) := Handle(m, StreamData(peer, stream, data));
            var before, after := Peer(m, peer), Peer(n, peer);
            && e.None? && OnlyPeer(m, n, peer) && after.outbound == before.outbound
            && (if stream !in before.inbound then n == m
                else if |before.inbound[stream]| + |data| <= 8192 then
                  after.inbound == before.inbound[stream := before.inbound[stream] + data] && Says(m, n, [], [])
                else
                  after.inbound == before.inbound - {stream} && Says(m, n, [Failed(peer, stream)], []))
  {
  }

  /** When the remote stops writing, what came is reported once, as the info it is or as a failure, our
      side is closed too, and the stream is collected from no longer. */
  lemma RemoteEnds(m: Machine, peer: PeerId, stream: StreamId)
    ensures var (n, e) := Handle(m, StreamRemoteWriteClosed(peer, stream));
            var before, after := Peer(m, peer), Peer(n, peer);
            && e.None? && OnlyPeer(m, n, peer) && after.outbound == before.outbound
            && (if stream !in before.inbound then n == m
                else
                  var info := DecodeFramed(before.inbound[stream]);
                  && after.inbound == before.inbound - {stream}
                  && Says(m, n, [if info.Ok? then Received(peer, info.value) else Failed(peer, stream)],
                          [CloseStreamWrite(peer, stream)]))
  {
    hide DecodeFramed;
  }

  /** A closed stream is forgotten, whatever it was for, and nothing is said. */
  lemma StreamForgotten(m: Machine, peer: PeerId, stream: StreamId)
    ensures var (n, e) := Handle(m, StreamClosed(peer, stream));
            var before, after := Peer(m, peer), Peer(n, peer);
            && e.None? && OnlyPeer(m, n, peer) && Says(m, n, [], [])
            && after.inbound == before.inbound - {stream}
            && after.outbound == (if before.outbound == Some(stream) then None else before.outbound)
  {
    var state := Peer(m, peer);
    assert state.inbound == map[] ==> state.inbound - {stream} == map[];
  }

  /** A removed peer is as if it had never been seen. */
  lemma PeerForgotten(m: Machine, peer: PeerId)
    ensures var (n, e) := Handle(m, RemovePeer(peer));
            && e.None? && OnlyPeer(m, n, peer) && Says(m, n, [], [])
            && Peer(n, peer) == PeerState(None, map[]) && peer !in n.peers
  {
  }

  /** Under its new identity a peer has the streams it had, and exactly what is queued about its former
      identity is readdressed. */
  lemma IdentityMoves(m: Machine, from: PeerId, to: PeerId)
    requires from != to
    ensures var (n, e) := Handle(m, MigratePeer(from, to));
            && e.None? && n.actions == m.actions && n.config == m.config
            && from !in n.peers && Peer(n, to) == (if from in m.peers then m.peers[from] else Peer(m, to))
            && (forall p :: p != from && p != to ==> Peer(n, p) == Peer(m, p))
            && |n.events| == |m.events|
            && (forall i :: 0 <= i < |m.events| ==>
                  n.events[i] == m.events[i].(peer := if m.events[i].peer == from then to else m.events[i].peer))
  {
  }

  /** A protocol is advertised once, behind those that were. */
  lemma ProtocolAdvertised(m: Machine, protocol: Blob)
    ensures var n := AddProtocol(m, protocol);
            && n == m.(config := m.config.(protocols := n.config.protocols))
            && m.config.protocols <= n.config.protocols && protocol in n.config.protocols
            && |n.config.protocols| == |m.config.protocols| + (if protocol in m.config.protocols then 0 else 1)
  {
  }
}

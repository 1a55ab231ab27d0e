/** The `/ipfs/id/1.0.0` machine (crates/identify/src/lib.rs). Addresses are carried in their binary
    form. */
module Identify {
  import opened Bytes
  import opened Ids
  import Varint
  import Framing
  import IdentifyMessage
  import Protobuf

  const MAX_MESSAGE_SIZE: nat := 8192

  datatype Config = Config(protocolVersion: Blob, agentVersion: Blob, protocols: seq<Blob>, publicKey: Blob)

  datatype Action =
    | Send(peer: PeerId, stream: StreamId, data: Blob)
    | CloseStreamWrite(peer: PeerId, stream: StreamId)

  datatype Event =
    | Received(peer: PeerId, info: IdentifyMessage.Info)
    | Failed(peer: PeerId, stream: StreamId)

  datatype Input =
    | RegisterOutboundStream(peer: PeerId, stream: StreamId, observed: Option<Blob>, listen: seq<Blob>)
    | RegisterInboundStream(peer: PeerId, stream: StreamId)
    | StreamData(peer: PeerId, stream: StreamId, data: Blob)
    | StreamRemoteWriteClosed(peer: PeerId, stream: StreamId)
    | StreamClosed(peer: PeerId, stream: StreamId)
    | RemovePeer(peer: PeerId)
    | MigratePeer(from: PeerId, to: PeerId)

  datatype Error = StreamAlreadyRegistered

  /** `outbound` is where our own info is sent, `inbound` where the peer's is being received. */
  datatype PeerState = PeerState(outbound: Option<StreamId>, inbound: map<StreamId, Blob>)

  const FRESH_PEER: PeerState := PeerState(None, map[])

  datatype Machine = Machine(
    peers: map<PeerId, PeerState>, events: seq<Event>, actions: seq<Action>, config: Config)

  function New(config: Config): Machine {
    Machine(map[], [], [], config)
  }

  // ------------------------------------------------------------------------ framing

  function DecodeFramed(buf: Blob): Result<IdentifyMessage.Info, Protobuf.Error> {
    match Protobuf.ReadBytes(buf)
    case Err(e) => Err(e)
    case Ok((body, _)) => IdentifyMessage.Decode(body)
  }

  function OwnInfo(config: Config, observed: Option<Blob>, listen: seq<Blob>): IdentifyMessage.Info {
    IdentifyMessage.Info(Some(config.publicKey), listen, config.protocols, observed,
                         Some(config.protocolVersion), Some(config.agentVersion))
  }

  // --------------------------------------------------------------- value-level steps

  function Peer(m: Machine, peer: PeerId): PeerState {
    if peer in m.peers then m.peers[peer] else FRESH_PEER
  }

  function Put(m: Machine, peer: PeerId, state: PeerState): Machine {
    m.(peers := m.peers[peer := state])
  }

  function AddProtocol(m: Machine, protocol: Blob): Machine {
    if protocol in m.config.protocols then m
    else m.(config := m.config.(protocols := m.config.protocols + [protocol]))
  }

  function RegisterOutbound(m: Machine, peer: PeerId, stream: StreamId, observed: Option<Blob>, listen: seq<Blob>)
    : (Machine, Option<Error>)
  {
    var state := Peer(m, peer);
    if state.outbound.Some? then (m, Some(StreamAlreadyRegistered))
    else
      var data := Framing.Frame(IdentifyMessage.Encode(OwnInfo(m.config, observed, listen)));
      (Put(m, peer, state.(outbound := Some(stream)))
       .(actions := m.actions + [Send(peer, stream, data), CloseStreamWrite(peer, stream)]), None)
  }

  function RegisterInbound(m: Machine, peer: PeerId, stream: StreamId): Machine {
    var state := Peer(m, peer);
    Put(m, peer, if stream in state.inbound then state else state.(inbound := state.inbound[stream := []]))
  }

  function Data(m: Machine, peer: PeerId, stream: StreamId, data: Blob): Machine {
    if peer !in m.peers || stream !in m.peers[peer].inbound then m
    else
      var state := m.peers[peer];
      var buf := state.inbound[stream] + data;
      if |buf| > MAX_MESSAGE_SIZE then
        Put(m, peer, state.(inbound := state.inbound - {stream})).(events := m.events + [Failed(peer, stream)])
      else Put(m, peer, state.(inbound := state.inbound[stream := buf]))
  }

  function RemoteWriteClosed(m: Machine, peer: PeerId, stream: StreamId): Machine {
    if peer !in m.peers || stream !in m.peers[peer].inbound then m
    else
      var state := m.peers[peer];
      var event :=
        match DecodeFramed(state.inbound[stream])
        case Ok(info) => Received(peer, info)
        case Err(_) => Failed(peer, stream);
      Put(m, peer, state.(inbound := state.inbound - {stream}))
      .(events := m.events + [event], actions := m.actions + [CloseStreamWrite(peer, stream)])
  }

  function Closed(m: Machine, peer: PeerId, stream: StreamId): Machine {
    if peer !in m.peers then m
    else
      var state := m.peers[peer];
      var left := PeerState(if state.outbound == Some(stream) then None else state.outbound, state.inbound - {stream});
      if left.outbound.None? && left.inbound == map[] then m.(peers := m.peers - {peer}) else Put(m, peer, left)
  }

  function Remove(m: Machine, peer: PeerId): Machine {
    m.(peers := m.peers - {peer})
  }

  function Rename(event: Event, from: PeerId, to: PeerId): Event {
    if event.peer == from then event.(peer := to) else event
  }

  function Migrate(m: Machine, from: PeerId, to: PeerId): Machine {
    if from == to then m
    else
      var peers := if from in m.peers then (m.peers - {from})[to := m.peers[from]] else m.peers;
      m.(peers := peers,
         events := seq(|m.events|, i requires 0 <= i < |m.events| => Rename(m.events[i], from, to)))
  }

  function Handle(m: Machine, input: Input): (Machine, Option<Error>) {
    match input
    case RegisterOutboundStream(peer, stream, observed, listen) => RegisterOutbound(m, peer, stream, observed, listen)
    case RegisterInboundStream(peer, stream) => (RegisterInbound(m, peer, stream), None)
    case StreamData(peer, stream, data) => (Data(m, peer, stream, data), None)
    case StreamRemoteWriteClosed(peer, stream) => (RemoteWriteClosed(m, peer, stream), None)
    case StreamClosed(peer, stream) => (Closed(m, peer, stream), None)
    case RemovePeer(peer) => (Remove(m, peer), None)
    case MigratePeer(from, to) => (Migrate(m, from, to), None)
  }

  datatype Output = Act(action: Action) | Tell(event: Event)

  predicate Idle(m: Machine) {
    m.actions == [] && m.events == []
  }

  function Poll(m: Machine): (Machine, Option<Output>) {
    if m.actions != [] then (m.(actions := m.actions[1..]), Some(Act(m.actions[0])))
    else if m.events != [] then (m.(events := m.events[1..]), Some(Tell(m.events[0])))
    else (m, None)
  }

  // ----------------------------------------------------------------------- delivery

  function FeedAll(m: Machine, peer: PeerId, stream: StreamId, chunks: seq<Blob>): Machine
    decreases |chunks|
  {
    if chunks == [] then m else FeedAll(Data(m, peer, stream, chunks[0]), peer, stream, chunks[1..])
  }

  /** Chunks accumulate until the size limit is first exceeded; from then on they are ignored. */
  lemma {:induction false} FeedAccumulates(m: Machine, peer: PeerId, stream: StreamId, chunks: seq<Blob>)
    requires peer in m.peers && stream in m.peers[peer].inbound
    requires |m.peers[peer].inbound[stream]| <= MAX_MESSAGE_SIZE
    ensures var r := FeedAll(m, peer, stream, chunks);
            var whole := m.peers[peer].inbound[stream] + Flatten(chunks);
            peer in r.peers &&
            if |whole| <= MAX_MESSAGE_SIZE
            then r.events == m.events && stream in r.peers[peer].inbound && r.peers[peer].inbound[stream] == whole
            else r.events == m.events + [Failed(peer, stream)] && stream !in r.peers[peer].inbound
    decreases |chunks|
  {
    var buf := m.peers[peer].inbound[stream];
    if chunks == [] {
      assert buf + Flatten(chunks) == buf;
    } else {
      var n := Data(m, peer, stream, chunks[0]);
      assert buf + Flatten(chunks) == (buf + chunks[0]) + Flatten(chunks[1..]);
      if |buf + chunks[0]| <= MAX_MESSAGE_SIZE {
        FeedAccumulates(n, peer, stream, chunks[1..]);
      } else {
        FeedIgnored(n, peer, stream, chunks[1..]);
      }
    }
  }

  lemma {:induction false} FeedIgnored(m: Machine, peer: PeerId, stream: StreamId, chunks: seq<Blob>)
    requires peer in m.peers && stream !in m.peers[peer].inbound
    ensures FeedAll(m, peer, stream, chunks) == m
    decreases |chunks|
  {
    if chunks != [] {
      FeedIgnored(m, peer, stream, chunks[1..]);
    }
  }

  lemma DecodeFrame(info: IdentifyMessage.Info)
    requires IdentifyMessage.Textual(info) && IdentifyMessage.Readable(IdentifyMessage.Records(info))
    requires |IdentifyMessage.Encode(info)| < TWO_64
    ensures DecodeFramed(Framing.Frame(IdentifyMessage.Encode(info))) == Ok(info)
  {
    hide IdentifyMessage.Encode, IdentifyMessage.Decode, Protobuf.ReadBytes;
    var body := IdentifyMessage.Encode(info);
    Protobuf.ReadBytesEncoded(body, []);
    assert (Varint.Encode(|body|) + body) + [] == Framing.Frame(body);
    IdentifyMessage.DecodesEncoded(info);
  }

  /** The info a responder frames is the info its peer's initiator reports, whatever the chunking,
      exactly when the frame is at most 8192 bytes; a longer one is reported as failed. */
  lemma Delivery(m: Machine, peer: PeerId, stream: StreamId, info: IdentifyMessage.Info, chunks: seq<Blob>)
    requires IdentifyMessage.Textual(info) && IdentifyMessage.Readable(IdentifyMessage.Records(info))
    requires |IdentifyMessage.Encode(info)| < TWO_64
    requires peer in m.peers ==> stream !in m.peers[peer].inbound
    requires Flatten(chunks) == Framing.Frame(IdentifyMessage.Encode(info))
    ensures var fed := FeedAll(RegisterInbound(m, peer, stream), peer, stream, chunks);
            RemoteWriteClosed(fed, peer, stream).events == m.events +
              [if |Flatten(chunks)| <= MAX_MESSAGE_SIZE then Received(peer, info) else Failed(peer, stream)]
  {
    hide IdentifyMessage.Encode, DecodeFramed, FeedAll, Framing.Frame, IdentifyMessage.Textual,
         IdentifyMessage.Readable;
    DecodeFrame(info);
    FeedAccumulates(RegisterInbound(m, peer, stream), peer, stream, chunks);
    assert [] + Flatten(chunks) == Flatten(chunks);
  }

  // ---------------------------------------------------------------- imperative form

  /** The stateful machine. */
  class IdentifyProtocol {
    var peers: map<PeerId, PeerState>
    var events: seq<Event>
    var actions: seq<Action>
    var config: Config

    ghost function View(): Machine
      reads this
    {
      Machine(peers, events, actions, config)
    }

    constructor (config: Config)
      ensures View() == New(config)
    {
      this.peers, this.events, this.actions, this.config := map[], [], [], config;
    }

    method AddProtocolId(protocol: Blob)
      modifies this
      ensures View() == AddProtocol(old(View()), protocol)
    {
      if protocol !in config.protocols {
        config := config.(protocols := config.protocols + [protocol]);
      }
    }

    /** `handle_input`: every input is the corresponding value-level step. */
    method HandleInput(input: Input) returns (error: Option<Error>)
      modifies this
      ensures (View(), error) == Handle(old(View()), input)
    {
      match input {
        case RegisterOutboundStream(peer, stream, observed, listen) =>
          var state := if peer in peers then peers[peer] else FRESH_PEER;
          if state.outbound.Some? {
            return Some(StreamAlreadyRegistered);
          }
          peers := peers[peer := state.(outbound := Some(stream))];
          var data := Framing.Frame(IdentifyMessage.Encode(OwnInfo(config, observed, listen)));
          actions := actions + [Send(peer, stream, data), CloseStreamWrite(peer, stream)];
        case RegisterInboundStream(peer, stream) =>
          var state := if peer in peers then peers[peer] else FRESH_PEER;
          if stream !in state.inbound {
            state := state.(inbound := state.inbound[stream := []]);
          }
          peers := peers[peer := state];
        case StreamData(peer, stream, data) =>
          if peer in peers && stream in peers[peer].inbound {
            var state := peers[peer];
            var buf := state.inbound[stream] + data;
            if |buf| > MAX_MESSAGE_SIZE {
              events := events + [Failed(peer, stream)];
              peers := peers[peer := state.(inbound := state.inbound - {stream})];
            } else {
              peers := peers[peer := state.(inbound := state.inbound[stream := buf])];
            }
          }
        case StreamRemoteWriteClosed(peer, stream) =>
          if peer in peers && stream in peers[peer].inbound {
            var state := peers[peer];
            peers := peers[peer := state.(inbound := state.inbound - {stream})];
            match DecodeFramed(state.inbound[stream]) {
              case Ok(info) => events := events + [Received(peer, info)];
              case Err(_) => events := events + [Failed(peer, stream)];
            }
            actions := actions + [CloseStreamWrite(peer, stream)];
          }
        case StreamClosed(peer, stream) =>
          if peer in peers {
            var state := peers[peer];
            if state.outbound == Some(stream) {
              state := state.(outbound := None);
            }
            state := state.(inbound := state.inbound - {stream});
            if state.outbound.None? && state.inbound == map[] {
              peers := peers - {peer};
            } else {
              peers := peers[peer := state];
            }
          }
        case RemovePeer(peer) =>
          peers := peers - {peer};
        case MigratePeer(from, to) =>
          MigratePeerState(from, to);
      }
      return None;
    }

    method MigratePeerState(from: PeerId, to: PeerId)
      modifies this
      ensures View() == Migrate(old(View()), from, to)
    {
      if from == to {
        return;
      }
      if from in peers {
        var state := peers[from];
        peers := peers - {from};
        peers := peers[to := state];
      }
      var i := 0;
      while i < |events|
        invariant 0 <= i <= |events| == |old(events)|
        invariant forall j :: 0 <= j < |events| ==>
                    events[j] == if j < i then Rename(old(events)[j], from, to) else old(events)[j]
        invariant actions == old(actions) && config == old(config)
        invariant peers == Migrate(old(View()), from, to).peers
      {
        if events[i].peer == from {
          events := events[i := events[i].(peer := to)];
        }
        i := i + 1;
      }
    }

    method PollOutput() returns (output: Option<Output>)
      modifies this
      ensures (View(), output) == Poll(old(View()))
    {
      if actions != [] {
        output := Some(Act(actions[0]));
        actions := actions[1..];
        return;
      }
      if events == [] {
        return None;
      }
      output := Some(Tell(events[0]));
      events := events[1..];
    }
  }
}

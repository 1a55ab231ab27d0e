/** Identify from end to end (crates/identify/src/lib.rs:221-361): what one side's answer makes the other
    side report, field by field. */
module IdentifyExchange {
  import opened Bytes
  import opened Ids
  import opened Identify
  import Framing
  import IdentifyMessage
  import Protobuf
  import Utf8
  import Varint

  /** The text fields of a configuration are Rust strings. */
  predicate TextConfig(config: Config) {
    && (forall i :: 0 <= i < |config.protocols| ==> Utf8.Valid(config.protocols[i]))
    && Utf8.Valid(config.protocolVersion) && Utf8.Valid(config.agentVersion)
  }

  lemma {:induction false} RecordsFit(records: seq<Protobuf.Record>, i: nat)
    requires i < |records| && records[i].BytesField?
    ensures |records[i].data| <= |Protobuf.EncodeAll(records)|
    decreases |records|
  {
    hide Varint.Encode;
    if i > 0 {
      RecordsFit(records[1..], i - 1);
    }
  }

  lemma ShortReadable(info: IdentifyMessage.Info)
    requires |IdentifyMessage.Encode(info)| < TWO_64
    ensures IdentifyMessage.Readable(IdentifyMessage.Records(info))
  {
    hide Protobuf.EncodeAll;
    var records := IdentifyMessage.Records(info);
    IdentifyMessage.RecordsKnown(info);
    forall i | 0 <= i < |records|
      ensures Protobuf.WellFormed(Protobuf.Lenient, records[i])
    {
      assert IdentifyMessage.Known(records[i]);
      RecordsFit(records, i);
    }
  }

  /** What the responder puts on the wire. */
  lemma AnswerIs(responder: Machine, them: PeerId, theirs: StreamId, observed: Option<Blob>, listen: seq<Blob>)
    requires Peer(responder, them).outbound.None?
    ensures var k := responder.config;
            var info := IdentifyMessage.Info(
              publicKey := Some(k.publicKey), listenAddrs := listen, protocols := k.protocols, observedAddr := observed,
              protocolVersion := Some(k.protocolVersion), agentVersion := Some(k.agentVersion));
            var (r, e) := Handle(responder, RegisterOutboundStream(them, theirs, observed, listen));
            && e.None? && r.events == responder.events
            && r.actions == responder.actions
                 + [Send(them, theirs, Framing.Frame(IdentifyMessage.Encode(info))), CloseStreamWrite(them, theirs)]
  {
    hide Framing.Frame, IdentifyMessage.Encode;
  }

  /** What the initiator has reported once the bytes have arrived and the remote's writing has ended. */
  function Reported(initiator: Machine, us: PeerId, ours: StreamId, chunks: seq<Blob>): seq<Event> {
    var fed := FeedAll(Handle(initiator, RegisterInboundStream(us, ours)).0, us, ours, chunks);
    Handle(fed, StreamRemoteWriteClosed(us, ours)).0.events
  }

  /** Identify end to end. A responder answers with bytes and a half-close on the stream it was given.
      If these bytes number at most 8192 and reach an initiator in any chunks, then it reports, of the
      peer it asked, exactly the responder's key, protocols and two versions, the listen addresses the
      responder was given, and the address the responder saw; a longer answer is reported as failed. */
  lemma Exchange(responder: Machine, them: PeerId, theirs: StreamId, observed: Option<Blob>, listen: seq<Blob>,
                 initiator: Machine, us: PeerId, ours: StreamId, chunks: seq<Blob>) returns (bytes: Blob)
    requires Peer(responder, them).outbound.None? && TextConfig(responder.config)
    requires ours !in Peer(initiator, us).inbound
    ensures var r := Handle(responder, RegisterOutboundStream(them, theirs, observed, listen)).0;
            r.actions == responder.actions + [Send(them, theirs, bytes), CloseStreamWrite(them, theirs)]
    ensures Flatten(chunks) == bytes && |bytes| <= 8192 ==>
              var k, told := responder.config, Reported(initiator, us, ours, chunks);
              && |told| == |initiator.events| + 1 && initiator.events <= told
              && var last := told[|initiator.events|];
                 && last.Received? && last.peer == us
                 && last.info.publicKey == Some(k.publicKey) && last.info.protocols == k.protocols
                 && last.info.protocolVersion == Some(k.protocolVersion)
                 && last.info.agentVersion == Some(k.agentVersion)
                 && last.info.listenAddrs == listen && last.info.observedAddr == observed
    ensures Flatten(chunks) == bytes && 8192 < |bytes| && |bytes| < TWO_64 ==>
              Reported(initiator, us, ours, chunks) == initiator.events + [Failed(us, ours)]
  {
    hide Framing.Frame, IdentifyMessage.Encode, IdentifyMessage.Records, IdentifyMessage.Readable, FeedAll,
         DecodeFramed, Utf8.Valid;
    var k := responder.config;
    var info := IdentifyMessage.Info(
      publicKey := Some(k.publicKey), listenAddrs := listen, protocols := k.protocols, observedAddr := observed,
      protocolVersion := Some(k.protocolVersion), agentVersion := Some(k.agentVersion));
    AnswerIs(responder, them, theirs, observed, listen);
    bytes := Framing.Frame(IdentifyMessage.Encode(info));
    if Flatten(chunks) == bytes && |bytes| < TWO_64 {
      BodyShorter(IdentifyMessage.Encode(info));
      ShortReadable(info);
      Delivery(initiator, us, ours, info, chunks);
    }
  }

  lemma BodyShorter(payload: Blob)
    requires |Framing.Frame(payload)| < TWO_64
    ensures |payload| < TWO_64
  {
  }
}

/** The literal forms of what is put on the wire or printed, as the libp2p specifications and the
    multiformats tables give them (crates/multistream-select/src/lib.rs:14-23,
    crates/relay/src/message.rs:20-120, crates/dcutr/src/message.rs:20-60,
    crates/identify/src/message.rs:10-50, crates/core/src/protocol.rs:18-40). */
module WireForms {
  import opened Bytes
  import AutonatMessage
  import Base32
  import Base58
  import Dcutr
  import Framing
  import HolePunch
  import IdentifyMessage
  import Multiaddr
  import MultiaddrText
  import Multistream
  import PeerIds
  import Protobuf
  import RelayMessage
  import Swarm
  import Utf8
  import Varint

  predicate Plain(t: string) {
    forall i :: 0 <= i < |t| ==> t[i] as int < 128
  }

  /** The bytes of ASCII text. */
  function Ascii(t: string): (s: Blob)
    requires Plain(t)
    ensures |s| == |t|
  {
    seq(|t|, i requires 0 <= i < |t| => t[i] as int)
  }

  // ------------------------------------------------------------------------ numbers and frames

  /** Seven bits a byte, low bits first, the high bit on all bytes but the last. */
  lemma Varints(v: nat)
    ensures v < 128 ==> Varint.Encode(v) == [v]
    ensures 128 <= v < 16384 ==> Varint.Encode(v) == [v % 128 + 128, v / 128]
  {
    if 128 <= v < 16384 {
      assert Varint.Encode(v / 128) == [v / 128];
    }
  }

  lemma Frames(payload: Blob)
    requires |payload| < 128
    ensures Framing.Frame(payload) == [|payload|] + payload
  {
    Varints(|payload|);
  }

  /** A length-delimited protobuf field. */
  function Field(tag: byte, body: Blob): Blob {
    [tag] + (Varint.Encode(|body|) + body)
  }

  function Maybe(tag: byte, body: Option<Blob>): Blob {
    if body.Some? then Field(tag, body.value) else []
  }

  function Fields(tag: byte, bodies: seq<Blob>): Blob {
    if bodies == [] then [] else Field(tag, bodies[0]) + Fields(tag, bodies[1..])
  }

  function Number(tag: byte, value: nat): Blob {
    [tag] + Varint.Encode(value)
  }

  function MaybeNumber(tag: byte, value: Option<u64>): Blob {
    if value.Some? then Number(tag, value.value) else []
  }

  lemma BytesForm(field: nat, data: Blob)
    requires field < 16
    ensures Protobuf.EncodeRecord(Protobuf.BytesField(field, data)) == Field(field * 8 + 2, data)
  {
    Varints(field * 8 + 2);
  }

  lemma NumberForm(field: nat, value: u64)
    requires field < 16
    ensures Protobuf.EncodeRecord(Protobuf.VarintField(field, value)) == Number(field * 8, value)
  {
    Varints(field * 8);
  }

  lemma {:induction false} Appended(a: seq<Protobuf.Record>, b: seq<Protobuf.Record>)
    ensures Protobuf.EncodeAll(a + b) == Protobuf.EncodeAll(a) + Protobuf.EncodeAll(b)
  {
    hide Protobuf.EncodeRecord;
    if a == [] {
      assert a + b == b;
    } else {
      Appended(a[1..], b);
      assert (a + b)[1..] == a[1..] + b && (a + b)[0] == a[0];
      var first := Protobuf.EncodeRecord(a[0]);
      assert first + (Protobuf.EncodeAll(a[1..]) + Protobuf.EncodeAll(b))
          == (first + Protobuf.EncodeAll(a[1..])) + Protobuf.EncodeAll(b);
    }
  }

  lemma Single(rec: Protobuf.Record)
    ensures Protobuf.EncodeAll([rec]) == Protobuf.EncodeRecord(rec)
  {
    hide Protobuf.EncodeRecord;
    assert [rec][1..] == [];
    assert Protobuf.EncodeRecord(rec) + [] == Protobuf.EncodeRecord(rec);
  }

  lemma OptionalForm(field: nat, data: Option<Blob>)
    requires field < 16
    ensures Protobuf.EncodeAll(Protobuf.OptionalBytes(field, data)) == Maybe(field * 8 + 2, data)
  {
    hide Protobuf.EncodeRecord, Field;
    if data.Some? {
      BytesForm(field, data.value);
      Single(Protobuf.BytesField(field, data.value));
    }
  }

  lemma OptionalNumberForm(field: nat, value: Option<u64>)
    requires field < 16
    ensures Protobuf.EncodeAll(Protobuf.OptionalVarint(field, value)) == MaybeNumber(field * 8, value)
  {
    hide Protobuf.EncodeRecord;
    if value.Some? {
      NumberForm(field, value.value);
      Single(Protobuf.VarintField(field, value.value));
    }
  }

  lemma {:induction false} RepeatedForm(field: nat, items: seq<Blob>)
    requires field < 16
    ensures Protobuf.EncodeAll(Protobuf.Repeated(field, items)) == Fields(field * 8 + 2, items)
    decreases |items|
  {
    hide Protobuf.EncodeRecord, Field;
    if items != [] {
      var records := Protobuf.Repeated(field, items);
      assert records[1..] == Protobuf.Repeated(field, items[1..]);
      BytesForm(field, items[0]);
      RepeatedForm(field, items[1..]);
    }
  }

  // ------------------------------------------------------------------------------- protocol ids

  /** The ids the swarm negotiates, and the lines of the negotiation itself. */
  lemma ProtocolIds()
    ensures Swarm.PING_ID == Ascii("/ipfs/ping/1.0.0") && Swarm.IDENTIFY_ID == Ascii("/ipfs/id/1.0.0")
    ensures Multistream.HEADER == Ascii("/multistream/1.0.0") && Multistream.NOT_AVAILABLE == Ascii("na")
    ensures Multistream.EncodeMessage(Multistream.HEADER) == [19] + Ascii("/multistream/1.0.0\n")
    ensures Multistream.EncodeMessage(Multistream.NOT_AVAILABLE) == [3] + Ascii("na\n")
  {
  }

  lemma Lines(protocol: Blob)
    ensures |protocol| < 127 ==> Multistream.EncodeMessage(protocol) == [|protocol| + 1] + protocol + [10]
    ensures Multistream.Sendable(protocol) <==> 1 <= |protocol| <= 1023 && Utf8.Valid(protocol)
  {
    hide Utf8.Valid, Varint.Encode, Varint.Len;
    if |protocol| < 127 {
      Varints(|protocol| + 1);
    }
  }

  // ----------------------------------------------------------------------------------- identify

  /** The Identify message: key, listen addresses, protocols, observed address, protocol version and
      agent version are fields 1 to 6, in this order. */
  lemma IdentifyForm(m: IdentifyMessage.Info)
    ensures IdentifyMessage.Encode(m) ==
            Maybe(0x0A, m.publicKey) + Fields(0x12, m.listenAddrs) + Fields(0x1A, m.protocols)
            + Maybe(0x22, m.observedAddr) + Maybe(0x2A, m.protocolVersion) + Maybe(0x32, m.agentVersion)
  {
    hide Protobuf.EncodeAll, Maybe, Fields, Protobuf.OptionalBytes, Protobuf.Repeated;
    var a, b := Protobuf.OptionalBytes(1, m.publicKey), Protobuf.Repeated(2, m.listenAddrs);
    var c, d := Protobuf.Repeated(3, m.protocols), Protobuf.OptionalBytes(4, m.observedAddr);
    var e, f := Protobuf.OptionalBytes(5, m.protocolVersion), Protobuf.OptionalBytes(6, m.agentVersion);
    Appended(a, b);
    Appended(a + b, c);
    Appended(a + b + c, d);
    Appended(a + b + c + d, e);
    Appended(a + b + c + d + e, f);
    OptionalForm(1, m.publicKey);
    RepeatedForm(2, m.listenAddrs);
    RepeatedForm(3, m.protocols);
    OptionalForm(4, m.observedAddr);
    OptionalForm(5, m.protocolVersion);
    OptionalForm(6, m.agentVersion);
  }

  // -------------------------------------------------------------------------------------- relay

  const HOP_KINDS: seq<RelayMessage.HopKind> := [RelayMessage.Reserve, RelayMessage.HopConnect, RelayMessage.HopStatus]
  const STOP_KINDS: seq<RelayMessage.StopKind> := [RelayMessage.StopConnect, RelayMessage.StopStatus]
  const RELAY_STATUSES: seq<(RelayMessage.Status, nat)> :=
    [(RelayMessage.Unused, 0), (RelayMessage.StatusOk, 100), (RelayMessage.ReservationRefused, 200),
     (RelayMessage.ResourceLimitExceeded, 201), (RelayMessage.PermissionDenied, 202),
     (RelayMessage.ConnectionFailed, 203), (RelayMessage.NoReservation, 204),
     (RelayMessage.MalformedMessage, 400), (RelayMessage.UnexpectedMessage, 401)]

  /** The enumerations of Circuit Relay v2, both ways; other kinds are refused, and every other status
      reads as unused. */
  lemma RelayCodes(v: u64)
    ensures forall i :: 0 <= i < 3 ==> RelayMessage.HopKindCode(HOP_KINDS[i]) == i
    ensures forall i :: 0 <= i < 2 ==> RelayMessage.StopKindCode(STOP_KINDS[i]) == i
    ensures RelayMessage.HopKindOf(v) == if v < 3 then Some(HOP_KINDS[v]) else None
    ensures RelayMessage.StopKindOf(v) == if v < 2 then Some(STOP_KINDS[v]) else None
    ensures forall i :: 0 <= i < 9 ==> RelayMessage.StatusCode(RELAY_STATUSES[i].0) == RELAY_STATUSES[i].1
    ensures forall i :: 0 <= i < 9 && RELAY_STATUSES[i].1 == v ==> RelayMessage.StatusOf(v) == RELAY_STATUSES[i].0
    ensures (forall i :: 0 <= i < 9 ==> RELAY_STATUSES[i].1 != v) ==> RelayMessage.StatusOf(v) == RelayMessage.Unused
  {
    var t := RELAY_STATUSES;
    assert t[0].1 == 0 && t[1].1 == 100 && t[2].1 == 200 && t[3].1 == 201 && t[4].1 == 202;
    assert t[5].1 == 203 && t[6].1 == 204 && t[7].1 == 400 && t[8].1 == 401;
  }

  function PeerForm(p: RelayMessage.Peer): Blob {
    (if p.id == [] then [] else Field(0x0A, p.id)) + Fields(0x12, p.addrs)
  }

  function ReservationForm(r: RelayMessage.Reservation): Blob {
    MaybeNumber(0x08, r.expire) + Fields(0x12, r.addrs) + Maybe(0x1A, r.voucher)
  }

  function LimitForm(l: RelayMessage.Limit): Blob {
    (if l.duration.Some? then Number(0x08, l.duration.value) else []) + MaybeNumber(0x10, l.data)
  }

  lemma NestedForms(p: RelayMessage.Peer, r: RelayMessage.Reservation, l: RelayMessage.Limit)
    ensures Protobuf.EncodeAll(RelayMessage.PeerRecords(p)) == PeerForm(p)
    ensures Protobuf.EncodeAll(RelayMessage.ReservationRecords(r)) == ReservationForm(r)
    ensures Protobuf.EncodeAll(RelayMessage.LimitRecords(l)) == LimitForm(l)
  {
    hide Protobuf.EncodeAll, Maybe, MaybeNumber, Fields, Field, Protobuf.OptionalBytes, Protobuf.OptionalVarint,
         Protobuf.Repeated, Protobuf.EncodeRecord, Number;
    var id: seq<Protobuf.Record> := if p.id == [] then [] else [Protobuf.BytesField(1, p.id)];
    Appended(id, Protobuf.Repeated(2, p.addrs));
    OptionalForm(1, None);
    NoRecords();
    BytesForm(1, p.id);
    Single(Protobuf.BytesField(1, p.id));
    RepeatedForm(2, p.addrs);
    Appended(Protobuf.OptionalVarint(1, r.expire) + Protobuf.Repeated(2, r.addrs),
             Protobuf.OptionalBytes(3, r.voucher));
    Appended(Protobuf.OptionalVarint(1, r.expire), Protobuf.Repeated(2, r.addrs));
    OptionalNumberForm(1, r.expire);
    RepeatedForm(2, r.addrs);
    OptionalForm(3, r.voucher);
    Appended(RelayMessage.DurationField(l.duration), Protobuf.OptionalVarint(2, l.data));
    DurationForm(l.duration);
    OptionalNumberForm(2, l.data);
  }

  lemma NoRecords()
    ensures Protobuf.EncodeAll([]) == []
  {
  }

  lemma DurationForm(duration: Option<RelayMessage.u32>)
    ensures Protobuf.EncodeAll(RelayMessage.DurationField(duration))
         == if duration.Some? then Number(0x08, duration.value) else []
  {
    hide Protobuf.EncodeRecord;
    if duration.Some? {
      NumberForm(1, duration.value);
      Single(Protobuf.VarintField(1, duration.value));
    }
  }

  /** Hop: the kind is field 1, peer, reservation and limit are fields 2, 3 and 4, the status field 5. */
  lemma HopForm(m: RelayMessage.Hop)
    ensures RelayMessage.EncodeHop(m) ==
            Number(0x08, RelayMessage.HopKindCode(m.kind))
            + (if m.peer.Some? then Field(0x12, PeerForm(m.peer.value)) else [])
            + (if m.reservation.Some? then Field(0x1A, ReservationForm(m.reservation.value)) else [])
            + (if m.limit.Some? then Field(0x22, LimitForm(m.limit.value)) else [])
            + (if m.status.Some? then Number(0x28, RelayMessage.StatusCode(m.status.value)) else [])
  {
    hide Protobuf.EncodeAll, Protobuf.EncodeRecord, Field, Number, PeerForm, ReservationForm, LimitForm,
         RelayMessage.PeerRecords, RelayMessage.ReservationRecords, RelayMessage.LimitRecords;
    var kind := [Protobuf.VarintField(1, RelayMessage.HopKindCode(m.kind))];
    var b := RelayMessage.Nested(2, m.peer, RelayMessage.PeerRecords);
    var c := RelayMessage.Nested(3, m.reservation, RelayMessage.ReservationRecords);
    var d, e := RelayMessage.Nested(4, m.limit, RelayMessage.LimitRecords), RelayMessage.StatusField(5, m.status);
    Appended(kind, b);
    Appended(kind + b, c);
    Appended(kind + b + c, d);
    Appended(kind + b + c + d, e);
    NumberForm(1, RelayMessage.HopKindCode(m.kind));
    Single(kind[0]);
    NoRecords();
    if m.peer.Some? {
      NestedForms(m.peer.value, RelayMessage.NO_RESERVATION, RelayMessage.NO_LIMIT);
      BytesForm(2, PeerForm(m.peer.value));
      Single(b[0]);
    }
    if m.reservation.Some? {
      NestedForms(RelayMessage.NO_PEER, m.reservation.value, RelayMessage.NO_LIMIT);
      BytesForm(3, ReservationForm(m.reservation.value));
      Single(c[0]);
    }
    if m.limit.Some? {
      NestedForms(RelayMessage.NO_PEER, RelayMessage.NO_RESERVATION, m.limit.value);
      BytesForm(4, LimitForm(m.limit.value));
      Single(d[0]);
    }
    if m.status.Some? {
      NumberForm(5, RelayMessage.StatusCode(m.status.value));
      Single(e[0]);
    }
  }

  /** Stop: the kind is field 1, peer and limit are fields 2 and 3, the status field 4. */
  lemma StopForm(m: RelayMessage.Stop)
    ensures RelayMessage.EncodeStop(m) ==
            Number(0x08, RelayMessage.StopKindCode(m.kind))
            + (if m.peer.Some? then Field(0x12, PeerForm(m.peer.value)) else [])
            + (if m.limit.Some? then Field(0x1A, LimitForm(m.limit.value)) else [])
            + (if m.status.Some? then Number(0x20, RelayMessage.StatusCode(m.status.value)) else [])
  {
    hide Protobuf.EncodeAll, Protobuf.EncodeRecord, Field, Number, PeerForm, ReservationForm, LimitForm,
         RelayMessage.PeerRecords, RelayMessage.ReservationRecords, RelayMessage.LimitRecords;
    var kind := [Protobuf.VarintField(1, RelayMessage.StopKindCode(m.kind))];
    var b := RelayMessage.Nested(2, m.peer, RelayMessage.PeerRecords);
    var c, d := RelayMessage.Nested(3, m.limit, RelayMessage.LimitRecords), RelayMessage.StatusField(4, m.status);
    Appended(kind, b);
    Appended(kind + b, c);
    Appended(kind + b + c, d);
    NumberForm(1, RelayMessage.StopKindCode(m.kind));
    Single(kind[0]);
    NoRecords();
    if m.peer.Some? {
      NestedForms(m.peer.value, RelayMessage.NO_RESERVATION, RelayMessage.NO_LIMIT);
      BytesForm(2, PeerForm(m.peer.value));
      Single(b[0]);
    }
    if m.limit.Some? {
      NestedForms(RelayMessage.NO_PEER, RelayMessage.NO_RESERVATION, m.limit.value);
      BytesForm(3, LimitForm(m.limit.value));
      Single(c[0]);
    }
    if m.status.Some? {
      NumberForm(4, RelayMessage.StatusCode(m.status.value));
      Single(d[0]);
    }
  }

  // -------------------------------------------------------------------------- DCUtR and AutoNAT

  /** CONNECT is kind 100, SYNC kind 300; addresses are field 2. The frame limit is 4096 bytes. */
  lemma HolePunchForm(m: HolePunch.Message)
    ensures HolePunch.Encode(m)
         == (if m.kind.Connect? then [0x08, 100] else [0x08, 0xAC, 0x02]) + Fields(0x12, m.obsAddrs)
    ensures Dcutr.MAX_MESSAGE_SIZE == 4096
  {
    hide Protobuf.EncodeAll, Protobuf.EncodeRecord, Fields, Protobuf.Repeated;
    var kind := [Protobuf.VarintField(1, HolePunch.KindCode(m.kind))];
    Appended(kind, Protobuf.Repeated(2, m.obsAddrs));
    NumberForm(1, HolePunch.KindCode(m.kind));
    Single(kind[0]);
    Varints(HolePunch.KindCode(m.kind));
    RepeatedForm(2, m.obsAddrs);
  }

  const DIAL_STATUSES: seq<(AutonatMessage.Status, nat)> :=
    [(AutonatMessage.StatusOk, 0), (AutonatMessage.DialError, 100), (AutonatMessage.DialRefused, 101),
     (AutonatMessage.BadRequest, 200), (AutonatMessage.InternalError, 300)]

  lemma AutonatCodes(v: u64)
    ensures AutonatMessage.KindCode(AutonatMessage.DialKind) == 0
    ensures AutonatMessage.KindCode(AutonatMessage.DialResponseKind) == 1
    ensures AutonatMessage.KindOf(v) ==
            if v == 0 then Some(AutonatMessage.DialKind)
            else if v == 1 then Some(AutonatMessage.DialResponseKind) else None
    ensures forall i :: 0 <= i < 5 ==> AutonatMessage.StatusCode(DIAL_STATUSES[i].0) == DIAL_STATUSES[i].1
    ensures forall i :: 0 <= i < 5 && DIAL_STATUSES[i].1 == v ==> AutonatMessage.StatusOf(v) == DIAL_STATUSES[i].0
  {
  }

  function DialForm(d: AutonatMessage.Dial): Blob {
    if d.peer.Some? then Field(0x0A, Field(0x0A, d.peer.value.id) + Fields(0x12, d.peer.value.addrs)) else []
  }

  function DialResponseForm(r: AutonatMessage.DialResponse): Blob {
    Number(0x08, AutonatMessage.StatusCode(r.status)) + Maybe(0x12, r.statusText) + Fields(0x1A, r.addrs)
  }

  lemma DialForms(d: AutonatMessage.Dial, r: AutonatMessage.DialResponse)
    ensures Protobuf.EncodeAll(AutonatMessage.DialRecords(d)) == DialForm(d)
    ensures Protobuf.EncodeAll(AutonatMessage.ResponseRecords(r)) == DialResponseForm(r)
  {
    hide Protobuf.EncodeAll, Protobuf.EncodeRecord, Field, Fields, Maybe, Number, Protobuf.Repeated,
         Protobuf.OptionalBytes;
    NoRecords();
    if d.peer.Some? {
      var p := d.peer.value;
      Appended([Protobuf.BytesField(1, p.id)], Protobuf.Repeated(2, p.addrs));
      BytesForm(1, p.id);
      Single(Protobuf.BytesField(1, p.id));
      RepeatedForm(2, p.addrs);
      var body := Protobuf.EncodeAll(AutonatMessage.PeerInfoRecords(p));
      BytesForm(1, body);
      Single(Protobuf.BytesField(1, body));
    }
    var status := Protobuf.VarintField(1, AutonatMessage.StatusCode(r.status));
    var text, addrs := Protobuf.OptionalBytes(2, r.statusText), Protobuf.Repeated(3, r.addrs);
    Appended([status], text);
    Appended([status] + text, addrs);
    NumberForm(1, AutonatMessage.StatusCode(r.status));
    Single(status);
    OptionalForm(2, r.statusText);
    RepeatedForm(3, r.addrs);
  }

  /** AutoNAT: the kind is field 1, the dial field 2, its response field 3. */
  lemma AutonatForm(m: AutonatMessage.Message)
    ensures AutonatMessage.Encode(m) ==
            Number(0x08, AutonatMessage.KindCode(m.kind))
            + (if m.dial.Some? then Field(0x12, DialForm(m.dial.value)) else [])
            + (if m.dialResponse.Some? then Field(0x1A, DialResponseForm(m.dialResponse.value)) else [])
  {
    hide Protobuf.EncodeAll, Protobuf.EncodeRecord, Field, Number, DialForm, DialResponseForm,
         AutonatMessage.DialRecords, AutonatMessage.ResponseRecords;
    var records := AutonatMessage.Records(m);
    var kind := Protobuf.VarintField(1, AutonatMessage.KindCode(m.kind));
    var dial: seq<Protobuf.Record> :=
      if m.dial.Some?
      then [Protobuf.BytesField(2, Protobuf.EncodeAll(AutonatMessage.DialRecords(m.dial.value)))] else [];
    var answer: seq<Protobuf.Record> :=
      if m.dialResponse.Some?
      then [Protobuf.BytesField(3, Protobuf.EncodeAll(AutonatMessage.ResponseRecords(m.dialResponse.value)))] else [];
    Appended([kind], dial);
    Appended([kind] + dial, answer);
    NumberForm(1, AutonatMessage.KindCode(m.kind));
    Single(kind);
    NoRecords();
    if m.dial.Some? {
      DialForms(m.dial.value, AutonatMessage.NO_RESPONSE);
      BytesForm(2, DialForm(m.dial.value));
      Single(dial[0]);
    }
    if m.dialResponse.Some? {
      DialForms(AutonatMessage.Dial(None), m.dialResponse.value);
      BytesForm(3, DialResponseForm(m.dialResponse.value));
      Single(answer[0]);
    }
  }

  // --------------------------------------------------------------------------------- multiaddrs

  /** The multicodec of each component, as one or two varint bytes, and its value. */
  lemma MultiaddrForms(octets: Blob, name: Blob, port: nat, id: PeerIds.Id)
    requires port < 65536
    ensures Multiaddr.Write(Multiaddr.Ip4(octets)) == [0x04] + octets
    ensures Multiaddr.Write(Multiaddr.Ip6(octets)) == [0x29] + octets
    ensures Multiaddr.Write(Multiaddr.Dns(name)) == Field(0x35, name)
    ensures Multiaddr.Write(Multiaddr.Dns4(name)) == Field(0x36, name)
    ensures Multiaddr.Write(Multiaddr.Dns6(name)) == Field(0x37, name)
    ensures Multiaddr.Write(Multiaddr.Udp(port)) == [0x91, 0x02, port / 256, port % 256]
    ensures Multiaddr.Write(Multiaddr.QuicV1) == [0xCD, 0x03]
    ensures var bytes := PeerIds.ToBytes(id);
            Multiaddr.Write(Multiaddr.P2p(id)) == [0xA5, 0x03] + (Varint.Encode(|bytes|) + bytes)
  {
    hide PeerIds.ToBytes, Varint.Encode;
    Varints(0x04);
    Varints(0x29);
    Varints(0x35);
    Varints(0x36);
    Varints(0x37);
    Varints(0x0111);
    Varints(0x01CD);
    Varints(0x01A5);
    assert Multiaddr.Write(Multiaddr.QuicV1) == [0xCD, 0x03] + [];
  }

  lemma Names()
    ensures MultiaddrText.IP4 == Ascii("ip4") && MultiaddrText.IP6 == Ascii("ip6") && MultiaddrText.DNS == Ascii("dns")
    ensures MultiaddrText.DNS4 == Ascii("dns4") && MultiaddrText.DNS6 == Ascii("dns6")
    ensures MultiaddrText.UDP == Ascii("udp") && MultiaddrText.P2P == Ascii("p2p")
    ensures MultiaddrText.QUIC_V1 == Ascii("quic-v1")
  {
  }

  /** The printed form of each component: its name, and its value behind another slash. */
  lemma MultiaddrTexts(std: MultiaddrText.Std, octets: Blob, name: Blob, port: nat, id: PeerIds.Id)
    requires |octets| == 4
    ensures MultiaddrText.Segments(std, Multiaddr.Ip4(octets)) == [Ascii("ip4"), MultiaddrText.PrintIp4(octets)]
    ensures MultiaddrText.Segments(std, Multiaddr.Ip6(octets)) == [Ascii("ip6"), std.printIp6(octets)]
    ensures MultiaddrText.Segments(std, Multiaddr.Dns(name)) == [Ascii("dns"), name]
    ensures MultiaddrText.Segments(std, Multiaddr.Dns4(name)) == [Ascii("dns4"), name]
    ensures MultiaddrText.Segments(std, Multiaddr.Dns6(name)) == [Ascii("dns6"), name]
    ensures MultiaddrText.Segments(std, Multiaddr.Udp(port)) == [Ascii("udp"), MultiaddrText.Print(port)]
    ensures MultiaddrText.Segments(std, Multiaddr.QuicV1) == [Ascii("quic-v1")]
    ensures var text := MultiaddrText.LowBytes(PeerIds.Display(id));
            MultiaddrText.Segments(std, Multiaddr.P2p(id)) == [Ascii("p2p"), text]
  {
    hide Ascii, MultiaddrText.PrintIp4, MultiaddrText.Print, PeerIds.Display, MultiaddrText.LowBytes;
    Names();
  }

  /** An address in full. */
  lemma TextOfAddress(std: MultiaddrText.Std)
    ensures MultiaddrText.Display(std, [Multiaddr.Ip4([127, 0, 0, 1]), Multiaddr.Udp(4001), Multiaddr.QuicV1])
         == Ascii("/ip4/127.0.0.1/udp/4001/quic-v1")
  {
    hide MultiaddrText.Print, MultiaddrText.Joined, MultiaddrText.PrintIp4, Ascii;
    var addr := [Multiaddr.Ip4([127, 0, 0, 1]), Multiaddr.Udp(4001), Multiaddr.QuicV1];
    assert addr[1..] == [Multiaddr.Udp(4001), Multiaddr.QuicV1] && addr[1..][1..] == [Multiaddr.QuicV1];
    assert addr[1..][1..][1..] == [];
    var a, b := MultiaddrText.IP4, MultiaddrText.PrintIp4([127, 0, 0, 1]);
    var c, d, e := MultiaddrText.UDP, MultiaddrText.Print(4001), MultiaddrText.QUIC_V1;
    var none: seq<Blob> := [];
    assert MultiaddrText.AllSegments(std, [Multiaddr.QuicV1]) == [e] + none;
    assert MultiaddrText.AllSegments(std, addr[1..]) == [c, d] + ([e] + none);
    assert MultiaddrText.AllSegments(std, addr) == [a, b] + ([c, d] + ([e] + none));
    MultiaddrText.JoinedPair(a, b, [c, d] + ([e] + none));
    MultiaddrText.JoinedPair(c, d, [e] + none);
    JoinedLast(e);
    Spelled();
  }

  lemma JoinedLast(e: Blob)
    ensures MultiaddrText.Joined([e] + []) == [MultiaddrText.SLASH] + e
  {
    assert ([e] + [])[1..] == [];
  }

  lemma Spelled()
    ensures var slash := [MultiaddrText.SLASH];
            slash + MultiaddrText.IP4 + (slash + MultiaddrText.PrintIp4([127, 0, 0, 1])
              + (slash + MultiaddrText.UDP + (slash + MultiaddrText.Print(4001) + (slash + MultiaddrText.QUIC_V1))))
            == Ascii("/ip4/127.0.0.1/udp/4001/quic-v1")
  {
    hide MultiaddrText.Print, MultiaddrText.PrintIp4, Ascii;
    SpelledStart();
    SpelledPort();
    AsciiJoin("/ip4/127.0.0.1", "/udp/4001/quic-v1");
    assert "/ip4/127.0.0.1" + "/udp/4001/quic-v1" == "/ip4/127.0.0.1/udp/4001/quic-v1";
    var slash := [MultiaddrText.SLASH];
    var host := slash + MultiaddrText.PrintIp4([127, 0, 0, 1]);
    var port := slash + MultiaddrText.UDP + (slash + MultiaddrText.Print(4001) + (slash + MultiaddrText.QUIC_V1));
    assert slash + MultiaddrText.IP4 + (host + port) == (slash + MultiaddrText.IP4 + host) + port;
  }

  lemma SpelledPort()
    ensures var slash := [MultiaddrText.SLASH];
            slash + MultiaddrText.UDP + (slash + MultiaddrText.Print(4001) + (slash + MultiaddrText.QUIC_V1))
            == Ascii("/udp/4001/quic-v1")
  {
    hide MultiaddrText.Print;
    Decimals();
  }

  lemma SpelledStart()
    ensures var slash := [MultiaddrText.SLASH];
            slash + MultiaddrText.IP4 + (slash + MultiaddrText.PrintIp4([127, 0, 0, 1])) == Ascii("/ip4/127.0.0.1")
  {
    hide MultiaddrText.PrintIp4;
    SpelledHost();
  }

  lemma AsciiJoin(s: string, t: string)
    requires Plain(s) && Plain(t)
    ensures Plain(s + t) && Ascii(s + t) == Ascii(s) + Ascii(t)
  {
  }

  lemma SpelledHost()
    ensures MultiaddrText.PrintIp4([127, 0, 0, 1]) == Ascii("127.0.0.1")
  {
    hide MultiaddrText.Print;
    Decimals();
    var dot: Blob := [46];
    assert MultiaddrText.PrintIp4([127, 0, 0, 1])
        == Ascii("127") + dot + (Ascii("0") + dot + (Ascii("0") + dot + Ascii("1")));
  }

  lemma Decimals()
    ensures MultiaddrText.Print(127) == Ascii("127") && MultiaddrText.Print(0) == Ascii("0")
    ensures MultiaddrText.Print(1) == Ascii("1") && MultiaddrText.Print(4001) == Ascii("4001")
  {
    assert MultiaddrText.Print(1) == [49] && MultiaddrText.Print(12) == MultiaddrText.Print(1) + [50];
    assert MultiaddrText.Print(4) == [52] && MultiaddrText.Print(40) == MultiaddrText.Print(4) + [48];
    assert MultiaddrText.Print(400) == MultiaddrText.Print(40) + [48];
    assert MultiaddrText.Print(4001) == MultiaddrText.Print(400) + [49];
  }

  // ------------------------------------------------------------------------------------ peer ids

  const BITCOIN: string := "123456789" + "ABCDEFGHJKLMNPQRSTUVWXYZ" + "abcdefghijkmnopqrstuvwxyz"
  const RFC4648: string := "abcdefghijklmnopqrstuvwxyz234567"

  /** The base58 digits and their characters, both ways. */
  lemma Base58Alphabet(v: nat)
    requires v < 58
    ensures |BITCOIN| == 58 && Base58.CharOf(v) == BITCOIN[v] && Base58.DigitOf(BITCOIN[v]) == Some(v)
  {
    Base58.CharDigit(v);
    if v < 17 {
      BitcoinStart(v);
    } else if v < 33 {
      assert v in [17, 18, 19, 20, 21, 22, 23, 24, 25, 26, 27, 28, 29, 30, 31, 32];
    } else if v < 44 {
      assert v in [33, 34, 35, 36, 37, 38, 39, 40, 41, 42, 43];
    } else {
      assert v in [44, 45, 46, 47, 48, 49, 50, 51, 52, 53, 54, 55, 56, 57];
    }
  }

  lemma BitcoinStart(v: nat)
    requires v < 17
    ensures |BITCOIN| == 58 && Base58.CharOf(v) == BITCOIN[v]
  {
    assert v in [0, 1, 2, 3, 4, 5, 6, 7, 8, 9, 10, 11, 12, 13, 14, 15, 16];
  }

  /** The base32 digits, which are read without regard to case. */
  lemma Base32Alphabet(v: nat, c: char)
    requires v < 32
    ensures |RFC4648| == 32 && Base32.CharOf(v) == RFC4648[v] && Base32.DigitOf(RFC4648[v]) == Some(v)
    ensures 'A' <= c <= 'Z' ==> Base32.DigitOf(c) == Some(c as int - 'A' as int)
  {
    if v < 16 {
      assert v in [0, 1, 2, 3, 4, 5, 6, 7, 8, 9, 10, 11, 12, 13, 14, 15];
    } else {
      assert v in [16, 17, 18, 19, 20, 21, 22, 23, 24, 25, 26, 27, 28, 29, 30, 31];
    }
  }

  /** Keys of at most 42 bytes are kept under the identity code, longer ones hashed. */
  lemma KeyForms(key: Blob, sha256: PeerIds.Hash)
    ensures |key| <= 42 ==> PeerIds.ToBytes(PeerIds.FromKey(key, sha256)) == [0x00, |key|] + key
    ensures |key| > 42 ==> PeerIds.ToBytes(PeerIds.FromKey(key, sha256)) == [0x12, 0x20] + sha256(key)
  {
    hide PeerIds.ToBytes;
    if |key| <= 42 {
      ShortForm(0x00, key);
    } else {
      ShortForm(0x12, sha256(key));
    }
  }

  lemma ShortForm(code: nat, digest: Blob)
    requires code < 128 && |digest| < 128
    ensures PeerIds.ToBytes(PeerIds.Id(code, digest)) == [code, |digest|] + digest
  {
    hide Varint.Encode;
    Varints(code);
    Varints(|digest|);
  }

  /** A CID is version 1 of the libp2p-key codec in base32. */
  lemma CidForm(id: PeerIds.Id)
    ensures PeerIds.ToCid(id) == "b" + Base32.Encode([0x01, 0x72] + PeerIds.ToBytes(id))
  {
    hide Base32.Encode, Varint.Encode, PeerIds.ToBytes;
    Varints(1);
    Varints(0x72);
    assert PeerIds.CidBytes(id) == [0x01, 0x72] + PeerIds.ToBytes(id);
  }

  /** A digest has at most 64 bytes, and 32 under SHA-256. */
  lemma DigestSizes(id: PeerIds.Id)
    ensures PeerIds.Valid(id) <==> |id.digest| <= 64 && (id.code == 0x12 ==> |id.digest| == 32)
  {
  }
}

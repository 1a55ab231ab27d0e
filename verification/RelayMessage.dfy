/** Circuit Relay v2 messages (crates/relay/src/message.rs): Hop, Stop and the messages nested in
    them. */
module RelayMessage {
  import opened Bytes
  import opened Protobuf

  datatype Peer = Peer(id: Blob, addrs: seq<Blob>)
  datatype Reservation = Reservation(expire: Option<u64>, addrs: seq<Blob>, voucher: Option<Blob>)

  type u32 = v: int | 0 <= v < 0x1_0000_0000
  datatype Limit = Limit(duration: Option<u32>, data: Option<u64>)

  datatype HopKind = Reserve | HopConnect | HopStatus
  datatype StopKind = StopConnect | StopStatus

  datatype Status =
    | Unused | StatusOk | ReservationRefused | ResourceLimitExceeded | PermissionDenied
    | ConnectionFailed | NoReservation | MalformedMessage | UnexpectedMessage

  datatype Hop = Hop(
    kind: HopKind, peer: Option<Peer>, reservation: Option<Reservation>, limit: Option<Limit>,
    status: Option<Status>)

  datatype Stop = Stop(kind: StopKind, peer: Option<Peer>, limit: Option<Limit>, status: Option<Status>)

  // ------------------------------------------------------------------ enumerations

  function HopKindCode(k: HopKind): u64 {
    match k case Reserve => 0 case HopConnect => 1 case HopStatus => 2
  }

  function HopKindOf(v: u64): Option<HopKind> {
    if v == 0 then Some(Reserve) else if v == 1 then Some(HopConnect)
    else if v == 2 then Some(HopStatus) else None
  }

  function StopKindCode(k: StopKind): u64 {
    match k case StopConnect => 0 case StopStatus => 1
  }

  function StopKindOf(v: u64): Option<StopKind> {
    if v == 0 then Some(StopConnect) else if v == 1 then Some(StopStatus) else None
  }

  function StatusCode(s: Status): u64 {
    match s
    case Unused => 0
    case StatusOk => 100
    case ReservationRefused => 200
    case ResourceLimitExceeded => 201
    case PermissionDenied => 202
    case ConnectionFailed => 203
    case NoReservation => 204
    case MalformedMessage => 400
    case UnexpectedMessage => 401
  }

  /** Unknown codes read as `Unused`. */
  function StatusOf(v: u64): Status {
    if v == 100 then StatusOk
    else if v == 200 then ReservationRefused
    else if v == 201 then ResourceLimitExceeded
    else if v == 202 then PermissionDenied
    else if v == 203 then ConnectionFailed
    else if v == 204 then NoReservation
    else if v == 400 then MalformedMessage
    else if v == 401 then UnexpectedMessage
    else Unused
  }

  // --------------------------------------------------------------- nested messages

  function PeerRecords(p: Peer): seq<Record> {
    (if p.id == [] then [] else [BytesField(1, p.id)]) + Repeated(2, p.addrs)
  }

  function ReservationRecords(r: Reservation): seq<Record> {
    OptionalVarint(1, r.expire) + Repeated(2, r.addrs) + OptionalBytes(3, r.voucher)
  }

  function DurationField(duration: Option<u32>): seq<Record> {
    if duration.Some? then [VarintField(1, duration.value)] else []
  }

  function LimitRecords(l: Limit): seq<Record> {
    DurationField(l.duration) + OptionalVarint(2, l.data)
  }

  function ApplyPeer(p: Peer, rec: Record): Result<Peer, Error> {
    match rec
    case BytesField(1, data) => Ok(p.(id := data))
    case BytesField(2, data) => Ok(p.(addrs := p.addrs + [data]))
    case _ => Ok(p)
  }

  function ApplyReservation(r: Reservation, rec: Record): Result<Reservation, Error> {
    match rec
    case VarintField(1, value) => Ok(r.(expire := Some(value)))
    case BytesField(2, data) => Ok(r.(addrs := r.addrs + [data]))
    case BytesField(3, data) => Ok(r.(voucher := Some(data)))
    case _ => Ok(r)
  }

  /** `value as u32`. */
  function Low32(value: u64): (r: u32)
    ensures value < 0x1_0000_0000 ==> r == value
  {
    value % 0x1_0000_0000
  }

  /** The duration is truncated to 32 bits. */
  function ApplyLimit(l: Limit, rec: Record): Result<Limit, Error> {
    match rec
    case VarintField(1, value) => Ok(l.(duration := Some(Low32(value))))
    case VarintField(2, value) => Ok(l.(data := Some(value)))
    case _ => Ok(l)
  }

  const NO_PEER: Peer := Peer([], [])
  const NO_RESERVATION: Reservation := Reservation(None, [], None)
  const NO_LIMIT: Limit := Limit(None, None)

  function DecodePeer(s: Blob): Result<Peer, Error> { Walk(Lenient, s, NO_PEER, ApplyPeer) }
  function DecodeReservation(s: Blob): Result<Reservation, Error> { Walk(Lenient, s, NO_RESERVATION, ApplyReservation) }
  function DecodeLimit(s: Blob): Result<Limit, Error> { Walk(Lenient, s, NO_LIMIT, ApplyLimit) }

  predicate PeerKnown(rec: Record) {
    rec.BytesField? && 1 <= rec.field <= 2
  }

  predicate ReservationKnown(rec: Record) {
    (rec.VarintField? && rec.field == 1) || (rec.BytesField? && 2 <= rec.field <= 3)
  }

  predicate LimitKnown(rec: Record) {
    rec.VarintField? && 1 <= rec.field <= 2
  }

  // ------------------------------------------------------------- top-level messages

  function Nested<T>(field: nat, value: Option<T>, records: T -> seq<Record>): seq<Record> {
    if value.Some? then [BytesField(field, EncodeAll(records(value.value)))] else []
  }

  function StatusField(field: nat, status: Option<Status>): seq<Record> {
    if status.Some? then [VarintField(field, StatusCode(status.value))] else []
  }

  function HopRecords(m: Hop): seq<Record> {
    [VarintField(1, HopKindCode(m.kind))]
    + Nested(2, m.peer, PeerRecords)
    + Nested(3, m.reservation, ReservationRecords)
    + Nested(4, m.limit, LimitRecords)
    + StatusField(5, m.status)
  }

  function StopRecords(m: Stop): seq<Record> {
    [VarintField(1, StopKindCode(m.kind))]
    + Nested(2, m.peer, PeerRecords)
    + Nested(3, m.limit, LimitRecords)
    + StatusField(4, m.status)
  }

  function EncodeHop(m: Hop): Blob { EncodeAll(HopRecords(m)) }
  function EncodeStop(m: Stop): Blob { EncodeAll(StopRecords(m)) }

  datatype HopDraft = HopDraft(
    kind: Option<HopKind>, peer: Option<Peer>, reservation: Option<Reservation>, limit: Option<Limit>,
    status: Option<Status>)

  datatype StopDraft = StopDraft(
    kind: Option<StopKind>, peer: Option<Peer>, limit: Option<Limit>, status: Option<Status>)

  const NO_HOP: HopDraft := HopDraft(None, None, None, None, None)
  const NO_STOP: StopDraft := StopDraft(None, None, None, None)

  function ApplyHop(d: HopDraft, rec: Record): Result<HopDraft, Error> {
    match rec
    case VarintField(1, value) =>
      (match HopKindOf(value) case None => Err(InvalidType) case Some(k) => Ok(d.(kind := Some(k))))
    case BytesField(2, body) =>
      (match DecodePeer(body) case Err(e) => Err(e) case Ok(p) => Ok(d.(peer := Some(p))))
    case BytesField(3, body) =>
      (match DecodeReservation(body) case Err(e) => Err(e) case Ok(r) => Ok(d.(reservation := Some(r))))
    case BytesField(4, body) =>
      (match DecodeLimit(body) case Err(e) => Err(e) case Ok(l) => Ok(d.(limit := Some(l))))
    case VarintField(5, value) => Ok(d.(status := Some(StatusOf(value))))
    case _ => Ok(d)
  }

  function ApplyStop(d: StopDraft, rec: Record): Result<StopDraft, Error> {
    match rec
    case VarintField(1, value) =>
      (match StopKindOf(value) case None => Err(InvalidType) case Some(k) => Ok(d.(kind := Some(k))))
    case BytesField(2, body) =>
      (match DecodePeer(body) case Err(e) => Err(e) case Ok(p) => Ok(d.(peer := Some(p))))
    case BytesField(3, body) =>
      (match DecodeLimit(body) case Err(e) => Err(e) case Ok(l) => Ok(d.(limit := Some(l))))
    case VarintField(4, value) => Ok(d.(status := Some(StatusOf(value))))
    case _ => Ok(d)
  }

  function FinishHop(d: HopDraft): Result<Hop, Error> {
    if d.kind.None? then Err(MissingType)
    else Ok(Hop(d.kind.value, d.peer, d.reservation, d.limit, d.status))
  }

  function FinishStop(d: StopDraft): Result<Stop, Error> {
    if d.kind.None? then Err(MissingType) else Ok(Stop(d.kind.value, d.peer, d.limit, d.status))
  }

  function DecodeHop(s: Blob): Result<Hop, Error> {
    match Walk(Lenient, s, NO_HOP, ApplyHop) case Err(e) => Err(e) case Ok(d) => FinishHop(d)
  }

  function DecodeStop(s: Blob): Result<Stop, Error> {
    match Walk(Lenient, s, NO_STOP, ApplyStop) case Err(e) => Err(e) case Ok(d) => FinishStop(d)
  }

  predicate HopKnown(rec: Record) {
    (rec.VarintField? && (rec.field == 1 || rec.field == 5)) || (rec.BytesField? && 2 <= rec.field <= 4)
  }

  predicate StopKnown(rec: Record) {
    (rec.VarintField? && (rec.field == 1 || rec.field == 4)) || (rec.BytesField? && 2 <= rec.field <= 3)
  }

  // ------------------------------------------------------------------- round trips

  predicate Readable(records: seq<Record>) {
    forall i :: 0 <= i < |records| ==> WellFormed(Lenient, records[i])
  }

  /** Messages whose byte strings fit in memory, as those of the source always do. */
  predicate HopFits(m: Hop) {
    && Readable(HopRecords(m))
    && (m.peer.Some? ==> Readable(PeerRecords(m.peer.value)))
    && (m.reservation.Some? ==> Readable(ReservationRecords(m.reservation.value)))
    && (m.limit.Some? ==> Readable(LimitRecords(m.limit.value)))
  }

  predicate StopFits(m: Stop) {
    && Readable(StopRecords(m))
    && (m.peer.Some? ==> Readable(PeerRecords(m.peer.value)))
    && (m.limit.Some? ==> Readable(LimitRecords(m.limit.value)))
  }

  lemma {:induction false} FoldPeerAddrs(items: seq<Blob>, p: Peer)
    ensures Fold(Repeated(2, items), p, ApplyPeer) == Ok(p.(addrs := p.addrs + items))
    decreases |items|
  {
    if items == [] {
      assert p.addrs + items == p.addrs;
    } else {
      FoldPeerAddrs(items[1..], p.(addrs := p.addrs + [items[0]]));
      assert Repeated(2, items)[1..] == Repeated(2, items[1..]);
      assert p.addrs + [items[0]] + items[1..] == p.addrs + items;
    }
  }

  lemma {:induction false} FoldReservationAddrs(items: seq<Blob>, r: Reservation)
    ensures Fold(Repeated(2, items), r, ApplyReservation) == Ok(r.(addrs := r.addrs + items))
    decreases |items|
  {
    if items == [] {
      assert r.addrs + items == r.addrs;
    } else {
      FoldReservationAddrs(items[1..], r.(addrs := r.addrs + [items[0]]));
      assert Repeated(2, items)[1..] == Repeated(2, items[1..]);
      assert r.addrs + [items[0]] + items[1..] == r.addrs + items;
    }
  }

  /** A Peer survives with any unknown records mixed into its encoding. */
  lemma PeerRoundTrip(p: Peer, records: seq<Record>)
    requires Readable(records) && Strip(records, PeerKnown) == PeerRecords(p)
    ensures DecodePeer(EncodeAll(records)) == Ok(p)
  {
    WalkMixed(Lenient, records, NO_PEER, ApplyPeer, PeerKnown);
    var first := if p.id == [] then [] else [BytesField(1, p.id)];
    FoldAppend(first, Repeated(2, p.addrs), NO_PEER, ApplyPeer);
    FoldPeerAddrs(p.addrs, NO_PEER.(id := p.id));
    assert [] + p.addrs == p.addrs;
  }

  lemma ReservationRoundTrip(r: Reservation, records: seq<Record>)
    requires Readable(records) && Strip(records, ReservationKnown) == ReservationRecords(r)
    ensures DecodeReservation(EncodeAll(records)) == Ok(r)
  {
    WalkMixed(Lenient, records, NO_RESERVATION, ApplyReservation, ReservationKnown);
    var (a, b, c) := (OptionalVarint(1, r.expire), Repeated(2, r.addrs), OptionalBytes(3, r.voucher));
    FoldAppend(a + b, c, NO_RESERVATION, ApplyReservation);
    FoldAppend(a, b, NO_RESERVATION, ApplyReservation);
    var r1 := NO_RESERVATION.(expire := r.expire);
    FoldReservationAddrs(r.addrs, r1);
    assert [] + r.addrs == r.addrs;
  }

  lemma LimitRoundTrip(l: Limit, records: seq<Record>)
    requires Readable(records) && Strip(records, LimitKnown) == LimitRecords(l)
    ensures DecodeLimit(EncodeAll(records)) == Ok(l)
  {
    hide Low32, Walk, Strip, WellFormed, EncodeAll;
    WalkMixed(Lenient, records, NO_LIMIT, ApplyLimit, LimitKnown);
    var (a, b) := (DurationField(l.duration), OptionalVarint(2, l.data));
    FoldAppend(a, b, NO_LIMIT, ApplyLimit);
    var half := NO_LIMIT.(duration := l.duration);
    assert Fold(a, NO_LIMIT, ApplyLimit) == Ok(half);
    assert Fold(b, half, ApplyLimit) == Ok(l);
  }

  /** The records of the nested messages as some writer wrote them. */
  datatype Bodies = Bodies(peer: seq<Record>, reservation: seq<Record>, limit: seq<Record>)

  /** They are those of the nested messages, with unknown records mixed in. */
  predicate Writes(b: Bodies, peer: Option<Peer>, reservation: Option<Reservation>, limit: Option<Limit>) {
    && (peer.Some? ==> Readable(b.peer) && Strip(b.peer, PeerKnown) == PeerRecords(peer.value))
    && (reservation.Some? ==>
          Readable(b.reservation) && Strip(b.reservation, ReservationKnown) == ReservationRecords(reservation.value))
    && (limit.Some? ==> Readable(b.limit) && Strip(b.limit, LimitKnown) == LimitRecords(limit.value))
  }

  function Body(field: nat, present: bool, records: seq<Record>): seq<Record> {
    if present then [BytesField(field, EncodeAll(records))] else []
  }

  /** The records of a message around such nested messages. */
  function HopWritten(m: Hop, b: Bodies): seq<Record> {
    [VarintField(1, HopKindCode(m.kind))]
    + Body(2, m.peer.Some?, b.peer)
    + Body(3, m.reservation.Some?, b.reservation)
    + Body(4, m.limit.Some?, b.limit)
    + StatusField(5, m.status)
  }

  function StopWritten(m: Stop, b: Bodies): seq<Record> {
    [VarintField(1, StopKindCode(m.kind))]
    + Body(2, m.peer.Some?, b.peer)
    + Body(3, m.limit.Some?, b.limit)
    + StatusField(4, m.status)
  }

  lemma NestedRoundTrips(b: Bodies, peer: Option<Peer>, reservation: Option<Reservation>, limit: Option<Limit>)
    requires Writes(b, peer, reservation, limit)
    ensures peer.Some? ==> DecodePeer(EncodeAll(b.peer)) == Ok(peer.value)
    ensures reservation.Some? ==> DecodeReservation(EncodeAll(b.reservation)) == Ok(reservation.value)
    ensures limit.Some? ==> DecodeLimit(EncodeAll(b.limit)) == Ok(limit.value)
  {
    hide DecodePeer, DecodeReservation, DecodeLimit, EncodeAll, Strip, Readable;
    if peer.Some? {
      PeerRoundTrip(peer.value, b.peer);
    }
    if reservation.Some? {
      ReservationRoundTrip(reservation.value, b.reservation);
    }
    if limit.Some? {
      LimitRoundTrip(limit.value, b.limit);
    }
  }

  /** A Hop message decodes from any encoding of its records into which unknown records of the
      skippable wire types have been mixed, at the top and inside the nested messages. */
  lemma HopRoundTrip(m: Hop, b: Bodies, records: seq<Record>)
    requires Writes(b, m.peer, m.reservation, m.limit)
    requires Readable(records) && Strip(records, HopKnown) == HopWritten(m, b)
    ensures DecodeHop(EncodeAll(records)) == Ok(m)
  {
    hide DecodePeer, DecodeReservation, DecodeLimit, EncodeAll, WellFormed, Walk, Strip, Writes;
    WalkMixed(Lenient, records, NO_HOP, ApplyHop, HopKnown);
    NestedRoundTrips(b, m.peer, m.reservation, m.limit);
    var kind := [VarintField(1, HopKindCode(m.kind))];
    var peer, reservation := Body(2, m.peer.Some?, b.peer), Body(3, m.reservation.Some?, b.reservation);
    var limit, status := Body(4, m.limit.Some?, b.limit), StatusField(5, m.status);
    FoldAppend(kind + peer + reservation + limit, status, NO_HOP, ApplyHop);
    FoldAppend(kind + peer + reservation, limit, NO_HOP, ApplyHop);
    FoldAppend(kind + peer, reservation, NO_HOP, ApplyHop);
    FoldAppend(kind, peer, NO_HOP, ApplyHop);
    var d1 := NO_HOP.(kind := Some(m.kind));
    assert Fold(kind, NO_HOP, ApplyHop) == Ok(d1);
    var d2 := d1.(peer := m.peer);
    assert Fold(peer, d1, ApplyHop) == Ok(d2);
    var d3 := d2.(reservation := m.reservation);
    assert Fold(reservation, d2, ApplyHop) == Ok(d3);
    var d4 := d3.(limit := m.limit);
    assert Fold(limit, d3, ApplyHop) == Ok(d4);
    assert Fold(status, d4, ApplyHop) == Ok(d4.(status := m.status));
  }

  lemma StopRoundTrip(m: Stop, b: Bodies, records: seq<Record>)
    requires Writes(b, m.peer, None, m.limit)
    requires Readable(records) && Strip(records, StopKnown) == StopWritten(m, b)
    ensures DecodeStop(EncodeAll(records)) == Ok(m)
  {
    hide DecodePeer, DecodeLimit, EncodeAll, WellFormed, Walk, Strip, Writes;
    WalkMixed(Lenient, records, NO_STOP, ApplyStop, StopKnown);
    NestedRoundTrips(b, m.peer, None, m.limit);
    var kind := [VarintField(1, StopKindCode(m.kind))];
    var peer, limit, status := Body(2, m.peer.Some?, b.peer), Body(3, m.limit.Some?, b.limit), StatusField(4, m.status);
    FoldAppend(kind + peer + limit, status, NO_STOP, ApplyStop);
    FoldAppend(kind + peer, limit, NO_STOP, ApplyStop);
    FoldAppend(kind, peer, NO_STOP, ApplyStop);
    var d1 := NO_STOP.(kind := Some(m.kind));
    assert Fold(kind, NO_STOP, ApplyStop) == Ok(d1);
    var d2 := d1.(peer := m.peer);
    assert Fold(peer, d1, ApplyStop) == Ok(d2);
    var d3 := d2.(limit := m.limit);
    assert Fold(limit, d2, ApplyStop) == Ok(d3);
    assert Fold(status, d3, ApplyStop) == Ok(d3.(status := m.status));
  }

  /** The records of our own encoder. */
  function Plain(peer: Option<Peer>, reservation: Option<Reservation>, limit: Option<Limit>): Bodies {
    Bodies(if peer.Some? then PeerRecords(peer.value) else [],
           if reservation.Some? then ReservationRecords(reservation.value) else [],
           if limit.Some? then LimitRecords(limit.value) else [])
  }

  lemma PlainWrites(peer: Option<Peer>, reservation: Option<Reservation>, limit: Option<Limit>)
    requires peer.Some? ==> Readable(PeerRecords(peer.value))
    requires reservation.Some? ==> Readable(ReservationRecords(reservation.value))
    requires limit.Some? ==> Readable(LimitRecords(limit.value))
    ensures Writes(Plain(peer, reservation, limit), peer, reservation, limit)
  {
    hide Readable, Strip;
    if peer.Some? {
      StripAll(PeerRecords(peer.value), PeerKnown);
    }
    if reservation.Some? {
      StripAll(ReservationRecords(reservation.value), ReservationKnown);
    }
    if limit.Some? {
      StripAll(LimitRecords(limit.value), LimitKnown);
    }
  }

  lemma HopDecodesEncoded(m: Hop)
    requires HopFits(m)
    ensures DecodeHop(EncodeHop(m)) == Ok(m)
  {
    hide DecodeHop, WellFormed, EncodeAll, Writes, Strip;
    StripAll(HopRecords(m), HopKnown);
    PlainWrites(m.peer, m.reservation, m.limit);
    HopRoundTrip(m, Plain(m.peer, m.reservation, m.limit), HopRecords(m));
  }

  lemma StopDecodesEncoded(m: Stop)
    requires StopFits(m)
    ensures DecodeStop(EncodeStop(m)) == Ok(m)
  {
    hide DecodeStop, WellFormed, EncodeAll, Writes, Strip;
    StripAll(StopRecords(m), StopKnown);
    PlainWrites(m.peer, None, m.limit);
    StopRoundTrip(m, Plain(m.peer, None, m.limit), StopRecords(m));
  }
}

/** The nested AutoNAT messages (crates/autonat/src/lib.rs:167-190 and 560-733), read in the strict
    dialect. `String::from_utf8_lossy` is the identity on the valid text a peer writes; what it makes
    of invalid bytes is a parameter. */
module AutonatMessage {
  import opened Bytes
  import opened Protobuf
  import Utf8

  datatype Kind = DialKind | DialResponseKind

  datatype Status = StatusOk | DialError | DialRefused | BadRequest | InternalError

  datatype PeerInfo = PeerInfo(id: Blob, addrs: seq<Blob>)
  datatype Dial = Dial(peer: Option<PeerInfo>)
  datatype DialResponse = DialResponse(status: Status, statusText: Option<Blob>, addrs: seq<Blob>)
  datatype Message = Message(kind: Kind, dial: Option<Dial>, dialResponse: Option<DialResponse>)

  type Lossy = Blob -> Blob

  function LossyText(lossy: Lossy, s: Blob): Blob {
    if Utf8.Valid(s) then s else lossy(s)
  }

  function KindCode(k: Kind): u64 {
    if k.DialKind? then 0 else 1
  }

  function KindOf(v: u64): Option<Kind> {
    if v == 0 then Some(DialKind) else if v == 1 then Some(DialResponseKind) else None
  }

  function StatusCode(s: Status): u64 {
    match s
    case StatusOk => 0
    case DialError => 100
    case DialRefused => 101
    case BadRequest => 200
    case InternalError => 300
  }

  function StatusOf(v: u64): Status {
    if v == 0 then StatusOk
    else if v == 100 then DialError
    else if v == 101 then DialRefused
    else if v == 200 then BadRequest
    else InternalError
  }

  function PeerInfoRecords(p: PeerInfo): seq<Record> {
    [BytesField(1, p.id)] + Repeated(2, p.addrs)
  }

  function DialRecords(d: Dial): seq<Record> {
    if d.peer.Some? then [BytesField(1, EncodeAll(PeerInfoRecords(d.peer.value)))] else []
  }

  function ResponseRecords(r: DialResponse): seq<Record> {
    [VarintField(1, StatusCode(r.status))] + OptionalBytes(2, r.statusText) + Repeated(3, r.addrs)
  }

  function Records(m: Message): seq<Record> {
    [VarintField(1, KindCode(m.kind))]
    + (if m.dial.Some? then [BytesField(2, EncodeAll(DialRecords(m.dial.value)))] else [])
    + (if m.dialResponse.Some? then [BytesField(3, EncodeAll(ResponseRecords(m.dialResponse.value)))] else [])
  }

  function Encode(m: Message): Blob {
    EncodeAll(Records(m))
  }

  function ApplyPeerInfo(p: PeerInfo, rec: Record): Result<PeerInfo, Error> {
    match rec
    case BytesField(1, data) => Ok(p.(id := data))
    case BytesField(2, data) => Ok(p.(addrs := p.addrs + [data]))
    case _ => Ok(p)
  }

  function DecodePeerInfo(s: Blob): Result<PeerInfo, Error> {
    Walk(Strict, s, PeerInfo([], []), ApplyPeerInfo)
  }

  function ApplyDial(d: Dial, rec: Record): Result<Dial, Error> {
    match rec
    case BytesField(1, body) =>
      (match DecodePeerInfo(body) case Err(e) => Err(e) case Ok(p) => Ok(Dial(Some(p))))
    case _ => Ok(d)
  }

  function DecodeDial(s: Blob): Result<Dial, Error> {
    Walk(Strict, s, Dial(None), ApplyDial)
  }

  function ApplyResponse(lossy: Lossy): (DialResponse, Record) -> Result<DialResponse, Error> {
    (r: DialResponse, rec: Record) =>
      match rec
      case VarintField(1, value) => Ok(r.(status := StatusOf(value)))
      case BytesField(2, text) => Ok(r.(statusText := Some(LossyText(lossy, text))))
      case BytesField(3, data) => Ok(r.(addrs := r.addrs + [data]))
      case _ => Ok(r)
  }

  const NO_RESPONSE: DialResponse := DialResponse(InternalError, None, [])

  function DecodeResponse(lossy: Lossy, s: Blob): Result<DialResponse, Error> {
    Walk(Strict, s, NO_RESPONSE, ApplyResponse(lossy))
  }

  datatype Draft = Draft(kind: Option<Kind>, dial: Option<Dial>, dialResponse: Option<DialResponse>)

  function ApplyMessage(lossy: Lossy): (Draft, Record) -> Result<Draft, Error> {
    (d: Draft, rec: Record) =>
      match rec
      case VarintField(1, value) =>
        (match KindOf(value) case None => Err(InvalidType) case Some(k) => Ok(d.(kind := Some(k))))
      case BytesField(2, body) =>
        (match DecodeDial(body) case Err(e) => Err(e) case Ok(x) => Ok(d.(dial := Some(x))))
      case BytesField(3, body) =>
        (match DecodeResponse(lossy, body) case Err(e) => Err(e) case Ok(x) => Ok(d.(dialResponse := Some(x))))
      case _ => Ok(d)
  }

  const NO_MESSAGE: Draft := Draft(None, None, None)

  function Decode(lossy: Lossy, s: Blob): Result<Message, Error> {
    match Walk(Strict, s, NO_MESSAGE, ApplyMessage(lossy))
    case Err(e) => Err(e)
    case Ok(d) => if d.kind.None? then Err(MissingType) else Ok(Message(d.kind.value, d.dial, d.dialResponse))
  }

  // ------------------------------------------------------------------- round trips

  predicate Readable(records: seq<Record>) {
    forall i :: 0 <= i < |records| ==> WellFormed(Strict, records[i])
  }

  /** Byte strings that fit in memory, and a status text that is a Rust string. */
  predicate Fits(m: Message) {
    && Readable(Records(m))
    && (m.dial.Some? ==> DialFits(m.dial.value))
    && (m.dialResponse.Some? ==> ResponseFits(m.dialResponse.value))
  }

  predicate DialFits(d: Dial) {
    Readable(DialRecords(d)) && (d.peer.Some? ==> Readable(PeerInfoRecords(d.peer.value)))
  }

  predicate ResponseFits(r: DialResponse) {
    Readable(ResponseRecords(r)) && (r.statusText.Some? ==> Utf8.Valid(r.statusText.value))
  }

  lemma {:induction false} FoldPeerAddrs(items: seq<Blob>, p: PeerInfo)
    ensures Fold(Repeated(2, items), p, ApplyPeerInfo) == Ok(p.(addrs := p.addrs + items))
    decreases |items|
  {
    if items == [] {
      assert p.addrs + items == p.addrs;
    } else {
      FoldPeerAddrs(items[1..], p.(addrs := p.addrs + [items[0]]));
      assert Repeated(2, items)[1..] == Repeated(2, items[1..]);
      assert p.addrs + [items[0]] + items[1..] == p.addrs + items;
    }
  }

  lemma {:induction false} FoldResponseAddrs(lossy: Lossy, items: seq<Blob>, r: DialResponse)
    ensures Fold(Repeated(3, items), r, ApplyResponse(lossy)) == Ok(r.(addrs := r.addrs + items))
    decreases |items|
  {
    hide LossyText;
    if items == [] {
      assert r.addrs + items == r.addrs;
    } else {
      FoldResponseAddrs(lossy, items[1..], r.(addrs := r.addrs + [items[0]]));
      assert Repeated(3, items)[1..] == Repeated(3, items[1..]);
      assert r.addrs + [items[0]] + items[1..] == r.addrs + items;
    }
  }

  lemma DialRoundTrip(d: Dial)
    requires DialFits(d)
    ensures DecodeDial(EncodeAll(DialRecords(d))) == Ok(d)
  {
    hide WellFormed, EncodeAll, Walk;
    WalkAll(Strict, DialRecords(d), Dial(None), ApplyDial);
    if d.peer.Some? {
      var p := d.peer.value;
      var first, none := [BytesField(1, p.id)], PeerInfo([], []);
      WalkAll(Strict, PeerInfoRecords(p), none, ApplyPeerInfo);
      FoldAppend(first, Repeated(2, p.addrs), none, ApplyPeerInfo);
      assert Fold(first, none, ApplyPeerInfo) == Ok(PeerInfo(p.id, []));
      FoldPeerAddrs(p.addrs, PeerInfo(p.id, []));
      assert [] + p.addrs == p.addrs;
    }
  }

  lemma ResponseRoundTrip(lossy: Lossy, r: DialResponse)
    requires ResponseFits(r)
    ensures DecodeResponse(lossy, EncodeAll(ResponseRecords(r))) == Ok(r)
  {
    hide WellFormed, EncodeAll, Walk, Utf8.Valid;
    var apply := ApplyResponse(lossy);
    WalkAll(Strict, ResponseRecords(r), NO_RESPONSE, apply);
    var (a, b, c) := ([VarintField(1, StatusCode(r.status))], OptionalBytes(2, r.statusText), Repeated(3, r.addrs));
    FoldAppend(a + b, c, NO_RESPONSE, apply);
    FoldAppend(a, b, NO_RESPONSE, apply);
    var ra := NO_RESPONSE.(status := r.status);
    assert Fold(a, NO_RESPONSE, apply) == Ok(ra);
    var rb := ra.(statusText := r.statusText);
    assert Fold(b, ra, apply) == Ok(rb);
    FoldResponseAddrs(lossy, r.addrs, rb);
    assert [] + r.addrs == r.addrs;
  }

  /** Every AutoNAT message decodes from its encoding. */
  lemma RoundTrip(lossy: Lossy, m: Message)
    requires Fits(m)
    ensures Decode(lossy, Encode(m)) == Ok(m)
  {
    hide WellFormed, EncodeAll, Walk, Utf8.Valid, DecodeDial, DecodeResponse, DialRecords, ResponseRecords;
    var apply := ApplyMessage(lossy);
    WalkAll(Strict, Records(m), NO_MESSAGE, apply);
    if m.dial.Some? { DialRoundTrip(m.dial.value); }
    if m.dialResponse.Some? { ResponseRoundTrip(lossy, m.dialResponse.value); }
    var a := [VarintField(1, KindCode(m.kind))];
    var b := if m.dial.Some? then [BytesField(2, EncodeAll(DialRecords(m.dial.value)))] else [];
    var c := if m.dialResponse.Some? then [BytesField(3, EncodeAll(ResponseRecords(m.dialResponse.value)))] else [];
    FoldAppend(a + b, c, NO_MESSAGE, apply);
    FoldAppend(a, b, NO_MESSAGE, apply);
    var da := NO_MESSAGE.(kind := Some(m.kind));
    assert Fold(a, NO_MESSAGE, apply) == Ok(da);
    var db := da.(dial := m.dial);
    assert Fold(b, da, apply) == Ok(db);
    assert Fold(c, db, apply) == Ok(db.(dialResponse := m.dialResponse));
  }
}

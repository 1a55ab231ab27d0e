/** The Identify message (crates/identify/src/message.rs:52-225). */
module IdentifyMessage {
  import opened Bytes
  import opened Protobuf
  import Utf8

  datatype Info = Info(
    publicKey: Option<Blob>, listenAddrs: seq<Blob>, protocols: seq<Blob>, observedAddr: Option<Blob>,
    protocolVersion: Option<Blob>, agentVersion: Option<Blob>)

  const EMPTY: Info := Info(None, [], [], None, None, None)

  function Records(m: Info): seq<Record> {
    OptionalBytes(1, m.publicKey) + Repeated(2, m.listenAddrs) + Repeated(3, m.protocols)
    + OptionalBytes(4, m.observedAddr) + OptionalBytes(5, m.protocolVersion) + OptionalBytes(6, m.agentVersion)
  }

  function Encode(m: Info): Blob {
    EncodeAll(Records(m))
  }

  function Apply(m: Info, rec: Record): Result<Info, Error> {
    match rec
    case BytesField(1, data) => Ok(m.(publicKey := Some(data)))
    case BytesField(2, data) => Ok(m.(listenAddrs := m.listenAddrs + [data]))
    case BytesField(3, data) =>
      if Utf8.Valid(data) then Ok(m.(protocols := m.protocols + [data])) else Err(InvalidUtf8)
    case BytesField(4, data) => Ok(m.(observedAddr := Some(data)))
    case BytesField(5, data) =>
      if Utf8.Valid(data) then Ok(m.(protocolVersion := Some(data))) else Err(InvalidUtf8)
    case BytesField(6, data) =>
      if Utf8.Valid(data) then Ok(m.(agentVersion := Some(data))) else Err(InvalidUtf8)
    case _ => Ok(m)
  }

  function Decode(s: Blob): Result<Info, Error> {
    Walk(Lenient, s, EMPTY, Apply)
  }

  predicate Known(rec: Record) {
    rec.BytesField? && 1 <= rec.field <= 6
  }

  predicate Readable(records: seq<Record>) {
    forall i :: 0 <= i < |records| ==> WellFormed(Lenient, records[i])
  }

  /** The string fields of the source hold UTF-8. */
  predicate Textual(m: Info) {
    && (forall i :: 0 <= i < |m.protocols| ==> Utf8.Valid(m.protocols[i]))
    && (m.protocolVersion.Some? ==> Utf8.Valid(m.protocolVersion.value))
    && (m.agentVersion.Some? ==> Utf8.Valid(m.agentVersion.value))
  }

  lemma {:induction false} FoldListenAddrs(items: seq<Blob>, m: Info)
    ensures Fold(Repeated(2, items), m, Apply) == Ok(m.(listenAddrs := m.listenAddrs + items))
    decreases |items|
  {
    if items == [] {
      assert m.listenAddrs + items == m.listenAddrs;
    } else {
      FoldListenAddrs(items[1..], m.(listenAddrs := m.listenAddrs + [items[0]]));
      assert Repeated(2, items)[1..] == Repeated(2, items[1..]);
      assert m.listenAddrs + [items[0]] + items[1..] == m.listenAddrs + items;
    }
  }

  lemma {:induction false} FoldProtocols(items: seq<Blob>, m: Info)
    requires forall i :: 0 <= i < |items| ==> Utf8.Valid(items[i])
    ensures Fold(Repeated(3, items), m, Apply) == Ok(m.(protocols := m.protocols + items))
    decreases |items|
  {
    hide Utf8.Valid;
    if items == [] {
      assert m.protocols + items == m.protocols;
    } else {
      FoldProtocols(items[1..], m.(protocols := m.protocols + [items[0]]));
      assert Repeated(3, items)[1..] == Repeated(3, items[1..]);
      assert m.protocols + [items[0]] + items[1..] == m.protocols + items;
    }
  }

  lemma FoldKey(key: Option<Blob>, m: Info)
    requires m.publicKey.None?
    ensures Fold(OptionalBytes(1, key), m, Apply) == Ok(m.(publicKey := key))
  {
  }

  lemma FoldObserved(addr: Option<Blob>, m: Info)
    requires m.observedAddr.None?
    ensures Fold(OptionalBytes(4, addr), m, Apply) == Ok(m.(observedAddr := addr))
  {
  }

  lemma FoldVersions(protocol: Option<Blob>, agent: Option<Blob>, m: Info)
    requires m.protocolVersion.None? && m.agentVersion.None?
    requires protocol.Some? ==> Utf8.Valid(protocol.value)
    requires agent.Some? ==> Utf8.Valid(agent.value)
    ensures Fold(OptionalBytes(5, protocol), m, Apply) == Ok(m.(protocolVersion := protocol))
    ensures Fold(OptionalBytes(6, agent), m.(protocolVersion := protocol), Apply)
         == Ok(m.(protocolVersion := protocol, agentVersion := agent))
  {
    hide Utf8.Valid;
  }

  /** A message decodes from any encoding of its records with unknown records mixed in. */
  lemma RoundTrip(m: Info, records: seq<Record>)
    requires Textual(m) && Readable(records) && Strip(records, Known) == Records(m)
    ensures Decode(EncodeAll(records)) == Ok(m)
  {
    hide WellFormed, EncodeAll, Walk, Strip, Utf8.Valid, Fold, OptionalBytes, Repeated;
    WalkMixed(Lenient, records, EMPTY, Apply, Known);
    var (a, b, c) := (OptionalBytes(1, m.publicKey), Repeated(2, m.listenAddrs), Repeated(3, m.protocols));
    var d, e := OptionalBytes(4, m.observedAddr), OptionalBytes(5, m.protocolVersion);
    var f := OptionalBytes(6, m.agentVersion);
    FoldAppend(a + b + c + d + e, f, EMPTY, Apply);
    FoldAppend(a + b + c + d, e, EMPTY, Apply);
    FoldAppend(a + b + c, d, EMPTY, Apply);
    FoldAppend(a + b, c, EMPTY, Apply);
    FoldAppend(a, b, EMPTY, Apply);
    var ma := EMPTY.(publicKey := m.publicKey);
    FoldKey(m.publicKey, EMPTY);
    FoldListenAddrs(m.listenAddrs, ma);
    assert [] + m.listenAddrs == m.listenAddrs;
    var mb := ma.(listenAddrs := m.listenAddrs);
    FoldProtocols(m.protocols, mb);
    assert [] + m.protocols == m.protocols;
    var mc := mb.(protocols := m.protocols);
    FoldObserved(m.observedAddr, mc);
    FoldVersions(m.protocolVersion, m.agentVersion, mc.(observedAddr := m.observedAddr));
  }

  lemma RecordsKnown(m: Info)
    ensures forall i :: 0 <= i < |Records(m)| ==> Known(Records(m)[i])
  {
  }

  lemma DecodesEncoded(m: Info)
    requires Textual(m) && Readable(Records(m))
    ensures Decode(Encode(m)) == Ok(m)
  {
    hide WellFormed, EncodeAll, Decode, Textual, Records, Known;
    RecordsKnown(m);
    StripAll(Records(m), Known);
    RoundTrip(m, Records(m));
  }
}

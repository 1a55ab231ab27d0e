/** The DCUtR `HolePunch` message (crates/dcutr/src/message.rs:38-178). */
module HolePunch {
  import opened Bytes
  import opened Protobuf

  datatype Kind = Connect | Sync

  datatype Message = Message(kind: Kind, obsAddrs: seq<Blob>)

  function KindCode(k: Kind): u64 {
    if k.Connect? then 100 else 300
  }

  function KindOf(v: u64): Option<Kind> {
    if v == 100 then Some(Connect) else if v == 300 then Some(Sync) else None
  }

  function Records(m: Message): seq<Record> {
    [VarintField(1, KindCode(m.kind))] + Repeated(2, m.obsAddrs)
  }

  function Encode(m: Message): Blob {
    EncodeAll(Records(m))
  }

  datatype Draft = Draft(kind: Option<Kind>, obsAddrs: seq<Blob>)

  function Apply(d: Draft, rec: Record): Result<Draft, Error> {
    match rec
    case VarintField(1, value) =>
      (match KindOf(value) case None => Err(InvalidType) case Some(k) => Ok(d.(kind := Some(k))))
    case BytesField(2, data) => Ok(d.(obsAddrs := d.obsAddrs + [data]))
    case _ => Ok(d)
  }

  function Decode(s: Blob): Result<Message, Error> {
    match Walk(Lenient, s, Draft(None, []), Apply)
    case Err(e) => Err(e)
    case Ok(d) => if d.kind.None? then Err(MissingType) else Ok(Message(d.kind.value, d.obsAddrs))
  }

  predicate Known(rec: Record) {
    (rec.VarintField? && rec.field == 1) || (rec.BytesField? && rec.field == 2)
  }

  predicate Readable(records: seq<Record>) {
    forall i :: 0 <= i < |records| ==> WellFormed(Lenient, records[i])
  }

  lemma {:induction false} FoldAddrs(items: seq<Blob>, d: Draft)
    ensures Fold(Repeated(2, items), d, Apply) == Ok(d.(obsAddrs := d.obsAddrs + items))
    decreases |items|
  {
    if items == [] {
      assert d.obsAddrs + items == d.obsAddrs;
    } else {
      FoldAddrs(items[1..], d.(obsAddrs := d.obsAddrs + [items[0]]));
      assert Repeated(2, items)[1..] == Repeated(2, items[1..]);
      assert d.obsAddrs + [items[0]] + items[1..] == d.obsAddrs + items;
    }
  }

  /** A message decodes from any encoding of its records with unknown records mixed in. */
  lemma RoundTrip(m: Message, records: seq<Record>)
    requires Readable(records) && Strip(records, Known) == Records(m)
    ensures Decode(EncodeAll(records)) == Ok(m)
  {
    hide WellFormed, EncodeAll, Walk, Strip;
    var start, first := Draft(None, []), [VarintField(1, KindCode(m.kind))];
    WalkMixed(Lenient, records, start, Apply, Known);
    FoldAppend(first, Repeated(2, m.obsAddrs), start, Apply);
    assert Fold(first, start, Apply) == Ok(Draft(Some(m.kind), []));
    FoldAddrs(m.obsAddrs, Draft(Some(m.kind), []));
    assert [] + m.obsAddrs == m.obsAddrs;
  }

  lemma DecodesEncoded(m: Message)
    requires Readable(Records(m))
    ensures Decode(Encode(m)) == Ok(m)
  {
    hide WellFormed, EncodeAll, Decode;
    StripAll(Records(m), Known);
    RoundTrip(m, Records(m));
  }
}

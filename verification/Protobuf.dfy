/** The protobuf record layer under the hand-written codecs (crates/relay/src/message.rs:196-320,
    crates/dcutr/src/message.rs:108-204, crates/identify/src/message.rs:137-262,
    crates/autonat/src/lib.rs:748-795). Errors are compared by kind. */
module Protobuf {
  import opened Bytes
  import Varint

  // Every decoder is the same loop: read a record, fold it into the message being built.

  datatype Record =
    | VarintField(field: nat, value: u64)
    | Fixed64Field(field: nat, data: Blob)
    | BytesField(field: nat, data: Blob)
    | Fixed32Field(field: nat, data: Blob)

  datatype Error =
    | BadVarint(cause: Varint.Error)
    | FieldOverflow
    | UnsupportedWireType
    | MissingType
    | InvalidType
    | InvalidUtf8

  /** Which records a decoder can step over: AutoNAT refuses the fixed-width wire types and field
      number zero, the others accept both. */
  datatype Dialect = Lenient | Strict

  function WireType(rec: Record): nat {
    match rec
    case VarintField(_, _) => 0
    case Fixed64Field(_, _) => 1
    case BytesField(_, _) => 2
    case Fixed32Field(_, _) => 5
  }

  /** A record that some writer could have produced canonically and the dialect can read. */
  predicate WellFormed(d: Dialect, rec: Record) {
    && rec.field * 8 + 8 <= TWO_64
    && (rec.Fixed64Field? ==> d.Lenient? && |rec.data| == 8)
    && (rec.Fixed32Field? ==> d.Lenient? && |rec.data| == 4)
    && (rec.BytesField? ==> |rec.data| < TWO_64)
    && (d.Strict? ==> rec.field > 0)
  }

  function EncodeRecord(rec: Record): (s: Blob)
    ensures s != []
  {
    var tag := Varint.Encode(rec.field * 8 + WireType(rec));
    match rec
    case VarintField(_, value) => tag + Varint.Encode(value)
    case BytesField(_, data) => tag + (Varint.Encode(|data|) + data)
    case Fixed64Field(_, data) => tag + data
    case Fixed32Field(_, data) => tag + data
  }

  function EncodeAll(records: seq<Record>): Blob {
    if records == [] then [] else EncodeRecord(records[0]) + EncodeAll(records[1..])
  }

  /** `read_len_delimited` at the front of `s`. */
  function ReadBytes(s: Blob): (r: Result<(Blob, nat), Error>)
    ensures r.Ok? ==> r.value.1 <= |s|
  {
    match Varint.Read(s)
    case Err(e) => Err(BadVarint(e))
    case Ok((length, used)) =>
      assert used <= |s| by { Varint.ReadIffEncoded(s, length, used); }
      if length > |s| - used then Err(FieldOverflow) else Ok((s[used..used + length], used + length))
  }

  /** The record at the front of `s` and its length. */
  function ReadRecord(d: Dialect, s: Blob): (r: Result<(Record, nat), Error>)
    ensures r.Ok? ==> 0 < r.value.1 <= |s|
  {
    match Varint.Read(s)
    case Err(e) => Err(BadVarint(e))
    case Ok((tag, used)) =>
      assert 0 < used <= |s| by { Varint.ReadIffEncoded(s, tag, used); }
      ReadValue(d, tag / 8, tag % 8, s[used..], used)
  }

  function ReadValue(d: Dialect, field: nat, wire: nat, rest: Blob, used: nat): (r: Result<(Record, nat), Error>)
    ensures r.Ok? ==> used <= r.value.1 <= used + |rest|
  {
    if d.Strict? && field == 0 then Err(UnsupportedWireType)
    else if wire == 0 then
      match Varint.Read(rest)
      case Err(e) => Err(BadVarint(e))
      case Ok((value, n)) =>
        assert n <= |rest| by { Varint.ReadIffEncoded(rest, value, n); }
        Ok((VarintField(field, value), used + n))
    else if wire == 2 then
      match ReadBytes(rest)
      case Err(e) => Err(e)
      case Ok((data, n)) => Ok((BytesField(field, data), used + n))
    else if wire == 1 && d.Lenient? then
      if |rest| < 8 then Err(FieldOverflow) else Ok((Fixed64Field(field, rest[..8]), used + 8))
    else if wire == 5 && d.Lenient? then
      if |rest| < 4 then Err(FieldOverflow) else Ok((Fixed32Field(field, rest[..4]), used + 4))
    else Err(UnsupportedWireType)
  }

  /** The decoding loop: what remains of the input is folded into `acc` record by record. */
  function Walk<S>(d: Dialect, s: Blob, acc: S, apply: (S, Record) -> Result<S, Error>): Result<S, Error>
    decreases |s|
  {
    if s == [] then Ok(acc)
    else
      match ReadRecord(d, s)
      case Err(e) => Err(e)
      case Ok((rec, n)) =>
        match apply(acc, rec)
        case Err(e) => Err(e)
        case Ok(next) => Walk(d, s[n..], next, apply)
  }

  function Fold<S>(records: seq<Record>, acc: S, apply: (S, Record) -> Result<S, Error>): Result<S, Error> {
    if records == [] then Ok(acc)
    else
      match apply(acc, records[0])
      case Err(e) => Err(e)
      case Ok(next) => Fold(records[1..], next, apply)
  }

  /** The loop as the source runs it, with an index into the input. */
  method DecodeLoop<S>(d: Dialect, input: Blob, init: S, apply: (S, Record) -> Result<S, Error>)
    returns (r: Result<S, Error>)
    ensures r == Walk(d, input, init, apply)
  {
    hide ReadRecord;
    var acc, idx := init, 0;
    while idx < |input|
      invariant 0 <= idx <= |input|
      invariant Walk(d, input[idx..], acc, apply) == Walk(d, input, init, apply)
    {
      match ReadRecord(d, input[idx..]) {
        case Err(e) => return Err(e);
        case Ok((rec, n)) =>
          match apply(acc, rec) {
            case Err(e) => return Err(e);
            case Ok(next) =>
              assert input[idx..][n..] == input[idx + n..];
              acc, idx := next, idx + n;
          }
      }
    }
    return Ok(acc);
  }

  // ------------------------------------------------------------------- round trip

  lemma ReadBytesEncoded(data: Blob, rest: Blob)
    requires |data| < TWO_64
    ensures ReadBytes((Varint.Encode(|data|) + data) + rest) == Ok((data, |Varint.Encode(|data|) + data|))
  {
    var prefix := Varint.Encode(|data|);
    var s := (prefix + data) + rest;
    assert s == prefix + (data + rest);
    Varint.ReadEncoded(|data|, data + rest);
    assert s[|prefix|..|prefix| + |data|] == data;
  }

  lemma ReadEncoded(d: Dialect, rec: Record, rest: Blob)
    requires WellFormed(d, rec)
    ensures ReadRecord(d, EncodeRecord(rec) + rest) == Ok((rec, |EncodeRecord(rec)|))
  {
    hide Varint.Read, Varint.Encode, ReadBytes;
    var code := rec.field * 8 + WireType(rec);
    var tag := Varint.Encode(code);
    var body := EncodeRecord(rec)[|tag|..];
    assert EncodeRecord(rec) == tag + body;
    assert EncodeRecord(rec) + rest == tag + (body + rest);
    Varint.ReadEncoded(code, body + rest);
    assert (tag + (body + rest))[|tag|..] == body + rest;
    assert code / 8 == rec.field && code % 8 == WireType(rec);
    match rec {
      case VarintField(_, value) => Varint.ReadEncoded(value, rest);
      case BytesField(_, data) => ReadBytesEncoded(data, rest);
      case _ => assert (body + rest)[..|body|] == body;
    }
  }

  /** Encoded records followed by anything are folded in before the rest is looked at. */
  lemma {:induction false} WalkEncoded<S>(
    d: Dialect, records: seq<Record>, rest: Blob, acc: S, apply: (S, Record) -> Result<S, Error>)
    requires forall i :: 0 <= i < |records| ==> WellFormed(d, records[i])
    ensures Walk(d, EncodeAll(records) + rest, acc, apply) ==
            match Fold(records, acc, apply)
            case Err(e) => Err(e)
            case Ok(next) => Walk(d, rest, next, apply)
  {
    hide ReadRecord, EncodeRecord, WellFormed;
    if records == [] {
      assert EncodeAll(records) + rest == rest;
    } else {
      var head, tail := EncodeRecord(records[0]), EncodeAll(records[1..]);
      var s := EncodeAll(records) + rest;
      assert s == head + (tail + rest);
      ReadEncoded(d, records[0], tail + rest);
      assert s[|head|..] == tail + rest;
      if apply(acc, records[0]).Ok? {
        WalkEncoded(d, records[1..], rest, apply(acc, records[0]).value, apply);
      }
    }
  }

  lemma WalkAll<S>(d: Dialect, records: seq<Record>, acc: S, apply: (S, Record) -> Result<S, Error>)
    requires forall i :: 0 <= i < |records| ==> WellFormed(d, records[i])
    ensures Walk(d, EncodeAll(records), acc, apply) == Fold(records, acc, apply)
  {
    hide ReadRecord, EncodeAll, WellFormed;
    WalkEncoded(d, records, [], acc, apply);
    assert EncodeAll(records) + [] == EncodeAll(records);
  }

  /** The records a message type knows about, unknown ones left out. */
  function Strip(records: seq<Record>, known: Record -> bool): seq<Record> {
    if records == [] then []
    else (if known(records[0]) then [records[0]] else []) + Strip(records[1..], known)
  }

  lemma {:induction false} FoldAppend<S>(
    a: seq<Record>, b: seq<Record>, acc: S, apply: (S, Record) -> Result<S, Error>)
    ensures Fold(a + b, acc, apply) ==
            match Fold(a, acc, apply)
            case Err(e) => Err(e)
            case Ok(next) => Fold(b, next, apply)
  {
    if a == [] {
      assert a + b == b;
    } else {
      assert (a + b)[1..] == a[1..] + b;
      if apply(acc, a[0]).Ok? {
        FoldAppend(a[1..], b, apply(acc, a[0]).value, apply);
      }
    }
  }

  /** A decoder that ignores unknown records folds a message as if they were not there. */
  lemma {:induction false} FoldStripped<S(!new)>(
    records: seq<Record>, acc: S, apply: (S, Record) -> Result<S, Error>, known: Record -> bool)
    requires forall a: S, rec :: !known(rec) ==> apply(a, rec) == Ok(a)
    ensures Fold(records, acc, apply) == Fold(Strip(records, known), acc, apply)
    decreases |records|
  {
    if records != [] {
      var rest := Strip(records[1..], known);
      if known(records[0]) {
        assert Strip(records, known)[1..] == rest;
      } else {
        assert Strip(records, known) == rest;
      }
      if apply(acc, records[0]).Ok? {
        FoldStripped(records[1..], apply(acc, records[0]).value, apply, known);
      }
    }
  }

  /** Forward compatibility: however a writer mixes unknown records among the known ones, decoding
      yields the fold of the known ones. */
  lemma WalkMixed<S(!new)>(
    d: Dialect, records: seq<Record>, acc: S, apply: (S, Record) -> Result<S, Error>, known: Record -> bool)
    requires forall i :: 0 <= i < |records| ==> WellFormed(d, records[i])
    requires forall a: S, rec :: !known(rec) ==> apply(a, rec) == Ok(a)
    ensures Walk(d, EncodeAll(records), acc, apply) == Fold(Strip(records, known), acc, apply)
  {
    WalkAll(d, records, acc, apply);
    FoldStripped(records, acc, apply, known);
  }

  /** One `BytesField` record per item. */
  function Repeated(field: nat, items: seq<Blob>): (r: seq<Record>)
    ensures |r| == |items| && forall i :: 0 <= i < |r| ==> r[i] == BytesField(field, items[i])
  {
    seq(|items|, i requires 0 <= i < |items| => BytesField(field, items[i]))
  }

  function OptionalBytes(field: nat, value: Option<Blob>): seq<Record> {
    if value.Some? then [BytesField(field, value.value)] else []
  }

  function OptionalVarint(field: nat, value: Option<u64>): seq<Record> {
    if value.Some? then [VarintField(field, value.value)] else []
  }

  lemma StripAll(records: seq<Record>, known: Record -> bool)
    requires forall i :: 0 <= i < |records| ==> known(records[i])
    ensures Strip(records, known) == records
  {
    if records != [] {
      StripAll(records[1..], known);
    }
  }
}

/** What byte strings mean as protobuf messages (crates/relay/src/message.rs:230-631,
    crates/dcutr/src/message.rs:84-204, crates/identify/src/message.rs:96-225). A string decodes exactly if
    it is the encoding of some list of well-formed records whose known fields are acceptable, and the message
    is then told by those records: the last of each single field, all of each repeated one in order, and
    nothing of the rest. */
module MessageMeaning {
  import opened Bytes
  import opened Protobuf
  import A = AutonatMessage
  import HolePunch
  import IdentifyMessage
  import R = RelayMessage
  import Utf8
  import Varint

  // --------------------------------------------------------------------------- records

  predicate AllWellFormed(d: Dialect, records: seq<Record>) {
    forall i :: 0 <= i < |records| ==> WellFormed(d, records[i])
  }

  lemma TagWhole(tag: u64)
    ensures tag / 8 * 8 + tag % 8 == tag && tag / 8 * 8 + 8 <= TWO_64
  {
  }

  lemma BytesAt(s: Blob, data: Blob, n: nat)
    requires ReadBytes(s) == Ok((data, n))
    ensures |data| < TWO_64 && n <= |s| && s[..n] == Varint.Encode(|data|) + data
  {
    hide Varint.Encode, Varint.Len, Varint.Read;
    var Ok((length, used)) := Varint.Read(s);
    NumberAt(s, length, used);
    SliceJoin(s, used, n);
  }

  lemma SliceJoin(s: Blob, i: nat, j: nat)
    requires i <= j <= |s|
    ensures s[..i] + s[i..j] == s[..j]
  {
  }

  lemma NumberAt(s: Blob, value: u64, n: nat)
    requires Varint.Read(s) == Ok((value, n))
    ensures n <= |s| && s[..n] == Varint.Encode(value)
  {
    Varint.ReadIffEncoded(s, value, n);
  }

  /** A record is read exactly where the encoding of a well-formed record stands. */
  lemma RecordIff(d: Dialect, s: Blob, rec: Record, n: nat)
    ensures ReadRecord(d, s) == Ok((rec, n)) <==>
              WellFormed(d, rec) && n == |EncodeRecord(rec)| && EncodeRecord(rec) <= s
  {
    if WellFormed(d, rec) && n == |EncodeRecord(rec)| && EncodeRecord(rec) <= s {
      ReadEncoded(d, rec, s[n..]);
      assert s == EncodeRecord(rec) + s[n..];
    }
    if ReadRecord(d, s) == Ok((rec, n)) {
      RecordAt(d, s, rec, n);
    }
  }

  lemma RecordAt(d: Dialect, s: Blob, rec: Record, n: nat)
    requires ReadRecord(d, s) == Ok((rec, n))
    ensures WellFormed(d, rec) && n == |EncodeRecord(rec)| && EncodeRecord(rec) <= s
  {
    hide Varint.Encode, Varint.Len, Varint.Read, ReadValue;
    var Ok((tag, used)) := Varint.Read(s);
    NumberAt(s, tag, used);
    TagWhole(tag);
    var rest := s[used..];
    ValueAt(d, tag / 8, tag % 8, rest, used, rec, n);
    assert s[..n] == s[..used] + rest[..n - used];
  }

  /** What a value looks like behind its tag. */
  function Carried(rec: Record): Blob {
    match rec
    case VarintField(_, value) => Varint.Encode(value)
    case BytesField(_, data) => Varint.Encode(|data|) + data
    case Fixed64Field(_, data) => data
    case Fixed32Field(_, data) => data
  }

  lemma ValueAt(d: Dialect, field: nat, wire: nat, rest: Blob, used: nat, rec: Record, n: nat)
    requires ReadValue(d, field, wire, rest, used) == Ok((rec, n)) && field * 8 + 8 <= TWO_64
    ensures used <= n <= used + |rest| && rest[..n - used] == Carried(rec)
    ensures WellFormed(d, rec) && rec.field == field && WireType(rec) == wire
  {
    hide Varint.Encode, Varint.Len, Varint.Read, ReadBytes;
    if rec.VarintField? {
      NumberAt(rest, rec.value, n - used);
    } else if rec.BytesField? {
      BytesAt(rest, rec.data, n - used);
    }
  }

  /** The records a string is made of. */
  function Parsed(d: Dialect, s: Blob): Option<seq<Record>>
    decreases |s|
  {
    if s == [] then Some([])
    else if ReadRecord(d, s).Err? then None
    else
      var (rec, n) := ReadRecord(d, s).value;
      var rest := Parsed(d, s[n..]);
      if rest.None? then None else Some([rec] + rest.value)
  }

  lemma {:induction false} ParsedIff(d: Dialect, s: Blob, records: seq<Record>)
    ensures Parsed(d, s) == Some(records) <==> AllWellFormed(d, records) && EncodeAll(records) == s
    decreases |s|
  {
    hide ReadRecord, EncodeRecord, WellFormed;
    if Parsed(d, s) == Some(records) && s != [] {
      var (rec, n) := ReadRecord(d, s).value;
      RecordIff(d, s, rec, n);
      ParsedIff(d, s[n..], records[1..]);
      assert s == s[..n] + s[n..];
    }
    if AllWellFormed(d, records) && EncodeAll(records) == s && records != [] {
      var rec, rest := records[0], EncodeAll(records[1..]);
      ReadEncoded(d, rec, rest);
      assert s[|EncodeRecord(rec)|..] == rest;
      ParsedIff(d, rest, records[1..]);
      assert [rec] + records[1..] == records;
    }
  }

  /** The decoding loop works through the records of the string, and fails if it has none. */
  lemma {:induction false} WalkIs<S>(d: Dialect, s: Blob, acc: S, apply: (S, Record) -> Result<S, Error>)
    ensures if Parsed(d, s).Some? then Walk(d, s, acc, apply) == Fold(Parsed(d, s).value, acc, apply)
            else Walk(d, s, acc, apply).Err?
    decreases |s|
  {
    hide ReadRecord;
    if s != [] && ReadRecord(d, s).Ok? {
      var (rec, n) := ReadRecord(d, s).value;
      ReadBounds(d, s);
      if apply(acc, rec).Ok? {
        WalkIs(d, s[n..], apply(acc, rec).value, apply);
      }
      if Parsed(d, s).Some? {
        assert Parsed(d, s).value[1..] == Parsed(d, s[n..]).value;
      }
    }
  }

  lemma ReadBounds(d: Dialect, s: Blob)
    requires ReadRecord(d, s).Ok?
    ensures 0 < ReadRecord(d, s).value.1 <= |s|
  {
  }

  // ---------------------------------------------------------------------------- fields

  /** The last value of a field that occurs once. */
  function Last(records: seq<Record>, field: nat): Option<Blob> {
    if records == [] then None
    else
      var later := Last(records[1..], field);
      if later.Some? then later
      else if records[0].BytesField? && records[0].field == field then Some(records[0].data)
      else None
  }

  function LastNumber(records: seq<Record>, field: nat): Option<u64> {
    if records == [] then None
    else
      var later := LastNumber(records[1..], field);
      if later.Some? then later
      else if records[0].VarintField? && records[0].field == field then Some(records[0].value)
      else None
  }

  /** All values of a field that may be repeated, in order. */
  function All(records: seq<Record>, field: nat): seq<Blob> {
    if records == [] then []
    else
      (if records[0].BytesField? && records[0].field == field then [records[0].data] else [])
      + All(records[1..], field)
  }

  /** What a record in front adds to a field. */
  lemma FieldFirst(rec: Record, rest: seq<Record>, field: nat)
    ensures Last([rec] + rest, field) == Or(Last(rest, field), Own(rec, field))
    ensures LastNumber([rec] + rest, field) == Or(LastNumber(rest, field), OwnNumber(rec, field))
    ensures All([rec] + rest, field)
         == (if Own(rec, field).Some? then [Own(rec, field).value] else []) + All(rest, field)
  {
    assert ([rec] + rest)[1..] == rest;
  }

  lemma AppendFirst(before: seq<Blob>, rec: Record, rest: seq<Record>, field: nat)
    ensures before + All([rec] + rest, field)
         == (if Own(rec, field).Some? then before + [Own(rec, field).value] else before) + All(rest, field)
  {
    hide All;
    FieldFirst(rec, rest, field);
    if Own(rec, field).Some? {
      var own := [Own(rec, field).value];
      assert before + (own + All(rest, field)) == (before + own) + All(rest, field);
    } else {
      assert [] + All(rest, field) == All(rest, field);
    }
  }

  /** The value a record has for a field. */
  function Own(rec: Record, field: nat): Option<Blob> {
    if rec.BytesField? && rec.field == field then Some(rec.data) else None
  }

  function OwnNumber(rec: Record, field: nat): Option<u64> {
    if rec.VarintField? && rec.field == field then Some(rec.value) else None
  }

  function Or<T>(a: Option<T>, b: Option<T>): Option<T> {
    if a.Some? then a else b
  }

  // ------------------------------------------------------------------------- meaning of loops

  /** `apply` takes exactly the acceptable records, and `over` tells what a list of them amounts to. */
  ghost predicate Orderly<S(!new)>(apply: (S, Record) -> Result<S, Error>, ok: Record -> bool,
                                   over: (S, seq<Record>) -> S)
  {
    && (forall a: S :: over(a, []) == a)
    && (forall a: S, rec :: apply(a, rec).Ok? <==> ok(rec))
    && (forall a: S, rec, rest ::
          ok(rec) && AllOk(rest, ok) ==> over(a, [rec] + rest) == over(apply(a, rec).value, rest))
  }

  predicate AllOk(records: seq<Record>, ok: Record -> bool) {
    forall i :: 0 <= i < |records| ==> ok(records[i])
  }

  lemma {:induction false} FoldIs<S(!new)>(records: seq<Record>, acc: S, apply: (S, Record) -> Result<S, Error>,
                                           ok: Record -> bool, over: (S, seq<Record>) -> S)
    requires Orderly(apply, ok, over)
    ensures if AllOk(records, ok) then Fold(records, acc, apply) == Ok(over(acc, records))
            else Fold(records, acc, apply).Err?
    decreases |records|
  {
    if records != [] {
      var rec, rest := records[0], records[1..];
      assert records == [rec] + rest;
      assert AllOk(records, ok) <==> ok(rec) && AllOk(rest, ok) by { AllOkFirst(rec, rest, ok); }
      if ok(rec) {
        FoldIs(rest, apply(acc, rec).value, apply, ok, over);
      }
    }
  }

  lemma AllOkFirst(rec: Record, rest: seq<Record>, ok: Record -> bool)
    ensures AllOk([rec] + rest, ok) <==> ok(rec) && AllOk(rest, ok)
  {
    var all := [rec] + rest;
    assert all[0] == rec && forall i :: 0 <= i < |rest| ==> all[i + 1] == rest[i];
  }

  /** These records are what the string is made of, all of them acceptable. */
  predicate Spells(d: Dialect, s: Blob, records: seq<Record>, ok: Record -> bool) {
    AllWellFormed(d, records) && EncodeAll(records) == s && AllOk(records, ok)
  }

  /** A string decodes to what some acceptable records that spell it amount to, and to nothing else. */
  lemma WalkMeans<S(!new)>(d: Dialect, s: Blob, acc: S, apply: (S, Record) -> Result<S, Error>, ok: Record -> bool,
                           over: (S, seq<Record>) -> S, m: S)
    requires Orderly(apply, ok, over)
    ensures Walk(d, s, acc, apply) == Ok(m) <==> exists records :: Spells(d, s, records, ok) && m == over(acc, records)
  {
    hide Walk, Parsed, EncodeAll, AllWellFormed, Fold, AllOk, Orderly;
    WalkIs(d, s, acc, apply);
    if Parsed(d, s).Some? {
      var records := Parsed(d, s).value;
      ParsedIff(d, s, records);
      FoldIs(records, acc, apply, ok, over);
    }
    forall records | AllWellFormed(d, records) && EncodeAll(records) == s
      ensures Parsed(d, s) == Some(records)
    {
      ParsedIff(d, s, records);
    }
  }

  // -------------------------------------------------------------------------- identify

  predicate Text(rec: Record) {
    rec.BytesField? && (rec.field == 3 || rec.field == 5 || rec.field == 6) ==> Utf8.Valid(rec.data)
  }

  /** Fields of `m` stand unless the records give later ones. */
  function InfoOver(m: IdentifyMessage.Info, records: seq<Record>): IdentifyMessage.Info {
    IdentifyMessage.Info(
      publicKey := Or(Last(records, 1), m.publicKey), listenAddrs := m.listenAddrs + All(records, 2),
      protocols := m.protocols + All(records, 3), observedAddr := Or(Last(records, 4), m.observedAddr),
      protocolVersion := Or(Last(records, 5), m.protocolVersion),
      agentVersion := Or(Last(records, 6), m.agentVersion))
  }

  lemma InfoFirst(m: IdentifyMessage.Info, rec: Record, rest: seq<Record>)
    ensures IdentifyMessage.Apply(m, rec).Ok? <==> Text(rec)
    ensures Text(rec) ==> InfoOver(m, [rec] + rest) == InfoOver(IdentifyMessage.Apply(m, rec).value, rest)
  {
    hide Utf8.Valid, Last, All;
    FieldFirst(rec, rest, 1);
    FieldFirst(rec, rest, 4);
    FieldFirst(rec, rest, 5);
    FieldFirst(rec, rest, 6);
    AppendFirst(m.listenAddrs, rec, rest, 2);
    AppendFirst(m.protocols, rec, rest, 3);
  }

  /** A string is an Identify message exactly if it is made of well-formed records whose texts are UTF-8. */
  lemma IdentifyMeans(s: Blob, m: IdentifyMessage.Info)
    ensures IdentifyMessage.Decode(s) == Ok(m) <==>
              exists records ::
                && Spells(Lenient, s, records, Text)
                && m.publicKey == Last(records, 1) && m.listenAddrs == All(records, 2)
                && m.protocols == All(records, 3) && m.observedAddr == Last(records, 4)
                && m.protocolVersion == Last(records, 5) && m.agentVersion == Last(records, 6)
  {
    hide Spells, Last, All, Walk, IdentifyMessage.Apply, Text;
    assert Orderly(IdentifyMessage.Apply, Text, InfoOver) by { InfoOrderly(); }
    WalkMeans(Lenient, s, IdentifyMessage.EMPTY, IdentifyMessage.Apply, Text, InfoOver, m);
    forall records: seq<Record>
      ensures InfoOver(IdentifyMessage.EMPTY, records).listenAddrs == All(records, 2)
      ensures InfoOver(IdentifyMessage.EMPTY, records).protocols == All(records, 3)
    {
      assert [] + All(records, 2) == All(records, 2) && [] + All(records, 3) == All(records, 3);
    }
  }

  lemma InfoOrderly()
    ensures Orderly(IdentifyMessage.Apply, Text, InfoOver)
  {
    hide IdentifyMessage.Apply, Text, InfoOver;
    var apply, ok, over := IdentifyMessage.Apply, Text, InfoOver;
    forall m: IdentifyMessage.Info
      ensures over(m, []) == m
    {
      InfoAlone(m);
    }
    forall m: IdentifyMessage.Info, rec
      ensures apply(m, rec).Ok? <==> ok(rec)
    {
      InfoFirst(m, rec, []);
    }
    forall m: IdentifyMessage.Info, rec, rest | ok(rec)
      ensures apply(m, rec).Ok? && over(m, [rec] + rest) == over(apply(m, rec).value, rest)
    {
      InfoFirst(m, rec, rest);
    }
  }

  lemma InfoAlone(m: IdentifyMessage.Info)
    ensures InfoOver(m, []) == m
  {
  }

  // ------------------------------------------------------------------------ hole punching

  predicate PunchOk(rec: Record) {
    rec.VarintField? && rec.field == 1 ==> rec.value == 100 || rec.value == 300
  }

  function PunchKind(v: Option<u64>): Option<HolePunch.Kind> {
    if v.None? then None else if v.value == 100 then Some(HolePunch.Connect) else Some(HolePunch.Sync)
  }

  function PunchOver(m: HolePunch.Draft, records: seq<Record>): HolePunch.Draft {
    HolePunch.Draft(Or(PunchKind(LastNumber(records, 1)), m.kind), m.obsAddrs + All(records, 2))
  }

  lemma PunchFirst(m: HolePunch.Draft, rec: Record, rest: seq<Record>)
    ensures HolePunch.Apply(m, rec).Ok? <==> PunchOk(rec)
    ensures PunchOk(rec) ==> PunchOver(m, [rec] + rest) == PunchOver(HolePunch.Apply(m, rec).value, rest)
  {
    hide LastNumber, All;
    FieldFirst(rec, rest, 1);
    AppendFirst(m.obsAddrs, rec, rest, 2);
  }

  lemma PunchOrderly()
    ensures Orderly(HolePunch.Apply, PunchOk, PunchOver)
  {
    hide HolePunch.Apply, PunchOk, PunchOver;
    var apply, ok, over := HolePunch.Apply, PunchOk, PunchOver;
    forall m: HolePunch.Draft
      ensures over(m, []) == m
    {
      PunchAlone(m);
    }
    forall m: HolePunch.Draft, rec
      ensures apply(m, rec).Ok? <==> ok(rec)
    {
      PunchFirst(m, rec, []);
    }
    forall m: HolePunch.Draft, rec, rest | ok(rec)
      ensures apply(m, rec).Ok? && over(m, [rec] + rest) == over(apply(m, rec).value, rest)
    {
      PunchFirst(m, rec, rest);
    }
  }

  lemma PunchAlone(m: HolePunch.Draft)
    ensures PunchOver(m, []) == m
  {
  }

  /** A string is a HolePunch message exactly if it is made of well-formed records, has a type, and all
      types in it are CONNECT or SYNC. */
  lemma HolePunchMeans(s: Blob, m: HolePunch.Message)
    ensures HolePunch.Decode(s) == Ok(m) <==>
              exists records ::
                && Spells(Lenient, s, records, PunchOk)
                && LastNumber(records, 1) == Some(if m.kind.Connect? then 100 else 300)
                && m.obsAddrs == All(records, 2)
  {
    hide Spells, Last, All, Walk, HolePunch.Apply, Orderly, LastNumber;
    PunchOrderly();
    var start := HolePunch.Draft(None, []);
    WalkMeans(Lenient, s, start, HolePunch.Apply, PunchOk, PunchOver, HolePunch.Draft(Some(m.kind), m.obsAddrs));
    forall records | Spells(Lenient, s, records, PunchOk)
      ensures PunchOver(start, records).obsAddrs == All(records, 2)
      ensures LastNumber(records, 1).Some? ==>
                LastNumber(records, 1) == Some(100) || LastNumber(records, 1) == Some(300)
    {
      assert [] + All(records, 2) == All(records, 2);
      PunchLast(records) by { SpellsOk(Lenient, s, records, PunchOk); }
    }
  }

  lemma SpellsOk(d: Dialect, s: Blob, records: seq<Record>, ok: Record -> bool)
    requires Spells(d, s, records, ok)
    ensures AllOk(records, ok)
  {
  }

  lemma {:induction false} PunchLast(records: seq<Record>)
    requires AllOk(records, PunchOk)
    ensures LastNumber(records, 1).Some? ==> LastNumber(records, 1) == Some(100) || LastNumber(records, 1) == Some(300)
  {
    if records != [] {
      assert PunchOk(records[0]);
      PunchLast(records[1..]);
    }
  }

  // --------------------------------------------------------------------- parts of relay messages

  predicate Any(rec: Record) {
    true
  }

  function PeerOver(m: R.Peer, records: seq<Record>): R.Peer {
    R.Peer(if Last(records, 1).Some? then Last(records, 1).value else m.id, m.addrs + All(records, 2))
  }

  lemma PeerFirst(m: R.Peer, rec: Record, rest: seq<Record>)
    ensures R.ApplyPeer(m, rec).Ok?
    ensures PeerOver(m, [rec] + rest) == PeerOver(R.ApplyPeer(m, rec).value, rest)
  {
    hide Last, All;
    FieldFirst(rec, rest, 1);
    AppendFirst(m.addrs, rec, rest, 2);
  }

  lemma PeerOrderly()
    ensures Orderly(R.ApplyPeer, Any, PeerOver)
  {
    hide R.ApplyPeer, PeerOver;
    var apply, ok, over := R.ApplyPeer, Any, PeerOver;
    forall m: R.Peer
      ensures over(m, []) == m
    {
      PeerAlone(m);
    }
    forall m: R.Peer, rec
      ensures apply(m, rec).Ok? <==> ok(rec)
    {
      PeerFirst(m, rec, []);
    }
    forall m: R.Peer, rec, rest | ok(rec)
      ensures apply(m, rec).Ok? && over(m, [rec] + rest) == over(apply(m, rec).value, rest)
    {
      PeerFirst(m, rec, rest);
    }
  }

  lemma PeerAlone(m: R.Peer)
    ensures PeerOver(m, []) == m
  {
  }

  lemma PeerMeans(s: Blob, m: R.Peer)
    ensures R.DecodePeer(s) == Ok(m) <==>
              exists records ::
                && Spells(Lenient, s, records, Any) && m.addrs == All(records, 2)
                && m.id == (if Last(records, 1).Some? then Last(records, 1).value else [])
  {
    hide Spells, Last, All, Walk, R.ApplyPeer, Orderly;
    PeerOrderly();
    WalkMeans(Lenient, s, R.NO_PEER, R.ApplyPeer, Any, PeerOver, m);
    forall records: seq<Record>
      ensures PeerOver(R.NO_PEER, records).addrs == All(records, 2)
    {
      assert [] + All(records, 2) == All(records, 2);
    }
  }

  function ReservationOver(m: R.Reservation, records: seq<Record>): R.Reservation {
    R.Reservation(expire := Or(LastNumber(records, 1), m.expire), addrs := m.addrs + All(records, 2),
                  voucher := Or(Last(records, 3), m.voucher))
  }

  lemma ReservationFirst(m: R.Reservation, rec: Record, rest: seq<Record>)
    ensures R.ApplyReservation(m, rec).Ok?
    ensures ReservationOver(m, [rec] + rest) == ReservationOver(R.ApplyReservation(m, rec).value, rest)
  {
    hide Last, All, LastNumber;
    FieldFirst(rec, rest, 1);
    AppendFirst(m.addrs, rec, rest, 2);
    FieldFirst(rec, rest, 3);
  }

  lemma ReservationOrderly()
    ensures Orderly(R.ApplyReservation, Any, ReservationOver)
  {
    hide R.ApplyReservation, ReservationOver;
    var apply, ok, over := R.ApplyReservation, Any, ReservationOver;
    forall m: R.Reservation
      ensures over(m, []) == m
    {
      ReservationAlone(m);
    }
    forall m: R.Reservation, rec
      ensures apply(m, rec).Ok? <==> ok(rec)
    {
      ReservationFirst(m, rec, []);
    }
    forall m: R.Reservation, rec, rest | ok(rec)
      ensures apply(m, rec).Ok? && over(m, [rec] + rest) == over(apply(m, rec).value, rest)
    {
      ReservationFirst(m, rec, rest);
    }
  }

  lemma ReservationAlone(m: R.Reservation)
    ensures ReservationOver(m, []) == m
  {
  }

  lemma ReservationMeans(s: Blob, m: R.Reservation)
    ensures R.DecodeReservation(s) == Ok(m) <==>
              exists records ::
                && Spells(Lenient, s, records, Any) && m.expire == LastNumber(records, 1)
                && m.addrs == All(records, 2) && m.voucher == Last(records, 3)
  {
    hide Spells, Last, All, Walk, R.ApplyReservation, Orderly, LastNumber;
    ReservationOrderly();
    WalkMeans(Lenient, s, R.NO_RESERVATION, R.ApplyReservation, Any, ReservationOver, m);
    forall records: seq<Record>
      ensures ReservationOver(R.NO_RESERVATION, records).addrs == All(records, 2)
    {
      assert [] + All(records, 2) == All(records, 2);
    }
  }

  /** A duration is kept modulo 2^32. */
  function Duration(v: Option<u64>): Option<R.u32> {
    if v.None? then None else Some(v.value % 0x1_0000_0000)
  }

  function LimitOver(m: R.Limit, records: seq<Record>): R.Limit {
    R.Limit(duration := Or(Duration(LastNumber(records, 1)), m.duration), data := Or(LastNumber(records, 2), m.data))
  }

  lemma LimitFirst(m: R.Limit, rec: Record, rest: seq<Record>)
    ensures R.ApplyLimit(m, rec).Ok?
    ensures LimitOver(m, [rec] + rest) == LimitOver(R.ApplyLimit(m, rec).value, rest)
  {
    hide LastNumber;
    FieldFirst(rec, rest, 1);
    FieldFirst(rec, rest, 2);
  }

  lemma LimitOrderly()
    ensures Orderly(R.ApplyLimit, Any, LimitOver)
  {
    hide R.ApplyLimit, LimitOver;
    var apply, ok, over := R.ApplyLimit, Any, LimitOver;
    forall m: R.Limit
      ensures over(m, []) == m
    {
      LimitAlone(m);
    }
    forall m: R.Limit, rec
      ensures apply(m, rec).Ok? <==> ok(rec)
    {
      LimitFirst(m, rec, []);
    }
    forall m: R.Limit, rec, rest | ok(rec)
      ensures apply(m, rec).Ok? && over(m, [rec] + rest) == over(apply(m, rec).value, rest)
    {
      LimitFirst(m, rec, rest);
    }
  }

  lemma LimitAlone(m: R.Limit)
    ensures LimitOver(m, []) == m
  {
  }

  lemma LimitMeans(s: Blob, m: R.Limit)
    ensures R.DecodeLimit(s) == Ok(m) <==>
              exists records ::
                && Spells(Lenient, s, records, Any) && m.duration == Duration(LastNumber(records, 1))
                && m.data == LastNumber(records, 2)
  {
    hide Spells, Walk, R.ApplyLimit, Orderly, LastNumber;
    LimitOrderly();
    WalkMeans(Lenient, s, R.NO_LIMIT, R.ApplyLimit, Any, LimitOver, m);
  }

  // -------------------------------------------------------------------------- relay messages

  function PeerIn(body: Option<Blob>): Option<R.Peer> {
    if body.Some? && R.DecodePeer(body.value).Ok? then Some(R.DecodePeer(body.value).value) else None
  }

  function ReservationIn(body: Option<Blob>): Option<R.Reservation> {
    if body.Some? && R.DecodeReservation(body.value).Ok? then Some(R.DecodeReservation(body.value).value) else None
  }

  function LimitIn(body: Option<Blob>): Option<R.Limit> {
    if body.Some? && R.DecodeLimit(body.value).Ok? then Some(R.DecodeLimit(body.value).value) else None
  }

  function StatusIn(v: Option<u64>): Option<R.Status> {
    if v.Some? then Some(R.StatusOf(v.value)) else None
  }

  function HopKindIn(v: Option<u64>): Option<R.HopKind> {
    if v.Some? then R.HopKindOf(v.value) else None
  }

  function StopKindIn(v: Option<u64>): Option<R.StopKind> {
    if v.Some? then R.StopKindOf(v.value) else None
  }

  /** Known types, and nested messages that decode. */
  predicate HopOk(rec: Record) {
    && (OwnNumber(rec, 1).Some? ==> HopKindIn(OwnNumber(rec, 1)).Some?)
    && (Own(rec, 2).Some? ==> PeerIn(Own(rec, 2)).Some?)
    && (Own(rec, 3).Some? ==> ReservationIn(Own(rec, 3)).Some?)
    && (Own(rec, 4).Some? ==> LimitIn(Own(rec, 4)).Some?)
  }

  predicate StopOk(rec: Record) {
    && (OwnNumber(rec, 1).Some? ==> StopKindIn(OwnNumber(rec, 1)).Some?)
    && (Own(rec, 2).Some? ==> PeerIn(Own(rec, 2)).Some?)
    && (Own(rec, 3).Some? ==> LimitIn(Own(rec, 3)).Some?)
  }

  function HopOver(m: R.HopDraft, records: seq<Record>): R.HopDraft {
    R.HopDraft(kind := Or(HopKindIn(LastNumber(records, 1)), m.kind), peer := Or(PeerIn(Last(records, 2)), m.peer),
               reservation := Or(ReservationIn(Last(records, 3)), m.reservation),
               limit := Or(LimitIn(Last(records, 4)), m.limit),
               status := Or(StatusIn(LastNumber(records, 5)), m.status))
  }

  function StopOver(m: R.StopDraft, records: seq<Record>): R.StopDraft {
    R.StopDraft(kind := Or(StopKindIn(LastNumber(records, 1)), m.kind), peer := Or(PeerIn(Last(records, 2)), m.peer),
                limit := Or(LimitIn(Last(records, 3)), m.limit),
                status := Or(StatusIn(LastNumber(records, 4)), m.status))
  }

  lemma {:induction false} LastAmong(records: seq<Record>, field: nat)
    ensures Last(records, field).Some? ==>
              exists i :: 0 <= i < |records| && Own(records[i], field) == Last(records, field)
    ensures LastNumber(records, field).Some? ==>
              exists i :: 0 <= i < |records| && OwnNumber(records[i], field) == LastNumber(records, field)
  {
    if records != [] {
      var rest := records[1..];
      LastAmong(rest, field);
      if Last(rest, field).Some? {
        var i :| 0 <= i < |rest| && Own(rest[i], field) == Last(rest, field);
        assert records[i + 1] == rest[i];
      } else if Last(records, field).Some? {
        assert Own(records[0], field) == Last(records, field);
      }
      if LastNumber(rest, field).Some? {
        var i :| 0 <= i < |rest| && OwnNumber(rest[i], field) == LastNumber(rest, field);
        assert records[i + 1] == rest[i];
      } else if LastNumber(records, field).Some? {
        assert OwnNumber(records[0], field) == LastNumber(records, field);
      }
    }
  }

  /** In an acceptable list the last value of each field is acceptable. */
  lemma HopLasts(records: seq<Record>)
    requires AllOk(records, HopOk)
    ensures LastNumber(records, 1).Some? ==> HopKindIn(LastNumber(records, 1)).Some?
    ensures Last(records, 2).Some? ==> PeerIn(Last(records, 2)).Some?
    ensures Last(records, 3).Some? ==> ReservationIn(Last(records, 3)).Some?
    ensures Last(records, 4).Some? ==> LimitIn(Last(records, 4)).Some?
  {
    hide Last, LastNumber, R.DecodePeer, R.DecodeReservation, R.DecodeLimit;
    LastAmong(records, 1);
    LastAmong(records, 2);
    LastAmong(records, 3);
    LastAmong(records, 4);
    assert forall i :: 0 <= i < |records| ==> HopOk(records[i]);
  }

  lemma StopLasts(records: seq<Record>)
    requires AllOk(records, StopOk)
    ensures LastNumber(records, 1).Some? ==> StopKindIn(LastNumber(records, 1)).Some?
    ensures Last(records, 2).Some? ==> PeerIn(Last(records, 2)).Some?
    ensures Last(records, 3).Some? ==> LimitIn(Last(records, 3)).Some?
  {
    hide Last, LastNumber, R.DecodePeer, R.DecodeLimit;
    LastAmong(records, 1);
    LastAmong(records, 2);
    LastAmong(records, 3);
    assert forall i :: 0 <= i < |records| ==> StopOk(records[i]);
  }

  lemma HopFirst(m: R.HopDraft, rec: Record, rest: seq<Record>)
    ensures R.ApplyHop(m, rec).Ok? <==> HopOk(rec)
    ensures HopOk(rec) && AllOk(rest, HopOk) ==> HopOver(m, [rec] + rest) == HopOver(R.ApplyHop(m, rec).value, rest)
  {
    hide Last, LastNumber, R.DecodePeer, R.DecodeReservation, R.DecodeLimit, AllOk, R.HopKindOf, R.StatusOf;
    if AllOk(rest, HopOk) {
      HopLasts(rest);
    }
    FieldFirst(rec, rest, 1);
    FieldFirst(rec, rest, 2);
    FieldFirst(rec, rest, 3);
    FieldFirst(rec, rest, 4);
    FieldFirst(rec, rest, 5);
  }

  lemma HopOrderly()
    ensures Orderly(R.ApplyHop, HopOk, HopOver)
  {
    hide R.ApplyHop, HopOk, HopOver;
    var apply, ok, over := R.ApplyHop, HopOk, HopOver;
    forall m: R.HopDraft
      ensures over(m, []) == m
    {
      HopAlone(m);
    }
    forall m: R.HopDraft, rec
      ensures apply(m, rec).Ok? <==> ok(rec)
    {
      HopFirst(m, rec, []);
    }
    forall m: R.HopDraft, rec, rest | ok(rec) && AllOk(rest, ok)
      ensures apply(m, rec).Ok? && over(m, [rec] + rest) == over(apply(m, rec).value, rest)
    {
      HopFirst(m, rec, rest);
    }
  }

  lemma HopAlone(m: R.HopDraft)
    ensures HopOver(m, []) == m
  {
  }

  /** A string is a Hop message exactly if it is made of well-formed records, has a type, all types in it
      are known and all nested messages in it decode; the last of each counts, and an unknown status reads
      as unused. */
  lemma HopMeans(s: Blob, m: R.Hop)
    ensures R.DecodeHop(s) == Ok(m) <==>
              exists records ::
                && Spells(Lenient, s, records, HopOk)
                && HopKindIn(LastNumber(records, 1)) == Some(m.kind) && m.peer == PeerIn(Last(records, 2))
                && m.reservation == ReservationIn(Last(records, 3)) && m.limit == LimitIn(Last(records, 4))
                && m.status == StatusIn(LastNumber(records, 5))
  {
    hide Spells, Last, Walk, R.ApplyHop, Orderly, LastNumber, HopOk, PeerIn, ReservationIn, LimitIn, StatusIn,
         HopKindIn;
    HopOrderly();
    var draft := R.HopDraft(Some(m.kind), m.peer, m.reservation, m.limit, m.status);
    WalkMeans(Lenient, s, R.NO_HOP, R.ApplyHop, HopOk, HopOver, draft);
    forall records: seq<Record>
      ensures HopOver(R.NO_HOP, records) == R.HopDraft(
                HopKindIn(LastNumber(records, 1)), PeerIn(Last(records, 2)), ReservationIn(Last(records, 3)),
                LimitIn(Last(records, 4)), StatusIn(LastNumber(records, 5)))
    {
    }
  }

  lemma StopFirst(m: R.StopDraft, rec: Record, rest: seq<Record>)
    ensures R.ApplyStop(m, rec).Ok? <==> StopOk(rec)
    ensures StopOk(rec) && AllOk(rest, StopOk) ==>
              StopOver(m, [rec] + rest) == StopOver(R.ApplyStop(m, rec).value, rest)
  {
    hide Last, LastNumber, R.DecodePeer, R.DecodeLimit, AllOk, R.StopKindOf, R.StatusOf;
    if AllOk(rest, StopOk) {
      StopLasts(rest);
    }
    FieldFirst(rec, rest, 1);
    FieldFirst(rec, rest, 2);
    FieldFirst(rec, rest, 3);
    FieldFirst(rec, rest, 4);
  }

  lemma StopOrderly()
    ensures Orderly(R.ApplyStop, StopOk, StopOver)
  {
    hide R.ApplyStop, StopOk, StopOver;
    var apply, ok, over := R.ApplyStop, StopOk, StopOver;
    forall m: R.StopDraft
      ensures over(m, []) == m
    {
      StopAlone(m);
    }
    forall m: R.StopDraft, rec
      ensures apply(m, rec).Ok? <==> ok(rec)
    {
      StopFirst(m, rec, []);
    }
    forall m: R.StopDraft, rec, rest | ok(rec) && AllOk(rest, ok)
      ensures apply(m, rec).Ok? && over(m, [rec] + rest) == over(apply(m, rec).value, rest)
    {
      StopFirst(m, rec, rest);
    }
  }

  lemma StopAlone(m: R.StopDraft)
    ensures StopOver(m, []) == m
  {
  }

  lemma StopMeans(s: Blob, m: R.Stop)
    ensures R.DecodeStop(s) == Ok(m) <==>
              exists records ::
                && Spells(Lenient, s, records, StopOk)
                && StopKindIn(LastNumber(records, 1)) == Some(m.kind) && m.peer == PeerIn(Last(records, 2))
                && m.limit == LimitIn(Last(records, 3)) && m.status == StatusIn(LastNumber(records, 4))
  {
    hide Spells, Last, Walk, R.ApplyStop, Orderly, LastNumber, StopOk, PeerIn, LimitIn, StatusIn, StopKindIn;
    StopOrderly();
    WalkMeans(Lenient, s, R.NO_STOP, R.ApplyStop, StopOk, StopOver,
              R.StopDraft(Some(m.kind), m.peer, m.limit, m.status));
    forall records: seq<Record>
      ensures StopOver(R.NO_STOP, records) == R.StopDraft(
                StopKindIn(LastNumber(records, 1)), PeerIn(Last(records, 2)), LimitIn(Last(records, 3)),
                StatusIn(LastNumber(records, 4)))
    {
    }
  }

  // ----------------------------------------------------------------------------------- AutoNAT

  function InfoPeerOver(m: A.PeerInfo, records: seq<Record>): A.PeerInfo {
    A.PeerInfo(if Last(records, 1).Some? then Last(records, 1).value else m.id, m.addrs + All(records, 2))
  }

  lemma InfoPeerFirst(m: A.PeerInfo, rec: Record, rest: seq<Record>)
    ensures A.ApplyPeerInfo(m, rec).Ok?
    ensures InfoPeerOver(m, [rec] + rest) == InfoPeerOver(A.ApplyPeerInfo(m, rec).value, rest)
  {
    hide Last, All;
    FieldFirst(rec, rest, 1);
    AppendFirst(m.addrs, rec, rest, 2);
  }

  lemma InfoPeerOrderly()
    ensures Orderly(A.ApplyPeerInfo, Any, InfoPeerOver)
  {
    hide A.ApplyPeerInfo, InfoPeerOver;
    var apply, ok, over := A.ApplyPeerInfo, Any, InfoPeerOver;
    forall m: A.PeerInfo
      ensures over(m, []) == m
    {
      InfoPeerAlone(m);
    }
    forall m: A.PeerInfo, rec
      ensures apply(m, rec).Ok? <==> ok(rec)
    {
      InfoPeerFirst(m, rec, []);
    }
    forall m: A.PeerInfo, rec, rest | ok(rec) && AllOk(rest, ok)
      ensures apply(m, rec).Ok? && over(m, [rec] + rest) == over(apply(m, rec).value, rest)
    {
      InfoPeerFirst(m, rec, rest);
    }
  }

  lemma InfoPeerAlone(m: A.PeerInfo)
    ensures InfoPeerOver(m, []) == m
  {
  }

  lemma PeerInfoMeans(s: Blob, m: A.PeerInfo)
    ensures A.DecodePeerInfo(s) == Ok(m) <==>
              exists records ::
                && Spells(Strict, s, records, Any) && m.addrs == All(records, 2)
                && m.id == (if Last(records, 1).Some? then Last(records, 1).value else [])
  {
    hide Spells, Last, All, Walk, A.ApplyPeerInfo, Orderly;
    InfoPeerOrderly();
    WalkMeans(Strict, s, A.PeerInfo([], []), A.ApplyPeerInfo, Any, InfoPeerOver, m);
    forall records: seq<Record>
      ensures InfoPeerOver(A.PeerInfo([], []), records).addrs == All(records, 2)
    {
      assert [] + All(records, 2) == All(records, 2);
    }
  }

  function InfoPeerIn(body: Option<Blob>): Option<A.PeerInfo> {
    if body.Some? && A.DecodePeerInfo(body.value).Ok? then Some(A.DecodePeerInfo(body.value).value) else None
  }

  predicate DialOk(rec: Record) {
    Own(rec, 1).Some? ==> InfoPeerIn(Own(rec, 1)).Some?
  }

  function DialOver(m: A.Dial, records: seq<Record>): A.Dial {
    A.Dial(Or(InfoPeerIn(Last(records, 1)), m.peer))
  }

  lemma DialFirst(m: A.Dial, rec: Record, rest: seq<Record>)
    ensures A.ApplyDial(m, rec).Ok? <==> DialOk(rec)
    ensures DialOk(rec) && AllOk(rest, DialOk) ==>
              DialOver(m, [rec] + rest) == DialOver(A.ApplyDial(m, rec).value, rest)
  {
    hide Last, A.DecodePeerInfo;
    FieldFirst(rec, rest, 1);
    LastAmong(rest, 1);
  }

  lemma DialOrderly()
    ensures Orderly(A.ApplyDial, DialOk, DialOver)
  {
    hide A.ApplyDial, DialOk, DialOver;
    var apply, ok, over := A.ApplyDial, DialOk, DialOver;
    forall m: A.Dial
      ensures over(m, []) == m
    {
      DialAlone(m);
    }
    forall m: A.Dial, rec
      ensures apply(m, rec).Ok? <==> ok(rec)
    {
      DialFirst(m, rec, []);
    }
    forall m: A.Dial, rec, rest | ok(rec) && AllOk(rest, ok)
      ensures apply(m, rec).Ok? && over(m, [rec] + rest) == over(apply(m, rec).value, rest)
    {
      DialFirst(m, rec, rest);
    }
  }

  lemma DialAlone(m: A.Dial)
    ensures DialOver(m, []) == m
  {
  }

  lemma DialMeans(s: Blob, m: A.Dial)
    ensures A.DecodeDial(s) == Ok(m) <==>
              exists records :: Spells(Strict, s, records, DialOk) && m.peer == InfoPeerIn(Last(records, 1))
  {
    hide Spells, Last, Walk, A.ApplyDial, Orderly, InfoPeerIn, DialOk;
    DialOrderly();
    WalkMeans(Strict, s, A.Dial(None), A.ApplyDial, DialOk, DialOver, m);
    forall records: seq<Record>
      ensures DialOver(A.Dial(None), records) == A.Dial(InfoPeerIn(Last(records, 1)))
    {
    }
  }

  function AnswerStatus(v: Option<u64>, before: A.Status): A.Status {
    if v.Some? then A.StatusOf(v.value) else before
  }

  /** A status text that is not UTF-8 is made readable. */
  function TextIn(lossy: A.Lossy, text: Option<Blob>): Option<Blob> {
    if text.None? then None else if Utf8.Valid(text.value) then text else Some(lossy(text.value))
  }

  function AnswerOver(lossy: A.Lossy, m: A.DialResponse, records: seq<Record>): A.DialResponse {
    A.DialResponse(AnswerStatus(LastNumber(records, 1), m.status), Or(TextIn(lossy, Last(records, 2)), m.statusText),
                   m.addrs + All(records, 3))
  }

  lemma AnswerFirst(lossy: A.Lossy, m: A.DialResponse, rec: Record, rest: seq<Record>)
    ensures A.ApplyResponse(lossy)(m, rec).Ok?
    ensures AnswerOver(lossy, m, [rec] + rest) == AnswerOver(lossy, A.ApplyResponse(lossy)(m, rec).value, rest)
  {
    hide Last, All, LastNumber, A.StatusOf, Utf8.Valid;
    FieldFirst(rec, rest, 1);
    FieldFirst(rec, rest, 2);
    AppendFirst(m.addrs, rec, rest, 3);
  }

  lemma AnswerOrderly(lossy: A.Lossy)
    ensures Orderly(A.ApplyResponse(lossy), Any, (m, records) => AnswerOver(lossy, m, records))
  {
    hide A.ApplyResponse, AnswerOver;
    var apply := A.ApplyResponse(lossy);
    forall m: A.DialResponse
      ensures AnswerOver(lossy, m, []) == m
    {
      AnswerAlone(lossy, m);
    }
    forall m: A.DialResponse, rec
      ensures apply(m, rec).Ok?
    {
      AnswerFirst(lossy, m, rec, []);
    }
    forall m: A.DialResponse, rec, rest
      ensures apply(m, rec).Ok? && AnswerOver(lossy, m, [rec] + rest) == AnswerOver(lossy, apply(m, rec).value, rest)
    {
      AnswerFirst(lossy, m, rec, rest);
    }
  }

  lemma AnswerAlone(lossy: A.Lossy, m: A.DialResponse)
    ensures AnswerOver(lossy, m, []) == m
  {
  }

  lemma DialResponseMeans(lossy: A.Lossy, s: Blob, m: A.DialResponse)
    ensures A.DecodeResponse(lossy, s) == Ok(m) <==>
              exists records ::
                && Spells(Strict, s, records, Any) && m.status == AnswerStatus(LastNumber(records, 1), A.InternalError)
                && m.statusText == TextIn(lossy, Last(records, 2)) && m.addrs == All(records, 3)
  {
    hide Spells, Last, All, Walk, A.ApplyResponse, Orderly, LastNumber, TextIn, AnswerStatus;
    AnswerOrderly(lossy);
    WalkMeans(Strict, s, A.NO_RESPONSE, A.ApplyResponse(lossy), Any, (m, records) => AnswerOver(lossy, m, records), m);
    forall records: seq<Record>
      ensures AnswerOver(lossy, A.NO_RESPONSE, records).addrs == All(records, 3)
    {
      assert [] + All(records, 3) == All(records, 3);
    }
  }

  function DialIn(body: Option<Blob>): Option<A.Dial> {
    if body.Some? && A.DecodeDial(body.value).Ok? then Some(A.DecodeDial(body.value).value) else None
  }

  function AnswerIn(lossy: A.Lossy, body: Option<Blob>): Option<A.DialResponse> {
    if body.Some? && A.DecodeResponse(lossy, body.value).Ok?
    then Some(A.DecodeResponse(lossy, body.value).value) else None
  }

  function AutonatKindIn(v: Option<u64>): Option<A.Kind> {
    if v.Some? then A.KindOf(v.value) else None
  }

  predicate AutonatOk(lossy: A.Lossy, rec: Record) {
    && (OwnNumber(rec, 1).Some? ==> AutonatKindIn(OwnNumber(rec, 1)).Some?)
    && (Own(rec, 2).Some? ==> DialIn(Own(rec, 2)).Some?)
    && (Own(rec, 3).Some? ==> AnswerIn(lossy, Own(rec, 3)).Some?)
  }

  function AutonatTakes(lossy: A.Lossy): Record -> bool {
    rec => AutonatOk(lossy, rec)
  }

  function AutonatOver(lossy: A.Lossy, m: A.Draft, records: seq<Record>): A.Draft {
    A.Draft(Or(AutonatKindIn(LastNumber(records, 1)), m.kind), Or(DialIn(Last(records, 2)), m.dial),
            Or(AnswerIn(lossy, Last(records, 3)), m.dialResponse))
  }

  lemma AutonatLasts(lossy: A.Lossy, records: seq<Record>)
    requires AllOk(records, AutonatTakes(lossy))
    ensures LastNumber(records, 1).Some? ==> AutonatKindIn(LastNumber(records, 1)).Some?
    ensures Last(records, 2).Some? ==> DialIn(Last(records, 2)).Some?
    ensures Last(records, 3).Some? ==> AnswerIn(lossy, Last(records, 3)).Some?
  {
    hide Last, LastNumber, A.DecodeDial, A.DecodeResponse;
    LastAmong(records, 1);
    LastAmong(records, 2);
    LastAmong(records, 3);
    assert forall i :: 0 <= i < |records| ==> AutonatOk(lossy, records[i]);
  }

  lemma AutonatFirst(lossy: A.Lossy, m: A.Draft, rec: Record, rest: seq<Record>)
    ensures A.ApplyMessage(lossy)(m, rec).Ok? <==> AutonatOk(lossy, rec)
    ensures AutonatOk(lossy, rec) && AllOk(rest, AutonatTakes(lossy)) ==>
              AutonatOver(lossy, m, [rec] + rest) == AutonatOver(lossy, A.ApplyMessage(lossy)(m, rec).value, rest)
  {
    hide Last, LastNumber, A.DecodeDial, A.DecodeResponse, AllOk, A.KindOf;
    if AllOk(rest, AutonatTakes(lossy)) {
      AutonatLasts(lossy, rest);
    }
    FieldFirst(rec, rest, 1);
    FieldFirst(rec, rest, 2);
    FieldFirst(rec, rest, 3);
  }

  lemma AutonatOrderly(lossy: A.Lossy)
    ensures Orderly(A.ApplyMessage(lossy), AutonatTakes(lossy),
                    (m, records) => AutonatOver(lossy, m, records))
  {
    hide A.ApplyMessage, AutonatOver, AutonatOk, AllOk;
    var apply, ok := A.ApplyMessage(lossy), AutonatTakes(lossy);
    forall m: A.Draft
      ensures AutonatOver(lossy, m, []) == m
    {
      AutonatAlone(lossy, m);
    }
    forall m: A.Draft, rec
      ensures apply(m, rec).Ok? <==> AutonatOk(lossy, rec)
    {
      AutonatFirst(lossy, m, rec, []);
    }
    forall m: A.Draft, rec, rest | AutonatOk(lossy, rec) && AllOk(rest, ok)
      ensures apply(m, rec).Ok? && AutonatOver(lossy, m, [rec] + rest) == AutonatOver(lossy, apply(m, rec).value, rest)
    {
      AutonatFirst(lossy, m, rec, rest);
    }
  }

  lemma AutonatAlone(lossy: A.Lossy, m: A.Draft)
    ensures AutonatOver(lossy, m, []) == m
  {
  }

  /** A string is an AutoNAT message exactly if it is made of well-formed records, has a type, all types in
      it are known and all nested messages in it decode. */
  lemma AutonatMeans(lossy: A.Lossy, s: Blob, m: A.Message)
    ensures A.Decode(lossy, s) == Ok(m) <==>
              exists records ::
                && Spells(Strict, s, records, AutonatTakes(lossy))
                && AutonatKindIn(LastNumber(records, 1)) == Some(m.kind) && m.dial == DialIn(Last(records, 2))
                && m.dialResponse == AnswerIn(lossy, Last(records, 3))
  {
    hide Spells, Last, Walk, A.ApplyMessage, Orderly, LastNumber, AutonatOk, DialIn, AnswerIn, AutonatKindIn;
    AutonatOrderly(lossy);
    WalkMeans(Strict, s, A.NO_MESSAGE, A.ApplyMessage(lossy), AutonatTakes(lossy),
              (m, records) => AutonatOver(lossy, m, records), A.Draft(Some(m.kind), m.dial, m.dialResponse));
    forall records: seq<Record>
      ensures AutonatOver(lossy, A.NO_MESSAGE, records)
           == A.Draft(AutonatKindIn(LastNumber(records, 1)), DialIn(Last(records, 2)),
                      AnswerIn(lossy, Last(records, 3)))
    {
    }
  }
}

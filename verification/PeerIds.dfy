/** Peer ids in binary and text form (crates/identity/src/peer_id.rs:11-176, 271-291). SHA-256 is a
    parameter, and a multihash is a code, a size and a digest of at most 64 bytes, all of it used. */
module PeerIds {
  import opened Bytes
  import Base32
  import Base58
  import Varint

  const IDENTITY: u64 := 0
  const SHA256: u64 := 0x12
  const LIBP2P_KEY: u64 := 0x72
  const MAX_INLINE_KEY_LENGTH: nat := 42
  const MAX_DIGEST: nat := 64

  datatype Id = Id(code: u64, digest: Blob)

  datatype Error =
    | EmptyInput | UnsupportedMultibase | UnsupportedCidVersion | UnsupportedMulticodec
    | InvalidSha256DigestLength | InvalidBase58Character | InvalidBase32Character
    | InvalidCidVersionVarint | InvalidCidMulticodecVarint | InvalidMultihash

  predicate Valid(id: Id) {
    |id.digest| <= MAX_DIGEST && (id.code == SHA256 ==> |id.digest| == 32)
  }

  type Hash = h: Blob -> Blob | forall s :: |h(s)| == 32 witness (s => seq(32, _ => 0))

  /** The id of an encoded public key: short keys are kept, long ones hashed. */
  function FromKey(key: Blob, sha256: Hash): (id: Id)
    ensures Valid(id)
  {
    if |key| <= MAX_INLINE_KEY_LENGTH then Id(IDENTITY, key) else Id(SHA256, sha256(key))
  }

  // ------------------------------------------------------------------------------- binary

  function ToBytes(id: Id): (s: Blob)
    ensures s != []
  {
    Varint.Encode(id.code) + (Varint.Encode(|id.digest|) + id.digest)
  }

  function FromBytes(s: Blob): Result<Id, Error> {
    match Varint.Read(s)
    case Err(_) => Err(InvalidMultihash)
    case Ok((code, n)) =>
      assert n <= |s| by { Varint.ReadIffEncoded(s, code, n); }
      SizedDigest(code, s[n..])
  }

  function SizedDigest(code: u64, s: Blob): Result<Id, Error> {
    match Varint.Read(s)
    case Err(_) => Err(InvalidMultihash)
    case Ok((size, n)) =>
      assert n <= |s| by { Varint.ReadIffEncoded(s, size, n); }
      if size > MAX_DIGEST || |s[n..]| != size then Err(InvalidMultihash)
      else if code == SHA256 && size != 32 then Err(InvalidSha256DigestLength)
      else Ok(Id(code, s[n..]))
  }

  lemma FromBytesEncoded(id: Id)
    requires Valid(id)
    ensures FromBytes(ToBytes(id)) == Ok(id)
  {
    hide Varint.Encode, Varint.Read;
    var code, size := Varint.Encode(id.code), Varint.Encode(|id.digest|);
    var s := ToBytes(id);
    Varint.ReadEncoded(id.code, size + id.digest);
    Varint.ReadEncoded(|id.digest|, id.digest);
    assert s[|code|..] == size + id.digest;
    assert (size + id.digest)[|size|..] == id.digest;
  }

  lemma FromBytesCanonical(s: Blob)
    requires FromBytes(s).Ok?
    ensures Valid(FromBytes(s).value) && s == ToBytes(FromBytes(s).value)
  {
    hide Varint.Encode, Varint.Read;
    var Ok((c, n)) := Varint.Read(s);
    Varint.ReadIffEncoded(s, c, n);
    var rest := s[n..];
    var Ok((l, m)) := Varint.Read(rest);
    Varint.ReadIffEncoded(rest, l, m);
    assert s == Varint.Encode(c) + rest && rest == Varint.Encode(l) + rest[m..];
  }

  /** Binary forms and valid ids correspond one to one. */
  lemma BinaryIff(s: Blob, id: Id)
    ensures FromBytes(s) == Ok(id) <==> Valid(id) && s == ToBytes(id)
  {
    hide FromBytes, ToBytes;
    if Valid(id) {
      FromBytesEncoded(id);
    }
    if FromBytes(s).Ok? {
      FromBytesCanonical(s);
    }
  }

  // --------------------------------------------------------------------------------- text

  /** The printed form. */
  function Display(id: Id): string {
    Base58.Encode(ToBytes(id))
  }

  function CidBytes(id: Id): Blob {
    Varint.Encode(1) + (Varint.Encode(LIBP2P_KEY) + ToBytes(id))
  }

  function ToCid(id: Id): string {
    "b" + Base32.Encode(CidBytes(id))
  }

  function FromBase58(t: string): Result<Id, Error> {
    match Base58.Decode(t)
    case Err(EmptyInput) => Err(EmptyInput)
    case Err(InvalidCharacter) => Err(InvalidBase58Character)
    case Ok(s) => FromBytes(s)
  }

  function FromCidBytes(s: Blob): Result<Id, Error> {
    match Varint.Read(s)
    case Err(_) => Err(InvalidCidVersionVarint)
    case Ok((version, n)) =>
      if version != 1 then Err(UnsupportedCidVersion)
      else
        assert n <= |s| by { Varint.ReadIffEncoded(s, version, n); }
        FromCodec(s[n..])
  }

  function FromCodec(s: Blob): Result<Id, Error> {
    match Varint.Read(s)
    case Err(_) => Err(InvalidCidMulticodecVarint)
    case Ok((codec, n)) =>
      if codec != LIBP2P_KEY then Err(UnsupportedMulticodec)
      else
        assert n <= |s| by { Varint.ReadIffEncoded(s, codec, n); }
        FromBytes(s[n..])
  }

  function FromCid(t: string): Result<Id, Error> {
    if t == "" then Err(EmptyInput)
    else if t[0] == 'b' || t[0] == 'B' then
      match Base32.Decode(t[1..])
      case Err(_) => Err(InvalidBase32Character)
      case Ok(s) => FromCidBytes(s)
    else if t[0] == 'z' then
      match Base58.Decode(t[1..])
      case Err(EmptyInput) => Err(EmptyInput)
      case Err(InvalidCharacter) => Err(InvalidBase58Character)
      case Ok(s) => FromCidBytes(s)
    else Err(UnsupportedMultibase)
  }

  /** Text is taken for base58 when it starts like one of the two derived forms, else for a CID. */
  function Parse(t: string): Result<Id, Error> {
    if "1" <= t || "Qm" <= t then FromBase58(t) else FromCid(t)
  }

  /** Every peer id survives its CID, parsed as such or as any peer id text. */
  lemma CidSurvives(id: Id)
    requires Valid(id)
    ensures FromCid(ToCid(id)) == Ok(id) && Parse(ToCid(id)) == Ok(id)
  {
    hide Base32.Decode, Base32.Encode, ToBytes, FromBytes;
    var s := CidBytes(id);
    Base32.DecodeEncoded(s);
    assert ToCid(id)[1..] == Base32.Encode(s) && ToCid(id)[0] == 'b';
    var version, codec := Varint.Encode(1), Varint.Encode(LIBP2P_KEY);
    Varint.ReadEncoded(1, codec + ToBytes(id));
    Varint.ReadEncoded(LIBP2P_KEY, ToBytes(id));
    assert s[|version|..] == codec + ToBytes(id);
    assert (codec + ToBytes(id))[|codec|..] == ToBytes(id);
    BinaryIff(ToBytes(id), id);
  }

  /** Any valid id survives base58 when it is parsed as such. */
  lemma Base58Survives(id: Id)
    requires Valid(id)
    ensures FromBase58(Display(id)) == Ok(id)
  {
    hide Base58.Decode, Base58.Encode, FromBytes;
    Base58.DecodeEncoded(ToBytes(id));
    BinaryIff(ToBytes(id), id);
  }

  // ------------------------------------------------------------------- the printed prefixes

  /** Bytes that start with a zero print with a leading `1`. */
  lemma ZeroPrintsOne(s: Blob)
    requires s != [] && s[0] == 0
    ensures "1" <= Base58.Encode(s)
  {
    assert Base58.Zeros(s) >= 1;
    var digits := Base58.Convert(s, 256, 58);
    assert digits[0] == 0;
    assert Base58.Text(digits)[0] == '1';
  }

  /** An inlined key prints with a leading `1`. */
  lemma IdentityPrintsOne(id: Id)
    requires id.code == IDENTITY
    ensures "1" <= Display(id)
  {
    assert Varint.Encode(0) == [0];
    ZeroPrintsOne(ToBytes(id));
  }

  const P44: nat := 389790918707373377135528568990913592653094657612049369038476873218241589149696
  const P32: nat := 115792089237316195423570985008687907853269984665640564039457584007913129639936

  lemma {:induction false} PowAdd(base: nat, m: nat, n: nat)
    ensures Base58.Pow(base, m + n) == Base58.Pow(base, m) * Base58.Pow(base, n)
    decreases m
  {
    if m > 0 {
      PowAdd(base, m - 1, n);
      Regroup(base, Base58.Pow(base, m - 1), Base58.Pow(base, n));
    }
  }

  lemma Regroup(x: nat, y: nat, z: nat)
    ensures x * (y * z) == (x * y) * z
  {
  }

  lemma PowFour(base: nat)
    ensures Base58.Pow(base, 1) == base && Base58.Pow(base, 2) == base * base
    ensures Base58.Pow(base, 3) == base * (base * base) && Base58.Pow(base, 4) == base * (base * (base * base))
  {
    assert Base58.Pow(base, 0) == 1;
    assert Base58.Pow(base, 1) == base * 1;
    assert Base58.Pow(base, 2) == base * Base58.Pow(base, 1);
    assert Base58.Pow(base, 3) == base * Base58.Pow(base, 2);
    assert Base58.Pow(base, 4) == base * Base58.Pow(base, 3);
  }

  lemma PowersOf()
    ensures Base58.Pow(58, 44) == P44 && Base58.Pow(256, 32) == P32
  {
    hide Base58.Pow;
    PowFour(58);
    PowAdd(58, 4, 4);
    PowAdd(58, 8, 3);
    assert Base58.Pow(58, 11) == 24986644000165537792;
    PowAdd(58, 11, 11);
    PowAdd(58, 22, 22);
    PowFour(256);
    PowAdd(256, 4, 4);
    PowAdd(256, 8, 8);
    PowAdd(256, 16, 16);
  }

  /** The high digits of a number. */
  lemma {:induction false} HighDigits(n: nat, q: nat, r: nat, k: nat)
    requires n == q * Base58.Pow(58, k) + r && r < Base58.Pow(58, k) && q > 0
    ensures |Base58.ToDigits(n, 58)| >= k && Base58.ToDigits(n, 58)[k..] == Base58.ToDigits(q, 58)
    decreases k
  {
    if k > 0 {
      var p := Base58.Pow(58, k - 1);
      var t := q * p;
      assert n == 58 * t + r by {
        Regroup(q, 58, p);
        Regroup(58, q, p);
      }
      assert n / 58 == t + r / 58;
      HighDigits(n / 58, q, r / 58, k - 1);
      assert Base58.ToDigits(n, 58)[1..] == Base58.ToDigits(n / 58, 58);
      assert Base58.ToDigits(n, 58)[k..] == Base58.ToDigits(n, 58)[1..][k - 1..];
    }
  }

  /** The number of a sha2-256 multihash. */
  lemma HashMagnitude(digest: Blob)
    requires |digest| == 32
    ensures Base58.Zeros([18, 32] + digest) == 0
    ensures 4640 * P32 <= Base58.Magnitude([18, 32] + digest, 256) < 4641 * P32
  {
    var head: seq<nat> := [18, 32];
    var s := head + digest;
    assert s[0..] == s;
    assert Base58.Reversed(s) == Base58.Reversed(digest) + [32, 18];
    Base58.ValueAppend(Base58.Reversed(digest), [32, 18], 256);
    Base58.ValueBound(Base58.Reversed(digest), 256);
    PowersOf();
    assert [32, 18][1..] == [18] && [18][1..] == [];
    assert Base58.Value([18], 256) == 18 && Base58.Value([32, 18], 256) == 4640;
  }

  /** A hashed key prints with a leading `Qm`: 34 bytes starting with 0x12 0x20 lie, as a number,
      between 1378 and 1379 times 58^44. */
  lemma HashPrintsQm(id: Id)
    requires Valid(id) && id.code == SHA256
    ensures "Qm" <= Display(id)
  {
    hide Base58.ToDigits, Base58.Magnitude, Base58.Pow, Base58.Zeros;
    var s := ToBytes(id);
    HashBytes(id);
    HashMagnitude(id.digest);
    var n := Base58.Magnitude(s, 256);
    PowersOf();
    assert 1378 * P44 <= n < 1379 * P44;
    HighDigits(n, 1378, n - 1378 * P44, 44);
    TopDigits();
    var digits := Base58.ToDigits(n, 58);
    assert digits[44..] == [44, 23];
    assert |digits| == 46 && digits[44] == digits[44..][0] && digits[45] == digits[44..][1];
    var shown := Base58.Convert(s, 256, 58);
    Base58.ConvertIs(s, 256, 58);
    assert shown == Base58.Reversed(digits);
    assert Base58.CharOf(23) == 'Q' && Base58.CharOf(44) == 'm';
  }

  lemma HashBytes(id: Id)
    requires Valid(id) && id.code == SHA256
    ensures ToBytes(id) == [18, 32] + id.digest
  {
    assert Varint.Encode(18) == [18] && Varint.Encode(32) == [32];
  }

  lemma TopDigits()
    ensures Base58.ToDigits(1378, 58) == [44, 23]
  {
    assert Base58.ToDigits(23, 58) == [23] + Base58.ToDigits(0, 58) == [23];
  }

  /** Every key-derived id parses back from its printed form. */
  lemma DerivedSurvives(key: Blob, sha256: Hash)
    ensures Parse(Display(FromKey(key, sha256))) == Ok(FromKey(key, sha256))
  {
    hide Base58.Encode, FromBase58, FromCid;
    var id := FromKey(key, sha256);
    Base58Survives(id);
    if id.code == IDENTITY {
      IdentityPrintsOne(id);
    } else {
      HashPrintsQm(id);
    }
  }

  // ------------------------------------------------------------- exactly which ids survive

  /** A CID of a peer id is its bytes behind a version and a codec. */
  lemma CidCanonical(s: Blob, id: Id)
    requires FromCidBytes(s) == Ok(id)
    ensures s == [1, 0x72] + ToBytes(id)
  {
    hide Varint.Encode, Varint.Read, FromBytes, ToBytes;
    var Ok((version, n)) := Varint.Read(s);
    Varint.ReadIffEncoded(s, version, n);
    var rest := s[n..];
    var Ok((codec, m)) := Varint.Read(rest);
    Varint.ReadIffEncoded(rest, codec, m);
    BinaryIff(rest[m..], id);
    CidPrefixes();
    assert s == Varint.Encode(version) + rest && rest == Varint.Encode(codec) + rest[m..];
  }

  lemma CidPrefixes()
    ensures Varint.Encode(1) == [1] && Varint.Encode(LIBP2P_KEY) == [0x72]
  {
  }

  /** No peer id is behind its printed form read as a CID: a CID is two bytes longer than the id, and
      the printed form is too short to hold it. */
  lemma PrintedIsNoCid(id: Id)
    requires Valid(id) && !("1" <= Display(id))
    ensures FromCid(Display(id)) != Ok(id)
  {
    hide Base58.Decode, Base58.Encode, Base32.Decode, FromBytes, ToBytes, FromCidBytes;
    var s, t := ToBytes(id), Display(id);
    if s[0] == 0 {
      ZeroPrintsOne(s);
    }
    Base58.DecodeEncoded(s);
    if FromCid(t) == Ok(id) {
      var cid := [1, 0x72] + s;
      if t[0] == 'b' || t[0] == 'B' {
        CidCanonical(Base32.Decode(t[1..]).value, id);
        Base32Short(t[1..]);
        Base58.EncodedShort(s);
      } else {
        CidCanonical(Base58.Decode(t[1..]).value, id);
        assert Base58.IsAlphabetText(t[1..]);
        Base58.EncodeDecodedIff(t[1..]);
        Base58.EncodedLonger([1, 0x72], s);
      }
    }
  }

  lemma Base32Short(t: string)
    requires Base32.Decode(t).Ok?
    ensures |Base32.Decode(t).value| == 5 * |t| / 8
  {
    Base32.OctetsLength(Base32.DigitsOf(t), 0, 0);
  }

  /** A valid id parses back from its printed form exactly when that starts like a derived one. */
  lemma ParseDisplayedIff(id: Id)
    requires Valid(id)
    ensures Parse(Display(id)) == Ok(id) <==> "1" <= Display(id) || "Qm" <= Display(id)
  {
    hide Display, FromBase58, FromCid;
    if "1" <= Display(id) || "Qm" <= Display(id) {
      Base58Survives(id);
    } else {
      PrintedIsNoCid(id);
    }
  }

  /** The empty digest under code 1 is valid, prints as `5R`, and that is no peer id. */
  lemma PrintsUnreadable()
    ensures var id := Id(1, []);
            && Valid(id) && FromBytes([1, 0]) == Ok(id)
            && Display(id) == "5R" && Parse("5R") == Err(UnsupportedMultibase)
  {
    hide FromBytes, Base58.Encode;
    var id := Id(1, []);
    assert Varint.Encode(1) == [1] && Varint.Encode(0) == [0];
    assert ToBytes(id) == [1, 0];
    BinaryIff([1, 0], id);
    OneZeroPrints();
  }

  lemma OneZeroPrints()
    ensures Base58.Encode([1, 0]) == "5R"
  {
    hide Base58.ToDigits, Base58.Value;
    var s: Blob := [1, 0];
    assert s[0..] == s && Base58.Zeros(s) == 0;
    Base58.ConvertIs(s, 256, 58);
    OneZeroValue();
    assert Base58.Convert(s, 256, 58) == [4, 24];
    assert Base58.CharOf(4) == '5' && Base58.CharOf(24) == 'R';
  }

  lemma OneZeroValue()
    ensures Base58.Value(Base58.Reversed([1, 0]), 256) == 256 && Base58.ToDigits(256, 58) == [24, 4]
  {
    assert Base58.Reversed([1, 0]) == [0, 1];
    assert [0, 1][1..] == [1] && [1][1..] == [];
    assert Base58.Value([1], 256) == 1 && Base58.Value([0, 1], 256) == 256;
    assert Base58.ToDigits(4, 58) == [4] + Base58.ToDigits(0, 58) == [4];
    assert Base58.ToDigits(256, 58) == [24] + Base58.ToDigits(4, 58) == [24, 4];
  }
}

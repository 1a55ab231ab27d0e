/** Multiaddrs in binary form (crates/core/src/protocol.rs:20-179, crates/core/src/multiaddr.rs:100-139).
    Text inside an address is carried as its UTF-8 bytes. */
module Multiaddr {
  import opened Bytes
  import PeerIds
  import Protobuf
  import Utf8
  import Varint

  datatype Protocol =
    | Ip4(octets: Blob)
    | Ip6(octets: Blob)
    | Dns(name: Blob)
    | Dns4(name: Blob)
    | Dns6(name: Blob)
    | Udp(port: nat)
    | QuicV1
    | P2p(id: PeerIds.Id)

  type Addr = seq<Protocol>

  datatype Error = BadVarint | UnknownProtocolCode | TruncatedBinaryValue | InvalidBinaryValue

  /** What the types of the source guarantee of a component. */
  predicate WellFormed(p: Protocol) {
    match p
    case Ip4(octets) => |octets| == 4
    case Ip6(octets) => |octets| == 16
    case Dns(name) => Utf8.Valid(name) && |name| < TWO_64
    case Dns4(name) => Utf8.Valid(name) && |name| < TWO_64
    case Dns6(name) => Utf8.Valid(name) && |name| < TWO_64
    case Udp(port) => port < 65536
    case QuicV1 => true
    case P2p(id) => PeerIds.Valid(id)
  }

  predicate AllWellFormed(addr: Addr) {
    forall i :: 0 <= i < |addr| ==> WellFormed(addr[i])
  }

  const IP4_CODE: u64 := 0x04
  const IP6_CODE: u64 := 0x29
  const DNS_CODE: u64 := 0x35
  const DNS4_CODE: u64 := 0x36
  const DNS6_CODE: u64 := 0x37
  const UDP_CODE: u64 := 0x0111
  const QUIC_V1_CODE: u64 := 0x01cd
  const P2P_CODE: u64 := 0x01a5

  function Code(p: Protocol): u64 {
    match p
    case Ip4(_) => IP4_CODE
    case Ip6(_) => IP6_CODE
    case Dns(_) => DNS_CODE
    case Dns4(_) => DNS4_CODE
    case Dns6(_) => DNS6_CODE
    case Udp(_) => UDP_CODE
    case QuicV1 => QUIC_V1_CODE
    case P2p(_) => P2P_CODE
  }

  function Prefixed(body: Blob): Blob {
    Varint.Encode(|body|) + body
  }

  function Body(p: Protocol): Blob {
    match p
    case Ip4(octets) => octets
    case Ip6(octets) => octets
    case Dns(name) => Prefixed(name)
    case Dns4(name) => Prefixed(name)
    case Dns6(name) => Prefixed(name)
    case Udp(port) => [port / 256 % 256, port % 256]
    case QuicV1 => []
    case P2p(id) => Prefixed(PeerIds.ToBytes(id))
  }

  /** `write_binary`. */
  function Write(p: Protocol): (s: Blob)
    ensures s != []
  {
    Varint.Encode(Code(p)) + Body(p)
  }

  function ToBytes(addr: Addr): Blob {
    if addr == [] then [] else Write(addr[0]) + ToBytes(addr[1..])
  }

  function Port(high: nat, low: nat): nat {
    256 * high + low
  }

  function Fixed(s: Blob, n: nat): (r: Result<(Blob, nat), Error>)
    ensures r.Ok? ==> r.value.1 <= |s|
  {
    if |s| < n then Err(TruncatedBinaryValue) else Ok((s[..n], n))
  }

  function LengthPrefixed(s: Blob): (r: Result<(Blob, nat), Error>)
    ensures r.Ok? ==> r.value.1 <= |s|
  {
    match Protobuf.ReadBytes(s)
    case Ok((body, n)) => Ok((body, n))
    case Err(BadVarint(_)) => Err(BadVarint)
    case Err(_) => Err(TruncatedBinaryValue)
  }

  /** The value of a component with a given code, and its length. */
  function ReadBody(code: u64, s: Blob): (r: Result<(Protocol, nat), Error>)
    ensures r.Ok? ==> r.value.1 <= |s|
  {
    if code == IP4_CODE then
      (match Fixed(s, 4) case Err(e) => Err(e) case Ok((v, n)) => Ok((Ip4(v), n)))
    else if code == IP6_CODE then
      (match Fixed(s, 16) case Err(e) => Err(e) case Ok((v, n)) => Ok((Ip6(v), n)))
    else if code == UDP_CODE then
      (match Fixed(s, 2) case Err(e) => Err(e) case Ok((v, n)) => Ok((Udp(Port(v[0], v[1])), n)))
    else if code == QUIC_V1_CODE then Ok((QuicV1, 0))
    else if code == DNS_CODE || code == DNS4_CODE || code == DNS6_CODE then
      match LengthPrefixed(s)
      case Err(e) => Err(e)
      case Ok((name, n)) =>
        if !Utf8.Valid(name) then Err(InvalidBinaryValue)
        else Ok((if code == DNS_CODE then Dns(name) else if code == DNS4_CODE then Dns4(name) else Dns6(name), n))
    else if code == P2P_CODE then
      match LengthPrefixed(s)
      case Err(e) => Err(e)
      case Ok((body, n)) =>
        match PeerIds.FromBytes(body)
        case Err(_) => Err(InvalidBinaryValue)
        case Ok(id) => Ok((P2p(id), n))
    else Err(UnknownProtocolCode)
  }

  /** `read_binary`: the component at the front of `s` and its length. */
  function Read(s: Blob): (r: Result<(Protocol, nat), Error>)
    ensures r.Ok? ==> 0 < r.value.1 <= |s|
  {
    match Varint.Read(s)
    case Err(_) => Err(BadVarint)
    case Ok((code, used)) =>
      assert 0 < used <= |s| by { Varint.ReadIffEncoded(s, code, used); }
      match ReadBody(code, s[used..])
      case Err(e) => Err(e)
      case Ok((p, n)) => Ok((p, used + n))
  }

  function FromBytes(s: Blob): Result<Addr, Error>
    decreases |s|
  {
    if s == [] then Ok([])
    else
      match Read(s)
      case Err(e) => Err(e)
      case Ok((p, n)) =>
        match FromBytes(s[n..])
        case Err(e) => Err(e)
        case Ok(rest) => Ok([p] + rest)
  }

  // ----------------------------------------------------------------------------- inverses

  lemma LengthPrefixedIff(s: Blob, body: Blob, n: nat)
    requires |body| < TWO_64
    ensures LengthPrefixed(s) == Ok((body, n)) <==> n == |Prefixed(body)| && Prefixed(body) <= s
  {
    hide Varint.Read, Varint.Encode;
    if Prefixed(body) <= s && n == |Prefixed(body)| {
      var rest := s[n..];
      assert s == Varint.Encode(|body|) + body + rest;
      Protobuf.ReadBytesEncoded(body, rest);
    }
    if LengthPrefixed(s) == Ok((body, n)) {
      var Ok((length, used)) := Varint.Read(s);
      Varint.ReadIffEncoded(s, length, used);
      assert s[..used] == Varint.Encode(length) && s[used..used + length] == body;
      assert s[..n] == s[..used] + s[used..n];
    }
  }

  lemma PrefixedShort(s: Blob, body: Blob, n: nat)
    requires LengthPrefixed(s) == Ok((body, n))
    ensures |body| < TWO_64
  {
  }

  /** A component is read exactly where its encoding stands. */
  lemma ReadBodyIff(p: Protocol, s: Blob, n: nat)
    ensures ReadBody(Code(p), s) == Ok((p, n)) <==> WellFormed(p) && n == |Body(p)| && Body(p) <= s
  {
    hide Varint.Read, Varint.Encode, PeerIds.FromBytes, PeerIds.ToBytes, LengthPrefixed, Prefixed, Utf8.Valid;
    match p {
      case Ip4(octets) =>
        assert |s| >= 4 ==> (s[..4] == octets <==> octets <= s && |octets| == 4);
      case Ip6(octets) =>
        assert |s| >= 16 ==> (s[..16] == octets <==> octets <= s && |octets| == 16);
      case Dns(name) => PrefixedText(s, name, n);
      case Dns4(name) => PrefixedText(s, name, n);
      case Dns6(name) => PrefixedText(s, name, n);
      case Udp(port) => PortIff(s, port);
      case QuicV1 =>
      case P2p(id) => PeerIff(s, id, n);
    }
  }

  lemma PrefixedText(s: Blob, name: Blob, n: nat)
    ensures LengthPrefixed(s) == Ok((name, n)) <==> |name| < TWO_64 && n == |Prefixed(name)| && Prefixed(name) <= s
  {
    hide LengthPrefixed, Prefixed;
    if |name| < TWO_64 {
      LengthPrefixedIff(s, name, n);
    } else if LengthPrefixed(s) == Ok((name, n)) {
      PrefixedShort(s, name, n);
    }
  }

  lemma PortIff(s: Blob, port: nat)
    ensures |s| >= 2 ==> (Port(s[0], s[1]) == port <==> port < 65536 && [port / 256 % 256, port % 256] <= s)
    ensures port < 65536 && [port / 256 % 256, port % 256] <= s ==> |s| >= 2
  {
  }

  lemma PeerIff(s: Blob, id: PeerIds.Id, n: nat)
    ensures ReadBody(P2P_CODE, s) == Ok((P2p(id), n)) <==>
            PeerIds.Valid(id) && n == |Prefixed(PeerIds.ToBytes(id))| && Prefixed(PeerIds.ToBytes(id)) <= s
  {
    hide Varint.Read, Varint.Encode, PeerIds.FromBytes, PeerIds.ToBytes, LengthPrefixed, Prefixed, Utf8.Valid;
    var body := PeerIds.ToBytes(id);
    PeerIds.BinaryIff(body, id);
    PrefixedText(s, body, n);
    if PeerIds.Valid(id) {
      PeerShort(id);
    }
    if LengthPrefixed(s).Ok? {
      PeerIds.BinaryIff(LengthPrefixed(s).value.0, id);
    }
  }

  lemma PeerShort(id: PeerIds.Id)
    requires PeerIds.Valid(id)
    ensures |PeerIds.ToBytes(id)| < TWO_64
  {
    Varint.WordShape(id.code);
    Varint.WordShape(|id.digest|);
  }

  lemma ReadIff(p: Protocol, s: Blob, n: nat)
    ensures Read(s) == Ok((p, n)) <==> WellFormed(p) && n == |Write(p)| && Write(p) <= s
  {
    hide Varint.Read, Varint.Encode, ReadBody, Body, WellFormed;
    var tag := Varint.Encode(Code(p));
    Varint.ReadIffEncoded(s, Code(p), |tag|);
    if Varint.Read(s).Ok? {
      var Ok((code, used)) := Varint.Read(s);
      Varint.ReadIffEncoded(s, code, used);
      var rest := s[used..];
      assert s == Varint.Encode(code) + rest;
      if code == Code(p) {
        assert tag + Body(p) <= s <==> Body(p) <= rest;
        if n >= used {
          ReadBodyIff(p, rest, n - used);
        }
      } else {
        ReadBodyCode(code, rest);
        assert !(tag <= s);
        assert Write(p) <= s ==> tag <= s;
      }
    } else {
      assert Write(p) <= s ==> tag <= s;
    }
  }

  lemma ReadBodyCode(code: u64, s: Blob)
    ensures ReadBody(code, s).Ok? ==> Code(ReadBody(code, s).value.0) == code
  {
    hide Fixed, LengthPrefixed, PeerIds.FromBytes, Utf8.Valid;
  }

  /** Binary encoding and decoding are mutual inverses: a byte string decodes to an address exactly
      when it is the encoding of that well-formed address. */
  lemma {:induction false} BinaryIff(s: Blob, addr: Addr)
    ensures FromBytes(s) == Ok(addr) <==> AllWellFormed(addr) && s == ToBytes(addr)
    decreases |addr|
  {
    hide Read, Write, WellFormed;
    if addr == [] {
      EmptyIff(s);
    } else {
      var p, rest := addr[0], addr[1..];
      assert addr == [p] + rest;
      assert AllWellFormed(addr) <==> WellFormed(p) && AllWellFormed(rest) by {
        assert forall i :: 0 < i < |addr| ==> addr[i] == rest[i - 1];
        assert forall i :: 0 <= i < |rest| ==> rest[i] == addr[i + 1];
      }
      var n := |Write(p)|;
      ReadIff(p, s, n);
      if Write(p) <= s {
        BinaryIff(s[n..], rest);
        assert s == Write(p) + s[n..];
      }
      if FromBytes(s) == Ok(addr) {
        var Ok((q, m)) := Read(s);
        var Ok(later) := FromBytes(s[m..]);
        assert addr[0] == q && addr[1..] == later by { assert addr == [q] + later; }
        ReadIff(q, s, m);
      }
    }
  }

  lemma EmptyIff(s: Blob)
    ensures FromBytes(s) == Ok([]) <==> s == []
  {
    hide Read;
  }

  // ---------------------------------------------------------------------------- the loops

  method EncodeAddr(addr: Addr) returns (out: Blob)
    ensures out == ToBytes(addr)
  {
    hide Write;
    out := [];
    var i := 0;
    assert addr[0..] == addr;
    while i < |addr|
      invariant 0 <= i <= |addr|
      invariant out + ToBytes(addr[i..]) == ToBytes(addr)
    {
      assert addr[i..][1..] == addr[i + 1..];
      assert out + (Write(addr[i]) + ToBytes(addr[i + 1..])) == (out + Write(addr[i])) + ToBytes(addr[i + 1..]);
      out := out + Write(addr[i]);
      i := i + 1;
    }
    assert out + [] == out;
  }

  method DecodeAddr(input: Blob) returns (r: Result<Addr, Error>)
    ensures r == FromBytes(input)
  {
    hide Read;
    var addr: Addr, offset := [], 0;
    assert input[0..] == input;
    assert FromBytes(input).Ok? ==> [] + FromBytes(input).value == FromBytes(input).value;
    while offset < |input|
      invariant 0 <= offset <= |input|
      invariant FromBytes(input)
             == match FromBytes(input[offset..]) case Err(e) => Err(e) case Ok(rest) => Ok(addr + rest)
    {
      var next := Read(input[offset..]);
      if next.Err? {
        return Err(next.error);
      }
      var (p, n) := next.value;
      assert input[offset..][n..] == input[offset + n..];
      ghost var later := FromBytes(input[offset + n..]);
      assert later.Ok? ==> addr + ([p] + later.value) == (addr + [p]) + later.value;
      addr := addr + [p];
      offset := offset + n;
    }
    assert input[offset..] == [] && addr + [] == addr;
    return Ok(addr);
  }
}

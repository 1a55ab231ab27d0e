/** Which texts are peer ids and multiaddrs, and of what (crates/identity/src/peer_id.rs:109-213,
    crates/core/src/multiaddr.rs:188-317): every text is accepted or refused by these laws, not only those
    the printers produce. */
module TextForms {
  import opened Bytes
  import Base32
  import Base58
  import M = Multiaddr
  import T = MultiaddrText
  import PeerIds
  import Varint
  import WireForms

  // -------------------------------------------------------------------------- peer ids

  lemma CidBytesIff(s: Blob, id: PeerIds.Id)
    ensures PeerIds.FromCidBytes(s) == Ok(id) <==>
              PeerIds.Valid(id) && s == [0x01, 0x72] + PeerIds.ToBytes(id)
  {
    hide PeerIds.FromBytes, PeerIds.ToBytes, Varint.Read, Varint.Encode;
    WireForms.Varints(1);
    WireForms.Varints(0x72);
    Varint.ReadIffEncoded(s, 1, 1);
    if s != [] && s[0] == 1 {
      var rest := s[1..];
      assert Varint.Encode(1) <= s;
      Varint.ReadIffEncoded(rest, 0x72, 1);
      if rest != [] && rest[0] == 0x72 {
        assert Varint.Encode(0x72) <= rest;
        PeerIds.BinaryIff(rest[1..], id);
        assert s == [0x01, 0x72] + rest[1..];
      }
    }
    if s == [0x01, 0x72] + PeerIds.ToBytes(id) {
      assert s[1..] == [0x72] + PeerIds.ToBytes(id) && s[1..][1..] == PeerIds.ToBytes(id);
    }
    OtherVersion(s);
  }

  /** Another version or codec is refused. */
  lemma OtherVersion(s: Blob)
    ensures PeerIds.FromCidBytes(s).Ok? ==> |s| >= 2 && s[0] == 1 && s[1] == 0x72
  {
    hide PeerIds.FromBytes;
    WireForms.Varints(1);
    WireForms.Varints(0x72);
    if PeerIds.FromCidBytes(s).Ok? {
      var Ok((version, n)) := Varint.Read(s);
      Varint.ReadIffEncoded(s, version, n);
      var Ok((codec, k)) := Varint.Read(s[n..]);
      Varint.ReadIffEncoded(s[n..], codec, k);
    }
  }

  /** A text names a peer exactly if, read as base 58 when it starts with `1` or `Qm`, it is the binary form
      of the id, and otherwise, read as multibase base 32 or base 58, it is version 1 of its libp2p-key
      CID. */
  lemma PeerTextIff(t: string, id: PeerIds.Id)
    ensures PeerIds.Parse(t) == Ok(id) <==>
              PeerIds.Valid(id) &&
              if t != "" && (t[0] == '1' || (|t| >= 2 && t[0] == 'Q' && t[1] == 'm'))
              then Base58.Decode(t) == Ok(PeerIds.ToBytes(id))
              else
                var cid := [0x01, 0x72] + PeerIds.ToBytes(id);
                && t != ""
                && (((t[0] == 'b' || t[0] == 'B') && Base32.Decode(t[1..]) == Ok(cid))
                    || (t[0] == 'z' && Base58.Decode(t[1..]) == Ok(cid)))
  {
    hide PeerIds.FromBytes, PeerIds.ToBytes, Base58.Decode, Base32.Decode, PeerIds.FromCidBytes;
    if t != "" {
      if Base58.Decode(t).Ok? {
        PeerIds.BinaryIff(Base58.Decode(t).value, id);
      }
      if Base32.Decode(t[1..]).Ok? {
        CidBytesIff(Base32.Decode(t[1..]).value, id);
      }
      if Base58.Decode(t[1..]).Ok? {
        CidBytesIff(Base58.Decode(t[1..]).value, id);
      }
    }
  }

  // ------------------------------------------------------------------------ multiaddrs

  /** Decimal digits, with or without a plus sign, for this number. */
  predicate Numeral(s: Blob, n: nat) {
    var digits := if s != [] && s[0] == 43 then s[1..] else s;
    digits != [] && T.AllDigits(digits) && T.Number(digits) == n
  }

  /** The name a component goes by. */
  function NameOf(p: M.Protocol): Blob {
    match p
    case Ip4(_) => WireForms.Ascii("ip4")
    case Ip6(_) => WireForms.Ascii("ip6")
    case Dns(_) => WireForms.Ascii("dns")
    case Dns4(_) => WireForms.Ascii("dns4")
    case Dns6(_) => WireForms.Ascii("dns6")
    case Udp(_) => WireForms.Ascii("udp")
    case QuicV1 => WireForms.Ascii("quic-v1")
    case P2p(_) => WireForms.Ascii("p2p")
  }

  predicate DottedQuad(s: Blob, o: Blob) {
    var parts := T.Split(s, 46);
    |o| == 4 && |parts| == 4 && forall i :: 0 <= i < 4 ==> Numeral(parts[i], o[i])
  }

  predicate NameText(std: T.Std, s: Blob) {
    s != [] && 47 !in s && !std.hasBlanks(s)
  }

  /** The text stands for the value of the component. */
  predicate ValueText(std: T.Std, p: M.Protocol, s: Blob) {
    s != [] &&
    match p
    case Ip4(o) => DottedQuad(s, o)
    case Ip6(o) => std.parseIp6(s) == Some(o)
    case Dns(name) => s == name && NameText(std, s)
    case Dns4(name) => s == name && NameText(std, s)
    case Dns6(name) => s == name && NameText(std, s)
    case Udp(port) => Numeral(s, port) && port < 65536
    case QuicV1 => false
    case P2p(id) => PeerIds.Parse(std.chars(s)) == Ok(id)
  }

  /** The segments are those of the components, one by one: a name, and a value if the component has one. */
  predicate Spelt(std: T.Std, parts: seq<Blob>, addr: M.Addr)
    decreases |addr|
  {
    if addr == [] then parts == []
    else if addr[0].QuicV1? then parts != [] && parts[0] == NameOf(addr[0]) && Spelt(std, parts[1..], addr[1..])
    else
      && |parts| >= 2 && parts[0] == NameOf(addr[0]) && ValueText(std, addr[0], parts[1])
      && Spelt(std, parts[2..], addr[1..])
  }

  lemma NumeralIff(s: Blob, max: nat, n: nat)
    ensures T.ParseNumber(s, max) == Some(n) <==> Numeral(s, n) && n <= max
  {
  }

  lemma QuadIff(s: Blob, o: Blob)
    ensures T.ParseIp4(s) == Some(o) <==> DottedQuad(s, o)
  {
    hide T.ParseNumber, Numeral, T.Split;
    var parts := T.Split(s, 46);
    if |parts| == 4 && |o| == 4 {
      forall i | 0 <= i < 4
        ensures T.ParseNumber(parts[i], 255) == Some(o[i]) <==> Numeral(parts[i], o[i])
      {
        NumeralIff(parts[i], 255, o[i]);
      }
      QuadOf(s, o);
    }
  }

  lemma QuadOf(s: Blob, o: Blob)
    requires |o| == 4 && |T.Split(s, 46)| == 4
    ensures var parts := T.Split(s, 46);
            T.ParseIp4(s) == Some(o) <==>
              && T.ParseNumber(parts[0], 255) == Some(o[0]) && T.ParseNumber(parts[1], 255) == Some(o[1])
              && T.ParseNumber(parts[2], 255) == Some(o[2]) && T.ParseNumber(parts[3], 255) == Some(o[3])
  {
    hide T.Split, T.ParseNumber;
    var parts := T.Split(s, 46);
    assert o == [o[0], o[1], o[2], o[3]];
    forall i | 0 <= i < 4
      ensures T.ParseNumber(parts[i], 255).Some? ==> T.ParseNumber(parts[i], 255).value <= 255
    {
      NumberBound(parts[i], 255);
    }
  }

  lemma NumberBound(s: Blob, max: nat)
    ensures T.ParseNumber(s, max).Some? ==> T.ParseNumber(s, max).value <= max
  {
  }

  lemma Named()
    ensures T.IP4 == WireForms.Ascii("ip4") && T.IP6 == WireForms.Ascii("ip6") && T.UDP == WireForms.Ascii("udp")
    ensures T.DNS == WireForms.Ascii("dns") && T.DNS4 == WireForms.Ascii("dns4") && T.DNS6 == WireForms.Ascii("dns6")
    ensures T.QUIC_V1 == WireForms.Ascii("quic-v1") && T.P2P == WireForms.Ascii("p2p")
    ensures T.SLASH == 47 && T.DOT == 46 && T.PLUS == 43 && T.ZERO == 48
  {
    WireForms.Names();
  }

  lemma ValueIff(std: T.Std, p: M.Protocol, name: Blob, s: Blob)
    requires T.TakesValue(name) && s != []
    ensures T.ParseValue(std, name, s) == Ok(p) <==> !p.QuicV1? && name == NameOf(p) && ValueText(std, p, s)
  {
    hide T.ParseIp4, T.ParseNumber, PeerIds.Parse, DottedQuad, Numeral, WireForms.Ascii;
    Named();
    Distinct();
    if p.Ip4? {
      QuadIff(s, p.octets);
    } else if p.Udp? {
      NumeralIff(s, 65535, p.port);
    }
  }

  /** No two names are alike. */
  lemma Distinct()
    ensures T.IP4 != T.IP6 && T.IP4 != T.UDP && T.IP4 != T.P2P && T.IP4 != T.DNS && T.IP6 != T.UDP && T.IP6 != T.P2P
    ensures T.IP6 != T.DNS && T.UDP != T.P2P && T.UDP != T.DNS && T.P2P != T.DNS && T.DNS4 != T.DNS6
    ensures |T.DNS4| == 4 && |T.DNS6| == 4 && |T.QUIC_V1| == 7 && |T.IP4| == 3 && |T.IP6| == 3 && |T.UDP| == 3
    ensures |T.P2P| == 3 && |T.DNS| == 3
  {
    assert T.IP4[0] == 105 && T.UDP[0] == 117 && T.P2P[0] == 112 && T.DNS[0] == 100;
    assert T.IP4[2] == 52 && T.IP6[2] == 54 && T.IP6[0] == 105 && T.DNS4[3] == 52 && T.DNS6[3] == 54;
  }

  lemma {:induction false} PartsIff(std: T.Std, parts: seq<Blob>, addr: M.Addr)
    ensures T.ParseParts(std, parts) == Ok(addr) <==> Spelt(std, parts, addr)
    decreases |parts|
  {
    hide T.ParseValue, ValueText, NameOf;
    if parts != [] && addr != [] {
      FirstIff(std, parts, addr[0]);
      if T.ParseOne(std, parts) == Ok((addr[0], 1)) {
        PartsIff(std, parts[1..], addr[1..]);
        assert [addr[0]] + addr[1..] == addr;
      } else if T.ParseOne(std, parts) == Ok((addr[0], 2)) {
        PartsIff(std, parts[2..], addr[1..]);
        assert [addr[0]] + addr[1..] == addr;
      }
    }
  }

  lemma FirstIff(std: T.Std, parts: seq<Blob>, p: M.Protocol)
    requires parts != []
    ensures T.ParseOne(std, parts) == Ok((p, 1)) <==> p.QuicV1? && parts[0] == NameOf(p)
    ensures T.ParseOne(std, parts) == Ok((p, 2)) <==>
              !p.QuicV1? && |parts| >= 2 && parts[0] == NameOf(p) && ValueText(std, p, parts[1])
    ensures T.ParseOne(std, parts).Ok? ==> T.ParseOne(std, parts).value.1 == 1 || T.ParseOne(std, parts).value.1 == 2
  {
    hide T.ParseValue, WireForms.Ascii, DottedQuad, Numeral, NameText;
    Named();
    Distinct();
    if |parts| >= 2 && parts[1] != [] && T.TakesValue(parts[0]) {
      ValueIff(std, p, parts[0], parts[1]);
    }
  }

  /** A text is a multiaddr exactly if it starts with a slash and the segments behind it spell its
      components. */
  lemma AddressTextIff(std: T.Std, input: Blob, addr: M.Addr)
    ensures T.Parse(std, input) == Ok(addr) <==>
              input != [] && input[0] == 47 && Spelt(std, T.Split(input, 47)[1..], addr)
  {
    hide T.ParseParts, Spelt;
    if input != [] && input[0] == 47 {
      PartsIff(std, T.Split(input, 47)[1..], addr);
    }
  }

  /** The eight names, seven of which take a value. */
  predicate KnownName(name: Blob) {
    || name == T.IP4 || name == T.IP6 || name == T.DNS || name == T.DNS4 || name == T.DNS6
    || name == T.UDP || name == T.P2P
  }

  /** Why a component is refused, exactly. */
  lemma ComponentErrors(std: T.Std, parts: seq<Blob>)
    requires parts != []
    ensures var r, name := T.ParseOne(std, parts), parts[0];
            var value := if |parts| >= 2 then parts[1] else [];
            var given := KnownName(name) && value != [];
            && (r == Err(T.EmptyProtocol) <==> name == [])
            && (r == Err(T.UnknownProtocol) <==> name != [] && name != T.QUIC_V1 && !KnownName(name))
            && (r == Err(T.MissingValue) <==> KnownName(name) && value == [])
            && (r == Err(T.InvalidIp4) <==> given && name == T.IP4 && forall o :: !DottedQuad(value, o))
            && (r == Err(T.InvalidIp6) <==> given && name == T.IP6 && std.parseIp6(value).None?)
            && (r == Err(T.InvalidPort) <==>
                  given && name == T.UDP && forall n: nat :: Numeral(value, n) ==> n > 65535)
            && (r == Err(T.InvalidPeerId) <==> given && name == T.P2P && PeerIds.Parse(std.chars(value)).Err?)
            && (r == Err(T.InvalidDnsName) <==>
                  given && (name == T.DNS || name == T.DNS4 || name == T.DNS6) && !NameText(std, value))
  {
    hide T.ParseIp4, T.ParseNumber, PeerIds.Parse, DottedQuad, Numeral;
    Distinct();
    var value := if |parts| >= 2 then parts[1] else [];
    forall o: Blob
      ensures T.ParseIp4(value) == Some(o) <==> DottedQuad(value, o)
    {
      QuadIff(value, o);
    }
    forall n: nat
      ensures T.ParseNumber(value, 65535) == Some(n) <==> Numeral(value, n) && n <= 65535
    {
      NumeralIff(value, 65535, n);
    }
  }

  /** An address is refused for want of its leading slash, or for its first component that is refused. */
  lemma FirstErrorCounts(std: T.Std, input: Blob, parts: seq<Blob>)
    ensures T.Parse(std, []) == Err(T.EmptyInput)
    ensures input != [] && input[0] != 47 ==> T.Parse(std, input) == Err(T.MissingLeadingSlash)
    ensures input != [] && input[0] == 47 ==> T.Parse(std, input) == T.ParseParts(std, T.Split(input, 47)[1..])
    ensures parts != [] && T.ParseOne(std, parts).Err? ==>
              T.ParseParts(std, parts) == Err(T.ParseOne(std, parts).error)
    ensures parts != [] && T.ParseOne(std, parts).Ok? ==>
              var rest := T.ParseParts(std, parts[T.ParseOne(std, parts).value.1..]);
              rest.Err? ==> T.ParseParts(std, parts) == rest
  {
    hide T.ParseOne;
  }
}

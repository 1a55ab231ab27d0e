/** Multiaddrs as text (crates/core/src/multiaddr.rs:141-317). Text is carried as its UTF-8 bytes. What
    the standard library does with IPv6 text, with decoding text into characters and with classifying
    white space is a parameter. */
module MultiaddrText {
  import opened Bytes
  import opened Multiaddr
  import PeerIds
  import Utf8

  const SLASH: byte := 47
  const DOT: byte := 46
  const PLUS: byte := 43
  const ZERO: byte := 48

  const IP4: Blob := [105, 112, 52]
  const IP6: Blob := [105, 112, 54]
  const DNS: Blob := [100, 110, 115]
  const DNS4: Blob := [100, 110, 115, 52]
  const DNS6: Blob := [100, 110, 115, 54]
  const UDP: Blob := [117, 100, 112]
  const QUIC_V1: Blob := [113, 117, 105, 99, 45, 118, 49]
  const P2P: Blob := [112, 50, 112]

  datatype TextError =
    | EmptyInput | MissingLeadingSlash | EmptyProtocol | MissingValue | InvalidIp4 | InvalidIp6 | InvalidDnsName
    | InvalidPort | InvalidPeerId | UnknownProtocol

  // --------------------------------------------------------------------- standard library

  datatype Std = Std(
    printIp6: Blob -> Blob,
    parseIp6: Blob -> Option<Blob>,
    chars: Blob -> string,
    hasBlanks: Blob -> bool)

  predicate Free(s: Blob, sep: byte) {
    forall i :: 0 <= i < |s| ==> s[i] != sep
  }

  predicate Ascii(s: Blob) {
    forall i :: 0 <= i < |s| ==> s[i] < 128
  }

  function AsciiChars(s: Blob): (t: string)
    requires Ascii(s)
    ensures |t| == |s|
  {
    seq(|s|, i requires 0 <= i < |s| => s[i] as char)
  }

  /** IPv6 printing is inverted by parsing and uses no slash, and ASCII decodes byte by byte. */
  ghost predicate Sane(std: Std) {
    && (forall o: Blob :: |o| == 16 ==>
          std.parseIp6(std.printIp6(o)) == Some(o) && std.printIp6(o) != [] && Free(std.printIp6(o), SLASH))
    && (forall s: Blob :: Ascii(s) ==> std.chars(s) == AsciiChars(s))
  }

  // ------------------------------------------------------------------------------ splitting

  /** `str::split`: the parts between separators, one more than there are separators. */
  function Split(s: Blob, sep: byte): (parts: seq<Blob>)
    ensures parts != []
  {
    if s == [] then [[]]
    else if s[0] == sep then [[]] + Split(s[1..], sep)
    else
      var rest := Split(s[1..], sep);
      [[s[0]] + rest[0]] + rest[1..]
  }

  lemma {:induction false} SplitPart(part: Blob, rest: Blob, sep: byte)
    requires Free(part, sep)
    ensures Split(part + [sep] + rest, sep) == [part] + Split(rest, sep)
  {
    var s := part + [sep] + rest;
    if part == [] {
      assert s[0] == sep && s[1..] == rest;
    } else {
      SplitPart(part[1..], rest, sep);
      assert s[0] == part[0] && s[1..] == part[1..] + [sep] + rest;
      assert [part[0]] + part[1..] == part;
    }
  }

  lemma {:induction false} SplitLast(part: Blob, sep: byte)
    requires Free(part, sep)
    ensures Split(part, sep) == [part]
  {
    if part != [] {
      SplitLast(part[1..], sep);
      assert [part[0]] + part[1..] == part;
    }
  }

  // -------------------------------------------------------------------------------- numbers

  predicate IsDigit(b: byte) {
    48 <= b <= 57
  }

  function Print(n: nat): (s: Blob)
    ensures s != []
  {
    if n < 10 then [ZERO + n] else Print(n / 10) + [ZERO + n % 10]
  }

  predicate AllDigits(s: Blob) {
    forall i :: 0 <= i < |s| ==> IsDigit(s[i])
  }

  function Number(s: Blob): nat
    requires AllDigits(s)
  {
    if s == [] then 0 else 10 * Number(s[..|s| - 1]) + (s[|s| - 1] - ZERO)
  }

  /** Parsing into an unsigned type with a largest value; a leading `+` is allowed. */
  function ParseNumber(s: Blob, max: nat): Option<nat> {
    var digits := if s != [] && s[0] == PLUS then s[1..] else s;
    if digits == [] || !AllDigits(digits) || Number(digits) > max then None else Some(Number(digits))
  }

  lemma {:induction false} PrintNumber(n: nat)
    ensures AllDigits(Print(n)) && Number(Print(n)) == n
  {
    if n >= 10 {
      PrintNumber(n / 10);
      var s := Print(n);
      assert s[..|s| - 1] == Print(n / 10) && s[|s| - 1] == ZERO + n % 10;
    } else {
      assert Print(n)[..0] == [];
    }
  }

  lemma ParsePrinted(n: nat, max: nat)
    requires n <= max
    ensures ParseNumber(Print(n), max) == Some(n) && Free(Print(n), SLASH) && Free(Print(n), DOT)
  {
    PrintNumber(n);
  }

  function PrintIp4(o: Blob): Blob
    requires |o| == 4
  {
    Print(o[0]) + [DOT] + (Print(o[1]) + [DOT] + (Print(o[2]) + [DOT] + Print(o[3])))
  }

  function ParseIp4(s: Blob): Option<Blob> {
    var parts := Split(s, DOT);
    if |parts| != 4 then None
    else
      var a, b, c, d :=
        ParseNumber(parts[0], 255), ParseNumber(parts[1], 255), ParseNumber(parts[2], 255), ParseNumber(parts[3], 255);
      if a.None? || b.None? || c.None? || d.None? then None else Some(Octets(a.value, b.value, c.value, d.value))
  }

  function Octets(a: nat, b: nat, c: nat, d: nat): Blob {
    [a % 256, b % 256, c % 256, d % 256]
  }

  lemma Ip4Survives(o: Blob)
    requires |o| == 4
    ensures ParseIp4(PrintIp4(o)) == Some(o) && PrintIp4(o) != [] && Free(PrintIp4(o), SLASH)
  {
    hide Print, ParseNumber, Split;
    ParsePrinted(o[0], 255);
    ParsePrinted(o[1], 255);
    ParsePrinted(o[2], 255);
    ParsePrinted(o[3], 255);
    var last := Print(o[3]);
    var third := Print(o[2]) + [DOT] + last;
    var second := Print(o[1]) + [DOT] + third;
    SplitLast(last, DOT);
    SplitPart(Print(o[2]), last, DOT);
    SplitPart(Print(o[1]), third, DOT);
    SplitPart(Print(o[0]), second, DOT);
    assert Split(PrintIp4(o), DOT) == [Print(o[0])] + ([Print(o[1])] + ([Print(o[2])] + [last]));
    assert Octets(o[0], o[1], o[2], o[3]) == o;
  }

  // ----------------------------------------------------------------------------- components

  predicate ValidDns(std: Std, name: Blob) {
    name != [] && Free(name, SLASH) && !std.hasBlanks(name)
  }

  /** The bytes of text that is known to be ASCII; anything else is cut down to its low bits. */
  function LowBytes(t: string): (s: Blob)
    ensures |s| == |t|
  {
    seq(|t|, i requires 0 <= i < |t| => t[i] as int % 128)
  }

  /** The slash-separated parts a component is printed as. */
  function Segments(std: Std, p: Protocol): (r: seq<Blob>)
    requires p.Ip4? ==> |p.octets| == 4
    ensures r != []
  {
    match p
    case Ip4(octets) => [IP4, PrintIp4(octets)]
    case Ip6(octets) => [IP6, std.printIp6(octets)]
    case Dns(name) => [DNS, name]
    case Dns4(name) => [DNS4, name]
    case Dns6(name) => [DNS6, name]
    case Udp(port) => [UDP, Print(port)]
    case QuicV1 => [QUIC_V1]
    case P2p(id) => [P2P, LowBytes(PeerIds.Display(id))]
  }

  predicate Printable(addr: Addr) {
    forall i :: 0 <= i < |addr| && addr[i].Ip4? ==> |addr[i].octets| == 4
  }

  function AllSegments(std: Std, addr: Addr): seq<Blob>
    requires Printable(addr)
  {
    if addr == [] then [] else Segments(std, addr[0]) + AllSegments(std, addr[1..])
  }

  /** Each part with a slash before it. */
  function Joined(parts: seq<Blob>): Blob {
    if parts == [] then [] else [SLASH] + parts[0] + Joined(parts[1..])
  }

  function Display(std: Std, addr: Addr): Blob
    requires Printable(addr)
  {
    Joined(AllSegments(std, addr))
  }

  function RequireValue(parts: seq<Blob>): Result<Blob, TextError> {
    if |parts| >= 2 && parts[1] != [] then Ok(parts[1]) else Err(MissingValue)
  }

  function ParseValue(std: Std, name: Blob, value: Blob): Result<Protocol, TextError> {
    if name == IP4 then
      (match ParseIp4(value) case None => Err(InvalidIp4) case Some(o) => Ok(Ip4(o)))
    else if name == IP6 then
      (match std.parseIp6(value) case None => Err(InvalidIp6) case Some(o) => Ok(Ip6(o)))
    else if name == UDP then
      (match ParseNumber(value, 65535) case None => Err(InvalidPort) case Some(n) => Ok(Udp(n)))
    else if name == P2P then
      (match PeerIds.Parse(std.chars(value)) case Err(_) => Err(InvalidPeerId) case Ok(id) => Ok(P2p(id)))
    else if !ValidDns(std, value) then Err(InvalidDnsName)
    else Ok(if name == DNS then Dns(value) else if name == DNS4 then Dns4(value) else Dns6(value))
  }

  predicate TakesValue(name: Blob) {
    name == IP4 || name == IP6 || name == UDP || name == P2P || name == DNS || name == DNS4 || name == DNS6
  }

  /** The component at the front of the parts, and how many parts it takes. */
  function ParseOne(std: Std, parts: seq<Blob>): (r: Result<(Protocol, nat), TextError>)
    requires parts != []
    ensures r.Ok? ==> 1 <= r.value.1 <= |parts|
  {
    var name := parts[0];
    if name == [] then Err(EmptyProtocol)
    else if name == QUIC_V1 then Ok((QuicV1, 1))
    else if !TakesValue(name) then Err(UnknownProtocol)
    else
      match RequireValue(parts)
      case Err(e) => Err(e)
      case Ok(value) =>
        match ParseValue(std, name, value)
        case Err(e) => Err(e)
        case Ok(p) => Ok((p, 2))
  }

  function ParseParts(std: Std, parts: seq<Blob>): Result<Addr, TextError>
    decreases |parts|
  {
    if parts == [] then Ok([])
    else
      match ParseOne(std, parts)
      case Err(e) => Err(e)
      case Ok((p, n)) =>
        match ParseParts(std, parts[n..])
        case Err(e) => Err(e)
        case Ok(rest) => Ok([p] + rest)
  }

  function Parse(std: Std, input: Blob): Result<Addr, TextError> {
    if input == [] then Err(EmptyInput)
    else if input[0] != SLASH then Err(MissingLeadingSlash)
    else ParseParts(std, Split(input, SLASH)[1..])
  }

  // ------------------------------------------------------------------------------ round trip

  /** A peer id whose printed form is taken for base58. */
  predicate Readable(id: PeerIds.Id) {
    "1" <= PeerIds.Display(id) || "Qm" <= PeerIds.Display(id)
  }

  predicate NameOk(std: Std, p: Protocol) {
    match p
    case Dns(name) => ValidDns(std, name)
    case Dns4(name) => ValidDns(std, name)
    case Dns6(name) => ValidDns(std, name)
    case _ => true
  }

  /** A component that prints to text it can be read back from: its DNS name is valid, or its peer id
      prints the way derived ids do. */
  predicate Speakable(std: Std, p: Protocol) {
    NameOk(std, p) && (p.P2p? ==> Readable(p.id))
  }

  predicate AllSpeakable(std: Std, addr: Addr) {
    forall i :: 0 <= i < |addr| ==> Speakable(std, addr[i])
  }

  /** The printed form of a peer id is base58: ASCII and without slashes. */
  lemma PeerText(id: PeerIds.Id, std: Std)
    requires Sane(std) && PeerIds.Valid(id)
    ensures var t := PeerIds.Display(id);
            && LowBytes(t) != [] && Free(LowBytes(t), SLASH) && std.chars(LowBytes(t)) == t
  {
    hide PeerIds.ToBytes, PeerIds.Base58.Encode, PeerIds.Base58.Decode;
    PeerIds.Base58.DecodeEncoded(PeerIds.ToBytes(id));
    var t := PeerIds.Display(id);
    forall i | 0 <= i < |t|
      ensures t[i] as int < 128 && t[i] != '/'
    {
      assert PeerIds.Base58.InAlphabet(t[i]);
    }
    assert AsciiChars(LowBytes(t)) == t;
  }

  lemma ParseNamed(std: Std, name: Blob, value: Blob, p: Protocol, rest: seq<Blob>)
    requires TakesValue(name) && name != [] && name != QUIC_V1 && value != [] && ParseValue(std, name, value) == Ok(p)
    ensures ParseOne(std, [name, value] + rest) == Ok((p, 2))
  {
    hide ParseValue;
    var parts := [name, value] + rest;
    assert parts[0] == name && parts[1] == value;
  }

  lemma Names()
    ensures forall name :: TakesValue(name) ==> name != [] && name != QUIC_V1 && Free(name, SLASH)
    ensures Free(QUIC_V1, SLASH)
  {
  }

  /** A component with a value: its name, its value and how the value is read back. */
  ghost predicate ReadsBack(std: Std, p: Protocol, name: Blob, value: Blob) {
    && TakesValue(name) && value != [] && Free(value, SLASH)
    && ParseValue(std, name, value) == Ok(p)
  }

  lemma AddressReadsBack(std: Std, p: Protocol)
    requires Sane(std) && WellFormed(p) && (p.Ip4? || p.Ip6?)
    ensures p.Ip4? ==> ReadsBack(std, p, IP4, PrintIp4(p.octets))
    ensures p.Ip6? ==> ReadsBack(std, p, IP6, std.printIp6(p.octets))
  {
    hide PrintIp4, ParseIp4;
    if p.Ip4? {
      Ip4Survives(p.octets);
    } else {
      assert IP6[2] != IP4[2];
    }
  }

  lemma PortReadsBack(std: Std, port: nat)
    requires port < 65536
    ensures ReadsBack(std, Udp(port), UDP, Print(port))
  {
    hide Print, ParseNumber;
    ParsePrinted(port, 65535);
    assert UDP[0] != IP4[0];
  }

  lemma PeerReadsBack(std: Std, p: Protocol)
    requires Sane(std) && p.P2p? && WellFormed(p) && Speakable(std, p)
    ensures ReadsBack(std, p, P2P, LowBytes(PeerIds.Display(p.id)))
  {
    hide PeerIds.Parse, PeerIds.Display, Sane, LowBytes;
    PeerPrinted(std, p.id);
    assert P2P[0] != IP4[0] && P2P[0] != UDP[0];
  }

  lemma DnsReadsBack(std: Std, name: Blob)
    requires ValidDns(std, name)
    ensures ReadsBack(std, Dns(name), DNS, name)
    ensures ReadsBack(std, Dns4(name), DNS4, name)
    ensures ReadsBack(std, Dns6(name), DNS6, name)
  {
    assert DNS[0] != IP4[0] && DNS[0] != UDP[0] && DNS[0] != P2P[0];
    assert |DNS| != |DNS4| && DNS4[3] != DNS6[3];
  }

  lemma PairReadsBack(std: Std, p: Protocol, name: Blob, value: Blob, rest: seq<Blob>)
    requires ReadsBack(std, p, name, value)
    ensures ParseOne(std, [name, value] + rest) == Ok((p, 2))
    ensures forall part :: part in [name, value] ==> Free(part, SLASH)
  {
    hide ParseValue, ParseOne;
    Names();
    ParseNamed(std, name, value, p, rest);
  }

  /** Each component is read back from its parts, whatever follows them. */
  lemma ParseOnePrinted(std: Std, p: Protocol, rest: seq<Blob>)
    requires Sane(std) && WellFormed(p) && Speakable(std, p)
    ensures ParseOne(std, Segments(std, p) + rest) == Ok((p, |Segments(std, p)|))
    ensures forall part :: part in Segments(std, p) ==> Free(part, SLASH)
  {
    hide ReadsBack, Print, PrintIp4, PeerIds.Display, ParseOne, Free, LowBytes, ValidDns;
    match p {
      case Ip4(octets) =>
        AddressReadsBack(std, p);
        PairReadsBack(std, p, IP4, PrintIp4(octets), rest);
      case Ip6(octets) =>
        AddressReadsBack(std, p);
        PairReadsBack(std, p, IP6, std.printIp6(octets), rest);
      case Udp(port) =>
        PortReadsBack(std, port);
        PairReadsBack(std, p, UDP, Print(port), rest);
      case P2p(id) =>
        PeerReadsBack(std, p);
        PairReadsBack(std, p, P2P, LowBytes(PeerIds.Display(id)), rest);
      case QuicV1 =>
        Names();
        ParseQuic(std, rest);
      case Dns(name) =>
        DnsReadsBack(std, name);
        PairReadsBack(std, p, DNS, name, rest);
      case Dns4(name) =>
        DnsReadsBack(std, name);
        PairReadsBack(std, p, DNS4, name, rest);
      case Dns6(name) =>
        DnsReadsBack(std, name);
        PairReadsBack(std, p, DNS6, name, rest);
    }
  }

  lemma ParseQuic(std: Std, rest: seq<Blob>)
    ensures ParseOne(std, [QUIC_V1] + rest) == Ok((QuicV1, 1))
  {
    assert ([QUIC_V1] + rest)[0] == QUIC_V1;
  }

  lemma PeerPrinted(std: Std, id: PeerIds.Id)
    requires Sane(std) && PeerIds.Valid(id) && Readable(id)
    ensures var s := LowBytes(PeerIds.Display(id));
            s != [] && Free(s, SLASH) && PeerIds.Parse(std.chars(s)) == Ok(id)
  {
    hide PeerIds.Parse, PeerIds.Display;
    PeerText(id, std);
    PeerIds.ParseDisplayedIff(id);
  }

  lemma {:induction false} SplitJoined(parts: seq<Blob>)
    requires forall part :: part in parts ==> Free(part, SLASH)
    ensures Split(Joined(parts), SLASH) == [[]] + parts
  {
    hide Free;
    if parts != [] {
      var first, rest := parts[0], parts[1..];
      var s := first + Joined(rest);
      assert Joined(parts) == [SLASH] + s;
      SplitSlash(s);
      assert parts == [first] + rest;
      if rest == [] {
        assert s == first;
        SplitLast(first, SLASH);
      } else {
        SplitJoined(rest);
        SplitAfter(first, rest);
      }
    }
  }

  lemma SplitAfter(first: Blob, rest: seq<Blob>)
    requires Free(first, SLASH) && rest != [] && Split(Joined(rest), SLASH) == [[]] + rest
    ensures Split(first + Joined(rest), SLASH) == [first] + rest
  {
    hide Free, Split;
    var later := rest[0] + Joined(rest[1..]);
    assert Joined(rest) == [SLASH] + later;
    assert first + Joined(rest) == first + [SLASH] + later;
    SplitPart(first, later, SLASH);
    SplitSlash(later);
    assert ([[]] + Split(later, SLASH))[1..] == Split(later, SLASH) && ([[]] + rest)[1..] == rest;
  }

  lemma SplitSlash(later: Blob)
    ensures Split([SLASH] + later, SLASH) == [[]] + Split(later, SLASH)
  {
    assert ([SLASH] + later)[1..] == later;
  }

  lemma {:induction false} ParsePartsPrinted(std: Std, addr: Addr)
    requires Sane(std) && AllWellFormed(addr) && AllSpeakable(std, addr) && Printable(addr)
    ensures ParseParts(std, AllSegments(std, addr)) == Ok(addr)
    ensures forall part :: part in AllSegments(std, addr) ==> Free(part, SLASH)
  {
    hide ParseOne, Segments;
    if addr != [] {
      var first, rest := Segments(std, addr[0]), AllSegments(std, addr[1..]);
      ParsePartsPrinted(std, addr[1..]);
      assert Speakable(std, addr[0]);
      ParseOnePrinted(std, addr[0], rest);
      assert (first + rest)[|first|..] == rest;
      assert [addr[0]] + addr[1..] == addr;
    }
  }

  /** Parsing the printed form returns the address if every component survives on its own. */
  lemma ParseDisplayed(std: Std, addr: Addr)
    requires Sane(std) && AllWellFormed(addr) && AllSpeakable(std, addr) && addr != []
    ensures Printable(addr) && Parse(std, Display(std, addr)) == Ok(addr)
  {
    hide ParseParts, Split, Segments, Speakable;
    assert forall i :: 0 <= i < |addr| ==> WellFormed(addr[i]);
    ParsePartsPrinted(std, addr);
    var parts := AllSegments(std, addr);
    SplitJoined(parts);
    assert parts != [];
    assert ([[]] + parts)[1..] == parts;
  }

  // --------------------------------------------------------------- exactly which addresses

  /** Whatever is parsed has valid names only. */
  lemma {:induction false} ParsedNames(std: Std, parts: seq<Blob>)
    requires ParseParts(std, parts).Ok?
    ensures var addr := ParseParts(std, parts).value;
            forall i :: 0 <= i < |addr| ==> NameOk(std, addr[i])
    decreases |parts|
  {
    hide ParseOne;
    if parts != [] {
      var Ok((p, n)) := ParseOne(std, parts);
      ParsedName(std, parts);
      ParsedNames(std, parts[n..]);
    }
  }

  lemma ParsedName(std: Std, parts: seq<Blob>)
    requires parts != [] && ParseOne(std, parts).Ok?
    ensures NameOk(std, ParseOne(std, parts).value.0)
  {
  }

  /** A component with a valid name prints to parts without slashes, and as many as are read. */
  lemma SegmentsFree(std: Std, p: Protocol)
    requires Sane(std) && WellFormed(p) && NameOk(std, p)
    ensures forall part :: part in Segments(std, p) ==> Free(part, SLASH)
  {
    hide PeerIds.Display, LowBytes, ParseIp4, PrintIp4, Print;
    Names();
    match p {
      case Ip4(octets) => Ip4Survives(octets);
      case Ip6(octets) =>
      case Udp(port) => ParsePrinted(port, port);
      case P2p(id) => PeerText(id, std);
      case _ =>
    }
  }

  lemma {:induction false} AllSegmentsFree(std: Std, addr: Addr)
    requires Sane(std) && AllWellFormed(addr) && Printable(addr)
    requires forall i :: 0 <= i < |addr| ==> NameOk(std, addr[i])
    ensures forall part :: part in AllSegments(std, addr) ==> Free(part, SLASH)
  {
    hide Segments, Free, NameOk, WellFormed;
    if addr != [] {
      assert WellFormed(addr[0]) && NameOk(std, addr[0]);
      SegmentsFree(std, addr[0]);
      AllSegmentsFree(std, addr[1..]);
    }
  }

  /** A component is read back from its own parts only if it is speakable, and always takes them all. */
  lemma ReadBackOnly(std: Std, p: Protocol, rest: seq<Blob>)
    requires Sane(std) && WellFormed(p) && NameOk(std, p)
    requires var r := ParseOne(std, Segments(std, p) + rest); r.Ok? && r.value.0 == p
    ensures Speakable(std, p) && ParseOne(std, Segments(std, p) + rest).value.1 == |Segments(std, p)|
  {
    if p.P2p? {
      hide PeerIds.Display, PeerIds.Parse, LowBytes;
      PeerText(p.id, std);
      PeerReadBack(std, p.id, rest);
      PeerIds.ParseDisplayedIff(p.id);
    } else {
      hide ParseOne;
      ParseOnePrinted(std, p, rest);
    }
  }

  lemma PeerReadBack(std: Std, id: PeerIds.Id, rest: seq<Blob>)
    requires Sane(std) && PeerIds.Valid(id)
    requires var r := ParseOne(std, Segments(std, P2p(id)) + rest); r.Ok? && r.value.0 == P2p(id)
    ensures PeerIds.Parse(PeerIds.Display(id)) == Ok(id)
    ensures ParseOne(std, Segments(std, P2p(id)) + rest).value.1 == 2
  {
    hide PeerIds.Display, PeerIds.Parse, LowBytes, Sane;
    var value := LowBytes(PeerIds.Display(id));
    var parts := [P2P, value] + rest;
    PeerText(id, std);
    assert parts[0] == P2P && parts[1] == value;
    assert P2P[0] != IP4[0] && P2P[0] != UDP[0] && P2P[0] != QUIC_V1[0];
  }

  lemma {:induction false} ReadBackAll(std: Std, addr: Addr)
    requires Sane(std) && AllWellFormed(addr) && Printable(addr)
    requires forall i :: 0 <= i < |addr| ==> NameOk(std, addr[i])
    requires ParseParts(std, AllSegments(std, addr)) == Ok(addr)
    ensures AllSpeakable(std, addr)
  {
    hide ParseOne, Segments, NameOk, Speakable, WellFormed;
    if addr != [] {
      var first, rest := Segments(std, addr[0]), AllSegments(std, addr[1..]);
      var parts := first + rest;
      var Ok((p, n)) := ParseOne(std, parts);
      var Ok(later) := ParseParts(std, parts[n..]);
      assert ([p] + later)[0] == p && ([p] + later)[1..] == later;
      assert WellFormed(addr[0]) && NameOk(std, addr[0]);
      ReadBackOnly(std, addr[0], rest);
      assert parts[n..] == rest;
      ReadBackAll(std, addr[1..]);
    }
  }

  /** An address that decodes from bytes survives its text exactly when all its DNS names are valid and
      all its peer ids print the way derived ids do. */
  lemma ParseDisplayedIff(std: Std, addr: Addr)
    requires Sane(std) && AllWellFormed(addr) && addr != []
    ensures Printable(addr)
    ensures Parse(std, Display(std, addr)) == Ok(addr) <==> AllSpeakable(std, addr)
  {
    hide ParseParts, Split, Segments, Speakable, NameOk;
    assert Printable(addr) by {
      assert forall i :: 0 <= i < |addr| ==> WellFormed(addr[i]);
    }
    if AllSpeakable(std, addr) {
      ParseDisplayed(std, addr);
    }
    if Parse(std, Display(std, addr)) == Ok(addr) {
      var parts := AllSegments(std, addr);
      ParsedNames(std, Split(Display(std, addr), SLASH)[1..]);
      AllSegmentsFree(std, addr);
      SplitJoined(parts);
      assert ([[]] + parts)[1..] == parts;
      ReadBackAll(std, addr);
    }
  }

  /** The addresses of key-derived peers qualify. */
  lemma DerivedReadable(key: Blob, sha256: PeerIds.Hash)
    ensures Readable(PeerIds.FromKey(key, sha256))
  {
    hide PeerIds.Display;
    var id := PeerIds.FromKey(key, sha256);
    if id.code == PeerIds.IDENTITY {
      PeerIds.IdentityPrintsOne(id);
    } else {
      PeerIds.HashPrintsQm(id);
    }
  }

  // ------------------------------------------------------------------- addresses that do not

  /** A DNS name with a slash decodes from bytes and prints as another address. */
  lemma NameWithSlash(std: Std)
    requires Sane(std) && !std.hasBlanks([97])
    ensures var addr := [Dns([97, SLASH] + QUIC_V1)];
            && FromBytes(ToBytes(addr)) == Ok(addr) && Printable(addr)
            && Parse(std, Display(std, addr)) == Ok([Dns([97]), QuicV1])
  {
    hide Parse, FromBytes, ToBytes;
    var a: Blob := [97];
    var addr, plain := [Dns([97, SLASH] + QUIC_V1)], [Dns(a), QuicV1];
    Utf8.AsciiValid([97, SLASH] + QUIC_V1);
    Utf8.AsciiValid(a);
    BinaryIff(ToBytes(addr), addr);
    ParseDisplayed(std, plain);
    SameText(std);
  }

  lemma JoinedPair(a: Blob, b: Blob, rest: seq<Blob>)
    ensures Joined([a, b] + rest) == [SLASH] + a + ([SLASH] + b + Joined(rest))
  {
    var parts := [a, b] + rest;
    assert parts[1..] == [b] + rest && parts[1..][1..] == rest;
  }

  lemma SameText(std: Std)
    ensures Display(std, [Dns([97, SLASH] + QUIC_V1)]) == Display(std, [Dns([97]), QuicV1])
  {
    var name: Blob, a: Blob, none: seq<Blob> := [97, SLASH] + QUIC_V1, [97], [];
    var one, two := [Dns(name)], [Dns(a), QuicV1];
    assert one[1..] == [] && two[1..] == [QuicV1] && two[1..][1..] == [];
    assert AllSegments(std, [QuicV1]) == [QUIC_V1] + none == [QUIC_V1];
    assert AllSegments(std, one) == [DNS, name] + none && AllSegments(std, two) == [DNS, a] + [QUIC_V1];
    JoinedPair(DNS, name, none);
    JoinedPair(DNS, a, [QUIC_V1]);
    assert [QUIC_V1][1..] == none;
    assert Joined([QUIC_V1]) == [SLASH] + QUIC_V1;
    assert [SLASH] + name + [] == [SLASH] + a + ([SLASH] + QUIC_V1);
  }

  /** A peer id that is not derived from a key decodes from bytes and prints as no address. */
  lemma UnreadablePeer(std: Std)
    requires Sane(std)
    ensures var addr := [P2p(PeerIds.Id(1, []))];
            && FromBytes(ToBytes(addr)) == Ok(addr) && Printable(addr)
            && Parse(std, Display(std, addr)) != Ok(addr)
  {
    hide Parse, FromBytes, ToBytes, PeerIds.Display, PeerIds.Parse;
    var addr := [P2p(PeerIds.Id(1, []))];
    PeerIds.PrintsUnreadable();
    BinaryIff(ToBytes(addr), addr);
    ParseDisplayedIff(std, addr);
    var text := PeerIds.Display(addr[0].id);
    assert text[0] == '5' && "1"[0] == '1' && "Qm"[0] == 'Q';
    assert !Readable(addr[0].id);
    assert !Speakable(std, addr[0]);
  }

  method ParseMultiaddr(std: Std, input: Blob) returns (r: Result<Addr, TextError>)
    ensures r == Parse(std, input)
  {
    hide ParseOne, Split;
    if input == [] {
      return Err(EmptyInput);
    }
    if input[0] != SLASH {
      return Err(MissingLeadingSlash);
    }
    var segments := Split(input, SLASH);
    var addr: Addr, idx := [], 1;
    ghost var whole := ParseParts(std, segments[1..]);
    assert whole.Ok? ==> [] + whole.value == whole.value;
    while idx < |segments|
      invariant 1 <= idx <= |segments|
      invariant whole == match ParseParts(std, segments[idx..]) case Err(e) => Err(e) case Ok(rest) => Ok(addr + rest)
    {
      var next := ParseOne(std, segments[idx..]);
      if next.Err? {
        return Err(next.error);
      }
      var (p, n) := next.value;
      assert segments[idx..][n..] == segments[idx + n..];
      ghost var later := ParseParts(std, segments[idx + n..]);
      assert later.Ok? ==> addr + ([p] + later.value) == (addr + [p]) + later.value;
      addr := addr + [p];
      idx := idx + n;
    }
    assert segments[idx..] == [] && addr + [] == addr;
    return Ok(addr);
  }
}

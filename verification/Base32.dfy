/** Base32 text without padding, section 6 of RFC 4648 (crates/identity/src/peer_id.rs:389-454): bits
    are streamed through a small buffer whose low bits are pending. */
module Base32 {
  import opened Bytes

  /** The powers of two that occur. */
  function Pow2(k: nat): (p: nat)
    requires k <= 12
    ensures p >= 1
  {
    if k == 0 then 1 else if k == 1 then 2 else if k == 2 then 4 else if k == 3 then 8 else if k == 4 then 16
    else if k == 5 then 32 else if k == 6 then 64 else if k == 7 then 128 else if k == 8 then 256
    else if k == 9 then 512 else if k == 10 then 1024 else if k == 11 then 2048 else 4096
  }

  // ----------------------------------------------------------------------- five-bit groups

  /** The five-bit groups of `s` when `k` bits worth `b` are pending; the last one is padded. */
  function Groups(s: Blob, b: nat, k: nat): (r: seq<nat>)
    requires k <= 12
    ensures forall i :: 0 <= i < |r| ==> r[i] < 32
    decreases |s|, k
  {
    if k >= 5 then [b / Pow2(k - 5) % 32] + Groups(s, b % Pow2(k - 5), k - 5)
    else if s == [] then if k == 0 then [] else [b * Pow2(5 - k) % 32]
    else Groups(s[1..], b * 256 + s[0], k + 8)
  }

  /** The bytes of five-bit groups when `k` bits worth `b` are pending; bits that do not fill a byte
      are dropped. */
  function Octets(groups: seq<nat>, b: nat, k: nat): (r: Blob)
    requires k <= 12
    decreases |groups|, k
  {
    if k >= 8 then [b / Pow2(k - 8) % 256] + Octets(groups, b % Pow2(k - 8), k - 8)
    else if groups == [] then []
    else Octets(groups[1..], b * 32 + groups[0], k + 5)
  }

  lemma GroupsEmit(s: Blob, b: nat, k: nat)
    requires 5 <= k <= 12
    ensures Groups(s, b, k) == [b / Pow2(k - 5) % 32] + Groups(s, b % Pow2(k - 5), k - 5)
  {
  }

  // What the encoder emits for a byte when so many bits are pending, and what stays pending.

  lemma Groups0(s: Blob, b: nat)
    requires s != [] && b == 0
    ensures b < Pow2(0)
    ensures var x := s[0];
            Groups(s, b, 0) == [x / 8] + Groups(s[1..], x % 8, 3)
  {
    var x := s[0];
    var v := b * 256 + x;
    assert v / 8 == x / 8 && v % 8 == x % 8;
  }

  lemma Groups1(s: Blob, b: nat)
    requires s != [] && b < 2
    ensures b < Pow2(1)
    ensures var x := s[0];
            Groups(s, b, 1) == [b * 16 + x / 16] + Groups(s[1..], x % 16, 4)
  {
    var x := s[0];
    var v := b * 256 + x;
    assert v / 16 == b * 16 + x / 16 && v % 16 == x % 16;
  }

  lemma Groups2(s: Blob, b: nat)
    requires s != [] && b < 4
    ensures b < Pow2(2)
    ensures var x := s[0];
            Groups(s, b, 2) == [b * 8 + x / 32, x % 32] + Groups(s[1..], 0, 0)
  {
    var v := b * 256 + s[0];
    Bits2(b, s[0]);
    GroupsEmit(s[1..], v, 10);
    GroupsEmit(s[1..], v % 32, 5);
    assert Groups(s, b, 2) == [v / 32 % 32] + ([v % 32 % 32] + Groups(s[1..], 0, 0));
  }

  lemma Groups3(s: Blob, b: nat)
    requires s != [] && b < 8
    ensures b < Pow2(3)
    ensures var x := s[0];
            Groups(s, b, 3) == [b * 4 + x / 64, x % 64 / 2] + Groups(s[1..], x % 2, 1)
  {
    var v := b * 256 + s[0];
    Bits3(b, s[0]);
    GroupsEmit(s[1..], v, 11);
    GroupsEmit(s[1..], v % 64, 6);
    assert Groups(s, b, 3) == [v / 64 % 32] + ([v % 64 / 2 % 32] + Groups(s[1..], s[0] % 2, 1));
  }

  lemma Groups4(s: Blob, b: nat)
    requires s != [] && b < 16
    ensures b < Pow2(4)
    ensures var x := s[0];
            Groups(s, b, 4) == [b * 2 + x / 128, x % 128 / 4] + Groups(s[1..], x % 4, 2)
  {
    var v := b * 256 + s[0];
    Bits4(b, s[0]);
    GroupsEmit(s[1..], v, 12);
    GroupsEmit(s[1..], v % 128, 7);
    assert Groups(s, b, 4) == [v / 128 % 32] + ([v % 128 / 4 % 32] + Groups(s[1..], s[0] % 4, 2));
  }

  lemma Bits2(b: nat, x: byte)
    requires b < 4
    ensures var v := b * 256 + x;
            v / 32 % 32 == b * 8 + x / 32 && v % 32 % 32 == x % 32 && v % 32 % 1 == 0
  {
    assert b * 256 + x == 32 * (b * 8 + x / 32) + x % 32;
  }

  lemma Bits3(b: nat, x: byte)
    requires b < 8
    ensures var v := b * 256 + x;
            v / 64 % 32 == b * 4 + x / 64 && v % 64 / 2 % 32 == x % 64 / 2 && v % 64 % 2 == x % 2
  {
    assert b * 256 + x == 64 * (b * 4 + x / 64) + x % 64;
    assert x % 64 == 2 * (x % 64 / 2) + x % 2;
  }

  lemma Bits4(b: nat, x: byte)
    requires b < 16
    ensures var v := b * 256 + x;
            v / 128 % 32 == b * 2 + x / 128 && v % 128 / 4 % 32 == x % 128 / 4 && v % 128 % 4 == x % 4
  {
    assert b * 256 + x == 128 * (b * 2 + x / 128) + x % 128;
    assert x % 128 == 4 * (x % 128 / 4) + x % 4;
  }

  /** The decoder completes a byte of which `k` bits were missing: the group brings them, and the first
      bits of the next byte. */
  lemma OctetsStep(g: nat, more: seq<nat>, d: nat, k: nat, b: nat, top: nat)
    requires 1 <= k < 5 && b < Pow2(k) && d < Pow2(8 - k) && top < Pow2(5 - k) && g == b * Pow2(5 - k) + top
    ensures Octets([g] + more, d, 8 - k) == [d * Pow2(k) + b] + Octets(more, top, 5 - k)
  {
    assert ([g] + more)[1..] == more;
    Completes(g, d, k, b, top);
  }

  lemma Completes(g: nat, d: nat, k: nat, b: nat, top: nat)
    requires 1 <= k < 5 && b < Pow2(k) && d < Pow2(8 - k) && top < Pow2(5 - k) && g == b * Pow2(5 - k) + top
    ensures (d * 32 + g) / Pow2(5 - k) % 256 == d * Pow2(k) + b && (d * 32 + g) % Pow2(5 - k) == top
  {
    var v := d * Pow2(k) + b;
    Fits(d, k, b, top);
    DivUnique(d * 32 + g, Pow2(5 - k), v, top);
  }

  lemma Fits(d: nat, k: nat, b: nat, top: nat)
    requires 1 <= k < 5 && b < Pow2(k) && d < Pow2(8 - k)
    ensures d * Pow2(k) + b < 256
    ensures d * 32 + (b * Pow2(5 - k) + top) == Pow2(5 - k) * (d * Pow2(k) + b) + top
  {
    if k == 1 {
    } else if k == 2 {
    } else if k == 3 {
    } else {
    }
  }

  /** A group that does not complete a byte is only taken in. */
  lemma OctetsWait(g: nat, more: seq<nat>, d: nat, k: nat)
    requires k < 8
    ensures Octets([g] + more, d, k) == Octets(more, d * 32 + g, k + 5)
  {
    assert ([g] + more)[1..] == more;
  }

  /** What is decoded while `k` bits `b` of the encoder are pending and the decoder has the other bits
      `d` of the same byte. */
  ghost predicate Meets(s: Blob, b: nat, k: nat, d: nat)
    requires k < 5 && b < Pow2(k)
  {
    Octets(Groups(s, b, k), d, (8 - k) % 8) == (if k == 0 then [] else [d * Pow2(k) + b]) + s
  }

  lemma Meets0(s: Blob)
    requires s != [] && Meets(s[1..], s[0] % 8, 3, s[0] / 8)
    ensures Meets(s, 0, 0, 0)
  {
    hide Octets, Groups;
    var x, more := s[0], Groups(s[1..], s[0] % 8, 3);
    Groups0(s, 0);
    OctetsWait(x / 8, more, 0, 0);
    assert [x / 8 * 8 + x % 8] + s[1..] == [] + s;
  }

  lemma Meets1(s: Blob, b: nat, d: nat)
    requires s != [] && b < 2 && d < 128 && Meets(s[1..], s[0] % 16, 4, s[0] / 16)
    ensures Meets(s, b, 1, d)
  {
    hide Octets, Groups;
    var x, more := s[0], Groups(s[1..], s[0] % 16, 4);
    Groups1(s, b);
    OctetsStep(b * 16 + x / 16, more, d, 1, b, x / 16);
    assert [x / 16 * 16 + x % 16] + s[1..] == s;
  }

  lemma Meets2(s: Blob, b: nat, d: nat)
    requires s != [] && b < 4 && d < 64 && Meets(s[1..], 0, 0, 0)
    ensures Meets(s, b, 2, d)
  {
    hide Octets, Groups;
    var x, rest := s[0], Groups(s[1..], 0, 0);
    var more := [x % 32] + rest;
    Groups2(s, b);
    OctetsStep(b * 8 + x / 32, more, d, 2, b, x / 32);
    assert [b * 8 + x / 32] + more == [b * 8 + x / 32, x % 32] + rest;
    OctetsFull(x / 32, x % 32, rest);
    assert [] + s[1..] == s[1..];
    assert [x / 32 * 32 + x % 32] + s[1..] == s;
  }

  lemma Meets3(s: Blob, b: nat, d: nat)
    requires s != [] && b < 8 && d < 32 && Meets(s[1..], s[0] % 2, 1, s[0] / 2)
    ensures Meets(s, b, 3, d)
  {
    hide Octets, Groups;
    var x, rest := s[0], Groups(s[1..], s[0] % 2, 1);
    var more := [x % 64 / 2] + rest;
    Groups3(s, b);
    OctetsStep(b * 4 + x / 64, more, d, 3, b, x / 64);
    assert [b * 4 + x / 64] + more == [b * 4 + x / 64, x % 64 / 2] + rest;
    OctetsWait(x % 64 / 2, rest, x / 64, 2);
    assert x / 64 * 32 + x % 64 / 2 == x / 2;
    assert [x / 2 * 2 + x % 2] + s[1..] == s;
  }

  lemma Meets4(s: Blob, b: nat, d: nat)
    requires s != [] && b < 16 && d < 16 && Meets(s[1..], s[0] % 4, 2, s[0] / 4)
    ensures Meets(s, b, 4, d)
  {
    hide Octets, Groups;
    var x, rest := s[0], Groups(s[1..], s[0] % 4, 2);
    var more := [x % 128 / 4] + rest;
    Groups4(s, b);
    OctetsStep(b * 2 + x / 128, more, d, 4, b, x / 128);
    assert [b * 2 + x / 128] + more == [b * 2 + x / 128, x % 128 / 4] + rest;
    OctetsWait(x % 128 / 4, rest, x / 128, 1);
    assert x / 128 * 32 + x % 128 / 4 == x / 4;
    assert [x / 4 * 4 + x % 4] + s[1..] == s;
  }

  lemma {:induction false} OctetsGroups(s: Blob, b: nat, k: nat, d: nat)
    requires k < 5 && b < Pow2(k) && (if k == 0 then d == 0 else d < Pow2(8 - k))
    ensures Meets(s, b, k, d)
    decreases |s|
  {
    if s == [] {
      OctetsLast(b, k, d);
    } else {
      hide Meets;
      var x, rest := s[0], s[1..];
      if k == 0 {
        OctetsGroups(rest, x % 8, 3, x / 8);
        Meets0(s);
      } else if k == 1 {
        OctetsGroups(rest, x % 16, 4, x / 16);
        Meets1(s, b, d);
      } else if k == 2 {
        OctetsGroups(rest, 0, 0, 0);
        Meets2(s, b, d);
      } else if k == 3 {
        OctetsGroups(rest, x % 2, 1, x / 2);
        Meets3(s, b, d);
      } else {
        OctetsGroups(rest, x % 4, 2, x / 4);
        Meets4(s, b, d);
      }
    }
  }

  lemma OctetsFull(high: nat, low: nat, more: seq<nat>)
    requires high < 8 && low < 32
    ensures Octets([low] + more, high, 3) == [high * 32 + low] + Octets(more, 0, 0)
  {
    assert ([low] + more)[1..] == more;
  }

  /** The last group is padded with zero bits, which the decoder drops. */
  lemma OctetsLast(b: nat, k: nat, d: nat)
    requires k < 5 && b < Pow2(k) && (if k == 0 then d == 0 else d < Pow2(8 - k))
    ensures Octets(Groups([], b, k), d, (8 - k) % 8) == if k == 0 then [] else [d * Pow2(k) + b]
  {
    if k > 0 {
      hide Pow2;
      var g := b * Pow2(5 - k) % 32;
      LastFits(b, k);
      OctetsStep(g, [], d, k, b, 0);
      assert [g] + [] == [g];
      assert Octets([], 0, 5 - k) == [];
    }
  }

  lemma LastFits(b: nat, k: nat)
    requires 1 <= k < 5 && b < Pow2(k)
    ensures b * Pow2(5 - k) % 32 == b * Pow2(5 - k)
  {
    if k == 1 {
    } else if k == 2 {
    } else if k == 3 {
    } else {
    }
  }

  // ------------------------------------------------------------------------------ alphabet

  function CharOf(v: nat): char
    requires v < 32
  {
    if v < 26 then 'a' + v as char else '2' + (v - 26) as char
  }

  /** The lookup ignores the case of ASCII letters. */
  function DigitOf(c: char): (v: Option<nat>)
    ensures v.Some? ==> v.value < 32
  {
    if 'a' <= c <= 'z' then Some(c as int - 'a' as int)
    else if 'A' <= c <= 'Z' then Some(c as int - 'A' as int)
    else if '2' <= c <= '7' then Some(26 + (c as int - '2' as int))
    else None
  }

  predicate Readable(t: string) {
    forall i :: 0 <= i < |t| ==> DigitOf(t[i]).Some?
  }

  function DigitsOf(t: string): (s: seq<nat>)
    requires Readable(t)
    ensures |s| == |t|
  {
    seq(|t|, i requires 0 <= i < |t| => DigitOf(t[i]).value)
  }

  function Text(groups: seq<nat>): (t: string)
    requires forall i :: 0 <= i < |groups| ==> groups[i] < 32
    ensures |t| == |groups|
  {
    seq(|groups|, i requires 0 <= i < |groups| => CharOf(groups[i]))
  }

  function Encode(s: Blob): string {
    Text(Groups(s, 0, 0))
  }

  datatype Error = InvalidCharacter

  function Decode(t: string): Result<Blob, Error> {
    if Readable(t) then Ok(Octets(DigitsOf(t), 0, 0)) else Err(InvalidCharacter)
  }

  /** Every byte string survives base32. */
  lemma DecodeEncoded(s: Blob)
    ensures Decode(Encode(s)) == Ok(s)
  {
    hide Groups, Octets;
    var groups := Groups(s, 0, 0);
    OctetsGroups(s, 0, 0, 0);
    assert forall i :: 0 <= i < |groups| ==> DigitOf(CharOf(groups[i])) == Some(groups[i]);
    assert DigitsOf(Text(groups)) == groups;
    assert [] + s == s;
  }

  /** Bits that do not fill a byte are dropped. */
  lemma {:induction false} OctetsLength(groups: seq<nat>, b: nat, k: nat)
    requires k <= 12
    ensures |Octets(groups, b, k)| == (5 * |groups| + k) / 8
    decreases |groups|, k
  {
    if k >= 8 {
      OctetsLength(groups, b % Pow2(k - 8), k - 8);
    } else if groups != [] {
      OctetsLength(groups[1..], b * 32 + groups[0], k + 5);
    }
  }

  // ------------------------------------------------------------------------- the two loops

  /** The buffer is a machine word whose bits above the pending ones are leftovers. */
  lemma TakeByte(buffer: nat, k: nat, x: byte)
    requires k < 5
    ensures (buffer * 256 + x) % 65536 % Pow2(k + 8) == buffer % Pow2(k) * 256 + x
  {
    var p := Pow2(k);
    var m := if k == 0 then 256 else if k == 1 then 128 else if k == 2 then 64 else if k == 3 then 32 else 16;
    assert Pow2(k + 8) * m == 65536 && Pow2(k + 8) == p * 256;
    LowBits(buffer * 256 + x, Pow2(k + 8), m, 65536);
    ShiftIn(buffer, p, 256, x);
  }

  lemma TakeGroup(buffer: nat, k: nat, v: nat)
    requires k < 8 && v < 32
    ensures (buffer * 32 + v) % 0x1_0000_0000 % Pow2(k + 5) == buffer % Pow2(k) * 32 + v
  {
    var p := Pow2(k);
    var m := 0x800_0000 / p;
    assert Pow2(k + 5) * m == 0x1_0000_0000 && Pow2(k + 5) == p * 32;
    LowBits(buffer * 32 + v, Pow2(k + 5), m, 0x1_0000_0000);
    ShiftIn(buffer, p, 32, v);
  }

  /** Shifting bits in below the pending ones. */
  lemma ShiftIn(n: nat, p: nat, m: nat, x: nat)
    requires p >= 1 && x < m
    ensures (n * m + x) % (p * m) == n % p * m + x
  {
    var q, r := n / p, n % p;
    assert n == p * q + r;
    assert n * m + x == (p * m) * q + (r * m + x) by {
      assert (p * q + r) * m == (p * q) * m + r * m;
      assert (p * q) * m == (p * m) * q;
    }
    assert r * m + x < p * m by {
      assert (r + 1) * m <= p * m;
    }
    DivUnique(n * m + x, p * m, q, r * m + x);
  }

  lemma DivUnique(n: nat, p: nat, q: nat, r: nat)
    requires n == p * q + r && r < p
    ensures n / p == q && n % p == r
  {
    var q2, r2 := n / p, n % p;
    assert n == p * q2 + r2;
    if q2 > q {
      assert p * q2 == p * q + p * (q2 - q);
      AtLeast(p, q2 - q);
    } else if q2 < q {
      assert p * q == p * q2 + p * (q - q2);
      AtLeast(p, q - q2);
    }
  }

  lemma AtLeast(p: nat, k: nat)
    requires k >= 1
    ensures p * k >= p
  {
  }

  lemma EmitGroup(buffer: nat, k: nat)
    requires 5 <= k <= 12
    ensures buffer % Pow2(k) / Pow2(k - 5) % 32 == buffer / Pow2(k - 5) % 32
    ensures buffer % Pow2(k) % Pow2(k - 5) == buffer % Pow2(k - 5)
  {
    LowBits(buffer, Pow2(k - 5), 32, Pow2(k));
  }

  lemma EmitByte(buffer: nat, k: nat)
    requires 8 <= k <= 12
    ensures buffer % Pow2(k) / Pow2(k - 8) % 256 == buffer / Pow2(k - 8) % 256
    ensures buffer % Pow2(k) % Pow2(k - 8) == buffer % Pow2(k - 8)
  {
    LowBits(buffer, Pow2(k - 8), 256, Pow2(k));
  }

  /** Cutting off high bits first does not matter. */
  lemma LowBits(n: nat, p: nat, m: nat, pm: nat)
    requires p >= 1 && m >= 1 && pm == p * m
    ensures pm >= 1
    ensures n % pm / p % m == n / p % m && n % pm % p == n % p
  {
    AtLeast(p, m);
    var q, r := n / pm, n % pm;
    var a, b := r / p, r % p;
    QuotientBelow(r, p, m);
    assert n == pm * q + r;
    Regroup(p, m, q, a, b);
    DivUnique(n, p, m * q + a, b);
    DivUnique(m * q + a, m, q, a);
    DivUnique(a, m, 0, a);
  }

  lemma QuotientBelow(r: nat, p: nat, m: nat)
    requires p >= 1 && r < p * m
    ensures r / p < m && r == p * (r / p) + r % p
  {
  }

  lemma Regroup(p: nat, m: nat, q: nat, a: nat, b: nat)
    ensures (p * m) * q + (p * a + b) == p * (m * q + a) + b
  {
    assert p * (m * q + a) == p * (m * q) + p * a;
    assert p * (m * q) == (p * m) * q;
  }

  method EncodeBase32(input: Blob) returns (out: string)
    ensures out == Encode(input)
  {
    hide Groups, Pow2, CharOf;
    var buffer: nat, bits: nat, i := 0, 0, 0;
    ghost var groups: seq<nat> := [];
    out := "";
    assert input[0..] == input;
    while i < |input|
      invariant 0 <= i <= |input| && bits < 5
      invariant forall j :: 0 <= j < |groups| ==> groups[j] < 32
      invariant out == Text(groups)
      invariant groups + Groups(input[i..], buffer % Pow2(bits), bits) == Groups(input, 0, 0)
    {
      GroupsTake(input[i..], buffer % Pow2(bits), bits);
      assert input[i..][1..] == input[i + 1..];
      TakeByte(buffer, bits, input[i]);
      buffer := (buffer * 256 + input[i]) % 65536;
      bits := bits + 8;
      while bits >= 5
        invariant bits <= 12
        invariant forall j :: 0 <= j < |groups| ==> groups[j] < 32
        invariant out == Text(groups)
        invariant groups + Groups(input[i + 1..], buffer % Pow2(bits), bits) == Groups(input, 0, 0)
      {
        GroupsEmit(input[i + 1..], buffer % Pow2(bits), bits);
        EmitGroup(buffer, bits);
        bits := bits - 5;
        var idx := buffer / Pow2(bits) % 32;
        ghost var later := Groups(input[i + 1..], buffer % Pow2(bits), bits);
        assert groups + ([idx] + later) == (groups + [idx]) + later;
        out := out + [CharOf(idx)];
        groups := groups + [idx];
      }
      i := i + 1;
    }
    assert input[i..] == [];
    GroupsEnd(buffer % Pow2(bits), bits);
    if bits > 0 {
      var idx := buffer * Pow2(5 - bits) % 32;
      LastGroup(buffer, bits);
      out := out + [CharOf(idx)];
      groups := groups + [idx];
    }
    assert groups == Groups(input, 0, 0);
  }

  lemma GroupsTake(s: Blob, b: nat, k: nat)
    requires s != [] && k < 5
    ensures Groups(s, b, k) == Groups(s[1..], b * 256 + s[0], k + 8)
  {
  }

  lemma GroupsEnd(b: nat, k: nat)
    requires k < 5
    ensures Groups([], b, k) == if k == 0 then [] else [b * Pow2(5 - k) % 32]
  {
  }

  lemma LastGroup(buffer: nat, k: nat)
    requires 1 <= k < 5
    ensures buffer * Pow2(5 - k) % 32 == buffer % Pow2(k) * Pow2(5 - k) % 32
  {
    var p, m := Pow2(k), Pow2(5 - k);
    ShiftIn(buffer, p, m, 0);
    assert p * m == 32;
    assert buffer % p * m < 32 by {
      assert (buffer % p + 1) * m <= p * m;
    }
  }

  method DecodeBase32(input: string) returns (r: Result<Blob, Error>)
    ensures r == Decode(input)
  {
    hide Octets, Pow2, DigitOf;
    var buffer: nat, bits: nat, i := 0, 0, 0;
    var out: Blob := [];
    ghost var all := seq(|input|, j requires 0 <= j < |input| => Known(input[j]));
    assert all[0..] == all;
    PowZero();
    while i < |input|
      invariant 0 <= i <= |input| && bits < 8
      invariant forall j :: 0 <= j < i ==> DigitOf(input[j]).Some?
      invariant out + Octets(all[i..], buffer % Pow2(bits), bits) == Octets(all, 0, 0)
    {
      var digit := DigitOf(input[i]);
      if digit.None? {
        return Err(InvalidCharacter);
      }
      OctetsTake(all[i..], buffer % Pow2(bits), bits);
      assert all[i..][1..] == all[i + 1..] && all[i..][0] == digit.value;
      TakeGroup(buffer, bits, digit.value);
      buffer := (buffer * 32 + digit.value) % 0x1_0000_0000;
      bits := bits + 5;
      while bits >= 8
        invariant bits <= 12
        invariant out + Octets(all[i + 1..], buffer % Pow2(bits), bits) == Octets(all, 0, 0)
      {
        EmitByte(buffer, bits);
        OctetsEmit(all[i + 1..], buffer % Pow2(bits), bits);
        bits := bits - 8;
        var b: byte := buffer / Pow2(bits) % 256;
        ghost var later := Octets(all[i + 1..], buffer % Pow2(bits), bits);
        assert out + ([b] + later) == (out + [b]) + later;
        out := out + [b];
      }
      i := i + 1;
    }
    assert all[i..] == [];
    OctetsEnd(buffer % Pow2(bits), bits);
    assert all == DigitsOf(input) && out + [] == out;
    return Ok(out);
  }

  function Known(c: char): nat {
    if DigitOf(c).Some? then DigitOf(c).value else 0
  }

  lemma PowZero()
    ensures Pow2(0) == 1
  {
  }

  lemma OctetsTake(groups: seq<nat>, b: nat, k: nat)
    requires groups != [] && k < 8
    ensures Octets(groups, b, k) == Octets(groups[1..], b * 32 + groups[0], k + 5)
  {
  }

  lemma OctetsEmit(groups: seq<nat>, b: nat, k: nat)
    requires 8 <= k <= 12
    ensures Octets(groups, b, k) == [b / Pow2(k - 8) % 256] + Octets(groups, b % Pow2(k - 8), k - 8)
  {
  }

  lemma OctetsEnd(b: nat, k: nat)
    requires k < 8
    ensures Octets([], b, k) == []
  {
  }
}

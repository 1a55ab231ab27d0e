/** Base58 text (crates/identity/src/peer_id.rs:293-384): numbers as digit strings in two bases, and
    the in-place conversion between them. */
module Base58 {
  import opened Bytes

  // --------------------------------------------------------------------------- numerals

  /** Bytes and base58 digits. */
  type Base = b: nat | b == 58 || b == 256 witness 58

  predicate Digits(s: seq<nat>, base: Base) {
    forall i :: 0 <= i < |s| ==> s[i] < base
  }

  /** The number a digit string denotes, least significant digit first. */
  function Value(s: seq<nat>, base: Base): nat {
    if s == [] then 0 else s[0] + base * Value(s[1..], base)
  }

  /** No superfluous zero at the significant end. */
  predicate Lean(s: seq<nat>) {
    s != [] ==> s[|s| - 1] != 0
  }

  function Pow(base: nat, n: nat): nat {
    if n == 0 then 1 else base * Pow(base, n - 1)
  }

  function ToDigits(n: nat, base: Base): (s: seq<nat>)
    ensures Digits(s, base)
  {
    if n == 0 then [] else [n % base] + ToDigits(n / base, base)
  }

  lemma {:induction false} ValueToDigits(n: nat, base: Base)
    ensures Value(ToDigits(n, base), base) == n && Lean(ToDigits(n, base))
  {
    if n != 0 {
      var rest := ToDigits(n / base, base);
      Quotient(n, base);
      ValueToDigits(n / base, base);
      assert ToDigits(n, base)[1..] == rest;
      assert rest == [] ==> n / base == 0;
    }
  }

  lemma Quotient(n: nat, base: Base)
    ensures n % base + base * (n / base) == n
  {
    if base == 58 {
    } else {
    }
  }

  /** A lean digit string is the only one for its number. */
  lemma {:induction false} ToDigitsValue(s: seq<nat>, base: Base)
    requires Digits(s, base) && Lean(s)
    ensures ToDigits(Value(s, base), base) == s
  {
    hide ToDigits;
    NoDigit(base);
    if s != [] {
      var rest := s[1..];
      ToDigitsValue(rest, base);
      assert s == [s[0]] + rest;
      NextDigit(s[0], Value(rest, base), base);
    }
  }

  lemma NoDigit(base: Base)
    ensures ToDigits(0, base) == []
  {
  }

  lemma NextDigit(d: nat, v: nat, base: Base)
    requires d < base && (d != 0 || v != 0)
    ensures d + base * v > 0 && ToDigits(d + base * v, base) == [d] + ToDigits(v, base)
  {
    DivMod(d, v, base);
    if base == 58 {
    } else {
    }
  }

  lemma DivMod(d: nat, v: nat, base: Base)
    requires d < base
    ensures (d + base * v) % base == d && (d + base * v) / base == v
  {
    if base == 58 {
      assert (d + 58 * v) / 58 == v;
    } else {
      assert (d + 256 * v) / 256 == v;
    }
  }

  function Reversed(s: seq<nat>): (r: seq<nat>)
    ensures |r| == |s|
    ensures forall i :: 0 <= i < |s| ==> r[i] == s[|s| - 1 - i]
  {
    seq(|s|, i requires 0 <= i < |s| => s[|s| - 1 - i])
  }

  lemma ReversedTwice(s: seq<nat>)
    ensures Reversed(Reversed(s)) == s
  {
  }

  // ----------------------------------------------------------- conversion between bases

  /** The number of zeros a digit string starts with. */
  function Zeros(s: seq<nat>): (z: nat)
    ensures z <= |s|
    ensures forall i :: 0 <= i < z ==> s[i] == 0
    ensures z < |s| ==> s[z] != 0
  {
    if s == [] || s[0] != 0 then 0 else 1 + Zeros(s[1..])
  }

  /** The number behind the leading zeros, most significant digit first. */
  function Magnitude(s: seq<nat>, base: Base): nat {
    Value(Reversed(s[Zeros(s)..]), base)
  }

  /** The same number in another base, with as many leading zeros. */
  function Convert(s: seq<nat>, from: Base, to: Base): (r: seq<nat>)
    ensures Digits(r, to)
  {
    s[..Zeros(s)] + Reversed(ToDigits(Magnitude(s, from), to))
  }

  lemma {:induction false} ZerosOf(zeros: seq<nat>, rest: seq<nat>)
    requires forall i :: 0 <= i < |zeros| ==> zeros[i] == 0
    requires rest != [] ==> rest[0] != 0
    ensures Zeros(zeros + rest) == |zeros|
  {
    if zeros == [] {
      assert zeros + rest == rest;
    } else {
      ZerosOf(zeros[1..], rest);
      assert (zeros + rest)[1..] == zeros[1..] + rest;
    }
  }

  lemma ConvertShape(s: seq<nat>, from: Base, to: Base)
    requires Digits(s, from)
    ensures var r := Convert(s, from, to);
            && Zeros(r) == Zeros(s) && r[..Zeros(r)] == s[..Zeros(s)]
            && r[Zeros(r)..] == Reversed(ToDigits(Magnitude(s, from), to))
            && Magnitude(r, to) == Magnitude(s, from)
  {
    var digits := ToDigits(Magnitude(s, from), to);
    var r := Convert(s, from, to);
    ValueToDigits(Magnitude(s, from), to);
    ZerosOf(s[..Zeros(s)], Reversed(digits));
    assert r[Zeros(s)..] == Reversed(digits);
    ReversedTwice(digits);
  }

  /** Converting to another base and back changes nothing. */
  lemma ConvertInverse(s: seq<nat>, from: Base, to: Base)
    requires Digits(s, from)
    ensures Convert(Convert(s, from, to), to, from) == s
  {
    hide ToDigits, Value, Zeros, Convert;
    var r, z := Convert(s, from, to), Zeros(s);
    ConvertShape(s, from, to);
    Behind(s, from);
    var rest := Reversed(s[z..]);
    assert Magnitude(r, to) == Value(rest, from);
    ToDigitsValue(rest, from);
    ReversedTwice(s[z..]);
    ConvertIs(r, to, from);
    assert s == s[..z] + s[z..];
  }

  lemma ConvertIs(s: seq<nat>, from: Base, to: Base)
    ensures Zeros(s) <= |s|
    ensures Convert(s, from, to) == s[..Zeros(s)] + Reversed(ToDigits(Magnitude(s, from), to))
  {
  }

  /** What follows the leading zeros is lean once reversed. */
  lemma Behind(s: seq<nat>, base: Base)
    requires Digits(s, base)
    ensures Zeros(s) <= |s|
    ensures Digits(Reversed(s[Zeros(s)..]), base) && Lean(Reversed(s[Zeros(s)..]))
  {
  }

  // ---------------------------------------------------------------- in-place arithmetic

  /** The lowest digits of `n`, `k` of them, and what is left above. */
  lemma {:induction false} ValueAppend(a: seq<nat>, b: seq<nat>, base: Base)
    ensures Value(a + b, base) == Value(a, base) + Pow(base, |a|) * Value(b, base)
  {
    if a == [] {
      assert a + b == b;
    } else {
      ValueAppend(a[1..], b, base);
      assert (a + b)[1..] == a[1..] + b;
      var p := Pow(base, |a| - 1);
      calc {
        Value(a + b, base);
        a[0] + base * (Value(a[1..], base) + p * Value(b, base));
        { Distribute(base, Value(a[1..], base), p, Value(b, base)); }
        a[0] + base * Value(a[1..], base) + (base * p) * Value(b, base);
      }
    }
  }

  lemma Distribute(base: nat, x: nat, p: nat, y: nat)
    ensures base * (x + p * y) == base * x + (base * p) * y
  {
  }

  lemma ValueSnoc(a: seq<nat>, d: nat, base: Base)
    ensures Value(a + [d], base) == Value(a, base) + Pow(base, |a|) * d
  {
    ValueAppend(a, [d], base);
    assert [d][1..] == [] && Value([d], base) == d + base * Value([], base) == d;
  }

  /** One step of `digit = digit * factor + carry` with the carry taken upwards. */
  lemma CarryStep(done: nat, d: nat, above: nat, carry: nat, p: nat, base: Base, factor: nat)
    ensures (done + p * ((d * factor + carry) % base)) + (base * p) * (above * factor + (d * factor + carry) / base)
         == done + p * ((d + base * above) * factor + carry)
  {
    var value := d * factor + carry;
    var q, r := value / base, value % base;
    Quotient(value, base);
    calc {
      p * ((d + base * above) * factor + carry);
      { assert (d + base * above) * factor == d * factor + base * above * factor; }
      p * (d * factor + carry + base * above * factor);
      p * (base * q + r + base * above * factor);
      { Spread(p, base, q, r, above * factor); }
      p * r + (p * base) * (above * factor + q);
      { assert p * base == base * p; }
      p * r + (base * p) * (above * factor + q);
    }
  }

  lemma Spread(p: nat, base: nat, q: nat, r: nat, t: nat)
    ensures p * (base * q + r + base * t) == p * r + (p * base) * (t + q)
  {
    assert base * q + r + base * t == r + base * (t + q);
    Distribute(p, r, base, t + q);
  }

  /** What a conversion loop maintains: the digits done, the digits to do and the carry denote the
      number aimed at. */
  ghost predicate Halfway(done: seq<nat>, todo: seq<nat>, carry: nat, factor: Base, base: Base, goal: nat) {
    Value(done, base) + Pow(base, |done|) * (Value(todo, base) * factor + carry) == goal
  }

  lemma HalfwayStart(todo: seq<nat>, carry: nat, factor: Base, base: Base)
    ensures Halfway([], todo, carry, factor, base, Value(todo, base) * factor + carry)
  {
  }

  lemma HalfwayStep(done: seq<nat>, todo: seq<nat>, carry: nat, factor: Base, base: Base, goal: nat)
    requires Halfway(done, todo, carry, factor, base, goal) && todo != []
    ensures var value := todo[0] * factor + carry;
            Halfway(done + [value % base], todo[1..], value / base, factor, base, goal)
  {
    var value := todo[0] * factor + carry;
    ValueSnoc(done, value % base, base);
    CarryStep(Value(done, base), todo[0], Value(todo[1..], base), carry, Pow(base, |done|), base, factor);
  }

  lemma HalfwayPush(done: seq<nat>, carry: nat, factor: Base, base: Base, goal: nat)
    requires Halfway(done, [], carry, factor, base, goal)
    ensures Halfway(done + [carry % base], [], carry / base, factor, base, goal)
  {
    ValueSnoc(done, carry % base, base);
    PushStep(Value(done, base), Pow(base, |done|), carry, base);
    NoDigits(factor, base);
  }

  lemma NoDigits(factor: Base, base: Base)
    ensures Value([], base) * factor == 0
  {
  }

  lemma HalfwayEnd(done: seq<nat>, factor: Base, base: Base, goal: nat)
    requires Halfway(done, [], 0, factor, base, goal)
    ensures Value(done, base) == goal
  {
    NoDigits(factor, base);
  }

  /** The digit vectors of the conversion loops: lean, or a lone zero. */
  predicate Tidy(s: seq<nat>) {
    Lean(s) || s == [0]
  }

  /** `digits * factor + addend`, digit by digit, as both conversion loops do it. The carry stays
      below the factor: at most 255 when encoding and 57 when decoding. */
  method MultiplyAdd(digits: seq<nat>, factor: Base, addend: nat, base: Base) returns (r: seq<nat>)
    requires Digits(digits, base) && Tidy(digits) && addend < factor
    ensures Digits(r, base) && Tidy(r) && |r| >= |digits|
    ensures Value(r, base) == Value(digits, base) * factor + addend
  {
    hide Value, Halfway;
    r := digits;
    var carry: nat, i: nat := addend, 0;
    ghost var goal := Value(digits, base) * factor + addend;
    HalfwayStart(digits, addend, factor, base);
    assert r[..0] == [] && digits[0..] == digits;
    while i < |r|
      invariant 0 <= i <= |r| == |digits|
      invariant carry < factor
      invariant Digits(r, base) && r[i..] == digits[i..]
      invariant Halfway(r[..i], digits[i..], carry, factor, base, goal)
    {
      var value := r[i] * factor + carry;
      Product(r[i], carry, base, factor);
      ghost var before := r[..i];
      HalfwayStep(before, digits[i..], carry, factor, base, goal);
      assert digits[i..][1..] == digits[i + 1..] && digits[i..][0] == r[i];
      r := r[i := value % base];
      assert r[..i + 1] == before + [value % base];
      carry := value / base;
      i := i + 1;
    }
    assert r[..i] == r && digits[i..] == [];
    if carry == 0 {
      HalfwayEnd(r, factor, base, goal);
      if |r| > 0 && Lean(digits) {
        TopSurvives(r, digits, factor, addend, base);
      }
    }
    while carry > 0
      invariant Digits(r, base)
      invariant carry == 0 ==> Tidy(r)
      invariant |r| >= |digits|
      invariant Halfway(r, [], carry, factor, base, goal)
    {
      HalfwayPush(r, carry, factor, base, goal);
      r := r + [carry % base];
      SmallQuotient(carry, base);
      carry := carry / base;
    }
    HalfwayEnd(r, factor, base, goal);
  }

  lemma SmallQuotient(carry: nat, base: Base)
    requires carry > 0
    ensures carry / base < carry && (carry / base == 0 ==> carry % base != 0)
  {
    if base == 58 {
    } else {
    }
  }

  lemma Product(d: nat, carry: nat, base: Base, factor: Base)
    requires d < base && carry < factor
    ensures (d * factor + carry) / base < factor
  {
    if base == 58 {
      assert d * factor <= 57 * factor;
    } else {
      assert d * factor <= 255 * factor;
    }
  }

  lemma PushStep(v: nat, p: nat, carry: nat, base: Base)
    ensures (v + p * (carry % base)) + (base * p) * (carry / base) == v + p * carry
  {
    var q, r := carry / base, carry % base;
    Quotient(carry, base);
    assert p * carry == p * (base * q) + p * r;
    assert (base * p) * q == p * (base * q);
  }

  /** A product does not get shorter. */
  lemma TopSurvives(r: seq<nat>, digits: seq<nat>, factor: Base, addend: nat, base: Base)
    requires Digits(digits, base) && Digits(r, base) && Lean(digits) && |r| == |digits| > 0
    requires Value(r, base) == Value(digits, base) * factor + addend
    ensures r[|r| - 1] != 0
  {
    hide Value;
    var n := |r| - 1;
    assert digits == digits[..n] + [digits[n]] && r == r[..n] + [r[n]];
    ValueSnoc(digits[..n], digits[n], base);
    ValueSnoc(r[..n], r[n], base);
    ValueBound(r[..n], base);
    AtLeast(Pow(base, n), digits[n]);
    AtLeast(Value(digits, base), factor);
  }

  lemma AtLeast(p: nat, k: nat)
    requires k >= 1
    ensures p * k >= p
  {
  }

  lemma {:induction false} ValueBound(s: seq<nat>, base: Base)
    requires Digits(s, base)
    ensures Value(s, base) < Pow(base, |s|)
  {
    if s != [] {
      var v, p := Value(s[1..], base), Pow(base, |s| - 1);
      ValueBound(s[1..], base);
      if base == 58 {
        assert s[0] + 58 * v < 58 * p;
      } else {
        assert s[0] + 256 * v < 256 * p;
      }
    }
  }

  // ----------------------------------------------------------------------------- alphabet

  /** The alphabet is 1-9, A-H, J-N, P-Z, a-k, m-z. */
  function CharOf(v: nat): char
    requires v < 58
  {
    if v < 9 then '1' + v as char
    else if v < 17 then 'A' + (v - 9) as char
    else if v < 22 then 'J' + (v - 17) as char
    else if v < 33 then 'P' + (v - 22) as char
    else if v < 44 then 'a' + (v - 33) as char
    else 'm' + (v - 44) as char
  }

  function AsciiDigit(c: int): Option<nat> {
    if '1' as int <= c <= '9' as int then Some(c - '1' as int)
    else if 'A' as int <= c <= 'H' as int then Some(c - 'A' as int + 9)
    else if 'J' as int <= c <= 'N' as int then Some(c - 'J' as int + 17)
    else if 'P' as int <= c <= 'Z' as int then Some(c - 'P' as int + 22)
    else if 'a' as int <= c <= 'k' as int then Some(c - 'a' as int + 33)
    else if 'm' as int <= c <= 'z' as int then Some(c - 'm' as int + 44)
    else None
  }

  /** The lookup compares the low byte of a character only. */
  function DigitOf(c: char): (v: Option<nat>)
    ensures v.Some? ==> v.value < 58
  {
    AsciiDigit(c as int % 256)
  }

  predicate InAlphabet(c: char) {
    exists v: nat :: v < 58 && CharOf(v) == c
  }

  predicate IsAlphabetText(t: string) {
    forall i :: 0 <= i < |t| ==> InAlphabet(t[i])
  }

  lemma CharDigit(v: nat)
    requires v < 58
    ensures DigitOf(CharOf(v)) == Some(v) && (CharOf(v) == '1' <==> v == 0)
  {
  }

  function Text(digits: seq<nat>): (t: string)
    requires Digits(digits, 58)
    ensures |t| == |digits|
  {
    seq(|digits|, i requires 0 <= i < |digits| => CharOf(digits[i]))
  }

  predicate Readable(t: string) {
    forall i :: 0 <= i < |t| ==> DigitOf(t[i]).Some?
  }

  function DigitsOf(t: string): (s: seq<nat>)
    requires Readable(t)
    ensures Digits(s, 58) && |s| == |t|
  {
    seq(|t|, i requires 0 <= i < |t| => DigitOf(t[i]).value)
  }

  lemma TextDigits(digits: seq<nat>)
    requires Digits(digits, 58)
    ensures Readable(Text(digits)) && DigitsOf(Text(digits)) == digits && IsAlphabetText(Text(digits))
  {
    forall i | 0 <= i < |digits|
      ensures DigitOf(Text(digits)[i]) == Some(digits[i]) && InAlphabet(Text(digits)[i])
    {
      CharDigit(digits[i]);
    }
  }

  lemma DigitsText(t: string)
    requires IsAlphabetText(t)
    ensures Readable(t) && Text(DigitsOf(t)) == t
  {
    forall i | 0 <= i < |t|
      ensures DigitOf(t[i]).Some? && CharOf(DigitOf(t[i]).value) == t[i]
    {
      var v: nat :| v < 58 && CharOf(v) == t[i];
      CharDigit(v);
    }
  }

  // ------------------------------------------------------------------------------- codec

  datatype Error = EmptyInput | InvalidCharacter

  function Encode(input: Blob): string {
    Text(Convert(input, 256, 58))
  }

  function Ones(t: string): (z: nat)
    ensures z <= |t| && (forall i :: 0 <= i < z ==> t[i] == '1') && (z < |t| ==> t[z] != '1')
  {
    if t == "" || t[0] != '1' then 0 else 1 + Ones(t[1..])
  }

  /** The number of a digit string, most significant digit first. */
  function BigEndian(s: seq<nat>, base: Base): nat {
    Value(Reversed(s), base)
  }

  /** The bytes of a digit string, least significant first; a zero takes one byte. */
  function BytesOf(digits: seq<nat>): (r: seq<nat>)
    ensures Digits(r, 256)
  {
    if digits == [] then []
    else if BigEndian(digits, 58) == 0 then [0]
    else ToDigits(BigEndian(digits, 58), 256)
  }

  function Blank(n: nat): (z: Blob)
    ensures |z| == n && forall i :: 0 <= i < n ==> z[i] == 0
  {
    seq(n, _ => 0)
  }

  function AsBlob(digits: seq<nat>): (s: Blob)
    requires Digits(digits, 256)
    ensures s == digits
  {
    seq(|digits|, i requires 0 <= i < |digits| => digits[i])
  }

  function Decode(t: string): Result<Blob, Error> {
    var z := Ones(t);
    if t == "" then Err(EmptyInput)
    else if !Readable(t[z..]) then Err(InvalidCharacter)
    else Ok(Blank(z) + AsBlob(Reversed(BytesOf(DigitsOf(t[z..])))))
  }

  lemma BigEndianSnoc(s: seq<nat>, d: nat, base: Base)
    ensures BigEndian(s + [d], base) == BigEndian(s, base) * base + d
  {
    assert Reversed(s + [d]) == [d] + Reversed(s);
    assert Reversed(s + [d])[1..] == Reversed(s);
  }

  lemma LeanPositive(s: seq<nat>, base: Base)
    requires Lean(s) && s != []
    ensures Value(s, base) > 0
  {
    var n := |s| - 1;
    assert s == s[..n] + [s[n]];
    ValueSnoc(s[..n], s[n], base);
    PowPositive(base, n);
    AtLeast(Pow(base, n), s[n]);
  }

  lemma {:induction false} PowPositive(base: Base, n: nat)
    ensures Pow(base, n) >= 1
  {
    if n > 0 {
      PowPositive(base, n - 1);
    }
  }

  /** Tidy digits are the digits of their number, or a lone zero. */
  lemma TidyIs(s: seq<nat>, base: Base)
    requires Digits(s, base) && Tidy(s)
    ensures s == [] || s == if Value(s, base) == 0 then [0] else ToDigits(Value(s, base), base)
  {
    hide ToDigits;
    if s != [] && Lean(s) {
      LeanPositive(s, base);
      ToDigitsValue(s, base);
    } else if s == [0] {
      assert s[1..] == [];
    }
  }

  /** The ones a text starts with are the zeros its digits start with. */
  lemma OnesAreZeros(t: string)
    requires IsAlphabetText(t) && Readable(t)
    ensures Zeros(DigitsOf(t)) == Ones(t) && DigitsOf(t[Ones(t)..]) == DigitsOf(t)[Ones(t)..]
  {
    hide Zeros, Ones;
    var z, digits := Ones(t), DigitsOf(t);
    OnesFacts(t);
    forall i | 0 <= i < |t|
      ensures t[i] == '1' <==> digits[i] == 0
    {
      var v: nat :| v < 58 && CharOf(v) == t[i];
      CharDigit(v);
    }
    assert digits == digits[..z] + digits[z..];
    ZerosOf(digits[..z], digits[z..]);
  }

  lemma OnesFacts(t: string)
    ensures Ones(t) <= |t| && (forall i :: 0 <= i < Ones(t) ==> t[i] == '1') && (Ones(t) < |t| ==> t[Ones(t)] != '1')
  {
  }

  /** Digits without leading zeros convert to the bytes of their number. */
  lemma BytesOfLean(digits: seq<nat>)
    requires Digits(digits, 58) && Lean(Reversed(digits))
    ensures BytesOf(digits) == ToDigits(BigEndian(digits, 58), 256)
  {
    hide ToDigits, Value;
    ConvertNothing(58);
    if digits == [] {
      assert Reversed(digits) == [];
    } else {
      LeanPositive(Reversed(digits), 58);
    }
  }

  /** On alphabet text the source's decoder is the inverse base conversion. */
  lemma DecodeConverts(t: string)
    requires t != "" && IsAlphabetText(t)
    ensures Readable(t) && Decode(t) == Ok(AsBlob(Convert(DigitsOf(t), 58, 256)))
  {
    hide ToDigits, Value, Ones, Zeros, IsAlphabetText, Convert, BytesOf;
    DigitsText(t);
    OnesAreZeros(t);
    var z, digits := Ones(t), DigitsOf(t);
    Behind(digits, 58);
    BytesOfLean(digits[z..]);
    ConvertIs(digits, 58, 256);
    TailReadable(t, z);
    assert digits[..z] == Blank(z) by { ZerosFacts(digits); }
  }

  lemma TailReadable(t: string, z: nat)
    requires Readable(t) && z <= |t|
    ensures Readable(t[z..])
  {
  }

  lemma ZerosFacts(s: seq<nat>)
    ensures Zeros(s) <= |s| && forall i :: 0 <= i < Zeros(s) ==> s[i] == 0
  {
  }

  lemma ConvertNothing(base: Base)
    ensures Value([], base) == 0 && ToDigits(0, 256) == [] && ToDigits(0, 58) == []
  {
  }

  /** Decoding inverts encoding on every non-empty byte string. */
  lemma DecodeEncoded(s: Blob)
    requires s != []
    ensures Encode(s) != "" && IsAlphabetText(Encode(s)) && Decode(Encode(s)) == Ok(s)
  {
    hide Convert, Decode;
    var digits := Convert(s, 256, 58);
    TextDigits(digits);
    ConvertInverse(s, 256, 58);
    assert digits != [] by { ConvertEmpty(s, 256, 58); }
    DecodeConverts(Text(digits));
  }

  lemma ConvertEmpty(s: seq<nat>, from: Base, to: Base)
    requires Digits(s, from) && s != []
    ensures Convert(s, from, to) != []
  {
    hide Convert;
    ConvertInverse(s, from, to);
    assert Convert([], to, from) == [] by {
      ConvertNothing(to);
      ConvertIs([], to, from);
      var none: seq<nat> := [];
      assert Reversed(none) == [] && none[Zeros(none)..] == [];
    }
  }

  /** Encoding inverts decoding exactly on alphabet text: the decoder also takes characters whose low
      byte is in the alphabet, and those never come back. */
  lemma EncodeDecodedIff(t: string)
    requires Decode(t).Ok?
    ensures Encode(Decode(t).value) == t <==> IsAlphabetText(t)
  {
    hide Convert, Decode;
    if IsAlphabetText(t) {
      DecodeNonEmpty(t);
      DecodeConverts(t);
      DigitsText(t);
      ConvertInverse(DigitsOf(t), 58, 256);
    } else {
      TextDigits(Convert(Decode(t).value, 256, 58));
    }
  }

  lemma DecodeNonEmpty(t: string)
    requires Decode(t).Ok?
    ensures t != ""
  {
  }

  // -------------------------------------------------------------------------------- lengths

  lemma {:induction false} LongerNumber(m: nat, n: nat, base: Base)
    requires m <= n
    ensures |ToDigits(m, base)| <= |ToDigits(n, base)|
  {
    if m != 0 {
      SmallQuotient(m, base);
      SmallQuotient(n, base);
      LowerQuotient(m, n, base);
      LongerNumber(m / base, n / base, base);
    }
  }

  lemma LowerQuotient(m: nat, n: nat, base: Base)
    requires m <= n
    ensures m / base <= n / base
  {
    if base == 58 {
    } else {
    }
  }

  /** Three digits hold two bytes: 58^3 exceeds 256^2. */
  lemma {:induction false} ThreeForTwo(n: nat, k: nat)
    requires n < Pow(256, 2 * k)
    ensures |ToDigits(n, 58)| <= 3 * k
    decreases k
  {
    if k > 0 {
      var p := Pow(256, 2 * (k - 1));
      assert Pow(256, 2 * k) == 256 * Pow(256, 2 * k - 1) == 256 * (256 * p);
      var q := n / 58 / 58 / 58;
      assert q < p by { assert n < 65536 * p; }
      ThreeForTwo(q, k - 1);
      assert |ToDigits(n / 58 / 58, 58)| <= 1 + |ToDigits(q, 58)|;
      assert |ToDigits(n / 58, 58)| <= 1 + |ToDigits(n / 58 / 58, 58)|;
    } else {
      assert n == 0;
    }
  }

  /** The text of bytes that do not start with zero is at most half as long again. */
  lemma EncodedShort(s: Blob)
    requires s != [] && s[0] != 0
    ensures 2 * |Encode(s)| <= 3 * (|s| + 1)
  {
    hide ToDigits, Value, Pow;
    ConvertIs(s, 256, 58);
    assert Zeros(s) == 0 && s[0..] == s;
    var n := Value(Reversed(s), 256);
    ValueBound(Reversed(s), 256);
    if |s| % 2 == 0 {
      ThreeForTwo(n, |s| / 2);
    } else {
      assert Pow(256, |s|) <= Pow(256, |s| + 1) by { PowGrows(|s|); }
      ThreeForTwo(n, (|s| + 1) / 2);
    }
  }

  lemma PowGrows(n: nat)
    ensures Pow(256, n) <= Pow(256, n + 1)
  {
  }

  /** Bytes in front do not shorten the text. */
  lemma EncodedLonger(front: Blob, s: Blob)
    requires s != [] && s[0] != 0 && front != [] && front[0] != 0
    ensures |Encode(front + s)| >= |Encode(s)|
  {
    hide ToDigits, Value, Pow;
    var all := front + s;
    ConvertIs(s, 256, 58);
    ConvertIs(all, 256, 58);
    assert Zeros(s) == 0 && Zeros(all) == 0 && s[0..] == s && all[0..] == all;
    assert Reversed(all) == Reversed(s) + Reversed(front);
    ValueAppend(Reversed(s), Reversed(front), 256);
    LongerNumber(Value(Reversed(s), 256), Value(Reversed(all), 256), 58);
  }

  // ------------------------------------------------------------------------ the two loops

  method EncodeBase58(input: Blob) returns (out: string)
    ensures out == Encode(input)
  {
    hide Value, ToDigits;
    if input == [] {
      ConvertNothing(256);
      assert Convert(input, 256, 58) == [] by { ConvertIs(input, 256, 58); assert Reversed([]) == []; }
      return "";
    }
    var zeros := 0;
    while zeros < |input| && input[zeros] == 0
      invariant zeros <= |input| && forall i :: 0 <= i < zeros ==> input[i] == 0
    {
      zeros := zeros + 1;
    }
    ghost var rest := input[zeros..];
    ZerosOf(input[..zeros], rest);
    assert input == input[..zeros] + rest;
    var digits: seq<nat>, i := [], zeros;
    ConvertNothing(58);
    ConvertNothing(256);
    assert Reversed(rest[..0]) == [];
    while i < |input|
      invariant zeros <= i <= |input|
      invariant Digits(digits, 58) && Tidy(digits)
      invariant Value(digits, 58) == BigEndian(rest[..i - zeros], 256)
      invariant i == zeros ==> digits == []
    {
      assert rest[..i + 1 - zeros] == rest[..i - zeros] + [input[i]];
      BigEndianSnoc(rest[..i - zeros], input[i], 256);
      digits := MultiplyAdd(digits, 256, input[i], 58);
      if |digits| == 0 {
        digits := [0];
        LoneZero(58);
      }
      i := i + 1;
    }
    assert rest[..i - zeros] == rest;
    EncodedDigits(input, digits);
    out := PrintDigits(zeros, digits);
    assert input[..zeros] == Blank(zeros);
  }

  method PrintDigits(zeros: nat, digits: seq<nat>) returns (out: string)
    requires Digits(digits, 58)
    ensures out == Text(Blank(zeros) + Reversed(digits))
  {
    hide CharOf;
    out := "";
    var i := 0;
    while i < zeros
      invariant 0 <= i <= zeros && |out| == i && forall j :: 0 <= j < i ==> out[j] == '1'
    {
      out := out + "1";
      i := i + 1;
    }
    i := |digits|;
    while i > 0
      invariant 0 <= i <= |digits|
      invariant |out| == zeros + |digits| - i
      invariant forall j :: 0 <= j < zeros ==> out[j] == '1'
      invariant forall j :: zeros <= j < |out| ==> out[j] == CharOf(digits[|digits| - 1 - (j - zeros)])
    {
      i := i - 1;
      out := out + [CharOf(digits[i])];
    }
    OneIsZero();
    assert out == Text(Blank(zeros) + Reversed(digits));
  }

  lemma OneIsZero()
    ensures CharOf(0) == '1'
  {
  }

  /** The digits the encoding loop ends with. */
  lemma EncodedDigits(input: Blob, digits: seq<nat>)
    requires Digits(digits, 58) && Tidy(digits)
    requires Value(digits, 58) == Magnitude(input, 256) && (Zeros(input) == |input| ==> digits == [])
    ensures Convert(input, 256, 58) == input[..Zeros(input)] + Reversed(digits)
  {
    hide Value, ToDigits;
    var rest := input[Zeros(input)..];
    ConvertIs(input, 256, 58);
    Behind(input, 256);
    ConvertNothing(256);
    ConvertNothing(58);
    TidyIs(digits, 58);
    if rest == [] {
      assert Reversed(rest) == [];
    } else {
      LeanPositive(Reversed(rest), 256);
    }
  }

  lemma LoneZero(base: Base)
    ensures Value([0], base) == 0 && Value([], base) == 0
  {
    assert [0][1..] == [];
  }

  method DecodeBase58(input: string) returns (r: Result<Blob, Error>)
    ensures r == Decode(input)
  {
    hide Value, ToDigits;
    if input == "" {
      return Err(EmptyInput);
    }
    var zeros := 0;
    while zeros < |input| && input[zeros] == '1'
      invariant zeros <= |input| && forall i :: 0 <= i < zeros ==> input[i] == '1'
    {
      zeros := zeros + 1;
    }
    OnesOf(input, zeros);
    ghost var rest := input[zeros..];
    var bytes: seq<nat>, i := [], zeros;
    LoneZero(256);
    LoneZero(58);
    assert DigitsOf(rest[..0]) == [] && Reversed([]) == [];
    while i < |input|
      invariant zeros <= i <= |input|
      invariant Digits(bytes, 256) && Tidy(bytes) && (bytes == [] <==> i == zeros)
      invariant Readable(rest[..i - zeros])
      invariant Value(bytes, 256) == BigEndian(DigitsOf(rest[..i - zeros]), 58)
    {
      var digit := DigitOf(input[i]);
      assert rest[i - zeros] == input[i];
      if digit.None? {
        return Err(InvalidCharacter);
      }
      assert rest[..i + 1 - zeros] == rest[..i - zeros] + [input[i]];
      assert DigitsOf(rest[..i + 1 - zeros]) == DigitsOf(rest[..i - zeros]) + [digit.value];
      BigEndianSnoc(DigitsOf(rest[..i - zeros]), digit.value, 58);
      if |bytes| == 0 {
        bytes := [0];
      }
      bytes := MultiplyAdd(bytes, 58, digit.value, 256);
      i := i + 1;
    }
    assert rest[..i - zeros] == rest;
    TidyIs(bytes, 256);
    assert bytes == BytesOf(DigitsOf(rest));
    var out := Unreversed(zeros, bytes);
    return Ok(out);
  }

  /** The leading zeros and then the bytes, most significant first. */
  method Unreversed(zeros: nat, bytes: seq<nat>) returns (out: Blob)
    requires Digits(bytes, 256)
    ensures out == Blank(zeros) + AsBlob(Reversed(bytes))
  {
    out := seq(zeros, _ => 0);
    var i := |bytes|;
    while i > 0
      invariant 0 <= i <= |bytes| && |out| == zeros + |bytes| - i
      invariant forall j :: 0 <= j < zeros ==> out[j] == 0
      invariant forall j :: zeros <= j < |out| ==> out[j] == bytes[|bytes| - 1 - (j - zeros)]
    {
      i := i - 1;
      out := out + [bytes[i]];
    }
    assert out == Blank(zeros) + AsBlob(Reversed(bytes));
  }

  lemma {:induction false} OnesOf(t: string, z: nat)
    requires z <= |t| && (forall i :: 0 <= i < z ==> t[i] == '1') && (z < |t| ==> t[z] != '1')
    ensures Ones(t) == z
  {
    if z > 0 {
      OnesOf(t[1..], z - 1);
    }
  }
}

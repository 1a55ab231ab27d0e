/** Canonical unsigned varints (crates/identity/src/peer_id.rs:204-269). */
module Varint {
  import opened Bytes

  // The bit operations of the source are written as arithmetic: `byte & 0x7f` is `byte % 128`,
  // `byte & 0x80 != 0` is `byte >= 128`, `value >>= 7` is `value / 128`, and OR-ing seven bits in at
  // bit `7 * idx`, where the accumulator is still zero, is adding a multiple of `128^idx`.

  datatype Error = BufferTooShort | Overflow | NonCanonical

  type ReadResult = Result<(u64, nat), Error>

  function Len(value: nat): (n: nat)
    ensures n >= 1
  {
    if value < 128 then 1 else 1 + Len(value / 128)
  }

  /** The minimal encoding of a number. */
  function Encode(value: nat): (s: Blob)
    ensures |s| == Len(value)
  {
    if value < 128 then [value] else [value % 128 + 128] + Encode(value / 128)
  }

  function Pow128(n: nat): (p: nat)
    ensures p >= 1
  {
    if n == 0 then 1 else 128 * Pow128(n - 1)
  }

  /** What a byte string denotes when every byte contributes its low seven bits. */
  function Value(s: Blob): nat {
    if s == [] then 0 else s[0] % 128 + 128 * Value(s[1..])
  }

  /** The scan of `read_uvarint` once the bytes before `idx` all asked for more. */
  function ReadFrom(input: Blob, idx: nat): ReadResult
    requires idx <= |input| && idx <= 10
    decreases |input| - idx
  {
    if idx == |input| then Err(BufferTooShort)
    else if idx >= 10 || (idx == 9 && input[idx] > 1) then Err(Overflow)
    else if input[idx] >= 128 then ReadFrom(input, idx + 1)
    else
      var value := Value(input[..idx + 1]);
      if Len(value) != idx + 1 then Err(NonCanonical)
      else (ValueFitsWord(input[..idx + 1]); Ok((value, idx + 1)))
  }

  function Read(input: Blob): ReadResult {
    ReadFrom(input, 0)
  }

  // ------------------------------------------------------------------ values

  lemma {:induction false} ValueSnoc(s: Blob, b: byte)
    ensures Value(s + [b]) == Value(s) + (b % 128) * Pow128(|s|)
  {
    if s == [] {
      assert s + [b] == [b];
    } else {
      ValueSnoc(s[1..], b);
      assert (s + [b])[1..] == s[1..] + [b];
      assert 128 * ((b % 128) * Pow128(|s| - 1)) == (b % 128) * Pow128(|s|);
    }
  }

  lemma {:induction false} ValueBound(s: Blob)
    ensures Value(s) < Pow128(|s|)
  {
    if s != [] {
      ValueBound(s[1..]);
    }
  }

  lemma Pow128At9()
    ensures 2 * Pow128(9) == TWO_64
  {
    assert Pow128(3) == 0x20_0000;
    assert Pow128(6) == 0x20_0000 * Pow128(3);
    assert Pow128(9) == 0x20_0000 * Pow128(6);
  }

  lemma Pow128Mono(m: nat, n: nat)
    requires m <= n
    ensures Pow128(m) <= Pow128(n)
    decreases n
  {
    if m < n {
      Pow128Mono(m, n - 1);
    }
  }

  lemma ValueFitsWord(s: Blob)
    requires 1 <= |s| <= 10 && (|s| == 10 ==> s[9] <= 1)
    ensures Value(s) < TWO_64
  {
    Pow128At9();
    if |s| == 10 {
      assert s == s[..9] + [s[9]];
      ValueSnoc(s[..9], s[9]);
      ValueBound(s[..9]);
    } else {
      ValueBound(s);
      Pow128Mono(|s|, 9);
    }
  }

  // ------------------------------------------------------------ canonical form

  /** A terminated varint: only the last byte is below 128. */
  predicate Terminated(s: Blob) {
    && s != []
    && s[|s| - 1] < 128
    && forall i :: 0 <= i < |s| - 1 ==> s[i] >= 128
  }

  lemma {:induction false} EncodeTerminated(value: nat)
    ensures Terminated(Encode(value)) && Value(Encode(value)) == value
    ensures Len(value) > 1 ==> Encode(value)[Len(value) - 1] > 0
  {
    if value >= 128 {
      EncodeTerminated(value / 128);
      assert Encode(value)[1..] == Encode(value / 128);
    }
  }

  /** A terminated string re-encodes to itself exactly when it carries no redundant last byte. */
  lemma {:induction false} MinimalReencodes(s: Blob)
    requires Terminated(s)
    ensures Len(Value(s)) == |s| ==> Encode(Value(s)) == s
  {
    if |s| > 1 {
      var rest := s[1..];
      MinimalReencodes(rest);
      assert Value(s) == s[0] % 128 + 128 * Value(rest);
      assert Value(s) / 128 == Value(rest) && Value(s) % 128 == s[0] - 128;
      if Len(Value(s)) == |s| {
        assert s == [s[0]] + rest;
      }
    }
  }

  // ---------------------------------------------------------------- main facts

  lemma {:induction false} ReadFromReaches(input: Blob, idx: nat, n: nat)
    requires idx < n <= |input| && n <= 10
    requires Terminated(input[..n])
    requires n == 10 ==> input[9] <= 1
    ensures ReadFrom(input, idx) == ReadFrom(input, n - 1)
    decreases n - idx
  {
    if idx < n - 1 {
      assert input[..n][idx] == input[idx];
      ReadFromReaches(input, idx + 1, n);
    }
  }

  /** A word needs at most ten bytes, and a tenth byte is 1. */
  lemma WordShape(value: u64)
    ensures Len(value) <= 10
    ensures Len(value) == 10 ==> Encode(value)[9] <= 1
  {
    Pow128At9();
    assert Pow128(10) == 128 * Pow128(9);
    LenShort(value, 10);
    if Len(value) == 10 {
      EncodeTerminated(value);
      var s := Encode(value);
      assert s == s[..9] + [s[9]];
      ValueSnoc(s[..9], s[9]);
      if s[9] >= 2 {
        MulAtLeastTwice(s[9], Pow128(9));
      }
    }
  }

  lemma MulAtLeastTwice(k: nat, p: nat)
    requires k >= 2
    ensures k * p >= 2 * p
  {
    assert k * p == 2 * p + (k - 2) * p;
  }

  lemma {:induction false} LenShort(value: nat, n: nat)
    requires n >= 1 && value < Pow128(n)
    ensures Len(value) <= n
  {
    if value >= 128 {
      assert n > 1;
      LenShort(value / 128, n - 1);
    }
  }

  /** Reading a written word followed by anything returns the word and its length. */
  lemma ReadEncoded(value: u64, rest: Blob)
    ensures Read(Encode(value) + rest) == Ok((value, Len(value)))
  {
    var input, n := Encode(value) + rest, Len(value);
    assert input[..n] == Encode(value);
    EncodeTerminated(value);
    WordShape(value);
    if n == 10 {
      assert input[9] == Encode(value)[9];
    }
    ReadFromReaches(input, 0, n);
    assert input[..n][n - 1] == input[n - 1];
  }

  lemma {:induction false} ReadFromOk(input: Blob, idx: nat)
    requires idx <= |input| && idx <= 10
    requires forall i :: 0 <= i < idx ==> input[i] >= 128
    ensures
      match ReadFrom(input, idx)
      case Ok((v, n)) => idx < n <= |input| && n <= 10 && input[..n] == Encode(v)
      case Err(BufferTooShort) => |input| <= 10 && forall i :: 0 <= i < |input| ==> input[i] >= 128
      case Err(_) => true
    decreases |input| - idx
  {
    if idx < |input| && idx < 10 && !(idx == 9 && input[idx] > 1) {
      if input[idx] >= 128 {
        ReadFromOk(input, idx + 1);
      } else {
        MinimalReencodes(input[..idx + 1]);
      }
    }
  }

  /** `read_uvarint` accepts exactly the strings that start with a minimal encoding of a word. */
  lemma ReadIffEncoded(input: Blob, value: u64, n: nat)
    ensures Read(input) == Ok((value, n)) <==> n == Len(value) && Encode(value) <= input
  {
    ReadFromOk(input, 0);
    if Read(input) == Ok((value, n)) {
      assert Encode(value) == input[..n];
    }
    if Encode(value) <= input {
      ReadEncoded(value, input[Len(value)..]);
      assert input == Encode(value) + input[Len(value)..];
    }
  }

  lemma {:induction false} ReadFromStable(input: Blob, more: Blob, idx: nat)
    requires idx <= |input| && idx <= 10
    requires ReadFrom(input, idx) != Err(BufferTooShort)
    ensures ReadFrom(input + more, idx) == ReadFrom(input, idx)
    decreases |input| - idx
  {
    if idx < 10 && !(idx == 9 && input[idx] > 1) {
      if input[idx] >= 128 {
        ReadFromStable(input, more, idx + 1);
      } else {
        assert (input + more)[..idx + 1] == input[..idx + 1];
      }
    }
  }

  /** Any verdict other than `BufferTooShort` survives the arrival of more bytes. */
  lemma ReadPrefixStable(input: Blob, more: Blob)
    requires Read(input) != Err(BufferTooShort)
    ensures Read(input + more) == Read(input)
  {
    ReadFromStable(input, more, 0);
  }

  /** `BufferTooShort` means at most nine bytes, all of which announce a successor. */
  lemma {:induction false} ReadShort(input: Blob)
    ensures Read(input) == Err(BufferTooShort) <==>
            |input| < 10 && forall i :: 0 <= i < |input| ==> input[i] >= 128
  {
    ReadFromOk(input, 0);
    if |input| < 10 && forall i :: 0 <= i < |input| ==> input[i] >= 128 {
      ReadShortFrom(input, 0);
    } else if |input| == 10 && forall i :: 0 <= i < |input| ==> input[i] >= 128 {
      ReadShortFrom(input, 0);
    }
  }

  lemma {:induction false} ReadShortFrom(input: Blob, idx: nat)
    requires idx <= |input| <= 10
    requires forall i :: 0 <= i < |input| ==> input[i] >= 128
    ensures ReadFrom(input, idx) == Err(BufferTooShort) || (|input| == 10 && idx <= 9)
    ensures |input| == 10 && idx <= 9 ==> ReadFrom(input, idx) == Err(Overflow)
    decreases |input| - idx
  {
    if idx < |input| && idx < 9 {
      ReadShortFrom(input, idx + 1);
    }
  }

  /** A proper prefix of a minimal encoding is always reported as too short. */
  lemma ReadProperPrefix(value: u64, k: nat)
    requires k < Len(value)
    ensures Read(Encode(value)[..k]) == Err(BufferTooShort)
  {
    EncodeTerminated(value);
    WordShape(value);
    ReadShort(Encode(value)[..k]);
  }

  // ------------------------------------------------------------- imperative form

  method UvarintLen(value: u64) returns (len: nat)
    ensures len == |Encode(value)|
  {
    var v: nat := value;
    len := 1;
    while v >= 128
      invariant len - 1 + Len(v) == Len(value)
    {
      v := v / 128;
      len := len + 1;
    }
  }

  method WriteUvarint(value: u64, out: Blob) returns (r: Blob)
    ensures r == out + Encode(value)
  {
    var v: nat := value;
    r := out;
    while true
      invariant r + Encode(v) == out + Encode(value)
      decreases v
    {
      var b: byte := v % 128;
      v := v / 128;
      if v != 0 {
        b := b + 128;
      }
      r := r + [b];
      if v == 0 {
        break;
      }
    }
  }

  method ReadUvarint(input: Blob) returns (r: ReadResult)
    ensures r == Read(input)
  {
    var value: nat, scale: nat := 0, 1;
    var idx := 0;
    while idx < |input|
      invariant 0 <= idx <= |input| && idx <= 10
      invariant scale == Pow128(idx) && value == Value(input[..idx])
      invariant Read(input) == ReadFrom(input, idx)
    {
      var b := input[idx];
      if idx >= 10 || (idx == 9 && (b >= 128 || b > 1)) {
        return Err(Overflow);
      }
      ValueSnoc(input[..idx], b);
      assert input[..idx + 1] == input[..idx] + [b];
      value := value + (b % 128) * scale;
      if b < 128 {
        ValueFitsWord(input[..idx + 1]);
        var used := idx + 1;
        var len := UvarintLen(value);
        if used != len {
          return Err(NonCanonical);
        }
        return Ok((value, used));
      }
      scale := scale * 128;
      idx := idx + 1;
    }
    return Err(BufferTooShort);
  }
}

/** Varint-length-prefixed frames (crates/relay/src/message.rs:326-370,
    crates/dcutr/src/message.rs:206-247, crates/identify/src/lib.rs:487-520). */
module Framing {
  import opened Bytes
  import Varint

  /** `Overflow` is a length whose sum with the prefix leaves the machine word: the unchecked
      addition or the slice after it stops the program. */
  datatype Decoded = Complete(payload: Blob, consumed: nat) | Incomplete | Failed(error: Varint.Error) | Overflow

  function Frame(payload: Blob): Blob {
    Varint.Encode(|payload|) + payload
  }

  function Decode(buf: Blob): (d: Decoded)
    ensures d.Complete? ==> 0 < d.consumed <= |buf|
  {
    if buf == [] then Incomplete
    else
      match Varint.Read(buf)
      case Err(BufferTooShort) => Incomplete
      case Err(e) => Failed(e)
      case Ok((length, used)) =>
        if used + length >= TWO_64 then Overflow
        else if |buf| < used + length then Incomplete
        else
          assert 0 < used by { Varint.ReadIffEncoded(buf, length, used); }
          Complete(buf[used..used + length], used + length)
  }

  /** The side condition of the unchecked addition: it overflows exactly on a complete prefix that
      announces one of the ten largest lengths. */
  lemma OverflowIff(buf: Blob)
    ensures Decode(buf).Overflow? <==>
            exists length: u64 :: length + Varint.Len(length) >= TWO_64 && Varint.Encode(length) <= buf
  {
    match Varint.Read(buf) {
      case Ok((length, used)) =>
        Varint.ReadIffEncoded(buf, length, used);
        assert buf != [];
        forall other: u64 | Varint.Encode(other) <= buf
          ensures other == length
        {
          Varint.ReadIffEncoded(buf, other, Varint.Len(other));
        }
      case Err(_) =>
        forall other: u64
          ensures !(Varint.Encode(other) <= buf)
        {
          Varint.ReadIffEncoded(buf, other, Varint.Len(other));
        }
    }
  }

  /** A payload whose frame length is a machine word. */
  predicate Framable(payload: Blob) {
    |payload| + Varint.Len(|payload|) < TWO_64
  }

  lemma DecodeFramed(payload: Blob, rest: Blob)
    requires Framable(payload)
    ensures Decode(Frame(payload) + rest) == Complete(payload, |Frame(payload)|)
  {
    var buf, prefix := Frame(payload) + rest, Varint.Encode(|payload|);
    assert buf == prefix + (payload + rest);
    Varint.ReadEncoded(|payload|, payload + rest);
    assert buf[|prefix|..|prefix| + |payload|] == payload;
  }

  lemma DecodePartial(payload: Blob, k: nat)
    requires Framable(payload) && k < |Frame(payload)|
    ensures Decode(Frame(payload)[..k]) == Incomplete
  {
    var buf, prefix := Frame(payload)[..k], Varint.Encode(|payload|);
    if k < |prefix| {
      assert buf == prefix[..k];
      Varint.ReadProperPrefix(|payload|, k);
    } else {
      assert buf == prefix + buf[|prefix|..];
      Varint.ReadEncoded(|payload|, buf[|prefix|..]);
    }
  }

  /** Bytes that settle a frame are not reinterpreted when more arrive. */
  lemma DecodeStable(buf: Blob, more: Blob)
    requires !Decode(buf).Incomplete?
    ensures Decode(buf + more) == Decode(buf)
  {
    Varint.ReadPrefixStable(buf, more);
    match Varint.Read(buf) {
      case Ok((length, used)) =>
        if used + length <= |buf| {
          assert (buf + more)[used..used + length] == buf[used..used + length];
        }
      case Err(_) =>
    }
  }

  /** A complete frame is the frame of its payload. */
  lemma DecodeCanonical(buf: Blob)
    requires Decode(buf).Complete?
    ensures var d := Decode(buf);
            buf[..d.consumed] == Frame(d.payload) && |Frame(d.payload)| == d.consumed && Framable(d.payload)
  {
    var Ok((length, used)) := Varint.Read(buf);
    Varint.ReadIffEncoded(buf, length, used);
    assert buf[..used + length] == buf[..used] + buf[used..used + length];
  }

  /** A proper prefix of a frame waits for the rest; a whole one is complete. */
  lemma DecodePrefix(payload: Blob, got: Blob)
    requires Framable(payload) && got <= Frame(payload)
    ensures Decode(got) == if got == Frame(payload) then Complete(payload, |got|) else Incomplete
  {
    if got == Frame(payload) {
      DecodeFramed(payload, []);
      assert Frame(payload) + [] == got;
    } else {
      assert got == Frame(payload)[..|got|];
      DecodePartial(payload, |got|);
    }
  }
}

/** Byte strings, machine words and the result types shared by every layer. */
module Bytes {

  type byte = b: int | 0 <= b < 256
  type Blob = seq<byte>

  const TWO_64: int := 0x1_0000_0000_0000_0000

  /** A Rust `u64`, and a `usize` of a 64-bit target. */
  type u64 = v: int | 0 <= v < TWO_64

  datatype Option<+T> = None | Some(value: T)

  datatype Result<+T, +E> = Ok(value: T) | Err(error: E)

  function Flatten(chunks: seq<Blob>): Blob {
    if chunks == [] then [] else chunks[0] + Flatten(chunks[1..])
  }
}

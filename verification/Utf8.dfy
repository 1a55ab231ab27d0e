/** UTF-8 text as Rust's `core::str::from_utf8` accepts it: the well-formed byte sequences of
    table 3-7 of the Unicode Standard. */
module Utf8 {
  import opened Bytes

  predicate Continues(b: byte) {
    0x80 <= b <= 0xBF
  }

  /** Length of the well-formed character at the front of `s`, or 0 when there is none. */
  function CharLen(s: Blob): (n: nat)
    requires s != []
    ensures n <= |s|
  {
    var b := s[0];
    if b < 0x80 then 1
    else if 0xC2 <= b <= 0xDF then
      if |s| >= 2 && Continues(s[1]) then 2 else 0
    else if 0xE0 <= b <= 0xEF then
      if |s| >= 3 && Continues(s[1]) && Continues(s[2])
         && (b == 0xE0 ==> s[1] >= 0xA0) && (b == 0xED ==> s[1] <= 0x9F) then 3 else 0
    else if 0xF0 <= b <= 0xF4 then
      if |s| >= 4 && Continues(s[1]) && Continues(s[2]) && Continues(s[3])
         && (b == 0xF0 ==> s[1] >= 0x90) && (b == 0xF4 ==> s[1] <= 0x8F) then 4 else 0
    else 0
  }

  predicate Valid(s: Blob) {
    s == [] || (CharLen(s) > 0 && Valid(s[CharLen(s)..]))
  }

  /** The contents of a Rust `String`: valid UTF-8, no longer than `isize::MAX`. */
  ghost predicate IsText(s: Blob) {
    Valid(s) && |s| < 0x8000_0000_0000_0000
  }

  lemma {:induction false} AsciiValid(s: Blob)
    requires forall i :: 0 <= i < |s| ==> s[i] < 128
    ensures Valid(s)
  {
    if s != [] {
      AsciiValid(s[1..]);
    }
  }
}

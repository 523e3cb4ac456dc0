/**
 * The length of a string in bytes of its UTF-8 encoding, which is what Rust's
 * `str::len` reports. A Dafny `char` is a Unicode scalar value.
 */
module Utf8 {

  /** Number of bytes in the UTF-8 encoding of `c`. */
  function Width(c: char): (w: nat)
    ensures 1 <= w <= 4
  {
    if c as int < 0x80 then 1
    else if c as int < 0x800 then 2
    else if c as int < 0x1_0000 then 3
    else 4
  }

  /** Number of bytes in the UTF-8 encoding of `s`: never fewer than its characters. */
  function Length(s: string): (n: nat)
    ensures |s| <= n <= 4 * |s|
  {
    if s == [] then 0 else Width(s[0]) + Length(s[1..])
  }

  predicate IsAscii(s: string) {
    forall i :: 0 <= i < |s| ==> s[i] as int < 0x80
  }

  /** For ASCII text, bytes and characters agree. */
  lemma {:induction false} AsciiLength(s: string)
    requires IsAscii(s)
    ensures Length(s) == |s|
  {
    if s != [] {
      assert IsAscii(s[1..]) by {
        forall i | 0 <= i < |s[1..]| ensures s[1..][i] as int < 0x80 {
          assert s[1..][i] == s[i + 1];
        }
      }
      AsciiLength(s[1..]);
    }
  }
}

/** Go strings as the client sees them: immutable sequences of bytes.
    Equality is byte-wise and `len` and slicing count bytes, not characters. */
module GoText {

  newtype byte = x: int | 0 <= x < 0x100

  type GoString = seq<byte>

  /** True when every character of `s` is 7-bit ASCII, so that it is one byte in UTF-8. */
  predicate IsAscii(s: string) {
    forall i :: 0 <= i < |s| ==> s[i] as int < 0x80
  }

  /** The UTF-8 bytes of an ASCII string literal, one byte per character. */
  function Ascii(s: string): (r: GoString)
    requires IsAscii(s)
    ensures |r| == |s|
    ensures forall i :: 0 <= i < |s| ==> r[i] as int == s[i] as int
  {
    seq(|s|, i requires 0 <= i < |s| => s[i] as int as byte)
  }
}

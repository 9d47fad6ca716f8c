/** Bytes, and the UTF-8 encoding of the ASCII literals the payload templates are made of. */
module Bytes {

  newtype uint8 = x: int | 0 <= x < 256

  type Bytes = seq<uint8>

  /** A 33-byte compressed public key; the model only passes it through. */
  type H264 = s: Bytes | |s| == 33 witness seq(33, _ => 0)

  predicate IsAscii(s: string) {
    forall i :: 0 <= i < |s| ==> s[i] as int < 128
  }

  /** The UTF-8 bytes of an ASCII string: one byte per character, same code. */
  function Ascii(s: string): (r: Bytes)
    requires IsAscii(s)
    ensures |r| == |s|
    ensures forall i :: 0 <= i < |s| ==> r[i] as int == s[i] as int
  {
    seq(|s|, i requires 0 <= i < |s| => s[i] as int as uint8)
  }

  lemma AsciiConcat(a: string, b: string)
    requires IsAscii(a) && IsAscii(b)
    ensures IsAscii(a + b)
    ensures Ascii(a + b) == Ascii(a) + Ascii(b)
  {}
}

/** Bytes, the ASCII constants the encoder treats specially, and counting helpers. */
module Bytes {

  /** An 8-bit byte, the unit Go strings are made of. */
  type byte = bv8

  /** A single-byte (ASCII) character: the only delimiters and quotes this model admits. */
  type Ascii = b: byte | b < 128

  const TAB: byte := 9
  const LF: byte := 10
  const VT: byte := 11
  const FF: byte := 12
  const CR: byte := 13
  const SPACE: byte := 32
  const DQUOTE: Ascii := 34
  const COMMA: Ascii := 44
  const DOT: byte := 46
  const BACKSLASH: byte := 92
  const PIPE: Ascii := 124

  /** Number of occurrences of `b` in `s`. */
  function Count(s: seq<byte>, b: byte): (n: nat)
    ensures n <= |s|
    ensures n == 0 <==> b !in s
  {
    if s == [] then 0 else (if s[0] == b then 1 else 0) + Count(s[1..], b)
  }

  lemma {:induction false} CountAppend(s: seq<byte>, t: seq<byte>, b: byte)
    ensures Count(s + t, b) == Count(s, b) + Count(t, b)
  {
    if s == [] {
      assert s + t == t;
    } else {
      assert (s + t)[1..] == s[1..] + t;
      CountAppend(s[1..], t, b);
    }
  }
}

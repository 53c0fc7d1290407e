/** Machine words, and fixed-width byte fields holding NUL-terminated text. */
module Bytes {
  const TWO32: nat := 0x1_0000_0000
  const TWO64: nat := 0x1_0000_0000_0000_0000

  type Byte = b: int | 0 <= b < 256
  type U64 = x: int | 0 <= x < TWO64

  function Zeros(n: nat): seq<Byte> { seq(n, i => 0) }

  /** The bytes before the first NUL, or all of them. */
  function UntilNul(bs: seq<Byte>): seq<Byte> {
    if bs == [] || bs[0] == 0 then [] else [bs[0]] + UntilNul(bs[1..])
  }

  function Min(a: nat, b: nat): nat { if a < b then a else b }

  lemma {:induction false} UntilNulIsPrefix(bs: seq<Byte>)
    ensures UntilNul(bs) <= bs && 0 !in UntilNul(bs)
    ensures |UntilNul(bs)| < |bs| ==> bs[|UntilNul(bs)|] == 0
  {
    if bs != [] && bs[0] != 0 {
      UntilNulIsPrefix(bs[1..]);
    }
  }

  /** Only the text before a NUL matters. */
  lemma {:induction false} UntilNulCuts(text: seq<Byte>, rest: seq<Byte>)
    requires 0 !in text && (rest == [] || rest[0] == 0)
    ensures UntilNul(text + rest) == text
  {
    if text == [] {
      assert text + rest == rest;
    } else {
      assert (text + rest)[1..] == text[1..] + rest;
      UntilNulCuts(text[1..], rest);
    }
  }
}

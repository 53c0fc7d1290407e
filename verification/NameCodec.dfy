/** The fixed-width encoding of cluster names: S264B and B642S as loops over arrays. */
module NameCodec {
  import opened Bytes

  const WIDTH: nat := 64

  // A [64]uint8.
  type Name = bs: seq<Byte> | |bs| == WIDTH witness seq(WIDTH, i => 0)

  /** What S264B computes. */
  function Encode(s: seq<Byte>): Name {
    var text := s[..Min(|s|, WIDTH)];
    text + Zeros(WIDTH - |text|)
  }

  method S264B(s: seq<Byte>) returns (bs: array<Byte>)
    ensures fresh(bs) && bs.Length == WIDTH && bs[..] == Encode(s)
  {
    bs := new Byte[WIDTH](i => 0);
    var slen := |s|;
    if slen == 0 {
      assert bs[..] == Encode(s);
      return;
    }
    if slen >= WIDTH {
      for i := 0 to WIDTH
        invariant forall k :: 0 <= k < i ==> bs[k] == s[k]
      {
        bs[i] := s[i];
      }
      assert bs[..] == Encode(s);
      return;
    }
    for i := 0 to slen
      invariant forall k :: 0 <= k < i ==> bs[k] == s[k]
    {
      bs[i] := s[i];
    }
    for i := 0 to WIDTH - slen
      invariant forall k :: 0 <= k < slen ==> bs[k] == s[k]
      invariant forall k :: slen <= k < slen + i ==> bs[k] == 0
    {
      bs[slen + i] := 0;
    }
    assert bs[..] == Encode(s);
  }

  method B642S(bs: Name) returns (s: seq<Byte>)
    ensures s == UntilNul(bs)
  {
    s := [];
    assert bs[0..] == bs;
    for i := 0 to WIDTH
      invariant UntilNul(bs) == s + UntilNul(bs[i..])
    {
      if bs[i] == 0 {
        break;
      }
      s := s + [bs[i]];
    }
  }

  /** Decoding an encoded name gives its prefix up to 64 bytes or the first NUL, whichever comes first. */
  lemma DecodeEncode(s: seq<Byte>)
    ensures |Encode(s)| == 64 && UntilNul(Encode(s)) == UntilNul(s[..Min(|s|, 64)])
  {
    var text := s[..Min(|s|, WIDTH)];
    UntilNulIsPrefix(text);
    var kept := UntilNul(text);
    assert text == kept + text[|kept|..];
    assert Encode(s) == kept + (text[|kept|..] + Zeros(WIDTH - |text|));
    UntilNulCuts(kept, text[|kept|..] + Zeros(WIDTH - |text|));
  }

  /** A name survives the round trip exactly when it fits and holds no NUL. */
  lemma RoundTripIff(s: seq<Byte>)
    ensures UntilNul(Encode(s)) == s <==> |s| <= 64 && 0 !in s
  {
    DecodeEncode(s);
    var text := s[..Min(|s|, WIDTH)];
    UntilNulIsPrefix(text);
    if |s| <= WIDTH && 0 !in s {
      assert text == s;
      UntilNulCuts(s, []);
      assert s + [] == s;
    }
  }

  /** Two names get the same encoding exactly when they show the same first 64 bytes once the shorter one
      is padded with NULs; two names without NULs that fit get it only if they are equal. */
  lemma EncodeCollides(s: seq<Byte>, t: seq<Byte>)
    ensures Encode(s) == Encode(t) <==>
      forall i :: 0 <= i < 64 ==> (if i < |s| then s[i] else 0) == (if i < |t| then t[i] else 0)
    ensures |s| <= 64 && |t| <= 64 && 0 !in s && 0 !in t && Encode(s) == Encode(t) ==> s == t
  {
    assert forall i :: 0 <= i < WIDTH ==> Encode(s)[i] == if i < |s| then s[i] else 0;
    assert forall i :: 0 <= i < WIDTH ==> Encode(t)[i] == if i < |t| then t[i] else 0;
    RoundTripIff(s);
    RoundTripIff(t);
  }

  /** A stored name is re-encoded to itself exactly when nothing follows its first NUL. */
  lemma EncodeDecodeIff(bs: Name)
    ensures Encode(UntilNul(bs)) == bs <==> forall i :: |UntilNul(bs)| <= i < 64 ==> bs[i] == 0
  {
    UntilNulIsPrefix(bs);
    var text := UntilNul(bs);
    assert text[..Min(|text|, WIDTH)] == text;
  }
}

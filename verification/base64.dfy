/** `arrayBufferToBase64` of lib/openai.ts: every byte becomes the character with that code
    (`String.fromCharCode`), and `btoa` encodes the resulting binary string in the base64
    alphabet of section 4 of RFC 4648, with `=` padding. A decoder is the encoder's
    partner. */
module Base64 {
  import opened Wrappers

  /** A byte of an `ArrayBuffer`, read through a `Uint8Array`. */
  type Byte = x: int | 0 <= x < 256

  /** A six-bit group: the index of one base64 character. */
  type Sextet = x: int | 0 <= x < 64

  /** The 64 characters of the base64 alphabet. */
  predicate IsAlphabet(c: char) {
    ('A' <= c <= 'Z') || ('a' <= c <= 'z') || ('0' <= c <= '9') || c == '+' || c == '/'
  }

  /** The character of an index (Table 1 of RFC 4648). */
  function CharOf(i: Sextet): (c: char)
    ensures IsAlphabet(c)
  {
    if i < 26 then ('A' as int + i) as char
    else if i < 52 then ('a' as int + (i - 26)) as char
    else if i < 62 then ('0' as int + (i - 52)) as char
    else if i == 62 then '+'
    else '/'
  }

  /** The index of an alphabet character: the inverse of `CharOf`. */
  function IndexOf(c: char): (i: Sextet)
    requires IsAlphabet(c)
    ensures CharOf(i) == c
  {
    if 'A' <= c <= 'Z' then c as int - 'A' as int
    else if 'a' <= c <= 'z' then c as int - 'a' as int + 26
    else if '0' <= c <= '9' then c as int - '0' as int + 52
    else if c == '+' then 62
    else 63
  }

  /** `CharOf` is one-to-one, so `IndexOf` undoes it. */
  lemma IndexOfCharOf(i: Sextet)
    ensures IndexOf(CharOf(i)) == i
  {
  }

  // ---------------------------------------------------------------------------
  // Encoding
  // ---------------------------------------------------------------------------

  /** The four characters of three bytes. */
  function Quad(b0: Byte, b1: Byte, b2: Byte): string {
    [CharOf(b0 / 4), CharOf((b0 % 4) * 16 + b1 / 16), CharOf((b1 % 16) * 4 + b2 / 64), CharOf(b2 % 64)]
  }

  /** A final single byte: two characters, the second with four zero bits, and two `=`. */
  function OneByteGroup(b0: Byte): string {
    [CharOf(b0 / 4), CharOf((b0 % 4) * 16), '=', '=']
  }

  /** A final pair of bytes: three characters, the last with two zero bits, and one `=`. */
  function TwoByteGroup(b0: Byte, b1: Byte): string {
    [CharOf(b0 / 4), CharOf((b0 % 4) * 16 + b1 / 16), CharOf((b1 % 16) * 4), '=']
  }

  /** The encoding of the bytes, three at a time; a final one or two bytes are encoded in
      two or three characters and padded with `=` to four. */
  function Encode(bs: seq<Byte>): (r: string)
    ensures |r| == 4 * ((|bs| + 2) / 3)
  {
    if |bs| == 0 then ""
    else if |bs| == 1 then OneByteGroup(bs[0])
    else if |bs| == 2 then TwoByteGroup(bs[0], bs[1])
    else Quad(bs[0], bs[1], bs[2]) + Encode(bs[3..])
  }

  /** An encoding is made of alphabet characters, with `=` only in its last two places. */
  lemma {:induction false} EncodeAlphabet(bs: seq<Byte>)
    ensures forall i | 0 <= i < |Encode(bs)| ::
      IsAlphabet(Encode(bs)[i]) || (Encode(bs)[i] == '=' && i >= |Encode(bs)| - 2)
    decreases |bs|
  {
    if |bs| >= 3 {
      var q, rest := Quad(bs[0], bs[1], bs[2]), Encode(bs[3..]);
      assert Encode(bs) == q + rest;
      EncodeAlphabet(bs[3..]);
      forall i | 0 <= i < |Encode(bs)|
        ensures IsAlphabet(Encode(bs)[i]) || (Encode(bs)[i] == '=' && i >= |Encode(bs)| - 2)
      {
        if i >= 4 {
          assert Encode(bs)[i] == rest[i - 4];
        }
      }
    }
  }

  // ---------------------------------------------------------------------------
  // Decoding
  // ---------------------------------------------------------------------------

  /** The bytes of four characters, of which the last one or two may be `=`; `None` when
      they are not of that form. */
  function DecodeQuad(c0: char, c1: char, c2: char, c3: char): (r: Option<seq<Byte>>)
    ensures r.Some? ==> 1 <= |r.value| <= 3
  {
    if !IsAlphabet(c0) || !IsAlphabet(c1) then None
    else
      var i0, i1 := IndexOf(c0), IndexOf(c1);
      if c2 == '=' && c3 == '=' then Some([i0 * 4 + i1 / 16])
      else if !IsAlphabet(c2) then None
      else
        var i2 := IndexOf(c2);
        if c3 == '=' then Some([i0 * 4 + i1 / 16, (i1 % 16) * 16 + i2 / 4])
        else if !IsAlphabet(c3) then None
        else Some([i0 * 4 + i1 / 16, (i1 % 16) * 16 + i2 / 4, (i2 % 4) * 64 + IndexOf(c3)])
  }

  /** The bytes a base64 text encodes, four characters at a time; padding may only end the
      text. */
  function Decode(s: string): Option<seq<Byte>> {
    if |s| == 0 then Some([])
    else if |s| < 4 then None
    else
      match DecodeQuad(s[0], s[1], s[2], s[3])
      case None => None
      case Some(head) =>
        if |head| < 3 && |s| > 4 then None
        else
          match Decode(s[4..])
          case None => None
          case Some(tail) => Some(head + tail)
  }

  /** Four alphabet characters decode to the three bytes their indices spell. */
  lemma DecodeFull(i0: Sextet, i1: Sextet, i2: Sextet, i3: Sextet, b0: Byte, b1: Byte, b2: Byte)
    requires i0 * 4 + i1 / 16 == b0 && (i1 % 16) * 16 + i2 / 4 == b1 && (i2 % 4) * 64 + i3 == b2
    ensures DecodeQuad(CharOf(i0), CharOf(i1), CharOf(i2), CharOf(i3)) == Some([b0, b1, b2])
  {
    IndexOfCharOf(i0);
    IndexOfCharOf(i1);
    IndexOfCharOf(i2);
    IndexOfCharOf(i3);
  }

  /** Three alphabet characters and one `=` decode to two bytes. */
  lemma DecodeOnePad(i0: Sextet, i1: Sextet, i2: Sextet, b0: Byte, b1: Byte)
    requires i0 * 4 + i1 / 16 == b0 && (i1 % 16) * 16 + i2 / 4 == b1
    ensures DecodeQuad(CharOf(i0), CharOf(i1), CharOf(i2), '=') == Some([b0, b1])
  {
    IndexOfCharOf(i0);
    IndexOfCharOf(i1);
    IndexOfCharOf(i2);
  }

  /** Two alphabet characters and two `=` decode to one byte. */
  lemma DecodeTwoPads(i0: Sextet, i1: Sextet, b0: Byte)
    requires i0 * 4 + i1 / 16 == b0
    ensures DecodeQuad(CharOf(i0), CharOf(i1), '=', '=') == Some([b0])
  {
    IndexOfCharOf(i0);
    IndexOfCharOf(i1);
  }

  /** A padded group of four characters, alone, decodes as its group does. */
  lemma DecodeLast(r: string, head: seq<Byte>)
    requires |r| == 4 && DecodeQuad(r[0], r[1], r[2], r[3]) == Some(head)
    ensures Decode(r) == Some(head)
  {
    assert Decode(r[4..]) == Some([]);
    assert head + [] == head;
  }

  /** The six-bit groups of three bytes put back together give the bytes. */
  lemma TripleParts(b0: Byte, b1: Byte, b2: Byte)
    ensures var i1, i2 := (b0 % 4) * 16 + b1 / 16, (b1 % 16) * 4 + b2 / 64;
      (b0 / 4) * 4 + i1 / 16 == b0 && (i1 % 16) * 16 + i2 / 4 == b1 && (i2 % 4) * 64 + b2 % 64 == b2
  {
    var i1, i2 := (b0 % 4) * 16 + b1 / 16, (b1 % 16) * 4 + b2 / 64;
    assert i1 / 16 == b0 % 4 && i1 % 16 == b1 / 16;
    assert i2 / 4 == b1 % 16 && i2 % 4 == b2 / 64;
  }

  /** Decoding the characters of three bytes gives the bytes back. */
  lemma QuadRoundTrip(b0: Byte, b1: Byte, b2: Byte)
    ensures DecodeQuad(CharOf(b0 / 4), CharOf((b0 % 4) * 16 + b1 / 16), CharOf((b1 % 16) * 4 + b2 / 64), CharOf(b2 % 64))
         == Some([b0, b1, b2])
  {
    TripleParts(b0, b1, b2);
    DecodeFull(b0 / 4, (b0 % 4) * 16 + b1 / 16, (b1 % 16) * 4 + b2 / 64, b2 % 64, b0, b1, b2);
  }

  /** A final single byte survives its padded group. */
  lemma OneGroupRoundTrip(b0: Byte)
    ensures Decode(OneByteGroup(b0)) == Some([b0])
  {
    TripleParts(b0, 0, 0);
    DecodeTwoPads(b0 / 4, (b0 % 4) * 16, b0);
    DecodeLast(OneByteGroup(b0), [b0]);
  }

  /** A final pair of bytes survives its padded group. */
  lemma TwoGroupRoundTrip(b0: Byte, b1: Byte)
    ensures Decode(TwoByteGroup(b0, b1)) == Some([b0, b1])
  {
    TripleParts(b0, b1, 0);
    DecodeOnePad(b0 / 4, (b0 % 4) * 16 + b1 / 16, (b1 % 16) * 4, b0, b1);
    DecodeLast(TwoByteGroup(b0, b1), [b0, b1]);
  }

  /** Decoding reads a full group of three bytes off the front. */
  lemma DecodeAfterQuad(b0: Byte, b1: Byte, b2: Byte, rest: string)
    ensures Decode(Quad(b0, b1, b2) + rest)
         == if Decode(rest).Some? then Some([b0, b1, b2] + Decode(rest).value) else None
  {
    var r := Quad(b0, b1, b2) + rest;
    QuadRoundTrip(b0, b1, b2);
    assert DecodeQuad(r[0], r[1], r[2], r[3]) == Some([b0, b1, b2]);
    assert r[4..] == rest;
  }

  /** Fewer than three bytes survive their padded encoding. */
  lemma ShortRoundTrip(bs: seq<Byte>)
    requires |bs| < 3
    ensures Decode(Encode(bs)) == Some(bs)
  {
    if |bs| == 1 {
      var b0 := bs[0];
      assert bs == [b0];
      assert Encode(bs) == OneByteGroup(b0);
      OneGroupRoundTrip(b0);
    } else if |bs| == 2 {
      var b0, b1 := bs[0], bs[1];
      assert bs == [b0, b1];
      assert Encode(bs) == TwoByteGroup(b0, b1);
      TwoGroupRoundTrip(b0, b1);
    }
  }

  /** Decoding an encoding gives the bytes back. */
  lemma {:induction false} DecodeEncode(bs: seq<Byte>)
    ensures Decode(Encode(bs)) == Some(bs)
    decreases |bs|
  {
    if |bs| < 3 {
      ShortRoundTrip(bs);
    } else {
      var b0, b1, b2, tail := bs[0], bs[1], bs[2], bs[3..];
      assert bs == [b0, b1, b2] + tail;
      var rest := Encode(tail);
      assert Encode(bs) == Quad(b0, b1, b2) + rest;
      DecodeEncode(tail);
      DecodeAfterQuad(b0, b1, b2, rest);
    }
  }

  // ---------------------------------------------------------------------------
  // `String.fromCharCode` and `btoa`
  // ---------------------------------------------------------------------------

  /** The binary string of the bytes: one character per byte, with the byte as its code. */
  function BinaryString(bs: seq<Byte>): (s: string)
    ensures |s| == |bs|
    ensures forall i | 0 <= i < |s| :: s[i] as int == bs[i]
  {
    seq(|bs|, i requires 0 <= i < |bs| => bs[i] as char)
  }

  /** The loop of `arrayBufferToBase64` that builds the binary string, one
      `String.fromCharCode(bytes[i])` at a time. */
  method BuildBinary(bs: seq<Byte>) returns (binary: string)
    ensures |binary| == |bs|
    ensures forall i | 0 <= i < |bs| :: binary[i] as int == bs[i]
    ensures binary == BinaryString(bs) && Btoa(binary) == Some(ArrayBufferToBase64(bs))
  {
    binary := "";
    var i := 0;
    while i < |bs|
      invariant 0 <= i <= |bs|
      invariant |binary| == i
      invariant forall k | 0 <= k < i :: binary[k] as int == bs[k]
    {
      binary := binary + [bs[i] as char];
      i := i + 1;
    }
  }

  /** Every character of `s` has a code below 256. */
  predicate IsBinary(s: string) {
    forall i | 0 <= i < |s| :: s[i] as int < 256
  }

  /** The codes of a binary string. */
  function Codes(s: string): (bs: seq<Byte>)
    requires IsBinary(s)
    ensures |bs| == |s|
    ensures forall i | 0 <= i < |s| :: bs[i] == s[i] as int
  {
    seq(|s|, i requires 0 <= i < |s| => s[i] as int)
  }

  /** `btoa(s)`: it throws (`InvalidCharacterError`) when a character's code exceeds 255,
      and otherwise encodes the codes. */
  function Btoa(s: string): (r: Option<string>)
    ensures r.Some? <==> IsBinary(s)
    ensures r.Some? ==> Decode(r.value) == Some(Codes(s))
    ensures r.Some? ==> r.value == Encode(Codes(s)) && |r.value| == 4 * ((|s| + 2) / 3)
  {
    if IsBinary(s) then
      DecodeEncode(Codes(s));
      Some(Encode(Codes(s)))
    else None
  }

  /** `arrayBufferToBase64(buffer)`: it never throws, and the text decodes to the bytes. */
  function ArrayBufferToBase64(bs: seq<Byte>): (r: string)
    ensures Decode(r) == Some(bs)
    ensures r == Encode(bs) && |r| == 4 * ((|bs| + 2) / 3)
  {
    var b := BinaryString(bs);
    assert Codes(b) == bs;
    Btoa(b).value
  }
}

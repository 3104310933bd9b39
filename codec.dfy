/** The byte encodings the server emits: Node's `Buffer.toString` with
    "hex", "base64" and "binary", and `Buffer.readUInt32BE`. */
module Codec {

  type byte = x: int | 0 <= x < 256

  // ---------------------------------------------------------------------
  // hex: two lower-case digits per byte, high nibble first

  const HexDigits: string := "0123456789abcdef"

  predicate IsLowerHexDigit(c: char) {
    '0' <= c <= '9' || 'a' <= c <= 'f'
  }

  function HexDigit(d: nat): (c: char)
    requires d < 16
    ensures IsLowerHexDigit(c)
    ensures HexValue(c) == d
  {
    HexDigits[d]
  }

  /** The value of a lower-case hex digit. */
  function HexValue(c: char): (d: nat)
    requires IsLowerHexDigit(c)
    ensures d < 16
  {
    if c <= '9' then c as int - '0' as int else c as int - 'a' as int + 10
  }

  function Hex(bs: seq<byte>): (s: string)
    ensures |s| == 2 * |bs|
  {
    if bs == [] then "" else [HexDigit(bs[0] / 16), HexDigit(bs[0] % 16)] + Hex(bs[1..])
  }

  function HexDecode(s: string): seq<byte>
    requires |s| % 2 == 0
    requires forall i :: 0 <= i < |s| ==> IsLowerHexDigit(s[i])
  {
    if s == [] then [] else [HexValue(s[0]) * 16 + HexValue(s[1])] + HexDecode(s[2..])
  }

  /** Byte `i` of the input becomes characters `2i` and `2i+1` of the output. */
  lemma {:induction false} HexAt(bs: seq<byte>, i: nat)
    requires i < |bs|
    ensures Hex(bs)[2 * i] == HexDigit(bs[i] / 16)
    ensures Hex(bs)[2 * i + 1] == HexDigit(bs[i] % 16)
  {
    if i > 0 {
      HexAt(bs[1..], i - 1);
    }
  }

  /** Every character of the hex form is a lower-case hex digit. */
  lemma HexIsLowerHex(bs: seq<byte>)
    ensures forall j :: 0 <= j < |Hex(bs)| ==> IsLowerHexDigit(Hex(bs)[j])
  {
    forall j | 0 <= j < |Hex(bs)|
      ensures IsLowerHexDigit(Hex(bs)[j])
    {
      HexAt(bs, j / 2);
    }
  }

  /** Decoding the hex form gives back the bytes. */
  lemma {:induction false} HexRoundTrip(bs: seq<byte>)
    ensures forall i :: 0 <= i < |Hex(bs)| ==> IsLowerHexDigit(Hex(bs)[i])
    ensures HexDecode(Hex(bs)) == bs
  {
    HexIsLowerHex(bs);
    if bs != [] {
      var s := Hex(bs);
      assert s[2..] == Hex(bs[1..]);
      HexRoundTrip(bs[1..]);
    }
  }

  // ---------------------------------------------------------------------
  // base64: the padded standard encoding of section 4 of RFC 4648

  /** Table 1 of RFC 4648: the character for a 6-bit value. */
  function Base64Char(v: nat): (c: char)
    requires v < 64
  {
    if v < 26 then ('A' as int + v) as char
    else if v < 52 then ('a' as int + (v - 26)) as char
    else if v < 62 then ('0' as int + (v - 52)) as char
    else if v == 62 then '+'
    else '/'
  }

  predicate IsBase64Char(c: char) {
    'A' <= c <= 'Z' || 'a' <= c <= 'z' || '0' <= c <= '9' || c == '+' || c == '/'
  }

  /** The 6-bit value of an alphabet character: the inverse of Base64Char. */
  function Base64Value(c: char): (v: nat)
    requires IsBase64Char(c)
    ensures v < 64 && Base64Char(v) == c
  {
    if 'A' <= c <= 'Z' then c as int - 'A' as int
    else if 'a' <= c <= 'z' then c as int - 'a' as int + 26
    else if '0' <= c <= '9' then c as int - '0' as int + 52
    else if c == '+' then 62
    else 63
  }

  lemma Base64CharInAlphabet(v: nat)
    requires v < 64
    ensures IsBase64Char(Base64Char(v)) && Base64Value(Base64Char(v)) == v
  {
  }

  /** Three bytes make four characters. */
  function Base64Group(b0: byte, b1: byte, b2: byte): string {
    [Base64Char(b0 / 4), Base64Char((b0 % 4) * 16 + b1 / 16),
     Base64Char((b1 % 16) * 4 + b2 / 64), Base64Char(b2 % 64)]
  }

  /** Three bytes make four characters; a final one or two bytes make two or
      three characters followed by `=` padding. */
  function Base64(bs: seq<byte>): (s: string)
    decreases |bs|
  {
    if |bs| == 0 then ""
    else if |bs| == 1 then
      [Base64Char(bs[0] / 4), Base64Char((bs[0] % 4) * 16), '=', '=']
    else if |bs| == 2 then
      [Base64Char(bs[0] / 4), Base64Char((bs[0] % 4) * 16 + bs[1] / 16),
       Base64Char((bs[1] % 16) * 4), '=']
    else
      Base64Group(bs[0], bs[1], bs[2]) + Base64(bs[3..])
  }

  /** A padded base64 string: groups of four alphabet characters, where only
      the last group may end in `==` or `=`. */
  predicate IsPaddedBase64(s: string)
    decreases |s|
  {
    s == [] ||
    (|s| >= 4 && IsBase64Char(s[0]) && IsBase64Char(s[1]) &&
     ((|s| == 4 && s[2] == '=' && s[3] == '=') ||
      (IsBase64Char(s[2]) &&
       ((|s| == 4 && s[3] == '=') || (IsBase64Char(s[3]) && IsPaddedBase64(s[4..]))))))
  }

  function Base64Decode(s: string): seq<byte>
    requires IsPaddedBase64(s)
    decreases |s|
  {
    if s == [] then []
    else
      var v0, v1 := Base64Value(s[0]), Base64Value(s[1]);
      var b0 := v0 * 4 + v1 / 16;
      if s[2] == '=' then [b0]
      else
        var v2 := Base64Value(s[2]);
        var b1 := (v1 % 16) * 16 + v2 / 4;
        if s[3] == '=' then [b0, b1]
        else [b0, b1, (v2 % 4) * 64 + Base64Value(s[3])] + Base64Decode(s[4..])
  }

  /** The encoded length is four characters per started group of three bytes. */
  lemma {:induction false} Base64Length(bs: seq<byte>)
    ensures |Base64(bs)| == 4 * ((|bs| + 2) / 3)
  {
    if |bs| >= 3 {
      Base64Length(bs[3..]);
      assert (|bs| + 2) / 3 == (|bs[3..]| + 2) / 3 + 1;
    }
  }

  /** Every character of the encoding is an alphabet character or `=`, and
      `=` appears only in the last two positions. */
  lemma {:induction false} Base64Chars(bs: seq<byte>)
    ensures forall i :: 0 <= i < |Base64(bs)| ==>
      IsBase64Char(Base64(bs)[i]) || (Base64(bs)[i] == '=' && i >= |Base64(bs)| - 2)
  {
    var s := Base64(bs);
    if |bs| >= 3 {
      Base64Chars(bs[3..]);
      GroupDecodesToBytes(bs[0], bs[1], bs[2]);
      var g, t := Base64Group(bs[0], bs[1], bs[2]), Base64(bs[3..]);
      assert s == g + t;
      forall i | 0 <= i < |s|
        ensures IsBase64Char(s[i]) || (s[i] == '=' && i >= |s| - 2)
      {
        if i >= 4 {
          assert s[i] == t[i - 4];
        }
      }
    } else if |bs| == 2 {
      Base64CharInAlphabet(bs[0] / 4);
      Base64CharInAlphabet((bs[0] % 4) * 16 + bs[1] / 16);
      Base64CharInAlphabet((bs[1] % 16) * 4);
    } else if |bs| == 1 {
      Base64CharInAlphabet(bs[0] / 4);
      Base64CharInAlphabet((bs[0] % 4) * 16);
    }
  }

  /** Splitting a value into a high part and a low part and joining them
      again gives the parts back. */
  lemma Regroup16(b: nat, lo: nat)
    requires lo < 16
    ensures (b * 16 + lo) / 16 == b && (b * 16 + lo) % 16 == lo
  {
  }

  lemma Regroup4(b: nat, lo: nat)
    requires lo < 4
    ensures (b * 4 + lo) / 4 == b && (b * 4 + lo) % 4 == lo
  {
  }

  /** The four characters of a full group are alphabet characters whose
      values give back the three bytes. */
  lemma GroupDecodesToBytes(b0: byte, b1: byte, b2: byte)
    ensures var g := Base64Group(b0, b1, b2);
      |g| == 4 && IsBase64Char(g[0]) && IsBase64Char(g[1]) && IsBase64Char(g[2]) && IsBase64Char(g[3]) &&
      Base64Value(g[0]) * 4 + Base64Value(g[1]) / 16 == b0 &&
      (Base64Value(g[1]) % 16) * 16 + Base64Value(g[2]) / 4 == b1 &&
      (Base64Value(g[2]) % 4) * 64 + Base64Value(g[3]) == b2
  {
    Base64CharInAlphabet(b0 / 4);
    Base64CharInAlphabet((b0 % 4) * 16 + b1 / 16);
    Base64CharInAlphabet((b1 % 16) * 4 + b2 / 64);
    Base64CharInAlphabet(b2 % 64);
    Regroup16(b0 % 4, b1 / 16);
    Regroup4(b1 % 16, b2 / 64);
  }

  /** A full group followed by well-formed text decodes to the group's three
      bytes followed by the decoding of that text. */
  lemma DecodeGroup(b0: byte, b1: byte, b2: byte, t: string)
    requires IsPaddedBase64(t)
    ensures IsPaddedBase64(Base64Group(b0, b1, b2) + t)
    ensures Base64Decode(Base64Group(b0, b1, b2) + t) == [b0, b1, b2] + Base64Decode(t)
  {
    var g := Base64Group(b0, b1, b2);
    GroupDecodesToBytes(b0, b1, b2);
    var s := g + t;
    assert s[4..] == t;
    assert s[0] == g[0] && s[1] == g[1] && s[2] == g[2] && s[3] == g[3];
  }

  /** Decoding the base64 form gives back the bytes. */
  lemma {:induction false} Base64RoundTrip(bs: seq<byte>)
    ensures IsPaddedBase64(Base64(bs))
    ensures Base64Decode(Base64(bs)) == bs
    decreases |bs|
  {
    if |bs| >= 3 {
      Base64RoundTrip(bs[3..]);
      Base64GroupStep(bs);
    } else if bs != [] {
      Base64FinalGroup(bs);
    }
  }

  /** If the rest after the first three bytes comes back, so do all bytes. */
  lemma Base64GroupStep(bs: seq<byte>)
    requires |bs| >= 3
    requires IsPaddedBase64(Base64(bs[3..])) && Base64Decode(Base64(bs[3..])) == bs[3..]
    ensures IsPaddedBase64(Base64(bs)) && Base64Decode(Base64(bs)) == bs
  {
    var g, t := Base64Group(bs[0], bs[1], bs[2]), Base64(bs[3..]);
    assert Base64(bs) == g + t;
    DecodeGroup(bs[0], bs[1], bs[2], t);
    calc {
      Base64Decode(Base64(bs));
      Base64Decode(g + t);
      [bs[0], bs[1], bs[2]] + Base64Decode(t);
      [bs[0], bs[1], bs[2]] + bs[3..];
      { SplitThree(bs); }
      bs;
    }
  }

  lemma SplitThree<X>(s: seq<X>)
    requires |s| >= 3
    ensures s == [s[0], s[1], s[2]] + s[3..]
  {
    assert s == s[..3] + s[3..];
  }

  /** A final one or two bytes come back from their padded group. */
  lemma Base64FinalGroup(bs: seq<byte>)
    requires 1 <= |bs| <= 2
    ensures IsPaddedBase64(Base64(bs))
    ensures Base64Decode(Base64(bs)) == bs
  {
    if |bs| == 2 {
      Base64TwoBytes(bs[0], bs[1]);
      assert bs == [bs[0], bs[1]];
    } else {
      Base64OneByte(bs[0]);
      assert bs == [bs[0]];
    }
  }

  lemma Base64OneByte(b0: byte)
    ensures IsPaddedBase64(Base64([b0]))
    ensures Base64Decode(Base64([b0])) == [b0]
  {
    var s := Base64([b0]);
    GroupDecodesToBytes(b0, 0, 0);
    assert s[0] == Base64Group(b0, 0, 0)[0] && s[1] == Base64Group(b0, 0, 0)[1];
    assert s[2] == '=' && s[3] == '=';
  }

  lemma Base64TwoBytes(b0: byte, b1: byte)
    ensures IsPaddedBase64(Base64([b0, b1]))
    ensures Base64Decode(Base64([b0, b1])) == [b0, b1]
  {
    var s := Base64([b0, b1]);
    var g := Base64Group(b0, b1, 0);
    GroupDecodesToBytes(b0, b1, 0);
    assert s[0] == g[0] && s[1] == g[1] && s[2] == g[2];
    assert s[3] == '=';
  }

  // ---------------------------------------------------------------------
  // binary (latin1): one character per byte, with the byte as its code

  function Latin1(bs: seq<byte>): (s: string)
    ensures |s| == |bs|
  {
    seq(|bs|, i requires 0 <= i < |bs| => bs[i] as char)
  }

  function Latin1Decode(s: string): seq<byte>
    requires forall i :: 0 <= i < |s| ==> s[i] as int < 256
  {
    seq(|s|, i requires 0 <= i < |s| => s[i] as int)
  }

  lemma Latin1RoundTrip(bs: seq<byte>)
    ensures forall i :: 0 <= i < |Latin1(bs)| ==> Latin1(bs)[i] as int < 256
    ensures Latin1Decode(Latin1(bs)) == bs
  {
  }

  // ---------------------------------------------------------------------
  // Buffer.readUInt32BE(0)

  /** The first four bytes read as an unsigned 32-bit big-endian integer. */
  function ReadUInt32BE(bs: seq<byte>): (u: nat)
    requires |bs| >= 4
    ensures u <= 0xFFFF_FFFF
    ensures u / 0x100_0000 == bs[0] && (u / 0x1_0000) % 0x100 == bs[1]
    ensures (u / 0x100) % 0x100 == bs[2] && u % 0x100 == bs[3]
  {
    var u := bs[0] as int * 0x100_0000 + bs[1] as int * 0x1_0000 + bs[2] as int * 0x100 + bs[3] as int;
    assert u / 0x100 == bs[0] as int * 0x1_0000 + bs[1] as int * 0x100 + bs[2] as int;
    assert u / 0x1_0000 == bs[0] as int * 0x100 + bs[1] as int;
    u
  }
}

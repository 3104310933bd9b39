/** The character tables of `generate_random_string`, looked up by name. */
module Charsets {
  import opened Js
  import Codec

  const Alphanumeric: string := "ABCDEFGHIJKLMNOPQRSTUVWXYZabcdefghijklmnopqrstuvwxyz0123456789"
  const Alphabetic: string := "ABCDEFGHIJKLMNOPQRSTUVWXYZabcdefghijklmnopqrstuvwxyz"
  const Numeric: string := "0123456789"
  const HexTable: string := "0123456789abcdef"
  const Base64Table: string := "ABCDEFGHIJKLMNOPQRSTUVWXYZabcdefghijklmnopqrstuvwxyz0123456789+/"
  /** Every printable ASCII character from `!` to `~`, in code order; written
      in pieces, it is the same 94-character string as the source's literal. */
  const AsciiPrintable: string :=
    "!\"#$%&'()*+,-./" + "0123456789" + ":;<=>?@" + "ABCDEFGHIJKLMNOPQRSTUVWXYZ" +
    "[\\]^_`" + "abcdefghijklmnopqrstuvwxyz" + "{|}~"

  /** The names the `charsets` object defines. */
  const Names: seq<string> := ["alphanumeric", "alphabetic", "numeric", "hex", "base64", "ascii_printable"]

  /** `charsets[charset]`, with an unknown name giving no table. */
  function Lookup(name: string): (r: Option<string>)
    ensures r.Some? <==> name in Names
    ensures r.Some? ==> |r.value| > 0
  {
    if name == "alphanumeric" then Some(Alphanumeric)
    else if name == "alphabetic" then Some(Alphabetic)
    else if name == "numeric" then Some(Numeric)
    else if name == "hex" then Some(HexTable)
    else if name == "base64" then Some(Base64Table)
    else if name == "ascii_printable" then Some(AsciiPrintable)
    else None
  }

  predicate IsUpper(c: char) { 'A' <= c <= 'Z' }
  predicate IsLower(c: char) { 'a' <= c <= 'z' }
  predicate IsDigit(c: char) { '0' <= c <= '9' }

  const Upper: string := "ABCDEFGHIJKLMNOPQRSTUVWXYZ"
  const Lower: string := "abcdefghijklmnopqrstuvwxyz"

  lemma UpperRun()
    ensures |Upper| == 26 && forall i :: 0 <= i < 26 ==> Upper[i] as int == 'A' as int + i
  {
  }

  lemma LowerRun()
    ensures |Lower| == 26 && forall i :: 0 <= i < 26 ==> Lower[i] as int == 'a' as int + i
  {
  }

  lemma DigitRun()
    ensures |Numeric| == 10 && forall i :: 0 <= i < 10 ==> Numeric[i] as int == '0' as int + i
  {
  }

  /** The sizes the tables are documented to have. */
  lemma TableSizes()
    ensures |Lookup("alphanumeric").value| == 62 && |Lookup("alphabetic").value| == 52
    ensures |Lookup("numeric").value| == 10 && |Lookup("hex").value| == 16
    ensures |Lookup("base64").value| == 64 && |Lookup("ascii_printable").value| == 94
  {
  }

  lemma AlphanumericParts()
    ensures Alphanumeric == Upper + Lower + Numeric
  {
  }

  lemma Base64TableParts()
    ensures Base64Table == Upper + Lower + Numeric + "+/"
  {
    AlphanumericParts();
    assert Base64Table[..62] == Alphanumeric;
    assert Base64Table[62..] == "+/";
    assert Base64Table == Base64Table[..62] + Base64Table[62..];
  }

  lemma UpperMembers(c: char)
    ensures c in Upper <==> IsUpper(c)
  {
  }

  lemma LowerMembers(c: char)
    ensures c in Lower <==> IsLower(c)
  {
  }

  /** Each table holds exactly the characters its name promises. */
  lemma AlphanumericMembers(c: char)
    ensures c in Alphanumeric <==> IsUpper(c) || IsLower(c) || IsDigit(c)
  {
    AlphanumericParts();
    UpperMembers(c);
    LowerMembers(c);
  }

  lemma AlphabeticMembers(c: char)
    ensures c in Alphabetic <==> IsUpper(c) || IsLower(c)
  {
    assert Alphabetic == Upper + Lower;
    UpperMembers(c);
    LowerMembers(c);
  }

  lemma NumericMembers(c: char)
    ensures c in Numeric <==> IsDigit(c)
  {
  }

  lemma HexTableMembers(c: char)
    ensures c in HexTable <==> Codec.IsLowerHexDigit(c)
  {
  }

  lemma Base64TableMembers(c: char)
    ensures c in Base64Table <==> Codec.IsBase64Char(c)
  {
    Base64TableParts();
    UpperMembers(c);
    LowerMembers(c);
  }

  lemma AsciiPrintableMembers(c: char)
    ensures c in AsciiPrintable <==> '!' <= c <= '~'
  {
    UpperMembers(c);
    LowerMembers(c);
    assert c in "!\"#$%&'()*+,-./" <==> '!' <= c <= '/';
    assert c in ":;<=>?@" <==> ':' <= c <= '@';
    assert c in "[\\]^_`" <==> '[' <= c <= '`';
    assert c in "{|}~" <==> '{' <= c <= '~';
  }

  /** The hex table is the digit alphabet of the hex byte encoding. */
  lemma HexTableIsHexDigits()
    ensures HexTable == Codec.HexDigits
  {
  }

  /** The base64 table lists RFC 4648's alphabet in value order. */
  lemma Base64TableIsAlphabet()
    ensures |Base64Table| == 64
    ensures forall v :: 0 <= v < 64 ==> Base64Table[v] == Codec.Base64Char(v)
  {
    Base64TableParts();
    UpperRun();
    LowerRun();
    DigitRun();
    forall v | 0 <= v < 64
      ensures Base64Table[v] == Codec.Base64Char(v)
    {
      if v < 26 {
        assert Base64Table[v] == Upper[v];
      } else if v < 52 {
        assert Base64Table[v] == Lower[v - 26];
      } else if v < 62 {
        assert Base64Table[v] == Numeric[v - 52];
      }
    }
  }
}

/** Version 4 UUIDs as `crypto.randomUUID` produces them (section 5.4 of
    RFC 9562), and the "compact" form that drops their hyphens. */
module Uuid {
  import opened Codec

  /** Sets the version field (octet 6, high nibble) to 4 and the variant
      field (octet 8, top two bits) to binary 10; every other bit is random. */
  function SetVersionAndVariant(b: seq<byte>): (v: seq<byte>)
    requires |b| == 16
    ensures |v| == 16
    ensures v[6] / 16 == 4 && v[6] % 16 == b[6] % 16
    ensures v[8] / 64 == 2 && v[8] % 64 == b[8] % 64
    ensures forall i :: 0 <= i < 16 && i != 6 && i != 8 ==> v[i] == b[i]
  {
    b[6 := b[6] % 16 + 0x40][8 := b[8] % 64 + 0x80]
  }

  /** The 8-4-4-4-12 grouping of the 32 lower-case hex digits. */
  function Format(v: seq<byte>): string
    requires |v| == 16
  {
    Hex(v[..4]) + "-" + (Hex(v[4..6]) + "-" + (Hex(v[6..8]) + "-" + (Hex(v[8..10]) + "-" + Hex(v[10..]))))
  }

  predicate IsHyphenPosition(i: int) {
    i == 8 || i == 13 || i == 18 || i == 23
  }

  /** The textual shape of a version 4 UUID:
      `xxxxxxxx-xxxx-4xxx-Nxxx-xxxxxxxxxxxx` with N one of 8, 9, a, b. */
  predicate IsUuidV4(s: string) {
    |s| == 36 &&
    (forall i :: 0 <= i < 36 && IsHyphenPosition(i) ==> s[i] == '-') &&
    (forall i :: 0 <= i < 36 && !IsHyphenPosition(i) ==> IsLowerHexDigit(s[i])) &&
    s[14] == '4' && (s[19] == '8' || s[19] == '9' || s[19] == 'a' || s[19] == 'b')
  }

  /** `s.replace(/-/g, "")`. */
  function RemoveHyphens(s: string): (r: string)
    ensures |r| <= |s|
  {
    if s == [] then []
    else (if s[0] == '-' then [] else [s[0]]) + RemoveHyphens(s[1..])
  }

  lemma {:induction false} RemoveHyphensAppend(a: string, b: string)
    ensures RemoveHyphens(a + b) == RemoveHyphens(a) + RemoveHyphens(b)
  {
    if a == [] {
      assert a + b == b;
    } else {
      assert (a + b)[1..] == a[1..] + b;
      RemoveHyphensAppend(a[1..], b);
    }
  }

  /** Text without hyphens is left unchanged. */
  lemma {:induction false} RemoveHyphensNone(s: string)
    requires forall i :: 0 <= i < |s| ==> s[i] != '-'
    ensures RemoveHyphens(s) == s
  {
    if s != [] {
      RemoveHyphensNone(s[1..]);
    }
  }

  /** The formatted 16 octets form a version 4 UUID. */
  lemma FormatIsUuidV4(b: seq<byte>)
    requires |b| == 16
    ensures IsUuidV4(Format(SetVersionAndVariant(b)))
  {
    var v := SetVersionAndVariant(b);
    var s := Format(v);
    HexIsLowerHex(v[..4]);
    HexIsLowerHex(v[4..6]);
    HexIsLowerHex(v[6..8]);
    HexIsLowerHex(v[8..10]);
    HexIsLowerHex(v[10..]);
    HexAt(v[6..8], 0);
    HexAt(v[8..10], 0);
    forall i | 0 <= i < 36 && !IsHyphenPosition(i)
      ensures IsLowerHexDigit(s[i])
    {
      if i < 8 { assert s[i] == Hex(v[..4])[i]; }
      else if i < 13 { assert s[i] == Hex(v[4..6])[i - 9]; }
      else if i < 18 { assert s[i] == Hex(v[6..8])[i - 14]; }
      else if i < 23 { assert s[i] == Hex(v[8..10])[i - 19]; }
      else { assert s[i] == Hex(v[10..])[i - 24]; }
    }
    assert s[14] == Hex(v[6..8])[0];
    assert s[19] == Hex(v[8..10])[0];
  }

  /** Dropping the hyphens after a hyphen-free group keeps the group. */
  lemma RemoveHyphensAfterGroup(a: string, rest: string)
    requires forall i :: 0 <= i < |a| ==> a[i] != '-'
    ensures RemoveHyphens(a + "-" + rest) == a + RemoveHyphens(rest)
  {
    RemoveHyphensAppend(a + "-", rest);
    RemoveHyphensAppend(a, "-");
    RemoveHyphensNone(a);
    assert RemoveHyphens("-") == [] by {
      assert "-"[1..] == [];
    }
    assert RemoveHyphens(a + "-") == a;
  }

  /** Puts the hyphens back at positions 8, 13, 18 and 23. */
  function InsertHyphens(c: string): string
    requires |c| == 32
  {
    c[..8] + "-" + c[8..12] + "-" + c[12..16] + "-" + c[16..20] + "-" + c[20..]
  }

  /** Removing the hyphens of a version 4 UUID joins its five groups. */
  lemma CompactJoinsGroups(s: string)
    requires IsUuidV4(s)
    ensures RemoveHyphens(s) == s[..8] + (s[9..13] + (s[14..18] + (s[19..23] + s[24..])))
  {
    var a, b, c, d, e := s[..8], s[9..13], s[14..18], s[19..23], s[24..];
    assert s == a + "-" + (b + "-" + (c + "-" + (d + "-" + e)));
    assert forall i | 0 <= i < 8 :: a[i] != '-' by {
      forall i | 0 <= i < 8 ensures a[i] != '-' { assert a[i] == s[i]; }
    }
    assert forall i | 0 <= i < 4 :: b[i] != '-' && c[i] != '-' && d[i] != '-' by {
      forall i | 0 <= i < 4 ensures b[i] != '-' && c[i] != '-' && d[i] != '-' {
        assert b[i] == s[i + 9] && c[i] == s[i + 14] && d[i] == s[i + 19];
      }
    }
    assert forall i | 0 <= i < 12 :: e[i] != '-' by {
      forall i | 0 <= i < 12 ensures e[i] != '-' { assert e[i] == s[i + 24]; }
    }
    RemoveHyphensNone(e);
    RemoveHyphensAfterGroup(d, e);
    RemoveHyphensAfterGroup(c, d + "-" + e);
    RemoveHyphensAfterGroup(b, c + "-" + (d + "-" + e));
    RemoveHyphensAfterGroup(a, b + "-" + (c + "-" + (d + "-" + e)));
  }

  /** The compact form of any version 4 UUID has 32 lower-case hex digits
      and no hyphen, and the UUID can be rebuilt from it. */
  lemma CompactUuid(s: string)
    requires IsUuidV4(s)
    ensures |RemoveHyphens(s)| == 32
    ensures forall i :: 0 <= i < 32 ==> IsLowerHexDigit(RemoveHyphens(s)[i])
    ensures InsertHyphens(RemoveHyphens(s)) == s
  {
    CompactJoinsGroups(s);
    var r := RemoveHyphens(s);
    forall i | 0 <= i < 32 ensures IsLowerHexDigit(r[i]) {
      if i < 8 { assert r[i] == s[i]; }
      else if i < 12 { assert r[i] == s[i + 1]; }
      else if i < 16 { assert r[i] == s[i + 2]; }
      else if i < 20 { assert r[i] == s[i + 3]; }
      else { assert r[i] == s[i + 4]; }
    }
    assert r[..8] == s[..8] && r[8..12] == s[9..13] && r[12..16] == s[14..18];
    assert r[16..20] == s[19..23] && r[20..] == s[24..];
    assert s == s[..8] + "-" + s[9..13] + "-" + s[14..18] + "-" + s[19..23] + "-" + s[24..];
  }
}

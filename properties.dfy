/** What the generators' results mean: the properties their values have,
    stated over the draws each value was built from. */
module Properties {
  import opened Js
  import opened Codec
  import Uuid
  import Charsets
  import opened Entropy
  import opened Validation
  import Selection
  import opened Generators

  /** The uniform draw lies in [0, 1] and is 1 only on the largest answer. */
  lemma UnitRange(u: nat)
    requires u <= MaxUInt32
    ensures 0.0 <= Unit(u) <= 1.0
    ensures Unit(u) == 1.0 <==> u == MaxUInt32
  {
    var m := MaxUInt32 as real;
    assert Unit(u) * m == u as real;
  }

  /** With probability 0.0 no draw yields `true`. */
  lemma NeverTrueAtZero(u: nat)
    ensures !Coin(u, 0.0)
  {
    assert Unit(u) >= 0.0;
  }

  /** With probability 1.0 every draw yields `true` except the largest,
      0xFFFFFFFF, which yields `false`: the divisor is 0xFFFFFFFF, not 2^32. */
  lemma CertaintyMissesLargestDraw(u: nat)
    requires u <= MaxUInt32
    ensures Coin(u, 1.0) <==> u < MaxUInt32
  {
    UnitRange(u);
  }

  /** A higher probability turns no `true` into `false`. */
  lemma CoinMonotone(u: nat, p: real, q: real)
    requires p <= q
    ensures Coin(u, p) ==> Coin(u, q)
  {
  }

  /** Every boolean of a call with probability 0.0 is `false`. */
  lemma {:induction false} ZeroProbabilityAllFalse(draws: seq<Draw>, values: seq<bool>)
    requires WordDraws(draws, values, u => Coin(u, 0.0))
    ensures forall k :: 0 <= k < |values| ==> !values[k]
  {
    forall k | 0 <= k < |values|
      ensures !values[k]
    {
      NeverTrueAtZero(ReadUInt32BE(draws[k].bytes));
    }
  }

  /** Before rounding, a float lies in [min, max]: it is `min` on the
      smallest draw and reaches `max` itself on the largest, although the
      advertised maximum is exclusive. */
  lemma ScaleWithin(min: real, max: real, u: nat)
    requires min < max && u <= MaxUInt32
    ensures min <= Scale(min, max, u) <= max
    ensures Scale(min, max, u) == max <==> u == MaxUInt32
    ensures Scale(min, max, 0) == min
  {
    UnitRange(u);
    var t := Unit(u);
    assert Scale(min, max, u) - min == t * (max - min);
    assert max - Scale(min, max, u) == (1.0 - t) * (max - min);
    ScaledSign(t, max - min);
    ScaledSign(1.0 - t, max - min);
    assert Unit(0) == 0.0;
  }

  lemma ScaledSign(a: real, b: real)
    requires a >= 0.0 && b > 0.0
    ensures a * b >= 0.0
    ensures a * b == 0.0 <==> a == 0.0
  {
  }

  /** Rounding to `precision` decimals moves a float by at most half a
      unit in its last decimal place. */
  lemma FloatValueNear(p: FloatParams, u: nat)
    ensures -0.5 / Pow10(Digits(p.precision)) as real <= FloatValue(p, u) - Scale(p.min, p.max, u)
                                                    <= 0.5 / Pow10(Digits(p.precision)) as real
  {
    ToFixedClose(Scale(p.min, p.max, u), Digits(p.precision));
  }

  /** Every float of an accepted call lies within half a last-place unit
      of [min, max]. */
  lemma {:induction false} FloatsNearRange(p: FloatParams, draws: seq<Draw>, values: seq<real>)
    requires p.min < p.max
    requires WordDraws(draws, values, u => FloatValue(p, u))
    ensures forall k :: 0 <= k < |values| ==>
      p.min - 0.5 / Pow10(Digits(p.precision)) as real <= values[k] <= p.max + 0.5 / Pow10(Digits(p.precision)) as real
  {
    forall k | 0 <= k < |values|
      ensures p.min - 0.5 / Pow10(Digits(p.precision)) as real <= values[k]
                    <= p.max + 0.5 / Pow10(Digits(p.precision)) as real
    {
      FloatNearRange(p, ReadUInt32BE(draws[k].bytes));
    }
  }

  lemma FloatNearRange(p: FloatParams, u: nat)
    requires p.min < p.max && u <= MaxUInt32
    ensures p.min - 0.5 / Pow10(Digits(p.precision)) as real <= FloatValue(p, u)
                  <= p.max + 0.5 / Pow10(Digits(p.precision)) as real
  {
    ScaleWithin(p.min, p.max, u);
    FloatValueNear(p, u);
  }

  /** Rounding can take a float outside [min, max]: with min 0.001, max
      0.002 and one decimal, the smallest draw gives 0.0. */
  lemma RoundingCanFallBelowMin()
    ensures var p := FloatParams(0.001, 0.002, 1.0, 1.0);
      FloatValue(p, 0) == 0.0 && FloatValue(p, 0) < p.min
  {
    var p := FloatParams(0.001, 0.002, 1.0, 1.0);
    assert Digits(1.0) == 1;
    assert Pow10(1) == 10;
    assert Scale(p.min, p.max, 0) == 0.001;
    assert NearestUnits(0.001, 1) == 0;
  }

  /** With max 0.05 and one decimal, the largest draw rounds up to 0.1. */
  lemma RoundingCanExceedMax()
    ensures var p := FloatParams(0.0, 0.05, 1.0, 1.0);
      FloatValue(p, MaxUInt32) == 0.1 && FloatValue(p, MaxUInt32) > p.max
  {
    var p := FloatParams(0.0, 0.05, 1.0, 1.0);
    assert Digits(1.0) == 1;
    assert Pow10(1) == 10;
    assert Unit(MaxUInt32) == 1.0;
    assert Scale(p.min, p.max, MaxUInt32) == 0.05;
    assert NearestUnits(0.05, 1) == 1;
  }

  /** The hex encoding has two lower-case hex digits per byte and decodes
      back to the bytes. */
  lemma HexOutput(bs: seq<byte>)
    ensures var s := Encode(HexEncoding, bs);
      |s| == 2 * |bs| && (forall i :: 0 <= i < |s| ==> IsLowerHexDigit(s[i])) && HexDecode(s) == bs
  {
    HexRoundTrip(bs);
  }

  /** The base64 encoding is the padded form of section 4 of RFC 4648,
      four characters per started group of three bytes, with `=` only in
      the last two places, and decodes back. */
  lemma Base64Output(bs: seq<byte>)
    ensures var s := Encode(Base64Encoding, bs);
      |s| == 4 * ((|bs| + 2) / 3) && IsPaddedBase64(s) && Base64Decode(s) == bs
    ensures var s := Encode(Base64Encoding, bs);
      forall i :: 0 <= i < |s| ==> IsBase64Char(s[i]) || (s[i] == '=' && i >= |s| - 2)
  {
    Base64Length(bs);
    Base64Chars(bs);
    Base64RoundTrip(bs);
  }

  /** The binary encoding has one character per byte, each with code
      0 to 255, and decodes back. */
  lemma BinaryOutput(bs: seq<byte>)
    ensures var s := Encode(BinaryEncoding, bs);
      |s| == |bs| && (forall i :: 0 <= i < |s| ==> s[i] as int < 256) && Latin1Decode(s) == bs
  {
    Latin1RoundTrip(bs);
  }

  /** A compact UUID has 32 lower-case hex digits and no hyphen, and the
      hyphens can be put back; any other format returns the UUID as drawn. */
  lemma ShapedUuid(format: string, u: string)
    requires Uuid.IsUuidV4(u)
    ensures format == "compact" ==>
      var s := Shape(format, u);
      |s| == 32 && (forall i :: 0 <= i < 32 ==> IsLowerHexDigit(s[i])) && Uuid.InsertHyphens(s) == u
    ensures format != "compact" ==> Shape(format, u) == u
  {
    Uuid.CompactUuid(u);
  }

  /** Every UUID of an accepted call is either a version 4 UUID or, in the
      compact format, its 32 hex digits. */
  lemma {:induction false} UuidsWellFormed(format: string, draws: seq<Draw>, values: seq<string>)
    requires UuidDraws(format, draws, values)
    ensures format != "compact" ==> forall k :: 0 <= k < |values| ==> Uuid.IsUuidV4(values[k])
    ensures format == "compact" ==> forall k :: 0 <= k < |values| ==>
      |values[k]| == 32 && forall i :: 0 <= i < 32 ==> IsLowerHexDigit(values[k][i])
  {
    forall k | 0 <= k < |values|
      ensures format != "compact" ==> Uuid.IsUuidV4(values[k])
      ensures format == "compact" ==>
        |values[k]| == 32 && forall i :: 0 <= i < 32 ==> IsLowerHexDigit(values[k][i])
    {
      ShapedUuid(format, draws[k].uuid);
    }
  }

  /** Every choice is one of the choices; without duplicates, no element
      is chosen more often than it occurs among the choices. */
  lemma {:induction false} ChosenFromChoices<T>(choices: seq<T>, allowDuplicates: bool, draws: seq<Draw>, chosen: seq<T>)
    requires |draws| == |chosen|
    requires ChoiceDraws(|choices|, allowDuplicates, draws)
    requires allowDuplicates ==>
      forall k :: 0 <= k < |draws| ==> chosen[k] == choices[Indices(draws)[k]]
    requires !allowDuplicates ==>
      Selection.Fits(|choices|, Indices(draws)) && chosen == Selection.Picks(choices, Indices(draws))
    ensures forall x :: x in chosen ==> x in choices
    ensures !allowDuplicates ==> multiset(chosen) <= multiset(choices)
  {
    if allowDuplicates {
      forall x | x in chosen
        ensures x in choices
      {
        var k :| 0 <= k < |chosen| && chosen[k] == x;
        assert chosen[k] == choices[draws[k].value];
      }
    } else {
      Selection.PicksFromPool(choices, Indices(draws));
    }
  }

  /** Each drawn string character comes from the named table, so, for
      instance, a "hex" string holds only lower-case hex digits. */
  lemma {:induction false} HexStringsAreHex(strings: seq<string>)
    requires forall i :: 0 <= i < |strings| ==>
      forall j :: 0 <= j < |strings[i]| ==> strings[i][j] in Charsets.Lookup("hex").value
    ensures forall i :: 0 <= i < |strings| ==>
      forall j :: 0 <= j < |strings[i]| ==> IsLowerHexDigit(strings[i][j])
  {
    forall i, j | 0 <= i < |strings| && 0 <= j < |strings[i]|
      ensures IsLowerHexDigit(strings[i][j])
    {
      Charsets.HexTableMembers(strings[i][j]);
    }
  }
}

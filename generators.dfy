/** The seven generator methods of the server. Each fills in its defaults,
    checks its bounds (`Validation`), then loops drawing from the secure
    source and collecting the values into a tagged result. Every value
    is tied to the source's answer it was built from. */
module Generators {
  import opened Js
  import opened Codec
  import Uuid
  import Charsets
  import opened Entropy
  import opened Validation
  import Selection

  /** The object each generator serialises: its type tag, its values and
      the parameters it used. */
  datatype Output<T> =
    | Integers(integers: seq<int>, integerParams: IntegerParams)
    | Floats(floats: seq<real>, floatParams: FloatParams)
    | Bytes(encoded: string, bytesParams: BytesParams)
    | Uuids(uuids: seq<string>, uuidParams: UuidParams)
    | Strings(strings: seq<string>, stringParams: StringParams)
    | Choices(chosen: seq<T>, choiceParams: ChoiceParams<T>)
    | Booleans(booleans: seq<bool>, booleanParams: BooleanParams)
  {
    /** The `type` field of the serialised result. */
    function Type(): string {
      match this
      case Integers(_, _) => "random_integers"
      case Floats(_, _) => "random_floats"
      case Bytes(_, _) => "random_bytes"
      case Uuids(_, _) => "uuids"
      case Strings(_, _) => "random_strings"
      case Choices(_, _) => "random_choices"
      case Booleans(_, _) => "random_booleans"
    }
  }

  /** The largest answer of `readUInt32BE`, by which the uniform draw is divided. */
  const MaxUInt32: nat := 0xFFFF_FFFF

  /** `readUInt32BE(0) / 0xFFFFFFFF`: a uniform draw in [0, 1], reaching 1
      on the largest 32-bit answer. */
  function Unit(u: nat): real {
    u as real / MaxUInt32 as real
  }

  /** `randomValue < probability`. */
  function Coin(u: nat, probability: real): bool {
    Unit(u) < probability
  }

  /** `min + randomValue * (max - min)`, before rounding. */
  function Scale(min: real, max: real, u: nat): real {
    min + Unit(u) * (max - min)
  }

  /** `parseFloat(scaledValue.toFixed(precision))`; `toFixed` truncates a
      fractional precision. */
  function FloatValue(p: FloatParams, u: nat): real {
    ToFixed(Scale(p.min, p.max, u), Digits(p.precision))
  }

  /** The whole number of decimals `toFixed` uses for a precision in [1, 15]. */
  function Digits(precision: real): nat {
    if precision < 0.0 then 0 else precision.Floor
  }

  /** `bytes.toString(encoding)`. */
  function Encode(e: Encoding, bs: seq<byte>): string {
    match e
    case HexEncoding => Hex(bs)
    case Base64Encoding => Base64(bs)
    case BinaryEncoding => Latin1(bs)
  }

  /** `format === "compact" ? uuid.replace(/-/g, "") : uuid`. */
  function Shape(format: string, uuid: string): string {
    if format == "compact" then Uuid.RemoveHyphens(uuid) else uuid
  }

  /** The log grew by some draws and kept what it had. */
  predicate Extends(log0: seq<Draw>, log: seq<Draw>) {
    |log0| <= |log| && log[..|log0|] == log0
  }

  /** Each value is `randomInt(min, max + 1)`'s answer to one draw. */
  predicate IntegerDraws(p: IntegerParams, draws: seq<Draw>, values: seq<int>) {
    |draws| == |values| &&
    forall k :: 0 <= k < |values| ==> draws[k] == IntDraw(p.min.Floor, p.max.Floor + 1, values[k])
  }

  /** Each value is built by `f` from one draw of four bytes. */
  predicate WordDraws<V(==)>(draws: seq<Draw>, values: seq<V>, f: nat -> V) {
    |draws| == |values| &&
    forall k :: 0 <= k < |values| ==>
      draws[k].BytesDraw? && |draws[k].bytes| == 4 && values[k] == f(ReadUInt32BE(draws[k].bytes))
  }

  /** Each value is one fresh version 4 UUID, shaped by the format. */
  predicate UuidDraws(format: string, draws: seq<Draw>, values: seq<string>) {
    |draws| == |values| &&
    forall k :: 0 <= k < |values| ==>
      draws[k].UuidDraw? && Uuid.IsUuidV4(draws[k].uuid) && values[k] == Shape(format, draws[k].uuid)
  }

  /** Every draw is a `randomInt(0, n)` with `n` the size of `table`. */
  predicate TableDraws(table: string, draws: seq<Draw>) {
    forall k :: 0 <= k < |draws| ==>
      draws[k].IntDraw? && draws[k].lo == 0 && draws[k].hi == |table| && 0 <= draws[k].value < |table|
  }

  /** The characters the draws pick out of the table, in order. */
  function Spell(table: string, draws: seq<Draw>): (s: string)
    requires TableDraws(table, draws)
    ensures |s| == |draws|
  {
    if draws == [] then []
    else Spell(table, draws[..|draws| - 1]) + [table[draws[|draws| - 1].value]]
  }

  /** The strings joined end to end. */
  function Concat(ss: seq<string>): (s: string)
  {
    if ss == [] then [] else Concat(ss[..|ss| - 1]) + ss[|ss| - 1]
  }

  lemma ConcatAppend(ss: seq<string>, s: string)
    ensures Concat(ss + [s]) == Concat(ss) + s
  {
    assert (ss + [s])[..|ss|] == ss;
  }

  /** A string of `length` characters, every one of them from `table`. */
  predicate Spelled(table: string, length: real, s: string) {
    length >= 0.0 && |s| == Iterations(length) && forall j :: 0 <= j < |s| ==> s[j] in table
  }

  /** Spelling two runs of draws one after the other spells their
      concatenation. */
  lemma {:induction false} SpellAppend(table: string, a: seq<Draw>, b: seq<Draw>)
    requires TableDraws(table, a) && TableDraws(table, b)
    ensures TableDraws(table, a + b) && Spell(table, a + b) == Spell(table, a) + Spell(table, b)
    decreases |b|
  {
    if b == [] {
      assert a + b == a;
    } else {
      var front := b[..|b| - 1];
      SpellAppend(table, a, front);
      assert (a + b)[..|a + b| - 1] == a + front;
      assert (a + b)[|a + b| - 1] == b[|b| - 1];
      calc {
        Spell(table, a + b);
        Spell(table, a + front) + [table[b[|b| - 1].value]];
        Spell(table, a) + Spell(table, front) + [table[b[|b| - 1].value]];
        Spell(table, a) + Spell(table, b);
      }
    }
  }

  /** The indices the draws answered. */
  function Indices(draws: seq<Draw>): (ix: seq<int>)
    requires forall k :: 0 <= k < |draws| ==> draws[k].IntDraw?
    ensures |ix| == |draws| && forall k :: 0 <= k < |draws| ==> ix[k] == draws[k].value
  {
    seq(|draws|, k requires 0 <= k < |draws| => draws[k].value)
  }

  /** Each draw is `randomInt(0, length of the working copy)`: the full
      `n` choices with duplicates allowed, one fewer per draw without. */
  predicate ChoiceDraws(n: nat, allowDuplicates: bool, draws: seq<Draw>) {
    forall k :: 0 <= k < |draws| ==>
      draws[k].IntDraw? && draws[k].lo == 0 && draws[k].hi == (if allowDuplicates then n else n - k) &&
      0 <= draws[k].value < draws[k].hi
  }

  // What each generator returns on success, over the draws of the call.
  // `Dispatch.CallTool` promises the same of the records it passes on.

  ghost predicate IntegerResult<T>(args: Option<Args<T>>, draws: seq<Draw>, o: Output<T>) {
    CheckInteger(args).Ok? &&
    var p := CheckInteger(args).value;
    o.Integers? && o.integerParams == p &&
    |o.integers| == Iterations(p.count) && IntegerDraws(p, draws, o.integers) &&
    forall i :: 0 <= i < |o.integers| ==> p.min <= o.integers[i] as real <= p.max
  }

  ghost predicate FloatResult<T>(args: Option<Args<T>>, draws: seq<Draw>, o: Output<T>) {
    CheckFloat(args).Ok? &&
    var p := CheckFloat(args).value;
    o.Floats? && o.floatParams == p &&
    |o.floats| == Iterations(p.count) && WordDraws(draws, o.floats, u => FloatValue(p, u))
  }

  ghost predicate BytesResult<T>(args: Option<Args<T>>, draws: seq<Draw>, o: Output<T>) {
    CheckBytes(args).Ok? &&
    var p := CheckBytes(args).value;
    ParseEncoding(p.encoding).Some? && |draws| == 1 && draws[0].BytesDraw? &&
    (IsInteger(p.length) ==> |draws[0].bytes| == p.length.Floor) &&
    o == Bytes(Encode(ParseEncoding(p.encoding).value, draws[0].bytes), p)
  }

  ghost predicate UuidResult<T>(args: Option<Args<T>>, draws: seq<Draw>, o: Output<T>) {
    CheckUuid(args).Ok? &&
    var p := CheckUuid(args).value;
    o.Uuids? && o.uuidParams == p &&
    |o.uuids| == Iterations(p.count) && UuidDraws(p.format, draws, o.uuids)
  }

  ghost predicate StringResult<T>(args: Option<Args<T>>, draws: seq<Draw>, o: Output<T>) {
    CheckString(args).Ok? && Charsets.Lookup(CheckString(args).value.charset).Some? &&
    var p := CheckString(args).value;
    var table := Charsets.Lookup(p.charset).value;
    o.Strings? && o.stringParams == p &&
    |o.strings| == Iterations(p.count) &&
    (forall i :: 0 <= i < |o.strings| ==>
       |o.strings[i]| == Iterations(p.length) &&
       forall j :: 0 <= j < |o.strings[i]| ==> o.strings[i][j] in table) &&
    TableDraws(table, draws) && Concat(o.strings) == Spell(table, draws)
  }

  ghost predicate ChoiceResult<T>(args: Option<Args<T>>, draws: seq<Draw>, o: Output<T>) {
    CheckChoice(args).Ok? &&
    var p := CheckChoice(args).value;
    o.Choices? && o.choiceParams == p &&
    |o.chosen| == Iterations(p.count) && |draws| == |o.chosen| &&
    ChoiceDraws(|p.choices|, p.allowDuplicates, draws) &&
    (p.allowDuplicates ==>
       forall k :: 0 <= k < |draws| ==> o.chosen[k] == p.choices[Indices(draws)[k]]) &&
    (!p.allowDuplicates ==>
       Selection.Fits(|p.choices|, Indices(draws)) && o.chosen == Selection.Picks(p.choices, Indices(draws)))
  }

  ghost predicate BooleanResult<T>(args: Option<Args<T>>, draws: seq<Draw>, o: Output<T>) {
    CheckBoolean(args).Ok? &&
    var p := CheckBoolean(args).value;
    o.Booleans? && o.booleanParams == p &&
    |o.booleans| == Iterations(p.count) && WordDraws(draws, o.booleans, u => Coin(u, p.probability))
  }

  /** `generateRandomInteger`: `count` draws of `randomInt(min, max + 1)`. */
  method GenerateInteger<T>(src: CryptoSource, args: Option<Args<T>>) returns (r: Result<Output<T>>)
    modifies src
    ensures Extends(old(src.log), src.log)
    ensures CheckInteger(args).Err? ==> r == Err(CheckInteger(args).message)
    ensures CheckInteger(args).Ok? ==>
      var p := CheckInteger(args).value;
      (!IsInteger(p.min) ==> r == Err(SafeIntegerMessage("min"))) &&
      (IsInteger(p.min) && !IsInteger(p.max) ==> r == Err(SafeIntegerMessage("max"))) &&
      (IsInteger(p.min) && IsInteger(p.max) ==> r.Ok?)
    ensures r.Err? ==> src.log == old(src.log) && src.position == old(src.position)
    ensures r.Ok? ==> IntegerResult(args, src.log[|old(src.log)|..], r.value)
  {
    var checked := CheckInteger(args);
    if checked.Err? {
      return Err(checked.message);
    }
    var p := checked.value;
    var values := DrawIntegers(src, p);
    match values
    case Err(m) => r := Err(m);
    case Ok(vs) => r := Ok(Integers(vs, p));
  }

  /** The loop of `generateRandomInteger`. `randomInt` throws at the first
      draw when a bound is not an integer, and never after. */
  method DrawIntegers(src: CryptoSource, p: IntegerParams) returns (r: Result<seq<int>>)
    requires p.min <= p.max && p.count >= 1.0
    modifies src
    ensures Extends(old(src.log), src.log)
    ensures !IsInteger(p.min) ==> r == Err(SafeIntegerMessage("min"))
    ensures IsInteger(p.min) && !IsInteger(p.max) ==> r == Err(SafeIntegerMessage("max"))
    ensures r.Ok? <==> IsInteger(p.min) && IsInteger(p.max)
    ensures r.Err? ==> src.log == old(src.log) && src.position == old(src.position)
    ensures r.Ok? ==>
      |r.value| == Iterations(p.count) &&
      IntegerDraws(p, src.log[|old(src.log)|..], r.value) &&
      forall i :: 0 <= i < |r.value| ==> p.min <= r.value[i] as real <= p.max
  {
    IntegerSuccessor(p.max);
    ghost var log0 := src.log;
    ghost var draws: seq<Draw> := [];
    var values: seq<int> := [];
    var i: nat := 0;
    while (i as real) < p.count
      invariant |values| == i <= Iterations(p.count)
      invariant i > 0 ==> IsInteger(p.min) && IsInteger(p.max)
      invariant i == 0 ==> src.log == log0 && src.position == old(src.position)
      invariant src.log == log0 + draws && IntegerDraws(p, draws, values)
      invariant forall k :: 0 <= k < i ==> p.min <= values[k] as real <= p.max
      decreases Iterations(p.count) - i
    {
      IterationsBound(i, p.count);
      var v := src.RandomInt(p.min, p.max + 1.0);
      if v.Err? {
        return Err(v.message);
      }
      BelowSuccessor(v.value, p.max);
      draws := draws + [IntDraw(p.min.Floor, (p.max + 1.0).Floor, v.value)];
      values := values + [v.value];
      i := i + 1;
    }
    IterationsBound(i, p.count);
    assert src.log[|log0|..] == draws;
    r := Ok(values);
  }

  /** `generateRandomFloat`: `count` values, each a fresh 4-byte draw read
      as an unsigned big-endian integer, scaled into [min, max] and rounded
      to `precision` decimals. */
  method GenerateFloat<T>(src: CryptoSource, args: Option<Args<T>>) returns (r: Result<Output<T>>)
    modifies src
    ensures Extends(old(src.log), src.log)
    ensures r.Err? <==> CheckFloat(args).Err?
    ensures r.Err? ==>
      r.message == CheckFloat(args).message && src.log == old(src.log) && src.position == old(src.position)
    ensures r.Ok? ==> FloatResult(args, src.log[|old(src.log)|..], r.value)
  {
    var checked := CheckFloat(args);
    if checked.Err? {
      return Err(checked.message);
    }
    var p := checked.value;
    ghost var log0 := src.log;
    ghost var draws: seq<Draw> := [];
    var values: seq<real> := [];
    var i: nat := 0;
    while (i as real) < p.count
      invariant |values| == i <= Iterations(p.count)
      invariant src.log == log0 + draws && WordDraws(draws, values, u => FloatValue(p, u))
      decreases Iterations(p.count) - i
    {
      IterationsBound(i, p.count);
      var b := src.RandomBytes(4.0);
      draws := draws + [BytesDraw(b)];
      values := values + [FloatValue(p, ReadUInt32BE(b))];
      i := i + 1;
    }
    IterationsBound(i, p.count);
    assert src.log[|log0|..] == draws;
    r := Ok(Floats(values, p));
  }

  /** `generateRandomBytes`: one draw of `length` bytes, then the encoding;
      an unknown encoding is rejected only after the draw. */
  method GenerateBytes<T>(src: CryptoSource, args: Option<Args<T>>) returns (r: Result<Output<T>>)
    modifies src
    ensures Extends(old(src.log), src.log)
    ensures CheckBytes(args).Err? ==>
      r == Err(CheckBytes(args).message) && src.log == old(src.log) && src.position == old(src.position)
    ensures CheckBytes(args).Ok? ==>
      var p := CheckBytes(args).value;
      |src.log| == |old(src.log)| + 1 && src.log[|old(src.log)|].BytesDraw? &&
      (IsInteger(p.length) ==> |src.log[|old(src.log)|].bytes| == p.length.Floor) &&
      (ParseEncoding(p.encoding).None? ==> r == Err(InvalidEncoding)) &&
      (ParseEncoding(p.encoding).Some? ==>
         r == Ok(Bytes(Encode(ParseEncoding(p.encoding).value, src.log[|old(src.log)|].bytes), p)))
    ensures r.Ok? ==> BytesResult(args, src.log[|old(src.log)|..], r.value)
  {
    var checked := CheckBytes(args);
    if checked.Err? {
      return Err(checked.message);
    }
    var p := checked.value;
    var bytes := src.RandomBytes(p.length);
    match ParseEncoding(p.encoding)
    case None =>
      r := Err(InvalidEncoding);
    case Some(e) =>
      r := Ok(Bytes(Encode(e, bytes), p));
  }

  /** `generateUUID`: `count` fresh version 4 UUIDs, each hyphen-free when
      the format is "compact" and unchanged for any other format. */
  method GenerateUuid<T>(src: CryptoSource, args: Option<Args<T>>) returns (r: Result<Output<T>>)
    modifies src
    ensures Extends(old(src.log), src.log)
    ensures r.Err? <==> CheckUuid(args).Err?
    ensures r.Err? ==>
      r.message == CheckUuid(args).message && src.log == old(src.log) && src.position == old(src.position)
    ensures r.Ok? ==> UuidResult(args, src.log[|old(src.log)|..], r.value)
  {
    var checked := CheckUuid(args);
    if checked.Err? {
      return Err(checked.message);
    }
    var p := checked.value;
    ghost var log0 := src.log;
    ghost var draws: seq<Draw> := [];
    var values: seq<string> := [];
    var i: nat := 0;
    while (i as real) < p.count
      invariant |values| == i <= Iterations(p.count)
      invariant src.log == log0 + draws && UuidDraws(p.format, draws, values)
      decreases Iterations(p.count) - i
    {
      IterationsBound(i, p.count);
      var u := src.RandomUuid();
      draws := draws + [UuidDraw(u)];
      values := values + [Shape(p.format, u)];
      i := i + 1;
    }
    IterationsBound(i, p.count);
    assert src.log[|log0|..] == draws;
    r := Ok(Uuids(values, p));
  }

  /** `generateRandomBoolean`: `count` values, each true exactly when a
      fresh 4-byte draw divided by 0xFFFFFFFF is below the probability. */
  method GenerateBoolean<T>(src: CryptoSource, args: Option<Args<T>>) returns (r: Result<Output<T>>)
    modifies src
    ensures Extends(old(src.log), src.log)
    ensures r.Err? <==> CheckBoolean(args).Err?
    ensures r.Err? ==>
      r.message == CheckBoolean(args).message && src.log == old(src.log) && src.position == old(src.position)
    ensures r.Ok? ==> BooleanResult(args, src.log[|old(src.log)|..], r.value)
  {
    var checked := CheckBoolean(args);
    if checked.Err? {
      return Err(checked.message);
    }
    var p := checked.value;
    ghost var log0 := src.log;
    ghost var draws: seq<Draw> := [];
    var values: seq<bool> := [];
    var i: nat := 0;
    while (i as real) < p.count
      invariant |values| == i <= Iterations(p.count)
      invariant src.log == log0 + draws && WordDraws(draws, values, u => Coin(u, p.probability))
      decreases Iterations(p.count) - i
    {
      IterationsBound(i, p.count);
      var b := src.RandomBytes(4.0);
      draws := draws + [BytesDraw(b)];
      values := values + [Coin(ReadUInt32BE(b), p.probability)];
      i := i + 1;
    }
    IterationsBound(i, p.count);
    assert src.log[|log0|..] == draws;
    r := Ok(Booleans(values, p));
  }

  /** The inner loop of `generateRandomString`: one string of `length`
      characters, each the table entry a fresh draw selects. */
  method DrawWord(src: CryptoSource, chars: string, length: real) returns (result: string, ghost word: seq<Draw>)
    requires |chars| > 0 && length >= 0.0
    modifies src
    ensures src.log == old(src.log) + word && TableDraws(chars, word) && result == Spell(chars, word)
    ensures Spelled(chars, length, result)
  {
    ghost var log0 := src.log;
    word := [];
    result := "";
    var j: nat := 0;
    while (j as real) < length
      invariant |result| == j <= Iterations(length)
      invariant src.log == log0 + word && TableDraws(chars, word) && result == Spell(chars, word)
      invariant forall m :: 0 <= m < j ==> result[m] in chars
      decreases Iterations(length) - j
    {
      IterationsBound(j, length);
      var index := src.RandomInt(0.0, |chars| as real);
      assert (|chars| as real).Floor == |chars|;
      word := word + [IntDraw(0, |chars|, index.value)];
      assert word[..|word| - 1] + [word[|word| - 1]] == word;
      result := result + [chars[index.value]];
      j := j + 1;
    }
    IterationsBound(j, length);
    assert Spelled(chars, length, result);
  }

  /** The outer loop of `generateRandomString`: `count` strings, each
      spelled by the draws `DrawWord` makes for it. */
  method DrawStrings(src: CryptoSource, chars: string, length: real, count: real)
    returns (values: seq<string>, ghost draws: seq<Draw>)
    requires |chars| > 0 && length >= 0.0 && count >= 0.0
    modifies src
    ensures src.log == old(src.log) + draws && TableDraws(chars, draws)
    ensures Concat(values) == Spell(chars, draws)
    ensures |values| == Iterations(count)
    ensures forall k :: 0 <= k < |values| ==> Spelled(chars, length, values[k])
  {
    ghost var log0 := src.log;
    draws := [];
    values := [];
    var i: nat := 0;
    while (i as real) < count
      invariant |values| == i <= Iterations(count)
      invariant src.log == log0 + draws && TableDraws(chars, draws)
      invariant Concat(values) == Spell(chars, draws)
      invariant forall k :: 0 <= k < i ==> Spelled(chars, length, values[k])
      decreases Iterations(count) - i
    {
      IterationsBound(i, count);
      var result;
      ghost var word;
      result, word := DrawWord(src, chars, length);
      SpellAppend(chars, draws, word);
      draws := draws + word;
      ConcatAppend(values, result);
      values := values + [result];
      i := i + 1;
    }
    IterationsBound(i, count);
  }

  /** `generateRandomString`: `count` strings of `length` characters, each
      character `chars[randomInt(0, chars.length)]` of the named table. */
  method GenerateString<T>(src: CryptoSource, args: Option<Args<T>>) returns (r: Result<Output<T>>)
    modifies src
    ensures Extends(old(src.log), src.log)
    ensures r.Err? <==> CheckString(args).Err?
    ensures r.Err? ==>
      r.message == CheckString(args).message && src.log == old(src.log) && src.position == old(src.position)
    ensures r.Ok? ==> StringResult(args, src.log[|old(src.log)|..], r.value)
  {
    var checked := CheckString(args);
    if checked.Err? {
      return Err(checked.message);
    }
    var p := checked.value;
    var chars := Charsets.Lookup(p.charset).value;
    ghost var log0 := src.log;
    var values: seq<string>;
    ghost var draws: seq<Draw>;
    values, draws := DrawStrings(src, chars, p.length, p.count);
    assert src.log[|log0|..] == draws;
    r := Ok(Strings(values, p));
  }

  /** `generateRandomChoice`: `count` draws, each an index into a working
      copy of the choices. With duplicates allowed the copy stays whole;
      without, the chosen element is spliced out of it, so no position is
      chosen twice. The caller's `choices` is left as it was. */
  method GenerateChoice<T>(src: CryptoSource, args: Option<Args<T>>) returns (r: Result<Output<T>>)
    modifies src
    ensures Extends(old(src.log), src.log)
    ensures r.Err? <==> CheckChoice(args).Err?
    ensures r.Err? ==>
      r.message == CheckChoice(args).message && src.log == old(src.log) && src.position == old(src.position)
    ensures r.Ok? ==> ChoiceResult(args, src.log[|old(src.log)|..], r.value)
  {
    var checked := CheckChoice(args);
    if checked.Err? {
      return Err(checked.message);
    }
    var p := checked.value;
    ChoiceDrawsFit(args);
    var values := Choose(src, p.choices, p.count, p.allowDuplicates);
    r := Ok(Choices(values, p));
  }

  /** The loop of `generateRandomChoice`, over a fresh copy of the choices. */
  method Choose<T>(src: CryptoSource, choices: seq<T>, count: real, allowDuplicates: bool)
    returns (values: seq<T>)
    requires |choices| > 0 && count >= 0.0
    requires !allowDuplicates ==> Iterations(count) <= |choices|
    modifies src
    ensures Extends(old(src.log), src.log)
    ensures var draws := src.log[|old(src.log)|..];
      |values| == Iterations(count) && |draws| == |values| &&
      ChoiceDraws(|choices|, allowDuplicates, draws) &&
      (allowDuplicates ==>
         forall k :: 0 <= k < |draws| ==> values[k] == choices[Indices(draws)[k]]) &&
      (!allowDuplicates ==>
         Selection.Fits(|choices|, Indices(draws)) &&
         values == Selection.Picks(choices, Indices(draws)))
  {
    var n := |choices|;
    var available := new T[n](k requires 0 <= k < n => choices[k]);
    var len := n;
    ghost var log0 := src.log;
    ghost var draws: seq<Draw> := [];
    ghost var picks: seq<int> := [];
    values := [];
    var i: nat := 0;
    while (i as real) < count
      invariant |values| == |draws| == |picks| == i <= Iterations(count)
      invariant src.log == log0 + draws && ChoiceDraws(n, allowDuplicates, draws)
      invariant forall k :: 0 <= k < i ==> picks[k] == draws[k].value
      invariant allowDuplicates ==>
        len == n && available[..] == choices &&
        forall k :: 0 <= k < i ==> values[k] == choices[picks[k]]
      invariant !allowDuplicates ==>
        len == n - i && Selection.Fits(n, picks) &&
        available[..len] == Selection.Remaining(choices, picks) &&
        values == Selection.Picks(choices, picks)
      decreases Iterations(count) - i
    {
      IterationsBound(i, count);
      var index := src.RandomInt(0.0, len as real);
      assert (len as real).Floor == len;
      var selected := available[index.value];
      draws := draws + [IntDraw(0, len, index.value)];
      picks := picks + [index.value];
      assert picks[..|picks| - 1] + [index.value] == picks;
      values := values + [selected];
      if !allowDuplicates {
        Selection.RemoveAt(available, len, index.value);
        len := len - 1;
      }
      i := i + 1;
    }
    IterationsBound(i, count);
    assert src.log[|log0|..] == draws;
    assert Indices(draws) == picks;
  }
}

/** The arguments of a tool call, the defaults the generators fill in with
    `??`, and the bound checks each generator makes before it draws. */
module Validation {
  import opened Js
  import Charsets

  /** The keys any generator reads from `arguments`. A key that is absent,
      or `null`, is `None`. `choices` is `None` also when it is not an
      array, which `Array.isArray` rejects in the same way. */
  datatype Args<T> = Args(
    min: Option<real>,
    max: Option<real>,
    count: Option<real>,
    precision: Option<real>,
    length: Option<real>,
    encoding: Option<string>,
    format: Option<string>,
    charset: Option<string>,
    choices: Option<seq<T>>,
    allowDuplicates: Option<bool>,
    probability: Option<real>)

  /** The empty object `{}`. */
  function NoArgs<T>(): Args<T> {
    Args(None, None, None, None, None, None, None, None, None, None, None)
  }

  /** The `TypeError` a property read on `undefined` throws. */
  function UndefinedRead(key: string): string {
    "Cannot read properties of undefined (reading '" + key + "')"
  }

  const MinAboveMax := "Minimum value cannot be greater than maximum value"
  const MinNotBelowMax := "Minimum value must be less than maximum value"
  const CountUpTo1000 := "Count must be between 1 and 1000"
  const CountUpTo100 := "Count must be between 1 and 100"
  const PrecisionRange := "Precision must be between 1 and 15"
  const BytesLengthRange := "Length must be between 1 and 1024"
  const InvalidEncoding := "Invalid encoding. Must be 'hex', 'base64', or 'binary'"
  const StringLengthRange := "Length must be between 1 and 256"
  const ChoicesEmpty := "Choices must be a non-empty array"
  const CountBelowOne := "Count must be at least 1"
  const CountAboveChoices := "Count cannot exceed choices length when duplicates are not allowed"
  const ProbabilityRange := "Probability must be between 0.0 and 1.0"

  function InvalidCharset(charset: string): string {
    "Invalid charset: " + charset
  }

  /** `!(x < lo || x > hi)`: the form every range check takes. */
  predicate Within(x: real, lo: real, hi: real) {
    lo <= x <= hi
  }

  datatype IntegerParams = IntegerParams(min: real, max: real, count: real)
  datatype FloatParams = FloatParams(min: real, max: real, count: real, precision: real)
  datatype BytesParams = BytesParams(length: real, encoding: string)
  datatype UuidParams = UuidParams(count: real, format: string)
  datatype StringParams = StringParams(length: real, charset: string, count: real)
  datatype ChoiceParams<T> = ChoiceParams(choices: seq<T>, count: real, allowDuplicates: bool)
  datatype BooleanParams = BooleanParams(count: real, probability: real)

  /** `generate_random_integer`: `min`, `max`, `count` default to 0, 100, 1;
      it rejects `min > max`, then a count outside [1, 1000]. */
  function CheckInteger<T>(args: Option<Args<T>>): (r: Result<IntegerParams>)
    ensures args.None? ==> r == Err(UndefinedRead("min"))
    ensures args.Some? ==>
      var p := IntegerParams(OrDefault(args.value.min, 0.0), OrDefault(args.value.max, 100.0),
                             OrDefault(args.value.count, 1.0));
      (r.Ok? <==> p.min <= p.max && Within(p.count, 1.0, 1000.0)) &&
      (r.Ok? ==> r.value == p) &&
      (p.min > p.max ==> r == Err(MinAboveMax)) &&
      (p.min <= p.max && !Within(p.count, 1.0, 1000.0) ==> r == Err(CountUpTo1000))
  {
    match args
    case None => Err(UndefinedRead("min"))
    case Some(a) =>
      var min := OrDefault(a.min, 0.0);
      var max := OrDefault(a.max, 100.0);
      var count := OrDefault(a.count, 1.0);
      if min > max then Err(MinAboveMax)
      else if count < 1.0 || count > 1000.0 then Err(CountUpTo1000)
      else Ok(IntegerParams(min, max, count))
  }

  /** `generate_random_float`: defaults 0.0, 1.0, 1, 6; it rejects
      `min >= max`, then a count outside [1, 1000], then a precision
      outside [1, 15]. */
  function CheckFloat<T>(args: Option<Args<T>>): (r: Result<FloatParams>)
    ensures args.None? ==> r == Err(UndefinedRead("min"))
    ensures args.Some? ==>
      var p := FloatParams(OrDefault(args.value.min, 0.0), OrDefault(args.value.max, 1.0),
                           OrDefault(args.value.count, 1.0), OrDefault(args.value.precision, 6.0));
      (r.Ok? <==> p.min < p.max && Within(p.count, 1.0, 1000.0) && Within(p.precision, 1.0, 15.0)) &&
      (r.Ok? ==> r.value == p) &&
      (p.min >= p.max ==> r == Err(MinNotBelowMax)) &&
      (p.min < p.max && !Within(p.count, 1.0, 1000.0) ==> r == Err(CountUpTo1000)) &&
      (p.min < p.max && Within(p.count, 1.0, 1000.0) && !Within(p.precision, 1.0, 15.0) ==>
         r == Err(PrecisionRange))
  {
    match args
    case None => Err(UndefinedRead("min"))
    case Some(a) =>
      var min := OrDefault(a.min, 0.0);
      var max := OrDefault(a.max, 1.0);
      var count := OrDefault(a.count, 1.0);
      var precision := OrDefault(a.precision, 6.0);
      if min >= max then Err(MinNotBelowMax)
      else if count < 1.0 || count > 1000.0 then Err(CountUpTo1000)
      else if precision < 1.0 || precision > 15.0 then Err(PrecisionRange)
      else Ok(FloatParams(min, max, count, precision))
  }

  /** `generate_random_bytes` before its draw: defaults 32 and "hex"; only
      the length is checked here, to [1, 1024]. */
  function CheckBytes<T>(args: Option<Args<T>>): (r: Result<BytesParams>)
    ensures args.None? ==> r == Err(UndefinedRead("length"))
    ensures args.Some? ==>
      var p := BytesParams(OrDefault(args.value.length, 32.0), OrDefault(args.value.encoding, "hex"));
      (r.Ok? <==> Within(p.length, 1.0, 1024.0)) &&
      (r.Ok? ==> r.value == p) &&
      (r.Err? ==> r.message == BytesLengthRange)
  {
    match args
    case None => Err(UndefinedRead("length"))
    case Some(a) =>
      var length := OrDefault(a.length, 32.0);
      var encoding := OrDefault(a.encoding, "hex");
      if length < 1.0 || length > 1024.0 then Err(BytesLengthRange)
      else Ok(BytesParams(length, encoding))
  }

  /** The encodings `Buffer.toString` is asked for. */
  datatype Encoding = HexEncoding | Base64Encoding | BinaryEncoding

  /** The `switch (encoding)` of `generate_random_bytes`. */
  function ParseEncoding(name: string): (r: Option<Encoding>)
    ensures r.Some? <==> name in ["hex", "base64", "binary"]
    ensures r == Some(HexEncoding) <==> name == "hex"
    ensures r == Some(Base64Encoding) <==> name == "base64"
    ensures r == Some(BinaryEncoding) <==> name == "binary"
  {
    if name == "hex" then Some(HexEncoding)
    else if name == "base64" then Some(Base64Encoding)
    else if name == "binary" then Some(BinaryEncoding)
    else None
  }

  /** `generate_uuid`: defaults 1 and "standard"; only the count is
      checked, to [1, 100]: the format is never validated. */
  function CheckUuid<T>(args: Option<Args<T>>): (r: Result<UuidParams>)
    ensures args.None? ==> r == Err(UndefinedRead("count"))
    ensures args.Some? ==>
      var p := UuidParams(OrDefault(args.value.count, 1.0), OrDefault(args.value.format, "standard"));
      (r.Ok? <==> Within(p.count, 1.0, 100.0)) &&
      (r.Ok? ==> r.value == p) &&
      (r.Err? ==> r.message == CountUpTo100)
  {
    match args
    case None => Err(UndefinedRead("count"))
    case Some(a) =>
      var count := OrDefault(a.count, 1.0);
      var format := OrDefault(a.format, "standard");
      if count < 1.0 || count > 100.0 then Err(CountUpTo100)
      else Ok(UuidParams(count, format))
  }

  /** `generate_random_string`: defaults 16, "alphanumeric", 1; it rejects
      a length outside [1, 256], then a count outside [1, 100], then a
      charset name with no table. */
  function CheckString<T>(args: Option<Args<T>>): (r: Result<StringParams>)
    ensures args.None? ==> r == Err(UndefinedRead("length"))
    ensures args.Some? ==>
      var p := StringParams(OrDefault(args.value.length, 16.0), OrDefault(args.value.charset, "alphanumeric"),
                            OrDefault(args.value.count, 1.0));
      (r.Ok? <==> Within(p.length, 1.0, 256.0) && Within(p.count, 1.0, 100.0) && p.charset in Charsets.Names) &&
      (r.Ok? ==> r.value == p) &&
      (!Within(p.length, 1.0, 256.0) ==> r == Err(StringLengthRange)) &&
      (Within(p.length, 1.0, 256.0) && !Within(p.count, 1.0, 100.0) ==> r == Err(CountUpTo100)) &&
      (Within(p.length, 1.0, 256.0) && Within(p.count, 1.0, 100.0) && p.charset !in Charsets.Names ==>
         r == Err(InvalidCharset(p.charset)))
  {
    match args
    case None => Err(UndefinedRead("length"))
    case Some(a) =>
      var length := OrDefault(a.length, 16.0);
      var charset := OrDefault(a.charset, "alphanumeric");
      var count := OrDefault(a.count, 1.0);
      if length < 1.0 || length > 256.0 then Err(StringLengthRange)
      else if count < 1.0 || count > 100.0 then Err(CountUpTo100)
      else if Charsets.Lookup(charset).None? then Err(InvalidCharset(charset))
      else Ok(StringParams(length, charset, count))
  }

  /** `generate_random_choice`: `choices` has no default and must be a
      non-empty array; `count` (default 1) must be at least 1, and, when
      `allow_duplicates` (default true) is false, at most the number of
      choices. With duplicates allowed the count has no upper bound. */
  function CheckChoice<T>(args: Option<Args<T>>): (r: Result<ChoiceParams<T>>)
    ensures args.None? ==> r == Err(UndefinedRead("choices"))
    ensures args.Some? ==>
      var count := OrDefault(args.value.count, 1.0);
      var dup := OrDefault(args.value.allowDuplicates, true);
      var ok := args.value.choices.Some? && |args.value.choices.value| > 0;
      (r.Ok? <==> ok && count >= 1.0 && (dup || count <= |args.value.choices.value| as real)) &&
      (r.Ok? ==> r.value == ChoiceParams(args.value.choices.value, count, dup)) &&
      (!ok ==> r == Err(ChoicesEmpty)) &&
      (ok && count < 1.0 ==> r == Err(CountBelowOne)) &&
      (ok && count >= 1.0 && !dup && count > |args.value.choices.value| as real ==> r == Err(CountAboveChoices))
  {
    match args
    case None => Err(UndefinedRead("choices"))
    case Some(a) =>
      var count := OrDefault(a.count, 1.0);
      var allowDuplicates := OrDefault(a.allowDuplicates, true);
      if a.choices.None? || |a.choices.value| == 0 then Err(ChoicesEmpty)
      else if count < 1.0 then Err(CountBelowOne)
      else if !allowDuplicates && count > |a.choices.value| as real then Err(CountAboveChoices)
      else Ok(ChoiceParams(a.choices.value, count, allowDuplicates))
  }

  /** `generate_random_boolean`: defaults 1 and 0.5; it rejects a count
      outside [1, 1000], then a probability outside [0.0, 1.0]. */
  function CheckBoolean<T>(args: Option<Args<T>>): (r: Result<BooleanParams>)
    ensures args.None? ==> r == Err(UndefinedRead("count"))
    ensures args.Some? ==>
      var p := BooleanParams(OrDefault(args.value.count, 1.0), OrDefault(args.value.probability, 0.5));
      (r.Ok? <==> Within(p.count, 1.0, 1000.0) && Within(p.probability, 0.0, 1.0)) &&
      (r.Ok? ==> r.value == p) &&
      (!Within(p.count, 1.0, 1000.0) ==> r == Err(CountUpTo1000)) &&
      (Within(p.count, 1.0, 1000.0) && !Within(p.probability, 0.0, 1.0) ==> r == Err(ProbabilityRange))
  {
    match args
    case None => Err(UndefinedRead("count"))
    case Some(a) =>
      var count := OrDefault(a.count, 1.0);
      var probability := OrDefault(a.probability, 0.5);
      if count < 1.0 || count > 1000.0 then Err(CountUpTo1000)
      else if probability < 0.0 || probability > 1.0 then Err(ProbabilityRange)
      else Ok(BooleanParams(count, probability))
  }

  /** A validated choice count never asks for more draws without
      replacement than there are choices. */
  lemma ChoiceDrawsFit<T>(args: Option<Args<T>>)
    requires CheckChoice(args).Ok?
    ensures var p := CheckChoice(args).value;
      |p.choices| > 0 && Iterations(p.count) >= 1 &&
      (!p.allowDuplicates ==> Iterations(p.count) <= |p.choices|)
  {
    var p := CheckChoice(args).value;
    if !p.allowDuplicates {
      IterationsBound(|p.choices|, p.count);
    }
  }
}

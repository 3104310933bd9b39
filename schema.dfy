/** The tool list the server advertises (`tools/list`), as data, and how
    its declared defaults, bounds and enumerations compare with what the
    generators actually check. */
module Schema {
  import opened Js
  import opened Validation
  import Charsets
  import opened Dispatch

  /** The JSON Schema `type` of a property. */
  datatype JsonType = IntegerType | NumberType | StringType | BooleanType | ArrayType

  /** A declared `default`. */
  datatype Default = NumberDefault(number: real) | TextDefault(text: string) | FlagDefault(flag: bool)

  datatype Property = Property(
    name: string,
    ty: JsonType,
    description: string,
    defaultValue: Option<Default>,
    minimum: Option<real>,
    maximum: Option<real>,
    enumValues: Option<seq<string>>,
    items: Option<JsonType>,
    minItems: Option<nat>)

  datatype ToolSpec = ToolSpec(name: string, description: string, properties: seq<Property>, required: seq<string>)

  function Numeric(name: string, ty: JsonType, description: string, d: Option<real>,
                   minimum: Option<real>, maximum: Option<real>): Property {
    Property(name, ty, description, if d.Some? then Some(NumberDefault(d.value)) else None,
             minimum, maximum, None, None, None)
  }

  function Enumerated(name: string, description: string, values: seq<string>, d: string): Property {
    Property(name, StringType, description, Some(TextDefault(d)), None, None, Some(values), None, None)
  }

  const IntegerSpec := ToolSpec(
    "generate_random_integer",
    "Generate cryptographically secure random integers within a specified range",
    [ Numeric("min", IntegerType, "Minimum value (inclusive)", Some(0.0), None, None),
      Numeric("max", IntegerType, "Maximum value (inclusive)", Some(100.0), None, None),
      Numeric("count", IntegerType, "Number of random integers to generate", Some(1.0), Some(1.0), Some(1000.0)) ],
    [])

  const FloatSpec := ToolSpec(
    "generate_random_float",
    "Generate cryptographically secure random floating-point numbers",
    [ Numeric("min", NumberType, "Minimum value (inclusive)", Some(0.0), None, None),
      Numeric("max", NumberType, "Maximum value (exclusive)", Some(1.0), None, None),
      Numeric("count", IntegerType, "Number of random floats to generate", Some(1.0), Some(1.0), Some(1000.0)),
      Numeric("precision", IntegerType, "Number of decimal places to round to", Some(6.0), Some(1.0), Some(15.0)) ],
    [])

  const BytesSpec := ToolSpec(
    "generate_random_bytes",
    "Generate cryptographically secure random bytes",
    [ Numeric("length", IntegerType, "Number of random bytes to generate", Some(32.0), Some(1.0), Some(1024.0)),
      Enumerated("encoding", "Output encoding format", ["hex", "base64", "binary"], "hex") ],
    [])

  const UuidSpec := ToolSpec(
    "generate_uuid",
    "Generate a cryptographically secure UUID (v4)",
    [ Numeric("count", IntegerType, "Number of UUIDs to generate", Some(1.0), Some(1.0), Some(100.0)),
      Enumerated("format", "UUID format", ["standard", "compact"], "standard") ],
    [])

  const StringSpec := ToolSpec(
    "generate_random_string",
    "Generate a cryptographically secure random string",
    [ Numeric("length", IntegerType, "Length of the random string", Some(16.0), Some(1.0), Some(256.0)),
      Enumerated("charset", "Character set to use",
                 ["alphanumeric", "alphabetic", "numeric", "hex", "base64", "ascii_printable"], "alphanumeric"),
      Numeric("count", IntegerType, "Number of random strings to generate", Some(1.0), Some(1.0), Some(100.0)) ],
    [])

  const ChoiceSpec := ToolSpec(
    "generate_random_choice",
    "Randomly select items from a given list using cryptographically secure randomness",
    [ Property("choices", ArrayType, "Array of items to choose from", None, None, None, None,
               Some(StringType), Some(1)),
      Numeric("count", IntegerType, "Number of items to select", Some(1.0), Some(1.0), None),
      Property("allow_duplicates", BooleanType, "Whether to allow duplicate selections",
               Some(FlagDefault(true)), None, None, None, None, None) ],
    ["choices"])

  const BooleanSpec := ToolSpec(
    "generate_random_boolean",
    "Generate cryptographically secure random boolean values",
    [ Numeric("count", IntegerType, "Number of random booleans to generate", Some(1.0), Some(1.0), Some(1000.0)),
      Numeric("probability", NumberType, "Probability of true (0.0 to 1.0)", Some(0.5), Some(0.0), Some(1.0)) ],
    [])

  /** The advertised list, in its order. */
  const Tools: seq<ToolSpec> :=
    [IntegerSpec, FloatSpec, BytesSpec, UuidSpec, StringSpec, ChoiceSpec, BooleanSpec]

  function SpecOf(t: Tool): ToolSpec {
    match t
    case IntegerTool => IntegerSpec
    case FloatTool => FloatSpec
    case BytesTool => BytesSpec
    case UuidTool => UuidSpec
    case StringTool => StringSpec
    case ChoiceTool => ChoiceSpec
    case BooleanTool => BooleanSpec
  }

  /** Every advertised name is dispatched to the tool it describes, and
      every tool is advertised. */
  lemma AdvertisedNamesDispatch()
    ensures forall i :: 0 <= i < |Tools| ==> Route(Tools[i].name).Some? && SpecOf(Route(Tools[i].name).value) == Tools[i]
    ensures forall t :: SpecOf(t) in Tools && SpecOf(t).name == ToolName(t)
  {
    var order := [IntegerTool, FloatTool, BytesTool, UuidTool, StringTool, ChoiceTool, BooleanTool];
    forall i | 0 <= i < |Tools|
      ensures Route(Tools[i].name).Some? && SpecOf(Route(Tools[i].name).value) == Tools[i]
    {
      assert Tools[i] == SpecOf(order[i]);
      SpecNamesItsTool(order[i]);
    }
    forall t ensures SpecOf(t) in Tools && SpecOf(t).name == ToolName(t) {
      SpecNamesItsTool(t);
    }
  }

  lemma SpecNamesItsTool(t: Tool)
    ensures SpecOf(t).name == ToolName(t) && Route(SpecOf(t).name) == Some(t)
  {
    RouteFindsEveryTool(t);
  }

  /** The number an argument object holds under a numeric key. */
  function NumberArg<T>(a: Args<T>, key: string): Option<real> {
    if key == "min" then a.min
    else if key == "max" then a.max
    else if key == "count" then a.count
    else if key == "precision" then a.precision
    else if key == "length" then a.length
    else if key == "probability" then a.probability
    else None
  }

  /** The string an argument object holds under a string key. */
  function StringArg<T>(a: Args<T>, key: string): Option<string> {
    if key == "encoding" then a.encoding
    else if key == "format" then a.format
    else if key == "charset" then a.charset
    else None
  }

  /** A present number respects the property's type and bounds. */
  predicate NumberConforms(p: Property, v: real) {
    (p.ty == IntegerType ==> IsInteger(v)) &&
    (p.minimum.Some? ==> p.minimum.value <= v) &&
    (p.maximum.Some? ==> v <= p.maximum.value)
  }

  /** An argument object is valid against one property of the schema. */
  predicate PropertyConforms<T>(p: Property, a: Args<T>) {
    match p.ty
    case IntegerType | NumberType =>
      NumberArg(a, p.name).Some? ==> NumberConforms(p, NumberArg(a, p.name).value)
    case StringType =>
      StringArg(a, p.name).Some? && p.enumValues.Some? ==> StringArg(a, p.name).value in p.enumValues.value
    case ArrayType =>
      p.name == "choices" && a.choices.Some? && p.minItems.Some? ==> |a.choices.value| >= p.minItems.value
    case BooleanType => true
  }

  /** An argument object is valid against a tool's input schema. */
  predicate Conforms<T>(s: ToolSpec, a: Args<T>) {
    (forall i :: 0 <= i < |s.properties| ==> PropertyConforms(s.properties[i], a)) &&
    ("choices" in s.required ==> a.choices.Some?)
  }

  /** The constraints between arguments that no schema states: integer
      `min <= max`, float `min < max`, and without duplicates no more
      choices asked for than given. */
  predicate CrossFieldHolds<T>(t: Tool, a: Args<T>) {
    match t
    case IntegerTool => OrDefault(a.min, 0.0) <= OrDefault(a.max, 100.0)
    case FloatTool => OrDefault(a.min, 0.0) < OrDefault(a.max, 1.0)
    case ChoiceTool =>
      OrDefault(a.allowDuplicates, true) || (a.choices.Some? && OrDefault(a.count, 1.0) <= |a.choices.value| as real)
    case _ => true
  }

  /** Any call whose arguments satisfy the advertised schema and the
      cross-field constraints succeeds, given that `randomInt` accepts
      every integral range (its 2^48 and safe-integer limits are not
      part of this model). */
  lemma ConformingCallsSucceed<T>(t: Tool, a: Args<T>)
    requires Conforms(SpecOf(t), a) && CrossFieldHolds(t, a)
    ensures ToolError(t, Some(a)).None?
  {
    var s := SpecOf(t);
    forall i | 0 <= i < |s.properties|
      ensures PropertyConforms(s.properties[i], a)
    {
    }
    match t
    case IntegerTool =>
      assert PropertyConforms(s.properties[0], a) && PropertyConforms(s.properties[1], a);
      assert PropertyConforms(s.properties[2], a);
    case FloatTool =>
      assert PropertyConforms(s.properties[2], a) && PropertyConforms(s.properties[3], a);
    case BytesTool =>
      assert PropertyConforms(s.properties[0], a) && PropertyConforms(s.properties[1], a);
    case UuidTool =>
      assert PropertyConforms(s.properties[0], a);
    case StringTool =>
      assert PropertyConforms(s.properties[0], a) && PropertyConforms(s.properties[1], a);
      assert PropertyConforms(s.properties[2], a);
    case ChoiceTool =>
      assert PropertyConforms(s.properties[0], a) && PropertyConforms(s.properties[1], a);
    case BooleanTool =>
      assert PropertyConforms(s.properties[0], a) && PropertyConforms(s.properties[1], a);
  }

  /** Every advertised `minimum` and `maximum` is enforced: a present
      number outside them makes the call fail. */
  lemma BoundsEnforced<T>(t: Tool, a: Args<T>, i: nat)
    requires i < |SpecOf(t).properties|
    requires var p := SpecOf(t).properties[i];
      NumberArg(a, p.name).Some? &&
      ((p.minimum.Some? && NumberArg(a, p.name).value < p.minimum.value) ||
       (p.maximum.Some? && NumberArg(a, p.name).value > p.maximum.value))
    ensures ToolError(t, Some(a)).Some?
  {
  }

  /** The encoding and charset enumerations are enforced, for charset
      names that are not inherited from `Object.prototype` (those are
      treated as unknown here). */
  lemma EnumsEnforced<T>(t: Tool, a: Args<T>, i: nat)
    requires t == BytesTool || t == StringTool
    requires i < |SpecOf(t).properties|
    requires var p := SpecOf(t).properties[i];
      p.enumValues.Some? && StringArg(a, p.name).Some? && StringArg(a, p.name).value !in p.enumValues.value
    ensures ToolError(t, Some(a)).Some?
  {
    if t == StringTool {
      assert StringSpec.properties[1].enumValues.value == Charsets.Names;
    }
  }

  /** The UUID format enumeration is not enforced: any other format is
      accepted and leaves the UUIDs unchanged. */
  lemma FormatEnumNotEnforced()
    ensures var a := NoArgs<string>().(format := Some("braces"));
      a.format.value !in UuidSpec.properties[1].enumValues.value && ToolError(UuidTool, Some(a)).None?
  {
  }

  /** `type: "integer"` is not enforced on counts: a count of 1.5 is
      accepted and runs the loop twice. */
  lemma IntegerTypeNotEnforced()
    ensures var a := NoArgs<string>().(count := Some(1.5));
      UuidSpec.properties[0].ty == IntegerType && !IsInteger(1.5) &&
      ToolError(UuidTool, Some(a)).None? && Iterations(1.5) == 2
  {
  }

  /** The schema asks for string items, but choices of any type are accepted. */
  lemma ChoiceItemsNotChecked()
    ensures var a := NoArgs<int>().(choices := Some([7]));
      ChoiceSpec.properties[0].items == Some(StringType) && ToolError(ChoiceTool, Some(a)).None?
  {
  }

  /** The schema's `integer` type on integer `min` and `max` is enforced,
      not by the tool but by `randomInt`. */
  lemma IntegerBoundsTypeEnforced<T>(a: Args<T>)
    requires CheckInteger(Some(a)).Ok? && !IsInteger(OrDefault(a.min, 0.0))
    ensures ToolError(IntegerTool, Some(a)) == Some(Entropy.SafeIntegerMessage("min"))
  {
  }

  /** Every tool fails on a call without `arguments`, reading its first key
      from `undefined`, though only the choice tool declares a required property. */
  lemma MissingArgumentsFail<T>(t: Tool)
    ensures ToolError<T>(t, None).Some?
    ensures (SpecOf(t).required == []) <==> t != ChoiceTool
  {
  }

  /** The advertised default of a property, when it has a number default. */
  function DefaultNumber(s: ToolSpec, i: nat): real
    requires i < |s.properties|
  {
    match s.properties[i].defaultValue
    case Some(NumberDefault(n)) => n
    case _ => 0.0
  }

  function DefaultText(s: ToolSpec, i: nat): string
    requires i < |s.properties|
  {
    match s.properties[i].defaultValue
    case Some(TextDefault(x)) => x
    case _ => ""
  }

  function DefaultFlag(s: ToolSpec, i: nat): bool
    requires i < |s.properties|
  {
    match s.properties[i].defaultValue
    case Some(FlagDefault(b)) => b
    case _ => false
  }

  /** The defaults the tools fill in are the advertised ones. */
  lemma DefaultsAgree<T>(x: T)
    ensures CheckInteger(Some(NoArgs<T>())) ==
      Ok(IntegerParams(DefaultNumber(IntegerSpec, 0), DefaultNumber(IntegerSpec, 1), DefaultNumber(IntegerSpec, 2)))
    ensures CheckFloat(Some(NoArgs<T>())) ==
      Ok(FloatParams(DefaultNumber(FloatSpec, 0), DefaultNumber(FloatSpec, 1), DefaultNumber(FloatSpec, 2),
                     DefaultNumber(FloatSpec, 3)))
    ensures CheckBytes(Some(NoArgs<T>())) == Ok(BytesParams(DefaultNumber(BytesSpec, 0), DefaultText(BytesSpec, 1)))
    ensures CheckUuid(Some(NoArgs<T>())) == Ok(UuidParams(DefaultNumber(UuidSpec, 0), DefaultText(UuidSpec, 1)))
    ensures CheckString(Some(NoArgs<T>())) ==
      Ok(StringParams(DefaultNumber(StringSpec, 0), DefaultText(StringSpec, 1), DefaultNumber(StringSpec, 2)))
    ensures CheckBoolean(Some(NoArgs<T>())) ==
      Ok(BooleanParams(DefaultNumber(BooleanSpec, 0), DefaultNumber(BooleanSpec, 1)))
    ensures CheckChoice(Some(NoArgs<T>().(choices := Some([x])))) ==
      Ok(ChoiceParams([x], DefaultNumber(ChoiceSpec, 1), DefaultFlag(ChoiceSpec, 2)))
  {
    assert Charsets.Lookup("alphanumeric").Some?;
  }
}

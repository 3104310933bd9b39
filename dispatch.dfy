/** The `tools/call` handler: the `switch` on the tool name and the
    `catch` that turns any thrown error into a one-item text result. */
module Dispatch {
  import opened Js
  import opened Entropy
  import opened Validation
  import opened Generators

  /** The seven tools the server offers. */
  datatype Tool = IntegerTool | FloatTool | BytesTool | UuidTool | StringTool | ChoiceTool | BooleanTool

  function ToolName(t: Tool): string {
    match t
    case IntegerTool => "generate_random_integer"
    case FloatTool => "generate_random_float"
    case BytesTool => "generate_random_bytes"
    case UuidTool => "generate_uuid"
    case StringTool => "generate_random_string"
    case ChoiceTool => "generate_random_choice"
    case BooleanTool => "generate_random_boolean"
  }

  /** The `switch (name)`: the tool a name selects, if any. */
  function Route(name: string): (r: Option<Tool>)
    ensures r.Some? ==> ToolName(r.value) == name
  {
    if name == "generate_random_integer" then Some(IntegerTool)
    else if name == "generate_random_float" then Some(FloatTool)
    else if name == "generate_random_bytes" then Some(BytesTool)
    else if name == "generate_uuid" then Some(UuidTool)
    else if name == "generate_random_string" then Some(StringTool)
    else if name == "generate_random_choice" then Some(ChoiceTool)
    else if name == "generate_random_boolean" then Some(BooleanTool)
    else None
  }

  /** Each tool's own name selects it, and only that tool. */
  lemma {:induction false} RouteFindsEveryTool(t: Tool)
    ensures Route(ToolName(t)) == Some(t)
  {
    match t
    case IntegerTool =>
    case FloatTool =>
      assert ToolName(t) != "generate_random_integer";
    case BytesTool =>
    case UuidTool =>
    case StringTool =>
    case ChoiceTool =>
    case BooleanTool =>
  }

  /** What tool `t`'s generator returns on success for `args`, given the
      draws it made. */
  ghost predicate Generated<T>(t: Tool, args: Option<Args<T>>, draws: seq<Draw>, o: Output<T>) {
    match t
    case IntegerTool => IntegerResult(args, draws, o)
    case FloatTool => FloatResult(args, draws, o)
    case BytesTool => BytesResult(args, draws, o)
    case UuidTool => UuidResult(args, draws, o)
    case StringTool => StringResult(args, draws, o)
    case ChoiceTool => ChoiceResult(args, draws, o)
    case BooleanTool => BooleanResult(args, draws, o)
  }

  /** The message of a thrown error, if any. */
  function ErrorOf<P>(r: Result<P>): Option<string> {
    if r.Err? then Some(r.message) else None
  }

  /** The message a call to `t` with `args` throws, if it throws: the
      tool's own checks, then, for integers, `randomInt`'s refusal of a
      bound that is not an integer, and for bytes the encoding check. */
  function ToolError<T>(t: Tool, args: Option<Args<T>>): Option<string> {
    match t
    case IntegerTool =>
      (match CheckInteger(args)
       case Err(m) => Some(m)
       case Ok(p) =>
         if !IsInteger(p.min) then Some(SafeIntegerMessage("min"))
         else if !IsInteger(p.max) then Some(SafeIntegerMessage("max"))
         else None)
    case FloatTool => ErrorOf(CheckFloat(args))
    case BytesTool =>
      (match CheckBytes(args)
       case Err(m) => Some(m)
       case Ok(p) => if ParseEncoding(p.encoding).None? then Some(InvalidEncoding) else None)
    case UuidTool => ErrorOf(CheckUuid(args))
    case StringTool => ErrorOf(CheckString(args))
    case ChoiceTool => ErrorOf(CheckChoice(args))
    case BooleanTool => ErrorOf(CheckBoolean(args))
  }

  /** The result of a `tools/call`: the generator's record, or the single
      text item `"Error: " + message`. */
  datatype Envelope<T> = Success(output: Output<T>) | Failure(text: string)

  /** Runs tool `t`'s generator: it throws exactly as `ToolError` says,
      drawing nothing unless the bytes tool rejects the encoding after its
      draw, and otherwise returns what that generator promises. */
  method Run<T>(src: CryptoSource, t: Tool, args: Option<Args<T>>) returns (r: Result<Output<T>>)
    modifies src
    ensures Extends(old(src.log), src.log)
    ensures r.Err? <==> ToolError(t, args).Some?
    ensures r.Err? ==> r.message == ToolError(t, args).value
    ensures r.Err? && !(t == BytesTool && CheckBytes(args).Ok?) ==> src.log == old(src.log)
    ensures r.Ok? ==> Generated(t, args, src.log[|old(src.log)|..], r.value)
  {
    match t
    case IntegerTool => r := GenerateInteger(src, args);
    case FloatTool => r := GenerateFloat(src, args);
    case BytesTool => r := GenerateBytes(src, args);
    case UuidTool => r := GenerateUuid(src, args);
    case StringTool => r := GenerateString(src, args);
    case ChoiceTool => r := GenerateChoice(src, args);
    case BooleanTool => r := GenerateBoolean(src, args);
  }

  /** The handler. Unknown names and every error a generator throws end in
      a `Failure`; nothing escapes. */
  method CallTool<T>(src: CryptoSource, name: string, args: Option<Args<T>>) returns (e: Envelope<T>)
    modifies src
    ensures Route(name).None? ==>
      e == Failure("Error: Unknown tool: " + name) && src.log == old(src.log) && src.position == old(src.position)
    ensures Route(name).Some? ==> (e.Failure? <==> ToolError(Route(name).value, args).Some?)
    ensures Route(name).Some? && e.Failure? ==> e.text == "Error: " + ToolError(Route(name).value, args).value
    ensures Extends(old(src.log), src.log)
    ensures e.Success? ==>
      Route(name).Some? && Generated(Route(name).value, args, src.log[|old(src.log)|..], e.output)
    ensures e.Failure? && !(Route(name) == Some(BytesTool) && CheckBytes(args).Ok?) ==>
      src.log == old(src.log)
  {
    match Route(name) {
      case None =>
        var message := "Unknown tool: " + name;
        assert "Error: " + message == "Error: Unknown tool: " + name;
        return Failure("Error: " + message);
      case Some(t) =>
        var r := Run(src, t, args);
        match r
        case Err(m) => e := Failure("Error: " + m);
        case Ok(output) => e := Success(output);
    }
  }
}

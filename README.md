# Random-value MCP server: a verified model of its tool layer

The server offers seven tools over the Model Context Protocol:
- `generate_random_integer`
- `generate_random_float`
- `generate_random_bytes`
- `generate_uuid`
- `generate_random_string`
- `generate_random_choice`
- `generate_random_boolean`

All of them draw from Node's `crypto` module. This project models three parts of `dist/index.js`:

- **The `tools/call` handler** (`Dispatch`). It switches on the tool name. It turns an unknown name, and every error a generator throws, into a single text item `"Error: " + message`.
- **The seven generator methods.** Each has two parts:
  - `Validation` fills in defaults with `??` and checks bounds in the source's order, with the source's messages.
  - `Generators` runs the loops that draw values and collect them into a tagged result. The choice tool's working copy is an `array` that is spliced in place (`Selection`).
- **The advertised tool list** (`Schema`). It is constant data, compared property by property with what the generators actually enforce.

Randomness is a parameter. `Entropy.CryptoSource` stands for `crypto.randomBytes`, `crypto.randomInt` and `crypto.randomUUID`:
- It reads a fixed byte stream that the model knows nothing about.
- Its contracts promise only ranges and shapes.
- It keeps a ghost log of every answer it gives.

Each generator's postcondition ties every returned value to the log entry it was built from. `Properties` then proves what those values mean:
- ranges;
- encodings that decode back to the bytes;
- version 4 UUID shape;
- characters taken from the named table;
- choices that form a sub-multiset of the input.

JavaScript numbers are modelled as `real`, and arguments may be fractional. A loop `for (i = 0; i < n; i++)` runs `Iterations(n)` times, the least natural number not below `n`. This keeps a fact of the code: a count of 1.5 passes every check and runs twice.

Where the program's own text promises more than its code does, the model follows the code:
- **Uniform draw.** The code divides a 32-bit draw by 0xFFFFFFFF, so the uniform value can be 1.0. As a result:
  - a float can equal `max` before rounding, although the float schema describes `max` as "Maximum value (exclusive)" (dist/index.js:75) and test.js:228-229 expects values in [0.0, 1.0);
  - probability 1.0 yields `false` on the largest draw.
- **Integer checks.** The integer tool's bounds are never checked for being integers by the tool itself. A fractional `min` or `max` fails only because `randomInt` throws, before any draw.

## Model

| member | source | states |
|---|---|---|
| Js.Iterations | dist/index.js:341 | a `for` loop bounded by `n` runs the least natural number of times not below `n` |
| Js.IterationsBound | dist/index.js:341 | a counter is below a loop bound exactly when it is below the iteration count |
| Js.IntegerSuccessor | dist/index.js:343 | `max + 1` is an integer exactly when `max` is, so `randomInt(min, max + 1)` rejects the same bounds |
| Js.BelowSuccessor | dist/index.js:343 | an integer below `max + 1` is at most `max`, for integral `max` |
| Js.ToFixedClose | dist/index.js:379 | `parseFloat(x.toFixed(d))` is within half of 10^-d of `x` |
| Codec.HexRoundTrip | dist/index.js:405 | `toString("hex")` gives lower-case hex digits that decode back to the bytes |
| Codec.Base64Length | dist/index.js:408 | `toString("base64")` has 4 characters per started group of 3 bytes |
| Codec.Base64RoundTrip | dist/index.js:408 | `toString("base64")` is padded RFC 4648 base64 and decodes back to the bytes |
| Codec.Latin1RoundTrip | dist/index.js:411 | `toString("binary")` has one character of code 0-255 per byte and decodes back |
| Codec.ReadUInt32BE | dist/index.js:377 | `readUInt32BE(0)` is at most 0xFFFFFFFF, and its four base-256 digits, most significant first, are bytes 0 to 3 |
| Uuid.SetVersionAndVariant | dist/index.js:438 | a v4 UUID has version nibble 4 and variant bits 10; all other bits are the random ones |
| Uuid.FormatIsUuidV4 | dist/index.js:438 | the formatted octets are 36 characters: hyphens at 8, 13, 18, 23; `4` at 14; 8, 9, a or b at 19; lower-case hex elsewhere |
| Uuid.CompactUuid | dist/index.js:439 | the compact form of any v4 UUID is 32 hex digits with no hyphen, from which the UUID is rebuilt |
| Entropy.CryptoSource.RandomBytes | dist/index.js:401 | `randomBytes(n)` returns `n` bytes for an integral `n` and logs them |
| Entropy.CryptoSource.RandomInt | dist/index.js:343 | `randomInt(min, max)` is in [min, max); it throws before drawing when `min`, then `max`, is not an integer |
| Entropy.CryptoSource.RandomUuid | dist/index.js:438 | `randomUUID()` returns a well-formed version 4 UUID and logs it |
| Charsets.Lookup | dist/index.js:465-476 | `charsets[charset]` gives a non-empty table exactly for the six names, and nothing otherwise |
| Charsets.TableSizes | dist/index.js:466-471 | the tables have 62, 52, 10, 16, 64 and 94 characters |
| Charsets.AlphanumericMembers | dist/index.js:466 | the alphanumeric table holds exactly A-Z, a-z and 0-9 |
| Charsets.AlphabeticMembers | dist/index.js:467 | the alphabetic table holds exactly A-Z and a-z |
| Charsets.NumericMembers | dist/index.js:468 | the numeric table holds exactly 0-9 |
| Charsets.HexTableMembers | dist/index.js:469 | the hex table holds exactly the lower-case hex digits |
| Charsets.Base64TableMembers | dist/index.js:470 | the base64 table holds exactly the RFC 4648 alphabet |
| Charsets.AsciiPrintableMembers | dist/index.js:471 | the ascii_printable table holds exactly the characters `!` to `~` |
| Charsets.Base64TableIsAlphabet | dist/index.js:470 | the base64 table lists the RFC 4648 alphabet in value order |
| Charsets.HexTableIsHexDigits | dist/index.js:469 | the hex table is the digit alphabet of the hex encoding |
| Validation.CheckInteger | dist/index.js:331-339 | defaults 0, 100, 1; accepted exactly when min <= max and count is in [1, 1000]; otherwise "Minimum value cannot be greater than maximum value", then "Count must be between 1 and 1000" |
| Validation.CheckFloat | dist/index.js:360-372 | defaults 0, 1, 1, 6; accepted exactly when min < max, count is in [1, 1000] and precision is in [1, 15]; otherwise the min/max, count or precision message, the first failing check deciding |
| Validation.CheckBytes | dist/index.js:396-400 | defaults 32 and "hex"; only the length in [1, 1024] is checked before the draw |
| Validation.ParseEncoding | dist/index.js:403-415 | "hex", "base64" and "binary" select the hex, base64 and binary encodings respectively, and any other name selects none |
| Validation.CheckUuid | dist/index.js:431-435 | defaults 1 and "standard"; accepted exactly when count is in [1, 100], whatever the format |
| Validation.CheckString | dist/index.js:456-476 | defaults 16, "alphanumeric", 1; length in [1, 256], then count in [1, 100], then a known charset, each failure with its own message |
| Validation.CheckChoice | dist/index.js:501-512 | choices must be a non-empty array, then count >= 1, then, without duplicates, count <= number of choices, each failure with its own message; with duplicates there is no upper bound |
| Validation.CheckBoolean | dist/index.js:538-545 | defaults 1 and 0.5; count in [1, 1000], then probability in [0.0, 1.0], each failure with its own message |
| Validation.ChoiceDrawsFit | dist/index.js:507-516 | an accepted choice call runs at least once, and without duplicates at most once per choice |
| Selection.Remaining | dist/index.js:514-521 | after `k` splices the working copy has `k` fewer elements |
| Selection.Picks | dist/index.js:516-518 | one element is picked per draw |
| Selection.PicksPartition | dist/index.js:514-521 | what was picked plus what remains is exactly the original multiset |
| Selection.PicksFromPool | dist/index.js:514-521 | picks without replacement are a sub-multiset of the choices |
| Selection.RemoveAt | dist/index.js:520 | `splice(i, 1)` on the array leaves the prefix without its `i`-th element |
| Generators.DrawIntegers | dist/index.js:341-344 | `count` integers, each in [min, max], each the logged answer of `randomInt(min, max + 1)`; a fractional bound fails at the first draw with nothing drawn |
| Generators.GenerateInteger | dist/index.js:330-358 | errors as `CheckInteger` and `randomInt` give them, with nothing drawn; otherwise the integers of `DrawIntegers`, tagged with the parameters |
| Generators.GenerateFloat | dist/index.js:359-393 | errors as `CheckFloat`, with nothing drawn; otherwise `count` values, each the rounded scaling of one logged 4-byte draw |
| Generators.GenerateBytes | dist/index.js:395-429 | a bad length fails with nothing drawn; otherwise one draw of `length` bytes, encoded, or the encoding error after the draw |
| Generators.GenerateUuid | dist/index.js:430-453 | errors as `CheckUuid`; otherwise `count` logged v4 UUIDs, hyphen-free exactly for "compact" |
| Generators.Spell | dist/index.js:481-482 | one character per draw |
| Generators.SpellAppend | dist/index.js:478-485 | the characters of two runs of draws, spelled one after the other, are the characters of both runs together |
| Generators.DrawWord | dist/index.js:479-483 | the inner loop builds `length` characters from the table, spelling exactly the draws it logs |
| Generators.DrawStrings | dist/index.js:478-485 | the outer loop builds `count` such strings; joined, they spell every draw it logs, in order |
| Generators.GenerateString | dist/index.js:455-498 | errors as `CheckString`; otherwise `count` strings of `length` characters, each from the table, spelling out the logged draws in order |
| Generators.Choose | dist/index.js:514-522 | `count` picks; with duplicates each is `choices[draw]`, without them the picks equal `Picks` of the logged draws on a shrinking copy |
| Generators.GenerateChoice | dist/index.js:500-535 | errors as `CheckChoice`; otherwise the picks of `Choose` |
| Generators.GenerateBoolean | dist/index.js:537-564 | errors as `CheckBoolean`; otherwise `count` booleans, each `u / 0xFFFFFFFF < probability` for one logged 4-byte draw |
| Properties.UnitRange | dist/index.js:549 | the uniform draw is in [0, 1] and equals 1 exactly on 0xFFFFFFFF |
| Properties.NeverTrueAtZero | dist/index.js:549-550 | probability 0.0 never yields true |
| Properties.CertaintyMissesLargestDraw | dist/index.js:549-550 | with probability 1.0 the draw is true exactly when it is below 0xFFFFFFFF |
| Properties.CoinMonotone | dist/index.js:550 | raising the probability never turns true into false |
| Properties.ZeroProbabilityAllFalse | dist/index.js:547-551 | every boolean of a probability-0.0 call is false |
| Properties.ScaleWithin | dist/index.js:377-378 | before rounding a float lies in [min, max], is min on draw 0, and is max exactly on draw 0xFFFFFFFF |
| Properties.FloatValueNear | dist/index.js:377-379 | the returned float is within half a last-decimal unit of the unrounded value |
| Properties.FloatNearRange | dist/index.js:376-379 | one float, from any 4-byte draw, lies within half a last-decimal unit of [min, max] |
| Properties.FloatsNearRange | dist/index.js:374-380 | every returned float is within half a last-decimal unit of [min, max] |
| Properties.RoundingCanFallBelowMin | dist/index.js:379 | min 0.001, max 0.002 and one decimal give 0.0, below min |
| Properties.RoundingCanExceedMax | dist/index.js:379 | min 0, max 0.05 and one decimal give 0.1 on the largest draw, above max |
| Properties.HexOutput | dist/index.js:404-406 | the hex result has 2 lower-case hex digits per byte and decodes back |
| Properties.Base64Output | dist/index.js:407-409 | the base64 result has length 4 * ceil(n / 3), is padded RFC 4648 with `=` only in the last two places, and decodes back |
| Properties.BinaryOutput | dist/index.js:410-412 | the binary result has one character of code 0-255 per byte and decodes back |
| Properties.ShapedUuid | dist/index.js:439 | "compact" gives 32 hex digits that rebuild the UUID; any other format gives the UUID unchanged |
| Properties.UuidsWellFormed | dist/index.js:437-440 | every returned UUID is a v4 UUID, or its 32 hex digits in compact form |
| Properties.ChosenFromChoices | dist/index.js:513-522 | every choice is an element of `choices`; without duplicates the choices form a sub-multiset |
| Properties.HexStringsAreHex | dist/index.js:469-482 | a string drawn from the hex table holds only lower-case hex digits |
| Dispatch.Route | dist/index.js:232-249 | a name selects a tool only when it is that tool's name |
| Dispatch.RouteFindsEveryTool | dist/index.js:232-246 | each of the seven names selects its own generator |
| Dispatch.Run | dist/index.js:232-246 | each tool's case calls its own generator: it throws exactly as that tool's checks say, draws nothing on an error except the bytes tool's late encoding error, and otherwise returns that generator's result over its draws |
| Dispatch.CallTool | dist/index.js:229-261 | an unknown name gives "Error: Unknown tool: name" and draws nothing; a known one fails exactly when its tool throws, with text "Error: " + message, and draws nothing unless the bytes tool rejects the encoding after its draw; a success is the routed generator's own result over the draws the call made: count, ranges, encodings and picks as that generator promises |
| Schema.AdvertisedNamesDispatch | dist/index.js:33-226 | every advertised tool name is dispatched to the tool it describes, and every tool is advertised |
| Schema.ConformingCallsSucceed | dist/index.js:33-226 | arguments valid against a tool's schema that also meet the unstated cross-field constraints never fail, given `randomInt`'s range limits, which are left out |
| Schema.BoundsEnforced | dist/index.js:33-226 | a number outside an advertised minimum or maximum always makes the call fail |
| Schema.EnumsEnforced | dist/index.js:112-158 | an encoding or charset outside its enumeration makes the call fail |
| Schema.FormatEnumNotEnforced | dist/index.js:135 | a UUID format outside the enumeration is accepted |
| Schema.IntegerTypeNotEnforced | dist/index.js:124-130 | a count of 1.5, though typed integer, is accepted and runs the loop twice |
| Schema.ChoiceItemsNotChecked | dist/index.js:181-183 | the schema asks for string items, but non-string choices are accepted |
| Schema.IntegerBoundsTypeEnforced | dist/index.js:40-49 | a fractional integer `min` is refused, by `randomInt` and not by the tool |
| Schema.MissingArgumentsFail | dist/index.js:230 | a call without `arguments` fails for every tool, though six tools declare nothing required |
| Schema.DefaultsAgree | dist/index.js:33-226 | the defaults the tools fill in are the advertised defaults |

## Left out

- Server construction, stdio transport, `run`, the `SIGINT` handler and `console.error` logging: these are process and I/O plumbing.
- The prompt handlers (`prompts/list`, `prompts/get`): fixed prose with no logic.
- `JSON.stringify` and the `new Date().toISOString()` timestamp. A result is the `Generators.Output` datatype, holding its type tag, values and echoed parameters.
- Entropy.CryptoSource.RandomInt:
  - It does not model Node's safe-integer magnitude limit or its limit of 2^48 on `max - min`.
  - Its body reduces a 48-bit draw modulo the range, where Node rejects and redraws biased values. Its contract promises only the range, so nothing proved depends on the difference.
  - Its error message omits Node's "Received …" suffix.
- Entropy.CryptoSource.RandomBytes: for a fractional size, the contract says nothing about the length, because that is left to the platform.
- Generators.Scale, Generators.Unit and Generators.Coin compute on exact reals. There is no double rounding and no overflow. In the program, `min + r * (max - min)` is computed in doubles: for min 1e10 and max 1e10 + 1, a draw below 0xFFFFFFFF can already round to `max`, and for min -1.7e308 and max 1.7e308, `max - min` overflows. Properties.ScaleWithin holds of the real-number model only.
- Schema.ConformingCallsSucceed assumes `randomInt` accepts every integral range. In the program, `{min: 0, max: 2^48}` conforms to the integer schema, yet `randomInt(0, 2^48 + 1)` throws a range error.
- Js.ToFixed rounds the exact real value. Double-precision representation errors, and `toFixed`'s exponential form at 10^21 and above, are not modelled.
- Numeric arguments that are not numbers (strings, `NaN`), and a non-boolean `allow_duplicates`, are not modelled. Their comparisons follow JavaScript coercion rules.
- String arguments that are not strings are not modelled: `encoding`, `format` and `charset` are `string` in the model. In the program, a `charset` of `["hex"]` selects the hex table, because a property key is coerced to a string.
- Charsets.Lookup and Schema.EnumsEnforced treat a charset name inherited from `Object.prototype` as unknown. In the program, such a name whose value is a function of `length` 1, such as "constructor" or "hasOwnProperty", passes the `if (!chars)` check (dist/index.js:473-474). `randomInt(0, 1)` then picks `chars[0]`, which is `undefined`, so each string is "undefined" repeated `length` times and no error is raised.
- The working copy of the choices is a fixed-size array with a length counter, where the source uses a JavaScript array that shrinks.
- test.js is cited above only for the range it expects. It, scripts/build-dxt.js, scripts/inspect.js and dist/index.d.ts are not part of this model.

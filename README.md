# Variant dispatch and selective exception recovery

This project is a Dafny model of two compiled ReScript/BuckleScript modules. They are example inputs of the reanalyze dead-code analyser.

- `VariantsWithPayload` has three printers. Each takes a variant value in its runtime encoding and picks a branch by testing that encoding: a bare string, a bare number, an object `{NAME, VAL}`, or a block `{TAG, _0, _1, _2}`. The printer then builds the arguments it passes to `console.log`. The module also has six functions that return their argument unchanged.
- `TestYojson` has `bar`. It calls Yojson's `member(str, json)` and recovers from one exception only: `Type_error("a", v)` with `v` structurally equal to `json`. Every other exception is raised again unchanged. `foo`, `toString` and `toInt` only delegate to Yojson.

## Layout

- `js.dfy` (module `Js`): the JavaScript values the printers read and log, and the few operations they apply:
  - a property read (`v.key`, `v[i]`);
  - `String(v)`;
  - `v + s` with a string `s`;
  - `n | 0`.
  
  It also renders integers in decimal, with proofs that the text reads back as the same number.
- `variants_with_payload.dfy` (module `VariantsWithPayload`): the runtime shapes as datatypes, the printers as functions that return the `console.log` argument list (the empty list when nothing is logged), and the identity functions. It also models each variant family at the source level (`WithPayloadCase` over `Nullary` and the record, `ManyCase`, `VariantCase`), each with an encoder and a decoder. Lemmas show that the compiled dispatch prints, for every decodable value, what the source-level match prints for the decoded constructor. The encoder of the first family takes the record constructor's `NAME` as a parameter, because that name is not visible in the compiled code.
- `test_yojson.dfy` (module `TestYojson`): Yojson's tree, the exceptions, and `bar`, whose outcome is a `Returned`/`Raised` value. Yojson's own functions (`member`, `from_string`, `to_string`, `to_int`) are function parameters.

Two behaviours of the code are worth knowing:
- `bar` compares the exception's key with the literal `"a"` and never looks at `str` (`TestYojson.BarIgnoresStr`).
- The printers pass a record's `x` and `y` to `console.log` as separate arguments, between the labels.

## Model

| member | source | states |
|---|---|---|
| `VariantsWithPayload.TestWithPayload` | examples/deadcode/src/VariantsWithPayload.bs.js:4-6 | returns its argument unchanged |
| `VariantsWithPayload.TestManyPayloads` | examples/deadcode/src/VariantsWithPayload.bs.js:28-30 | returns its argument unchanged |
| `VariantsWithPayload.TestSimpleVariant` | examples/deadcode/src/VariantsWithPayload.bs.js:48-50 | returns its argument unchanged |
| `VariantsWithPayload.TestVariantWithPayloads` | examples/deadcode/src/VariantsWithPayload.bs.js:52-54 | returns its argument unchanged |
| `VariantsWithPayload.TestVariant1Int` | examples/deadcode/src/VariantsWithPayload.bs.js:79-81 | returns its argument unchanged |
| `VariantsWithPayload.TestVariant1Object` | examples/deadcode/src/VariantsWithPayload.bs.js:83-85 | returns its argument unchanged |
| `VariantsWithPayload.PrintVariantWithPayload` | examples/deadcode/src/VariantsWithPayload.bs.js:8-26 | a bare string logs one text: its own name if it is "a", "b", "Half" or "True", and "Twenty" for every other string; an object logs exactly `VAL.x` then `VAL.y` between the labels; `NAME` is never read |
| `VariantsWithPayload.PrintNullary` | examples/deadcode/src/VariantsWithPayload.bs.js:9-20 | each of the five nullary constructors prints its own name; "Twenty" is reached through the catch-all |
| `VariantsWithPayload.PrintRecordPayload` | examples/deadcode/src/VariantsWithPayload.bs.js:21-24 | the record payload `{x, y}` logs `x`, then `y` (undefined for `None`), whatever `NAME` is |
| `VariantsWithPayload.DecodePayload` | examples/deadcode/src/VariantsWithPayload.bs.js:23-24 | a value accepted as a record payload is exactly the encoding of the record it decodes to |
| `VariantsWithPayload.NullaryOf` | examples/deadcode/src/VariantsWithPayload.bs.js:10-19 | a bare string names a nullary constructor only when it is that constructor's name |
| `VariantsWithPayload.DecodeEncodeWithPayload` | examples/deadcode/src/VariantsWithPayload.bs.js:9-24 | decoding the bare-string or `{NAME, VAL}` encoding of a constructor gives that constructor back, whatever `NAME` the record constructor has |
| `VariantsWithPayload.EncodeDecodeWithPayload` | examples/deadcode/src/VariantsWithPayload.bs.js:9-24 | a decodable runtime value is exactly the encoding of the constructor it decodes to, under its own `NAME` |
| `VariantsWithPayload.PrintWithPayloadDecoded` | examples/deadcode/src/VariantsWithPayload.bs.js:8-26 | on every decodable value, the compiled dispatch logs what the source-level match logs for the decoded constructor (its name, or the record's x and y) |
| `VariantsWithPayload.PrintManyPayloads` | examples/deadcode/src/VariantsWithPayload.bs.js:32-46 | "two" logs elements 0 and 1 of `VAL` in that order; "three" logs `VAL.x` then `VAL.y`; every other `NAME` logs `VAL` itself under the label "one" |
| `VariantsWithPayload.DecodeEncodeMany` | examples/deadcode/src/VariantsWithPayload.bs.js:33-44 | decoding the `{NAME, VAL}` encoding of a constructor gives that constructor back |
| `VariantsWithPayload.EncodeDecodeMany` | examples/deadcode/src/VariantsWithPayload.bs.js:33-44 | a decodable runtime value is exactly the encoding of the constructor it decodes to |
| `VariantsWithPayload.PrintManyDecoded` | examples/deadcode/src/VariantsWithPayload.bs.js:32-46 | on every decodable value, the compiled dispatch logs what the source-level match logs for the decoded constructor (the two strings in order, or the record's x and y) |
| `VariantsWithPayload.PrintVariantWithPayloads` | examples/deadcode/src/VariantsWithPayload.bs.js:56-77 | any number logs "A" without `TAG` being read; a block logs nothing exactly when `TAG \| 0` is outside 0..3; otherwise it makes one call with the label and one string |
| `VariantsWithPayload.DecodeEncodeVariant` | examples/deadcode/src/VariantsWithPayload.bs.js:56-76 | decoding the number or block encoding of a constructor gives that constructor back |
| `VariantsWithPayload.PrintVariantDecoded` | examples/deadcode/src/VariantsWithPayload.bs.js:56-77 | on every decodable value, the compiled dispatch logs the text the source-level match builds: "A", "B(n)", "C(a, b)", "D((a, b))" or "E(a, s, b)" |
| `VariantsWithPayload.PrintB` | examples/deadcode/src/VariantsWithPayload.bs.js:62-64 | tag 0 with a numeric `_0` logs "B(" + the decimal text of `_0` + ")" |
| `VariantsWithPayload.PrintC` | examples/deadcode/src/VariantsWithPayload.bs.js:65-67 | tag 1 with numeric `_0` and `_1` logs "C(" + the decimal text of `_0` + ", " + that of `_1` + ")" |
| `VariantsWithPayload.PrintD` | examples/deadcode/src/VariantsWithPayload.bs.js:68-71 | tag 2 with `_0` an array of two numbers `a`, `b` reads elements 0 and 1 of `_0` and logs them inside double parentheses, "D((a, b))" |
| `VariantsWithPayload.PrintE` | examples/deadcode/src/VariantsWithPayload.bs.js:72-74 | tag 3 with a numeric `_0`, a string `_1` and a numeric `_2` logs "E(" + `_0` + ", " + `_1` + ", " + `_2` + ")"; the string `_1`, joined with `+` and not `String()`, appears verbatim |
| `Js.IntString` | examples/deadcode/src/VariantsWithPayload.bs.js:63 | `String(n)` of an integer: a minus sign exactly for negative numbers, then decimal digits |
| `Js.NatString` | examples/deadcode/src/VariantsWithPayload.bs.js:63 | the decimal digits of a natural number: non-empty, all digits, and a leading zero only for 0 |
| `Js.NatStringRoundTrip` | examples/deadcode/src/VariantsWithPayload.bs.js:63 | the digits of `n` read back as `n` |
| `Js.NatStringOfDigits` | examples/deadcode/src/VariantsWithPayload.bs.js:63 | every digit string without a leading zero is the rendering of the number it denotes |
| `Js.IntStringRoundTrip` | examples/deadcode/src/VariantsWithPayload.bs.js:66 | the decimal text of any integer reads back as that integer |
| `Js.IndexOf` | examples/deadcode/src/VariantsWithPayload.bs.js:36 | a property key names an element exactly when it is a digit string without a leading zero |
| `Js.IndexOfNumeral` | examples/deadcode/src/VariantsWithPayload.bs.js:36 | a key names index `i` exactly when it is the numeral of `i` |
| `Js.Index` | examples/deadcode/src/VariantsWithPayload.bs.js:69-70 | `v[i]` is element `i` of an array, the `i`-th character of a string, and undefined past the end or on a number |
| `Js.Get` | examples/deadcode/src/VariantsWithPayload.bs.js:23-24 | a property read: an object's own property or undefined, nothing on a number, `length` of a string or array, and undefined for every named key such as `x` or `y` on a non-object |
| `Js.ToString` | examples/deadcode/src/VariantsWithPayload.bs.js:63-73 | `String(v)`: "undefined", the decimal text of a number (which reads back as that number), a string itself, "[object Object]" for an object |
| `Js.ArrayString` | examples/deadcode/src/VariantsWithPayload.bs.js:63 | `String` of an array is its elements' strings joined by commas, an undefined element contributing the empty string |
| `Js.JoinSnoc` | examples/deadcode/src/VariantsWithPayload.bs.js:63 | appending a part to a non-empty comma join adds a comma and the part |
| `Js.JoinItemsIsJoin` | examples/deadcode/src/VariantsWithPayload.bs.js:63 | the element-by-element join from the back agrees with the comma join built from the front, for every prefix of the array |
| `Js.PlusString` | examples/deadcode/src/VariantsWithPayload.bs.js:73 | `v + s` with a string `s` equals `String(v) + s`, keeps a string `v` verbatim, and ends with `s` |
| `Js.ToInt32` | examples/deadcode/src/VariantsWithPayload.bs.js:61 | `TAG \| 0` is the 32-bit integer congruent to `TAG`, and `TAG` itself when it is in 32-bit range |
| `TestYojson.Bar` | examples/deadcode/src/exception/TestYojson.bs.js:12-29 | `member`'s result passes through; a raised `Type_error("a", v)` with `v` equal to `json` yields `json`; any other exception is raised again as it is |
| `TestYojson.BarOutcome` | examples/deadcode/src/exception/TestYojson.bs.js:12-29 | `bar` returns `member`'s outcome or `json` itself, and never raises an exception that `member` did not raise |
| `TestYojson.BarTypeError` | examples/deadcode/src/exception/TestYojson.bs.js:18-25 | for `Type_error(k, v)`, `bar` returns `json` if and only if `k` is "a" and `v` equals `json`; otherwise it raises that same exception |
| `TestYojson.BarIgnoresStr` | examples/deadcode/src/exception/TestYojson.bs.js:19 | a type error about `str` itself over `json` is recovered exactly when `str` is "a": the key is compared with the literal, never with `str` |
| `TestYojson.BarOtherExceptions` | examples/deadcode/src/exception/TestYojson.bs.js:26-27 | an exception other than `Type_error` is raised again unchanged |
| `TestYojson.Foo` | examples/deadcode/src/exception/TestYojson.bs.js:8-10 | returns exactly what Yojson's `from_string` returns or raises |
| `TestYojson.ToString` | examples/deadcode/src/exception/TestYojson.bs.js:31-33 | returns exactly what Yojson's `to_string` returns or raises |
| `TestYojson.ToInt` | examples/deadcode/src/exception/TestYojson.bs.js:35-37 | returns exactly what Yojson's `to_int` returns or raises |

## Left out

- `console.log` is not performed. A printer returns the arguments of its single call, and the empty list when it logs nothing.
- `Yojson.bs.js` is not part of this model. `member`, `from_string`, `to_string` and `to_int` are function parameters, and the exceptions they raise are `Raised` outcomes.
- The BuckleScript runtime helpers are modelled by what they do here:
  - `Curry._1` and `Curry._2` are plain application;
  - `internalToOCamlException` is the identity on the exception;
  - `caml_equal` is `==` on `Json`.
- TestYojson.Bar: a `Float` holds a `real`, so NaN, which `caml_equal` finds unequal to itself, is not modelled.
- JavaScript numbers are integers here:
  - non-integral numbers, `-0`, precision beyond 2^53 and the exponent notation `String()` uses from 10^21 on are not modelled;
  - `TAG` is an integer, so `| 0` is modelled only on integers (as the 32-bit wrap-around).
- Js.Get: a property read sees own properties, string and array elements and `length`. It does not see members inherited from a prototype; none of the keys the printers read names one.
- `null`, booleans and functions never reach these printers and are not values of the model.
- String elements are Dafny characters, not UTF-16 code units.
- The runtime shapes are those a typed producer builds. `VAL` and `_0` are never undefined, so no property read of `undefined` (a TypeError in JavaScript) can occur.
- The runtime forms of `simpleVariant`, `variant1Int` and `variant1Object` are not visible. Their identity functions take any value.
- The `NAME` of the record-carrying constructor of the first family is not visible, because its printer never reads it. `EncodeWithPayload` takes it as a parameter, and the record lemmas hold for every name.
- The `export` blocks and the build annotations carry no behaviour.

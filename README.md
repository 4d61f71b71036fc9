# typescript-labs: the runtime logic of the lessons, in Dafny

The repository is a set of TypeScript lessons. Most of what they show is enforced by the
TypeScript compiler. This project models the parts that do something at runtime, and proves
what the lessons' code and comments say about them:

- **Tagged templates** (`analyzeString`): a loop rebuilds the template text. It interleaves the
  literal pieces with `*`-wrapped placeholder values. The loop is proved against a recursive
  definition of the interleaving. Lemmas about that definition give the length and the suffix.
- **Id-guarded concatenation** (`IdentificatedGeneric`, `concatenate`): an array subclass with
  an `id`. It is a class whose `push` updates it in place. Concatenation succeeds exactly when the
  ids match, and otherwise throws "Must be the same id".
- **Generic array helpers** (`countElementInArray1/2`, `returnFirstElementInArray1/2`): the
  `unknown[]` variants agree with the generic ones on every input. Both return `undefined`
  alike for an empty array and for one whose first element is `undefined`.
- **Key projection** (`printProps`, `printProps2`): interfaces become field tables. `K extends T`
  becomes field inclusion, and `K extends keyof T` becomes a precondition on the keys.
  `printProps2` is a loop that logs one line per key.
- **Bit-flag enums** (three lessons): flags are `bv32`, because JavaScript's bitwise operators
  work on 32-bit integers. Adding, testing and removing a flag get general lemmas. Each lesson's
  script is a method that updates `power1..power3` in place and returns the lines it logs.
- **`never` and optional access**: an exhaustive `switch` whose unhandled case throws; the
  `typeof` chain whose `else` is unreachable; optional chaining; and the `if (!v)` fallback
  against the `??` fallback.

Throwing is modelled as a `Completion` value (`Normal(value)` or `Throw(message)`).
`undefined` is `None` of an `Option`. A logged line is an element of a returned sequence.

The lessons rely on the TypeScript compiler for their type rules, and no code in the repository
enforces these type rules at runtime. Where a compile-time rule matters at runtime, it becomes a precondition (`Extends`, `KeysWithin`).

## Model

| member | source | states |
|---|---|---|
| `TaggedTemplates.AnalyzeString` | src/01-basics-of-variables/07-string-tagged-templates/index.ts:5-13 | the loop builds L0 *P0* L1 … *P(n-1)* Ln; its invariant is that after i rounds the result interleaves the first i literals and starred placeholders |
| `TaggedTemplates.InterleaveSnoc` | src/01-basics-of-variables/07-string-tagged-templates/index.ts:7-10 | one more round (`result += literals[i]; result += "*" + p + "*"`) extends the interleaving at its end |
| `TaggedTemplates.InterleaveLength` | src/01-basics-of-variables/07-string-tagged-templates/index.ts:8-9 | the interleaving's length is the literal lengths plus the placeholder text lengths plus 2 per placeholder |
| `TaggedTemplates.TaggedLength` | src/01-basics-of-variables/07-string-tagged-templates/index.ts:8-11 | the result's length is the sum of all literal lengths, all placeholder text lengths, and 2·n |
| `TaggedTemplates.TaggedEndsWithLastLiteral` | src/01-basics-of-variables/07-string-tagged-templates/index.ts:11 | the result always ends with the last literal |
| `TaggedTemplates.TaggedWithoutPlaceholders` | src/01-basics-of-variables/07-string-tagged-templates/index.ts:7-11 | with zero placeholders the result is exactly the last literal |
| `TaggedTemplates.Starred` | src/01-basics-of-variables/07-string-tagged-templates/index.ts:9 | a starred placeholder is two characters longer than its string form, with `*` at both ends |
| `TaggedTemplates.StarredUnwraps` | src/01-basics-of-variables/07-string-tagged-templates/index.ts:9 | between the two asterisks stands exactly the placeholder's string form |
| `TaggedTemplates.SampleCall` | src/01-basics-of-variables/07-string-tagged-templates/index.ts:15-18 | the lesson's call yields "The number is *84* which is not like the second number *100*" |
| `GenericComparison.IdentificatedGeneric.constructor` | src/29-generic-comparison/index.ts:37-42 | a new list carries the given id and no elements |
| `GenericComparison.IdentificatedGeneric.Push` | src/29-generic-comparison/index.ts:57-60 | push appends its arguments in order, returns the new length and leaves the id unchanged |
| `GenericComparison.Concatenate` | src/29-generic-comparison/index.ts:44-50 | succeeds exactly when the ids are equal, with list1's elements followed by list2's (length the sum); otherwise throws "Must be the same id"; reads the lists and changes neither |
| `GenericComparison.Sample` | src/29-generic-comparison/index.ts:52-66 | `concatenate(l1, l4)` gives ["1","2","500","600"]; the commented-out `concatenate(l1, l2)` throws |
| `GenericOutsideClass.UnknownVariantsAgree` | src/28-generic-outside-class/index.ts:47-56 | on every array, the `unknown[]` helpers give the generic helpers' results |
| `GenericOutsideClass.EmptyAndUndefinedFirstCoincide` | src/28-generic-outside-class/index.ts:24-56 | both helpers return `undefined` for `[]` and for `[undefined]`, so the caller cannot tell the two apart |
| `GenericOutsideClass.SampleCalls` | src/28-generic-outside-class/index.ts:28-59 | on [1,2,3] both variants count 3 and return 1 |
| `GenericAndKeyof.ExtendsReflexive` | src/32-generic-and-keyof/index.ts:31 | every type extends itself |
| `GenericAndKeyof.ExtendsTransitive` | src/32-generic-and-keyof/index.ts:31 | the extends relation is transitive |
| `GenericAndKeyof.ExtendsSubstitutes` | src/32-generic-and-keyof/index.ts:10-18 | a value of K, where K extends T, is a value of T |
| `GenericAndKeyof.LessonTypes` | src/32-generic-and-keyof/index.ts:19-49 | TypeC extends TypeA; TypeB, which lacks prop2, does not; `keyof TypeA` and `keyof TypeA1` are {prop1, prop2} |
| `GenericAndKeyof.PrintProps` | src/32-generic-and-keyof/index.ts:31-34 | with K extends T, logs p1 and then p2, and both logged objects are values of T |
| `GenericAndKeyof.PrintProps2` | src/32-generic-and-keyof/index.ts:58-63 | with every key in `keyof T`: logs "Printing:", then exactly one line per key, in order and with repetitions, pairing the key with p1's value |
| `GenericAndKeyof.LessonValues` | src/32-generic-and-keyof/index.ts:36-80 | the lesson's objects have their declared types; ["prop1","prop2"] are keys of TypeA and ["prop3"] is not |
| `GenericAndKeyof.LoggedProps` | src/32-generic-and-keyof/index.ts:61 | the lines for prop1 and prop2 of `a` read "Name: prop1 and value: p1" and "Name: prop2 and value: 2" |
| `GenericAndKeyof.SamplePrintProps` | src/32-generic-and-keyof/index.ts:41 | `printProps(a, c)` with T = TypeA and K = TypeC is accepted and logs a, then c |
| `GenericAndKeyof.SampleCalls` | src/32-generic-and-keyof/index.ts:65-68 | the two `printProps2(a, …)` calls log the header and the lines for prop1, then prop1 and prop2 |
| `Js.DigitsDenote` | src/01-basics-of-variables/04-enum-basics/enum_with_bitwise_values.ts:28 | the decimal digits a number is rendered with denote that number |
| `Js.NumberToStringRoundTrip` | src/01-basics-of-variables/04-enum-basics/enum_with_bitwise_values.ts:28 | reading back the rendering of any integer (optional `-`, then digits) gives the integer |
| `BitFlags.LoggedPowerValues` | src/01-basics-of-variables/04-enum-basics/enum_with_bitwise_values.ts:28-94 | the values 1, 3 and 7 the scripts log render as "Power values: 1", "Power values: 3" and "Power values: 7" |
| `BitFlags.LoggedMask` | src/01-basics-of-variables/04-enum-basics/enum_with_bitwise_values.ts:30 | the masked Telepathy value 2 is logged as "power & Power.Telepathy === 2" |
| `BitFlags.LessonDeclaration` | src/01-basics-of-variables/04-enum-basics/enum_with_bitwise_values.ts:20-26 | None = 0; the flags 1, 2 and 4 are distinct single bits; Everything = 7 |
| `BitFlags.AddSets` | src/01-basics-of-variables/04-enum-basics/enum_with_bitwise_values.ts:27-31 | after a bitwise-or of f into p, the test `(p & f) === f` holds |
| `BitFlags.AddKeeps` | src/01-basics-of-variables/04-enum-basics/enum_with_bitwise_values.ts:70-74 | adding with or-assignment never clears a flag that was set |
| `BitFlags.RemoveClears` | src/01-basics-of-variables/04-enum-basics/enum_with_bitwise_values.ts:39-45 | after `p &= ~f` the test for f fails |
| `BitFlags.RemoveKeepsOthers` | src/01-basics-of-variables/04-enum-basics/enum_with_bitwise_values.ts:39-41 | removing f leaves the test of every flag disjoint from f unchanged |
| `BitFlags.RemoveUndoesAdd` | src/01-basics-of-variables/04-enum-basics/enum_with_bitwise_values.ts:39-45 | removing a flag just added restores the earlier set |
| `BitFlags.AddUndoesRemove` | src/01-basics-of-variables/04-enum-basics/enum_with_bitwise_values.ts:70-74 | adding back a flag that was removed restores the earlier set |
| `BitFlags.HasUnion` | src/01-basics-of-variables/04-enum-basics/enum_with_bitwise_values.ts:10-12 | a set holds a union of flags exactly when it holds each of them |
| `BitFlags.HasEverything` | src/01-basics-of-variables/04-enum-basics/enum_with_bitwise_values.ts:25 | a set holds Everything exactly when it holds all three flags |
| `BitFlags.AddEverything` | src/01-basics-of-variables/04-enum-basics/enum_with_bitwise_values.ts:93-96 | or-assigning Everything gives exactly Everything when p has no bit outside it, and only then |
| `EnumWithBitwiseValues.Run` | src/01-basics-of-variables/04-enum-basics/enum_with_bitwise_values.ts:5-97 | power1 = 3 and the Telepathy test holds; `power2 &= ~Power1.Telepathy` gives 1, Invincibility is kept and the test fails; or-assigning 7 to power3 gives Everything; the logged lines in order |
| `EnumWithBitwiseValues.CrossEnumMasks` | src/01-basics-of-variables/04-enum-basics/enum_with_bitwise_values.ts:47-59 | Telepathy is 2 in Power1, Power2 and Power3, so the cross-enum mask removes the same bit |
| `EnumBasics.Run` | src/01-basics-of-variables/04-enum-basics/index.ts:142-234 | the bitwise section logs its heading "Example 1: enum with bitwise values", then reaches the same values (3, then 1, then 7 = Everything) with the same logged lines as the bitwise-values script |
| `EnumBasics.CrossEnumMasks` | src/01-basics-of-variables/04-enum-basics/index.ts:157-220 | masks from Power1 and Power3 agree on Telepathy = 2 |
| `EnumWithAndWithoutValues.Run` | src/20-enum-with-and-without-values/index.ts:157-245 | power1 = 3 with the Telepathy test holding; `power2 &= ~Power.Telepathy` takes 3 to 1, keeps Invincibility and fails the test; or-assigning 7 to power3 gives Power.Everything; the logged lines in order |
| `EnumWithAndWithoutValues.PowerDeclarations` | src/20-enum-with-and-without-values/index.ts:157-230 | the flags are distinct single bits, Everything = 7, and Power, Power2 and Power3 have the same values |
| `PrimitiveNever.FunctionThrow` | src/01-basics-of-variables/14-primitive-type-never/index.ts:12-14 | never returns normally; throws "This function returns never" |
| `PrimitiveNever.FunctionReturnNever` | src/01-basics-of-variables/14-primitive-type-never/index.ts:96-98 | never returns normally; throws "Error message" |
| `PrimitiveNever.UnhandledChoiceFromEnum` | src/01-basics-of-variables/14-primitive-type-never/index.ts:70-72 | never returns normally; throws "Choice not defined" |
| `PrimitiveNever.FunctionReturnStringFromEnum` | src/01-basics-of-variables/14-primitive-type-never/index.ts:60-69 | ChoiceA gives "A", ChoiceB gives "B", ChoiceC reaches `default` and throws "Choice not defined"; whenever it returns, the result is "A" or "B" |
| `PrimitiveNever.HandledChoicesAreDistinguished` | src/01-basics-of-variables/14-primitive-type-never/index.ts:60-69 | two choices that return the same string are the same choice |
| `PrimitiveNever.BranchOnTypeOf` | src/01-basics-of-variables/14-primitive-type-never/index.ts:133-139 | the number branch runs exactly for numbers, the boolean branch exactly for booleans |
| `PrimitiveNever.ElseUnreachable` | src/01-basics-of-variables/14-primitive-type-never/index.ts:116-139 | the final `else` runs exactly for values that are neither numbers nor booleans, so never for the declared type |
| `PrimitiveNever.AjaxCall` | src/01-basics-of-variables/14-primitive-type-never/index.ts:129-131 | `ajaxCall()` returns a boolean |
| `PrimitiveNever.SampleData` | src/01-basics-of-variables/14-primitive-type-never/index.ts:132-136 | for `ajaxCall()`'s value the boolean branch runs and logs "The data is a boolean type: boolean" |
| `PrimitiveNever.TryNeverLogsNothing` | src/01-basics-of-variables/14-primitive-type-never/index.ts:101-110 | as written, the try/catch around `functionReturnNever()` logs nothing, not even the error's message |
| `PrimitiveNever.TryNeverLogsMessage` | src/01-basics-of-variables/14-primitive-type-never/index.ts:108-110 | with the catch handler actually called, exactly "Error message" is logged |
| `UnknownKeyword.Print` | src/15-unknown-keyword/index.ts:145-149 | logs `o.m1.m2.m3` exactly when both m1 and m2 are present, and nothing otherwise |
| `UnknownKeyword.OptionalChainingEquivalent` | src/15-unknown-keyword/index.ts:96-102 | the optional-chaining `print` logs the same as the nested-`if` version it replaces |
| `UnknownKeyword.SamplePrints` | src/15-unknown-keyword/index.ts:151-168 | `print(obj1)` and `print(obj2)` log nothing; `print(obj3)` logs "Yeah!" |
| `UnknownKeyword.GetValue` | src/15-unknown-keyword/index.ts:182-187 | returns only `undefined` (exactly when the draw exceeds 0.5) or "Good" |
| `UnknownKeyword.ValueWithFalsyFallback` | src/15-unknown-keyword/index.ts:188-191 | after the fallback `value1` is defined: "Default" when the getter gave `undefined`, "Good" otherwise |
| `UnknownKeyword.CoalesceVersusFalsyDefault` | src/15-unknown-keyword/index.ts:188-209 | `??` and the `if (!v)` fallback agree exactly when the value is not the empty string (or the default is empty) |
| `UnknownKeyword.CoalesceAgreesOnGetterOutputs` | src/15-unknown-keyword/index.ts:203-209 | on every value the getters can return, `?? "Default"` equals the falsy fallback, and is "Default" or "Good" |

## Left out

- The TypeScript compiler's own checks are not modelled as an algorithm. These are assignability, generic inference, constraints and casts. `K extends T` and `K extends keyof T` appear only as preconditions of `PrintProps` and `PrintProps2`.
- Console output is not performed. Logged lines are returned as sequences of strings. `PrintProps` returns the two logged objects, because the host's rendering of an object is not modelled.
- `Math.random` is not called. The draw is the `random` parameter of `GetValue`.
- Numbers are integers. IEEE doubles, fractions, NaN and -0 and their string forms are not modelled. Only integral values are rendered, in decimal, and every digit is written out: JavaScript prints integers of 10^21 or more in exponent form ("1e+21"), which `Js.NumberToString` does not.
- `JsValue` covers the primitive values only. Objects, symbols and functions used as template placeholders or array elements are not modelled.
- `TaggedTemplates.AnalyzeString`: requires one more literal than placeholders. A tagged template always passes them that way. A direct call with other arrays would insert the text "undefined" or skip literals, and that is not modelled.
- `GenericComparison.IdentificatedGeneric`: only `push` of the inherited `Array` methods is modelled. The `as T1` cast has no runtime effect, so `Concatenate` returns a plain sequence without an id.
- `concatenate(l1, l3)`, a string list with a number list, is a compile error in the lesson. Dafny's type parameter rejects it in the same way, so there is no runtime case for it.
- `GenericOutsideClass.ReturnFirstElementInArray1`: the result is an `Option`. It tells an empty array apart from an array whose first element is itself `undefined`. The JavaScript `T | undefined` does not, when T includes `undefined`.
- `getValue2` has the same body as `getValue1`. Both are modelled by the one function `UnknownKeyword.GetValue`.
- A repeated `(p & f) === f` test with no update in between always gives the same answer. This holds by construction, because `BitFlags.Has` is a function of the value.
- The enum lessons' auto-numbered enums, string enums and enum merging are not modelled. The compiler assigns those values.
- In the `never` lesson, the throwing functions `a`, `b` and `c` (lines 152-154) are never called. They have the shape of `FunctionThrow` and are not modelled separately.
- The `und` falsy check in the unknown-keyword lesson (lines 69-74) is not modelled. It only logs a constant.

## Findings

| source | as written | input that shows it | evidently intended | confidence | as-written member | corrected member |
|---|---|---|---|---|---|---|
| src/01-basics-of-variables/14-primitive-type-never/index.ts:108-110 | the `catch` block holds `(err: Error) => { console.log(err.message); };`, which creates an arrow function and discards it without calling it | the lesson's script as written: `functionReturnNever()` throws "Error message", and then nothing is logged | `catch (err) { console.log(err.message); }`, logging "Error message" | high, not executed | `PrimitiveNever.TryNeverLogsNothing` | `PrimitiveNever.TryNeverLogsMessage` |

# sifted in Dafny

A model of sifted, a small JavaScript library of validation and coercion combinators. A caller builds a
*processor* out of small pieces and runs it on an input value. The result is either `Success(v)` or
`Failure(reasons)`. Each reason is a pair of a *context* (a location in the input, with the value found
there) and a message.

The model has one module per source file:

- `Types` (src/types.js) holds:
  - `Path`: `Index(n)`, or `Field(name)` for the code's `Path.Property`.
  - `Context`: `Root` or `Derived`, with `Derive` and `PathList`.
  - `Reason`.
  - `Result`, whose failures are a non-empty list.
  - `Processor`, a datatype around a pure function `Context -> Result`, with the combinators `Map`, `Of`,
    `Ap`, `Chain`, `OrElse`, `AndThen`, `OnlyIf`, `ErrorMessage`, `Asks` and `Identity`.
- `Laws` states the functor, applicative and monad laws pointwise for each context. It also states the
  difference between accumulating composition (`Ap`, `AndThen`) and short-circuiting composition (`Chain`).
- `Constraint` (src/constraint.js) holds:
  - `Exists`, `Anything`, `Check` and the comparison checks.
  - `IsA`, `IsNumber`, `IsString` and `IsArray`.
  - `Last`, `Property`, `OptionalProperty`, `RejectProperty`, `Assoc`, `Array` and `AnyLenArray`.
  - `Commute`, which models Ramda's `R.commute(Processor.of, ·)`: every processor runs on the same
    context, the values are kept in order, and the reasons accumulate in order.
- `Coercions` (src/coercion.js) holds `MkResult`, `Coercion`, `Id`, `IntegerCoercion` and `Coercer`.
- `ParseInt` is JavaScript's `parseInt(string, radix)` from section 19.2.5 of ECMA-262:
  - it removes leading white space;
  - it reads an optional sign;
  - it applies ToInt32 to the radix;
  - it strips a `0x` prefix when the radix is 0 or 16;
  - it reads the longest digit run;
  - `None` stands for NaN.
- `Numerals` renders and reads digit strings, as `Number#toString` does.
- `Values` holds the input domain: `Null | Bool | Num(int) | Str | Arr | Obj`.
  - `Null` stands for both `null` and `undefined`.
  - A context holds `None` where the code holds `Maybe.Nothing()`, and never `Some(Null)`.
  - `R.is(t)` becomes the closed kind test `HasKind`.
- `Fn` (src/fn.js) holds `FlowRight`, `FlowLeft` and `AsField`.
- `Sifted` (index.js) holds the entry point `Run(p, v)`, which runs `p` on the root context of `v`.
- `Examples` restates a selection of the repository's test scenarios about the model.
- `Findings` models five defects as written and sets each beside its corrected definition. The rest of the
  model uses the corrected definitions.

## Model

| member | source | states |
|---|---|---|
| Types.PathText | src/types.js:23-25 | an index renders as `[digits]` and a field as `["name"]`; the second character tells the two apart |
| Types.PathTextInjective | src/types.js:23-38 | two paths with the same rendering are the same path, so a rendered location is unambiguous |
| Types.Derive | src/types.js:50-60 | deriving never fails: the result is a Derived context of the given parent and path; its value is present exactly when the parent's value is present and the projection is neither null nor undefined; the value is then that projection; an absent parent gives an absent child |
| Types.PathList | src/types.js:70-84 | a Root has the empty path list; a Derived context's list is non-empty and ends with its own path |
| Types.PathListDerive | src/types.js:82-84 | deriving one step appends that step to the parent's path list |
| Types.PathListDeriveAll | src/types.js:82-84 | deriving along a list of steps appends exactly those steps, so the path-list length grows by the number of steps |
| Types.DeriveAllAbsent | src/types.js:50-60 | once a value is absent, every further derivation stays absent |
| Types.FailuresOf | src/types.js:94-98 | a result has no reasons exactly when it is a success; every failure carries at least one reason |
| Types.ApResult | src/types.js:108-113 | Validation's `ap`: succeeds iff both succeed, applies the function to the value, and concatenates both failure lists, left first |
| Types.Map | src/types.js:99-104 | `map` succeeds exactly when the processor does and applies the function to the value; a failure keeps its reasons unchanged |
| Types.Of | src/types.js:105-107 | `of(x)` succeeds with `x` on every context |
| Types.Ap | src/types.js:108-113 | `ap` runs both processors on the same context, succeeds iff both do, and reports the reasons of both in order |
| Types.Chain | src/types.js:114-120 | `chain` returns the first processor's failure as is; on success it is the continuation's result on the same context |
| Types.OrElse | src/types.js:131-139 | `orElse` keeps a success of the first processor; otherwise it is the second processor's result on the same context |
| Types.AndThen | src/types.js:141-146 | `andThen` runs both processors, keeps the second value and accumulates the reasons of both |
| Types.OnlyIf | src/types.js:148-153 | `onlyIf` runs both processors, keeps the first value and accumulates the reasons of both |
| Types.ErrorMessage | src/types.js:155-161 | a success passes through unchanged; any failure becomes exactly one reason with the new message at that context |
| Types.Asks | src/types.js:163-168 | `asks(path)` runs the processor on the context derived by `path` |
| Types.Identity | src/types.js:174-176 | `identity` succeeds with the context's possibly absent value |
| Laws.MapIdentity | tests/types_spec.js:47-50 | mapping the identity function changes nothing |
| Laws.MapComposition | tests/types_spec.js:51-54 | mapping `f` then `g` equals mapping their composition |
| Laws.ApIdentity | tests/types_spec.js:57-60 | `of(id).ap(p)` equals `p` |
| Laws.ApHomomorphism | tests/types_spec.js:70-73 | `of(f).ap(of(x))` equals `of(f(x))` |
| Laws.ApInterchange | tests/types_spec.js:74-77 | `u.ap(of(y))` equals `of(f => f(y)).ap(u)` |
| Laws.ApComposition | tests/types_spec.js:61-69 | `of(compose).ap(u).ap(v).ap(w)` equals `u.ap(v.ap(w))`, including failures and their order |
| Laws.ChainLeftIdentity | src/types.js:105-120 | `of(x).chain(f)` equals `f(x)` |
| Laws.ChainRightIdentity | src/types.js:105-120 | `p.chain(of)` equals `p` |
| Laws.ChainAssociativity | tests/types_spec.js:80-86 | `p.chain(f).chain(g)` equals `p.chain(x => f(x).chain(g))` |
| Laws.ChainShortCircuits | src/types.js:114-120 | when the processor fails, the continuation is never consulted: any two continuations give the same failure |
| Laws.AccumulateVersusShortCircuit | src/types.js:108-120 | when both fail, `andThen` reports both processors' reasons but `chain` only the first's, so strictly fewer |
| Laws.OrElseAssociative | src/types.js:134-139 | `orElse` is associative |
| Laws.AsksComposes | src/types.js:163-168 | asking `a` then `b` runs the processor at the context derived by `b` and then `a` |
| Laws.IdentityAsks | tests/types_spec.js:94-98 | `identity.asks(path)` always succeeds, and holds the projection of the value at `path` exactly when that projection exists |
| Fn.FlowRight | src/fn.js:2-11 | succeeds iff both results succeed, with the right value; the reasons of both accumulate |
| Fn.FlowLeft | src/fn.js:13-22 | succeeds iff both results succeed, with the left value; the reasons of both accumulate |
| Fn.AsField | src/fn.js:32-36 | an object whose only key is `field`, mapped to `value` |
| Fn.AndThenIsFlowRight | src/types.js:141-146 | `p.andThen(q)` on a context is `flowRight` of the two results |
| Fn.OnlyIfIsFlowLeft | src/types.js:148-153 | `p.onlyIf(q)` on a context is `flowLeft` of the two results |
| Constraint.Exists | src/constraint.js:12-15 | succeeds with the value exactly when one is present; otherwise exactly one reason "value is not defined" at the context |
| Constraint.Anything | src/constraint.js:19 | always succeeds with the possibly absent value |
| Constraint.Check | src/constraint.js:23-32 | succeeds with the unchanged value iff a value is present and the predicate holds; otherwise exactly one reason at the context, "value is not defined" if absent and the given message if not |
| Constraint.IsEq | src/constraint.js:79-81 | accepts exactly the values equal to `x` |
| Constraint.IsGt | src/constraint.js:83-85 | accepts exactly the values greater than `x`, and keeps them unchanged |
| Constraint.IsGte | src/constraint.js:87-89 | accepts exactly the values greater than or equal to `x`, and keeps them unchanged |
| Constraint.IsLt | src/constraint.js:91-93 | accepts exactly the values less than `x`, and keeps them unchanged |
| Constraint.IsLte | src/constraint.js:95-97 | accepts exactly the values less than or equal to `x`, and keeps them unchanged |
| Constraint.IsA | src/constraint.js:99-101 | accepts exactly the values of kind `t`, and keeps them unchanged |
| Constraint.IsNumberRun | src/constraint.js:103 | `isNumber` accepts exactly the present numbers and passes them unchanged; any other present value fails with the one reason `KindMessage` ("is not an instance of " followed by how JavaScript prints the constructor Number), and an absent value with "value is not defined" |
| Constraint.IsStringRun | src/constraint.js:105 | `isString` accepts exactly the present strings and passes them unchanged; any other present value fails with the one reason `KindMessage` ("is not an instance of " followed by how JavaScript prints the constructor String), and an absent value with "value is not defined" |
| Constraint.IsArrayRun | src/constraint.js:107 | `isArray` accepts exactly the present arrays and passes them unchanged; any other present value fails with the one reason `KindMessage` ("is not an instance of " followed by how JavaScript prints the constructor Array), and an absent value with "value is not defined" |
| Constraint.CommuteRun | src/constraint.js:37 | `R.commute(Processor.of, ps)` succeeds iff every processor does, with their values in order; its reasons are all reasons in declaration order |
| Constraint.CommuteSucceeds | src/constraint.js:37 | processors that all succeed on a context commute into exactly the sequence of their values, in declaration order |
| Constraint.AllFailuresAppend | src/constraint.js:37 | the reasons of two processor lists run one after the other are the first list's followed by the second's |
| Constraint.LastRun | src/constraint.js:36-38 | `last` succeeds iff every processor does, with the final processor's value; otherwise it reports every reason in declaration order |
| Constraint.Property | src/constraint.js:43-49 | an absent field fails with one "value is not defined" reason at the field, without running the constraint; a present field succeeds iff the constraint does, with the pair `[name, value]`, and otherwise reports the constraint's reasons |
| Constraint.OptionalProperty | src/constraint.js:51-61 | a present field behaves exactly as `property`; an absent field succeeds with the default pair when there is a default and with the empty entry when there is not; the default is not checked |
| Constraint.ConfiguredDefault | src/constraint.js:59 | the options' `default` field counts only when it is truthy |
| Constraint.RejectProperty | src/constraint.js:64-72 | succeeds with the empty entry exactly when the field is absent; a present field gives exactly one "is disallowed" reason at the parent context |
| Constraint.FromPairsKeys | src/constraint.js:74-77 | the object built from entries has exactly the keys of the pairs; empty entries add none |
| Constraint.FromPairsLastWins | src/constraint.js:74-77 | a key holds the value of its last pair |
| Constraint.AssocRun | src/constraint.js:74-77 | `assoc` succeeds iff every field processor does, with exactly the keys of their pairs and each key's last value; otherwise it reports every failing field's reasons in declaration order |
| Constraint.ItemProcessors | src/constraint.js:111 | the unfold makes one processor per index below the length, in ascending order, each asking `onItem` at its index |
| Constraint.Measure | src/constraint.js:113 | the first stage of `array` fails on an absent value or a non-array, and otherwise yields the array's length |
| Constraint.Limit | src/constraint.js:116 | the length constraint's reasons are reported; on success its result is the item count when it is a number, and the actual length otherwise |
| Constraint.ArrayRejectsNonArray | src/constraint.js:113 | a non-array fails with one reason before any item or the length is checked |
| Constraint.ArrayStages | src/constraint.js:113-118 | on an array, a failing length constraint's reasons are the result; otherwise the items are checked |
| Constraint.ArrayIsCommute | src/constraint.js:109-119 | on an array whose length constraint succeeds, `array` behaves as the item processors for indices 0 up to the effective length, combined with accumulation |
| Constraint.ArraySucceedsIffItems | src/constraint.js:109-119 | on an array whose length passes, the result succeeds iff every index below the effective length passes its item processor |
| Constraint.ArrayValuesAreItems | src/constraint.js:109-119 | a successful array result has the effective length and holds, at each index, the value the item processor gives there, in ascending order |
| Constraint.ArrayFailuresAreItems | src/constraint.js:109-119 | the reasons of an array result are the reasons of its failing items, in index order |
| Constraint.AnyLenArrayCoversItems | src/constraint.js:121 | `anyLenArray(onItem)` checks every item of the array, and nothing else |
| Coercions.MkResult | src/coercion.js:12-15 | `Just(v)` becomes `Success(v)`; `Nothing` becomes exactly one reason with the message at the context |
| Coercions.Coercion | src/coercion.js:18-25 | an absent input fails with "input is undefined"; a value of the wrong kind fails with "input type mismatch"; otherwise it succeeds iff the conversion gives a value, and fails with the message if not; every failure is exactly one reason at the input context |
| Coercions.Id | src/coercion.js:28-33 | succeeds with the unchanged input exactly when the input has kind `t` |
| Coercions.IntegerCoercion | src/coercion.js:36-47 | accepts exactly the strings that `parseInt(s, base)` reads as a number, with that number |
| Coercions.FoldOrElseSeed | src/coercion.js:60 | when the seed succeeds, the fold is the seed's result and no candidate matters |
| Coercions.FoldOrElseFirst | src/coercion.js:60 | when the seed fails, the fold is the result of the first candidate, in order, that succeeds |
| Coercions.FoldOrElseAllFail | src/coercion.js:60 | when the seed and every candidate fail, the fold fails |
| Coercions.CoercerKeepsKind | src/coercion.js:59-61 | an input already of kind `t` is returned unchanged, whatever the candidates |
| Coercions.CoercerFirstSuccess | src/coercion.js:59-61 | otherwise the result is that of the first candidate, in declared order, that succeeds |
| Coercions.CoercerAllFail | src/coercion.js:59-61 | when nothing succeeds, exactly one reason "No provided coercions succeeded" at the input context |
| ParseInt.TrimStart | src/coercion.js:36 | the result is the input without its leading white space: a suffix whose dropped prefix is all white space and which does not start with white space |
| ParseInt.ToInt32 | src/coercion.js:36 | the radix is reduced to a signed 32-bit integer congruent to it modulo 2^32 |
| ParseInt.ReadDigits | src/coercion.js:36 | a digit string is read exactly when it starts with a digit of the radix |
| ParseInt.ParseInt | src/coercion.js:36 | a radix outside 2..36 (other than 0) and an input that is empty after trimming give NaN |
| ParseInt.ParseIntReadsDigits | src/coercion.js:36 | a number's digits in the radix, followed by anything that is not a digit, parse back to the number |
| ParseInt.ParseIntNegative | src/coercion.js:36 | a minus sign before a number's digits gives the negated number |
| ParseInt.ParseIntHexPrefix | src/coercion.js:36 | with radix 0, a `0x` prefix switches to hexadecimal |
| ParseInt.ParseIntNoDigits | src/coercion.js:36 | an input that starts with a character that is no digit in any radix is NaN |
| ParseInt.ParseIntNoLeadingDigit | src/coercion.js:36 | an input that starts with a non-digit of the radix is NaN |
| ParseInt.TrimStartSkipsWhiteSpace | src/coercion.js:36 | leading white space is removed entirely and nothing after it is |
| Numerals.ToRadix | src/types.js:24 | a number's text in a radix is a non-empty digit string without a leading zero |
| Numerals.FromDigitsToRadix | src/types.js:24 | reading a number's digits back gives the number |
| Numerals.ToRadixInjective | src/types.js:24 | distinct numbers have distinct texts |
| Values.FromNullable | src/types.js:46-47 | null and undefined become absent; every other value is kept |
| Sifted.RunStartsAtRoot | index.js:8-10 | a run starts at the root with an empty location; the root holds the input unless it is null or undefined |
| Sifted.RunAsks | index.js:8-10 | a processor asked at a path during a run sees the input's projection there, at a one-step location |
| Examples.DeriveNestedValue | tests/types_spec.js:16-21 | `a`, `b`, then index 1 over `{a: {b: [1, 2, 3]}}` finds 2 |
| Examples.DeriveNestedPath | tests/types_spec.js:22-26 | that context's path list has the three steps |
| Examples.DeriveNestedText | tests/types_spec.js:22-26 | those steps render as `["a"]["b"][1]` |
| Examples.NestedLocation | src/types.js:90-91 | a reason at that context is located at `["a"]["b"][1]` |
| Examples.DeriveDeepValue | tests/types_spec.js:27-32 | `a`, index 0, `b`, `c`, then index 1 over `{a: [{b: {c: [3, 4]}}]}` finds 4 |
| Examples.NothingUnderNumber | tests/types_spec.js:33-34 | one more step, index 0 under that number 4, finds nothing |
| Examples.IdentityOnRoot | tests/types_spec.js:88-92 | `identity` on `Root(1)` gives `Success(Just(1))` |
| Examples.IdentityAsksField | tests/types_spec.js:94-98 | `identity.asks(Property('a'))` on `{a: 1}` gives `Just(1)` |
| Examples.ExistsCases | tests/constraint_spec.js:16-36 | `exists` on 5 and on null, and `anything` on null |
| Examples.CheckCases | tests/constraint_spec.js:37-48 | `check(isEven)` on 2 and on 3 |
| Examples.LastPasses | tests/constraint_spec.js:52-55 | `last([isEven, isPos])` on 2 is 2 |
| Examples.LastAccumulates | tests/constraint_spec.js:56-61 | `last([isEven, isPos])` on -1 gives "is not even" and then "is not positive" |
| Examples.PropertyPresent | tests/constraint_spec.js:66-69 | `property(isEven, 'a')` on `{a: 2}` gives `['a', 2]` |
| Examples.PropertyInvalid | tests/constraint_spec.js:70-73 | `property(isEven, 'a')` fails on `{a: 1}` |
| Examples.PropertyAbsent | tests/constraint_spec.js:74-77 | `property(isEven, 'a')` fails on `{b: 1}` |
| Examples.OptionalPropertyPresent | tests/constraint_spec.js:81-89 | `optionalProperty(isEven, {}, 'a')` gives `['a', 2]` on `{a: 2}` and fails on `{a: 1}` |
| Examples.OptionalPropertyNoDefault | tests/constraint_spec.js:89-92 | an absent field without a default gives the empty entry |
| Examples.OptionalPropertyDefault | tests/constraint_spec.js:93-97 | an absent field with default 4 gives `['a', 4]` |
| Examples.OptionalPropertyInvalid | tests/constraint_spec.js:98-102 | a present odd field fails despite the default |
| Examples.RejectPropertyCases | tests/constraint_spec.js:104-113 | `rejectProperty('a')` passes `{b: 1}` and rejects `{a: 1}` |
| Examples.AssocBuildsObject | tests/constraint_spec.js:123-126 | `{a: 2, b: 1, c: 4}` passes and becomes the same object |
| Examples.AssocAccumulates | tests/constraint_spec.js:127-131 | `{a: 2, b: 2}` gives exactly two reasons, for `b` and then `c` |
| Examples.ArrayPasses | tests/constraint_spec.js:137-140 | `[2, 4, 6, 8]` passes unchanged |
| Examples.ArrayAccumulates | tests/constraint_spec.js:141-145 | `[2, 5, 8, 9]` gives exactly two reasons, at indices 1 and 3 |
| Examples.ArrayRejectsObject | tests/constraint_spec.js:146-149 | `{}` is not an array |
| Examples.ComparisonCases | tests/constraint_spec.js:152-173 | `isEq(1)` accepts 1 unchanged and rejects 2; `isString` accepts "hi" unchanged and rejects 1 |
| Examples.IdCases | tests/coercion_spec.js:14-23 | `id(Number)` passes 1 and rejects "1" |
| Examples.IntegerCoercionCases | tests/coercion_spec.js:24-34 | `integerCoercion(10)` reads "1" as 1 and rejects "foo" |
| Examples.CoercerParses | tests/coercion_spec.js:36-41 | `coercer(Number, [integerCoercion(10)])` reads "1" as 1 |
| Examples.CoercerKeepsNumber | tests/coercion_spec.js:42-45 | the same coercer passes the number 1 unchanged |
| Examples.CoercerSummarises | tests/coercion_spec.js:46-49 | the same coercer fails on "foo" with the summary reason alone |
| Examples.FlowCases | tests/fn_spec.js:5-17 | `flowRight` keeps the right success and fails when either side fails |
| Examples.RunIsNumber | tests/index_spec.js:8-13 | `run(isNumber, 1)` succeeds with 1 |
| Findings.DeriveAsWritten | src/types.js:46-60 | as written, deriving under an absent value gives `Just(Nothing)`, which counts as present; under a present value it agrees with `Derive` |
| Findings.DeriveAsWrittenAgrees | src/types.js:50-60 | under a present parent, the derive as written and `Derive` agree on whether the child is present |
| Findings.DeriveAbsentParentDiffers | src/types.js:58-59 | under the absent root, the code as written reports a present child and `Derive` an absent one |
| Findings.LastAsWrittenRun | src/constraint.js:36-38 | as written, `last` accumulates every reason but yields the values of all processors after the first |
| Findings.LastAsWrittenWrapsValue | src/constraint.js:37 | `last([isEven, isPos])` on 2 yields `[2]` as written and 2 after correction |
| Findings.FromPairsAsWritten | src/constraint.js:76 | as written, under a `fromPairs` that does not skip empty pairs, every entry writes a key, an empty entry writing "undefined" |
| Findings.AssocAsWrittenAddsUndefined | src/constraint.js:74-77 | `assoc([rejectProperty('a')])` on `{}` has the key "undefined" as written and is the empty object after correction |
| Findings.ErrorMessageAsWritten | src/types.js:155-161 | as written, every run of an `errorMessage` processor throws |
| Findings.ErrorMessageAsWrittenThrows | src/types.js:158-159 | the code as written throws even on success, while `ErrorMessage` passes a success and turns a failure into one reason |
| Findings.CoercerAsWritten | src/coercion.js:59-61 | as written, a coercer never yields a result: `coercer(t, cs)` throws when it is built, because `R.reduce` is handed the undefined `fn.orElse` |
| Findings.CoercerAsWrittenThrows | src/coercion.js:60 | `coercer(Number, [integerCoercion(10)])` on "1" throws as written and gives 1 after correction |

## Left out

- Constraint.Last: requires a non-empty list. On `[]` the code as written gives `Success([])`, and there is
  no "final value" to keep.
- Constraint.OptionalProperty: takes its default as an `Option`. The options object enters only through
  `Constraint.ConfiguredDefault`, which keeps a truthy `default` field.
- Constraint.IsGt, Constraint.IsGte, Constraint.IsLt, Constraint.IsLte: compare only number with number and
  string with string (`Values.Less`). Every other pair is unordered. JavaScript's relational operators would
  convert mixed operands, for example `"2" > 1`; that is not modelled.
- Constraint.IsEq: uses structural equality, which matches `R.equals` on this value domain.
- Types.Derive: reads own fields only. JavaScript member access also finds inherited members such as
  `toString`, and numeric-string field names on arrays and strings; `Types.Project` gives those `Null`.
- Coercions.IntegerCoercion: integers are unbounded. The precision loss of JavaScript numbers above 2^53,
  and `-0`, are not modelled. Characters are Unicode code points rather than UTF-16 code units.
- Types.Project, Types.Derive, Values.StrLess and Values.Less: strings are sequences of Unicode code points,
  not UTF-16 code units. A string's `length`, indexing into a string and the order of strings therefore differ
  from JavaScript on characters outside the Basic Multilingual Plane: `"😀".length` is 2 in JavaScript and 1
  here, and `"😀"[0]` is a lone surrogate in JavaScript. This also reaches `IsGt`, `IsGte`, `IsLt` and `IsLte`.
- Values.Text: `Null` stands for both `null` and `undefined` and renders as "null". JavaScript's
  `String(undefined)` is "undefined", so a message built from `undefined`, such as that of `isEq(undefined)`,
  reads "is not equal to undefined" in the code and "is not equal to null" here.
- The Laws module compares processors pointwise, by their results on each context, since Dafny cannot equate
  function values.
- Examples.Even and Examples.Odd: these test predicates accept numbers only. JavaScript's `%` would also
  convert strings.
- `floatCoercion` (src/coercion.js:49-55): it depends on `parseFloat` and floating-point numbers.
- `Processor.prototype.concat` (src/types.js:121-130): it nests one validation inside another and is not part
  of the accumulating or short-circuiting composition.
- The value part of `Reason.prototype.toString` (src/types.js:90-92): it relies on JavaScript's implicit
  conversion of a Maybe to a string. The location part is `Types.Location`.
- `fn.unimplemented`, `fn.noop` and the TypeError thrown when a value has no `of` (src/fn.js:4-6, 15-18, 24-30):
  `Fn.FlowRight` and `Fn.FlowLeft` take validation results directly.
- `runCont` (index.js:12-15): a callback adapter around `run`. src/index.js repeats index.js.
- gulpfile.js: build tooling.
- The `isIndex`, `isProperty`, `isRoot` and `isDerived` prototype flags: `Path` and `Context` are closed
  datatypes here.
- Messages are kept as the code writes them, including `isLte`'s "is not greater than or equal to"
  (src/constraint.js:96). `Values.Text` renders values inside messages as `String(v)` would for this domain, except for `undefined` (see `Values.Text` below).
- The nested composition scenario of tests/constraint_spec.js:175-191 is not restated as one lemma; its parts
  are `Constraint.AssocRun`, `Constraint.ArraySucceedsIffItems` and `Constraint.OptionalProperty`.

## Findings

| source | as written | input that shows it | evidently intended | confidence | as-written member | corrected member |
|---|---|---|---|---|---|---|
| src/types.js:47,58-59 | under an absent parent, `Maybe.Nothing()` is passed to `Context.Derived`, whose `fromNullable` wraps it as `Just(Nothing)`: a present value | `Context.Root(null).derive(Path.Property('a'))` | the derived value is absent | not executed; high | Findings.DeriveAbsentParentDiffers | Types.Derive |
| src/types.js:159 | `Reason(context, msg)` is called without `new` in a strict-mode module, and is evaluated before `fold` on every run, so every run throws a TypeError; were it to return, a failure would become a bare reason rather than a failed result | any processor `p.errorMessage(msg)` on any context | a success passes through; a failure becomes `Failure([Reason(context, msg)])` | not executed; high | Findings.ErrorMessageAsWrittenThrows | Types.ErrorMessage |
| src/coercion.js:60 | `R.reduce(fn.orElse, ...)` uses `fn.orElse`, which src/fn.js does not export, so the reduce throws when `coercer(t, cs)` is built, once there is a candidate | `coercer(Number, [integerCoercion(10)])` on `'1'` | candidates are tried in order with `Processor.prototype.orElse`, closed by one summary reason | not executed; high | Findings.CoercerAsWrittenThrows | Coercions.CoercerFirstSuccess |
| src/constraint.js:37 | `R.tail` keeps the values of every processor but the first | `last([isEven, isPos])` on `2` yields `[2]` | the final processor's value, `2` | not executed; high | Findings.LastAsWrittenWrapsValue | Constraint.LastRun |
| src/constraint.js:76 | the empty entry `[]` of an absent optional or rejected field reaches `R.fromPairs`, which writes the key "undefined" | `assoc([rejectProperty('a')])` on `{}` | empty entries add no key | not executed; low: depends on the Ramda version, which the repository's files do not pin; a `fromPairs` that skips empty pairs already behaves as intended | Findings.AssocAsWrittenAddsUndefined | Constraint.AssocRun |

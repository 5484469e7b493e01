# ModelValidator in Dafny

This project models `ModelValidator<V>`, a chainable validator from a small TypeScript library. A caller builds a validator around a model and chains field-level checks. Each check takes a selector that projects one field out of the model. The checks cover:

- null, undefined and empty-string absence;
- string length against a bound or an open range;
- strict number comparison;
- a numeric-kind assertion;
- a boolean polarity assertion.

The validator has two states, valid and invalid. Invalid absorbs every later check. A check only writes its message when it has just turned the status to false. So the message that survives is that of the first failing check, or `"No Error"` when no check failed.

The class mutates itself and returns `this`. Here the state is an immutable record `Validator(model, isValidStatus, errorMessage)`, and each check method is a pure function from one state to the next.

Modules:

- `Values` (`values.dfy`): the selected value (`Null | Undefined | Str | Num | Bool`) and how a template literal prints it into a message. It includes decimal printing of integers: the printed digits are proved to read back as the number (after a '-' for a negative one), and distinct integers are proved to print differently.
- `ModelValidator` (`validator.dfy`): the state record, the constructor, the private helpers, the two accessors and the ten single checks. The string-literal parameters become the datatypes `Bound`, `Condition`, `NumberRequest` and `Statement`.
- `Chain` (`chain.dfy`): a fluent chain as a list of `Check` calls (`Run`). It also gives an independent reference semantics: `Passes` (each check's condition), `FailureMessage`, `FirstFailure` and `Expected`. The theorems connect the two.
- `Sequences` (`sequences.dfy`): the seven `*Sequence` methods as loops, as in the class. The loop invariant says the state so far is `Run` of the single checks on the selectors seen so far, in list order. Each method is proved to end in the first-failure outcome of that chain.
- `CheckProperties` (`properties.dfy`): boundary behaviour of each predicate, the `isNumber` defect and worked examples.

Selectors are typed as the TypeScript signatures declare them:

- `V -> Value` where the class says `any`;
- `V -> string` for `String`;
- `V -> int` for `number`;
- `V -> bool` for `boolean`.

`multipleStringInRangeSequence` declares its selectors as `any` but hands them to `stringRange`, so they are `V -> string` here.

`isNotUndefinedOrNullOrEmptySequence` declares its selectors as `String` but hands them to `isNotUndefinedOrNullOrEmpty`, which takes `any`, so they are `V -> Value` here.

The check the code spells `stringLenght` is `StringLength` here. `errorMessage` is declared optional, but the constructor always sets it, so it is a plain string here.

The `isNumber` check is modelled as written. `Number(value) === NaN` compares with IEEE 754 equality, under which NaN equals nothing, so the comparison is always false. As a result `'isNumber'` never rejects anything, and `'isNotNumber'` rejects every value with the "is numeric" message. `CoercionEqualsNaN` is that constant comparison. `CheckProperties.IsNumberDefect` states the consequence for all values. The intended "is-NaN" behaviour is not substituted, because every chain that uses the check depends on the behaviour as written.

## Model

| member | source | states |
|---|---|---|
| ModelValidator.New | src/index.ts:8-12 | A fresh validator holds the given model, has status true and message "No Error". |
| ModelValidator.SetErrorMessage | src/index.ts:15-18 | The message is overwritten only when the status is already false; status and model are untouched; a valid state is returned unchanged. |
| ModelValidator.SetInvalidStatus | src/index.ts:21 | The status becomes false; model and message stay. |
| ModelValidator.TellMeValidationStatus | src/index.ts:24-29 | The reported status is true exactly when the validator is not invalid. |
| ModelValidator.IsNotNull | src/index.ts:37-46 | From invalid: unchanged. From valid: stays valid (and unchanged) iff the selected value is not null; `undefined` passes. On failure the message is the "is NULL" message for that value. |
| ModelValidator.IsNotUndefined | src/index.ts:49-58 | As IsNotNull with `undefined` as the rejected value and the "is UNDEFINED" message. |
| ModelValidator.IsNotEmpty | src/index.ts:61-70 | From valid: passes iff the selected string is non-empty. A failure records the EMPTY message of the empty string. |
| ModelValidator.IsNotUndefinedOrNullOrEmpty | src/index.ts:73-83 | From valid: passes iff the value is none of undefined, null, "". Other falsy values pass. On failure the combined message. |
| ModelValidator.IsNotUndefinedOrNull | src/index.ts:86-96 | From valid: passes iff the value is neither undefined nor null; on failure the combined message. |
| ModelValidator.StringLength | src/index.ts:99-113 | From valid: MAX passes iff length <= limit, MIN iff length >= limit. On failure the "out of length" message names the bound and the limit. |
| ModelValidator.StringRange | src/index.ts:116-128 | From valid: passes iff bottomLevel < length < topLevel. On failure the message names both levels, bottom first. |
| ModelValidator.NumberCompare | src/index.ts:131-141 | From valid: 'Larger than' passes iff value > reference, 'Smaller than' iff value < reference. On failure the message names the opposite direction. |
| ModelValidator.IsNumber | src/index.ts:144-160 | From valid: rejects only when the request disagrees with the NaN comparison. The message depends on the request. |
| ModelValidator.IsTrueOrFalse | src/index.ts:163-179 | From valid: passes iff the boolean has the expected polarity. On failure the message is the polarity message with the key name. |
| Chain.FirstFailure | src/index.ts:31-32 | The position returned is the first check in the chain that rejects the model. It is absent iff every check accepts. |
| Chain.ApplyIsTransition | src/index.ts:36-179 | Every single check is the two-state transition: identity when invalid or when its condition holds; otherwise status false and its own message. |
| Chain.InvalidIsAbsorbing | src/index.ts:38-39 | No chain of checks changes an invalid validator. |
| Chain.RunIsExpected | src/index.ts:15-45 | Any chain ends in the reference outcome. If the validator was valid, the status is false with the first rejecting check's message; otherwise the validator is unchanged. |
| Chain.RunAppend | src/index.ts:45 | Chaining calls on the returned validator is the same as running the concatenated chain. |
| Chain.RunStep | src/index.ts:184-186 | One more loop iteration applies the next check to the state the previous iterations produced. |
| Chain.RunKeepsModelAndNeverRevalidates | src/index.ts:4-12 | A chain never changes the model. A chain that ends valid started valid and changed nothing. |
| Chain.FailureIsFrozen | src/index.ts:15-18 | Once a chain prefix has failed, later checks change neither status nor message. |
| Chain.FreshChainReportsFirstFailure | src/index.ts:8-32 | From a fresh validator: status true iff all checks pass, with message "No Error". Otherwise the message is that of the first failing check. |
| Chain.StatusAgreesWithMessage | src/index.ts:29-32 | From a fresh validator, after any chain, the reported status is true exactly when the reported problem is "No Error": every failure message differs from it. |
| Sequences.IsNotUndefinedOrNullSequence | src/index.ts:183-188 | The loop ends in the first-failure outcome of isNotUndefinedOrNull applied to the selectors in list order. From valid it passes iff no selected value is undefined or null. |
| Sequences.IsNotUndefinedOrNullOrEmptySequence | src/index.ts:191-196 | The loop ends in the first-failure outcome of isNotUndefinedOrNullOrEmpty applied in list order. From valid it passes iff no selected value is undefined, null or "". |
| Sequences.IsNotUndefinedSequence | src/index.ts:199-204 | The loop ends in the first-failure outcome of isNotUndefined applied in list order. From valid it passes iff no selected value is undefined. |
| Sequences.IsNotNullSequence | src/index.ts:207-212 | The loop ends in the first-failure outcome of isNotNull applied in list order. From valid it passes iff no selected value is null. |
| Sequences.MultipleStringInRangeSequence | src/index.ts:215-220 | The loop ends in the first-failure outcome of stringRange(selector, topLevel, bottomLevel) applied in list order, so the levels are correctly swapped. From valid it passes iff every length lies strictly between bottomLevel and topLevel. |
| Sequences.BooleanSequence | src/index.ts:223-228 | The loop ends in the first-failure outcome of isTrueOrFalse with the default key name, applied in list order. From valid it passes iff every boolean has the expected polarity. |
| Sequences.IsNumberSequence | src/index.ts:231-236 | The loop ends in the first-failure outcome of isNumber applied in list order. From valid, 'isNumber' leaves the state unchanged and 'isNotNumber' fails iff the list is non-empty. |
| CheckProperties.StringLengthMaxBoundary | src/index.ts:105-106 | With MAX, length == limit passes and limit+1 fails with the length message. |
| CheckProperties.StringLengthMinBoundary | src/index.ts:107-108 | With MIN, length == limit passes and limit-1 fails with the length message. |
| CheckProperties.StringRangeIsOpen | src/index.ts:122-125 | A length equal to either level fails, with the range message. |
| CheckProperties.StringRangeExample | src/index.ts:122 | For levels top 10 and bottom 2, lengths 2 and 10 fail and lengths 3 and 9 pass. |
| CheckProperties.NumberCompareIsStrict | src/index.ts:136-137 | A value equal to the reference fails both directions. |
| CheckProperties.NumberCompareExample | src/index.ts:136-139 | 'Larger than' 5: 6 passes, 5 and 4 fail, and 5 gives "Validation Error: 5 is smaller than 5". |
| CheckProperties.AbsenceChecksAreStrict | src/index.ts:42-91 | The absence checks use strict inequality. Undefined passes isNotNull and null passes isNotUndefined. 0, false and " " are not empty, and "" is. |
| CheckProperties.IsNumberDefect | src/index.ts:149-157 | 'isNumber' never changes a valid state. 'isNotNumber' always invalidates it with the "is numeric" message. |
| CheckProperties.IsNumberDefectExample | src/index.ts:149-156 | The text "abc" passes 'isNumber' and fails 'isNotNumber' with "Value abc is numeric, but should not.". |
| CheckProperties.BooleanMessageNamesKey | src/index.ts:163-175 | A failing boolean check's message starts with its key name. |
| CheckProperties.EmptyNameExample | src/index.ts:61-69 | For the model { name: "", age: -1 }, isNotEmpty(name) then numberCompare(age, 'Larger than', 0) fails with "Validation Error:  is EMPTY". |
| CheckProperties.EmptyNameChainExample | src/index.ts:131-139 | In the same chain the first failure is position 0. The age check would also fail, but leaves no trace. |
| Values.RenderReadsBack | src/index.ts:44-156 | A `${value}` substitution in a message shows a string as itself, an integer as canonical decimal digits that read back as the number (after a '-' when negative), null and undefined as "null" and "undefined", and a boolean as "true" or "false". |
| Values.IntToDecimal | src/index.ts:139 | A printed integer is a canonical digit run, preceded by '-' exactly when negative. |
| Values.NatToDecimalRoundTrip | src/index.ts:110 | Reading back the printed digits of a number gives the number. |
| Values.IntToDecimalInjective | src/index.ts:125 | Distinct integers print differently. |

## Left out

- JavaScript number semantics: values and bounds are unbounded integers. Fractions, NaN, Infinity, `-0` and the precision limit past 2^53 are not modelled.
- `Number(value)` coercion: the result of `Number(value) === NaN` does not depend on it, so it is not modelled.
- Template-literal printing of values the five-case `Value` cannot hold (objects, arrays, symbols) is not modelled.
- Integers of magnitude 10^21 or more print in exponent form in JavaScript; `IntToDecimal` always prints plain decimal.
- String length is `|s|` on a Dafny string; JavaScript counts UTF-16 code units.
- Selectors are total functions. A selector that throws at run time is not modelled.
- `.length` of a value that is not a string is not modelled, and neither is a boxed `String` object, which is never `===` the empty string, so `isNotEmpty` accepts it. The typed selectors exclude both.
- `stringLenght` with a status that is neither 'MAX' nor 'MIN' leaves the status true. The `Bound` datatype rules that input out, as the TypeScript type does.
- Object identity: the shared mutable object and the fluent `return this` aliasing become returned values.
- `numberCompare` treats any condition string other than 'Larger than' as 'Smaller than'; `isNumber` and `isTrueOrFalse` pass on a request or statement string outside their declared values. The datatypes `Condition`, `NumberRequest` and `Statement` rule these inputs out, as the TypeScript types do.
- `whereIsTheProblem` and `tellMeValidationStatus` have no lemma saying they change nothing: every function here is pure, so that holds by construction.
- `isModelInvalid` (src/index.ts:24) is the guard predicate `IsModelInvalid`, with no contract of its own. What it guards is stated by each check's clause that an invalid validator is returned unchanged, and by `Chain.InvalidIsAbsorbing`.

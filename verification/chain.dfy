/** A chain of checks, as a caller builds it with the fluent interface
    (`new ModelValidator(m).isNotEmpty(...).numberCompare(...)`), and the
    first-failure semantics it is meant to have, stated independently of the
    check implementations. */
module Chain {
  import opened Values
  import opened ModelValidator

  datatype Option<T> = None | Some(value: T)

  /** One call of a check method together with its arguments. */
  datatype Check<!V> =
    | NotNull(selector: V -> Value)
    | NotUndefined(selector: V -> Value)
    | NotEmpty(text: V -> string)
    | NotUndefinedOrNullOrEmpty(selector: V -> Value)
    | NotUndefinedOrNull(selector: V -> Value)
    | LengthBound(text: V -> string, bound: Bound, limit: int)
    | LengthRange(text: V -> string, topLevel: int, bottomLevel: int)
    | Compare(number: V -> int, condition: Condition, reference: int)
    | NumberKind(selector: V -> Value, request: NumberRequest)
    | Polarity(flag: V -> bool, statement: Statement, keyName: string)

  /** Makes the call `c` on `v`. */
  function Apply<V>(v: Validator<V>, c: Check<V>): Validator<V> {
    match c
    case NotNull(sel) => IsNotNull(v, sel)
    case NotUndefined(sel) => IsNotUndefined(v, sel)
    case NotEmpty(sel) => IsNotEmpty(v, sel)
    case NotUndefinedOrNullOrEmpty(sel) => IsNotUndefinedOrNullOrEmpty(v, sel)
    case NotUndefinedOrNull(sel) => IsNotUndefinedOrNull(v, sel)
    case LengthBound(sel, bound, limit) => StringLength(v, sel, bound, limit)
    case LengthRange(sel, top, bottom) => StringRange(v, sel, top, bottom)
    case Compare(sel, condition, reference) => NumberCompare(v, sel, condition, reference)
    case NumberKind(sel, request) => IsNumber(v, sel, request)
    case Polarity(sel, statement, keyName) => IsTrueOrFalse(v, sel, statement, keyName)
  }

  /** Makes the calls of `cs` on `v`, first to last. */
  function Run<V>(v: Validator<V>, cs: seq<Check<V>>): Validator<V>
    decreases |cs|
  {
    if |cs| == 0 then v else Run(Apply(v, cs[0]), cs[1..])
  }

  // REFERENCE SEMANTICS

  /** Whether check `c` accepts `model`: the documented condition of each check
      method (with `isNumber`'s comparison as it evaluates, see CoercionEqualsNaN). */
  predicate Passes<V>(c: Check<V>, model: V) {
    match c
    case NotNull(sel) => sel(model) != Null
    case NotUndefined(sel) => sel(model) != Undefined
    case NotEmpty(sel) => |sel(model)| != 0
    case NotUndefinedOrNullOrEmpty(sel) => !(sel(model).Null? || sel(model).Undefined? || sel(model) == Str([]))
    case NotUndefinedOrNull(sel) => !(sel(model).Null? || sel(model).Undefined?)
    case LengthBound(sel, Max, limit) => |sel(model)| <= limit
    case LengthBound(sel, Min, limit) => limit <= |sel(model)|
    case LengthRange(sel, top, bottom) => bottom < |sel(model)| < top
    case Compare(sel, LargerThan, reference) => reference < sel(model)
    case Compare(sel, SmallerThan, reference) => sel(model) < reference
    case NumberKind(sel, IsNumberRequest) => !CoercionEqualsNaN(sel(model))
    case NumberKind(sel, IsNotNumberRequest) => CoercionEqualsNaN(sel(model))
    case Polarity(sel, ShouldBeTrue, _) => sel(model)
    case Polarity(sel, ShouldBeFalse, _) => !sel(model)
  }

  /** The message check `c` records when it rejects `model`. */
  function FailureMessage<V>(c: Check<V>, model: V): string {
    match c
    case NotNull(sel) => NullMessage(sel(model))
    case NotUndefined(sel) => UndefinedMessage(sel(model))
    case NotEmpty(sel) => EmptyMessage(sel(model))
    case NotUndefinedOrNullOrEmpty(sel) => UndefinedOrNullOrEmptyMessage(sel(model))
    case NotUndefinedOrNull(sel) => UndefinedOrNullMessage(sel(model))
    case LengthBound(sel, bound, limit) => LengthMessage(sel(model), bound, limit)
    case LengthRange(sel, top, bottom) => RangeMessage(sel(model), top, bottom)
    case Compare(sel, condition, reference) => CompareMessage(sel(model), condition, reference)
    case NumberKind(sel, IsNumberRequest) => NotNumericMessage(sel(model))
    case NumberKind(sel, IsNotNumberRequest) => NumericMessage(sel(model))
    case Polarity(_, statement, keyName) => PolarityMessage(statement, keyName)
  }

  /** The position of the first check of `cs` that rejects `model`, if any. */
  function FirstFailure<V>(cs: seq<Check<V>>, model: V): (k: Option<nat>)
    ensures k.None? <==> forall i | 0 <= i < |cs| :: Passes(cs[i], model)
    ensures k.Some? ==> k.value < |cs| && !Passes(cs[k.value], model)
    ensures k.Some? ==> forall i | 0 <= i < k.value :: Passes(cs[i], model)
    decreases |cs|
  {
    if |cs| == 0 then None
    else if !Passes(cs[0], model) then Some(0)
    else
      match FirstFailure(cs[1..], model)
      case None => None
      case Some(k) => Some(k + 1)
  }

  /** The outcome the chain promises: an invalid validator stays as it is;
      a valid one becomes invalid with the message of the first rejecting
      check, or stays as it is when every check accepts. */
  function Expected<V>(v: Validator<V>, cs: seq<Check<V>>): Validator<V> {
    if !v.isValidStatus then v
    else
      match FirstFailure(cs, v.model)
      case None => v
      case Some(k) => v.(isValidStatus := false, errorMessage := FailureMessage(cs[k], v.model))
  }

  // PROPERTIES

  /** Every single check is the transition of the two-state machine: identity
      on an invalid validator, identity on acceptance, and on rejection the
      status drops to false and the check's own message is recorded. */
  lemma ApplyIsTransition<V>(v: Validator<V>, c: Check<V>)
    ensures !v.isValidStatus ==> Apply(v, c) == v
    ensures v.isValidStatus && Passes(c, v.model) ==> Apply(v, c) == v
    ensures v.isValidStatus && !Passes(c, v.model) ==>
              Apply(v, c) == v.(isValidStatus := false, errorMessage := FailureMessage(c, v.model))
  {
    match c
    case Polarity(sel, statement, keyName) =>
      if v.isValidStatus {
        if statement == ShouldBeTrue { assert Passes(c, v.model) == sel(v.model); }
      }
    case _ =>
  }

  /** Invalid is absorbing: no chain changes an invalid validator. */
  lemma {:induction false} InvalidIsAbsorbing<V>(v: Validator<V>, cs: seq<Check<V>>)
    requires !v.isValidStatus
    ensures Run(v, cs) == v
    decreases |cs|
  {
    if |cs| > 0 {
      ApplyIsTransition(v, cs[0]);
      InvalidIsAbsorbing(v, cs[1..]);
    }
  }

  /** A chain reports exactly its first failure. */
  lemma {:induction false} RunIsExpected<V>(v: Validator<V>, cs: seq<Check<V>>)
    ensures Run(v, cs) == Expected(v, cs)
    decreases |cs|
  {
    if |cs| == 0 {
    } else if !v.isValidStatus {
      InvalidIsAbsorbing(v, cs);
    } else {
      ApplyIsTransition(v, cs[0]);
      if Passes(cs[0], v.model) {
        RunIsExpected(v, cs[1..]);
        match FirstFailure(cs[1..], v.model)
        case None =>
        case Some(k) => assert cs[1..][k] == cs[k + 1];
      } else {
        InvalidIsAbsorbing(Apply(v, cs[0]), cs[1..]);
      }
    }
  }

  /** Chaining one call after another is running the concatenated chain. */
  lemma {:induction false} RunAppend<V>(v: Validator<V>, cs: seq<Check<V>>, ds: seq<Check<V>>)
    ensures Run(v, cs + ds) == Run(Run(v, cs), ds)
    decreases |cs|
  {
    if |cs| > 0 {
      assert (cs + ds)[0] == cs[0];
      assert (cs + ds)[1..] == cs[1..] + ds;
      RunAppend(Apply(v, cs[0]), cs[1..], ds);
    } else {
      assert cs + ds == ds;
    }
  }

  /** Running one more call of a chain is applying it to what the prefix produced. */
  lemma {:induction false} RunStep<V>(v: Validator<V>, cs: seq<Check<V>>, i: nat)
    requires i < |cs|
    ensures Run(v, cs[..i + 1]) == Apply(Run(v, cs[..i]), cs[i])
  {
    assert cs[..i + 1] == cs[..i] + [cs[i]];
    RunAppend(v, cs[..i], [cs[i]]);
    assert [cs[i]][1..] == [];
  }

  /** A chain leaves the model alone and never turns invalid into valid. */
  lemma {:induction false} RunKeepsModelAndNeverRevalidates<V>(v: Validator<V>, cs: seq<Check<V>>)
    ensures Run(v, cs).model == v.model
    ensures Run(v, cs).isValidStatus ==> v.isValidStatus && Run(v, cs) == v
  {
    RunIsExpected(v, cs);
  }

  /** Once a prefix of the chain has failed, its message is final. */
  lemma {:induction false} FailureIsFrozen<V>(v: Validator<V>, cs: seq<Check<V>>, ds: seq<Check<V>>)
    requires !Run(v, cs).isValidStatus
    ensures Run(v, cs + ds) == Run(v, cs)
  {
    RunAppend(v, cs, ds);
    InvalidIsAbsorbing(Run(v, cs), ds);
  }

  /** From a fresh validator: the status is true exactly when every check
      accepts; then the message is still "No Error", and otherwise it is the
      message of the first rejecting check. */
  lemma {:induction false} FreshChainReportsFirstFailure<V>(model: V, cs: seq<Check<V>>)
    ensures TellMeValidationStatus(Run(New(model), cs)).status <==>
              forall i | 0 <= i < |cs| :: Passes(cs[i], model)
    ensures (forall i | 0 <= i < |cs| :: Passes(cs[i], model)) ==>
              WhereIsTheProblem(Run(New(model), cs)) == NoError
    ensures forall k | 0 <= k < |cs| ::
              !Passes(cs[k], model) && (forall i | 0 <= i < k :: Passes(cs[i], model)) ==>
                WhereIsTheProblem(Run(New(model), cs)) == FailureMessage(cs[k], model)
  {
    RunIsExpected(New(model), cs);
    forall k | 0 <= k < |cs| && !Passes(cs[k], model) && (forall i | 0 <= i < k :: Passes(cs[i], model))
      ensures WhereIsTheProblem(Run(New(model), cs)) == FailureMessage(cs[k], model)
    {
      var f := FirstFailure(cs, model);
      assert f.Some?;
      assert f.value == k;
    }
  }

  /** Every failure message is longer than "No Error", so no failure can
      be mistaken for the absence of one. */
  lemma FailureMessageIsLong<V>(c: Check<V>, model: V)
    ensures |FailureMessage(c, model)| > |NoError|
  {
  }

  /** What a caller reads back from a fresh validator after any chain: the
      reported status is true exactly when the reported problem is "No Error". */
  lemma {:induction false} StatusAgreesWithMessage<V>(model: V, cs: seq<Check<V>>)
    ensures TellMeValidationStatus(Run(New(model), cs)).status <==>
              WhereIsTheProblem(Run(New(model), cs)) == NoError
  {
    RunIsExpected(New(model), cs);
    match FirstFailure(cs, model)
    case None =>
    case Some(k) => FailureMessageIsLong(cs[k], model);
  }
}

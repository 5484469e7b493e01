/** The ModelValidator class: a short-circuiting two-state validator over a
    model of type V. The class mutates itself and returns `this`; here the
    state is an immutable record and every check returns the next state. */
module ModelValidator {
  import opened Values

  /** Bound of a string length check (`'MAX' | 'MIN'`). */
  datatype Bound = Max | Min

  /** Direction of a number comparison (`'Smaller than' | 'Larger than'`). */
  datatype Condition = SmallerThan | LargerThan

  /** Request of a number-kind check (`'isNumber' | 'isNotNumber'`). */
  datatype NumberRequest = IsNumberRequest | IsNotNumberRequest

  /** Expected polarity of a boolean check (`'Should be True' | 'Should be False'`). */
  datatype Statement = ShouldBeTrue | ShouldBeFalse

  /** The validator's fields: the model, the status flag and the first error message. */
  datatype Validator<V> = Validator(model: V, isValidStatus: bool, errorMessage: string)

  /** What `tellMeValidationStatus` returns: `{ status }`. */
  datatype StatusReport = StatusReport(status: bool)

  const NoError := "No Error"

  /** The label `isTrueOrFalse` puts in its message when the caller gives none. */
  const UnsetKeyName := "Unset key name"

  // MESSAGES

  function BoundName(bound: Bound): string {
    match bound
    case Max => "MAX"
    case Min => "MIN"
  }

  /** The shape shared by the absence, length and comparison messages. */
  function ValidationError(shown: string, condition: string): string {
    "Validation Error: " + shown + " is " + condition
  }

  function NullMessage(x: Value): string {
    ValidationError(Render(x), "NULL")
  }

  function UndefinedMessage(x: Value): string {
    ValidationError(Render(x), "UNDEFINED")
  }

  function EmptyMessage(s: string): string {
    ValidationError(s, "EMPTY")
  }

  function UndefinedOrNullOrEmptyMessage(x: Value): string {
    ValidationError(Render(x), "UNDEFINED or NULL or EMPTY")
  }

  function UndefinedOrNullMessage(x: Value): string {
    ValidationError(Render(x), "UNDEFINED or NULL")
  }

  function LengthMessage(s: string, bound: Bound, limit: int): string {
    ValidationError(s, "out of length " + BoundName(bound) + " " + IntToDecimal(limit) + " characters")
  }

  function RangeMessage(s: string, topLevel: int, bottomLevel: int): string {
    ValidationError(s, "out of range from " + IntToDecimal(bottomLevel) + " to " + IntToDecimal(topLevel))
  }

  /** Names the opposite of the requested direction, whether the value was
      equal to the reference or on the wrong side of it. */
  function CompareMessage(x: int, condition: Condition, reference: int): string {
    var opposite := if condition == LargerThan then "smaller" else "larger";
    ValidationError(IntToDecimal(x), opposite + " than " + IntToDecimal(reference))
  }

  function NotNumericMessage(x: Value): string {
    "Value " + Render(x) + " is not numeric, but it should be."
  }

  function NumericMessage(x: Value): string {
    "Value " + Render(x) + " is numeric, but should not."
  }

  function PolarityMessage(statement: Statement, keyName: string): string {
    match statement
    case ShouldBeTrue => keyName + " model value should be True, but is is False."
    case ShouldBeFalse => keyName + " model value should be False, but is is True."
  }

  // STATE

  /** A fresh validator bound to `model`. */
  function New<V>(model: V): (r: Validator<V>)
    ensures r.model == model
    ensures r.isValidStatus
    ensures r.errorMessage == NoError
  {
    Validator(model, true, NoError)
  }

  predicate IsModelInvalid<V>(v: Validator<V>) {
    !v.isValidStatus
  }

  /** Records `message` only when the status has already been set to invalid. */
  function SetErrorMessage<V>(v: Validator<V>, message: string): (r: Validator<V>)
    ensures r.model == v.model && r.isValidStatus == v.isValidStatus
    ensures v.isValidStatus ==> r == v
    ensures !v.isValidStatus ==> r.errorMessage == message
  {
    if IsModelInvalid(v) then v.(errorMessage := message) else v
  }

  function SetInvalidStatus<V>(v: Validator<V>): (r: Validator<V>)
    ensures IsModelInvalid(r)
    ensures r.model == v.model && r.errorMessage == v.errorMessage
  {
    v.(isValidStatus := false)
  }

  function TellMeValidationStatus<V>(v: Validator<V>): (r: StatusReport)
    ensures r.status <==> !IsModelInvalid(v)
  {
    StatusReport(v.isValidStatus)
  }

  function WhereIsTheProblem<V>(v: Validator<V>): string {
    v.errorMessage
  }

  /** The common tail of the unary checks: reassign the status to the
      predicate's outcome, then let SetErrorMessage decide whether to write. */
  function Assign<V>(v: Validator<V>, outcome: bool, message: string): Validator<V> {
    SetErrorMessage(v.(isValidStatus := outcome), message)
  }

  // SIMPLE CHECKS

  function IsNotNull<V>(v: Validator<V>, selector: V -> Value): (r: Validator<V>)
    ensures r.model == v.model
    ensures !v.isValidStatus ==> r == v
    ensures v.isValidStatus ==> (r.isValidStatus <==> selector(v.model) != Null)
    ensures r.isValidStatus ==> r == v
    ensures v.isValidStatus && !r.isValidStatus ==> r.errorMessage == NullMessage(selector(v.model))
  {
    if IsModelInvalid(v) then v
    else
      var selectResult := selector(v.model);
      Assign(v, selectResult != Null, NullMessage(selectResult))
  }

  function IsNotUndefined<V>(v: Validator<V>, selector: V -> Value): (r: Validator<V>)
    ensures r.model == v.model
    ensures !v.isValidStatus ==> r == v
    ensures v.isValidStatus ==> (r.isValidStatus <==> selector(v.model) != Undefined)
    ensures r.isValidStatus ==> r == v
    ensures v.isValidStatus && !r.isValidStatus ==> r.errorMessage == UndefinedMessage(selector(v.model))
  {
    if IsModelInvalid(v) then v
    else
      var selectResult := selector(v.model);
      Assign(v, selectResult != Undefined, UndefinedMessage(selectResult))
  }

  function IsNotEmpty<V>(v: Validator<V>, selector: V -> string): (r: Validator<V>)
    ensures r.model == v.model
    ensures !v.isValidStatus ==> r == v
    ensures v.isValidStatus ==> (r.isValidStatus <==> |selector(v.model)| > 0)
    ensures r.isValidStatus ==> r == v
    ensures v.isValidStatus && !r.isValidStatus ==> r.errorMessage == EmptyMessage([])
  {
    if IsModelInvalid(v) then v
    else
      var selectResult := selector(v.model);
      Assign(v, selectResult != "", EmptyMessage(selectResult))
  }

  function IsNotUndefinedOrNullOrEmpty<V>(v: Validator<V>, selector: V -> Value): (r: Validator<V>)
    ensures r.model == v.model
    ensures !v.isValidStatus ==> r == v
    ensures v.isValidStatus ==> (r.isValidStatus <==> selector(v.model) !in {Undefined, Null, Str([])})
    ensures r.isValidStatus ==> r == v
    ensures v.isValidStatus && !r.isValidStatus ==>
              r.errorMessage == UndefinedOrNullOrEmptyMessage(selector(v.model))
  {
    if IsModelInvalid(v) then v
    else
      var selectResult := selector(v.model);
      Assign(v, selectResult != Undefined && selectResult != Null && selectResult != Str(""),
             UndefinedOrNullOrEmptyMessage(selectResult))
  }

  function IsNotUndefinedOrNull<V>(v: Validator<V>, selector: V -> Value): (r: Validator<V>)
    ensures r.model == v.model
    ensures !v.isValidStatus ==> r == v
    ensures v.isValidStatus ==> (r.isValidStatus <==> selector(v.model) !in {Undefined, Null})
    ensures r.isValidStatus ==> r == v
    ensures v.isValidStatus && !r.isValidStatus ==> r.errorMessage == UndefinedOrNullMessage(selector(v.model))
  {
    if IsModelInvalid(v) then v
    else
      var selectResult := selector(v.model);
      Assign(v, selectResult != Undefined && selectResult != Null, UndefinedOrNullMessage(selectResult))
  }

  /** Named `stringLenght` in the class. */
  function StringLength<V>(v: Validator<V>, selector: V -> string, bound: Bound, limit: int): (r: Validator<V>)
    ensures r.model == v.model
    ensures !v.isValidStatus ==> r == v
    ensures v.isValidStatus && bound == Max ==> (r.isValidStatus <==> |selector(v.model)| <= limit)
    ensures v.isValidStatus && bound == Min ==> (r.isValidStatus <==> |selector(v.model)| >= limit)
    ensures r.isValidStatus ==> r == v
    ensures v.isValidStatus && !r.isValidStatus ==> r.errorMessage == LengthMessage(selector(v.model), bound, limit)
  {
    if IsModelInvalid(v) then v
    else
      var selectResult := selector(v.model);
      var outcome := match bound
        case Max => |selectResult| <= limit
        case Min => |selectResult| >= limit;
      Assign(v, outcome, LengthMessage(selectResult, bound, limit))
  }

  function StringRange<V>(v: Validator<V>, selector: V -> string, topLevel: int, bottomLevel: int): (r: Validator<V>)
    ensures r.model == v.model
    ensures !v.isValidStatus ==> r == v
    ensures v.isValidStatus ==> (r.isValidStatus <==> bottomLevel < |selector(v.model)| < topLevel)
    ensures r.isValidStatus ==> r == v
    ensures v.isValidStatus && !r.isValidStatus ==>
              r.errorMessage == RangeMessage(selector(v.model), topLevel, bottomLevel)
  {
    if IsModelInvalid(v) then v
    else
      var selectResult := selector(v.model);
      Assign(v, |selectResult| > bottomLevel && |selectResult| < topLevel,
             RangeMessage(selectResult, topLevel, bottomLevel))
  }

  function NumberCompare<V>(v: Validator<V>, selector: V -> int, condition: Condition, reference: int): (r: Validator<V>)
    ensures r.model == v.model
    ensures !v.isValidStatus ==> r == v
    ensures v.isValidStatus && condition == LargerThan ==> (r.isValidStatus <==> selector(v.model) > reference)
    ensures v.isValidStatus && condition == SmallerThan ==> (r.isValidStatus <==> selector(v.model) < reference)
    ensures r.isValidStatus ==> r == v
    ensures v.isValidStatus && !r.isValidStatus ==>
              r.errorMessage == CompareMessage(selector(v.model), condition, reference)
  {
    if IsModelInvalid(v) then v
    else
      var selectResult := selector(v.model);
      var isHigherCondition := condition == LargerThan;
      Assign(v, if isHigherCondition then selectResult > reference else selectResult < reference,
             CompareMessage(selectResult, condition, reference))
  }

  /** The class computes `Number(value) === NaN`. Strict equality on numbers
      follows IEEE 754, under which NaN equals nothing, itself included, so
      the comparison is false whatever `Number` makes of the value. */
  function CoercionEqualsNaN(x: Value): bool {
    false
  }

  /** Invalidates only when the request disagrees with CoercionEqualsNaN; a
      passing request leaves the state as it was. */
  function IsNumber<V>(v: Validator<V>, selector: V -> Value, request: NumberRequest): (r: Validator<V>)
    ensures r.model == v.model
    ensures !v.isValidStatus ==> r == v
    ensures v.isValidStatus && request == IsNumberRequest ==>
              (r.isValidStatus <==> !CoercionEqualsNaN(selector(v.model)))
    ensures v.isValidStatus && request == IsNotNumberRequest ==>
              (r.isValidStatus <==> CoercionEqualsNaN(selector(v.model)))
    ensures r.isValidStatus ==> r == v
    ensures v.isValidStatus && !r.isValidStatus && request == IsNumberRequest ==>
              r.errorMessage == NotNumericMessage(selector(v.model))
    ensures v.isValidStatus && !r.isValidStatus && request == IsNotNumberRequest ==>
              r.errorMessage == NumericMessage(selector(v.model))
  {
    if IsModelInvalid(v) then v
    else
      var value := selector(v.model);
      var itIsNotNumber := CoercionEqualsNaN(value);
      if request == IsNumberRequest && itIsNotNumber then
        SetErrorMessage(SetInvalidStatus(v), NotNumericMessage(value))
      else if request == IsNotNumberRequest && !itIsNotNumber then
        SetErrorMessage(SetInvalidStatus(v), NumericMessage(value))
      else
        v
  }

  /** `keyName` is the optional `PropertyKeyName`; callers that omit it pass UnsetKeyName. */
  function IsTrueOrFalse<V>(v: Validator<V>, selector: V -> bool, statement: Statement, keyName: string): (r: Validator<V>)
    ensures r.model == v.model
    ensures !v.isValidStatus ==> r == v
    ensures v.isValidStatus && statement == ShouldBeTrue ==> (r.isValidStatus <==> selector(v.model))
    ensures v.isValidStatus && statement == ShouldBeFalse ==> (r.isValidStatus <==> !selector(v.model))
    ensures r.isValidStatus ==> r == v
    ensures v.isValidStatus && !r.isValidStatus ==> r.errorMessage == PolarityMessage(statement, keyName)
  {
    if IsModelInvalid(v) then v
    else
      var value := selector(v.model);
      if statement == ShouldBeTrue && value == false then
        SetErrorMessage(SetInvalidStatus(v), PolarityMessage(ShouldBeTrue, keyName))
      else if statement == ShouldBeFalse && value == true then
        SetErrorMessage(SetInvalidStatus(v), PolarityMessage(ShouldBeFalse, keyName))
      else
        v
  }
}

/** Boundary behaviour of the individual checks, the `isNumber` defect, and
    worked examples of whole chains. */
module CheckProperties {
  import opened Values
  import opened ModelValidator
  import opened Chain

  /** With MAX the limit itself is accepted and one more character is not. */
  lemma StringLengthMaxBoundary<V>(v: Validator<V>, selector: V -> string, limit: int)
    requires v.isValidStatus
    ensures |selector(v.model)| == limit ==> StringLength(v, selector, Max, limit) == v
    ensures |selector(v.model)| == limit + 1 ==>
              StringLength(v, selector, Max, limit) ==
                v.(isValidStatus := false, errorMessage := LengthMessage(selector(v.model), Max, limit))
  {
  }

  /** With MIN the limit itself is accepted and one character fewer is not. */
  lemma StringLengthMinBoundary<V>(v: Validator<V>, selector: V -> string, limit: int)
    requires v.isValidStatus
    ensures |selector(v.model)| == limit ==> StringLength(v, selector, Min, limit) == v
    ensures |selector(v.model)| == limit - 1 ==>
              StringLength(v, selector, Min, limit) ==
                v.(isValidStatus := false, errorMessage := LengthMessage(selector(v.model), Min, limit))
  {
  }

  /** The range is open at both ends: a length equal to either level is rejected. */
  lemma StringRangeIsOpen<V>(v: Validator<V>, selector: V -> string, topLevel: int, bottomLevel: int)
    requires v.isValidStatus
    requires |selector(v.model)| == topLevel || |selector(v.model)| == bottomLevel
    ensures !StringRange(v, selector, topLevel, bottomLevel).isValidStatus
    ensures WhereIsTheProblem(StringRange(v, selector, topLevel, bottomLevel)) ==
              RangeMessage(selector(v.model), topLevel, bottomLevel)
  {
  }

  /** Top level 10 and bottom level 2: lengths 2 and 10 fail, 3 and 9 pass. */
  lemma StringRangeExample()
    ensures !StringRange(New("ab"), s => s, 10, 2).isValidStatus
    ensures StringRange(New("abc"), s => s, 10, 2).isValidStatus
    ensures StringRange(New("abcdefghi"), s => s, 10, 2).isValidStatus
    ensures !StringRange(New("abcdefghij"), s => s, 10, 2).isValidStatus
  {
  }

  /** Both directions are strict: a value equal to the reference fails either way. */
  lemma NumberCompareIsStrict<V>(v: Validator<V>, selector: V -> int, reference: int)
    requires v.isValidStatus && selector(v.model) == reference
    ensures !NumberCompare(v, selector, LargerThan, reference).isValidStatus
    ensures !NumberCompare(v, selector, SmallerThan, reference).isValidStatus
  {
  }

  /** 'Larger than' 5: 6 passes, 5 and 4 fail; a failure says "smaller". */
  lemma NumberCompareExample()
    ensures NumberCompare(New(6), n => n, LargerThan, 5).isValidStatus
    ensures !NumberCompare(New(5), n => n, LargerThan, 5).isValidStatus
    ensures !NumberCompare(New(4), n => n, LargerThan, 5).isValidStatus
    ensures WhereIsTheProblem(NumberCompare(New(5), n => n, LargerThan, 5)) ==
              "Validation Error: 5 is smaller than 5"
  {
    assert IntToDecimal(5) == "5";
  }

  /** The absence checks compare strictly: `isNotNull` lets `undefined`
      through, `isNotUndefined` lets `null` through, and falsy values that are
      not the empty string are not "empty". */
  lemma AbsenceChecksAreStrict<V>(v: Validator<V>)
    requires v.isValidStatus
    ensures IsNotNull(v, _ => Undefined) == v
    ensures IsNotUndefined(v, _ => Null) == v
    ensures IsNotUndefinedOrNull(v, _ => Str([])) == v
    ensures IsNotUndefinedOrNullOrEmpty(v, _ => Num(0)) == v
    ensures IsNotUndefinedOrNullOrEmpty(v, _ => Bool(false)) == v
    ensures IsNotUndefinedOrNullOrEmpty(v, _ => Str(" ")) == v
    ensures !IsNotUndefinedOrNullOrEmpty(v, _ => Str([])).isValidStatus
  {
  }

  /** The `isNumber` defect: since `Number(value) === NaN` is never true,
      'isNumber' accepts every value, text included, and 'isNotNumber'
      rejects every value, with the "is numeric" message. */
  lemma IsNumberDefect<V>(v: Validator<V>, selector: V -> Value)
    requires v.isValidStatus
    ensures IsNumber(v, selector, IsNumberRequest) == v
    ensures IsNumber(v, selector, IsNotNumberRequest) ==
              v.(isValidStatus := false, errorMessage := NumericMessage(selector(v.model)))
  {
  }

  /** A concrete instance: the text "abc" passes 'isNumber', and fails
      'isNotNumber' exactly as the number 7 does. */
  lemma IsNumberDefectExample()
    ensures TellMeValidationStatus(IsNumber(New("abc"), (s: string) => Str(s), IsNumberRequest)).status
    ensures !TellMeValidationStatus(IsNumber(New(7), n => Num(n), IsNotNumberRequest)).status
    ensures WhereIsTheProblem(IsNumber(New("abc"), (s: string) => Str(s), IsNotNumberRequest)) ==
              "Value " + "abc" + " is numeric, but should not."
  {
    assert Render(Str("abc")) == "abc";
  }

  /** A failing `isTrueOrFalse` message starts with its key name, which the
      `*Sequence` form leaves at "Unset key name". */
  lemma BooleanMessageNamesKey<V>(v: Validator<V>, selector: V -> bool, statement: Statement, keyName: string)
    requires v.isValidStatus && selector(v.model) != (statement == ShouldBeTrue)
    ensures var r := IsTrueOrFalse(v, selector, statement, keyName);
            !r.isValidStatus && |r.errorMessage| > |keyName| && r.errorMessage[..|keyName|] == keyName
  {
  }

  datatype Person = Person(name: string, age: int)

  /** Model { name: "", age: -1 }: the empty name fails first, so the age
      check does not run and the empty-name message is the one reported. */
  lemma EmptyNameExample()
    ensures var r := NumberCompare(IsNotEmpty(New(Person("", -1)), (p: Person) => p.name), (p: Person) => p.age, LargerThan, 0);
            !TellMeValidationStatus(r).status && WhereIsTheProblem(r) == "Validation Error:  is EMPTY"
  {
  }

  /** The same example as a chain: position 0 is the first failure, and
      the later age check, which would fail too, leaves no trace. */
  lemma EmptyNameChainExample()
    ensures var cs := [NotEmpty((p: Person) => p.name), Compare((p: Person) => p.age, LargerThan, 0)];
            && FirstFailure(cs, Person("", -1)) == Some(0)
            && !Passes(cs[1], Person("", -1))
            && Run(New(Person("", -1)), cs) == Validator(Person("", -1), false, "Validation Error:  is EMPTY")
  {
  }
}

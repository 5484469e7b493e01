/** The `*Sequence` methods of ModelValidator: each loops over a list of
    selectors and makes one check per selector, in list order. */
module Sequences {
  import opened Values
  import opened ModelValidator
  import opened Chain

  // The chain each sequence method stands for.

  function NotUndefinedOrNullCalls<V>(sequence: seq<V -> Value>): seq<Check<V>> {
    seq(|sequence|, i requires 0 <= i < |sequence| => NotUndefinedOrNull(sequence[i]))
  }

  function NotUndefinedOrNullOrEmptyCalls<V>(sequence: seq<V -> Value>): seq<Check<V>> {
    seq(|sequence|, i requires 0 <= i < |sequence| => NotUndefinedOrNullOrEmpty(sequence[i]))
  }

  function NotUndefinedCalls<V>(sequence: seq<V -> Value>): seq<Check<V>> {
    seq(|sequence|, i requires 0 <= i < |sequence| => NotUndefined(sequence[i]))
  }

  function NotNullCalls<V>(sequence: seq<V -> Value>): seq<Check<V>> {
    seq(|sequence|, i requires 0 <= i < |sequence| => NotNull(sequence[i]))
  }

  /** Every element is checked with `stringRange(selector, topLevel, bottomLevel)`. */
  function InRangeCalls<V>(sequence: seq<V -> string>, bottomLevel: int, topLevel: int): seq<Check<V>> {
    seq(|sequence|, i requires 0 <= i < |sequence| => LengthRange(sequence[i], topLevel, bottomLevel))
  }

  /** Every element is checked with the default key name. */
  function BooleanCalls<V>(sequence: seq<V -> bool>, statement: Statement): seq<Check<V>> {
    seq(|sequence|, i requires 0 <= i < |sequence| => Polarity(sequence[i], statement, UnsetKeyName))
  }

  function NumberKindCalls<V>(sequence: seq<V -> Value>, request: NumberRequest): seq<Check<V>> {
    seq(|sequence|, i requires 0 <= i < |sequence| => NumberKind(sequence[i], request))
  }

  /** Closes a sequence method's proof: the whole list has been run, and a
      run is its first-failure outcome. */
  lemma {:induction false} Finish<V>(v: Validator<V>, cs: seq<Check<V>>)
    ensures Run(v, cs[..|cs|]) == Run(v, cs) == Expected(v, cs)
    ensures v.isValidStatus ==>
              (Expected(v, cs).isValidStatus <==> forall i | 0 <= i < |cs| :: Passes(cs[i], v.model))
  {
    assert cs[..|cs|] == cs;
    RunIsExpected(v, cs);
  }

  method IsNotUndefinedOrNullSequence<V>(v: Validator<V>, sequence: seq<V -> Value>) returns (r: Validator<V>)
    ensures r == Expected(v, NotUndefinedOrNullCalls(sequence))
    ensures v.isValidStatus ==>
              (r.isValidStatus <==> forall i | 0 <= i < |sequence| :: sequence[i](v.model) !in {Undefined, Null})
  {
    ghost var calls := NotUndefinedOrNullCalls(sequence);
    r := v;
    for i := 0 to |sequence|
      invariant r == Run(v, calls[..i])
    {
      RunStep(v, calls, i);
      r := IsNotUndefinedOrNull(r, sequence[i]);
    }
    forall i | 0 <= i < |sequence|
      ensures Passes(calls[i], v.model) <==> sequence[i](v.model) !in {Undefined, Null}
    {
    }
    Finish(v, calls);
  }

  method IsNotUndefinedOrNullOrEmptySequence<V>(v: Validator<V>, sequence: seq<V -> Value>) returns (r: Validator<V>)
    ensures r == Expected(v, NotUndefinedOrNullOrEmptyCalls(sequence))
    ensures v.isValidStatus ==>
              (r.isValidStatus <==>
                 forall i | 0 <= i < |sequence| :: sequence[i](v.model) !in {Undefined, Null, Str([])})
  {
    ghost var calls := NotUndefinedOrNullOrEmptyCalls(sequence);
    r := v;
    for i := 0 to |sequence|
      invariant r == Run(v, calls[..i])
    {
      RunStep(v, calls, i);
      r := IsNotUndefinedOrNullOrEmpty(r, sequence[i]);
    }
    forall i | 0 <= i < |sequence|
      ensures Passes(calls[i], v.model) <==> sequence[i](v.model) !in {Undefined, Null, Str([])}
    {
    }
    Finish(v, calls);
  }

  method IsNotUndefinedSequence<V>(v: Validator<V>, sequence: seq<V -> Value>) returns (r: Validator<V>)
    ensures r == Expected(v, NotUndefinedCalls(sequence))
    ensures v.isValidStatus ==>
              (r.isValidStatus <==> forall i | 0 <= i < |sequence| :: sequence[i](v.model) != Undefined)
  {
    ghost var calls := NotUndefinedCalls(sequence);
    r := v;
    for i := 0 to |sequence|
      invariant r == Run(v, calls[..i])
    {
      RunStep(v, calls, i);
      r := IsNotUndefined(r, sequence[i]);
    }
    forall i | 0 <= i < |sequence|
      ensures Passes(calls[i], v.model) <==> sequence[i](v.model) != Undefined
    {
    }
    Finish(v, calls);
  }

  method IsNotNullSequence<V>(v: Validator<V>, sequence: seq<V -> Value>) returns (r: Validator<V>)
    ensures r == Expected(v, NotNullCalls(sequence))
    ensures v.isValidStatus ==>
              (r.isValidStatus <==> forall i | 0 <= i < |sequence| :: sequence[i](v.model) != Null)
  {
    ghost var calls := NotNullCalls(sequence);
    r := v;
    for i := 0 to |sequence|
      invariant r == Run(v, calls[..i])
    {
      RunStep(v, calls, i);
      r := IsNotNull(r, sequence[i]);
    }
    forall i | 0 <= i < |sequence|
      ensures Passes(calls[i], v.model) <==> sequence[i](v.model) != Null
    {
    }
    Finish(v, calls);
  }

  /** Takes the bounds bottom first and hands them to StringRange top first. */
  method MultipleStringInRangeSequence<V>(v: Validator<V>, sequence: seq<V -> string>, bottomLevel: int, topLevel: int)
    returns (r: Validator<V>)
    ensures r == Expected(v, InRangeCalls(sequence, bottomLevel, topLevel))
    ensures v.isValidStatus ==>
              (r.isValidStatus <==> forall i | 0 <= i < |sequence| :: bottomLevel < |sequence[i](v.model)| < topLevel)
  {
    ghost var calls := InRangeCalls(sequence, bottomLevel, topLevel);
    r := v;
    for i := 0 to |sequence|
      invariant r == Run(v, calls[..i])
    {
      RunStep(v, calls, i);
      r := StringRange(r, sequence[i], topLevel, bottomLevel);
    }
    forall i | 0 <= i < |sequence|
      ensures Passes(calls[i], v.model) <==> bottomLevel < |sequence[i](v.model)| < topLevel
    {
    }
    Finish(v, calls);
  }

  method BooleanSequence<V>(v: Validator<V>, sequence: seq<V -> bool>, statement: Statement) returns (r: Validator<V>)
    ensures r == Expected(v, BooleanCalls(sequence, statement))
    ensures v.isValidStatus ==>
              (r.isValidStatus <==>
                 forall i | 0 <= i < |sequence| :: sequence[i](v.model) == (statement == ShouldBeTrue))
  {
    ghost var calls := BooleanCalls(sequence, statement);
    r := v;
    for i := 0 to |sequence|
      invariant r == Run(v, calls[..i])
    {
      RunStep(v, calls, i);
      r := IsTrueOrFalse(r, sequence[i], statement, UnsetKeyName);
    }
    forall i | 0 <= i < |sequence|
      ensures Passes(calls[i], v.model) <==> sequence[i](v.model) == (statement == ShouldBeTrue)
    {
      assert calls[i] == Polarity(sequence[i], statement, UnsetKeyName);
    }
    Finish(v, calls);
  }

  method IsNumberSequence<V>(v: Validator<V>, sequence: seq<V -> Value>, request: NumberRequest) returns (r: Validator<V>)
    ensures r == Expected(v, NumberKindCalls(sequence, request))
    ensures v.isValidStatus && request == IsNumberRequest ==> r == v
    ensures v.isValidStatus && request == IsNotNumberRequest ==> (r.isValidStatus <==> |sequence| == 0)
  {
    ghost var calls := NumberKindCalls(sequence, request);
    r := v;
    for i := 0 to |sequence|
      invariant r == Run(v, calls[..i])
    {
      RunStep(v, calls, i);
      r := IsNumber(r, sequence[i], request);
    }
    Finish(v, calls);
  }
}

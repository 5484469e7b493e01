/** The values a selector can project out of a model, and how a JavaScript
    template literal (`${value}`) prints them into an error message. */
module Values {

  /** A selected value. JavaScript numbers are modelled as integers. */
  datatype Value = Null | Undefined | Str(s: string) | Num(n: int) | Bool(b: bool)

  predicate IsDigit(c: char) {
    '0' <= c <= '9'
  }

  /** A non-empty run of decimal digits without a superfluous leading zero. */
  predicate IsCanonicalDigits(s: string) {
    && |s| > 0
    && (forall i | 0 <= i < |s| :: IsDigit(s[i]))
    && (|s| > 1 ==> s[0] != '0')
  }

  function DigitChar(d: nat): (c: char)
    requires d < 10
    ensures IsDigit(c)
  {
    "0123456789"[d]
  }

  function DigitValue(c: char): nat
    requires IsDigit(c)
  {
    (c - '0') as nat
  }

  /** The number a run of decimal digits denotes (most significant first). */
  function DigitsValue(s: string): nat
    requires forall i | 0 <= i < |s| :: IsDigit(s[i])
  {
    if |s| == 0 then 0 else 10 * DigitsValue(s[..|s| - 1]) + DigitValue(s[|s| - 1])
  }

  /** How `${n}` prints a non-negative integer. */
  function NatToDecimal(n: nat): (r: string)
    ensures IsCanonicalDigits(r)
  {
    if n < 10 then [DigitChar(n)] else NatToDecimal(n / 10) + [DigitChar(n % 10)]
  }

  /** How `${n}` prints an integer: a minus sign before the magnitude when negative. */
  function IntToDecimal(n: int): (r: string)
    ensures |r| > 0
    ensures n >= 0 ==> IsCanonicalDigits(r)
    ensures n < 0 ==> r[0] == '-' && IsCanonicalDigits(r[1..])
  {
    if n < 0 then "-" + NatToDecimal(-n) else NatToDecimal(n)
  }

  /** The text a template literal substitutes for a selected value. */
  function Render(x: Value): string {
    match x
    case Null => "null"
    case Undefined => "undefined"
    case Str(s) => s
    case Num(n) => IntToDecimal(n)
    case Bool(b) => if b then "true" else "false"
  }

  /** Reading the printed digits back gives the number that was printed. */
  lemma {:induction false} NatToDecimalRoundTrip(n: nat)
    ensures DigitsValue(NatToDecimal(n)) == n
  {
    if n >= 10 {
      NatToDecimalRoundTrip(n / 10);
      var r := NatToDecimal(n);
      assert r[..|r| - 1] == NatToDecimal(n / 10);
    }
  }

  /** A printed integer starts with a minus sign exactly when it is negative. */
  lemma IntToDecimalSign(n: int)
    ensures IntToDecimal(n)[0] == '-' <==> n < 0
  {
    if n >= 0 {
      assert IsDigit(IntToDecimal(n)[0]);
    }
  }

  /** A negative integer prints as a minus sign followed by its magnitude. */
  lemma NegativeDecimal(n: int)
    requires n < 0
    ensures IntToDecimal(n)[1..] == NatToDecimal(-n)
  {
    assert IntToDecimal(n) == "-" + NatToDecimal(-n);
  }

  /** Distinct integers print differently, so a message names its number unambiguously. */
  lemma IntToDecimalInjective(m: int, n: int)
    requires IntToDecimal(m) == IntToDecimal(n)
    ensures m == n
  {
    IntToDecimalSign(m);
    IntToDecimalSign(n);
    if m < 0 {
      NegativeDecimal(m);
      NegativeDecimal(n);
      NatsPrintedAlike(-m, -n);
    } else {
      NatsPrintedAlike(m, n);
    }
  }

  lemma NatsPrintedAlike(a: nat, b: nat)
    requires NatToDecimal(a) == NatToDecimal(b)
    ensures a == b
  {
    NatToDecimalRoundTrip(a);
    NatToDecimalRoundTrip(b);
  }

  /** What a message shows of a selected value: a string as itself, a number
      as decimal digits that read back as it (after a '-' when negative), and
      the other kinds as the words JavaScript prints for them. */
  lemma {:induction false} RenderReadsBack(x: Value)
    ensures x.Str? ==> Render(x) == x.s
    ensures x.Num? && x.n >= 0 ==> IsCanonicalDigits(Render(x)) && DigitsValue(Render(x)) == x.n
    ensures x.Num? && x.n < 0 ==>
              && |Render(x)| > 1 && Render(x)[0] == '-'
              && IsCanonicalDigits(Render(x)[1..]) && DigitsValue(Render(x)[1..]) == -x.n
    ensures x == Null ==> Render(x) == "null"
    ensures x == Undefined ==> Render(x) == "undefined"
    ensures x.Bool? ==> Render(x) == (if x.b then "true" else "false")
  {
    if x.Num? {
      if x.n >= 0 {
        NatToDecimalRoundTrip(x.n);
      } else {
        NatToDecimalRoundTrip(-x.n);
        assert Render(x)[1..] == NatToDecimal(-x.n);
      }
    }
  }
}

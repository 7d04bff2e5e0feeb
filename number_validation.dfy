/**
 * The number field validator: the text is read as a number (with `parseInt` when the
 * field is an integer field, with `Number` otherwise), then checked in a fixed order:
 * required, numeric, maximum value, minimum value. Only the first failing check is
 * reported. Like the string validator, the bounds are truthiness gates.
 */
module NumberValidation {
  import opened Js
  import opened Decimal
  import opened IntParsing

  /** `{required?, maxValue?, minValue?, integer?}`; an absent flag is false. */
  datatype NumberRules = NumberRules(
    required: bool,
    maxValue: Option<int>,
    minValue: Option<int>,
    integer: bool)

  const RequiredMessage: string := "This field is required"
  const NumericMessage: string := "This field must be numeric"

  function MaxValueMessage(n: int): string {
    "This field cannot exceed " + IntToString(n)
  }

  function MinValueMessage(n: int): string {
    "This field must be at least " + IntToString(n)
  }

  /**
   * The number the text stands for. `Number(text)` is JavaScript's full numeric-literal
   * grammar; it is passed in as `toNumber`.
   */
  function NumberValue(value: string, rules: NumberRules, toNumber: string -> Number): Number {
    if rules.integer then ParseInt(value) else toNumber(value)
  }

  /** The effect's if/else-if chain: the error for `value`, or None. */
  function Evaluate(value: string, rules: NumberRules, toNumber: string -> Number): Option<string> {
    Verdict(value, rules, NumberValue(value, rules, toNumber))
  }

  /** The chain itself, for the text `value` read as the number `n`. */
  function Verdict(value: string, rules: NumberRules, n: Number): Option<string> {
    if rules.required && Trim(value) == "" then Some(RequiredMessage)
    else if IsNaN(n) then Some(NumericMessage)
    else if TruthyBound(rules.maxValue) && n.value > rules.maxValue.value as real then
      Some(MaxValueMessage(rules.maxValue.value))
    else if TruthyBound(rules.minValue) && n.value < rules.minValue.value as real then
      Some(MinValueMessage(rules.minValue.value))
    else None
  }

  // ---------------------------------------------------------------------------
  // A reference reading: the checks a rule set switches on, in precedence order,
  // and the first of them that fails.
  // ---------------------------------------------------------------------------

  datatype Check = Required | Numeric | MaxValue(limit: int) | MinValue(limit: int)

  function Prepend(on: bool, c: Check, rest: seq<Check>): seq<Check> {
    if on then [c] + rest else rest
  }

  /** The numeric check is always on; the others as the rule set says. */
  function ConfiguredChecks(rules: NumberRules): seq<Check> {
    Prepend(rules.required, Required,
      [Numeric] +
        Prepend(TruthyBound(rules.maxValue), MaxValue(rules.maxValue.GetOr(0)),
          Prepend(TruthyBound(rules.minValue), MinValue(rules.minValue.GetOr(0)), [])))
  }

  /** Whether `c` fails for the text `value` read as the number `n`. */
  predicate Fails(c: Check, value: string, n: Number) {
    match c
    case Required => IsBlank(value)
    case Numeric => IsNaN(n)
    case MaxValue(m) => n.Num? && n.value > m as real
    case MinValue(m) => n.Num? && n.value < m as real
  }

  function Message(c: Check): string {
    match c
    case Required => RequiredMessage
    case Numeric => NumericMessage
    case MaxValue(m) => MaxValueMessage(m)
    case MinValue(m) => MinValueMessage(m)
  }

  /** The first check of `cs` that fails. */
  function FirstFailed(cs: seq<Check>, value: string, n: Number): (r: Option<Check>)
    ensures r.None? <==> forall i :: 0 <= i < |cs| ==> !Fails(cs[i], value, n)
    ensures r.Some? ==> exists i :: 0 <= i < |cs| && cs[i] == r.value && Fails(cs[i], value, n)
                                    && forall j :: 0 <= j < i ==> !Fails(cs[j], value, n)
  {
    if cs == [] then None
    else if Fails(cs[0], value, n) then Some(cs[0])
    else
      var r := FirstFailed(cs[1..], value, n);
      assert forall i :: 1 <= i < |cs| ==> cs[i] == cs[1..][i - 1];
      r
  }

  lemma FirstFailedPrepend(on: bool, c: Check, rest: seq<Check>, value: string, n: Number)
    ensures FirstFailed(Prepend(on, c, rest), value, n)
         == if on && Fails(c, value, n) then Some(c) else FirstFailed(rest, value, n)
  {
    if on {
      assert ([c] + rest)[1..] == rest;
    }
  }

  /** The evaluator reports the message of the first failing configured check, and nothing else. */
  lemma EvaluateReportsFirstFailure(value: string, rules: NumberRules, toNumber: string -> Number)
    ensures var n := NumberValue(value, rules, toNumber);
            Evaluate(value, rules, toNumber) == match FirstFailed(ConfiguredChecks(rules), value, n)
                                                case None => None
                                                case Some(c) => Some(Message(c))
  {
    VerdictIsFirstFailure(value, rules, NumberValue(value, rules, toNumber));
  }

  lemma VerdictIsFirstFailure(value: string, rules: NumberRules, n: Number)
    ensures Verdict(value, rules, n) == match FirstFailed(ConfiguredChecks(rules), value, n)
                                        case None => None
                                        case Some(c) => Some(Message(c))
  {
    TrimEmptyIffBlank(value);
    FirstFailedOfConfigured(rules, value, n);
  }

  /** The configured checks, tried in order: the chain of the hook's if/else branches. */
  lemma FirstFailedOfConfigured(rules: NumberRules, value: string, n: Number)
    ensures FirstFailed(ConfiguredChecks(rules), value, n)
         == if rules.required && IsBlank(value) then Some(Required)
            else if IsNaN(n) then Some(Numeric)
            else if TruthyBound(rules.maxValue) && Fails(MaxValue(rules.maxValue.GetOr(0)), value, n)
            then Some(MaxValue(rules.maxValue.GetOr(0)))
            else if TruthyBound(rules.minValue) && Fails(MinValue(rules.minValue.GetOr(0)), value, n)
            then Some(MinValue(rules.minValue.GetOr(0)))
            else None
  {
    var maxOn, minOn := TruthyBound(rules.maxValue), TruthyBound(rules.minValue);
    var maxCheck, minCheck := MaxValue(rules.maxValue.GetOr(0)), MinValue(rules.minValue.GetOr(0));
    var minChecks := Prepend(minOn, minCheck, []);
    var maxChecks := Prepend(maxOn, maxCheck, minChecks);
    FirstFailedPrepend(rules.required, Required, [Numeric] + maxChecks, value, n);
    FirstFailedPrepend(true, Numeric, maxChecks, value, n);
    assert Prepend(true, Numeric, maxChecks) == [Numeric] + maxChecks;
    FirstFailedPrepend(maxOn, maxCheck, minChecks, value, n);
    FirstFailedPrepend(minOn, minCheck, [], value, n);
  }

  /** With no failing configured check the error is null, and conversely. */
  lemma NoErrorIffNoFailure(value: string, rules: NumberRules, toNumber: string -> Number)
    ensures Evaluate(value, rules, toNumber) == None
        <==> forall i :: 0 <= i < |ConfiguredChecks(rules)| ==>
               !Fails(ConfiguredChecks(rules)[i], value, NumberValue(value, rules, toNumber))
  {
    EvaluateReportsFirstFailure(value, rules, toNumber);
  }

  /** The four kinds of message never coincide, and each names its bound. */
  lemma MessageDeterminesCheck(c1: Check, c2: Check)
    requires Message(c1) == Message(c2)
    ensures c1 == c2
  {
    var m1, m2 := Message(c1), Message(c2);
    assert m1[11] == m2[11];
    assert m1[19] == m2[19];
    if c1.MaxValue? && c2.MaxValue? {
      var p := "This field cannot exceed ";
      assert m1[|p|..] == IntToString(c1.limit);
      assert m2[|p|..] == IntToString(c2.limit);
      IntToStringInjective(c1.limit, c2.limit);
    } else if c1.MinValue? && c2.MinValue? {
      var p := "This field must be at least ";
      assert m1[|p|..] == IntToString(c1.limit);
      assert m2[|p|..] == IntToString(c2.limit);
      IntToStringInjective(c1.limit, c2.limit);
    }
  }

  /** A required field with blank text reports 'This field is required', before the numeric check. */
  lemma RequiredBlankIsReported(value: string, rules: NumberRules, toNumber: string -> Number)
    requires rules.required && IsBlank(value)
    ensures Evaluate(value, rules, toNumber) == Some(RequiredMessage)
  {
    TrimEmptyIffBlank(value);
  }

  /**
   * An integer field whose text, after whitespace and a sign, does not start with a digit
   * reports 'This field must be numeric', whether or not the field is required (unless
   * the required check fires first).
   */
  lemma IntegerWithoutDigitsIsNotNumeric(value: string, rules: NumberRules, toNumber: string -> Number)
    requires rules.integer
    requires !(rules.required && IsBlank(value))
    requires var u := DropSign(TrimStart(value)); u == [] || !IsDigit(u[0])
    ensures Evaluate(value, rules, toNumber) == Some(NumericMessage)
  {
    TrimEmptyIffBlank(value);
    ParseIntWithoutLeadingDigitIsNaN(value);
  }

  /**
   * An integer field reads only the leading integer: whitespace, a sign and a digit run,
   * followed by anything that does not continue the run, is checked as that integer.
   */
  lemma IntegerFieldReadsPrefix(ws: string, sign: string, digits: string, rest: string,
                                rules: NumberRules, toNumber: string -> Number)
    requires IsBlank(ws)
    requires sign == "" || sign == "+" || sign == "-"
    requires IsDigits(digits)
    requires rest == [] || !IsDigit(rest[0])
    requires !(digits == "0" && rest != [] && (rest[0] == 'x' || rest[0] == 'X'))
    requires rules.integer
    ensures NumberValue(ws + sign + digits + rest, rules, toNumber)
         == Num(if sign == "-" then -(DigitsValue(digits, 10) as real) else DigitsValue(digits, 10) as real)
  {
    ParseIntReadsLeadingInteger(ws, sign, digits, rest);
  }

  /** `"12abc"` in an integer field with a maximum of 20 is accepted: it is read as 12. */
  lemma TrailingTextIsIgnored(toNumber: string -> Number)
    ensures Evaluate("12abc", NumberRules(true, Some(20), None, true), toNumber) == None
  {
    ParseIntIgnoresTrailingText();
    assert "12abc"[0] == '1' && !IsWhiteSpace("12abc"[0]);
    TrimEmptyIffBlank("12abc");
  }

  /**
   * With a truthy maxValue m and no earlier error, a number above m reports the maxValue
   * message, and a number at or below m does not.
   */
  lemma MaxValueBoundary(value: string, rules: NumberRules, toNumber: string -> Number, m: int)
    requires rules.maxValue == Some(m) && m != 0
    requires !(rules.required && IsBlank(value))
    requires NumberValue(value, rules, toNumber).Num?
    ensures var v := NumberValue(value, rules, toNumber).value;
            (v > m as real ==> Evaluate(value, rules, toNumber) == Some(MaxValueMessage(m)))
            && (v <= m as real ==> Evaluate(value, rules, toNumber) != Some(MaxValueMessage(m)))
  {
    TrimEmptyIffBlank(value);
    var e := Evaluate(value, rules, toNumber);
    if rules.minValue.Some? && e == Some(MinValueMessage(rules.minValue.value)) && e == Some(MaxValueMessage(m)) {
      MessageDeterminesCheck(MinValue(rules.minValue.value), MaxValue(m));
    }
  }

  /**
   * With a truthy minValue m and no earlier error, a number below m reports the minValue
   * message, and a number at or above m does not.
   */
  lemma MinValueBoundary(value: string, rules: NumberRules, toNumber: string -> Number, m: int)
    requires rules.minValue == Some(m) && m != 0
    requires !(rules.required && IsBlank(value))
    requires NumberValue(value, rules, toNumber).Num?
    requires !(TruthyBound(rules.maxValue)
               && NumberValue(value, rules, toNumber).value > rules.maxValue.value as real)
    ensures var v := NumberValue(value, rules, toNumber).value;
            (v < m as real ==> Evaluate(value, rules, toNumber) == Some(MinValueMessage(m)))
            && (v >= m as real ==> Evaluate(value, rules, toNumber) != Some(MinValueMessage(m)))
  {
    TrimEmptyIffBlank(value);
  }

  /** A bound of 0 or an absent one is never checked: it acts exactly as if unset. */
  lemma FalsyBoundsAreUnset(value: string, rules: NumberRules, toNumber: string -> Number)
    requires !TruthyBound(rules.maxValue) && !TruthyBound(rules.minValue)
    ensures Evaluate(value, rules, toNumber)
         == Evaluate(value, NumberRules(rules.required, None, None, rules.integer), toNumber)
    ensures Evaluate(value, rules, toNumber) == None
        <==> !(rules.required && IsBlank(value)) && !IsNaN(NumberValue(value, rules, toNumber))
  {
    TrimEmptyIffBlank(value);
  }

  // ---------------------------------------------------------------------------
  // The value/error cell of one field
  // ---------------------------------------------------------------------------

  /** The `[{value, error}, setValue]` binding of a number field. */
  class NumberField {
    const rules: NumberRules
    const toNumber: string -> Number
    var value: string
    var error: Option<string>

    /** The state after the effect has run. */
    predicate Settled()
      reads this
    {
      error == Evaluate(value, rules, toNumber)
    }

    /** Mounting: the initial value, and a null error until the first effect. */
    constructor (rules: NumberRules, toNumber: string -> Number, initialValue: string)
      ensures this.rules == rules && this.toNumber == toNumber
      ensures value == initialValue && error == None
    {
      this.rules := rules;
      this.toNumber := toNumber;
      value := initialValue;
      error := None;
    }

    /** The effect: recompute the error from the current value. */
    method RunEffect()
      modifies this
      ensures value == old(value) && error == Evaluate(value, rules, toNumber)
      ensures Settled()
    {
      error := Evaluate(value, rules, toNumber);
    }

    /** `setValue(v)` followed by the effect it triggers. */
    method SetValue(v: string)
      modifies this
      ensures value == v && error == Evaluate(v, rules, toNumber)
      ensures Settled()
    {
      value := v;
      RunEffect();
    }
  }
}

/**
 * The cost text field: it accepts only digit strings, keeps the last accepted text on
 * display, raises an error flag on anything else, and reports accepted costs through
 * its `onChange` callback.
 */
module CostInput {
  import opened Js
  import opened Decimal
  import opened IntParsing

  /** The `defaultValue` prop: absent, the empty string, or an integer amount. */
  datatype CostDefault = Undefined | EmptyText | Amount(n: int)

  /** What `handleInputChange` passes to `onChange`: `""` or `parseInt` of the text. */
  datatype CostChange = Cleared | Changed(n: Number)

  /** `defaultValue ? defaultValue.toString() : ""`: a default of 0 starts empty. */
  function InitialText(d: CostDefault): (t: string)
    ensures d.Amount? && d.n > 0 ==> IsDigits(t) && DigitsValue(t, 10) == d.n
    ensures t == "" <==> !(d.Amount? && d.n != 0)
  {
    if d.Amount? && d.n != 0 then
      if d.n > 0 then NatToStringRoundTrip(d.n); IntToString(d.n) else IntToString(d.n)
    else ""
  }

  /** `/^\d+$/`: one or more ASCII digits and nothing else. */
  predicate MatchesDigits(text: string) {
    IsDigits(text)
  }

  class CostInputField {
    const required: bool
    var value: string
    var error: bool

    /** The displayed text is empty or a digit string. */
    predicate ShowsDigits()
      reads this
    {
      value == "" || IsDigits(value)
    }

    constructor (required: bool, defaultValue: CostDefault)
      ensures this.required == required
      ensures value == InitialText(defaultValue) && !error
    {
      this.required := required;
      value := InitialText(defaultValue);
      error := false;
    }

    /**
     * `handleInputChange`: the empty text clears the field (an error when required, an
     * `onChange("")` otherwise); a digit string is shown and reported as its integer
     * value; anything else keeps the shown text and raises the error flag.
     */
    method HandleInputChange(text: string) returns (emitted: Option<CostChange>)
      modifies this
      ensures text == "" ==> value == "" && error == required
                             && emitted == (if required then None else Some(Cleared))
      ensures text != "" && MatchesDigits(text) ==>
                value == text && !error && emitted == Some(Changed(Num(DigitsValue(text, 10) as real)))
      ensures text != "" && !MatchesDigits(text) ==> value == old(value) && error && emitted == None
      ensures old(ShowsDigits()) ==> ShowsDigits()
    {
      if text == "" {
        value := "";
        error := required;
        emitted := if !required then Some(Cleared) else None;
      } else if MatchesDigits(text) {
        value := text;
        error := false;
        assert "" + "" + text + "" == text;
        ParseIntReadsLeadingInteger("", "", text, "");
        emitted := Some(Changed(ParseInt(text)));
      } else {
        error := true;
        emitted := None;
      }
    }

    /** The timer set on a rejected input: 200 ms later the error flag is lowered again. */
    method ResetError()
      modifies this
      ensures value == old(value) && !error
    {
      error := false;
    }
  }

  /** Typing the decimal text of `n` reports exactly `n`. */
  lemma TypedAmountIsReported(n: nat)
    ensures MatchesDigits(NatToString(n))
    ensures ParseInt(NatToString(n)) == Num(n as real)
  {
    var t := NatToString(n);
    assert "" + "" + t + "" == t;
    ParseIntReadsLeadingInteger("", "", t, "");
    NatToStringRoundTrip(n);
  }

  /** A positive default starts as a displayed digit string; 0, "" and an absent default start empty. */
  lemma InitialTextShowsDigits(d: CostDefault)
    requires !(d.Amount? && d.n < 0)
    ensures InitialText(d) == "" || IsDigits(InitialText(d))
  {
  }
}

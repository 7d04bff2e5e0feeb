/**
 * The string field validator: a rule set (required, maximum and minimum length, e-mail
 * format) checked in a fixed order, of which only the first violated rule is reported,
 * and the value/error cell a form field keeps.
 *
 * The length bounds are JavaScript truthiness gates: an absent bound and a bound of 0
 * are never checked, a negative bound is.
 */
module StringValidation {
  import opened Js
  import opened Decimal

  /** `{required?, maxLength?, minLength?, email?}`; an absent flag is false. */
  datatype ValidationRules = ValidationRules(
    required: bool,
    maxLength: Option<int>,
    minLength: Option<int>,
    email: bool)

  const RequiredMessage: string := "This field is required"
  const EmailMessage: string := "Invalid email format"

  function MaxLengthMessage(n: int): string {
    "This field cannot exceed " + IntToString(n) + " characters"
  }

  function MinLengthMessage(n: int): string {
    "This field must be at least " + IntToString(n) + " characters"
  }

  // ---------------------------------------------------------------------------
  // The e-mail pattern
  //   ^[atext]+(\.[atext]+)*@([a-z0-9]([a-z0-9-]*[a-z0-9])?\.)+[a-z0-9]([a-z0-9-]*[a-z0-9])?$
  // with the case-insensitive flag, which (without the unicode flag) folds only ASCII
  // letters. The local part is the dot-atom-text of section 3.2.3 of RFC 5322; the domain
  // is two or more labels in the style of section 2.3.1 of RFC 1035.
  // ---------------------------------------------------------------------------

  /** `[a-z0-9]` under the case-insensitive flag. */
  predicate IsAsciiAlnum(c: char) {
    ('a' <= c <= 'z') || ('A' <= c <= 'Z') || IsDigit(c)
  }

  /** `atext` of section 3.2.3 of RFC 5322. */
  predicate IsAtext(c: char) {
    IsAsciiAlnum(c) || c in "!#$%&'*+/=?^_`{|}~-"
  }

  /** One or more atext runs separated by single dots. */
  predicate IsDotAtomText(t: string) {
    && |t| > 0 && t[0] != '.' && t[|t| - 1] != '.'
    && (forall i :: 0 <= i < |t| ==> t[i] == '.' || IsAtext(t[i]))
    && (forall i :: 0 <= i < |t| - 1 ==> !(t[i] == '.' && t[i + 1] == '.'))
  }

  /** A domain label: letters, digits and hyphens, starting and ending with a letter or digit. */
  predicate IsLabel(t: string) {
    && |t| > 0 && IsAsciiAlnum(t[0]) && IsAsciiAlnum(t[|t| - 1])
    && forall i :: 0 <= i < |t| ==> IsAsciiAlnum(t[i]) || t[i] == '-'
  }

  /** `(label\.)+label`: labels contain no dot, so the text splits at its first dot. */
  predicate IsDomain(t: string)
    decreases |t|
  {
    match IndexOf(t, '.')
    case None => false
    case Some(k) => IsLabel(t[..k]) && (IsLabel(t[k + 1..]) || IsDomain(t[k + 1..]))
  }

  /** The whole pattern; neither side contains `@`, so the text splits at its first `@`. */
  predicate MatchesEmailPattern(s: string) {
    match IndexOf(s, '@')
    case None => false
    case Some(k) => IsDotAtomText(s[..k]) && IsDomain(s[k + 1..])
  }

  // ---------------------------------------------------------------------------
  // The evaluator
  // ---------------------------------------------------------------------------

  /** The effect's if/else-if chain: the error for `value`, or None. */
  function Evaluate(value: string, rules: ValidationRules): Option<string> {
    if rules.required && Trim(value) == "" then Some(RequiredMessage)
    else if TruthyBound(rules.maxLength) && |value| > rules.maxLength.value then
      Some(MaxLengthMessage(rules.maxLength.value))
    else if TruthyBound(rules.minLength) && |value| < rules.minLength.value then
      Some(MinLengthMessage(rules.minLength.value))
    else if rules.email && !MatchesEmailPattern(value) then Some(EmailMessage)
    else None
  }

  // ---------------------------------------------------------------------------
  // A reference reading of the rule set: the list of checks it switches on, in
  // precedence order, and the first of them that the value violates.
  // ---------------------------------------------------------------------------

  datatype Rule = Required | MaxLength(limit: int) | MinLength(limit: int) | Email

  /** `r` in front of `rest` when the rule is switched on. */
  function Prepend(on: bool, r: Rule, rest: seq<Rule>): seq<Rule> {
    if on then [r] + rest else rest
  }

  /** The checks a rule set switches on, in the order they are tried. */
  function ConfiguredRules(rules: ValidationRules): seq<Rule> {
    Prepend(rules.required, Required,
      Prepend(TruthyBound(rules.maxLength), MaxLength(rules.maxLength.GetOr(0)),
        Prepend(TruthyBound(rules.minLength), MinLength(rules.minLength.GetOr(0)),
          Prepend(rules.email, Email, []))))
  }

  predicate Violates(rule: Rule, value: string) {
    match rule
    case Required => IsBlank(value)
    case MaxLength(n) => |value| > n
    case MinLength(n) => |value| < n
    case Email => !MatchesEmailPattern(value)
  }

  function Message(rule: Rule): string {
    match rule
    case Required => RequiredMessage
    case MaxLength(n) => MaxLengthMessage(n)
    case MinLength(n) => MinLengthMessage(n)
    case Email => EmailMessage
  }

  /** The first rule of `rs` that `value` violates. */
  function FirstViolated(rs: seq<Rule>, value: string): (r: Option<Rule>)
    ensures r.None? <==> forall i :: 0 <= i < |rs| ==> !Violates(rs[i], value)
    ensures r.Some? ==> exists i :: 0 <= i < |rs| && rs[i] == r.value && Violates(rs[i], value)
                                    && forall j :: 0 <= j < i ==> !Violates(rs[j], value)
  {
    if rs == [] then None
    else if Violates(rs[0], value) then Some(rs[0])
    else
      var r := FirstViolated(rs[1..], value);
      assert forall i :: 1 <= i < |rs| ==> rs[i] == rs[1..][i - 1];
      r
  }

  lemma FirstViolatedPrepend(on: bool, r: Rule, rest: seq<Rule>, value: string)
    ensures FirstViolated(Prepend(on, r, rest), value)
         == if on && Violates(r, value) then Some(r) else FirstViolated(rest, value)
  {
    if on {
      assert ([r] + rest)[1..] == rest;
    }
  }

  /** The evaluator reports the message of the first violated configured rule, and nothing else. */
  lemma EvaluateReportsFirstViolation(value: string, rules: ValidationRules)
    ensures Evaluate(value, rules) == match FirstViolated(ConfiguredRules(rules), value)
                                      case None => None
                                      case Some(r) => Some(Message(r))
  {
    TrimEmptyIffBlank(value);
    var maxOn, minOn := TruthyBound(rules.maxLength), TruthyBound(rules.minLength);
    var maxRule, minRule := MaxLength(rules.maxLength.GetOr(0)), MinLength(rules.minLength.GetOr(0));
    var emailRules := Prepend(rules.email, Email, []);
    var minRules := Prepend(minOn, minRule, emailRules);
    var maxRules := Prepend(maxOn, maxRule, minRules);
    FirstViolatedPrepend(rules.required, Required, maxRules, value);
    FirstViolatedPrepend(maxOn, maxRule, minRules, value);
    FirstViolatedPrepend(minOn, minRule, emailRules, value);
    FirstViolatedPrepend(rules.email, Email, [], value);
  }

  /** With no violated configured rule the error is null, and conversely. */
  lemma NoErrorIffNoViolation(value: string, rules: ValidationRules)
    ensures Evaluate(value, rules) == None
        <==> forall i :: 0 <= i < |ConfiguredRules(rules)| ==> !Violates(ConfiguredRules(rules)[i], value)
  {
    EvaluateReportsFirstViolation(value, rules);
  }

  /** A required field whose trimmed text is empty reports 'This field is required', before anything else. */
  lemma RequiredBlankIsReported(value: string, rules: ValidationRules)
    requires rules.required && IsBlank(value)
    ensures Evaluate(value, rules) == Some(RequiredMessage)
  {
    TrimEmptyIffBlank(value);
  }

  /** The four kinds of message never coincide, and each names its bound. */
  lemma MessageDeterminesRule(r1: Rule, r2: Rule)
    requires Message(r1) == Message(r2)
    ensures r1 == r2
  {
    var m1, m2 := Message(r1), Message(r2);
    assert m1[11] == m2[11];
    if r1.MaxLength? && r2.MaxLength? {
      var p := "This field cannot exceed ";
      assert m1[|p|..|m1| - 11] == IntToString(r1.limit);
      assert m2[|p|..|m2| - 11] == IntToString(r2.limit);
      IntToStringInjective(r1.limit, r2.limit);
    } else if r1.MinLength? && r2.MinLength? {
      var p := "This field must be at least ";
      assert m1[|p|..|m1| - 11] == IntToString(r1.limit);
      assert m2[|p|..|m2| - 11] == IntToString(r2.limit);
      IntToStringInjective(r1.limit, r2.limit);
    }
  }

  /**
   * Length bounds: with a truthy maxLength n and no required-error in front, a value longer
   * than n reports the maxLength message, and a value of exactly n characters does not.
   */
  lemma MaxLengthBoundary(value: string, rules: ValidationRules, n: int)
    requires rules.maxLength == Some(n) && n != 0
    requires !(rules.required && IsBlank(value))
    ensures |value| > n ==> Evaluate(value, rules) == Some(MaxLengthMessage(n))
    ensures |value| <= n ==> Evaluate(value, rules) != Some(MaxLengthMessage(n))
  {
    TrimEmptyIffBlank(value);
    if |value| <= n {
      if rules.minLength.Some? && Evaluate(value, rules) == Some(MinLengthMessage(rules.minLength.value)) {
        if MinLengthMessage(rules.minLength.value) == MaxLengthMessage(n) {
          MessageDeterminesRule(MinLength(rules.minLength.value), MaxLength(n));
        }
      }
      if Evaluate(value, rules) == Some(EmailMessage) && EmailMessage == MaxLengthMessage(n) {
        MessageDeterminesRule(Email, MaxLength(n));
      }
    }
  }

  /**
   * With a truthy minLength n and no earlier error, a value shorter than n reports the
   * minLength message, and a value of at least n characters does not.
   */
  lemma MinLengthBoundary(value: string, rules: ValidationRules, n: int)
    requires rules.minLength == Some(n) && n != 0
    requires !(rules.required && IsBlank(value))
    requires !(TruthyBound(rules.maxLength) && |value| > rules.maxLength.value)
    ensures |value| < n ==> Evaluate(value, rules) == Some(MinLengthMessage(n))
    ensures |value| >= n ==> Evaluate(value, rules) != Some(MinLengthMessage(n))
  {
    TrimEmptyIffBlank(value);
    if |value| >= n && Evaluate(value, rules) == Some(EmailMessage) && EmailMessage == MinLengthMessage(n) {
      MessageDeterminesRule(Email, MinLength(n));
    }
  }

  /** A length bound of 0 or an absent one is never checked: it acts exactly as if unset. */
  lemma FalsyBoundsAreUnset(value: string, rules: ValidationRules)
    requires !TruthyBound(rules.maxLength) && !TruthyBound(rules.minLength)
    ensures Evaluate(value, rules) == Evaluate(value, rules.(maxLength := None, minLength := None))
    ensures Evaluate(value, rules) !in {Some(MaxLengthMessage(0)), Some(MinLengthMessage(0))}
  {
    if Evaluate(value, rules) == Some(MaxLengthMessage(0)) {
      MessageDeterminesRule(if rules.required then Required else Email, MaxLength(0));
    }
    if Evaluate(value, rules) == Some(MinLengthMessage(0)) {
      MessageDeterminesRule(if rules.required then Required else Email, MinLength(0));
    }
  }

  // ---------------------------------------------------------------------------
  // The pattern read as a grammar: a dot-atom-text, `@`, and two or more labels
  // joined by dots.
  // ---------------------------------------------------------------------------

  /** `labels.join('.')`. */
  function JoinDots(labels: seq<string>): string
    decreases |labels|
  {
    if |labels| == 0 then ""
    else if |labels| == 1 then labels[0]
    else labels[0] + "." + JoinDots(labels[1..])
  }

  predicate AllLabels(labels: seq<string>) {
    forall i :: 0 <= i < |labels| ==> IsLabel(labels[i])
  }

  /** Labels joined by dots, two or more of them, form a domain ... */
  lemma {:induction false} JoinedLabelsAreDomain(labels: seq<string>)
    requires |labels| >= 2 && AllLabels(labels)
    ensures IsDomain(JoinDots(labels))
    decreases |labels|
  {
    var rest := JoinDots(labels[1..]);
    assert '.' !in labels[0];
    IndexOfAfterPrefix(labels[0], '.', rest);
    var t := JoinDots(labels);
    assert t == labels[0] + "." + rest;
    assert t[..|labels[0]|] == labels[0];
    assert t[|labels[0]| + 1..] == rest;
    if |labels| == 2 {
      assert labels[1..] == [labels[1]];
      assert rest == labels[1];
    } else {
      JoinedLabelsAreDomain(labels[1..]);
    }
  }

  /** ... and every domain is such a join. */
  lemma {:induction false} DomainIsJoinedLabels(t: string) returns (labels: seq<string>)
    requires IsDomain(t)
    ensures |labels| >= 2 && AllLabels(labels) && t == JoinDots(labels)
    decreases |t|
  {
    var k := IndexOf(t, '.').value;
    var first, rest := t[..k], t[k + 1..];
    assert t == first + "." + rest;
    if IsLabel(rest) {
      labels := [first, rest];
      assert labels[1..] == [rest];
    } else {
      var more := DomainIsJoinedLabels(rest);
      labels := [first] + more;
      assert labels[1..] == more;
    }
  }

  /** A dot-atom-text, `@` and a domain make a matching text ... */
  lemma EmailOfParts(local: string, domain: string)
    requires IsDotAtomText(local) && IsDomain(domain)
    ensures MatchesEmailPattern(local + "@" + domain)
  {
    var s := local + "@" + domain;
    assert '@' !in local by {
      assert forall i :: 0 <= i < |local| ==> local[i] == '.' || IsAtext(local[i]);
    }
    IndexOfAfterPrefix(local, '@', domain);
    assert s[..|local|] == local;
    assert s[|local| + 1..] == domain;
  }

  /** ... and every matching text is made that way. */
  lemma EmailParts(s: string) returns (local: string, domain: string)
    requires MatchesEmailPattern(s)
    ensures s == local + "@" + domain && IsDotAtomText(local) && IsDomain(domain)
  {
    var k := IndexOf(s, '@').value;
    local, domain := s[..k], s[k + 1..];
    assert s == local + "@" + domain;
  }

  /** `user@example.com` matches: the dot-atom `user` and the labels `example`, `com`. */
  lemma EmailExampleMatches()
    ensures MatchesEmailPattern("user" + "@" + "example.com")
  {
    ExampleDomain();
    ExampleLocalPart();
    EmailOfParts("user", "example.com");
  }

  /** `not-an-email` has no `@`, so it does not match. */
  lemma EmailExampleFails()
    ensures !MatchesEmailPattern("not-an-email")
  {
    var s := "not-an-email";
    assert forall i :: 0 <= i < |s| ==> s[i] != '@';
  }

  lemma ExampleLocalPart()
    ensures IsDotAtomText("user")
  {
  }

  lemma ExampleDomain()
    ensures IsDomain("example.com")
  {
    var labels := ["example", "com"];
    assert IsLabel("example") && IsLabel("com");
    assert labels[1..] == ["com"];
    assert JoinDots(labels) == "example.com";
    JoinedLabelsAreDomain(labels);
  }

  // ---------------------------------------------------------------------------
  // The value/error cell of one field
  // ---------------------------------------------------------------------------

  /**
   * The `[{value, error}, setValue]` binding. The error starts as null and is recomputed
   * from the value by the effect that runs after each change.
   */
  class StringField {
    const rules: ValidationRules
    var value: string
    var error: Option<string>

    /** The state after the effect has run: the error is the evaluator's verdict on the value. */
    predicate Settled()
      reads this
    {
      error == Evaluate(value, rules)
    }

    /** Mounting: the initial value, and a null error until the first effect. */
    constructor (rules: ValidationRules, initialValue: string)
      ensures this.rules == rules && value == initialValue && error == None
    {
      this.rules := rules;
      value := initialValue;
      error := None;
    }

    /** The effect: recompute the error from the current value. */
    method RunEffect()
      modifies this
      ensures value == old(value) && error == Evaluate(value, rules)
      ensures Settled()
    {
      error := Evaluate(value, rules);
    }

    /** `setValue(v)` followed by the effect it triggers. */
    method SetValue(v: string)
      modifies this
      ensures value == v && error == Evaluate(v, rules)
      ensures Settled()
    {
      value := v;
      RunEffect();
    }
  }

  /** Two edits in a row: only the last value and its error are observed. */
  method LastWriteWins()
  {
    var field := new StringField(ValidationRules(false, Some(2), None, false), "");
    field.SetValue("ab");
    assert field.error == None;
    field.SetValue("abc");
    assert field.value == "abc" && field.error == Some(MaxLengthMessage(2));
  }
}

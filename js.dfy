/**
 * The few JavaScript built-ins the client's logic leans on, stated in Dafny's terms:
 * optional values (`undefined`/`null`), JavaScript numbers that may be NaN, truthiness
 * of strings and numbers, and whitespace trimming as `String.prototype.trim` does it.
 *
 * Strings are sequences of characters; one character stands for one UTF-16 code unit.
 */
module Js {

  /** `undefined`/`null` versus a present value. */
  datatype Option<+T> = None | Some(value: T) {
    function GetOr(default: T): T {
      match this
      case Some(v) => v
      case None => default
    }
  }

  /** A JavaScript number as far as this client uses it: NaN or a finite value. */
  datatype Number = NaN | Num(value: real)

  /** `isNaN(n)`. */
  predicate IsNaN(n: Number) {
    n.NaN?
  }

  /** `s.indexOf(c)`: the position of the first `c` in `s`, if any. */
  function IndexOf(s: string, c: char): (k: Option<nat>)
    ensures k.Some? ==> k.value < |s| && s[k.value] == c
    ensures k.Some? ==> forall i :: 0 <= i < k.value ==> s[i] != c
    ensures k.None? <==> c !in s
  {
    if s == [] then None
    else if s[0] == c then Some(0)
    else match IndexOf(s[1..], c)
      case None => None
      case Some(k) => Some(k + 1)
  }

  /** The first `c` of `a + [c] + b` is at `|a|` when `a` has none. */
  lemma IndexOfAfterPrefix(a: string, c: char, b: string)
    requires c !in a
    ensures IndexOf(a + [c] + b, c) == Some(|a|)
  {
    var s := a + [c] + b;
    var k := IndexOf(s, c);
    assert s[|a|] == c;
    assert forall i :: 0 <= i < |a| ==> s[i] == a[i];
  }

  /** A string is truthy exactly when it is not empty. */
  predicate TruthyString(s: string) {
    |s| > 0
  }

  /** An optional string (`string | undefined | null`) is truthy when present and non-empty. */
  predicate TruthyOptString(s: Option<string>) {
    s.Some? && |s.value| > 0
  }

  /** An optional integer bound (`number | undefined`) is truthy when present and not 0. */
  predicate TruthyBound(b: Option<int>) {
    b.Some? && b.value != 0
  }

  /**
   * The characters `trim` and `trimStart` remove: the WhiteSpace and LineTerminator
   * productions of section 12.2 and 12.3 of ECMA-262 (TAB, VT, FF, SP, NBSP, ZWNBSP,
   * every Zs space separator, LF, CR, LS, PS).
   */
  predicate IsWhiteSpace(c: char) {
    || c == '\U{0009}' || c == '\U{000B}' || c == '\U{000C}' || c == ' '
    || c == '\U{00A0}' || c == '\U{FEFF}'
    || c == '\U{1680}' || ('\U{2000}' <= c <= '\U{200A}') || c == '\U{202F}'
    || c == '\U{205F}' || c == '\U{3000}'
    || c == '\U{000A}' || c == '\U{000D}' || c == '\U{2028}' || c == '\U{2029}'
  }

  /** `s.trimStart()`: drop the leading whitespace. */
  function TrimStart(s: string): (r: string)
    ensures |r| <= |s| && r == s[|s| - |r|..]
    ensures r == [] || !IsWhiteSpace(r[0])
    ensures forall i :: 0 <= i < |s| - |r| ==> IsWhiteSpace(s[i])
  {
    if s != [] && IsWhiteSpace(s[0]) then TrimStart(s[1..]) else s
  }

  /** `s.trimEnd()`: drop the trailing whitespace. */
  function TrimEnd(s: string): (r: string)
    ensures |r| <= |s| && r == s[..|r|]
    ensures r == [] || !IsWhiteSpace(r[|r| - 1])
    ensures forall i :: |r| <= i < |s| ==> IsWhiteSpace(s[i])
  {
    if s != [] && IsWhiteSpace(s[|s| - 1]) then TrimEnd(s[..|s| - 1]) else s
  }

  /** `s.trim()`. */
  function Trim(s: string): string {
    TrimEnd(TrimStart(s))
  }

  /** Every character of `s` is whitespace. */
  predicate IsBlank(s: string) {
    forall i :: 0 <= i < |s| ==> IsWhiteSpace(s[i])
  }

  /** `s.trim() === ''` holds exactly when `s` is made of whitespace only. */
  lemma {:induction false} TrimEmptyIffBlank(s: string)
    ensures Trim(s) == "" <==> IsBlank(s)
  {
    if !IsBlank(s) {
      var i :| 0 <= i < |s| && !IsWhiteSpace(s[i]);
      var t := TrimStart(s);
      assert t[i - (|s| - |t|)] == s[i];
    }
  }
}

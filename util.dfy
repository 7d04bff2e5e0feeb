/**
 * `formatServerResponse`: turns a server error text such as
 * `Bad Request: data/firstName must NOT have fewer than 1 characters` into a phrase for
 * the user. The fixed prefixes are removed, and the first word, written in camelCase,
 * is turned into Sentence case; the rest of the text follows it unchanged.
 */
module Util {
  import opened Js

  // ---------------------------------------------------------------------------
  // `String.prototype.replace` with a string pattern: only the first occurrence.
  // ---------------------------------------------------------------------------

  /** `p` occurs in `s` starting at position `k`. */
  predicate OccursAt(s: string, p: string, k: nat) {
    k + |p| <= |s| && s[k..k + |p|] == p
  }

  /** The first position at or after `from` where `p` occurs. */
  function FindFrom(s: string, p: string, from: nat): (k: Option<nat>)
    requires from <= |s|
    ensures k.Some? ==> from <= k.value <= |s| && OccursAt(s, p, k.value)
    ensures k.Some? ==> forall j :: from <= j < k.value ==> !OccursAt(s, p, j)
    ensures k.None? ==> forall j :: from <= j <= |s| ==> !OccursAt(s, p, j)
    decreases |s| - from
  {
    if OccursAt(s, p, from) then Some(from)
    else if from == |s| then None
    else FindFrom(s, p, from + 1)
  }

  /** `s.indexOf(p)`. */
  function FindFirst(s: string, p: string): Option<nat> {
    FindFrom(s, p, 0)
  }

  /** `s.replace(p, r)`. */
  function ReplaceFirst(s: string, p: string, r: string): string {
    match FindFirst(s, p)
    case None => s
    case Some(k) => s[..k] + r + s[k + |p|..]
  }

  /** Without an occurrence nothing changes ... */
  lemma ReplaceWithoutOccurrence(s: string, p: string, r: string)
    requires forall j :: 0 <= j <= |s| ==> !OccursAt(s, p, j)
    ensures ReplaceFirst(s, p, r) == s
  {
  }

  /** ... and otherwise exactly the first occurrence is replaced, the text around it kept. */
  lemma ReplaceFirstOccurrence(a: string, p: string, b: string, r: string)
    requires forall j :: 0 <= j < |a| ==> !OccursAt(a + p + b, p, j)
    ensures ReplaceFirst(a + p + b, p, r) == a + r + b
  {
    var s := a + p + b;
    assert s[|a|..|a| + |p|] == p;
    assert OccursAt(s, p, |a|);
    var k := FindFirst(s, p).value;
    assert k == |a|;
    assert s[..k] == a && s[k + |p|..] == b;
  }

  // ---------------------------------------------------------------------------
  // `split(' ')` and `join(' ')`
  // ---------------------------------------------------------------------------

  /** `s.split(' ')`: the pieces between the spaces; the empty text gives one empty piece. */
  function Split(s: string): (pieces: seq<string>)
    ensures |pieces| >= 1
    ensures forall i :: 0 <= i < |pieces| ==> ' ' !in pieces[i]
    decreases |s|
  {
    match IndexOf(s, ' ')
    case None => [s]
    case Some(k) =>
      var rest := Split(s[k + 1..]);
      assert forall i :: 1 <= i < |[s[..k]] + rest| ==> ([s[..k]] + rest)[i] == rest[i - 1];
      [s[..k]] + rest
  }

  /** `pieces.join(' ')`. */
  function Join(pieces: seq<string>): string {
    if |pieces| == 0 then ""
    else if |pieces| == 1 then pieces[0]
    else pieces[0] + " " + Join(pieces[1..])
  }

  /** Joining the pieces again gives back the text. */
  lemma {:induction false} JoinSplit(s: string)
    ensures Join(Split(s)) == s
    decreases |s|
  {
    match IndexOf(s, ' ')
    case None =>
    case Some(k) =>
      var rest := Split(s[k + 1..]);
      JoinSplit(s[k + 1..]);
      assert Split(s)[1..] == rest;
      assert s == s[..k] + " " + s[k + 1..];
  }

  /** Splitting the join of space-free pieces gives back the pieces. */
  lemma {:induction false} SplitJoin(pieces: seq<string>)
    requires |pieces| >= 1
    requires forall i :: 0 <= i < |pieces| ==> ' ' !in pieces[i]
    ensures Split(Join(pieces)) == pieces
  {
    if |pieces| > 1 {
      var s := Join(pieces);
      IndexOfAfterPrefix(pieces[0], ' ', Join(pieces[1..]));
      assert s[..|pieces[0]|] == pieces[0];
      assert s[|pieces[0]| + 1..] == Join(pieces[1..]);
      SplitJoin(pieces[1..]);
    }
  }

  /** The first piece is the text up to the first space; it is empty exactly when the text is empty or starts with a space. */
  lemma FirstPiece(s: string)
    ensures Split(s)[0] == "" <==> s == "" || s[0] == ' '
    ensures ' ' !in s ==> Split(s) == [s]
  {
  }

  // ---------------------------------------------------------------------------
  // Case conversion
  // ---------------------------------------------------------------------------

  predicate IsUpper(c: char) {
    'A' <= c <= 'Z'
  }

  /** `toUpperCase` of one character, for the ASCII letters. */
  function ToUpper(c: char): (u: char)
    ensures 'a' <= c <= 'z' ==> IsUpper(u) && u as int == c as int - 32
    ensures !('a' <= c <= 'z') ==> u == c
  {
    if 'a' <= c <= 'z' then (c as int - 32) as char else c
  }

  /** `t.replace(/([A-Z])/g, ' $1')`: a space in front of every capital letter. */
  function SpaceBeforeCapitals(t: string): string {
    if t == [] then ""
    else (if IsUpper(t[0]) then " " + [t[0]] else [t[0]]) + SpaceBeforeCapitals(t[1..])
  }

  /** Dropping every space. */
  function RemoveSpaces(t: string): string {
    if t == [] then ""
    else (if t[0] == ' ' then "" else [t[0]]) + RemoveSpaces(t[1..])
  }

  function CountUpper(t: string): nat {
    if t == [] then 0 else (if IsUpper(t[0]) then 1 else 0) + CountUpper(t[1..])
  }

  /** The conversion only inserts spaces: removing them gives back a space-free word ... */
  lemma {:induction false} SpacesAreTheOnlyChange(t: string)
    requires ' ' !in t
    ensures RemoveSpaces(SpaceBeforeCapitals(t)) == t
  {
    if t != [] {
      var head := if IsUpper(t[0]) then " " + [t[0]] else [t[0]];
      SpacesAreTheOnlyChange(t[1..]);
      RemoveSpacesAppend(head, SpaceBeforeCapitals(t[1..]));
      assert t == [t[0]] + t[1..];
    }
  }

  lemma {:induction false} RemoveSpacesAppend(a: string, b: string)
    ensures RemoveSpaces(a + b) == RemoveSpaces(a) + RemoveSpaces(b)
  {
    if a != [] {
      assert (a + b)[1..] == a[1..] + b;
      RemoveSpacesAppend(a[1..], b);
    } else {
      assert a + b == b;
    }
  }

  /** ... one space is inserted per capital ... */
  lemma {:induction false} OneSpacePerCapital(t: string)
    ensures |SpaceBeforeCapitals(t)| == |t| + CountUpper(t)
  {
    if t != [] {
      OneSpacePerCapital(t[1..]);
    }
  }

  /** Every capital of `r` has a space right in front of it. */
  predicate CapitalsPreceded(r: string) {
    forall i :: 0 <= i < |r| && IsUpper(r[i]) ==> i > 0 && r[i - 1] == ' '
  }

  /** ... and every capital of the result has a space right in front of it. */
  lemma {:induction false} CapitalsArePreceded(t: string)
    ensures CapitalsPreceded(SpaceBeforeCapitals(t))
  {
    if t != [] {
      CapitalsArePreceded(t[1..]);
      assert CapitalsPreceded(SpaceBeforeCapitals(t[1..]));
      var head := if IsUpper(t[0]) then " " + [t[0]] else [t[0]];
      var tail := SpaceBeforeCapitals(t[1..]);
      var r := head + tail;
      forall i | 0 <= i < |r| && IsUpper(r[i])
        ensures i > 0 && r[i - 1] == ' '
      {
        if i >= |head| {
          var j := i - |head|;
          assert r[i] == tail[j] && IsUpper(tail[j]);
          assert j > 0 && tail[j - 1] == ' ';
          assert r[i - 1] == tail[j - 1];
        } else if IsUpper(t[0]) {
          assert i == 1;
        }
      }
    }
  }

  // ---------------------------------------------------------------------------
  // The formatter
  // ---------------------------------------------------------------------------

  const BadRequestPrefix: string := "Bad Request: data/"
  const ForbiddenPrefix: string := "Forbidden: "

  /** The text with the first `Bad Request: data/` removed, then the first `Forbidden: `. */
  function Stripped(message: string): string {
    ReplaceFirst(ReplaceFirst(message, BadRequestPrefix, ""), ForbiddenPrefix, "")
  }

  /** A camelCase word in Sentence case: the first letter capitalised, a space before every later capital. */
  function SentenceCase(word: string): string
    requires word != []
  {
    [ToUpper(word[0])] + SpaceBeforeCapitals(word[1..])
  }

  /** The first letter is capitalised and the rest only gains spaces, one per capital. */
  lemma SentenceCaseOfWord(word: string)
    requires word != [] && ' ' !in word
    ensures var s := SentenceCase(word);
            && s[0] == ToUpper(word[0])
            && RemoveSpaces(s[1..]) == word[1..]
            && |s| == |word| + CountUpper(word[1..])
  {
    var s := SentenceCase(word);
    assert s[1..] == SpaceBeforeCapitals(word[1..]);
    assert ' ' !in word[1..] by {
      assert forall i :: 0 <= i < |word[1..]| ==> word[1..][i] == word[i + 1];
    }
    SpacesAreTheOnlyChange(word[1..]);
    OneSpacePerCapital(word[1..]);
  }

  /**
   * `formatServerResponse(message)`. When the stripped text is empty or starts with a
   * space, the first word has no first character and the call throws; that is None.
   */
  function FormatServerResponse(message: string): Option<string> {
    var pieces := Split(Stripped(message));
    if pieces[0] == "" then None
    else Some(SentenceCase(pieces[0]) + " " + Join(pieces[1..]))
  }

  /** The formatter fails exactly when the stripped text is empty or starts with a space. */
  lemma FormatFailsIffNoFirstWord(message: string)
    ensures var str := Stripped(message);
            FormatServerResponse(message).None? <==> str == "" || str[0] == ' '
  {
    FirstPiece(Stripped(message));
  }

  /**
   * Otherwise the stripped text is a first word, and after the first space (if any) a
   * rest; the result is the word in Sentence case, a space, and the rest exactly as it
   * was. A single word gets a trailing space.
   */
  lemma FormatKeepsRest(message: string, word: string, rest: string)
    requires word != [] && ' ' !in word
    requires Stripped(message) == word + " " + rest || (Stripped(message) == word && rest == "")
    ensures FormatServerResponse(message) == Some(SentenceCase(word) + " " + rest)
  {
    var str := Stripped(message);
    if str == word {
      FirstPiece(str);
    } else {
      IndexOfAfterPrefix(word, ' ', rest);
      assert str[..|word|] == word && str[|word| + 1..] == rest;
      JoinSplit(rest);
      assert Split(str)[1..] == Split(rest);
    }
  }

  /** A text starting with `Bad Request: data/` and free of `Forbidden: ` loses exactly that prefix. */
  lemma StripsLeadingPrefix(tail: string)
    requires forall j :: 0 <= j <= |tail| ==> !OccursAt(tail, ForbiddenPrefix, j)
    ensures Stripped(BadRequestPrefix + tail) == tail
  {
    ReplaceFirstOccurrence("", BadRequestPrefix, tail, "");
    assert "" + BadRequestPrefix + tail == BadRequestPrefix + tail;
    assert "" + "" + tail == tail;
    ReplaceWithoutOccurrence(tail, ForbiddenPrefix, "");
  }
}

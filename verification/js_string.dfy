/** The two string primitives the profile handlers rely on:
    `String.prototype.trim` (which decides whether a search or a chat
    message is blank) and `String.prototype.toLowerCase` (which normalises a
    search query before it is looked up). */
module JsString {

  /** ECMAScript WhiteSpace and LineTerminator code points: exactly the
      characters `trim` strips from both ends of a string. */
  predicate IsWhiteSpace(c: char) {
    || c == '\t' || c == '\n' || c == '\U{000B}' || c == '\U{000C}' || c == '\r'
    || c == ' ' || c == '\U{00A0}' || c == '\U{1680}'
    || ('\U{2000}' <= c <= '\U{200A}')
    || c == '\U{2028}' || c == '\U{2029}' || c == '\U{202F}' || c == '\U{205F}'
    || c == '\U{3000}' || c == '\U{FEFF}'
  }

  /** Every character of `s` is white space (the empty string included). */
  predicate IsBlank(s: string) {
    forall k :: 0 <= k < |s| ==> IsWhiteSpace(s[k])
  }

  /** `t` has nothing left for `trim` to remove. */
  predicate IsTrimmed(t: string) {
    t == [] || (!IsWhiteSpace(t[0]) && !IsWhiteSpace(t[|t| - 1]))
  }

  /** Number of white-space characters at the start of `s`. */
  function LeadingWhiteSpace(s: string): (n: nat)
    ensures n <= |s|
    ensures forall k :: 0 <= k < n ==> IsWhiteSpace(s[k])
    ensures n < |s| ==> !IsWhiteSpace(s[n])
  {
    if |s| == 0 || !IsWhiteSpace(s[0]) then 0
    else 1 + LeadingWhiteSpace(s[1..])
  }

  /** Number of white-space characters at the end of `s`. */
  function TrailingWhiteSpace(s: string): (n: nat)
    ensures n <= |s|
    ensures forall k :: |s| - n <= k < |s| ==> IsWhiteSpace(s[k])
    ensures n < |s| ==> !IsWhiteSpace(s[|s| - 1 - n])
  {
    if |s| == 0 || !IsWhiteSpace(s[|s| - 1]) then 0
    else 1 + TrailingWhiteSpace(s[..|s| - 1])
  }

  /** `s.trim()`: `s` without its leading and trailing white space. */
  function Trim(s: string): (t: string)
    ensures IsTrimmed(t)
    ensures t == [] <==> IsBlank(s)
    ensures |t| <= |s|
  {
    var i := LeadingWhiteSpace(s);
    if i == |s| then []
    else s[i..|s| - TrailingWhiteSpace(s)]
  }

  /** `Trim` only removes white space: `s` is the trimmed text with a blank
      prefix and a blank suffix around it. */
  lemma TrimSplits(s: string) returns (lead: string, trail: string)
    ensures s == lead + Trim(s) + trail
    ensures IsBlank(lead) && IsBlank(trail)
  {
    var i := LeadingWhiteSpace(s);
    if i == |s| {
      lead, trail := s, [];
    } else {
      var j := |s| - TrailingWhiteSpace(s);
      lead, trail := s[..i], s[j..];
      assert s == s[..i] + s[i..j] + s[j..];
    }
  }

  /** The converse of `TrimSplits`: whenever a trimmed text is surrounded by
      white space only, `Trim` returns exactly that text. Together the two
      lemmas characterise `Trim` as the unique blank/trimmed/blank split. */
  lemma TrimOfPadded(lead: string, t: string, trail: string)
    requires IsBlank(lead) && IsBlank(trail) && IsTrimmed(t)
    ensures Trim(lead + t + trail) == t
  {
    var s := lead + t + trail;
    if t != [] {
      var i := LeadingWhiteSpace(s);
      assert s[|lead|] == t[0];
      assert i == |lead|;
      var n := TrailingWhiteSpace(s);
      assert s[|lead| + |t| - 1] == t[|t| - 1];
      assert n == |trail|;
      assert s[i..|s| - n] == t;
    }
  }

  /** Trimming twice is trimming once. */
  lemma TrimIdempotent(s: string)
    ensures Trim(Trim(s)) == Trim(s)
  {
    TrimOfPadded([], Trim(s), []);
    assert [] + Trim(s) + [] == Trim(s);
  }

  /** The lower-case form of one character: `A`..`Z` map to `a`..`z`,
      everything else is left alone. */
  function ToLower(c: char): char {
    if 'A' <= c <= 'Z' then (c as int + 32) as char else c
  }

  /** `s.toLowerCase()`, character by character. */
  function ToLowerCase(s: string): (r: string)
    ensures |r| == |s|
    ensures forall k :: 0 <= k < |s| ==> r[k] == ToLower(s[k])
  {
    if s == [] then [] else [ToLower(s[0])] + ToLowerCase(s[1..])
  }

  /** No upper-case ASCII letter is left after lowering. */
  predicate IsLowerCase(s: string) {
    forall k :: 0 <= k < |s| ==> !('A' <= s[k] <= 'Z')
  }

  /** Lowering yields a lower-case string, and lowering that again changes
      nothing. */
  lemma ToLowerCaseIdempotent(s: string)
    ensures IsLowerCase(ToLowerCase(s))
    ensures ToLowerCase(ToLowerCase(s)) == ToLowerCase(s)
  {
  }

  /** A string with no upper-case letter is its own lower-case form. */
  lemma ToLowerCaseOfLowerCase(s: string)
    requires IsLowerCase(s)
    ensures ToLowerCase(s) == s
  {
  }

  /** Lowering does not touch white space, so a query is blank after
      lowering exactly when it was blank before. */
  lemma ToLowerCaseKeepsBlankness(s: string)
    ensures IsBlank(ToLowerCase(s)) <==> IsBlank(s)
  {
    var r := ToLowerCase(s);
    forall k | 0 <= k < |s|
      ensures IsWhiteSpace(r[k]) <==> IsWhiteSpace(s[k])
    {
      assert r[k] == ToLower(s[k]);
    }
  }
}

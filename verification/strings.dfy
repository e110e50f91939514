/**
 The string handling of the care-plan handler: the whitespace trim that
 validation applies to `conditions`, and the sanitiser that deletes every
 angle bracket and then trims, before the text is appended to the prompt.
 */
module Strings {

  /** The characters that ECMAScript's String.prototype.trim removes: the
      WhiteSpace and LineTerminator productions of ECMA-262 (section 12.2 and
      section 12.3). Space_Separator is the set of Unicode "Zs" characters. */
  predicate IsWhitespace(c: char) {
    || c == '\t' || c == '\n' || c == '\U{000B}' || c == '\U{000C}' || c == '\r'
    || c == ' ' || c == '\U{00A0}' || c == '\U{1680}'
    || ('\U{2000}' <= c <= '\U{200A}')
    || c == '\U{2028}' || c == '\U{2029}' || c == '\U{202F}' || c == '\U{205F}'
    || c == '\U{3000}' || c == '\U{FEFF}'
  }

  /** The two characters the sanitising regular expression `/[<>]/g` matches. */
  predicate IsAngle(c: char) {
    c == '<' || c == '>'
  }

  predicate NoAngles(s: string) {
    forall i :: 0 <= i < |s| ==> !IsAngle(s[i])
  }

  /** Every character of `s` in positions `lo` up to `hi` is whitespace. */
  predicate WhitespaceBetween(s: string, lo: int, hi: int)
    requires 0 <= lo && hi <= |s|
  {
    forall k :: lo <= k < hi ==> IsWhitespace(s[k])
  }

  /** The blank text that validation rejects. */
  predicate AllWhitespace(s: string) {
    WhitespaceBetween(s, 0, |s|)
  }

  /** Neither end of `s` is whitespace. */
  predicate Trimmed(s: string) {
    s == [] || (!IsWhitespace(s[0]) && !IsWhitespace(s[|s| - 1]))
  }

  /** Reference definition of trimming, independent of how it is computed:
      `r` is a slice of `s`, everything cut off on either side is whitespace,
      and neither end of `r` is whitespace. */
  ghost predicate IsTrimOf(r: string, s: string) {
    exists i, j :: TrimsAt(r, s, i, j)
  }

  /** `r` is `s[i..j]`, the parts of `s` outside `i..j` are whitespace, and
      neither end of `r` is. */
  predicate TrimsAt(r: string, s: string, i: int, j: int) {
    && 0 <= i <= j <= |s| && r == s[i..j]
    && WhitespaceBetween(s, 0, i) && WhitespaceBetween(s, j, |s|)
    && Trimmed(r)
  }

  /** The position of the first character at or after `from` that is not
      whitespace, or `|s|` if there is none. */
  function SkipLeading(s: string, from: nat): (n: nat)
    requires from <= |s|
    ensures from <= n <= |s|
    ensures WhitespaceBetween(s, from, n)
    ensures n < |s| ==> !IsWhitespace(s[n])
    decreases |s| - from
  {
    if from < |s| && IsWhitespace(s[from]) then SkipLeading(s, from + 1) else from
  }

  /** The position just after the last character before `to` that is not
      whitespace, or 0 if there is none. */
  function SkipTrailing(s: string, to: nat): (n: nat)
    requires to <= |s|
    ensures n <= to
    ensures WhitespaceBetween(s, n, to)
    ensures 0 < n ==> !IsWhitespace(s[n - 1])
  {
    if 0 < to && IsWhitespace(s[to - 1]) then SkipTrailing(s, to - 1) else to
  }

  /** ECMAScript `s.trim()`. */
  function Trim(s: string): (r: string)
    ensures IsTrimOf(r, s)
  {
    var i := SkipLeading(s, 0);
    var j := SkipTrailing(s, |s|);
    if i < j then
      assert TrimsAt(s[i..j], s, i, j);
      s[i..j]
    else
      assert TrimsAt([], s, |s|, |s|);
      []
  }

  /** `s.replace(/[<>]/g, '')`: every angle bracket deleted, every other
      character kept with its multiplicity. */
  function StripAngles(s: string): (r: string)
    ensures NoAngles(r)
    ensures multiset(r) == multiset(s)['<' := 0]['>' := 0]
  {
    if s == [] then []
    else
      assert s == [s[0]] + s[1..];
      if IsAngle(s[0]) then StripAngles(s[1..])
      else [s[0]] + StripAngles(s[1..])
  }

  /** `conditions.replace(/[<>]/g, '').trim()` (index.js line 44). */
  function Sanitize(s: string): (r: string)
    ensures NoAngles(r)
    ensures Trimmed(r)
    ensures IsTrimOf(r, StripAngles(s))
  {
    Trim(StripAngles(s))
  }

  /** The trim is determined by its reference definition: any slice meeting
      `IsTrimOf` is the one `Trim` computes. */
  lemma TrimUnique(r: string, s: string)
    requires IsTrimOf(r, s)
    ensures r == Trim(s)
  {
    var i, j :| TrimsAt(r, s, i, j);
    var lead := SkipLeading(s, 0);
    var trail := SkipTrailing(s, |s|);
    if r == [] {
      assert AllWhitespace(s);
      assert lead == |s|;
    } else {
      assert s[i] == r[0] && s[j - 1] == r[|r| - 1];
      assert lead == i;
      assert trail == j;
    }
  }

  /** Validation rejects exactly the inputs made only of whitespace. */
  lemma TrimEmptyIff(s: string)
    ensures Trim(s) == [] <==> AllWhitespace(s)
  {
    var lead := SkipLeading(s, 0);
    assert AllWhitespace(s) <==> lead == |s|;
  }

  /** Trimming a string whose ends are not whitespace changes nothing. */
  lemma TrimOfTrimmed(s: string)
    requires Trimmed(s)
    ensures Trim(s) == s
  {
    assert TrimsAt(s, s, 0, |s|);
    TrimUnique(s, s);
  }

  /** Stripping distributes over concatenation, so it acts character by
      character. */
  lemma {:induction false} StripAnglesConcat(a: string, b: string)
    ensures StripAngles(a + b) == StripAngles(a) + StripAngles(b)
    decreases |a|
  {
    if a == [] {
      assert a + b == b;
    } else {
      assert (a + b)[1..] == a[1..] + b;
      StripAnglesConcat(a[1..], b);
    }
  }

  /** Stripping leaves a string unchanged exactly when it has no angle
      brackets. */
  lemma {:induction false} StripAnglesIdentity(s: string)
    ensures StripAngles(s) == s <==> NoAngles(s)
  {
    if s != [] && NoAngles(s) {
      assert NoAngles(s[1..]) by {
        forall k | 0 <= k < |s[1..]| ensures !IsAngle(s[1..][k]) { assert s[1..][k] == s[k + 1]; }
      }
      StripAnglesIdentity(s[1..]);
    }
  }

  /** Stripping a text made only of angle brackets leaves nothing. */
  lemma {:induction false} StripAllAngles(s: string)
    requires forall i :: 0 <= i < |s| ==> IsAngle(s[i])
    ensures StripAngles(s) == []
  {
    if s != [] {
      assert forall i :: 0 <= i < |s[1..]| ==> s[1..][i] == s[i + 1];
      StripAllAngles(s[1..]);
    }
  }

  /** Sanitising is idempotent. */
  lemma {:induction false} SanitizeIdempotent(s: string)
    ensures Sanitize(Sanitize(s)) == Sanitize(s)
  {
    var r := Sanitize(s);
    StripAnglesIdentity(r);
    TrimOfTrimmed(r);
  }

  /** A non-blank sanitised text only comes from an input that passes
      validation; the converse fails (see `AngleOnlyInputSanitisesToEmpty`). */
  lemma SanitizedNonEmptyPassesValidation(s: string)
    requires Sanitize(s) != []
    ensures Trim(s) != []
  {
    var r := Sanitize(s);
    var t := StripAngles(s);
    var i, j :| TrimsAt(r, t, i, j);
    var c := t[i];
    assert c == r[0];
    assert !IsAngle(c) && !IsWhitespace(c);
    assert multiset(t)[c] > 0;
    assert multiset(s)[c] == multiset(t)[c];
    assert c in s;
    var k :| 0 <= k < |s| && s[k] == c;
    TrimEmptyIff(s);
  }

  /** Validation trims the raw text, the sanitiser trims after stripping: a
      non-empty text made only of angle brackets, such as "<>", is accepted
      but sanitises to the empty string. */
  lemma AngleOnlyInputSanitisesToEmpty(s: string)
    requires s != [] && forall i :: 0 <= i < |s| ==> IsAngle(s[i])
    ensures !AllWhitespace(s)
    ensures Sanitize(s) == []
  {
    assert !IsWhitespace(s[0]);
    StripAllAngles(s);
    TrimOfTrimmed([]);
  }
}

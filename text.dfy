/** String helpers with the meaning of the JavaScript built-ins the application relies on:
    `String.prototype.trim`, ASCII `toLowerCase`, `includes`, and the two anchored
    replacements (`^` and `$` without the multiline flag match only at the very start
    and the very end of the text). */
module Text {

  /** White space and line terminators as `String.prototype.trim` removes them (ECMAScript
      WhiteSpace and LineTerminator, with every Space_Separator code point). */
  predicate IsWhitespace(c: char) {
    || c == '\t' || c == '\n' || c == '\U{B}' || c == '\U{C}' || c == '\r' || c == ' '
    || c == '\U{A0}' || c == '\U{1680}' || ('\U{2000}' <= c <= '\U{200A}')
    || c == '\U{2028}' || c == '\U{2029}' || c == '\U{202F}' || c == '\U{205F}' || c == '\U{3000}'
    || c == '\U{FEFF}'
  }

  /** Every character of `s` is white space (vacuously true of the empty string). */
  ghost predicate AllWhitespace(s: string) {
    forall i :: 0 <= i < |s| ==> IsWhitespace(s[i])
  }

  /** `s` with its leading white space removed. */
  function TrimStart(s: string): (r: string)
    ensures |r| <= |s| && r == s[|s| - |r|..]
    ensures r == [] || !IsWhitespace(r[0])
    ensures forall i :: 0 <= i < |s| - |r| ==> IsWhitespace(s[i])
  {
    if s != [] && IsWhitespace(s[0]) then TrimStart(s[1..]) else s
  }

  /** `s` with its trailing white space removed. */
  function TrimEnd(s: string): (r: string)
    ensures |r| <= |s| && r == s[..|r|]
    ensures r == [] || !IsWhitespace(r[|r| - 1])
    ensures forall i :: |r| <= i < |s| ==> IsWhitespace(s[i])
  {
    if s != [] && IsWhitespace(s[|s| - 1]) then TrimEnd(s[..|s| - 1]) else s
  }

  /** `needle` occurs in `hay` at offset `k`; the reference meaning of `includes`. */
  ghost predicate OccursAt(hay: string, needle: string, k: int) {
    0 <= k && k + |needle| <= |hay| && hay[k..k + |needle|] == needle
  }

  /** Cutting white space off the start of `s` at `k`, and then off the end of what is left,
      keeps a slice of `s` with only white space cut off on either side. */
  lemma TrimWitness(s: string, k: int, t: string, r: string)
    requires 0 <= k <= |s| && t == s[k..] && |r| <= |t| && r == t[..|r|]
    requires forall i :: 0 <= i < k ==> IsWhitespace(s[i])
    requires forall i :: |r| <= i < |t| ==> IsWhitespace(t[i])
    requires t == [] || !IsWhitespace(t[0])
    requires r == [] || !IsWhitespace(r[|r| - 1])
    ensures OccursAt(s, r, k) && AllWhitespace(s[..k]) && AllWhitespace(s[k + |r|..])
    ensures r == [] || (!IsWhitespace(r[0]) && !IsWhitespace(r[|r| - 1]))
  {
    assert forall i :: 0 <= i < |r| ==> r[i] == t[i] == s[k + i];
    assert s[k..k + |r|] == r;
    assert forall i :: 0 <= i < k ==> s[..k][i] == s[i];
    assert s[k + |r|..] == t[|r|..];
  }

  /** `s.trim()`: a contiguous slice of `s` that neither starts nor ends with white space,
      and everything cut off on either side is white space. */
  function Trim(s: string): (r: string)
    ensures exists k :: OccursAt(s, r, k) && AllWhitespace(s[..k]) && AllWhitespace(s[k + |r|..])
    ensures r == [] || (!IsWhitespace(r[0]) && !IsWhitespace(r[|r| - 1]))
  {
    var t := TrimStart(s);
    var r := TrimEnd(t);
    TrimWitness(s, |s| - |t|, t, r);
    r
  }

  /** Nothing but white space, read character by character; `!s.trim()` is this test
      (`BlankIffTrimsToEmpty`). */
  predicate IsBlank(s: string)
    decreases |s|
  {
    s == [] || (IsWhitespace(s[0]) && IsBlank(s[1..]))
  }

  /** The character-by-character test agrees with the quantified one. */
  lemma {:induction false} BlankIffAllWhitespace(s: string)
    ensures IsBlank(s) <==> AllWhitespace(s)
    decreases |s|
  {
    if s != [] {
      BlankIffAllWhitespace(s[1..]);
      assert forall i :: 1 <= i < |s| ==> s[1..][i - 1] == s[i];
    }
  }

  /** `!s.trim()` holds exactly for the blank strings: trimming leaves nothing exactly when
      there is nothing but white space. */
  lemma BlankIffTrimsToEmpty(s: string)
    ensures IsBlank(s) <==> Trim(s) == []
  {
    BlankIffAllWhitespace(s);
    if Trim(s) == [] {
      var k :| OccursAt(s, Trim(s), k) && AllWhitespace(s[..k]) && AllWhitespace(s[k..]);
      assert forall i :: 0 <= i < |s| ==> (i < k ==> s[..k][i] == s[i]) && (k <= i ==> s[k..][i - k] == s[i]);
    }
  }

  /** A string that starts with a visible character is not blank. */
  lemma VisibleStartIsNotBlank(s: string)
    requires s != [] && !IsWhitespace(s[0])
    ensures !IsBlank(s)
  {
  }

  /** ASCII lower-casing of one character; every other character is left alone. */
  function LowerChar(c: char): char {
    if 'A' <= c <= 'Z' then (c as int + 32) as char else c
  }

  /** `s.toLowerCase()`, restricted to the ASCII letters. */
  function ToLower(s: string): (r: string)
    ensures |r| == |s|
    ensures forall i :: 0 <= i < |s| ==> r[i] == LowerChar(s[i])
  {
    if s == [] then [] else [LowerChar(s[0])] + ToLower(s[1..])
  }

  predicate StartsWith(s: string, prefix: string) {
    |prefix| <= |s| && s[..|prefix|] == prefix
  }

  predicate EndsWith(s: string, suffix: string) {
    |suffix| <= |s| && s[|s| - |suffix|..] == suffix
  }

  /** `hay.includes(needle)`, written as a scan from the left. */
  function Includes(hay: string, needle: string): bool
    decreases |hay|
  {
    StartsWith(hay, needle) || (hay != [] && Includes(hay[1..], needle))
  }

  /** The scan finds `needle` exactly when it occurs at some offset. */
  lemma {:induction false} IncludesIffOccurs(hay: string, needle: string)
    ensures Includes(hay, needle) <==> exists k :: OccursAt(hay, needle, k)
    decreases |hay|
  {
    if StartsWith(hay, needle) {
      assert OccursAt(hay, needle, 0);
    } else if hay != [] {
      IncludesIffOccurs(hay[1..], needle);
      if exists k :: OccursAt(hay[1..], needle, k) {
        var k :| OccursAt(hay[1..], needle, k);
        assert hay[k + 1..k + 1 + |needle|] == hay[1..][k..k + |needle|];
        assert OccursAt(hay, needle, k + 1);
      }
      if exists k :: OccursAt(hay, needle, k) {
        var k :| OccursAt(hay, needle, k);
        assert k != 0;
        assert hay[1..][k - 1..k - 1 + |needle|] == hay[k..k + |needle|];
        assert OccursAt(hay[1..], needle, k - 1);
      }
    }
  }

  /** Every string includes itself and the empty string. */
  lemma IncludesSelfAndEmpty(s: string)
    ensures Includes(s, s) && Includes(s, [])
  {
    assert StartsWith(s, s);
    assert StartsWith(s, []);
  }
}

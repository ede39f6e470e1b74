/**
 * JavaScript's `String.prototype.trim`: removal of leading and trailing
 * white space, where white space is the ECMAScript WhiteSpace and
 * LineTerminator code points.
 */
module Whitespace {

  /** TAB, VT, FF, SPACE, NBSP, ZWNBSP, the Unicode space separators, LF, CR, LS and PS. */
  const JsWhitespace: set<char> := {
    '\t', '\U{000B}', '\U{000C}', ' ', '\U{00A0}', '\U{FEFF}',
    '\U{1680}', '\U{2000}', '\U{2001}', '\U{2002}', '\U{2003}', '\U{2004}',
    '\U{2005}', '\U{2006}', '\U{2007}', '\U{2008}', '\U{2009}', '\U{200A}',
    '\U{202F}', '\U{205F}', '\U{3000}',
    '\n', '\r', '\U{2028}', '\U{2029}'
  }

  predicate IsWhitespace(c: char) {
    c in JsWhitespace
  }

  predicate AllWhitespace(s: string) {
    forall i :: 0 <= i < |s| ==> IsWhitespace(s[i])
  }

  /** No white space at either end: what `trim` leaves. */
  predicate Trimmed(s: string) {
    s == [] || (!IsWhitespace(s[0]) && !IsWhitespace(s[|s| - 1]))
  }

  /** Drops the leading white space; what remains is a suffix of `s`. */
  function TrimStart(s: string): (r: string)
    ensures |r| <= |s| && r == s[|s| - |r|..]
    ensures AllWhitespace(s[..|s| - |r|])
    ensures r == [] || !IsWhitespace(r[0])
  {
    if |s| > 0 && IsWhitespace(s[0]) then
      var r := TrimStart(s[1..]);
      assert s[..|s| - |r|] == [s[0]] + s[1..][..|s[1..]| - |r|];
      r
    else s
  }

  /** Drops the trailing white space; what remains is a prefix of `s`. */
  function TrimEnd(s: string): (r: string)
    ensures |r| <= |s| && r == s[..|r|]
    ensures AllWhitespace(s[|r|..])
    ensures r == [] || !IsWhitespace(r[|r| - 1])
  {
    if |s| > 0 && IsWhitespace(s[|s| - 1]) then
      var r := TrimEnd(s[..|s| - 1]);
      assert s[|r|..] == s[..|s| - 1][|r|..] + [s[|s| - 1]];
      r
    else s
  }

  /**
   * `s.trim()`: `s` is white space, then the result, then white space, and
   * the result neither starts nor ends with white space. It is empty exactly
   * when `s` is all white space.
   */
  function Trim(s: string): (r: string)
    ensures exists lead, trail :: AllWhitespace(lead) && AllWhitespace(trail) && s == lead + r + trail
    ensures r == [] || (!IsWhitespace(r[0]) && !IsWhitespace(r[|r| - 1]))
    ensures r == [] <==> AllWhitespace(s)
  {
    var t := TrimStart(s);
    var r := TrimEnd(t);
    var lead, trail := s[..|s| - |t|], t[|r|..];
    SuffixSplits(s, t);
    PrefixSplits(t, r);
    TrimSplits(s, lead, t, r, trail);
    r
  }

  lemma SuffixSplits(s: string, t: string)
    requires |t| <= |s| && t == s[|s| - |t|..]
    ensures s == s[..|s| - |t|] + t
  {
  }

  lemma PrefixSplits(t: string, r: string)
    requires |r| <= |t| && r == t[..|r|]
    ensures t == r + t[|r|..]
  {
  }

  lemma TrimSplits(s: string, lead: string, t: string, r: string, trail: string)
    requires s == lead + t && t == r + trail
    requires AllWhitespace(lead) && AllWhitespace(trail)
    requires r == [] || (!IsWhitespace(r[0]) && !IsWhitespace(r[|r| - 1]))
    ensures exists lead, trail :: AllWhitespace(lead) && AllWhitespace(trail) && s == lead + r + trail
    ensures r == [] <==> AllWhitespace(s)
  {
    assert s == lead + r + trail;
    if r == [] {
      assert s == lead + trail;
      assert forall i :: 0 <= i < |s| ==> s[i] == if i < |lead| then lead[i] else trail[i - |lead|];
    } else {
      assert s[|lead|] == r[0];
    }
  }

  /** Trimming twice is trimming once. */
  lemma TrimIdempotent(s: string)
    ensures Trim(Trim(s)) == Trim(s)
  {
  }

  /** What `trim` leaves is trimmed, and empty only for an all-white-space input. */
  lemma TrimLeavesTrimmed(s: string)
    ensures Trimmed(Trim(s))
    ensures Trim(s) == [] <==> AllWhitespace(s)
  {
  }

  /** A string with no white space at either end is its own trim. */
  lemma TrimmedIsFixed(s: string)
    requires Trimmed(s)
    ensures Trim(s) == s
  {
  }
}

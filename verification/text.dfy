/**
 * String helpers with JavaScript semantics: `startsWith`, `indexOf` and
 * `split` on a single-character separator, together with the inverse `join`.
 */
module Text {
  import opened Wrappers

  /** JavaScript's `a || b` on an optional string: `b` when `a` is absent or empty. */
  function OrElse(a: Option<string>, b: string): (r: string)
    ensures a.Some? && a.value != "" ==> r == a.value
    ensures a.None? || a.value == "" ==> r == b
  {
    if a.Some? && a.value != "" then a.value else b
  }

  /** `s.startsWith(p)`. */
  predicate HasPrefix(s: string, p: string) {
    |p| <= |s| && s[..|p|] == p
  }

  lemma PrefixOfConcat(p: string, rest: string)
    ensures HasPrefix(p + rest, p)
  {
    assert (p + rest)[..|p|] == p;
  }

  /** Two strings that start with different characters share no longer prefix. */
  lemma PrefixesClash(s: string, p: string, q: string)
    requires |p| > 0 && |q| > 0 && p[0] != q[0]
    ensures !(HasPrefix(s, p) && HasPrefix(s, q))
  {
    assert HasPrefix(s, p) ==> s[0] == s[..|p|][0];
    assert HasPrefix(s, q) ==> s[0] == s[..|q|][0];
  }

  /** `s.indexOf(c)` when `c` occurs: the position of its first occurrence. */
  function IndexOf(s: string, c: char): (i: nat)
    requires c in s
    ensures i < |s| && s[i] == c
    ensures c !in s[..i]
  {
    if s[0] == c then 0
    else
      var j := IndexOf(s[1..], c);
      assert s[..j + 1] == [s[0]] + s[1..][..j];
      j + 1
  }

  lemma IndexOfAfterFree(a: string, c: char, b: string)
    requires c !in a
    ensures c in a + [c] + b
    ensures IndexOf(a + [c] + b, c) == |a|
  {
    var s := a + [c] + b;
    assert s[|a|] == c;
    var i := IndexOf(s, c);
    assert forall j :: 0 <= j < |a| ==> s[j] == a[j];
    assert forall j :: |a| < j <= |s| ==> s[..j][|a|] == c;
  }

  /** Concatenation with `sep` between consecutive parts: `parts.join(sep)`. */
  function Join(parts: seq<string>, sep: char): string
  {
    if |parts| == 0 then ""
    else if |parts| == 1 then parts[0]
    else parts[0] + [sep] + Join(parts[1..], sep)
  }

  /**
   * `s.split(sep)` for a one-character separator: the maximal separator-free
   * pieces between separators, empty pieces included. Joining them back with
   * the separator gives `s` again.
   */
  function Split(s: string, sep: char): (parts: seq<string>)
    ensures |parts| >= 1
    ensures forall i :: 0 <= i < |parts| ==> sep !in parts[i]
    ensures Join(parts, sep) == s
    decreases |s|
  {
    if sep !in s then [s]
    else
      var i := IndexOf(s, sep);
      var tail := Split(s[i + 1..], sep);
      var parts := [s[..i]] + tail;
      assert parts[1..] == tail;
      assert s == s[..i] + [sep] + s[i + 1..];
      parts
  }

  /** Splitting after a separator-free head peels that head off. */
  lemma SplitAfterFree(a: string, c: char, b: string)
    requires c !in a
    ensures Split(a + [c] + b, c) == [a] + Split(b, c)
  {
    var s := a + [c] + b;
    IndexOfAfterFree(a, c, b);
    assert s[..|a|] == a;
    assert s[|a| + 1..] == b;
  }

  /** `split` undoes `join` when no part contains the separator. */
  lemma {:induction false} SplitJoin(parts: seq<string>, c: char)
    requires |parts| >= 1
    requires forall i :: 0 <= i < |parts| ==> c !in parts[i]
    ensures Split(Join(parts, c), c) == parts
  {
    if |parts| > 1 {
      SplitAfterFree(parts[0], c, Join(parts[1..], c));
      SplitJoin(parts[1..], c);
    }
  }

  /** A separator-free head before the first separator is determined uniquely. */
  lemma {:induction false} SeparatedPairInjective(a: string, x: string, b: string, y: string, c: char)
    requires c !in a && c !in b
    requires a + [c] + x == b + [c] + y
    ensures a == b && x == y
  {
    SplitAfterFree(a, c, x);
    SplitAfterFree(b, c, y);
    assert Split(x, c) == Split(y, c);
    assert Join(Split(x, c), c) == x;
  }
}

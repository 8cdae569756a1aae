/** Small value-level helpers that the Swift code takes from Foundation:
    optional values, `min`/`max`, trimming of white space, ASCII lower-casing
    and substring search on strings (strings are sequences of characters). */
module Basics {

  datatype Option<T> = None | Some(value: T)

  function Min(a: real, b: real): real { if a <= b then a else b }

  function Max(a: real, b: real): real { if a >= b then a else b }

  /** `max(lo, min(hi, x))`, the clamp the Swift code writes out inline. */
  function Clamp(lo: real, hi: real, x: real): (r: real)
    requires lo <= hi
    ensures lo <= r <= hi
    ensures lo <= x <= hi ==> r == x
    ensures x < lo ==> r == lo
    ensures x > hi ==> r == hi
  {
    Max(lo, Min(hi, x))
  }

  /** The characters of Foundation's `.whitespacesAndNewlines`: the Unicode
      space separators, TAB through CR, NEL and the line/paragraph separators. */
  predicate IsWhitespace(c: char) {
    c == ' ' || ('\t' <= c <= '\r') || c == '\U{85}' || c == '\U{A0}' || c == '\U{1680}'
    || ('\U{2000}' <= c <= '\U{200A}') || c == '\U{2028}' || c == '\U{2029}'
    || c == '\U{202F}' || c == '\U{205F}' || c == '\U{3000}'
  }

  predicate AllWhitespace(s: string) {
    forall i :: 0 <= i < |s| ==> IsWhitespace(s[i])
  }

  /** True when `s` neither starts nor ends with white space. */
  predicate Trimmed(s: string) {
    s == [] || (!IsWhitespace(s[0]) && !IsWhitespace(s[|s| - 1]))
  }

  /** Drops the leading white space: the result is the suffix of `s` that
      starts at its first non-white-space character. */
  function TrimStart(s: string): (r: string)
    ensures |r| <= |s| && r == s[|s| - |r|..]
    ensures r == [] || !IsWhitespace(r[0])
    ensures forall i :: 0 <= i < |s| - |r| ==> IsWhitespace(s[i])
  {
    if |s| > 0 && IsWhitespace(s[0]) then
      TrimStart(s[1..])
    else s
  }

  /** Drops the trailing white space: the result is the prefix of `s` that
      ends at its last non-white-space character. */
  function TrimEnd(s: string): (r: string)
    ensures |r| <= |s| && r == s[..|r|]
    ensures r == [] || !IsWhitespace(r[|r| - 1])
    ensures forall i :: |r| <= i < |s| ==> IsWhitespace(s[i])
  {
    if |s| > 0 && IsWhitespace(s[|s| - 1]) then
      TrimEnd(s[..|s| - 1])
    else s
  }

  /** `trimmingCharacters(in: .whitespacesAndNewlines)`: removes white space
      at both ends and keeps the middle of the string as it is. */
  function Trim(s: string): (r: string)
    ensures Trimmed(r)
    ensures |r| <= |s|
  {
    TrimEnd(TrimStart(s))
  }

  lemma {:induction false} TrimStartOfPadded(pre: string, t: string)
    requires AllWhitespace(pre)
    requires t == [] || !IsWhitespace(t[0])
    ensures TrimStart(pre + t) == t
    decreases |pre|
  {
    if pre != [] {
      assert (pre + t)[1..] == pre[1..] + t;
      TrimStartOfPadded(pre[1..], t);
    } else {
      assert pre + t == t;
    }
  }

  lemma {:induction false} TrimEndOfPadded(t: string, post: string)
    requires AllWhitespace(post)
    requires t == [] || !IsWhitespace(t[|t| - 1])
    ensures TrimEnd(t + post) == t
    decreases |post|
  {
    if post != [] {
      var n := |post| - 1;
      assert (t + post)[..|t + post| - 1] == t + post[..n];
      TrimEndOfPadded(t, post[..n]);
    } else {
      assert t + post == t;
    }
  }

  /** A trimmed string is its own trimming. */
  lemma TrimOfTrimmed(t: string)
    requires Trimmed(t)
    ensures Trim(t) == t
  {
    TrimStartOfPadded([], t);
    assert [] + t == t;
    TrimEndOfPadded(t, []);
    assert t + [] == t;
  }

  /** White space alone trims to the empty string. */
  lemma TrimOfBlank(blank: string)
    requires AllWhitespace(blank)
    ensures Trim(blank) == []
  {
    TrimStartOfPadded(blank, []);
    assert blank + [] == blank;
  }

  /** Trimming is determined by the string's trimmed core: whatever white
      space surrounds a trimmed string, trimming gives that string back. */
  lemma TrimOfPadded(pre: string, core: string, post: string)
    requires AllWhitespace(pre) && AllWhitespace(post) && Trimmed(core)
    ensures Trim(pre + core + post) == core
  {
    assert pre + core + post == pre + (core + post);
    if core == [] {
      assert pre + core + post == pre + post;
      assert AllWhitespace(pre + post) by {
        forall i | 0 <= i < |pre + post| ensures IsWhitespace((pre + post)[i]) {
          if i >= |pre| { assert (pre + post)[i] == post[i - |pre|]; }
        }
      }
      TrimOfBlank(pre + post);
    } else {
      TrimStartOfPadded(pre, core + post);
      TrimEndOfPadded(core, post);
    }
  }

  /** ASCII lower-casing of one character. */
  function LowerChar(c: char): char {
    if 'A' <= c <= 'Z' then (c as int + 32) as char else c
  }

  /** `lowercased()`, restricted to the ASCII letters: every capital
      becomes its small letter, every other character is kept, so no
      capital is left. */
  function Lowercased(s: string): (r: string)
    ensures |r| == |s|
    ensures forall i :: 0 <= i < |s| && 'A' <= s[i] <= 'Z' ==> r[i] == (s[i] as int + 32) as char
    ensures forall i :: 0 <= i < |s| && !('A' <= s[i] <= 'Z') ==> r[i] == s[i]
    ensures forall i :: 0 <= i < |r| ==> !('A' <= r[i] <= 'Z')
  {
    seq(|s|, i requires 0 <= i < |s| => LowerChar(s[i]))
  }

  /** Lower-casing works character by character, so it distributes over
      concatenation, and lower-casing twice is lower-casing once. */
  lemma LowercasedConcat(a: string, b: string)
    ensures Lowercased(a + b) == Lowercased(a) + Lowercased(b)
    ensures Lowercased(Lowercased(a)) == Lowercased(a)
  {
  }

  predicate HasPrefix(s: string, p: string) {
    |p| <= |s| && s[..|p|] == p
  }

  /** `sub` occurs in `s` starting at position `i`. */
  predicate OccursAt(s: string, sub: string, i: int) {
    0 <= i <= |s| - |sub| && s[i..i + |sub|] == sub
  }

  /** `String.contains(_:)` for a substring: true exactly when the substring
      occurs at some position. */
  predicate Contains(s: string, sub: string): (r: bool)
    ensures r <==> exists i :: OccursAt(s, sub, i)
    decreases |s|
  {
    ContainsFirstOrLater(s, sub);
    HasPrefix(s, sub) || (|s| > 0 && Contains(s[1..], sub))
  }

  /** An occurrence is at the start, or it is an occurrence in the tail. */
  lemma ContainsFirstOrLater(s: string, sub: string)
    ensures (exists i :: OccursAt(s, sub, i)) <==>
      HasPrefix(s, sub) || (|s| > 0 && exists i :: OccursAt(s[1..], sub, i))
  {
    if exists i :: OccursAt(s, sub, i) {
      var i :| OccursAt(s, sub, i);
      if i > 0 {
        assert s[1..][i - 1..i - 1 + |sub|] == s[i..i + |sub|];
        assert OccursAt(s[1..], sub, i - 1);
      } else {
        assert HasPrefix(s, sub);
      }
    }
    if HasPrefix(s, sub) {
      assert OccursAt(s, sub, 0);
    }
    if |s| > 0 && exists i :: OccursAt(s[1..], sub, i) {
      var i :| OccursAt(s[1..], sub, i);
      assert s[i + 1..i + 1 + |sub|] == s[1..][i..i + |sub|];
      assert OccursAt(s, sub, i + 1);
    }
  }

  /** A string contains every string that occurs in it. */
  lemma ContainsOccurrence(pre: string, sub: string, post: string)
    ensures Contains(pre + sub + post, sub)
  {
    assert (pre + sub + post)[|pre|..|pre| + |sub|] == sub;
    assert OccursAt(pre + sub + post, sub, |pre|);
  }

  /** The first `n` characters (fewer when the string is shorter), as `prefix(n)`. */
  function Prefix(s: string, n: nat): (r: string)
    ensures |r| == if |s| < n then |s| else n
    ensures HasPrefix(s, r)
  {
    if |s| < n then s else s[..n]
  }
}

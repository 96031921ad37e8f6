/**
 * The Python string operations the request pipeline relies on, over strings
 * of Unicode scalar values: `str.strip()`, `str.startswith`, the substring
 * test `p in s`, and `str.replace` with a non-empty pattern.
 */
module Strings {

  /** The characters Python's `str.isspace()` accepts, which `str.strip()` removes. */
  predicate IsSpace(c: char) {
    || ('\U{0009}' <= c <= '\U{000D}')
    || ('\U{001C}' <= c <= '\U{0020}')
    || c == '\U{0085}' || c == '\U{00A0}' || c == '\U{1680}'
    || ('\U{2000}' <= c <= '\U{200A}')
    || c == '\U{2028}' || c == '\U{2029}' || c == '\U{202F}' || c == '\U{205F}' || c == '\U{3000}'
  }

  /** `s.lstrip()`: the longest suffix of `s` that does not start with whitespace. */
  function TrimStart(s: string): (r: string)
    ensures |r| <= |s| && r == s[|s| - |r|..]
    ensures r != [] ==> !IsSpace(r[0])
  {
    if s != [] && IsSpace(s[0]) then TrimStart(s[1..]) else s
  }

  /** `s.rstrip()`: the longest prefix of `s` that does not end with whitespace. */
  function TrimEnd(s: string): (r: string)
    ensures |r| <= |s| && r == s[..|r|]
    ensures r != [] ==> !IsSpace(r[|r| - 1])
  {
    if s != [] && IsSpace(s[|s| - 1]) then TrimEnd(s[..|s| - 1]) else s
  }

  /** `s.strip()`. */
  function Trim(s: string): string {
    TrimEnd(TrimStart(s))
  }

  /** `s.startswith(p)`. */
  predicate StartsWith(s: string, p: string) {
    |p| <= |s| && s[..|p|] == p
  }

  /** `p in s`: `p` occurs in `s` at some position. */
  predicate Contains(s: string, p: string)
    decreases |s|
  {
    |p| <= |s| && (StartsWith(s, p) || Contains(s[1..], p))
  }

  /**
   * `s.replace(pat, rep)`: scan left to right; at each position where `pat`
   * occurs, emit `rep` and resume after the occurrence; otherwise keep the
   * character and move on by one.
   */
  function ReplaceAll(s: string, pat: string, rep: string): string
    requires pat != []
    decreases |s|
  {
    if StartsWith(s, pat) then rep + ReplaceAll(s[|pat|..], pat, rep)
    else if s == [] then []
    else [s[0]] + ReplaceAll(s[1..], pat, rep)
  }

  /** Where the stripped text starts inside the original. */
  function TrimOffset(s: string): nat {
    |s| - |TrimStart(s)|
  }

  /** `lstrip` removes whitespace only. */
  lemma {:induction false} TrimStartRemovesSpaces(s: string)
    ensures forall i :: 0 <= i < TrimOffset(s) ==> IsSpace(s[i])
  {
    if s != [] && IsSpace(s[0]) {
      TrimStartRemovesSpaces(s[1..]);
      forall i | 1 <= i < TrimOffset(s)
        ensures IsSpace(s[i])
      {
        assert s[i] == s[1..][i - 1];
      }
    }
  }

  /** `rstrip` removes whitespace only. */
  lemma {:induction false} TrimEndRemovesSpaces(s: string)
    ensures forall i :: |TrimEnd(s)| <= i < |s| ==> IsSpace(s[i])
  {
    if s != [] && IsSpace(s[|s| - 1]) {
      TrimEndRemovesSpaces(s[..|s| - 1]);
    }
  }

  /** Stripping keeps one contiguous slice of the input. */
  lemma TrimSlice(s: string)
    ensures TrimOffset(s) + |Trim(s)| <= |s|
    ensures Trim(s) == s[TrimOffset(s)..TrimOffset(s) + |Trim(s)|]
  {
    var t, a := TrimStart(s), TrimOffset(s);
    var r := TrimEnd(t);
    SliceOfSlice(s, a, |r|);
  }

  lemma SliceOfSlice(s: string, a: nat, n: nat)
    requires a + n <= |s|
    ensures s[a..][..n] == s[a..a + n]
  {
  }

  /** The stripped text neither starts nor ends with whitespace. */
  lemma TrimEnds(s: string)
    ensures Trim(s) != [] ==> !IsSpace(Trim(s)[0]) && !IsSpace(Trim(s)[|Trim(s)| - 1])
  {
    var t := TrimStart(s);
    if Trim(s) != [] {
      assert Trim(s) == t[..|Trim(s)|];
      assert Trim(s)[0] == t[0];
    }
  }

  /** Every non-whitespace character of the input lies inside the stripped slice. */
  lemma TrimCovers(s: string)
    ensures forall i :: 0 <= i < |s| && !IsSpace(s[i]) ==> TrimOffset(s) <= i < TrimOffset(s) + |Trim(s)|
  {
    var t, a := TrimStart(s), TrimOffset(s);
    TrimStartRemovesSpaces(s);
    TrimEndRemovesSpaces(t);
    forall i | 0 <= i < |s| && !IsSpace(s[i])
      ensures a <= i < a + |Trim(s)|
    {
      assert t[i - a] == s[i];
    }
  }

  /** A string that neither starts nor ends with whitespace is its own strip. */
  lemma TrimUnchanged(s: string)
    requires s != [] ==> !IsSpace(s[0]) && !IsSpace(s[|s| - 1])
    ensures Trim(s) == s
  {
  }

  /** Stripping twice is stripping once. */
  lemma TrimIdempotent(s: string)
    ensures Trim(Trim(s)) == Trim(s)
  {
    TrimEnds(s);
    TrimUnchanged(Trim(s));
  }

  /** A prefix test implies an occurrence. */
  lemma StartsWithContains(s: string, p: string)
    requires StartsWith(s, p)
    ensures Contains(s, p)
  {
  }

  /** An occurrence in a suffix is an occurrence in the whole. */
  lemma {:induction false} ContainsInSuffix(s: string, k: nat, p: string)
    requires k <= |s| && Contains(s[k..], p)
    ensures Contains(s, p)
  {
    if k > 0 {
      assert s[1..][k - 1..] == s[k..];
      ContainsInSuffix(s[1..], k - 1, p);
    }
  }

  /** An occurrence in a prefix is an occurrence in the whole. */
  lemma {:induction false} ContainsInPrefix(s: string, n: nat, p: string)
    requires n <= |s| && Contains(s[..n], p)
    ensures Contains(s, p)
    decreases n
  {
    if !StartsWith(s[..n], p) {
      assert s[..n][1..] == s[1..][..n - 1];
      ContainsInPrefix(s[1..], n - 1, p);
    } else {
      assert s[..|p|] == s[..n][..|p|];
    }
  }

  /** Stripping cannot create an occurrence. */
  lemma TrimKeepsAbsence(s: string, p: string)
    requires !Contains(s, p)
    ensures !Contains(Trim(s), p)
  {
    var t := TrimStart(s);
    if Contains(Trim(s), p) {
      ContainsInPrefix(t, |Trim(s)|, p);
      ContainsInSuffix(s, |s| - |t|, p);
    }
  }

  /** An occurrence at the start is replaced and the scan resumes after it. */
  lemma ReplaceAtStart(s: string, pat: string)
    requires pat != [] && StartsWith(s, pat)
    ensures ReplaceAll(s, pat, "") == ReplaceAll(s[|pat|..], pat, "")
  {
  }

  /** Replacing a pattern that does not occur changes nothing. */
  lemma {:induction false} ReplaceAbsent(s: string, pat: string, rep: string)
    requires pat != [] && !Contains(s, pat)
    ensures ReplaceAll(s, pat, rep) == s
    decreases |s|
  {
    if s != [] {
      ReplaceAbsent(s[1..], pat, rep);
    }
  }
}

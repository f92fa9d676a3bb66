/** The few Python `str` operations the modelled code relies on
    (`startswith`, `endswith`, `in`, `split(sep)[1]`, splitting at the last
    dot), stated over `seq<char>`. */
module Strings {
  import opened Wrappers

  predicate StartsWith(s: string, prefix: string) {
    |prefix| <= |s| && s[..|prefix|] == prefix
  }

  predicate EndsWith(s: string, suffix: string) {
    |suffix| <= |s| && s[|s| - |suffix|..] == suffix
  }

  /** `sub` occurs in `s` starting at index `i`. */
  predicate OccursAt(s: string, sub: string, i: int) {
    0 <= i && i + |sub| <= |s| && s[i..i + |sub|] == sub
  }

  /** Python's `sub in s`. */
  predicate Contains(s: string, sub: string) {
    exists i | 0 <= i <= |s| - |sub| :: OccursAt(s, sub, i)
  }

  /** The first index at or after `from` where `sub` occurs in `s`. */
  function FindFrom(s: string, sub: string, from: nat): (r: Option<nat>)
    requires |sub| > 0
    ensures r.Some? ==> from <= r.value && OccursAt(s, sub, r.value)
    ensures r.Some? ==> forall j: nat :: from <= j < r.value ==> !OccursAt(s, sub, j)
    ensures r.None? ==> forall j: nat :: from <= j ==> !OccursAt(s, sub, j)
    decreases |s| - from
  {
    if from + |sub| > |s| then None
    else if s[from..from + |sub|] == sub then Some(from)
    else FindFrom(s, sub, from + 1)
  }

  /** Python's `s.find(sub)`, with `None` for -1. */
  function Find(s: string, sub: string): (r: Option<nat>)
    requires |sub| > 0
    ensures r.None? <==> !Contains(s, sub)
    ensures r.Some? ==> OccursAt(s, sub, r.value)
                        && forall j: nat :: j < r.value ==> !OccursAt(s, sub, j)
  {
    FindFrom(s, sub, 0)
  }

  /** Python's `s.split(sep)[1]`: the piece between the first and the second
      occurrence of `sep` (or up to the end); `None` stands for the
      `IndexError` raised when `sep` does not occur at all. */
  function SplitSecond(s: string, sep: string): Option<string>
    requires |sep| > 0
  {
    match Find(s, sep)
    case None => None
    case Some(i) =>
      var rest := s[i + |sep|..];
      match Find(rest, sep)
      case None => Some(rest)
      case Some(j) => Some(rest[..j])
  }

  /** When `sep` begins `s` and occurs nowhere after it, the second piece is
      everything after it. */
  lemma SplitSecondOfPrefixed(sep: string, x: string)
    requires |sep| > 0 && !Contains(x, sep)
    ensures SplitSecond(sep + x, sep) == Some(x)
  {
    assert OccursAt(sep + x, sep, 0);
    assert (sep + x)[|sep|..] == x;
  }

  /** When `sep` begins `s` and occurs again after it, the second piece stops
      at that next occurrence, so `s.split(sep)[1]` loses the rest. */
  lemma SplitSecondTruncates(sep: string, y: string, z: string)
    requires |sep| > 0 && !Contains(y + sep, sep[..|sep| - 1])
    ensures SplitSecond(sep + y + sep + z, sep) == Some(y)
  {
    var s := sep + y + sep + z;
    assert OccursAt(s, sep, 0);
    var rest := y + sep + z;
    assert s[|sep|..] == rest;
    assert OccursAt(rest, sep, |y|);
    forall j: nat | j < |y|
      ensures !OccursAt(rest, sep, j)
    {
      if OccursAt(rest, sep, j) {
        assert rest[j..j + |sep| - 1] == sep[..|sep| - 1];
        assert (y + sep)[j..j + |sep| - 1] == sep[..|sep| - 1];
        assert OccursAt(y + sep, sep[..|sep| - 1], j);
      }
    }
    assert rest[..|y|] == y;
  }

  /** An occurrence of `sub` is an occurrence of each prefix `p` of `sub`. */
  lemma OccursAtPrefix(s: string, sub: string, p: string, i: int)
    requires StartsWith(sub, p)
    ensures OccursAt(s, sub, i) ==> OccursAt(s, p, i)
  {
    if OccursAt(s, sub, i) {
      assert s[i..i + |p|] == s[i..i + |sub|][..|p|];
    }
  }

  /** A string that does not contain `p` contains nothing that starts with `p`. */
  lemma NotContainsExtension(s: string, sub: string, p: string)
    requires !Contains(s, p) && StartsWith(sub, p)
    ensures !Contains(s, sub)
  {
    forall i | 0 <= i <= |s| - |sub|
      ensures !OccursAt(s, sub, i)
    {
      OccursAtPrefix(s, sub, p, i);
    }
  }

  /** An occurrence in `s` is one in `t + s`, shifted by `|t|`. */
  lemma OccursAtShift(t: string, s: string, sub: string, i: int)
    ensures OccursAt(s, sub, i) ==> OccursAt(t + s, sub, |t| + i)
  {
    if OccursAt(s, sub, i) {
      assert (t + s)[|t| + i..|t| + i + |sub|] == s[i..i + |sub|];
    }
  }

  /** What `t + s` does not contain, `s` does not contain either. */
  lemma NotContainsSuffix(t: string, s: string, sub: string)
    requires !Contains(t + s, sub)
    ensures !Contains(s, sub)
  {
    forall i | 0 <= i <= |s| - |sub|
      ensures !OccursAt(s, sub, i)
    {
      OccursAtShift(t, s, sub, i);
    }
  }

  lemma StartsWithAppend(p: string, x: string)
    ensures StartsWith(p + x, p)
  {
    assert (p + x)[..|p|] == p;
  }

  lemma StartsWithTrans(k: string, q: string, p: string)
    requires StartsWith(k, q) && StartsWith(q, p)
    ensures StartsWith(k, p)
  {
    assert k[..|p|] == k[..|q|][..|p|];
  }

  /** Prepending the same text is injective. */
  lemma PrependInjective(p: string, x: string)
    ensures forall y :: p + y == p + x ==> y == x
  {
    forall y | p + y == p + x
      ensures y == x
    {
      assert y == (p + y)[|p|..];
    }
  }

  lemma EndsWithAppend(x: string, t: string)
    ensures EndsWith(x + t, t)
  {
    assert (x + t)[|x + t| - |t|..] == t;
  }

  /** Of two suffixes of the same length, a string ends with at most one. */
  lemma SameLengthSuffixes(s: string, a: string, b: string)
    requires |a| == |b| && EndsWith(s, a) && EndsWith(s, b)
    ensures a == b
  {
  }

  /** Appending the same text is injective. */
  lemma AppendInjective(x: string, t: string)
    ensures forall y :: y + t == x + t ==> y == x
  {
    forall y | y + t == x + t
      ensures y == x
    {
      assert y == (y + t)[..|y|];
      assert x == (x + t)[..|x|];
    }
  }

  /** A string shorter than `sub` cannot contain it. */
  lemma ShortNotContains(s: string, sub: string)
    requires |s| < |sub|
    ensures !Contains(s, sub)
  {
  }

  /** A string none of whose characters is `c` does not contain `[c]`. */
  lemma NoCharNotContained(s: string, c: char)
    requires forall j :: 0 <= j < |s| ==> s[j] != c
    ensures !Contains(s, [c])
  {
    forall i | 0 <= i <= |s| - 1
      ensures !OccursAt(s, [c], i)
    {
      assert s[i..i + 1][0] == s[i];
    }
  }

  /** The index of the last occurrence of character `c` in `s`. */
  function LastIndexOf(s: string, c: char): (r: Option<nat>)
    ensures r.Some? ==> r.value < |s| && s[r.value] == c
                        && forall j :: r.value < j < |s| ==> s[j] != c
    ensures r.None? ==> forall j :: 0 <= j < |s| ==> s[j] != c
  {
    if |s| == 0 then None
    else if s[|s| - 1] == c then Some(|s| - 1)
    else LastIndexOf(s[..|s| - 1], c)
  }

  /** Python's `(sep.join(s.split(sep)[:-1]), s.split(sep)[-1])` for a
      one-character separator: the text before and after the last `sep`
      (everything is "after" when `sep` does not occur). */
  function SplitLast(s: string, sep: char): (string, string)
  {
    match LastIndexOf(s, sep)
    case None => ("", s)
    case Some(i) => (s[..i], s[i + 1..])
  }
}

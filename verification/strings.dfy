/**
  The two Python string operations the URL normaliser is built from:
  the substring test `m in s` and `s.split(m)[0]`.
*/
module Strings {
  import opened Wrappers

  /** `m` occurs in `s` starting at index `i`. */
  predicate OccursAt(s: string, m: string, i: int) {
    0 <= i && i + |m| <= |s| && s[i..i + |m|] == m
  }

  /**
    Python's `m in s`: `m` occurs somewhere in `s`. As in Python, the empty
    string occurs in every string, and nothing longer than `s` occurs in it.
  */
  predicate Contains(s: string, m: string): (b: bool)
    ensures m == "" ==> b
    ensures b ==> |m| <= |s|
  {
    assert m == "" ==> OccursAt(s, m, 0);
    exists i | 0 <= i <= |s| - |m| :: OccursAt(s, m, i)
  }

  /** The first occurrence of `m` in `s` at or after index `i`, scanning left to right. */
  function FindFrom(s: string, m: string, i: nat): (r: Option<nat>)
    decreases |s| - i
    ensures r.Some? ==> i <= r.value && OccursAt(s, m, r.value)
    ensures r.Some? ==> forall j :: i <= j < r.value ==> !OccursAt(s, m, j)
    ensures r.None? ==> forall j :: i <= j ==> !OccursAt(s, m, j)
  {
    if |s| < i + |m| then None
    else if s[i..i + |m|] == m then Some(i)
    else FindFrom(s, m, i + 1)
  }

  /** The index of the first occurrence of `m` in `s`, if there is one. */
  function FirstOccurrence(s: string, m: string): (r: Option<nat>)
    ensures r.Some? <==> Contains(s, m)
    ensures r.Some? ==> OccursAt(s, m, r.value)
    ensures r.Some? ==> forall j :: 0 <= j < r.value ==> !OccursAt(s, m, j)
  {
    FindFrom(s, m, 0)
  }

  /**
    Python's `s.split(sep)[0]`: the part of `s` before the first occurrence of
    `sep`, or all of `s` when `sep` does not occur. Python raises `ValueError`
    for an empty separator.
  */
  function SplitHead(s: string, sep: string): (r: string)
    requires sep != ""
    ensures !Contains(s, sep) ==> r == s
    ensures Contains(s, sep) ==> r + sep <= s
    ensures Contains(s, sep) ==> forall j :: 0 <= j < |r| ==> !OccursAt(s, sep, j)
    ensures !Contains(r, sep)
  {
    match FirstOccurrence(s, sep)
    case None => s
    case Some(k) =>
      var r := s[..k];
      assert r + sep == s[..k + |sep|];
      assert !Contains(r, sep) by {
        forall j | 0 <= j <= |r| - |sep|
          ensures !OccursAt(r, sep, j)
        {
          OccursInPrefix(s, k, sep, j);
        }
      }
      r
  }

  /** An occurrence in the first `k` characters of `s` is an occurrence in `s`. */
  lemma OccursInPrefix(s: string, k: nat, m: string, j: int)
    requires k <= |s|
    ensures OccursAt(s[..k], m, j) ==> OccursAt(s, m, j)
  {
  }


  /** An occurrence in `p` is still an occurrence in `p + q`. */
  lemma ContainsInPrefix(p: string, q: string, m: string)
    requires Contains(p, m)
    ensures Contains(p + q, m)
  {
    var i :| 0 <= i <= |p| - |m| && OccursAt(p, m, i);
    assert (p + q)[i..i + |m|] == p[i..i + |m|];
    assert OccursAt(p + q, m, i);
  }

  /** An occurrence in `q` is still an occurrence in `p + q`. */
  lemma ContainsInSuffix(p: string, q: string, m: string)
    requires Contains(q, m)
    ensures Contains(p + q, m)
  {
    var i :| 0 <= i <= |q| - |m| && OccursAt(q, m, i);
    assert (p + q)[|p| + i..|p| + i + |m|] == q[i..i + |m|];
    assert OccursAt(p + q, m, |p| + i);
  }

  /** A string contains itself. */
  lemma ContainsSelf(m: string)
    ensures Contains(m, m)
  {
    assert m[0..|m|] == m;
    assert OccursAt(m, m, 0);
  }

  /** A string cannot contain a pattern with a character the string lacks. */
  lemma MissingCharNotContained(s: string, m: string, c: char)
    requires c in m && c !in s
    ensures !Contains(s, m)
  {
  }

}

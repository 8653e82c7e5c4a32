/**
 * The few pieces of Python's `str` that the call pipeline relies on: `lower()`,
 * `strip()` and the substring test `p in s`.
 *
 * `lower()` and `strip()` are modelled on ASCII: `lower()` maps 'A'..'Z' to
 * 'a'..'z' and leaves every other character alone (Arabic letters have no case),
 * and `strip()` removes the ASCII characters for which `str.isspace()` holds.
 */
module Text {

  /** The ASCII characters Python's `str.isspace()` accepts. */
  predicate IsSpace(c: char) {
    c == ' ' || c == '\t' || c == '\n' || c == '\r' || c == '\U{B}' || c == '\U{C}'
    || ('\U{1C}' <= c <= '\U{1F}')
  }

  predicate AllSpace(s: string) {
    forall k :: 0 <= k < |s| ==> IsSpace(s[k])
  }

  function LowerChar(c: char): char {
    if 'A' <= c <= 'Z' then (c as int + 32) as char else c
  }

  /** `s.lower()`, character by character. */
  function Lower(s: string): (r: string)
    ensures |r| == |s|
  {
    seq(|s|, k requires 0 <= k < |s| => LowerChar(s[k]))
  }

  /** Lowering twice is lowering once: `s.lower().lower() == s.lower()`. */
  lemma LowerIdempotent(s: string)
    ensures Lower(Lower(s)) == Lower(s)
  {
    forall k | 0 <= k < |s|
      ensures Lower(Lower(s))[k] == Lower(s)[k]
    {
      var c := s[k];
      assert Lower(s)[k] == LowerChar(c);
    }
  }

  /** Lowering commutes with taking a slice. */
  lemma LowerSlice(s: string, i: int, j: int)
    requires 0 <= i <= j <= |s|
    ensures Lower(s)[i..j] == Lower(s[i..j])
  {
  }

  /** `p` occurs in `s` starting at index `i`. */
  predicate MatchesAt(s: string, p: string, i: int) {
    0 <= i <= |s| - |p| && s[i..i + |p|] == p
  }

  /** Python's `p in s` for strings: `p` is a contiguous substring of `s` (the empty string is in every string). */
  predicate Contains(s: string, p: string) {
    exists i | 0 <= i <= |s| - |p| :: MatchesAt(s, p, i)
  }

  /** The middle part of a concatenation occurs in it, right after the first part. */
  lemma ContainsInfix(a: string, b: string, c: string)
    ensures MatchesAt(a + b + c, b, |a|) && Contains(a + b + c, b)
  {
    assert (a + b + c)[|a|..|a| + |b|] == b;
    assert MatchesAt(a + b + c, b, |a|);
  }

  /** Every character of a substring is a character of the string. */
  lemma ContainsCharOf(s: string, p: string, j: int)
    requires Contains(s, p) && 0 <= j < |p|
    ensures p[j] in s
  {
    var i :| 0 <= i <= |s| - |p| && MatchesAt(s, p, i);
    assert s[i + j] == s[i..i + |p|][j];
  }

  /** The substring relation is transitive: a substring of a substring is a substring. */
  lemma ContainsTransitive(t: string, s: string, p: string)
    requires Contains(t, s) && Contains(s, p)
    ensures Contains(t, p)
  {
    var i :| 0 <= i <= |t| - |s| && MatchesAt(t, s, i);
    var j :| 0 <= j <= |s| - |p| && MatchesAt(s, p, j);
    forall k | 0 <= k < |p|
      ensures t[i + j + k] == p[k]
    {
      assert t[i + j + k] == t[i..i + |s|][j + k];
      assert s[j + k] == s[j..j + |p|][k];
    }
    assert t[i + j..i + j + |p|] == p;
    assert MatchesAt(t, p, i + j);
  }

  /** Lowering preserves the substring relation. */
  lemma ContainsLower(s: string, p: string)
    requires Contains(s, p)
    ensures Contains(Lower(s), Lower(p))
  {
    var i :| 0 <= i <= |s| - |p| && MatchesAt(s, p, i);
    LowerSlice(s, i, i + |p|);
    assert MatchesAt(Lower(s), Lower(p), i);
  }

  /** `s.lstrip()`: `s` without its leading whitespace. */
  function StripLeft(s: string): string {
    if |s| > 0 && IsSpace(s[0]) then StripLeft(s[1..]) else s
  }

  /** `s.rstrip()`: `s` without its trailing whitespace. */
  function StripRight(s: string): string {
    if |s| > 0 && IsSpace(s[|s| - 1]) then StripRight(s[..|s| - 1]) else s
  }

  /** `s.strip()`. */
  function Strip(s: string): string {
    StripRight(StripLeft(s))
  }

  /** `lstrip` removes exactly a leading run of whitespace and leaves a suffix that starts with none. */
  lemma {:induction false} StripLeftSpec(s: string)
    ensures var r := StripLeft(s);
      |r| <= |s| && r == s[|s| - |r|..] &&
      (r == [] || !IsSpace(r[0])) &&
      (forall k :: 0 <= k < |s| - |r| ==> IsSpace(s[k]))
  {
    if |s| > 0 && IsSpace(s[0]) {
      StripLeftSpec(s[1..]);
      var r := StripLeft(s);
      assert r == StripLeft(s[1..]);
      assert s[1..][|s| - 1 - |r|..] == s[|s| - |r|..];
      forall k | 0 <= k < |s| - |r|
        ensures IsSpace(s[k])
      {
        if k > 0 {
          assert s[k] == s[1..][k - 1];
        }
      }
    }
  }

  /** `rstrip` removes exactly a trailing run of whitespace and leaves a prefix that ends with none. */
  lemma {:induction false} StripRightSpec(s: string)
    ensures var r := StripRight(s);
      |r| <= |s| && r == s[..|r|] &&
      (r == [] || !IsSpace(r[|r| - 1])) &&
      (forall k :: |r| <= k < |s| ==> IsSpace(s[k]))
  {
    if |s| > 0 && IsSpace(s[|s| - 1]) {
      StripRightSpec(s[..|s| - 1]);
      var r := StripRight(s);
      forall k | |r| <= k < |s|
        ensures IsSpace(s[k])
      {
        if k < |s| - 1 {
          assert s[k] == s[..|s| - 1][k];
        }
      }
    }
  }

  /**
   * `s.strip()` is a contiguous piece of `s` that neither starts nor ends with
   * whitespace, and is empty exactly when `s` is all whitespace.
   */
  lemma StripSpec(s: string)
    ensures Contains(s, Strip(s))
    ensures Strip(s) == [] || (!IsSpace(Strip(s)[0]) && !IsSpace(Strip(s)[|Strip(s)| - 1]))
    ensures Strip(s) == [] <==> AllSpace(s)
  {
    var l := StripLeft(s);
    var r := StripRight(l);
    var i := |s| - |l|;
    assert l == s[i..] && (l == [] || !IsSpace(l[0])) by {
      StripLeftSpec(s);
    }
    assert r == l[..|r|] && (r == [] || !IsSpace(r[|r| - 1])) by {
      StripRightSpec(l);
    }
    assert MatchesAt(s, r, i) by {
      assert s[i..][..|r|] == s[i..i + |r|];
    }
    if r == [] {
      forall k | 0 <= k < |s|
        ensures IsSpace(s[k])
      {
        StripLeftSpec(s);
        StripRightSpec(l);
      }
    } else {
      assert r[0] == l[0] == s[i];
    }
  }

  /**
   * `strip()` cuts the text in three: a leading run of whitespace, the result,
   * and a trailing run of whitespace.
   */
  lemma StripTrims(s: string)
    ensures var r, i := Strip(s), |s| - |StripLeft(s)|;
      0 <= i && i + |r| <= |s| && r == s[i..i + |r|] && AllSpace(s[..i]) && AllSpace(s[i + |r|..])
  {
    var l := StripLeft(s);
    var r := StripRight(l);
    var i := |s| - |l|;
    StripLeftSpec(s);
    StripRightSpec(l);
    assert l == s[i..];
    assert r == s[i..i + |r|];
    forall k | i + |r| <= k < |s|
      ensures IsSpace(s[k])
    {
      assert s[k] == l[k - i];
    }
  }

  /** Stripping is idempotent. */
  lemma StripIdempotent(s: string)
    ensures Strip(Strip(s)) == Strip(s)
  {
    var r := Strip(s);
    StripSpec(s);
    if r != [] {
      assert StripLeft(r) == r;
      assert StripRight(r) == r;
    }
  }
}

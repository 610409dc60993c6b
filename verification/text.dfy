/** The few string operations of Python's `str` that the client uses. */
module Text {

  /** `c.lower()` for ASCII letters; other characters are kept. */
  function LowerChar(c: char): char {
    if 'A' <= c <= 'Z' then (c as int + 32) as char else c
  }

  /** `s.lower()`, ASCII only. */
  function Lower(s: string): (r: string)
    ensures |r| == |s|
  {
    seq(|s|, k requires 0 <= k < |s| => LowerChar(s[k]))
  }

  /** A lower-cased string has no upper-case ASCII letter. */
  lemma LowerHasNoUpper(s: string)
    ensures forall k :: 0 <= k < |Lower(s)| ==> !('A' <= Lower(s)[k] <= 'Z')
  {
  }

  /** `s.startswith(prefix)`. */
  predicate StartsWith(s: string, prefix: string) {
    |prefix| <= |s| && s[..|prefix|] == prefix
  }

  /** `s.split(sep)[-1]`: the text after the last `sep`, or all of `s` when there is none. */
  function LastSegment(s: string, sep: char): (r: string)
    ensures sep !in r
    ensures |r| <= |s| && r == s[|s| - |r|..]
    ensures |r| < |s| ==> s[|s| - |r| - 1] == sep
  {
    if |s| == 0 then []
    else if s[|s| - 1] == sep then []
    else
      var init := s[..|s| - 1];
      var r := LastSegment(init, sep);
      assert r == init[|init| - |r|..];
      r + [s[|s| - 1]]
  }

  /** The segment after a separator is exactly what follows it, when it holds no separator. */
  lemma {:induction false} LastSegmentAfter(prefix: string, sep: char, tail: string)
    requires sep !in tail
    ensures LastSegment(prefix + [sep] + tail, sep) == tail
  {
    var s := prefix + [sep] + tail;
    var r := LastSegment(s, sep);
    assert s[|s| - |tail| - 1] == sep;
    assert r == tail;
  }

  /** `pattern` occurs in `s` at `k`. */
  predicate OccursAt(s: string, pattern: string, k: nat) {
    k + |pattern| <= |s| && s[k..k + |pattern|] == pattern
  }

  /** `pattern in s`. */
  predicate Contains(s: string, pattern: string) {
    exists k :: 0 <= k <= |s| && OccursAt(s, pattern, k)
  }

  /** `s.count(pattern)`: the non-overlapping occurrences, counted left to right. */
  function Occurrences(s: string, pattern: string): nat
    requires pattern != []
    decreases |s|
  {
    if |s| < |pattern| then 0
    else if s[..|pattern|] == pattern then 1 + Occurrences(s[|pattern|..], pattern)
    else Occurrences(s[1..], pattern)
  }

  /** `s.replace(pattern, replacement)`: every non-overlapping occurrence, left to right. */
  function ReplaceAll(s: string, pattern: string, replacement: string): (r: string)
    requires pattern != []
    ensures |r| == |s| + Occurrences(s, pattern) * (|replacement| - |pattern|)
    ensures forall c :: c in r ==> c in s || c in replacement
    ensures StartsWith(s, pattern) ==> StartsWith(r, replacement)
    decreases |s|
  {
    if |s| < |pattern| then s
    else if s[..|pattern|] == pattern then
      var n, d := Occurrences(s[|pattern|..], pattern), |replacement| - |pattern|;
      assert (1 + n) * d == d + n * d;
      replacement + ReplaceAll(s[|pattern|..], pattern, replacement)
    else [s[0]] + ReplaceAll(s[1..], pattern, replacement)
  }

  /** A string without the pattern is left as it is. */
  lemma {:induction false} ReplaceAllAbsent(s: string, pattern: string, replacement: string)
    requires pattern != []
    requires !Contains(s, pattern)
    ensures ReplaceAll(s, pattern, replacement) == s
    decreases |s|
  {
    if |s| >= |pattern| {
      assert !OccursAt(s, pattern, 0);
      assert s[..|pattern|] != pattern;
      forall k | 0 <= k <= |s| - 1 ensures !OccursAt(s[1..], pattern, k) {
        assert !OccursAt(s, pattern, k + 1);
        if k + |pattern| <= |s| - 1 {
          assert s[1..][k..k + |pattern|] == s[k + 1..k + 1 + |pattern|];
        }
      }
      ReplaceAllAbsent(s[1..], pattern, replacement);
      assert s == [s[0]] + s[1..];
    }
  }

  /** An occurrence in `[c] + s` starts at `c` or lies within `s`. */
  lemma ConsContains(c: char, s: string, pattern: string)
    requires !Contains(s, pattern) && !StartsWith([c] + s, pattern)
    ensures !Contains([c] + s, pattern)
  {
    var r := [c] + s;
    forall k | 0 <= k <= |r|
      ensures !OccursAt(r, pattern, k)
    {
      if k >= 1 && OccursAt(r, pattern, k) {
        assert s[k - 1..k - 1 + |pattern|] == r[k..k + |pattern|];
        assert OccursAt(s, pattern, k - 1);
      }
    }
  }

  /** `a` never stands right before `b` in `u`, nor at its end. */
  predicate NeverBefore(u: string, a: char, b: char) {
    forall i :: 0 <= i < |u| && u[i] == a ==> i + 1 < |u| && u[i + 1] != b
  }

  /** A string that starts with `a` then `b` does not start with a non-empty `u` in which `a` never stands before `b`. */
  lemma NeverBeforeBlocks(u: string, r: string, a: char, b: char)
    requires NeverBefore(u, a, b)
    requires |r| >= 2 && r[0] == a && r[1] == b
    ensures |u| == 0 || !StartsWith(r, u)
  {
    if 0 < |u| <= |r| {
      if u[0] != a {
        assert r[..|u|][0] != u[0];
      } else {
        assert r[..|u|][1] != u[1];
      }
    }
  }

  /**
   * A prefix of the result of `replace` in which the replacement's first two
   * characters never meet was copied from the input as it is.
   */
  lemma {:induction false} ReplaceAllKeepsPrefix(t: string, pattern: string, replacement: string, u: string)
    requires pattern != [] && |replacement| >= 2
    requires NeverBefore(u, replacement[0], replacement[1])
    requires StartsWith(ReplaceAll(t, pattern, replacement), u)
    ensures StartsWith(t, u)
    decreases |t|
  {
    var r := ReplaceAll(t, pattern, replacement);
    if |t| < |pattern| || |u| == 0 {
    } else if t[..|pattern|] == pattern {
      assert r == replacement + ReplaceAll(t[|pattern|..], pattern, replacement);
      NeverBeforeBlocks(u, r, replacement[0], replacement[1]);
      assert false;
    } else {
      var rest := ReplaceAll(t[1..], pattern, replacement);
      assert r == [t[0]] + rest;
      assert u[1..] == rest[..|u| - 1];
      assert NeverBefore(u[1..], replacement[0], replacement[1]) by {
        forall i | 0 <= i < |u[1..]| && u[1..][i] == replacement[0]
          ensures i + 1 < |u[1..]| && u[1..][i + 1] != replacement[1]
        {
          assert u[i + 1] == replacement[0];
        }
      }
      ReplaceAllKeepsPrefix(t[1..], pattern, replacement, u[1..]);
      assert t[..|u|] == [t[0]] + t[1..][..|u| - 1];
    }
  }
}

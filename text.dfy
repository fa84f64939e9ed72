/**
 * The string operations of Python's str that the pipeline relies on:
 * the whitespace class, startswith/endswith, the `in` operator and strip().
 */
module Text {
  import opened Collections

  /**
   * Python's str.isspace() for one character. The regex class `\s` in a str
   * pattern matches exactly the same characters, so one predicate serves both.
   */
  predicate IsSpace(c: char)
    ensures c == ' ' || c == '\t' || c == '\n' || c == '\r' ==> IsSpace(c)
    ensures IsSpace(c) ==> c != '`' && !('a' <= c <= 'z')
  {
    var n := c as int;
    (0x09 <= n <= 0x0D) || (0x1C <= n <= 0x20) || n == 0x85 || n == 0xA0 || n == 0x1680 ||
    (0x2000 <= n <= 0x200A) || n == 0x2028 || n == 0x2029 || n == 0x202F || n == 0x205F || n == 0x3000
  }

  predicate StartsWith(s: string, p: string) {
    |p| <= |s| && s[..|p|] == p
  }

  predicate EndsWith(s: string, p: string) {
    |p| <= |s| && s[|s| - |p|..] == p
  }

  /** Python's `p in s` for strings: p occurs somewhere in s. */
  predicate Contains(s: string, p: string)
    ensures Contains(s, p) ==> |p| <= |s|
    ensures p == [] ==> Contains(s, p)
    decreases |s|
  {
    StartsWith(s, p) || (s != [] && Contains(s[1..], p))
  }

  /** Drops the longest all-whitespace prefix (also what a greedy `\s*` consumes). */
  function TrimStart(s: string): (r: string)
    ensures |r| <= |s| && r == s[|s| - |r|..]
    ensures forall k :: 0 <= k < |s| - |r| ==> IsSpace(s[k])
    ensures r == [] || !IsSpace(r[0])
  {
    if s != [] && IsSpace(s[0]) then TrimStart(s[1..]) else s
  }

  /** Drops the longest all-whitespace suffix. */
  function TrimEnd(s: string): (r: string)
    ensures |r| <= |s| && r == s[..|r|]
    ensures forall k :: |r| <= k < |s| ==> IsSpace(s[k])
    ensures r == [] || !IsSpace(r[|r| - 1])
  {
    if s != [] && IsSpace(s[|s| - 1]) then TrimEnd(s[..|s| - 1]) else s
  }

  /** Python's str.strip() with no argument. */
  function Strip(s: string): (r: string)
    ensures r == [] || (!IsSpace(r[0]) && !IsSpace(r[|r| - 1]))
  {
    TrimEnd(TrimStart(s))
  }

  /** `p in s` means p sits at some index of s. */
  lemma {:induction false} ContainsAt(s: string, p: string)
    ensures Contains(s, p) <==> exists k :: 0 <= k <= |s| - |p| && StartsWith(s[k..], p)
    decreases |s|
  {
    if Contains(s, p) {
      if !StartsWith(s, p) {
        ContainsAt(s[1..], p);
        var k :| 0 <= k <= |s[1..]| - |p| && StartsWith(s[1..][k..], p);
        assert s[1..][k..] == s[k + 1..];
      } else {
        assert s[0..] == s;
      }
    }
    if k :| 0 <= k <= |s| - |p| && StartsWith(s[k..], p) {
      if k > 0 {
        assert s[1..][k - 1..] == s[k..];
        ContainsAt(s[1..], p);
      } else {
        assert s[0..] == s;
      }
    }
  }

  /** Whatever occurs in a suffix of s occurs in s. */
  lemma {:induction false} ContainsDrop(s: string, i: nat, p: string)
    requires i <= |s|
    requires Contains(s[i..], p)
    ensures Contains(s, p)
    decreases i
  {
    if i > 0 {
      assert s[1..][i - 1..] == s[i..];
      ContainsDrop(s[1..], i - 1, p);
    } else {
      assert s[0..] == s;
    }
  }

  /** Whatever occurs in a prefix of s occurs in s. */
  lemma {:induction false} ContainsTake(s: string, j: nat, p: string)
    requires j <= |s|
    requires Contains(s[..j], p)
    ensures Contains(s, p)
    decreases j
  {
    if StartsWith(s[..j], p) {
      assert s[..j][..|p|] == s[..|p|];
    } else {
      assert s[..j][1..] == s[1..][..j - 1];
      ContainsTake(s[1..], j - 1, p);
    }
  }

  /** strip() leaves a contiguous piece of its input, so it never creates an occurrence. */
  lemma StripContains(s: string, p: string)
    requires Contains(Strip(s), p)
    ensures Contains(s, p)
  {
    var t := TrimStart(s);
    var r := TrimEnd(t);
    assert r == Strip(s) && r == t[..|r|];
    ContainsTake(t, |r|, p);
    assert t == s[|s| - |t|..];
    ContainsDrop(s, |s| - |t|, p);
  }

  /** strip() cannot create an occurrence that was not there. */
  lemma StripLacks(s: string, p: string)
    requires !Contains(s, p)
    ensures !Contains(Strip(s), p)
  {
    if Contains(Strip(s), p) {
      StripContains(s, p);
    }
  }

  /** Dropping leading whitespace cannot create an occurrence that was not there. */
  lemma TrimStartLacks(s: string, p: string)
    requires !Contains(s, p)
    ensures !Contains(TrimStart(s), p)
  {
    if Contains(TrimStart(s), p) {
      ContainsDrop(s, |s| - |TrimStart(s)|, p);
    }
  }

  /** A string with clean ends is a fixed point of strip(). */
  lemma StripClean(s: string)
    requires s == [] || (!IsSpace(s[0]) && !IsSpace(s[|s| - 1]))
    ensures Strip(s) == s
  {
  }

  /** strip() is idempotent. */
  lemma StripIdempotent(s: string)
    ensures Strip(Strip(s)) == Strip(s)
  {
    StripClean(Strip(s));
  }

  /** Dropping leading whitespace first does not change what strip() returns. */
  lemma StripAfterTrimStart(s: string)
    ensures Strip(TrimStart(s)) == Strip(s)
  {
  }

  /** Leading whitespace is trimmed from x alone when y starts with a non-space. */
  lemma {:induction false} TrimStartAppend(x: string, y: string)
    requires y != [] && !IsSpace(y[0])
    ensures TrimStart(x + y) == TrimStart(x) + y
    decreases |x|
  {
    if x == [] {
      assert x + y == y;
    } else {
      assert (x + y)[1..] == x[1..] + y;
      TrimStartAppend(x[1..], y);
    }
  }

  /** strip() keeps a leading word that has no whitespace in it. */
  lemma StripKeepsWord(word: string, rest: string)
    requires word != [] && (forall i :: 0 <= i < |word| ==> !IsSpace(word[i]))
    ensures StartsWith(Strip(word + rest), word)
  {
    var s := word + rest;
    TrimStartAppend([], s);
    assert [] + s == s;
    var e := TrimEnd(s);
    assert !IsSpace(s[|word| - 1]);
    assert e[..|word|] == s[..|word|] == word;
  }

  /** An occurrence in the right operand of a concatenation is an occurrence in the whole. */
  lemma ContainsRight(a: string, b: string, p: string)
    requires Contains(b, p)
    ensures Contains(a + b, p)
  {
    assert (a + b)[|a|..] == b;
    ContainsDrop(a + b, |a|, p);
  }

  /** An occurrence in the left operand of a concatenation is an occurrence in the whole. */
  lemma ContainsLeft(a: string, b: string, p: string)
    requires Contains(a, p)
    ensures Contains(a + b, p)
  {
    assert (a + b)[..|a|] == a;
    ContainsTake(a + b, |a|, p);
  }

  /** Every string contains itself. */
  lemma ContainsSelf(p: string)
    ensures Contains(p, p)
  {
    assert p[..|p|] == p;
  }

  /** A concatenation ends with whatever its right operand ends with. */
  lemma EndsWithSuffix(a: string, b: string, p: string)
    requires EndsWith(b, p)
    ensures EndsWith(a + b, p)
  {
    assert (a + b)[|a + b| - |p|..] == b[|b| - |p|..];
  }

  /** A concatenation ends with its right operand. */
  lemma EndsWithAppend(a: string, b: string)
    ensures EndsWith(a + b, b)
  {
    AppendParts(a, b);
  }
}

/**
 * Facts about sequences and sets in general, kept in lemmas of their own so that the
 * proofs about the string passes and the loop only have to put equal terms together.
 */
module Collections {
  /** A non-empty sequence is its head followed by its tail, also in front of another sequence. */
  lemma ConsSplit<T>(x: seq<T>, y: seq<T>)
    requires x != []
    ensures x == [x[0]] + x[1..]
    ensures x + y == [x[0]] + (x[1..] + y)
  {
  }

  /** A non-empty sequence is its front followed by its last element. */
  lemma SnocSplit<T>(s: seq<T>)
    requires s != []
    ensures s == s[..|s| - 1] + [s[|s| - 1]]
  {
  }

  lemma Assoc<T>(a: seq<T>, b: seq<T>, c: seq<T>)
    ensures a + b + c == a + (b + c)
  {
  }

  lemma AppendNil<T>(s: seq<T>)
    ensures s + [] == s
  {
  }

  /** The two operands of a concatenation are its prefix and its suffix. */
  lemma AppendParts<T>(p: seq<T>, rest: seq<T>)
    ensures (p + rest)[..|p|] == p && (p + rest)[|p|..] == rest
  {
  }

  /** A suffix holds no element its sequence lacks. */
  lemma SuffixLacks<T>(s: seq<T>, r: seq<T>, x: T)
    requires |r| <= |s| && r == s[|s| - |r|..]
    requires x !in s
    ensures x !in r
  {
    assert forall i :: 0 <= i < |r| ==> r[i] == s[|s| - |r| + i];
  }

  /** A subset is no larger than its superset. */
  lemma SubsetCard<T>(a: set<T>, b: set<T>)
    requires a <= b
    ensures |a| <= |b|
  {
    assert b == a + (b - a);
  }

  /** Three distinct elements make a set of three. */
  lemma CardThree<T>(x: T, y: T, z: T)
    requires x != y && y != z && x != z
    ensures |{x, y, z}| == 3
  {
    assert {x, y, z} == {x, y} + {z};
  }

  /** The three parts of a concatenation are its prefix, middle slice and suffix. */
  lemma Bracketed<T>(a: seq<T>, b: seq<T>, c: seq<T>)
    ensures (a + b + c)[..|a|] == a
    ensures (a + b + c)[|a|..|a| + |b|] == b
    ensures (a + b + c)[|a| + |b|..] == c
  {
  }
}

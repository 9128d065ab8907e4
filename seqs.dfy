/**
 * Generic facts about sequences that the Python code gets from its built-ins:
 * `list.index` / `str.index`, the insertion order of a `dict`, and the
 * "only removed, never reordered" relation between two lists of lines.
 */
module Seqs {

  /** `s.index(x)`: the position of the first occurrence of `x`. */
  function IndexOf<T(==)>(s: seq<T>, x: T): (i: nat)
    requires x in s
    ensures i < |s| && s[i] == x
    ensures forall j :: 0 <= j < i ==> s[j] != x
  {
    if s[0] == x then 0 else 1 + IndexOf(s[1..], x)
  }

  /** In a sequence without duplicates, `index` finds each element at its own position. */
  lemma IndexOfDistinct<T>(s: seq<T>, i: nat)
    requires NoDuplicates(s) && i < |s|
    ensures IndexOf(s, s[i]) == i
  {
  }

  /** Concatenation is associative (stated for use where the solver has many sequences in view). */
  lemma AppendAssoc<T>(x: seq<T>, y: seq<T>, z: seq<T>)
    ensures x + (y + z) == x + y + z
  {
  }

  /** No element occurs twice. */
  predicate NoDuplicates<T(==)>(s: seq<T>)
  {
    forall i, j :: 0 <= i < j < |s| ==> s[i] != s[j]
  }

  /**
   * The distinct elements of `s` in the order of their first occurrence:
   * the key order of a Python `dict` filled by a left-to-right scan of `s`.
   */
  function FirstOccurrences<T(==, !new)>(s: seq<T>): (r: seq<T>)
    ensures NoDuplicates(r)
    ensures forall x :: x in r <==> x in s
  {
    if s == [] then []
    else
      var d := FirstOccurrences(s[..|s| - 1]);
      assert forall x :: x in s <==> x in s[..|s| - 1] || x == s[|s| - 1] by {
        assert s == s[..|s| - 1] + [s[|s| - 1]];
      }
      if s[|s| - 1] in d then d else d + [s[|s| - 1]]
  }

  /**
   * The elements of `FirstOccurrences(s)` appear in `s` for the first time in
   * strictly increasing positions: earlier keys were seen earlier.
   */
  lemma {:induction false} FirstOccurrencesOrdered<T(!new)>(s: seq<T>, j: nat, k: nat)
    requires j < k < |FirstOccurrences(s)|
    ensures FirstOccurrences(s)[j] in s && FirstOccurrences(s)[k] in s
    ensures IndexOf(s, FirstOccurrences(s)[j]) < IndexOf(s, FirstOccurrences(s)[k])
  {
    var p := s[..|s| - 1];
    var last := s[|s| - 1];
    assert s == p + [last];
    var d := FirstOccurrences(p);
    var a, b := FirstOccurrences(s)[j], FirstOccurrences(s)[k];
    if last in d {
      FirstOccurrencesOrdered(p, j, k);
      IndexOfPrefix(p, last, a);
      IndexOfPrefix(p, last, b);
    } else if k < |d| {
      FirstOccurrencesOrdered(p, j, k);
      IndexOfPrefix(p, last, a);
      IndexOfPrefix(p, last, b);
    } else {
      // b is the new last element: its first occurrence is at |p|.
      assert b == last && a in p;
      IndexOfPrefix(p, last, a);
      assert IndexOf(s, b) == |p|;
    }
  }

  /** `len(set(s))`: as many distinct elements as `FirstOccurrences` lists. */
  lemma DistinctCount<T(!new)>(s: seq<T>)
    ensures |set x | x in s| == |FirstOccurrences(s)|
  {
    var d := FirstOccurrences(s);
    NoDuplicatesCardinality(d);
    assert (set x | x in s) == (set x | x in d);
  }

  /** Of two elements, the one listed first by `FirstOccurrences` occurs first. */
  lemma FirstOccurrencesIndex<T(!new)>(s: seq<T>, a: T, b: T)
    requires a in s && b in s
    requires IndexOf(FirstOccurrences(s), a) <= IndexOf(FirstOccurrences(s), b)
    ensures IndexOf(s, a) <= IndexOf(s, b)
  {
    var d := FirstOccurrences(s);
    var i, j := IndexOf(d, a), IndexOf(d, b);
    if i < j {
      FirstOccurrencesOrdered(s, i, j);
      assert IndexOf(s, d[i]) < IndexOf(s, d[j]);
      assert d[i] == a;
      assert d[j] == b;
    } else {
      assert i == j;
      assert a == d[i] && b == d[j];
    }
  }

  /** Appending an element does not move the first occurrence of an element already present. */
  lemma {:induction false} IndexOfPrefix<T>(p: seq<T>, last: T, x: T)
    requires x in p
    ensures IndexOf(p + [last], x) == IndexOf(p, x)
  {
    if p[0] != x {
      assert (p + [last])[1..] == p[1..] + [last];
      IndexOfPrefix(p[1..], last, x);
    }
  }

  /** A sequence without duplicates has as many elements as its set of elements. */
  lemma {:induction false} NoDuplicatesCardinality<T>(s: seq<T>)
    requires NoDuplicates(s)
    ensures |set x | x in s| == |s|
  {
    if s != [] {
      var p := s[..|s| - 1];
      assert s == p + [s[|s| - 1]];
      NoDuplicatesCardinality(p);
      assert (set x | x in s) == (set x | x in p) + {s[|s| - 1]};
      assert s[|s| - 1] !in p;
    }
  }

  /**
   * `a` is obtained from `b` by deleting elements: the elements of `a` occur in
   * `b` in the same order, each unchanged.
   */
  predicate IsSubsequence<T(==)>(a: seq<T>, b: seq<T>)
    decreases |b|
  {
    a == [] || (b != [] && ((a[0] == b[0] && IsSubsequence(a[1..], b[1..])) || IsSubsequence(a, b[1..])))
  }

  /** Deleting the elements at positions `i .. j-1` leaves a subsequence. */
  lemma {:induction false} CutIsSubsequence<T>(s: seq<T>, i: nat, j: nat)
    requires i <= j <= |s|
    ensures IsSubsequence(s[..i] + s[j..], s)
    decreases |s|
  {
    if i == 0 {
      assert s[..i] + s[j..] == s[j..];
      SuffixIsSubsequence(s, j);
    } else {
      assert (s[..i] + s[j..])[0] == s[0];
      assert (s[..i] + s[j..])[1..] == s[1..][..i - 1] + s[1..][j - 1..];
      CutIsSubsequence(s[1..], i - 1, j - 1);
    }
  }

  lemma {:induction false} SuffixIsSubsequence<T>(s: seq<T>, j: nat)
    requires j <= |s|
    ensures IsSubsequence(s[j..], s)
    decreases |s|
  {
    if j == 0 {
      SelfSubsequence(s);
    } else {
      assert s[j..] == s[1..][j - 1..];
      SuffixIsSubsequence(s[1..], j - 1);
    }
  }

  lemma {:induction false} SelfSubsequence<T>(s: seq<T>)
    ensures IsSubsequence(s, s)
    decreases |s|
  {
    if s != [] {
      SelfSubsequence(s[1..]);
    }
  }

  /** A slice is a subsequence. */
  lemma SliceIsSubsequence<T>(s: seq<T>, i: nat, j: nat)
    requires i <= j <= |s|
    ensures IsSubsequence(s[i..j], s)
  {
    CutIsSubsequence(s, j, |s|);
    assert s[..j] + s[|s|..] == s[..j];
    CutIsSubsequence(s[..j], 0, i);
    assert s[..j][..0] + s[..j][i..] == s[i..j];
    SubsequenceTransitive(s[i..j], s[..j], s);
  }

  lemma {:induction false} SubsequenceTransitive<T>(a: seq<T>, b: seq<T>, c: seq<T>)
    requires IsSubsequence(a, b) && IsSubsequence(b, c)
    ensures IsSubsequence(a, c)
    decreases |c|
  {
    if a != [] {
      assert b != [] && c != [];
      if IsSubsequence(b, c[1..]) {
        SubsequenceTransitive(a, b, c[1..]);
      } else {
        assert b[0] == c[0] && IsSubsequence(b[1..], c[1..]);
        if a[0] == b[0] && IsSubsequence(a[1..], b[1..]) {
          SubsequenceTransitive(a[1..], b[1..], c[1..]);
        } else {
          SubsequenceTransitive(a, b[1..], c[1..]);
        }
      }
    }
  }
}

/** Order-preserving selection and first-occurrence lookup on sequences. */
module Seqs {

  /** The elements of `s` that satisfy `keep`, in their original order
      (a pandas boolean mask, a JavaScript `filter`). */
  function Filter<T>(s: seq<T>, keep: T -> bool): (r: seq<T>)
    ensures |r| <= |s|
    ensures forall i :: 0 <= i < |r| ==> r[i] in s && keep(r[i])
    ensures forall i :: 0 <= i < |s| && keep(s[i]) ==> s[i] in r
  {
    if s == [] then []
    else (if keep(s[0]) then [s[0]] else []) + Filter(s[1..], keep)
  }

  /** Filtering distributes over concatenation: what is kept keeps its order. */
  lemma {:induction false} FilterConcat<T>(a: seq<T>, b: seq<T>, keep: T -> bool)
    ensures Filter(a + b, keep) == Filter(a, keep) + Filter(b, keep)
  {
    if a == [] {
      assert a + b == b;
    } else {
      assert (a + b)[0] == a[0];
      assert (a + b)[1..] == a[1..] + b;
      FilterConcat(a[1..], b, keep);
    }
  }

  /** A relation that holds between every earlier and later element of `s`
      still holds after filtering (e.g. "sorted" stays sorted). */
  lemma {:induction false} FilterPreservesOrder<T>(s: seq<T>, keep: T -> bool, le: (T, T) -> bool)
    requires forall i, j :: 0 <= i < j < |s| ==> le(s[i], s[j])
    ensures forall i, j :: 0 <= i < j < |Filter(s, keep)| ==> le(Filter(s, keep)[i], Filter(s, keep)[j])
  {
    if s != [] {
      FilterPreservesOrder(s[1..], keep, le);
      forall j | 0 <= j < |Filter(s[1..], keep)|
        ensures le(s[0], Filter(s[1..], keep)[j])
      {
        var w :| 0 <= w < |s[1..]| && s[1..][w] == Filter(s[1..], keep)[j];
        assert s[1 + w] == Filter(s[1..], keep)[j];
      }
      assert Filter(s, keep) == (if keep(s[0]) then [s[0]] else []) + Filter(s[1..], keep);
    }
  }

  /** Filtering with a test every element passes changes nothing. */
  lemma {:induction false} FilterKeepsAll<T>(s: seq<T>, keep: T -> bool)
    requires forall i :: 0 <= i < |s| ==> keep(s[i])
    ensures Filter(s, keep) == s
  {
    if s != [] {
      FilterKeepsAll(s[1..], keep);
    }
  }

  /** Index of the first occurrence of `x` in `s`, or `|s|` when it does not occur. */
  function Pos<T(==)>(s: seq<T>, x: T): (r: nat)
    ensures r <= |s|
    ensures r < |s| <==> x in s
    ensures r < |s| ==> s[r] == x
    ensures forall i :: 0 <= i < r ==> s[i] != x
  {
    if s == [] then 0
    else if s[0] == x then 0
    else 1 + Pos(s[1..], x)
  }
}

/**
 * The index-density test shared by the OBJECT, PLANE, NOISE_SOURCE and
 * CONFIGURATION levels: the indices found must be exactly 1, 2, ..., n, and
 * the code tests this as `len(detected) == max(detected)`.
 */
module Indexing {
  import opened Outcomes

  function Max(s: seq<int>): (m: int)
    requires s != []
    ensures m in s
    ensures forall i :: 0 <= i < |s| ==> s[i] <= m
  {
    if |s| == 1 then s[0]
    else
      var m := Max(s[1..]);
      assert forall i :: 1 <= i < |s| ==> s[i] == s[1..][i - 1];
      if s[0] > m then s[0] else m
  }

  /**
   * `if len(detected) != max(detected): errs.append(msg)`. Python's `max` of an
   * empty list raises ValueError, which nothing catches.
   */
  function DensityCheck(detected: seq<int>, msg: string): (o: Outcome)
    ensures o.Crash? <==> detected == []
    ensures o.Ok? ==> o.value == [] || o.value == [msg]
    ensures o.Ok? ==> (o.value == [] <==> |detected| == Max(detected))
  {
    if detected == [] then Crash
    else if |detected| != Max(detected) then Ok([msg])
    else Ok([])
  }

  /**
   * The density test of a kind of entry a configuration may leave out: with
   * none detected there is nothing to index, and nothing is reported.
   */
  function OptionalDensityCheck(detected: seq<int>, msg: string): (r: seq<string>)
    ensures r == [] || r == [msg]
    ensures r == [] <==> detected == [] || |detected| == Max(detected)
  {
    if detected == [] then [] else DensityCheck(detected, msg).value
  }

  predicate Distinct(s: seq<int>) {
    forall i, j :: 0 <= i < j < |s| ==> s[i] != s[j]
  }

  predicate Positive(s: seq<int>) {
    forall i :: 0 <= i < |s| ==> s[i] >= 1
  }

  /** The indices cover 1..n. */
  predicate Covers(s: seq<int>, n: int) {
    forall j :: 1 <= j <= n ==> j in s
  }

  lemma {:induction false} DistinctCard(s: seq<int>)
    requires Distinct(s)
    ensures |(set x | x in s)| == |s|
  {
    if s != [] {
      DistinctCard(s[1..]);
      assert (set x | x in s) == {s[0]} + (set x | x in s[1..]);
      assert s[0] !in (set x | x in s[1..]);
    }
  }

  /** The set {1, ..., n}. */
  function Run(n: nat): (r: set<int>)
    ensures forall x :: x in r <==> 1 <= x <= n
    ensures |r| == n
  {
    if n == 0 then {} else Run(n - 1) + {n}
  }

  lemma SubsetSameSize(a: set<int>, b: set<int>)
    requires a <= b && |a| == |b|
    ensures a == b
  {
    assert |b - a| == |b| - |a|;
  }

  /**
   * For distinct positive indices the code's test is exact: the count equals
   * the largest index precisely when the indices are 1, 2, ..., max.
   */
  lemma DensityMeansRun(s: seq<int>)
    requires s != [] && Distinct(s) && Positive(s)
    ensures |s| == Max(s) <==> Covers(s, Max(s))
  {
    var m := Max(s);
    var found := set x | x in s;
    DistinctCard(s);
    assert found <= Run(m);
    if |s| == m {
      SubsetSameSize(found, Run(m));
      forall j | 1 <= j <= m ensures j in s {
        assert j in Run(m);
      }
    }
    if Covers(s, m) {
      assert Run(m) <= found;
      assert found == Run(m);
    }
  }

  lemma SkippedIndexReported(msg: string)
    ensures DensityCheck([1, 2, 4], msg) == Ok([msg])
  {
    assert Max([1, 2, 4]) == 4 by { assert Max([2, 4]) == 4 by { assert [2, 4][1..] == [4]; } assert [1, 2, 4][1..] == [2, 4]; }
  }

  lemma DenseIndicesAccepted(msg: string)
    ensures DensityCheck([1, 2, 3], msg) == Ok([])
  {
    assert Max([1, 2, 3]) == 3 by { assert Max([2, 3]) == 3 by { assert [2, 3][1..] == [3]; } assert [1, 2, 3][1..] == [2, 3]; }
  }
}

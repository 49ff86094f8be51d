/** Sums of sequences, and how cutting a sequence distributes over them. */
module Sequences {

  function Sum(s: seq<int>): int {
    if s == [] then 0 else Sum(s[..|s| - 1]) + s[|s| - 1]
  }

  ghost predicate AllPositive(s: seq<int>) {
    forall i :: 0 <= i < |s| ==> s[i] >= 1
  }

  lemma SumSnoc(s: seq<int>, i: nat)
    requires i < |s|
    ensures Sum(s[..i + 1]) == Sum(s[..i]) + s[i]
  {
    assert s[..i + 1][..i] == s[..i];
  }

  lemma {:induction false} SumAppend(a: seq<int>, b: seq<int>)
    ensures Sum(a + b) == Sum(a) + Sum(b)
    decreases |b|
  {
    if b == [] {
      assert a + b == a;
    } else {
      SumAppend(a, b[..|b| - 1]);
      assert (a + b)[..|a + b| - 1] == a + b[..|b| - 1];
    }
  }

  lemma SumSplit(s: seq<int>, n: nat)
    requires n <= |s|
    ensures Sum(s) == Sum(s[..n]) + Sum(s[n..])
  {
    SumAppend(s[..n], s[n..]);
    assert s[..n] + s[n..] == s;
  }

  lemma {:induction false} SumAtLeastLength(s: seq<int>)
    requires AllPositive(s)
    ensures Sum(s) >= |s|
    decreases |s|
  {
    if s != [] {
      SumAtLeastLength(s[..|s| - 1]);
    }
  }

  /** A prefix of positive numbers never sums to more than the whole. */
  lemma SumPrefixLe(s: seq<int>, n: nat)
    requires n <= |s| && AllPositive(s)
    ensures Sum(s[..n]) <= Sum(s)
    ensures n < |s| ==> Sum(s[..n]) < Sum(s)
  {
    SumSplit(s, n);
    SumAtLeastLength(s[n..]);
  }
}

/**
 Greedy selection of a prefix of strings under a length budget: scan the
 strings in order, keep each one while the running total of kept lengths
 stays within the budget, and stop at the first one that would exceed it
 (later, shorter strings are never considered).
 */
module GreedyPrefix {
  import opened Joining

  /** Total length of the first `n` strings of `ps`. */
  function PrefixLength(ps: seq<string>, n: nat): nat
    requires n <= |ps|
  {
    if n == 0 then 0 else PrefixLength(ps, n - 1) + |ps[n - 1]|
  }

  /** `PrefixLength` is the summed length of the prefix. */
  lemma {:induction false} PrefixLengthIsSum(ps: seq<string>, n: nat)
    requires n <= |ps|
    ensures SumLengths(ps[..n]) == PrefixLength(ps, n)
  {
    if n == 0 {
      assert ps[..0] == [];
    } else {
      PrefixLengthIsSum(ps, n - 1);
      assert ps[..n] == ps[..n - 1] + [ps[n - 1]];
      SumLengthsAppend(ps[..n - 1], ps[n - 1]);
    }
  }

  /** Longer prefixes are at least as long. */
  lemma {:induction false} PrefixLengthMonotone(ps: seq<string>, i: nat, j: nat)
    requires i <= j <= |ps|
    ensures PrefixLength(ps, i) <= PrefixLength(ps, j)
    decreases j - i
  {
    if i < j {
      PrefixLengthMonotone(ps, i, j - 1);
    }
  }

  /**
   The scan from index `k` on, with running total `total`: the number of
   strings kept when it stops.
   */
  function FitFrom(ps: seq<string>, budget: int, k: nat, total: int): (n: nat)
    requires k <= |ps|
    ensures k <= n <= |ps|
    decreases |ps| - k
  {
    if k == |ps| then k
    else if total + |ps[k]| > budget then k
    else FitFrom(ps, budget, k + 1, total + |ps[k]|)
  }

  /** The number of strings the scan keeps. */
  function FitCount(ps: seq<string>, budget: int): (n: nat)
    ensures n <= |ps|
  {
    FitFrom(ps, budget, 0, 0)
  }

  /**
   Reference description of where the scan stops: each of the first `n`
   strings fitted when it was added, and, unless everything was kept,
   adding string `n` would have exceeded the budget.
   */
  ghost predicate IsGreedyCut(ps: seq<string>, budget: int, n: nat) {
    n <= |ps|
    && (forall j :: 1 <= j <= n ==> PrefixLength(ps, j) <= budget)
    && (n < |ps| ==> PrefixLength(ps, n + 1) > budget)
  }

  lemma {:induction false} FitFromIsGreedyCut(ps: seq<string>, budget: int, k: nat, total: int)
    requires k <= |ps|
    requires total == PrefixLength(ps, k)
    requires forall j :: 1 <= j <= k ==> PrefixLength(ps, j) <= budget
    ensures IsGreedyCut(ps, budget, FitFrom(ps, budget, k, total))
    decreases |ps| - k
  {
    if k < |ps| && total + |ps[k]| <= budget {
      FitFromIsGreedyCut(ps, budget, k + 1, total + |ps[k]|);
    }
  }

  /** The scan stops exactly at the greedy cut, and the greedy cut is unique. */
  lemma FitCountIsGreedyCut(ps: seq<string>, budget: int, n: nat)
    ensures IsGreedyCut(ps, budget, n) <==> n == FitCount(ps, budget)
  {
    FitFromIsGreedyCut(ps, budget, 0, 0);
  }

  /**
   The kept strings: a prefix of `ps`, within budget unless empty, and
   maximal — the next string would not have fitted.
   */
  function Take(ps: seq<string>, budget: int): (kept: seq<string>)
    ensures |kept| == FitCount(ps, budget)
    ensures kept == ps[..|kept|]
    ensures SumLengths(kept) <= budget || kept == []
    ensures |kept| < |ps| ==> SumLengths(kept) + |ps[|kept|]| > budget
    ensures |ps| > 0 && |ps[0]| > budget ==> kept == []
  {
    var n := FitCount(ps, budget);
    FitCountIsGreedyCut(ps, budget, n);
    PrefixLengthIsSum(ps, n);
    ps[..n]
  }

  /** When all strings fit together, all are kept. */
  lemma AllFitTakesAll(ps: seq<string>, budget: int)
    requires PrefixLength(ps, |ps|) <= budget
    ensures Take(ps, budget) == ps
  {
    forall j | 1 <= j <= |ps|
      ensures PrefixLength(ps, j) <= budget
    {
      PrefixLengthMonotone(ps, j, |ps|);
    }
    FitCountIsGreedyCut(ps, budget, |ps|);
    assert ps[..|ps|] == ps;
  }
}

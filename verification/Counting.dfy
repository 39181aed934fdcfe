/** Sums over sequences and sizes of sets, used for per-worker, per-sender and per-record accounts. */
module Counting {

  function Sum(xs: seq<int>): int {
    if xs == [] then 0 else Sum(xs[..|xs| - 1]) + xs[|xs| - 1]
  }

  lemma {:induction false} SumAtMost(xs: seq<int>, ys: seq<int>)
    requires |xs| == |ys| && forall i | 0 <= i < |xs| :: xs[i] <= ys[i]
    ensures Sum(xs) <= Sum(ys)
  {
    if xs != [] {
      SumAtMost(xs[..|xs| - 1], ys[..|ys| - 1]);
    }
  }

  /** If no other entry grows, the sum changes by at most what entry `k` changes. */
  lemma {:induction false} SumMoves(xs: seq<int>, ys: seq<int>, k: nat)
    requires |xs| == |ys| && k < |xs|
    requires forall i | 0 <= i < |xs| && i != k :: ys[i] <= xs[i]
    ensures Sum(ys) - ys[k] <= Sum(xs) - xs[k]
  {
    var n := |xs| - 1;
    if k == n {
      SumAtMost(ys[..n], xs[..n]);
    } else {
      SumMoves(xs[..n], ys[..n], k);
    }
  }

  lemma {:induction false} SumOfConstant(n: nat, c: int)
    ensures Sum(seq(n, _ => c)) == n * c
  {
    if n > 0 {
      assert seq(n, _ => c)[..n - 1] == seq(n - 1, _ => c);
      SumOfConstant(n - 1, c);
    }
  }

  lemma SumUpdate(xs: seq<int>, ys: seq<int>, k: nat)
    requires |xs| == |ys| && k < |xs|
    requires forall i | 0 <= i < |xs| && i != k :: ys[i] == xs[i]
    ensures Sum(ys) == Sum(xs) - xs[k] + ys[k]
  {
    SumMoves(xs, ys, k);
    SumMoves(ys, xs, k);
  }

  lemma {:induction false} SumPlus(xs: seq<int>, ys: seq<int>, zs: seq<int>)
    requires |xs| == |ys| == |zs| && forall i | 0 <= i < |xs| :: zs[i] == xs[i] + ys[i]
    ensures Sum(zs) == Sum(xs) + Sum(ys)
  {
    if xs != [] {
      SumPlus(xs[..|xs| - 1], ys[..|ys| - 1], zs[..|zs| - 1]);
    }
  }

  lemma SubsetSize<T>(a: set<T>, b: set<T>)
    requires a <= b
    ensures |a| <= |b|
  {
    if a != {} {
      var x :| x in a;
      SubsetSize(a - {x}, b - {x});
    }
  }

  lemma SubsetOfSameSize<T>(a: set<T>, b: set<T>)
    requires a <= b && |a| >= |b|
    ensures a == b
  {
    if a != b {
      var x :| x in b && x !in a;
      SubsetSize(a, b - {x});
    }
  }

  /** A nonempty finite set has an element with the least key. */
  lemma {:induction false} MinimumExists<T>(s: set<T>, key: T -> int) returns (least: T)
    requires s != {}
    ensures least in s && forall x | x in s :: key(least) <= key(x)
    decreases s
  {
    least :| least in s;
    if s != {least} {
      var rest := MinimumExists(s - {least}, key);
      forall x | x in s && x != least ensures key(rest) <= key(x) {
        assert x in s - {least};
      }
      if key(rest) < key(least) {
        least := rest;
      }
    }
  }

  lemma MulOrder(m: nat, n: nat, d: nat)
    ensures n <= m ==> n * d <= m * d
  {
  }

  lemma QuotientIs(n: nat, q: nat, d: nat, r: nat)
    requires r < d && n == q * d + r
    ensures n / d == q
  {
    var m := n / d;
    assert m * d <= n < (m + 1) * d;
    MulOrder(q, m + 1, d);
    MulOrder(m, q + 1, d);
  }
}

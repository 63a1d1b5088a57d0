/** Density-step subsampling: the numpy slice `v[::k]` for a step `k >= 1`,
    which keeps records 0, k, 2k, ... of the vertex element. */
module Stride {

  /** Number of records `v[::k]` keeps out of `n`: one, then those of the
      `n - k` records after the first step. */
  function KeptCount(n: nat, k: nat): (r: nat)
    requires k >= 1
    ensures r <= n
    ensures r == 0 <==> n == 0
    ensures k == 1 ==> r == n
    decreases n
  {
    if n == 0 then 0 else 1 + KeptCount(if k < n then n - k else 0, k)
  }

  /** Integer division is determined by the bracket q * k <= a < q * k + k. */
  lemma DivUnique(a: nat, k: nat, q: nat)
    requires k >= 1 && q * k <= a < q * k + k
    ensures a / k == q
  {
    var d := a / k;
    assert a == d * k + a % k;
    if d > q {
      MulMono(q + 1, d, k);
    } else if d < q {
      MulMono(d + 1, q, k);
    }
  }

  lemma MulMono(x: nat, y: nat, k: nat)
    requires x <= y
    ensures x * k <= y * k
  {
  }

  lemma MulCancel(x: nat, y: nat, k: nat)
    requires x * k < y * k
    ensures x < y
  {
    if y <= x {
      MulMono(y, x, k);
    }
  }

  /** The kept count is the ceiling of n / k. */
  lemma {:induction false} KeptCountIsCeiling(n: nat, k: nat)
    requires k >= 1
    ensures KeptCount(n, k) == (n + k - 1) / k
    decreases n
  {
    if n == 0 {
      DivUnique(k - 1, k, 0);
    } else if k < n {
      KeptCountIsCeiling(n - k, k);
      var q := (n - 1) / k;
      assert n - 1 == q * k + (n - 1) % k;
      assert (q + 1) * k == q * k + k;
      DivUnique(n + k - 1, k, q + 1);
    } else {
      DivUnique(n + k - 1, k, 1);
      assert KeptCount(0, k) == 0;
    }
  }

  /** Prepending `s[0]` to the subsample of `s[k:]` keeps the index law
      `r[i] == s[i * k]` one position further along. */
  lemma ConsIndex<T>(s: seq<T>, k: nat, rest: seq<T>)
    requires k >= 1 && |s| >= 1
    requires forall i :: 0 <= i < |rest| ==> i * k < |s| - k && rest[i] == s[k..][i * k]
    ensures forall i :: 0 <= i < 1 + |rest| ==> i * k < |s| && ([s[0]] + rest)[i] == s[i * k]
  {
    forall i | 0 <= i < 1 + |rest|
      ensures i * k < |s| && ([s[0]] + rest)[i] == s[i * k]
    {
      if i > 0 {
        assert (i - 1) * k + k == i * k;
      }
    }
  }

  /** `s[::k]`: the first record, then `s[k:][::k]`. */
  function Subsample<T>(s: seq<T>, k: nat): (r: seq<T>)
    requires k >= 1
    ensures |r| == KeptCount(|s|, k)
    ensures forall i :: 0 <= i < |r| ==> i * k < |s| && r[i] == s[i * k]
    decreases |s|
  {
    if s == [] then []
    else if |s| <= k then [s[0]]
    else
      var rest := Subsample(s[k..], k);
      ConsIndex(s, k, rest);
      [s[0]] + rest
  }

  /** The index law of `Subsample` at one position. */
  lemma SubsampleAt<T>(s: seq<T>, k: nat, i: nat)
    requires k >= 1 && i < |Subsample(s, k)|
    ensures i * k < |s| && Subsample(s, k)[i] == s[i * k]
  {
  }

  /** Every record whose index is a multiple of `k` is kept, at position index / k. */
  lemma KeepsEveryMultiple<T>(s: seq<T>, k: nat, j: nat)
    requires k >= 1 && j < |s| && j % k == 0
    ensures j / k < |Subsample(s, k)| && Subsample(s, k)[j / k] == s[j]
  {
    var q := j / k;
    assert j == q * k + j % k;
    QuotientBelowCeiling(|s|, k, q);
    KeptCountIsCeiling(|s|, k);
  }

  lemma QuotientBelowCeiling(n: nat, k: nat, q: nat)
    requires k >= 1 && q * k < n
    ensures q < (n + k - 1) / k
  {
    var m := (n + k - 1) / k;
    var a := n + k - 1;
    assert a == m * k + a % k;
    assert (q + 1) * k == q * k + k;
    assert (m + 1) * k == m * k + k;
    MulCancel(q + 1, m + 1, k);
  }

  /** With the configured step of 1, subsampling is the identity. */
  lemma StepOneIsIdentity<T>(s: seq<T>)
    ensures Subsample(s, 1) == s
  {
    var r := Subsample(s, 1);
    KeptCountIsCeiling(|s|, 1);
    assert forall i :: 0 <= i < |r| ==> r[i] == s[i * 1];
  }
}

/** Finding the newest version of a layer that cannot be listed, only probed one version at a
    time: internal/deploy/lwa.go. */
module LayerSearch {
  datatype Probe = Available | Missing | Broken

  datatype Found = Version(v: int) | Unpublished | TooMany | ProbeFailed(at: int)

  const CEILING := 1024

  function Pow2(k: nat): nat { if k == 0 then 1 else 2 * Pow2(k - 1) }

  function FloorLog2(n: nat): nat { if n < 2 then 0 else 1 + FloorLog2(n / 2) }

  /** Exactly the versions 1 to `n` are available. */
  ghost predicate Exactly(probe: int -> Probe, n: nat) {
    forall v: int | 1 <= v :: probe(v) == if v <= n then Available else Missing
  }

  lemma {:induction false} Log2Between(n: nat, k: nat)
    requires Pow2(k) <= n < Pow2(k + 1)
    ensures FloorLog2(n) == k
  {
    if k > 0 { Log2Between(n / 2, k - 1); }
  }

  lemma {:induction false} Pow2Positive(k: nat)
    ensures Pow2(k) >= 1
  {
    if k > 0 { Pow2Positive(k - 1); }
  }

  lemma {:induction false} Pow2Monotone(j: nat, k: nat)
    requires j <= k
    ensures Pow2(j) <= Pow2(k)
  {
    if j < k { Pow2Monotone(j, k - 1); Pow2Positive(k - 1); }
  }

  /** Doubles until a version is missing, then bisects; `calls` counts the probes. */
  method Resolve(probe: int -> Probe) returns (r: Found, calls: nat)
    // What it returns is available, and the version after it is not.
    ensures r.Version? ==> 1 <= r.v < CEILING && probe(r.v) == Available && probe(r.v + 1) == Missing
    ensures r == Unpublished <==> probe(1) == Missing
    ensures r.ProbeFailed? ==> probe(r.at) == Broken
    ensures r == TooMany ==> probe(CEILING) == Available
    // When exactly 1..n are available it finds n, up to the ceiling, in exactly this many probes.
    ensures forall n: nat | Exactly(probe, n) ::
              r == if n == 0 then Unpublished else if n < CEILING then Version(n) else TooMany
    ensures forall n: nat | Exactly(probe, n) && 1 <= n < CEILING :: calls == 2 * (FloorLog2(n) + 1)
  {
    calls := 1;
    var ok := probe(1);
    if ok == Broken { return ProbeFailed(1), calls; }
    if ok == Missing { return Unpublished, calls; }
    var lo, hi := 1, 2;
    ghost var k: nat := 0;
    while hi <= CEILING
      invariant lo == Pow2(k) && hi == 2 * lo && calls == k + 1
      invariant probe(lo) == Available && (hi > CEILING ==> lo == CEILING)
      decreases CEILING + 1 - hi
    {
      calls := calls + 1;
      ok := probe(hi);
      if ok == Broken { return ProbeFailed(hi), calls; }
      if ok == Missing { break; }
      lo := hi;
      hi := hi * 2;
      k := k + 1;
      AtCeiling(k);
    }
    if hi > CEILING { return TooMany, calls; }
    assert probe(hi) == Missing && calls == k + 2 && hi == Pow2(k + 1);
    forall n: nat | Exactly(probe, n) ensures FloorLog2(n) == k {
      assert probe(hi) == Missing && probe(lo) == Available;
      Log2Between(n, k);
    }
    ghost var m := k;
    while hi - lo > 1
      invariant 1 <= lo < hi <= CEILING && 0 <= m <= k && hi - lo == Pow2(m) && calls == 2 * k + 2 - m
      invariant probe(lo) == Available && probe(hi) == Missing
      decreases hi - lo
    {
      var mid := lo + (hi - lo) / 2;
      calls := calls + 1;
      ok := probe(mid);
      if ok == Broken { return ProbeFailed(mid), calls; }
      if ok == Available { lo := mid; } else { hi := mid; }
      m := m - 1;
    }
    forall n: nat | Exactly(probe, n) ensures n == lo {
      assert probe(lo) == Available && probe(lo + 1) == Missing;
    }
    return Version(lo), calls;
  }

  /** The ceiling is a power of two, so doubling lands on it. */
  lemma AtCeiling(k: nat)
    ensures Pow2(k) <= CEILING < 2 * Pow2(k) ==> Pow2(k) == CEILING
  {
    assert Pow2(10) == 1024 by { assert Pow2(5) == 32; }
    if k <= 9 { Pow2Monotone(k, 9); } else { Pow2Monotone(10, k); }
  }
}

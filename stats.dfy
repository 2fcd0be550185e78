/**
 * Per-subgroup statistics over fully populated subgroups: the sum, the
 * mean (np.mean / np.nanmean without missing cells), the minimum, the
 * maximum and the range (np.ptp). Measurements are modelled as reals.
 */
module Stats {

  /** Sum of a sequence, accumulated from the left. */
  function Sum(xs: seq<real>): real
  {
    if |xs| == 0 then 0.0 else Sum(xs[..|xs| - 1]) + xs[|xs| - 1]
  }

  /**
   * Arithmetic mean of a non-empty sequence: the sum over the count, which
   * lies between the smallest and the largest element.
   */
  function Mean(xs: seq<real>): (m: real)
    requires |xs| > 0
    ensures Min(xs) <= m <= Max(xs)
  {
    AverageBetween(xs, Min(xs), Max(xs));
    Sum(xs) / (|xs| as real)
  }

  /** Values between lo and hi average between lo and hi. */
  lemma AverageBetween(xs: seq<real>, lo: real, hi: real)
    requires |xs| > 0
    requires forall i :: 0 <= i < |xs| ==> lo <= xs[i] <= hi
    ensures lo <= Sum(xs) / (|xs| as real) <= hi
  {
    SumBetween(xs, lo, hi);
    DivideBetween(Sum(xs), |xs| as real, lo, hi);
  }

  /** Dividing n·lo ≤ s ≤ n·hi by a positive n. */
  lemma DivideBetween(s: real, n: real, lo: real, hi: real)
    requires n > 0.0 && n * lo <= s <= n * hi
    ensures lo <= s / n <= hi
  {
    var q := s / n;
    assert q * n == s;
    assert n * lo <= n * q <= n * hi;
  }

  /** A sum of values between lo and hi lies between |xs|·lo and |xs|·hi. */
  lemma {:induction false} SumBetween(xs: seq<real>, lo: real, hi: real)
    requires forall i :: 0 <= i < |xs| ==> lo <= xs[i] <= hi
    ensures (|xs| as real) * lo <= Sum(xs) <= (|xs| as real) * hi
  {
    if |xs| > 0 {
      var p := xs[..|xs| - 1];
      assert forall i :: 0 <= i < |p| ==> p[i] == xs[i];
      SumBetween(p, lo, hi);
      assert (|xs| as real) * lo == (|p| as real) * lo + lo;
      assert (|xs| as real) * hi == (|p| as real) * hi + hi;
    }
  }

  /** A subgroup whose measurements are all equal has that value as its mean. */
  lemma MeanOfConstant(xs: seq<real>, v: real)
    requires |xs| > 0
    requires forall i :: 0 <= i < |xs| ==> xs[i] == v
    ensures Mean(xs) == v
  {
    assert Min(xs) == v && Max(xs) == v;
  }

  function Min(xs: seq<real>): (m: real)
    requires |xs| > 0
    ensures m in xs
    ensures forall i :: 0 <= i < |xs| ==> m <= xs[i]
  {
    if |xs| == 1 then xs[0]
    else
      var rest := Min(xs[1..]);
      if xs[0] <= rest then xs[0] else rest
  }

  function Max(xs: seq<real>): (m: real)
    requires |xs| > 0
    ensures m in xs
    ensures forall i :: 0 <= i < |xs| ==> xs[i] <= m
  {
    if |xs| == 1 then xs[0]
    else
      var rest := Max(xs[1..]);
      if xs[0] >= rest then xs[0] else rest
  }

  /** Range of one subgroup: largest minus smallest measurement. */
  function Range(xs: seq<real>): (r: real)
    requires |xs| > 0
    ensures r >= 0.0
    ensures r == 0.0 <==> forall i, j :: 0 <= i < |xs| && 0 <= j < |xs| ==> xs[i] == xs[j]
  {
    Max(xs) - Min(xs)
  }

  predicate AllNonNegative(xs: seq<real>)
  {
    forall i :: 0 <= i < |xs| ==> xs[i] >= 0.0
  }

  predicate AllZero(xs: seq<real>)
  {
    forall i :: 0 <= i < |xs| ==> xs[i] == 0.0
  }

  /** A sum of non-negative values is non-negative, and it is zero exactly when every value is. */
  lemma {:induction false} SumNonNegative(xs: seq<real>)
    requires AllNonNegative(xs)
    ensures Sum(xs) >= 0.0
    ensures Sum(xs) == 0.0 <==> AllZero(xs)
  {
    if |xs| > 0 {
      var p := xs[..|xs| - 1];
      assert AllNonNegative(p) by {
        forall i | 0 <= i < |p| ensures p[i] >= 0.0 { assert p[i] == xs[i]; }
      }
      SumNonNegative(p);
      if Sum(xs) == 0.0 {
        forall i | 0 <= i < |xs| ensures xs[i] == 0.0 {
          if i < |xs| - 1 { assert p[i] == xs[i]; }
        }
      }
      if AllZero(xs) {
        assert AllZero(p) by {
          forall i | 0 <= i < |p| ensures p[i] == 0.0 { assert p[i] == xs[i]; }
        }
      }
    }
  }

  /** The mean of non-negative values is non-negative, and zero exactly when every value is. */
  lemma MeanNonNegative(xs: seq<real>)
    requires |xs| > 0 && AllNonNegative(xs)
    ensures Mean(xs) >= 0.0
    ensures Mean(xs) == 0.0 <==> AllZero(xs)
  {
    SumNonNegative(xs);
  }

  /** Mean of every subgroup (np.nanmean over axis 1 on fully populated rows). */
  function Means(rows: seq<seq<real>>): (ms: seq<real>)
    requires forall i :: 0 <= i < |rows| ==> |rows[i]| > 0
    ensures |ms| == |rows|
    ensures forall i :: 0 <= i < |rows| ==> ms[i] == Mean(rows[i])
    ensures forall i :: 0 <= i < |rows| ==> Min(rows[i]) <= ms[i] <= Max(rows[i])
  {
    seq(|rows|, i requires 0 <= i < |rows| => Mean(rows[i]))
  }

  /** Range of every subgroup (np.ptp over axis 1). */
  function Ranges(rows: seq<seq<real>>): (rs: seq<real>)
    requires forall i :: 0 <= i < |rows| ==> |rows[i]| > 0
    ensures |rs| == |rows|
    ensures AllNonNegative(rs)
    ensures forall i :: 0 <= i < |rows| ==> rs[i] == Range(rows[i])
  {
    seq(|rows|, i requires 0 <= i < |rows| => Range(rows[i]))
  }
}

/**
 * Control limits of the X̄-R and X̄-S charts, and the selection of the
 * subgroups whose statistic falls outside its limits.
 */
module Limits {
  import opened Stats
  import opened ControlConstants

  datatype ChartFamily = MeanRange | MeanStdDev

  /** Center line and control limits of one chart. */
  datatype LimitSet = LimitSet(center: real, upper: real, lower: real)

  /** Limits of the location chart (means) and of the dispersion chart (ranges or standard deviations). */
  datatype ChartLimits = ChartLimits(location: LimitSet, dispersion: LimitSet)

  /**
   * A non-empty rectangular table of fully populated subgroups, with one
   * sample standard deviation (ddof=1, computed outside the model) per subgroup.
   */
  predicate ValidInput(rows: seq<seq<real>>, stds: seq<real>)
  {
    && |rows| > 0
    && |rows[0]| > 0
    && (forall i :: 0 <= i < |rows| ==> |rows[i]| == |rows[0]|)
    && |stds| == |rows|
  }

  /** Number of measurements per subgroup (subgroups.shape[1]). */
  function Width(rows: seq<seq<real>>): nat
    requires |rows| > 0
  {
    |rows[0]|
  }

  /** The per-subgroup dispersion statistic the chart family plots. */
  function Dispersions(rows: seq<seq<real>>, stds: seq<real>, family: ChartFamily): (ds: seq<real>)
    requires ValidInput(rows, stds)
    ensures |ds| == |rows|
    ensures family == MeanRange ==> AllNonNegative(ds) && forall i :: 0 <= i < |rows| ==> ds[i] == Range(rows[i])
    ensures family == MeanStdDev ==> ds == stds
  {
    if family == MeanRange then Ranges(rows) else stds
  }

  /**
   * The limit formulas given the two center lines and the coefficients:
   * location limits CLx ± A2·R̄ (X̄-R) or CLx ± A3·S̄ (X̄-S); dispersion limits
   * D3·R̄ and D4·R̄, or B3·S̄ and B4·S̄.
   */
  function LimitsFrom(clx: real, spread: real, c: Coefficients, family: ChartFamily): (r: ChartLimits)
    ensures r.location.center == clx && r.dispersion.center == spread
    ensures r.location.upper - r.location.center == r.location.center - r.location.lower
  {
    match family
    case MeanRange =>
      ChartLimits(LimitSet(clx, clx + c.a2 * spread, clx - c.a2 * spread),
                  LimitSet(spread, c.d4 * spread, c.d3 * spread))
    case MeanStdDev =>
      ChartLimits(LimitSet(clx, clx + c.a3 * spread, clx - c.a3 * spread),
                  LimitSet(spread, c.b4 * spread, c.b3 * spread))
  }

  /**
   * CLx is the mean of the subgroup means and the dispersion center line
   * the mean of the family's dispersion statistic; the coefficients are
   * those of the subgroup width, resolved by the nearest-size fallback.
   */
  function ComputeLimits(rows: seq<seq<real>>, stds: seq<real>, family: ChartFamily): (r: ChartLimits)
    requires ValidInput(rows, stds)
    ensures r.location.center == Mean(Means(rows))
    ensures r.dispersion.center == Mean(Dispersions(rows, stds, family))
    ensures r.location.upper - r.location.center == r.location.center - r.location.lower
  {
    LimitsFrom(Mean(Means(rows)), Mean(Dispersions(rows, stds, family)), Lookup(Width(rows)), family)
  }

  predicate Ordered(l: LimitSet)
  {
    l.lower <= l.center <= l.upper
  }

  lemma ScaledOrdered(lo: real, hi: real, center: real)
    requires 0.0 <= lo <= 1.0 <= hi && center >= 0.0
    ensures lo * center <= center <= hi * center
  {
    assert (1.0 - lo) * center >= 0.0;
    assert (hi - 1.0) * center >= 0.0;
  }

  /** With well-formed coefficients and a non-negative dispersion center line, LCL <= CL <= UCL on both charts. */
  lemma LimitsFromOrdered(clx: real, spread: real, c: Coefficients, family: ChartFamily)
    requires WellFormed(c) && spread >= 0.0
    ensures Ordered(LimitsFrom(clx, spread, c, family).location)
    ensures Ordered(LimitsFrom(clx, spread, c, family).dispersion)
  {
    var r := LimitsFrom(clx, spread, c, family);
    if family == MeanRange {
      ScaledOrdered(c.d3, c.d4, spread);
      assert c.a2 * spread >= 0.0;
      assert r.dispersion == LimitSet(spread, c.d4 * spread, c.d3 * spread);
    } else {
      ScaledOrdered(c.b3, c.b4, spread);
      assert c.a3 * spread >= 0.0;
      assert r.dispersion == LimitSet(spread, c.b4 * spread, c.b3 * spread);
    }
  }

  /**
   * Both charts have LCL <= CL <= UCL: ranges are never negative, and for
   * the X̄-S chart the supplied standard deviations are not negative either.
   */
  lemma LimitsOrdered(rows: seq<seq<real>>, stds: seq<real>, family: ChartFamily)
    requires ValidInput(rows, stds)
    requires family == MeanStdDev ==> AllNonNegative(stds)
    ensures Ordered(ComputeLimits(rows, stds, family).location)
    ensures Ordered(ComputeLimits(rows, stds, family).dispersion)
  {
    var ds := Dispersions(rows, stds, family);
    MeanNonNegative(ds);
    LimitsFromOrdered(Mean(Means(rows)), Mean(ds), Lookup(Width(rows)), family);
  }

  predicate Outside(x: real, l: LimitSet)
  {
    x > l.upper || x < l.lower
  }

  predicate StrictlyIncreasing(idx: seq<nat>)
  {
    forall i, j :: 0 <= i < j < |idx| ==> idx[i] < idx[j]
  }

  /**
   * np.where((values > UCL) | (values < LCL))[0]: the ascending indices of
   * the values strictly outside the limits. A value equal to a limit is inside.
   */
  function OutOfControl(values: seq<real>, l: LimitSet): (idx: seq<nat>)
    ensures StrictlyIncreasing(idx)
    ensures forall k :: 0 <= k < |idx| ==> idx[k] < |values|
    ensures forall i :: 0 <= i < |values| ==> (i in idx <==> Outside(values[i], l))
    ensures |idx| == 0 <==> forall i :: 0 <= i < |values| ==> !Outside(values[i], l)
  {
    if |values| == 0 then []
    else
      var n := |values| - 1;
      var prefix := values[..n];
      var before := OutOfControl(prefix, l);
      assert forall i :: 0 <= i < n ==> prefix[i] == values[i];
      before + (if Outside(values[n], l) then [n] else [])
  }

  /**
   * Number of out-of-control points: those of the means against the
   * location limits plus those of the dispersion statistic against the
   * dispersion limits.
   */
  function NumOutOfControl(means: seq<real>, spreads: seq<real>, lim: ChartLimits): (count: nat)
    ensures count == |OutsideSet(means, lim.location)| + |OutsideSet(spreads, lim.dispersion)|
    ensures count == 0 <==>
      && (forall i :: 0 <= i < |means| ==> !Outside(means[i], lim.location))
      && (forall i :: 0 <= i < |spreads| ==> !Outside(spreads[i], lim.dispersion))
  {
    OutOfControlCounts(means, lim.location);
    OutOfControlCounts(spreads, lim.dispersion);
    |OutOfControl(means, lim.location)| + |OutOfControl(spreads, lim.dispersion)|
  }

  /** The positions of the values strictly outside the limits, as a set. */
  function OutsideSet(values: seq<real>, l: LimitSet): set<nat>
  {
    set i: nat | i < |values| && Outside(values[i], l)
  }

  /** The selection lists each position outside the limits exactly once. */
  lemma {:induction false} OutOfControlCounts(values: seq<real>, l: LimitSet)
    ensures |OutOfControl(values, l)| == |OutsideSet(values, l)|
  {
    if |values| > 0 {
      var n := |values| - 1;
      OutOfControlCounts(values[..n], l);
      OutsideSetSnoc(values, l);
    }
  }

  /** Extending the values by one adds its position to the set exactly when it is outside. */
  lemma OutsideSetSnoc(values: seq<real>, l: LimitSet)
    requires |values| > 0
    ensures var n := |values| - 1;
      |OutsideSet(values, l)| == |OutsideSet(values[..n], l)| + (if Outside(values[n], l) then 1 else 0)
  {
    var n := |values| - 1;
    var prefix := values[..n];
    var before := OutsideSet(prefix, l);
    var last: set<nat> := if Outside(values[n], l) then {n} else {};
    assert OutsideSet(values, l) == before + last by {
      forall i: nat | i in OutsideSet(values, l) ensures i in before + last {
        assert i < |values| && Outside(values[i], l);
        if i < n {
          assert prefix[i] == values[i];
          assert i in before;
        } else {
          assert i == n && i in last;
        }
      }
      forall i: nat | i in before ensures i in OutsideSet(values, l) {
        assert prefix[i] == values[i];
      }
    }
    assert n !in before;
  }

}

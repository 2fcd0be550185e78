/**
 * Process capability (Cp, Cpk from the within-subgroup sigma) and process
 * performance (Pp, Ppk from the overall sigma), with their interpretation
 * bands.
 */
module Capability {
  import opened Stats
  import opened ControlConstants
  import opened Limits

  datatype Option<T> = None | Some(value: T)

  /**
   * Interpretation bands of an index. With specification limits the source
   * labels them "Excelente (Clase Mundial)", "Adecuado", "Marginal (Requiere
   * mejora)" and "Inadecuado (Acción inmediata)"; without them it uses the
   * short labels "Excelente", "Adecuado", "Marginal" and "Inadecuado" at the
   * same thresholds.
   */
  datatype Band = WorldClass | Adequate | Marginal | Inadequate

  /** interpretar: ≥ 2.0, ≥ 1.33, ≥ 1.0 and below 1.0, tested in that order. */
  function Interpret(value: real): (b: Band)
    ensures b == WorldClass <==> value >= 2.0
    ensures b == Adequate <==> 1.33 <= value < 2.0
    ensures b == Marginal <==> 1.0 <= value < 1.33
    ensures b == Inadequate <==> value < 1.0
  {
    if value >= 2.0 then WorldClass
    else if value >= 1.33 then Adequate
    else if value >= 1.0 then Marginal
    else Inadequate
  }

  /** Bands ranked from worst (0) to best (3). */
  function Rank(b: Band): nat
  {
    match b
    case Inadequate => 0
    case Marginal => 1
    case Adequate => 2
    case WorldClass => 3
  }

  /** A larger index never gets a worse band. */
  lemma InterpretMonotone(v: real, w: real)
    requires v <= w
    ensures Rank(Interpret(v)) <= Rank(Interpret(w))
  {
  }

  /**
   * The result of the analysis. tiene_limites is WithSpecLimits?: only then
   * are Cpk, Cpu, Cpl and the performance indices computed.
   */
  datatype Capability =
    | WithSpecLimits(
        sigmaWithin: real, sigmaTotal: real, mean: real,
        cp: real, cpk: real, cpu: real, cpl: real,
        pp: real, ppk: real, ppu: real, ppl: real,
        cpBand: Band, cpkBand: Band, ppBand: Band, ppkBand: Band)
    | ControlLimitsOnly(
        sigmaWithin: real, sigmaTotal: real, mean: real,
        cp: real, cpBand: Band)

  lemma QuotientSign(x: real, d: real)
    requires d > 0.0
    ensures x / d >= 0.0 <==> x >= 0.0
    ensures x / d == 0.0 <==> x == 0.0
  {
    assert (x / d) * d == x;
  }

  /**
   * Within-subgroup sigma: mean range over d2 for the X̄-R family, mean
   * standard deviation over c4 for the X̄-S family, with the coefficients of
   * the subgroup width resolved by the nearest-size fallback.
   */
  function SigmaWithin(rows: seq<seq<real>>, stds: seq<real>, family: ChartFamily): (s: real)
    requires ValidInput(rows, stds)
    ensures family == MeanRange ==> (s >= 0.0 && (s == 0.0 <==> AllZero(Ranges(rows))))
    ensures family == MeanStdDev && AllNonNegative(stds) ==> (s >= 0.0 && (s == 0.0 <==> AllZero(stds)))
  {
    var c := Lookup(Width(rows));
    match family
    case MeanRange =>
      MeanNonNegative(Ranges(rows));
      QuotientSign(Mean(Ranges(rows)), c.d2);
      Mean(Ranges(rows)) / c.d2
    case MeanStdDev =>
      if AllNonNegative(stds) then
        MeanNonNegative(stds);
        QuotientSign(Mean(stds), c.c4);
        Mean(stds) / c.c4
      else
        Mean(stds) / c.c4
  }

  /** The indices for a given mean, the two sigmas, the control limits and the optional specification limits. */
  function Indices(mean: real, sw: real, st: real, ucl: real, lcl: real,
                   usl: Option<real>, lsl: Option<real>): (r: Capability)
    requires sw != 0.0 && st != 0.0
    ensures r.sigmaWithin == sw && r.sigmaTotal == st && r.mean == mean
    ensures r.WithSpecLimits? <==> usl.Some? && lsl.Some?
    ensures r.cpBand == Interpret(r.cp)
    ensures r.WithSpecLimits? ==>
      && r.cpkBand == Interpret(r.cpk) && r.ppBand == Interpret(r.pp) && r.ppkBand == Interpret(r.ppk)
      && r.cpk <= r.cpu && r.cpk <= r.cpl && (r.cpk == r.cpu || r.cpk == r.cpl)
      && r.ppk <= r.ppu && r.ppk <= r.ppl && (r.ppk == r.ppu || r.ppk == r.ppl)
  {
    if usl.Some? && lsl.Some? then
      var spread := usl.value - lsl.value;
      var cp := spread / (6.0 * sw);
      var cpu := (usl.value - mean) / (3.0 * sw);
      var cpl := (mean - lsl.value) / (3.0 * sw);
      var cpk := if cpu <= cpl then cpu else cpl;
      var pp := spread / (6.0 * st);
      var ppu := (usl.value - mean) / (3.0 * st);
      var ppl := (mean - lsl.value) / (3.0 * st);
      var ppk := if ppu <= ppl then ppu else ppl;
      WithSpecLimits(sw, st, mean, cp, cpk, cpu, cpl, pp, ppk, ppu, ppl,
                     Interpret(cp), Interpret(cpk), Interpret(pp), Interpret(ppk))
    else
      var cp := (ucl - lcl) / (6.0 * sw);
      ControlLimitsOnly(sw, st, mean, cp, Interpret(cp))
  }

  /**
   * analizar_capacidad: nothing when either sigma is zero; otherwise the
   * indices around the process mean (the mean of the subgroup means).
   * sigmaTotal, the sample standard deviation of all measurements, is
   * supplied by the caller.
   */
  function AnalyzeCapability(rows: seq<seq<real>>, stds: seq<real>, sigmaTotal: real,
                             ucl: real, lcl: real, usl: Option<real>, lsl: Option<real>,
                             family: ChartFamily): (r: Option<Capability>)
    requires ValidInput(rows, stds)
    ensures r.None? <==> SigmaWithin(rows, stds, family) == 0.0 || sigmaTotal == 0.0
    ensures r.Some? ==>
      && r.value.sigmaWithin == SigmaWithin(rows, stds, family)
      && r.value.sigmaTotal == sigmaTotal
      && r.value.mean == Mean(Means(rows))
      && (r.value.WithSpecLimits? <==> usl.Some? && lsl.Some?)
      && r.value == Indices(Mean(Means(rows)), SigmaWithin(rows, stds, family), sigmaTotal, ucl, lcl, usl, lsl)
  {
    var sw := SigmaWithin(rows, stds, family);
    if sw == 0.0 || sigmaTotal == 0.0 then None
    else Some(Indices(Mean(Means(rows)), sw, sigmaTotal, ucl, lcl, usl, lsl))
  }

  /** For the X̄-R family, capability is not computable exactly when every subgroup has zero range or sigmaTotal is zero. */
  lemma NotComputableWithoutVariation(rows: seq<seq<real>>, stds: seq<real>, sigmaTotal: real,
                                      ucl: real, lcl: real, usl: Option<real>, lsl: Option<real>)
    requires ValidInput(rows, stds)
    ensures AnalyzeCapability(rows, stds, sigmaTotal, ucl, lcl, usl, lsl, MeanRange).None? <==>
      (forall i :: 0 <= i < |rows| ==> Range(rows[i]) == 0.0) || sigmaTotal == 0.0
  {
    var rs := Ranges(rows);
    assert AllZero(rs) <==> forall i :: 0 <= i < |rows| ==> Range(rows[i]) == 0.0;
  }

  /**
   * For the X̄-S family, with the non-negative standard deviations np.nanstd
   * yields, capability is not computable exactly when every subgroup has
   * zero standard deviation or sigmaTotal is zero.
   */
  lemma NotComputableWithoutSpread(rows: seq<seq<real>>, stds: seq<real>, sigmaTotal: real,
                                   ucl: real, lcl: real, usl: Option<real>, lsl: Option<real>)
    requires ValidInput(rows, stds) && AllNonNegative(stds)
    ensures AnalyzeCapability(rows, stds, sigmaTotal, ucl, lcl, usl, lsl, MeanStdDev).None? <==>
      AllZero(stds) || sigmaTotal == 0.0
  {
    var sw := SigmaWithin(rows, stds, MeanStdDev);
    assert sw == 0.0 <==> AllZero(stds);
  }

  lemma UpperPlusLower(usl: real, lsl: real, mean: real, s: real)
    requires s != 0.0
    ensures (usl - mean) / (3.0 * s) + (mean - lsl) / (3.0 * s) == 2.0 * ((usl - lsl) / (6.0 * s))
  {
    var k := 3.0 * s;
    assert (usl - mean) / k + (mean - lsl) / k == (usl - lsl) / k;
    assert (usl - lsl) / (6.0 * s) == ((usl - lsl) / k) / 2.0;
  }

  /**
   * With both specification limits, Cpu + Cpl = 2·Cp, hence Cpk = min(Cpu,
   * Cpl) <= Cp; likewise Ppu + Ppl = 2·Pp and Ppk <= Pp.
   */
  lemma CpkAtMostCp(mean: real, sw: real, st: real, ucl: real, lcl: real, usl: real, lsl: real)
    requires sw != 0.0 && st != 0.0
    ensures var r := Indices(mean, sw, st, ucl, lcl, Some(usl), Some(lsl));
      && r.cpu + r.cpl == 2.0 * r.cp && r.cpk <= r.cp
      && r.ppu + r.ppl == 2.0 * r.pp && r.ppk <= r.pp
  {
    UpperPlusLower(usl, lsl, mean, sw);
    UpperPlusLower(usl, lsl, mean, st);
  }

  /**
   * What off-centering costs: Cp − Cpk is half the gap between Cpu and Cpl,
   * so a gap above 0.2 (the "off-center" recommendation) means Cpk is more
   * than 0.1 below Cp.
   */
  lemma CapabilityLostToOffCentering(mean: real, sw: real, st: real, ucl: real, lcl: real, usl: real, lsl: real)
    requires sw != 0.0 && st != 0.0
    ensures var r := Indices(mean, sw, st, ucl, lcl, Some(usl), Some(lsl));
      2.0 * (r.cp - r.cpk) == (if r.cpu >= r.cpl then r.cpu - r.cpl else r.cpl - r.cpu)
  {
    CpkAtMostCp(mean, sw, st, ucl, lcl, usl, lsl);
  }

  lemma SameDivisor(a: real, b: real, k: real)
    requires k != 0.0
    ensures a / k == b / k <==> a == b
  {
    assert (a / k) * k == a;
    assert (b / k) * k == b;
  }

  /** Cpk reaches Cp exactly when the process mean sits midway between the specification limits. */
  lemma CpkEqualsCpIffCentered(mean: real, sw: real, st: real, ucl: real, lcl: real, usl: real, lsl: real)
    requires sw != 0.0 && st != 0.0
    ensures var r := Indices(mean, sw, st, ucl, lcl, Some(usl), Some(lsl));
      r.cpk == r.cp <==> usl - mean == mean - lsl
  {
    var r := Indices(mean, sw, st, ucl, lcl, Some(usl), Some(lsl));
    CpkAtMostCp(mean, sw, st, ucl, lcl, usl, lsl);
    SameDivisor(usl - mean, mean - lsl, 3.0 * sw);
    assert r.cpk == r.cp <==> r.cpu == r.cpl;
  }

  lemma ScaleBySigma(x: real, sw: real, st: real)
    requires sw != 0.0 && st != 0.0
    ensures (x / (3.0 * st)) * st == (x / (3.0 * sw)) * sw
  {
    assert (x / (3.0 * st)) * (3.0 * st) == x;
    assert (x / (3.0 * sw)) * (3.0 * sw) == x;
  }

  /** Two quantities rescaled by the same positive ratio keep their order, so their minima are rescaled alike. */
  lemma MinRescaled(cu: real, cl: real, pu: real, pl: real, sw: real, st: real)
    requires sw > 0.0 && st > 0.0
    requires pu * st == cu * sw && pl * st == cl * sw
    ensures (if pu <= pl then pu else pl) * st == (if cu <= cl then cu else cl) * sw
  {
    assert pu <= pl <==> pu * st <= pl * st;
    assert cu <= cl <==> cu * sw <= cl * sw;
  }

  lemma BelowWhenWider(ck: real, pk: real, sw: real, st: real)
    requires sw > 0.0 && st > 0.0 && ck > 0.0
    requires pk * st == ck * sw
    ensures pk < ck <==> st > sw
  {
    assert pk < ck <==> pk * st < ck * st;
    assert ck * sw < ck * st <==> sw < st;
  }

  /**
   * Performance and capability differ only by the sigma used: Ppk·σtotal =
   * Cpk·σwithin. So for a process with Cpk > 0 and positive sigmas, Ppk < Cpk
   * exactly when the overall sigma exceeds the within-subgroup sigma.
   */
  lemma PpkBelowCpkMeansExtraVariation(mean: real, sw: real, st: real, ucl: real, lcl: real, usl: real, lsl: real)
    requires sw > 0.0 && st > 0.0
    ensures var r := Indices(mean, sw, st, ucl, lcl, Some(usl), Some(lsl));
      && r.ppk * st == r.cpk * sw
      && (r.cpk > 0.0 ==> (r.ppk < r.cpk <==> st > sw))
  {
    var r := Indices(mean, sw, st, ucl, lcl, Some(usl), Some(lsl));
    ScaleBySigma(usl - mean, sw, st);
    ScaleBySigma(mean - lsl, sw, st);
    MinRescaled(r.cpu, r.cpl, r.ppu, r.ppl, sw, st);
    if r.cpk > 0.0 {
      BelowWhenWider(r.cpk, r.ppk, sw, st);
    }
  }

  /** An index of the form (2·k·x)/(6·(x/m)) is k·m/3, whatever x ≠ 0. */
  lemma RatioCancels(k: real, m: real, x: real, ucl: real, lcl: real, sw: real)
    requires m > 0.0 && x != 0.0
    requires sw == x / m && ucl - lcl == 2.0 * (k * x)
    ensures sw != 0.0
    ensures (ucl - lcl) / (6.0 * sw) == k * m / 3.0
  {
    assert sw * m == x;
    assert (k * m / 3.0) * (6.0 * sw) == 2.0 * (k * (sw * m));
  }

  /**
   * Without specification limits Cp is (UCL − LCL)/(6·σ) with the chart's
   * own limits. For the X̄-R chart UCL − LCL = 2·A2·R̄ and σ = R̄/d2, so Cp is
   * the constant A2·d2/3 of the subgroup size whatever the data; for the
   * X̄-S chart it is A3·c4/3 likewise.
   */
  lemma ControlOnlyCpIsConstant(mean: real, spread: real, sigmaTotal: real, c: Coefficients, family: ChartFamily)
    requires WellFormed(c) && spread != 0.0 && sigmaTotal != 0.0
    ensures var lim := LimitsFrom(mean, spread, c, family).location;
      var sw := if family == MeanRange then spread / c.d2 else spread / c.c4;
      && sw != 0.0
      && Indices(mean, sw, sigmaTotal, lim.upper, lim.lower, None, None).cp
         == (if family == MeanRange then c.a2 * c.d2 / 3.0 else c.a3 * c.c4 / 3.0)
  {
    if family == MeanRange {
      ControlOnlyCpOf(mean, spread, sigmaTotal, c.a2, c.d2, LimitsFrom(mean, spread, c, family).location);
    } else {
      ControlOnlyCpOf(mean, spread, sigmaTotal, c.a3, c.c4, LimitsFrom(mean, spread, c, family).location);
    }
  }

  /** Limits CL ± k·x with σ = x/m give a control-only Cp of k·m/3. */
  lemma ControlOnlyCpOf(mean: real, spread: real, sigmaTotal: real, k: real, m: real, lim: LimitSet)
    requires m > 0.0 && spread != 0.0 && sigmaTotal != 0.0
    requires lim.upper == mean + k * spread && lim.lower == mean - k * spread
    ensures spread / m != 0.0
    ensures Indices(mean, spread / m, sigmaTotal, lim.upper, lim.lower, None, None).cp == k * m / 3.0
  {
    assert lim.upper - lim.lower == 2.0 * (k * spread);
    RatioCancels(k, m, spread, lim.upper, lim.lower, spread / m);
    ControlOnlyCp(mean, spread / m, sigmaTotal, lim.upper, lim.lower);
  }

  /** Both constants of ControlOnlyCpIsConstant, A2·d2/3 and A3·c4/3, are below 1.0. */
  predicate ControlOnlyCpBelowOne(c: Coefficients)
  {
    c.a2 * c.d2 / 3.0 < 1.0 && c.a3 * c.c4 / 3.0 < 1.0
  }

  /** Every size resolves to coefficients whose control-only Cp is below 1.0. */
  lemma LookupControlOnlyCpBelowOne(n: int)
    ensures ControlOnlyCpBelowOne(Lookup(n))
  {
    var k := ResolveSize(n);
    assert ControlOnlyCpBelowOne(Table[k]);
  }

  /**
   * Hence, without specification limits, the Cp band is Inadequate for
   * every subgroup size and whatever the data.
   */
  lemma ControlOnlyBandIsInadequate(mean: real, spread: real, sigmaTotal: real, c: Coefficients, family: ChartFamily)
    requires WellFormed(c) && ControlOnlyCpBelowOne(c)
    requires spread != 0.0 && sigmaTotal != 0.0
    ensures var lim := LimitsFrom(mean, spread, c, family).location;
      var sw := if family == MeanRange then spread / c.d2 else spread / c.c4;
      && sw != 0.0
      && Indices(mean, sw, sigmaTotal, lim.upper, lim.lower, None, None).cpBand == Inadequate
  {
    ControlOnlyCpIsConstant(mean, spread, sigmaTotal, c, family);
  }

  /**
   * End to end: analysing a table against its own chart's control limits,
   * without specification limits, yields an Inadequate Cp band whenever the
   * analysis is computable.
   */
  lemma ControlOnlyAnalysisIsInadequate(rows: seq<seq<real>>, stds: seq<real>, sigmaTotal: real, family: ChartFamily)
    requires ValidInput(rows, stds)
    ensures var lim := ComputeLimits(rows, stds, family).location;
      var r := AnalyzeCapability(rows, stds, sigmaTotal, lim.upper, lim.lower, None, None, family);
      r.Some? ==> r.value.ControlLimitsOnly? && r.value.cpBand == Inadequate
  {
    var c := Lookup(Width(rows));
    var spread := Mean(Dispersions(rows, stds, family));
    var clx := Mean(Means(rows));
    var lim := ComputeLimits(rows, stds, family).location;
    assert lim == LimitsFrom(clx, spread, c, family).location;
    var sw := SigmaWithin(rows, stds, family);
    assert sw == if family == MeanRange then spread / c.d2 else spread / c.c4;
    if sw != 0.0 && sigmaTotal != 0.0 {
      QuotientSign(spread, if family == MeanRange then c.d2 else c.c4);
      LookupControlOnlyCpBelowOne(Width(rows));
      ControlOnlyBandIsInadequate(clx, spread, sigmaTotal, c, family);
    }
  }

  /** Without specification limits only Cp is computed, from the control limits. */
  lemma ControlOnlyCp(mean: real, sw: real, st: real, ucl: real, lcl: real)
    requires sw != 0.0 && st != 0.0
    ensures Indices(mean, sw, st, ucl, lcl, None, None).ControlLimitsOnly?
    ensures Indices(mean, sw, st, ucl, lcl, None, None).cp == (ucl - lcl) / (6.0 * sw)
  {
  }
}

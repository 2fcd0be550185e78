# Statistical process control core of APPCONTROL

APPCONTROL is a Dash application. It draws X̄-R and X̄-S control charts from
tables of subgroup measurements, runs pattern rules over the subgroup means,
computes capability indices and lists recommendations. This project models the
computational core of that application in Dafny and proves what it computes.
The core consists of:

- **Coefficient table** (`ControlConstants`). This is the table of control-chart
  coefficients A2, D3, D4, d2, A3, B3, B4 and c4 for subgroup sizes 2–12, 15, 20 and 25.
  A width the table does not list falls back to the nearest listed size; ties go
  to the smaller size.
- **Control limits** (`Stats`, `Limits`):
  - the per-subgroup means and ranges;
  - the center lines, and the limit formulas of both chart families;
  - the ascending index lists of the points strictly outside their limits, and
    their total count.
- **Pattern rule engine** (`Patterns`, `PatternFacts`). `Patterns.DetectPatterns`
  is an imperative method:
  - five sliding-window scans, one per rule;
  - each scan grows the violation list and the set of keys already reported,
    exactly as `detectar_patrones_western_electric` does.
  - The function `Patterns.Detect` specifies its output.
  - The `PatternFacts` lemmas say what each rule reports.
  - Rules 1–4 are the zone tests of the Western Electric *Statistical Quality
    Control Handbook* (1956). Rule 5 is the six-point monotone trend.
- **Capability analysis** (`Capability`). This models `analizar_capacidad` with its
  `interpretar` bands:
  - σ within subgroups;
  - the "not computable" result;
  - Cp, Cpu, Cpl, Cpk, Pp, Ppu, Ppl and Ppk with specification limits;
  - the control-limit Cp without them.
- **Recommendation list** (`Recommendations`). `Recommendations.Recommend` is an
  imperative method. It appends the advice items in the order the application
  does. The function `Recommendations.Recommendations` specifies the list, and
  lemmas state when each item appears.

Measurements are modelled as `real`. A violation is the tagged record
`(rule, window start, side)`, not the formatted message. That record doubles as
the deduplication key `R<rule>-<start>[-sup|-inf|-asc|-desc]`. A recommendation
is an `Advice` constructor, not an emoji-prefixed string.

## Model

| member | source | states |
|---|---|---|
| ControlConstants.TableWellFormed | APPCONTROL.py:35-50 | every table row has A2, A3, d2, c4 > 0, 0 ≤ D3 ≤ 1 ≤ D4 and 0 ≤ B3 ≤ 1 ≤ B4 |
| ControlConstants.SortedKeysAreTheTableKeys | APPCONTROL.py:652-653 | the sorted key list is ascending and holds exactly the table's keys |
| ControlConstants.Nearest | APPCONTROL.py:654 | `min` with a distance key returns a member of the list at minimum distance from n |
| ControlConstants.NearestIsFirstMinimum | APPCONTROL.py:654 | the chosen key is the first key of the list at that minimum distance |
| ControlConstants.NearestBreaksTiesDownward | APPCONTROL.py:654 | over ascending keys, a tie between two keys goes to the smaller one |
| ControlConstants.ResolveSize | APPCONTROL.py:781-785 | the size used is a table key; it is n itself when n is a key; otherwise no key is closer, and among equally close keys it is the smallest |
| ControlConstants.ResolveSizeClamps | APPCONTROL.py:781-785 | widths up to 2 use the coefficients of size 2, and widths from 25 up use those of size 25 |
| ControlConstants.Lookup | APPCONTROL.py:787-790 | the coefficients used for any width satisfy the facts the limit formulas rely on |
| Stats.Mean | APPCONTROL.py:645-646 | the mean of a subgroup lies between its smallest and its largest measurement |
| Stats.MeanOfConstant | APPCONTROL.py:645-646 | a subgroup whose measurements all equal v has mean v |
| Stats.Means | APPCONTROL.py:776 | one mean per subgroup, each between that subgroup's smallest and largest measurement |
| Stats.Range | APPCONTROL.py:777 | a subgroup's range is non-negative, and zero exactly when all its measurements are equal |
| Stats.Ranges | APPCONTROL.py:777 | one range per subgroup, each non-negative |
| Stats.SumNonNegative | APPCONTROL.py:793 | a sum of non-negative values is non-negative, and zero exactly when every value is zero |
| Stats.MeanNonNegative | APPCONTROL.py:793 | the mean range (or mean standard deviation) is non-negative, and zero exactly when every value is zero |
| Limits.Dispersions | APPCONTROL.py:792-805 | the X̄-R chart plots the subgroup ranges, all non-negative; the X̄-S chart plots the supplied standard deviations |
| Limits.LimitsFrom | APPCONTROL.py:796-805 | the center lines are the given CLx and dispersion center; the X̄ limits lie symmetrically around CLx |
| Limits.ComputeLimits | APPCONTROL.py:792-805 | CLx is the mean of the subgroup means; the dispersion center line is the mean of the chart family's statistic; the X̄ limits are symmetric |
| Limits.LimitsFromOrdered | APPCONTROL.py:796-805 | with well-formed coefficients and a non-negative dispersion center line: LCL ≤ CL ≤ UCL on both charts |
| Limits.LimitsOrdered | APPCONTROL.py:792-805 | LCLx ≤ CLx ≤ UCLx, and LCLr ≤ CLr ≤ UCLr or LCLs ≤ CLs ≤ UCLs, for any valid input |
| Limits.OutOfControl | APPCONTROL.py:850 | the result is strictly ascending, its indices are in range, and i is in it exactly when value i is strictly above UCL or strictly below LCL |
| Limits.NumOutOfControl | APPCONTROL.py:953-956 | the count is the number of means strictly outside the location limits plus the number of dispersion values strictly outside the dispersion limits; it is zero exactly when every point is within its limits |
| Limits.OutOfControlCounts | APPCONTROL.py:850 | the selection lists each position outside the limits exactly once: its length is the number of such positions |
| Patterns.ZonesOf | APPCONTROL.py:559-563 | the 1σ and 2σ lines cut CL…UCL into three equal zones of width σ, mirrored below CL |
| Patterns.DetectPatterns | APPCONTROL.py:553-637 | the five scans return exactly `Detect`, and the returned list never holds the same key twice |
| Patterns.Report | APPCONTROL.py:568-571 | a key is appended only when it is not yet in the list; the key set stays equal to the list's elements |
| Patterns.ScanBeyondLimits | APPCONTROL.py:566-571 | the loop appends exactly rule 1's scan; key set and list stay equal |
| Patterns.ScanTwoOfThree | APPCONTROL.py:573-590 | the loop appends exactly rule 2's scan after the earlier rules' output; key set and list stay equal |
| Patterns.TwoOfThreeWindow | APPCONTROL.py:574-590 | one rule 2 window appends exactly what `At(2, …)` reports: Above, then Below |
| Patterns.ScanFourOfFive | APPCONTROL.py:592-607 | the loop appends exactly rule 3's scan; key set and list stay equal |
| Patterns.FourOfFiveWindow | APPCONTROL.py:593-607 | one rule 3 window appends exactly what `At(3, …)` reports |
| Patterns.ScanEightOneSide | APPCONTROL.py:609-621 | the loop appends exactly rule 4's scan; key set and list stay equal |
| Patterns.EightOneSideWindow | APPCONTROL.py:610-621 | one rule 4 window appends exactly what `At(4, …)` reports |
| Patterns.ScanSixTrend | APPCONTROL.py:623-635 | the loop appends exactly rule 5's scan; key set and list stay equal |
| Patterns.SixTrendWindow | APPCONTROL.py:624-635 | one rule 5 window appends exactly what `At(5, …)` reports |
| Patterns.CountAboveIsCardinality | APPCONTROL.py:576 | the counting sum equals the number of window positions strictly above the threshold |
| Patterns.CountBelowIsCardinality | APPCONTROL.py:577 | the counting sum equals the number of window positions strictly below the threshold |
| Patterns.AtSides | APPCONTROL.py:566-635 | rule 1 reports no side; rules 2–4 report Above or Below; rule 5 reports Ascending or Descending |
| Patterns.ScanMember | APPCONTROL.py:566-635 | a violation is in a rule's scan exactly when its own window reports it |
| Patterns.DetectMember | APPCONTROL.py:553-637 | a violation is in the output exactly when its rule's complete window at its start reports it |
| Patterns.DetectSorted | APPCONTROL.py:553-637 | the output is ordered by rule, then window start, then Above/Ascending before Below/Descending; no key appears twice |
| Patterns.KeysMatchViolations | APPCONTROL.py:556-557 | the number of distinct keys equals the number of violations: the key set never suppresses anything |
| PatternFacts.ReportedShape | APPCONTROL.py:566-635 | every violation sits on a complete window of its rule and carries a side its rule can report; so rules 2, 3, 4 and 5 need at least 3, 5, 8 and 6 means |
| PatternFacts.BeyondLimitsFires | APPCONTROL.py:566-571 | mean i is reported by rule 1 exactly when it is strictly above UCL or strictly below LCL |
| PatternFacts.OnLimitDoesNotFire | APPCONTROL.py:567 | a mean equal to UCL or LCL is never reported by rule 1 |
| PatternFacts.TwoOfThreeFires | APPCONTROL.py:559-590 | window i fires Above exactly when at least 2 of its 3 means exceed CL + 2σ, and Below exactly when at least 2 fall below CL − 2σ; the two sides are independent |
| PatternFacts.FourOfFiveFires | APPCONTROL.py:559-607 | window i fires Above exactly when at least 4 of its 5 means exceed CL + σ, and Below exactly when at least 4 fall below CL − σ |
| PatternFacts.EightOneSideFires | APPCONTROL.py:609-621 | window i fires Above exactly when all 8 means are strictly above CL, and Below exactly when all 8 are strictly below |
| PatternFacts.CenterValueBlocksEightOneSide | APPCONTROL.py:611-616 | a mean equal to CL in the window blocks rule 4 on both sides |
| PatternFacts.SixTrendFires | APPCONTROL.py:623-635 | window i fires Ascending exactly when all 5 steps strictly increase, and Descending exactly when all 5 strictly decrease |
| PatternFacts.OnePerWindow | APPCONTROL.py:609-635 | rules 4 and 5 never report both sides of one window |
| PatternFacts.DetectLength | APPCONTROL.py:553-637 | at most n + 2·W3 + 2·W5 + W8 + W6 violations (Wk = number of windows of size k); for n ≥ 8, at most n + 2(n−2) + 2(n−4) + (n−7) + (n−5) |
| Capability.Interpret | APPCONTROL.py:691-699 | WorldClass iff ≥ 2.0, Adequate iff in [1.33, 2.0), Marginal iff in [1.0, 1.33), Inadequate iff < 1.0 |
| Capability.InterpretMonotone | APPCONTROL.py:691-699 | a larger index never gets a worse band |
| Capability.SigmaWithin | APPCONTROL.py:649-664 | σ within is non-negative, and zero exactly when every subgroup range is zero (X̄-R) or, for non-negative standard deviations, every standard deviation is zero (X̄-S) |
| Capability.Indices | APPCONTROL.py:675-731 | the sigmas and mean are carried through; the result has specification-limit indices exactly when both USL and LSL are given; each of the Cp, Cpk, Pp and Ppk bands is the interpretation of its index; Cpk is the smaller of Cpu and Cpl, and Ppk the smaller of Ppu and Ppl |
| Capability.AnalyzeCapability | APPCONTROL.py:639-731 | the result is None exactly when σ within or σ total is zero; otherwise it is the indices around the process mean with those sigmas, with specification indices iff both limits are given |
| Capability.NotComputableWithoutVariation | APPCONTROL.py:649-672 | for X̄-R: not computable exactly when every subgroup has zero range, or σ total is zero |
| Capability.NotComputableWithoutSpread | APPCONTROL.py:657-672 | for X̄-S with non-negative standard deviations: not computable exactly when every subgroup has zero standard deviation, or σ total is zero |
| Capability.CpkAtMostCp | APPCONTROL.py:679-688 | Cpu + Cpl = 2·Cp, so Cpk ≤ Cp; Ppu + Ppl = 2·Pp, so Ppk ≤ Pp |
| Capability.CapabilityLostToOffCentering | APPCONTROL.py:679-682 | 2·(Cp − Cpk) = \|Cpu − Cpl\| |
| Capability.CpkEqualsCpIffCentered | APPCONTROL.py:679-682 | Cpk = Cp exactly when the process mean is midway between LSL and USL |
| Capability.PpkBelowCpkMeansExtraVariation | APPCONTROL.py:679-688 | Ppk·σtotal = Cpk·σwithin; so when Cpk > 0, Ppk < Cpk exactly when σtotal > σwithin |
| Capability.ControlOnlyCp | APPCONTROL.py:719-721 | without specification limits only Cp is computed, as (UCL − LCL)/(6·σ within) |
| Capability.ControlOnlyCpIsConstant | APPCONTROL.py:720-722 | without specification limits and with the chart's own limits, Cp = A2·d2/3 (X̄-R) or A3·c4/3 (X̄-S), whatever the data |
| Capability.LookupControlOnlyCpBelowOne | APPCONTROL.py:35-50 | for every width the coefficients give A2·d2/3 < 1 and A3·c4/3 < 1 |
| Capability.ControlOnlyBandIsInadequate | APPCONTROL.py:720-729 | so, without specification limits, the Cp band is always Inadequate |
| Capability.ControlOnlyAnalysisIsInadequate | APPCONTROL.py:639-731 | analysing a table against its own chart's control limits without specification limits gives, whenever computable, the Inadequate Cp band |
| Recommendations.Recommend | APPCONTROL.py:1293-1343 | the appended list equals `Recommendations(…)`, is never empty and holds no item twice |
| Recommendations.RuleAdvice | APPCONTROL.py:1304-1320 | appends exactly the rule items; the rule-k item is present iff 1 ≤ k ≤ 5 and some violation has rule k |
| Recommendations.CapabilityAdvice | APPCONTROL.py:1322-1335 | appends exactly the capability items, and only capability items |
| Recommendations.RuleItemsFacts | APPCONTROL.py:1304-1320 | the rule items are one per rule that fired, in rule order and without repetition; there are none exactly when no rule fired |
| Recommendations.CapabilityItemsShape | APPCONTROL.py:1322-1335 | the capability items are capability advice and never repeat |
| Recommendations.CapabilityItemsFacts | APPCONTROL.py:1322-1335 | each capability item appears exactly under its own condition, only with specification limits; none appear exactly when no condition holds |
| Recommendations.ActionsEmptyIff | APPCONTROL.py:1295-1337 | no action item is added exactly when there are no out-of-control points, no rule fired, and no capability condition holds |
| Recommendations.ActionsNotStable | APPCONTROL.py:1295-1335 | no action item is a "stable process" item |
| Recommendations.ActionsDistinct | APPCONTROL.py:1295-1335 | the action items never repeat |
| Recommendations.RecommendationsDistinct | APPCONTROL.py:1293-1343 | the final list is never empty and never repeats an item |
| Recommendations.InRecommendations | APPCONTROL.py:1293-1343 | an item other than the stable items is listed exactly when one of the three groups holds it |
| Recommendations.StableIffNothingToReport | APPCONTROL.py:1337-1343 | the list is exactly the four stable items iff nothing calls for action, and the stable items never appear beside others |
| Recommendations.OutOfControlFirst | APPCONTROL.py:1295-1302 | the five out-of-control items are listed iff some point is out of control, and then they lead the list |
| Recommendations.RuleAdviceIff | APPCONTROL.py:1304-1320 | the rule-k item is in the list iff 1 ≤ k ≤ 5 and some violation belongs to rule k |
| Recommendations.CapabilityAdviceIff | APPCONTROL.py:1322-1335 | the urgent items iff Cpk < 1.0; the improvement item iff 1.0 ≤ Cpk < 1.33; the consistency item iff Ppk < Cpk; the centering item iff \|Cpu − Cpl\| > 0.2; each only with specification limits |
| Recommendations.CapabilityInRecommendations | APPCONTROL.py:1322-1335 | a capability item is in the list exactly when the capability items hold it |

## Left out

- The Dash layout, the callbacks that only manage UI state, the Plotly figures, the zone shading and the statistics cards are left out. They render and hold no logic of the core.
- `parse_contents` and `encode_image` are left out. They decode uploads and read files, which is I/O through pandas and the file system.
- Floating point is left out. Measurements, limits and indices are exact reals, so rounding and IEEE-754 comparisons are not modelled.
- NaN handling is left out, along with the dropping of all-NaN rows. Subgroups are modelled as fully populated rectangular rows.
- The numpy reductions `np.nanstd(ddof=1)` and `np.std(ddof=1)` are left out.
  - The per-subgroup sample standard deviations (`stds`) and σ total are inputs of the model.
  - `Stats.Sum`, `Stats.Mean`, `Stats.Min` and `Stats.Max` define the mean and the range themselves.
- Message text and `:.4f` formatting are left out. Violations and recommendations are tagged data.
  - `tiene_rK` tests for the substring "Regla K" in the messages. It is modelled as "some violation has rule K". Every message of rule K starts with "Regla K:" and K is a single digit, so the two tests agree.
- Capability.Interpret: the spec-limit path's long labels and the control-only path's short labels are one `Band` type. Their thresholds are identical.
- Capability.SigmaWithin and Capability.NotComputableWithoutSpread: for the X̄-S chart, the sign facts assume non-negative standard deviations, which np.nanstd always yields but which are inputs here.
- Limits.LimitsOrdered: for the X̄-S chart, the non-negativity of the supplied standard deviations is a precondition, because those values are inputs here.
- The "Alerta principal" banner and the other uses of the counts in the page are left out. They only render values that the model already computes.

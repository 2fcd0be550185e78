/**
 * The pattern rule engine over a sequence of subgroup means: rules 1 to 4
 * are the zone tests of the Western Electric Statistical Quality Control
 * Handbook (1956), rule 5 the six-point monotone trend. The method
 * DetectPatterns runs the five sliding-window scans that grow the list of
 * violations and the set of keys already reported; the function Detect is
 * its specification, and the lemmas state what the output means.
 */
module Patterns {

  /** Which side of the center line, or which trend, a violation reports. */
  datatype Side = NoSide | Above | Below | Ascending | Descending

  /**
   * A reported violation: the rule number, the 0-based start of its window
   * and its side. Rule 1 carries no side; rules 2, 3 and 4 report Above or
   * Below; rule 5 reports Ascending or Descending. The record doubles as the
   * deduplication key (rule, window start, side).
   */
  datatype Violation = Violation(rule: nat, start: nat, side: Side)

  /** The control limits and the 1σ and 2σ zone boundaries, with σ = (UCL − CL)/3. */
  datatype Zones = Zones(
    ucl: real, lcl: real, cl: real,
    upper2: real, lower2: real, upper1: real, lower1: real)

  function ZonesOf(ucl: real, lcl: real, cl: real): (z: Zones)
    ensures z.ucl == ucl && z.lcl == lcl && z.cl == cl
    ensures var sigma := z.upper1 - cl;
      && ucl - z.upper2 == sigma && z.upper2 - z.upper1 == sigma
      && cl - z.lower1 == sigma && z.lower1 - z.lower2 == sigma
  {
    var sigma := (ucl - cl) / 3.0;
    Zones(ucl, lcl, cl, cl + 2.0 * sigma, cl - 2.0 * sigma, cl + sigma, cl - sigma)
  }

  // ---------------------------------------------------------------------
  // Window tests
  // ---------------------------------------------------------------------

  /** How many values of the window lie strictly above t. */
  function CountAbove(w: seq<real>, t: real): nat
  {
    if |w| == 0 then 0
    else CountAbove(w[..|w| - 1], t) + (if w[|w| - 1] > t then 1 else 0)
  }

  /** How many values of the window lie strictly below t. */
  function CountBelow(w: seq<real>, t: real): nat
  {
    if |w| == 0 then 0
    else CountBelow(w[..|w| - 1], t) + (if w[|w| - 1] < t then 1 else 0)
  }

  /** The positions of the window holding a value strictly above t. */
  ghost function PositionsAbove(w: seq<real>, t: real): set<nat>
  {
    set j: nat | j < |w| && w[j] > t
  }

  /** The positions of the window holding a value strictly below t. */
  ghost function PositionsBelow(w: seq<real>, t: real): set<nat>
  {
    set j: nat | j < |w| && w[j] < t
  }

  predicate AllAbove(w: seq<real>, t: real)
  {
    forall j :: 0 <= j < |w| ==> w[j] > t
  }

  predicate AllBelow(w: seq<real>, t: real)
  {
    forall j :: 0 <= j < |w| ==> w[j] < t
  }

  /** Every step of the window strictly increases. */
  predicate Rising(w: seq<real>)
  {
    forall j :: 0 <= j < |w| - 1 ==> w[j] < w[j + 1]
  }

  /** Every step of the window strictly decreases. */
  predicate Falling(w: seq<real>)
  {
    forall j :: 0 <= j < |w| - 1 ==> w[j] > w[j + 1]
  }

  /** CountAbove counts exactly the positions above the threshold. */
  lemma {:induction false} CountAboveIsCardinality(w: seq<real>, t: real)
    ensures CountAbove(w, t) == |PositionsAbove(w, t)|
  {
    if |w| > 0 {
      var p := w[..|w| - 1];
      CountAboveIsCardinality(p, t);
      var last: nat := |w| - 1;
      assert last !in PositionsAbove(p, t);
      assert forall j: nat :: j < |p| ==> p[j] == w[j];
      assert PositionsAbove(w, t) == PositionsAbove(p, t) + (if w[last] > t then {last} else {});
    }
  }

  /** CountBelow counts exactly the positions below the threshold. */
  lemma {:induction false} CountBelowIsCardinality(w: seq<real>, t: real)
    ensures CountBelow(w, t) == |PositionsBelow(w, t)|
  {
    if |w| > 0 {
      var p := w[..|w| - 1];
      CountBelowIsCardinality(p, t);
      var last: nat := |w| - 1;
      assert last !in PositionsBelow(p, t);
      assert forall j: nat :: j < |p| ==> p[j] == w[j];
      assert PositionsBelow(w, t) == PositionsBelow(p, t) + (if w[last] < t then {last} else {});
    }
  }

  // ---------------------------------------------------------------------
  // Specification of the scan
  // ---------------------------------------------------------------------

  predicate IsRule(rule: nat)
  {
    1 <= rule <= 5
  }

  /** Number of consecutive means each rule looks at. */
  function WindowSize(rule: nat): (size: nat)
    requires IsRule(rule)
    ensures size > 0
  {
    match rule
    case 1 => 1
    case 2 => 3
    case 3 => 5
    case 4 => 8
    case _ => 6
  }

  /** Number of windows of the given size over n means (range(n - size + 1), empty when negative). */
  function NumWindows(n: nat, size: nat): nat
  {
    if n >= size then n - size + 1 else 0
  }

  /** What one rule reports for the window that starts at i, in the order the source appends it. */
  function At(rule: nat, data: seq<real>, z: Zones, i: nat): seq<Violation>
    requires IsRule(rule) && i + WindowSize(rule) <= |data|
  {
    match rule
    case 1 =>
      if data[i] > z.ucl || data[i] < z.lcl then [Violation(1, i, NoSide)] else []
    case 2 =>
      var w := data[i..i + 3];
      (if CountAbove(w, z.upper2) >= 2 then [Violation(2, i, Above)] else [])
      + (if CountBelow(w, z.lower2) >= 2 then [Violation(2, i, Below)] else [])
    case 3 =>
      var w := data[i..i + 5];
      (if CountAbove(w, z.upper1) >= 4 then [Violation(3, i, Above)] else [])
      + (if CountBelow(w, z.lower1) >= 4 then [Violation(3, i, Below)] else [])
    case 4 =>
      var w := data[i..i + 8];
      if AllAbove(w, z.cl) then [Violation(4, i, Above)]
      else if AllBelow(w, z.cl) then [Violation(4, i, Below)]
      else []
    case _ =>
      var w := data[i..i + 6];
      if Rising(w) then [Violation(5, i, Ascending)]
      else if Falling(w) then [Violation(5, i, Descending)]
      else []
  }

  /** What one rule reports over its first m windows. */
  function Scan(rule: nat, data: seq<real>, z: Zones, m: nat): seq<Violation>
    requires IsRule(rule) && m <= NumWindows(|data|, WindowSize(rule))
  {
    if m == 0 then [] else Scan(rule, data, z, m - 1) + At(rule, data, z, m - 1)
  }

  /** All of one rule's windows. */
  function ScanAll(rule: nat, data: seq<real>, z: Zones): seq<Violation>
    requires IsRule(rule)
  {
    Scan(rule, data, z, NumWindows(|data|, WindowSize(rule)))
  }

  /** The violations the engine reports: rule 1's scan, then rule 2's, and so on up to rule 5. */
  function Detect(data: seq<real>, ucl: real, lcl: real, cl: real): seq<Violation>
  {
    var z := ZonesOf(ucl, lcl, cl);
    ScanAll(1, data, z) + ScanAll(2, data, z) + ScanAll(3, data, z)
    + ScanAll(4, data, z) + ScanAll(5, data, z)
  }

  // ---------------------------------------------------------------------
  // The engine
  // ---------------------------------------------------------------------

  /**
   * The five sliding-window scans, one rule after the other. Each violation
   * found is appended unless its key was already reported; the key set and
   * the list grow together.
   */
  method DetectPatterns(data: seq<real>, ucl: real, lcl: real, cl: real)
    returns (violations: seq<Violation>)
    ensures violations == Detect(data, ucl, lcl, cl)
    ensures forall i, j :: 0 <= i < j < |violations| ==> violations[i] != violations[j]
  {
    var z := ZonesOf(ucl, lcl, cl);
    var seen: set<Violation>;
    violations, seen := ScanBeyondLimits(data, z, [], {});
    violations, seen := ScanTwoOfThree(data, z, violations, seen);
    violations, seen := ScanFourOfFive(data, z, violations, seen);
    violations, seen := ScanEightOneSide(data, z, violations, seen);
    violations, seen := ScanSixTrend(data, z, violations, seen);
    DetectSorted(data, ucl, lcl, cl);
  }

  /**
   * Appends the key unless it was already reported; the key set mirrors the
   * list, so the membership test on the set is the test on the list.
   */
  method Report(violations: seq<Violation>, seen: set<Violation>, key: Violation)
    returns (violations': seq<Violation>, seen': set<Violation>)
    requires forall v :: v in seen <==> v in violations
    ensures key in violations ==> violations' == violations
    ensures key !in violations ==> violations' == violations + [key]
    ensures forall v :: v in seen' <==> v in violations'
  {
    violations', seen' := violations, seen;
    if key !in seen {
      violations' := violations' + [key];
      seen' := seen' + {key};
    }
  }

  /** Rule 1: one point strictly beyond UCL or LCL. */
  method ScanBeyondLimits(data: seq<real>, z: Zones, found: seq<Violation>, keys: set<Violation>)
    returns (violations: seq<Violation>, seen: set<Violation>)
    requires forall v :: v in keys <==> v in found
    requires found == []
    ensures violations == ScanAll(1, data, z)
    ensures forall v :: v in seen <==> v in violations
    ensures forall v :: v in violations ==> v.rule <= 1
  {
    var n := |data|;
    violations, seen := found, keys;
    var i := 0;
    while i < n
      invariant 0 <= i <= n
      invariant violations == Scan(1, data, z, i)
      invariant forall v :: v in seen <==> v in violations
    {
      FreshWindow(1, data, z, i, found);
      ghost var before := violations;
      if data[i] > z.ucl || data[i] < z.lcl {
        violations, seen := Report(violations, seen, Violation(1, i, NoSide));
      }
      assert violations == before + At(1, data, z, i);
      i := i + 1;
    }
    ScanComplete(1, data, z, i);
    ScanAllSorted(1, data, z);
  }

  /** Rule 2: two of three consecutive points beyond 2σ, each side checked on its own. */
  method ScanTwoOfThree(data: seq<real>, z: Zones, found: seq<Violation>, keys: set<Violation>)
    returns (violations: seq<Violation>, seen: set<Violation>)
    requires forall v :: v in keys <==> v in found
    requires forall v :: v in found ==> v.rule < 2
    ensures violations == found + ScanAll(2, data, z)
    ensures forall v :: v in seen <==> v in violations
    ensures forall v :: v in violations ==> v.rule <= 2
  {
    var n := |data|;
    violations, seen := found, keys;
    var i := 0;
    while i < n - 2
      invariant 0 <= i <= NumWindows(n, 3)
      invariant violations == found + Scan(2, data, z, i)
      invariant forall v :: v in seen <==> v in violations
    {
      FreshWindow(2, data, z, i, found);
      ghost var before := violations;
      violations, seen := TwoOfThreeWindow(data, z, i, violations, seen);
      ScanExtend(2, data, z, i, found, before);
      i := i + 1;
    }
    ScanComplete(2, data, z, i);
    ScanAllSorted(2, data, z);
  }

  /** Rule 2 on the window that starts at i: the Above test, then the Below test. */
  method TwoOfThreeWindow(data: seq<real>, z: Zones, i: nat, found: seq<Violation>, keys: set<Violation>)
    returns (violations: seq<Violation>, seen: set<Violation>)
    requires i + 3 <= |data|
    requires forall v :: v in keys <==> v in found
    requires forall side :: Violation(2, i, side) !in found
    ensures violations == found + At(2, data, z, i)
    ensures forall v :: v in seen <==> v in violations
  {
    violations, seen := found, keys;
    var window := data[i..i + 3];
    var above := CountAbove(window, z.upper2);
    var below := CountBelow(window, z.lower2);
    if above >= 2 {
      violations, seen := Report(violations, seen, Violation(2, i, Above));
    }
    assert violations == found + (if above >= 2 then [Violation(2, i, Above)] else []);
    if below >= 2 {
      violations, seen := Report(violations, seen, Violation(2, i, Below));
    }
  }

  /** Rule 3: four of five consecutive points beyond 1σ, each side checked on its own. */
  method ScanFourOfFive(data: seq<real>, z: Zones, found: seq<Violation>, keys: set<Violation>)
    returns (violations: seq<Violation>, seen: set<Violation>)
    requires forall v :: v in keys <==> v in found
    requires forall v :: v in found ==> v.rule < 3
    ensures violations == found + ScanAll(3, data, z)
    ensures forall v :: v in seen <==> v in violations
    ensures forall v :: v in violations ==> v.rule <= 3
  {
    var n := |data|;
    violations, seen := found, keys;
    var i := 0;
    while i < n - 4
      invariant 0 <= i <= NumWindows(n, 5)
      invariant violations == found + Scan(3, data, z, i)
      invariant forall v :: v in seen <==> v in violations
    {
      FreshWindow(3, data, z, i, found);
      ghost var before := violations;
      violations, seen := FourOfFiveWindow(data, z, i, violations, seen);
      ScanExtend(3, data, z, i, found, before);
      i := i + 1;
    }
    ScanComplete(3, data, z, i);
    ScanAllSorted(3, data, z);
  }

  /** Rule 3 on the window that starts at i: the Above test, then the Below test. */
  method FourOfFiveWindow(data: seq<real>, z: Zones, i: nat, found: seq<Violation>, keys: set<Violation>)
    returns (violations: seq<Violation>, seen: set<Violation>)
    requires i + 5 <= |data|
    requires forall v :: v in keys <==> v in found
    requires forall side :: Violation(3, i, side) !in found
    ensures violations == found + At(3, data, z, i)
    ensures forall v :: v in seen <==> v in violations
  {
    violations, seen := found, keys;
    var window := data[i..i + 5];
    var above := CountAbove(window, z.upper1);
    var below := CountBelow(window, z.lower1);
    if above >= 4 {
      violations, seen := Report(violations, seen, Violation(3, i, Above));
    }
    assert violations == found + (if above >= 4 then [Violation(3, i, Above)] else []);
    if below >= 4 {
      violations, seen := Report(violations, seen, Violation(3, i, Below));
    }
  }

  /** Rule 4: eight consecutive points strictly above, or else strictly below, the center line. */
  method ScanEightOneSide(data: seq<real>, z: Zones, found: seq<Violation>, keys: set<Violation>)
    returns (violations: seq<Violation>, seen: set<Violation>)
    requires forall v :: v in keys <==> v in found
    requires forall v :: v in found ==> v.rule < 4
    ensures violations == found + ScanAll(4, data, z)
    ensures forall v :: v in seen <==> v in violations
    ensures forall v :: v in violations ==> v.rule <= 4
  {
    var n := |data|;
    violations, seen := found, keys;
    var i := 0;
    while i < n - 7
      invariant 0 <= i <= NumWindows(n, 8)
      invariant violations == found + Scan(4, data, z, i)
      invariant forall v :: v in seen <==> v in violations
    {
      FreshWindow(4, data, z, i, found);
      ghost var before := violations;
      violations, seen := EightOneSideWindow(data, z, i, violations, seen);
      ScanExtend(4, data, z, i, found, before);
      i := i + 1;
    }
    ScanComplete(4, data, z, i);
    ScanAllSorted(4, data, z);
  }

  /** Rule 4 on the window that starts at i: Above, or else Below. */
  method EightOneSideWindow(data: seq<real>, z: Zones, i: nat, found: seq<Violation>, keys: set<Violation>)
    returns (violations: seq<Violation>, seen: set<Violation>)
    requires i + 8 <= |data|
    requires forall v :: v in keys <==> v in found
    requires forall side :: Violation(4, i, side) !in found
    ensures violations == found + At(4, data, z, i)
    ensures forall v :: v in seen <==> v in violations
  {
    violations, seen := found, keys;
    var window := data[i..i + 8];
    if AllAbove(window, z.cl) {
      violations, seen := Report(violations, seen, Violation(4, i, Above));
    } else if AllBelow(window, z.cl) {
      violations, seen := Report(violations, seen, Violation(4, i, Below));
    }
  }

  /** Rule 5: six consecutive points rising at every step, or else falling at every step. */
  method ScanSixTrend(data: seq<real>, z: Zones, found: seq<Violation>, keys: set<Violation>)
    returns (violations: seq<Violation>, seen: set<Violation>)
    requires forall v :: v in keys <==> v in found
    requires forall v :: v in found ==> v.rule < 5
    ensures violations == found + ScanAll(5, data, z)
    ensures forall v :: v in seen <==> v in violations
    ensures forall v :: v in violations ==> v.rule <= 5
  {
    var n := |data|;
    violations, seen := found, keys;
    var i := 0;
    while i < n - 5
      invariant 0 <= i <= NumWindows(n, 6)
      invariant violations == found + Scan(5, data, z, i)
      invariant forall v :: v in seen <==> v in violations
    {
      FreshWindow(5, data, z, i, found);
      ghost var before := violations;
      violations, seen := SixTrendWindow(data, z, i, violations, seen);
      ScanExtend(5, data, z, i, found, before);
      i := i + 1;
    }
    ScanComplete(5, data, z, i);
    ScanAllSorted(5, data, z);
  }

  // ---------------------------------------------------------------------
  // Shape of the output
  // ---------------------------------------------------------------------

  /** Rule 5 on the window that starts at i: Ascending, or else Descending. */
  method SixTrendWindow(data: seq<real>, z: Zones, i: nat, found: seq<Violation>, keys: set<Violation>)
    returns (violations: seq<Violation>, seen: set<Violation>)
    requires i + 6 <= |data|
    requires forall v :: v in keys <==> v in found
    requires forall side :: Violation(5, i, side) !in found
    ensures violations == found + At(5, data, z, i)
    ensures forall v :: v in seen <==> v in violations
  {
    violations, seen := found, keys;
    var window := data[i..i + 6];
    if Rising(window) {
      violations, seen := Report(violations, seen, Violation(5, i, Ascending));
    } else if Falling(window) {
      violations, seen := Report(violations, seen, Violation(5, i, Descending));
    }
  }

  /** Everything a rule reports for window i carries that rule and start i. */
  lemma AtShape(rule: nat, data: seq<real>, z: Zones, i: nat, v: Violation)
    requires IsRule(rule) && i + WindowSize(rule) <= |data|
    requires v in At(rule, data, z, i)
    ensures v.rule == rule && v.start == i
  {
  }

  /** The sides each rule can report: none for rule 1, Above/Below for rules 2 to 4, Ascending/Descending for rule 5. */
  lemma AtSides(rule: nat, data: seq<real>, z: Zones, i: nat, v: Violation)
    requires IsRule(rule) && i + WindowSize(rule) <= |data|
    requires v in At(rule, data, z, i)
    ensures rule == 1 ==> v.side == NoSide
    ensures 2 <= rule <= 4 ==> v.side == Above || v.side == Below
    ensures rule == 5 ==> v.side == Ascending || v.side == Descending
  {
  }

  /** One window's reports are in side order: Above before Below. */
  lemma AtSorted(rule: nat, data: seq<real>, z: Zones, i: nat)
    requires IsRule(rule) && i + WindowSize(rule) <= |data|
    ensures Sorted(At(rule, data, z, i))
    ensures forall v :: v in At(rule, data, z, i) ==> v.rule == rule && v.start == i
  {
  }

  /** Appending the reports of a later window of the same rule keeps the order. */
  lemma SortedAppendWindow(a: seq<Violation>, b: seq<Violation>, rule: nat, k: nat)
    requires Sorted(a) && Sorted(b)
    requires forall x :: x in a ==> x.rule == rule && x.start < k
    requires forall y :: y in b ==> y.rule == rule && y.start == k
    ensures Sorted(a + b)
  {
    SortedConcat(a, b);
  }

  /** Everything a rule reports over its first m windows carries that rule and a start below m. */
  lemma {:induction false} ScanShape(rule: nat, data: seq<real>, z: Zones, m: nat, v: Violation)
    requires IsRule(rule) && m <= NumWindows(|data|, WindowSize(rule))
    requires v in Scan(rule, data, z, m)
    ensures v.rule == rule && v.start < m
  {
    if m > 0 {
      if v in Scan(rule, data, z, m - 1) {
        ScanShape(rule, data, z, m - 1, v);
      } else {
        AtShape(rule, data, z, m - 1, v);
      }
    }
  }

  /** No key of window i was reported before it, neither by an earlier rule nor by an earlier window of the same rule. */
  lemma FreshWindow(rule: nat, data: seq<real>, z: Zones, i: nat, found: seq<Violation>)
    requires IsRule(rule) && i <= NumWindows(|data|, WindowSize(rule))
    requires forall v :: v in found ==> v.rule < rule
    ensures forall side :: Violation(rule, i, side) !in found + Scan(rule, data, z, i)
  {
    forall side ensures Violation(rule, i, side) !in found + Scan(rule, data, z, i) {
      if Violation(rule, i, side) in Scan(rule, data, z, i) {
        ScanShape(rule, data, z, i, Violation(rule, i, side));
      }
    }
  }

  /** Appending window i's reports extends the scan of the first i windows by one window. */
  lemma ScanExtend(rule: nat, data: seq<real>, z: Zones, i: nat, done: seq<Violation>, before: seq<Violation>)
    requires IsRule(rule) && i < NumWindows(|data|, WindowSize(rule))
    requires before == done + Scan(rule, data, z, i)
    ensures before + At(rule, data, z, i) == done + Scan(rule, data, z, i + 1)
  {
  }

  /** Once rule r has scanned all its windows, its scan is complete. */
  lemma ScanComplete(rule: nat, data: seq<real>, z: Zones, i: int)
    requires IsRule(rule) && i >= 0
    requires i >= |data| - WindowSize(rule) + 1 && i <= NumWindows(|data|, WindowSize(rule))
    ensures i == NumWindows(|data|, WindowSize(rule))
    ensures Scan(rule, data, z, i) == ScanAll(rule, data, z)
  {
  }

  /** A violation is reported by the scan exactly when its own window reports it. */
  lemma {:induction false} ScanMember(rule: nat, data: seq<real>, z: Zones, m: nat, v: Violation)
    requires IsRule(rule) && m <= NumWindows(|data|, WindowSize(rule))
    ensures v in Scan(rule, data, z, m) <==>
      v.rule == rule && v.start < m && v in At(rule, data, z, v.start)
  {
    if m > 0 {
      ScanMember(rule, data, z, m - 1, v);
      if v in At(rule, data, z, m - 1) {
        AtShape(rule, data, z, m - 1, v);
      }
    }
  }

  /** A violation is in the output exactly when its rule's window at its start reports it. */
  lemma DetectMember(data: seq<real>, ucl: real, lcl: real, cl: real, v: Violation)
    ensures v in Detect(data, ucl, lcl, cl) <==>
      && IsRule(v.rule)
      && v.start + WindowSize(v.rule) <= |data|
      && v in At(v.rule, data, ZonesOf(ucl, lcl, cl), v.start)
  {
    var z := ZonesOf(ucl, lcl, cl);
    DetectGroups(data, ucl, lcl, cl);
    ConcatMember(Groups(data, z), v);
    if IsRule(v.rule) {
      ScanMember(v.rule, data, z, NumWindows(|data|, WindowSize(v.rule)), v);
    }
  }

  // ---------------------------------------------------------------------
  // The output as the rules' scans laid end to end
  // ---------------------------------------------------------------------

  /** Groups laid end to end, first group first. */
  function Concat(g: seq<seq<Violation>>): (r: seq<Violation>)
  {
    if |g| == 0 then [] else Concat(g[..|g| - 1]) + g[|g| - 1]
  }

  /** Group k holds only violations of rule k + 1. */
  predicate RuleGrouped(g: seq<seq<Violation>>)
  {
    forall k, v :: 0 <= k < |g| && v in g[k] ==> v.rule == k + 1
  }

  lemma GroupedPrefix(g: seq<seq<Violation>>)
    requires |g| > 0 && RuleGrouped(g)
    ensures RuleGrouped(g[..|g| - 1])
  {
    var p := g[..|g| - 1];
    forall k, v: Violation | 0 <= k < |p| && v in p[k] ensures v.rule == k + 1 {
      assert p[k] == g[k];
    }
  }

  /** A violation is in the concatenation exactly when it is in the group of its own rule. */
  lemma {:induction false} ConcatMember(g: seq<seq<Violation>>, v: Violation)
    requires RuleGrouped(g)
    ensures v in Concat(g) <==> 1 <= v.rule <= |g| && v in g[v.rule - 1]
  {
    if |g| > 0 {
      var p := g[..|g| - 1];
      GroupedPrefix(g);
      ConcatMember(p, v);
      if 1 <= v.rule <= |p| {
        assert p[v.rule - 1] == g[v.rule - 1];
      }
    }
  }

  /** Sorted groups of ascending rules concatenate to a sorted sequence. */
  lemma {:induction false} ConcatSorted(g: seq<seq<Violation>>)
    requires RuleGrouped(g)
    requires forall k :: 0 <= k < |g| ==> Sorted(g[k])
    ensures Sorted(Concat(g))
  {
    if |g| > 0 {
      var p := g[..|g| - 1];
      GroupedPrefix(g);
      assert forall k :: 0 <= k < |p| ==> p[k] == g[k];
      ConcatSorted(p);
      var a, b := Concat(p), g[|g| - 1];
      forall x, y | x in a && y in b
        ensures Precedes(x, y)
      {
        ConcatMember(p, x);
      }
      SortedConcat(a, b);
    }
  }

  /** The scans of rules 1 to 5, in rule order. */
  function Groups(data: seq<real>, z: Zones): (g: seq<seq<Violation>>)
  {
    seq(5, k requires 0 <= k < 5 => ScanAll(k + 1, data, z))
  }

  /** Five groups laid end to end, in order. */
  lemma ConcatFive(g: seq<seq<Violation>>)
    requires |g| == 5
    ensures Concat(g) == g[0] + g[1] + g[2] + g[3] + g[4]
  {
    assert g[..1][..0] == [];
    assert Concat(g[..1]) == g[0];
    assert g[..2][..1] == g[..1];
    assert Concat(g[..2]) == g[0] + g[1];
    assert g[..3][..2] == g[..2];
    assert Concat(g[..3]) == g[0] + g[1] + g[2];
    assert g[..4][..3] == g[..3];
    assert Concat(g[..4]) == g[0] + g[1] + g[2] + g[3];
  }

  /** Each rule's scan is sorted and holds only that rule. */
  lemma GroupsShape(data: seq<real>, z: Zones)
    ensures RuleGrouped(Groups(data, z))
    ensures forall k :: 0 <= k < 5 ==> Sorted(Groups(data, z)[k])
  {
    var g := Groups(data, z);
    forall k | 0 <= k < 5
      ensures Sorted(g[k]) && forall v: Violation :: v in g[k] ==> v.rule == k + 1
    {
      ScanAllSorted(k + 1, data, z);
    }
  }

  /** The output is the five scans laid end to end; each scan is sorted and holds only its own rule. */
  lemma DetectGroups(data: seq<real>, ucl: real, lcl: real, cl: real)
    ensures Detect(data, ucl, lcl, cl) == Concat(Groups(data, ZonesOf(ucl, lcl, cl)))
    ensures RuleGrouped(Groups(data, ZonesOf(ucl, lcl, cl)))
    ensures forall k :: 0 <= k < 5 ==> Sorted(Groups(data, ZonesOf(ucl, lcl, cl))[k])
  {
    var z := ZonesOf(ucl, lcl, cl);
    ConcatFive(Groups(data, z));
    GroupsShape(data, z);
  }

  /** Order of the output: by rule, then by window start, then Above/Ascending before Below/Descending. */
  function SideRank(s: Side): nat
  {
    match s
    case Below => 1
    case Descending => 1
    case _ => 0
  }

  predicate Precedes(v: Violation, w: Violation)
  {
    || v.rule < w.rule
    || (v.rule == w.rule && v.start < w.start)
    || (v.rule == w.rule && v.start == w.start && SideRank(v.side) < SideRank(w.side))
  }

  predicate Sorted(s: seq<Violation>)
  {
    forall i, j :: 0 <= i < j < |s| ==> Precedes(s[i], s[j])
  }

  lemma SortedConcat(a: seq<Violation>, b: seq<Violation>)
    requires Sorted(a) && Sorted(b)
    requires forall x, y :: x in a && y in b ==> Precedes(x, y)
    ensures Sorted(a + b)
  {
    forall i, j | 0 <= i < j < |a + b|
      ensures Precedes((a + b)[i], (a + b)[j])
    {
      if j < |a| {
      } else if i >= |a| {
        assert (a + b)[i] == b[i - |a|];
      } else {
        assert (a + b)[i] in a && (a + b)[j] in b;
      }
    }
  }

  /** Each rule's scan lists its windows in ascending start order. */
  lemma {:induction false} ScanSorted(rule: nat, data: seq<real>, z: Zones, m: nat)
    requires IsRule(rule) && m <= NumWindows(|data|, WindowSize(rule))
    ensures Sorted(Scan(rule, data, z, m))
  {
    if m > 0 {
      ScanSorted(rule, data, z, m - 1);
      var a := Scan(rule, data, z, m - 1);
      var b := At(rule, data, z, m - 1);
      forall x | x in a ensures x.rule == rule && x.start < m - 1 {
        ScanShape(rule, data, z, m - 1, x);
      }
      AtSorted(rule, data, z, m - 1);
      SortedAppendWindow(a, b, rule, m - 1);
    }
  }

  lemma ScanAllSorted(rule: nat, data: seq<real>, z: Zones)
    requires IsRule(rule)
    ensures Sorted(ScanAll(rule, data, z))
    ensures forall v :: v in ScanAll(rule, data, z) ==> v.rule == rule
  {
    var m := NumWindows(|data|, WindowSize(rule));
    ScanSorted(rule, data, z, m);
    forall v | v in ScanAll(rule, data, z) ensures v.rule == rule {
      ScanShape(rule, data, z, m, v);
    }
  }

  /**
   * The output is grouped by rule number ascending and, within a rule, by
   * window start ascending; so no key appears twice.
   */
  lemma DetectSorted(data: seq<real>, ucl: real, lcl: real, cl: real)
    ensures Sorted(Detect(data, ucl, lcl, cl))
    ensures forall i, j :: 0 <= i < j < |Detect(data, ucl, lcl, cl)| ==>
      Detect(data, ucl, lcl, cl)[i] != Detect(data, ucl, lcl, cl)[j]
  {
    DetectGroups(data, ucl, lcl, cl);
    ConcatSorted(Groups(data, ZonesOf(ucl, lcl, cl)));
  }

  /** Elements of a sequence, as a set. */
  ghost function Elements(s: seq<Violation>): set<Violation>
  {
    set v | v in s
  }

  lemma {:induction false} DistinctCardinality(s: seq<Violation>)
    requires forall i, j :: 0 <= i < j < |s| ==> s[i] != s[j]
    ensures |Elements(s)| == |s|
  {
    if |s| > 0 {
      var p := s[..|s| - 1];
      DistinctCardinality(p);
      assert Elements(s) == Elements(p) + {s[|s| - 1]};
      assert s[|s| - 1] !in Elements(p);
    }
  }

  /**
   * The key set never suppresses anything: the number of distinct keys
   * equals the number of violations reported.
   */
  lemma KeysMatchViolations(data: seq<real>, ucl: real, lcl: real, cl: real)
    ensures |Elements(Detect(data, ucl, lcl, cl))| == |Detect(data, ucl, lcl, cl)|
  {
    DetectSorted(data, ucl, lcl, cl);
    DistinctCardinality(Detect(data, ucl, lcl, cl));
  }
}

module PatternFacts {
  import opened Patterns

  /**
   * Every reported violation sits on a complete window of its rule and
   * carries the side its rule can report: none for rule 1, Above or Below
   * for rules 2 to 4, Ascending or Descending for rule 5. So rule 2 has no
   * window unless there are at least 3 means, rule 3 at least 5, rule 4 at
   * least 8 and rule 5 at least 6.
   */
  lemma ReportedShape(data: seq<real>, ucl: real, lcl: real, cl: real, v: Violation)
    requires v in Detect(data, ucl, lcl, cl)
    ensures IsRule(v.rule) && v.start + WindowSize(v.rule) <= |data|
    ensures v.rule == 1 ==> v.side == NoSide
    ensures 2 <= v.rule <= 4 ==> v.side == Above || v.side == Below
    ensures v.rule == 5 ==> v.side == Ascending || v.side == Descending
  {
    DetectMember(data, ucl, lcl, cl, v);
    AtSides(v.rule, data, ZonesOf(ucl, lcl, cl), v.start, v);
  }

  /** Rule 1 reports mean i exactly when it lies strictly above UCL or strictly below LCL. */
  lemma BeyondLimitsFires(data: seq<real>, ucl: real, lcl: real, cl: real, i: nat)
    ensures Violation(1, i, NoSide) in Detect(data, ucl, lcl, cl) <==>
      i < |data| && (data[i] > ucl || data[i] < lcl)
  {
    DetectMember(data, ucl, lcl, cl, Violation(1, i, NoSide));
  }

  /** A mean equal to UCL or to LCL is never reported by rule 1. */
  lemma OnLimitDoesNotFire(data: seq<real>, ucl: real, lcl: real, cl: real, i: nat)
    requires i < |data| && lcl <= ucl && (data[i] == ucl || data[i] == lcl)
    ensures Violation(1, i, NoSide) !in Detect(data, ucl, lcl, cl)
  {
    BeyondLimitsFires(data, ucl, lcl, cl, i);
  }

  /**
   * Window i of rule 2 reports Above exactly when at least two of its three
   * means exceed CL + 2σ, and Below exactly when at least two fall below
   * CL − 2σ, with σ = (UCL − CL)/3; the two sides are decided independently.
   */
  lemma TwoOfThreeFires(data: seq<real>, ucl: real, lcl: real, cl: real, i: nat)
    ensures Violation(2, i, Above) in Detect(data, ucl, lcl, cl) <==>
      i + 3 <= |data| && |PositionsAbove(data[i..i + 3], cl + 2.0 * ((ucl - cl) / 3.0))| >= 2
    ensures Violation(2, i, Below) in Detect(data, ucl, lcl, cl) <==>
      i + 3 <= |data| && |PositionsBelow(data[i..i + 3], cl - 2.0 * ((ucl - cl) / 3.0))| >= 2
  {
    var z := ZonesOf(ucl, lcl, cl);
    assert z.upper2 == cl + 2.0 * ((ucl - cl) / 3.0) && z.lower2 == cl - 2.0 * ((ucl - cl) / 3.0);
    DetectMember(data, ucl, lcl, cl, Violation(2, i, Above));
    DetectMember(data, ucl, lcl, cl, Violation(2, i, Below));
    if i + 3 <= |data| {
      TwoOfThreeAt(data, z, i);
    }
  }

  lemma TwoOfThreeAt(data: seq<real>, z: Zones, i: nat)
    requires i + 3 <= |data|
    ensures Violation(2, i, Above) in At(2, data, z, i) <==> |PositionsAbove(data[i..i + 3], z.upper2)| >= 2
    ensures Violation(2, i, Below) in At(2, data, z, i) <==> |PositionsBelow(data[i..i + 3], z.lower2)| >= 2
  {
    CountAboveIsCardinality(data[i..i + 3], z.upper2);
    CountBelowIsCardinality(data[i..i + 3], z.lower2);
  }

  /**
   * Window i of rule 3 reports Above exactly when at least four of its five
   * means exceed CL + σ, and Below exactly when at least four fall below CL − σ.
   */
  lemma FourOfFiveFires(data: seq<real>, ucl: real, lcl: real, cl: real, i: nat)
    ensures Violation(3, i, Above) in Detect(data, ucl, lcl, cl) <==>
      i + 5 <= |data| && |PositionsAbove(data[i..i + 5], cl + (ucl - cl) / 3.0)| >= 4
    ensures Violation(3, i, Below) in Detect(data, ucl, lcl, cl) <==>
      i + 5 <= |data| && |PositionsBelow(data[i..i + 5], cl - (ucl - cl) / 3.0)| >= 4
  {
    var z := ZonesOf(ucl, lcl, cl);
    assert z.upper1 == cl + (ucl - cl) / 3.0 && z.lower1 == cl - (ucl - cl) / 3.0;
    DetectMember(data, ucl, lcl, cl, Violation(3, i, Above));
    DetectMember(data, ucl, lcl, cl, Violation(3, i, Below));
    if i + 5 <= |data| {
      FourOfFiveAt(data, z, i);
    }
  }

  lemma FourOfFiveAt(data: seq<real>, z: Zones, i: nat)
    requires i + 5 <= |data|
    ensures Violation(3, i, Above) in At(3, data, z, i) <==> |PositionsAbove(data[i..i + 5], z.upper1)| >= 4
    ensures Violation(3, i, Below) in At(3, data, z, i) <==> |PositionsBelow(data[i..i + 5], z.lower1)| >= 4
  {
    CountAboveIsCardinality(data[i..i + 5], z.upper1);
    CountBelowIsCardinality(data[i..i + 5], z.lower1);
  }

  /**
   * Window i of rule 4 reports Above exactly when all eight of its means are
   * strictly above CL, and Below exactly when all eight are strictly below.
   */
  lemma EightOneSideFires(data: seq<real>, ucl: real, lcl: real, cl: real, i: nat)
    ensures Violation(4, i, Above) in Detect(data, ucl, lcl, cl) <==>
      i + 8 <= |data| && forall j :: i <= j < i + 8 ==> data[j] > cl
    ensures Violation(4, i, Below) in Detect(data, ucl, lcl, cl) <==>
      i + 8 <= |data| && forall j :: i <= j < i + 8 ==> data[j] < cl
  {
    DetectMember(data, ucl, lcl, cl, Violation(4, i, Above));
    DetectMember(data, ucl, lcl, cl, Violation(4, i, Below));
    if i + 8 <= |data| {
      OneSideWindow(data, i, cl);
    }
  }

  lemma OneSideWindow(data: seq<real>, i: nat, t: real)
    requires i + 8 <= |data|
    ensures AllAbove(data[i..i + 8], t) <==> forall j :: i <= j < i + 8 ==> data[j] > t
    ensures AllBelow(data[i..i + 8], t) <==> forall j :: i <= j < i + 8 ==> data[j] < t
    ensures AllAbove(data[i..i + 8], t) ==> !AllBelow(data[i..i + 8], t)
  {
    var w := data[i..i + 8];
    assert forall k :: 0 <= k < 8 ==> w[k] == data[i + k];
    assert forall j :: i <= j < i + 8 ==> data[j] == w[j - i];
    assert AllAbove(w, t) ==> w[0] > t;
    assert AllBelow(w, t) ==> w[0] < t;
  }

  /** A window holding a mean equal to CL is never reported by rule 4, on either side. */
  lemma CenterValueBlocksEightOneSide(data: seq<real>, ucl: real, lcl: real, cl: real, i: nat, j: nat)
    requires i <= j < i + 8 <= |data| && data[j] == cl
    ensures Violation(4, i, Above) !in Detect(data, ucl, lcl, cl)
    ensures Violation(4, i, Below) !in Detect(data, ucl, lcl, cl)
  {
    EightOneSideFires(data, ucl, lcl, cl, i);
  }

  lemma RisingWindow(data: seq<real>, i: nat)
    requires i + 6 <= |data|
    ensures Rising(data[i..i + 6]) <==> forall j :: i <= j < i + 5 ==> data[j] < data[j + 1]
  {
    var w := data[i..i + 6];
    assert forall k :: 0 <= k < 6 ==> w[k] == data[i + k];
    if Rising(w) {
      forall j | i <= j < i + 5 ensures data[j] < data[j + 1] {
        assert w[j - i] < w[j - i + 1];
      }
    }
  }

  lemma FallingWindow(data: seq<real>, i: nat)
    requires i + 6 <= |data|
    ensures Falling(data[i..i + 6]) <==> forall j :: i <= j < i + 5 ==> data[j] > data[j + 1]
    ensures Falling(data[i..i + 6]) ==> !Rising(data[i..i + 6])
  {
    var w := data[i..i + 6];
    assert forall k :: 0 <= k < 6 ==> w[k] == data[i + k];
    if Falling(w) {
      forall j | i <= j < i + 5 ensures data[j] > data[j + 1] {
        assert w[j - i] > w[j - i + 1];
      }
    }
    assert Falling(w) ==> w[0] > w[1];
    assert Rising(w) ==> w[0] < w[1];
  }

  /**
   * Window i of rule 5 reports Ascending exactly when each of its five steps
   * strictly increases, and Descending exactly when each strictly decreases.
   */
  lemma SixTrendFires(data: seq<real>, ucl: real, lcl: real, cl: real, i: nat)
    ensures Violation(5, i, Ascending) in Detect(data, ucl, lcl, cl) <==>
      i + 6 <= |data| && forall j :: i <= j < i + 5 ==> data[j] < data[j + 1]
    ensures Violation(5, i, Descending) in Detect(data, ucl, lcl, cl) <==>
      i + 6 <= |data| && forall j :: i <= j < i + 5 ==> data[j] > data[j + 1]
  {
    DetectMember(data, ucl, lcl, cl, Violation(5, i, Ascending));
    DetectMember(data, ucl, lcl, cl, Violation(5, i, Descending));
    if i + 6 <= |data| {
      RisingWindow(data, i);
      FallingWindow(data, i);
    }
  }

  /** Rules 4 and 5 report at most one violation per window. */
  lemma OnePerWindow(data: seq<real>, ucl: real, lcl: real, cl: real, i: nat)
    ensures !(Violation(4, i, Above) in Detect(data, ucl, lcl, cl)
              && Violation(4, i, Below) in Detect(data, ucl, lcl, cl))
    ensures !(Violation(5, i, Ascending) in Detect(data, ucl, lcl, cl)
              && Violation(5, i, Descending) in Detect(data, ucl, lcl, cl))
  {
    var d := Detect(data, ucl, lcl, cl);
    EightOneSideFires(data, ucl, lcl, cl, i);
    SixTrendFires(data, ucl, lcl, cl, i);
    assert Violation(4, i, Above) in d ==> data[i] > cl;
    assert Violation(4, i, Below) in d ==> data[i] < cl;
    assert Violation(5, i, Ascending) in d ==> data[i] < data[i + 1];
    assert Violation(5, i, Descending) in d ==> data[i] > data[i + 1];
  }

  /** The most one window of a rule can report: two for rules 2 and 3, one otherwise. */
  function PerWindow(rule: nat): nat
  {
    if rule == 2 || rule == 3 then 2 else 1
  }

  lemma AtLength(rule: nat, data: seq<real>, z: Zones, i: nat)
    requires IsRule(rule) && i + WindowSize(rule) <= |data|
    ensures |At(rule, data, z, i)| <= PerWindow(rule)
  {
  }

  lemma {:induction false} ScanLength(rule: nat, data: seq<real>, z: Zones, m: nat)
    requires IsRule(rule) && m <= NumWindows(|data|, WindowSize(rule))
    ensures |Scan(rule, data, z, m)| <= if PerWindow(rule) == 2 then m + m else m
  {
    if m > 0 {
      ScanLength(rule, data, z, m - 1);
      AtLength(rule, data, z, m - 1);
    }
  }

  /**
   * The output holds at most one violation per window and side: n for rule
   * 1, two per window for rules 2 and 3, one per window for rules 4 and 5.
   */
  lemma DetectLength(data: seq<real>, ucl: real, lcl: real, cl: real)
    ensures var n := |data|;
      |Detect(data, ucl, lcl, cl)| <=
        n + 2 * NumWindows(n, 3) + 2 * NumWindows(n, 5) + NumWindows(n, 8) + NumWindows(n, 6)
    ensures var n := |data|;
      n >= 8 ==> |Detect(data, ucl, lcl, cl)| <= n + 2 * (n - 2) + 2 * (n - 4) + (n - 7) + (n - 5)
  {
    var z := ZonesOf(ucl, lcl, cl);
    var n := |data|;
    ScanLength(1, data, z, NumWindows(n, 1));
    ScanLength(2, data, z, NumWindows(n, 3));
    ScanLength(3, data, z, NumWindows(n, 5));
    ScanLength(4, data, z, NumWindows(n, 8));
    ScanLength(5, data, z, NumWindows(n, 6));
    var s1, s2, s3 := ScanAll(1, data, z), ScanAll(2, data, z), ScanAll(3, data, z);
    var s4, s5 := ScanAll(4, data, z), ScanAll(5, data, z);
    assert Detect(data, ucl, lcl, cl) == s1 + s2 + s3 + s4 + s5;
    assert |s1 + s2 + s3 + s4 + s5| == |s1| + |s2| + |s3| + |s4| + |s5|;
    assert |s1| <= NumWindows(n, 1) == n;
    assert |s2| <= 2 * NumWindows(n, 3);
    assert |s3| <= 2 * NumWindows(n, 5);
    assert |s4| <= NumWindows(n, 8);
    assert |s5| <= NumWindows(n, 6);
  }
}

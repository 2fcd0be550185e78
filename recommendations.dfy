/**
 * The list of recommendations shown under the charts, assembled from the
 * number of out-of-control points, the pattern violations and the
 * capability analysis.
 */
module Recommendations {
  import opened Patterns
  import opened Capability

  /** One recommendation; the source shows each as a fixed message. */
  datatype Advice =
    // out-of-control points
    | InvestigateSpecialCauses | CheckCalibration | ReviewOperatorsAndMethods
    | InspectRawMaterial | AssessEnvironment
    // one item per Western Electric rule that fired (1 to 5)
    | FollowUpRule(rule: nat)
    // capability with specification limits
    | UrgentAction | ReduceVariationOrWidenSpecs | ContinuousImprovement
    | ReviewConsistency | AdjustTowardsNominal
    // nothing to report
    | StableUnderControl | KeepMonitoring | DocumentConditions | PeriodicAudits

  const OutOfControlAdvice: seq<Advice> :=
    [InvestigateSpecialCauses, CheckCalibration, ReviewOperatorsAndMethods, InspectRawMaterial, AssessEnvironment]

  const StableAdvice: seq<Advice> :=
    [StableUnderControl, KeepMonitoring, DocumentConditions, PeriodicAudits]

  /**
   * Whether some violation belongs to rule k. Every message of rule k starts
   * with "Regla k:" and k is a single digit, so the source's substring test
   * is equivalent to comparing rule numbers.
   */
  predicate Mentions(violations: seq<Violation>, k: nat)
  {
    exists i :: 0 <= i < |violations| && violations[i].rule == k
  }

  function Abs(x: real): (r: real)
    ensures r >= 0.0 && (r == x || r == -x)
  {
    if x < 0.0 then -x else x
  }

  /** tiene_limites: a capability result computed against specification limits. */
  predicate HasSpecLimits(cap: Option<Capability>)
  {
    cap.Some? && cap.value.WithSpecLimits?
  }

  /** Whether anything calls for an action, i.e. whether the "stable process" items are left out. */
  predicate CallsForAction(numOutOfControl: nat, violations: seq<Violation>, cap: Option<Capability>)
  {
    || numOutOfControl > 0
    || (exists k :: 1 <= k <= 5 && Mentions(violations, k))
    || (HasSpecLimits(cap) &&
         (cap.value.cpk < 1.33 || cap.value.ppk < cap.value.cpk || Abs(cap.value.cpu - cap.value.cpl) > 0.2))
  }

  predicate Distinct(items: seq<Advice>)
  {
    forall i, j :: 0 <= i < j < |items| ==> items[i] != items[j]
  }

  predicate IsStableAdvice(a: Advice)
  {
    a.StableUnderControl? || a.KeepMonitoring? || a.DocumentConditions? || a.PeriodicAudits?
  }

  predicate IsCapabilityAdvice(a: Advice)
  {
    a.UrgentAction? || a.ReduceVariationOrWidenSpecs? || a.ContinuousImprovement?
    || a.ReviewConsistency? || a.AdjustTowardsNominal?
  }

  // ---------------------------------------------------------------------
  // Specification: the list as a function of the three inputs
  // ---------------------------------------------------------------------

  function OutOfControlItems(numOutOfControl: nat): seq<Advice>
  {
    if numOutOfControl > 0 then OutOfControlAdvice else []
  }

  /** items with rule k's item appended when some violation belongs to rule k. */
  function WithRule(items: seq<Advice>, violations: seq<Violation>, k: nat): seq<Advice>
  {
    if Mentions(violations, k) then items + [FollowUpRule(k)] else items
  }

  /** The per-rule items, tested for rules 1 to 5 in order when there is any violation at all. */
  function RuleItems(violations: seq<Violation>): seq<Advice>
  {
    if |violations| == 0 then []
    else
      var r1 := WithRule([], violations, 1);
      var r2 := WithRule(r1, violations, 2);
      var r3 := WithRule(r2, violations, 3);
      var r4 := WithRule(r3, violations, 4);
      WithRule(r4, violations, 5)
  }

  /** The Cpk level items: two urgent items below 1.0, one improvement item from 1.0 up to 1.33. */
  function LevelItems(cpk: real): seq<Advice>
  {
    if cpk < 1.0 then [UrgentAction, ReduceVariationOrWidenSpecs]
    else if cpk < 1.33 then [ContinuousImprovement]
    else []
  }

  function ConsistencyItems(c: Capability): seq<Advice>
    requires c.WithSpecLimits?
  {
    if c.ppk < c.cpk then [ReviewConsistency] else []
  }

  function CenteringItems(c: Capability): seq<Advice>
    requires c.WithSpecLimits?
  {
    if Abs(c.cpu - c.cpl) > 0.2 then [AdjustTowardsNominal] else []
  }

  /** The capability items: only for a result computed against specification limits. */
  function CapabilityItems(cap: Option<Capability>): seq<Advice>
  {
    if !HasSpecLimits(cap) then []
    else LevelItems(cap.value.cpk) + ConsistencyItems(cap.value) + CenteringItems(cap.value)
  }

  /** The three groups of items that call for an action, in order. */
  function Actions(numOutOfControl: nat, violations: seq<Violation>, cap: Option<Capability>): seq<Advice>
  {
    OutOfControlItems(numOutOfControl) + RuleItems(violations) + CapabilityItems(cap)
  }

  /** The whole list: the actions, or the four "stable process" items when there is none. */
  function Recommendations(numOutOfControl: nat, violations: seq<Violation>, cap: Option<Capability>): seq<Advice>
  {
    var actions := Actions(numOutOfControl, violations, cap);
    if |actions| == 0 then StableAdvice else actions
  }

  // ---------------------------------------------------------------------
  // The assembly, appending step by step
  // ---------------------------------------------------------------------

  /**
   * Builds the recommendation list by appending in the source's order: the
   * out-of-control items, one item per rule that fired, the capability
   * items, and the four "stable process" items when nothing else was added.
   */
  method Recommend(numOutOfControl: nat, violations: seq<Violation>, cap: Option<Capability>)
    returns (items: seq<Advice>)
    ensures items == Recommendations(numOutOfControl, violations, cap)
    ensures |items| > 0 && Distinct(items)
  {
    items := [];
    if numOutOfControl > 0 {
      items := items + OutOfControlAdvice;
    }
    assert items == OutOfControlItems(numOutOfControl);
    var rules := RuleAdvice(violations);
    items := items + rules;
    var capItems := CapabilityAdvice(cap);
    items := items + capItems;
    assert items == Actions(numOutOfControl, violations, cap);
    if |items| == 0 {
      items := items + StableAdvice;
    }
    RecommendationsDistinct(numOutOfControl, violations, cap);
  }

  /** The tiene_r1 … tiene_r5 tests and their appends. */
  method RuleAdvice(violations: seq<Violation>) returns (items: seq<Advice>)
    ensures items == RuleItems(violations)
    ensures forall k :: FollowUpRule(k) in items <==> 1 <= k <= 5 && Mentions(violations, k)
  {
    items := [];
    if |violations| > 0 {
      if Mentions(violations, 1) {
        items := items + [FollowUpRule(1)];
      }
      if Mentions(violations, 2) {
        items := items + [FollowUpRule(2)];
      }
      if Mentions(violations, 3) {
        items := items + [FollowUpRule(3)];
      }
      if Mentions(violations, 4) {
        items := items + [FollowUpRule(4)];
      }
      if Mentions(violations, 5) {
        items := items + [FollowUpRule(5)];
      }
    }
    RuleItemsFacts(violations);
  }

  /** The Cpk level item(s), then the Ppk < Cpk item, then the off-center item. */
  method CapabilityAdvice(cap: Option<Capability>) returns (items: seq<Advice>)
    ensures items == CapabilityItems(cap)
    ensures forall a :: a in items ==> IsCapabilityAdvice(a)
  {
    items := [];
    if HasSpecLimits(cap) {
      var c := cap.value;
      if c.cpk < 1.0 {
        items := items + [UrgentAction, ReduceVariationOrWidenSpecs];
      } else if c.cpk < 1.33 {
        items := items + [ContinuousImprovement];
      }
      assert items == LevelItems(c.cpk);
      if c.ppk < c.cpk {
        items := items + [ReviewConsistency];
      }
      assert items == LevelItems(c.cpk) + ConsistencyItems(c);
      if Abs(c.cpu - c.cpl) > 0.2 {
        items := items + [AdjustTowardsNominal];
      }
    }
    CapabilityItemsShape(cap);
  }

  // ---------------------------------------------------------------------
  // What the list means
  // ---------------------------------------------------------------------

  /**
   * The rule items for rules 1 to j are present exactly for the rules some
   * violation belongs to, in ascending rule order.
   */
  predicate RulesUpTo(items: seq<Advice>, violations: seq<Violation>, j: nat)
  {
    && (forall i :: 0 <= i < |items| ==> items[i].FollowUpRule? && 1 <= items[i].rule <= j)
    && (forall i, i' :: 0 <= i < i' < |items| ==> items[i].rule < items[i'].rule)
    && (forall k :: 1 <= k <= j ==> (FollowUpRule(k) in items <==> Mentions(violations, k)))
  }

  lemma RuleStep(items: seq<Advice>, violations: seq<Violation>, j: nat)
    requires j >= 1 && RulesUpTo(items, violations, j - 1)
    ensures RulesUpTo(WithRule(items, violations, j), violations, j)
  {
    if Mentions(violations, j) {
      var r := items + [FollowUpRule(j)];
      assert forall i :: 0 <= i < |items| ==> r[i] == items[i];
      assert r[|items|] == FollowUpRule(j);
      assert forall x :: x in r <==> x in items || x == FollowUpRule(j);
      assert FollowUpRule(j) !in items;
    }
  }

  /**
   * There is one rule item per rule 1 to 5 that some violation belongs to,
   * in rule order, and nothing else.
   */
  lemma RuleItemsFacts(violations: seq<Violation>)
    ensures forall a :: a in RuleItems(violations) ==> a.FollowUpRule?
    ensures forall k :: FollowUpRule(k) in RuleItems(violations) <==> 1 <= k <= 5 && Mentions(violations, k)
    ensures Distinct(RuleItems(violations))
    ensures forall i, j :: 0 <= i < j < |RuleItems(violations)| ==> RuleItems(violations)[i].rule < RuleItems(violations)[j].rule
    ensures |RuleItems(violations)| == 0 <==> forall k :: 1 <= k <= 5 ==> !Mentions(violations, k)
  {
    var items := RuleItems(violations);
    if |violations| > 0 {
      var r1 := WithRule([], violations, 1);
      var r2 := WithRule(r1, violations, 2);
      var r3 := WithRule(r2, violations, 3);
      var r4 := WithRule(r3, violations, 4);
      RuleStep([], violations, 1);
      RuleStep(r1, violations, 2);
      RuleStep(r2, violations, 3);
      RuleStep(r3, violations, 4);
      RuleStep(r4, violations, 5);
    }
    assert RulesUpTo(items, violations, 5);
    if |items| > 0 {
      assert FollowUpRule(items[0].rule) in items;
    }
  }

  /** Capability items are capability advice, each at most once. */
  lemma CapabilityItemsShape(cap: Option<Capability>)
    ensures forall a :: a in CapabilityItems(cap) ==> IsCapabilityAdvice(a)
    ensures Distinct(CapabilityItems(cap))
  {
    if HasSpecLimits(cap) {
      var c := cap.value;
      var l, p, q := LevelItems(c.cpk), ConsistencyItems(c), CenteringItems(c);
      DistinctConcat(l, p);
      DistinctConcat(l + p, q);
    }
  }

  /** Each capability item appears exactly under its own condition, and only with specification limits. */
  lemma CapabilityItemsFacts(cap: Option<Capability>)
    ensures UrgentAction in CapabilityItems(cap) <==> HasSpecLimits(cap) && cap.value.cpk < 1.0
    ensures ReduceVariationOrWidenSpecs in CapabilityItems(cap) <==> HasSpecLimits(cap) && cap.value.cpk < 1.0
    ensures ContinuousImprovement in CapabilityItems(cap) <==> HasSpecLimits(cap) && 1.0 <= cap.value.cpk < 1.33
    ensures ReviewConsistency in CapabilityItems(cap) <==> HasSpecLimits(cap) && cap.value.ppk < cap.value.cpk
    ensures AdjustTowardsNominal in CapabilityItems(cap) <==> HasSpecLimits(cap) && Abs(cap.value.cpu - cap.value.cpl) > 0.2
    ensures |CapabilityItems(cap)| == 0 <==>
      !(HasSpecLimits(cap) &&
        (cap.value.cpk < 1.33 || cap.value.ppk < cap.value.cpk || Abs(cap.value.cpu - cap.value.cpl) > 0.2))
  {
    if HasSpecLimits(cap) {
      var c := cap.value;
      var l, p, q := LevelItems(c.cpk), ConsistencyItems(c), CenteringItems(c);
      assert forall a :: a in l + p + q <==> a in l || a in p || a in q;
      assert |l + p + q| == |l| + |p| + |q|;
    }
  }

  /** Rule items are FollowUpRule items, each at most once. */
  lemma RuleItemsShape(violations: seq<Violation>)
    ensures forall a :: a in RuleItems(violations) ==> a.FollowUpRule?
    ensures Distinct(RuleItems(violations))
  {
    RuleItemsFacts(violations);
  }

  lemma DistinctConcat(a: seq<Advice>, b: seq<Advice>)
    requires Distinct(a) && Distinct(b)
    requires forall x :: x in a ==> x !in b
    ensures Distinct(a + b)
  {
    forall i, j | 0 <= i < j < |a + b| ensures (a + b)[i] != (a + b)[j] {
      if j >= |a| && i < |a| {
        assert (a + b)[i] in a && (a + b)[j] in b;
      }
    }
  }

  /** There is an action exactly when something calls for one. */
  lemma ActionsEmptyIff(numOutOfControl: nat, violations: seq<Violation>, cap: Option<Capability>)
    ensures |Actions(numOutOfControl, violations, cap)| == 0 <==> !CallsForAction(numOutOfControl, violations, cap)
  {
    RuleItemsFacts(violations);
    CapabilityItemsFacts(cap);
  }

  /** No action is one of the "stable process" items. */
  lemma ActionsNotStable(numOutOfControl: nat, violations: seq<Violation>, cap: Option<Capability>)
    ensures forall a :: a in Actions(numOutOfControl, violations, cap) ==> !IsStableAdvice(a)
  {
    var ooc, rules, caps := OutOfControlItems(numOutOfControl), RuleItems(violations), CapabilityItems(cap);
    OutOfControlItemsShape(numOutOfControl);
    RuleItemsShape(violations);
    CapabilityItemsShape(cap);
    forall a | a in ooc + rules + caps ensures !IsStableAdvice(a) {
      assert a in ooc || a in rules || a in caps;
    }
  }

  /** The out-of-control items are five different items, none of them a rule, capability or "stable process" item. */
  lemma OutOfControlItemsShape(numOutOfControl: nat)
    ensures Distinct(OutOfControlItems(numOutOfControl))
    ensures forall x :: x in OutOfControlItems(numOutOfControl) ==>
      !x.FollowUpRule? && !IsCapabilityAdvice(x) && !IsStableAdvice(x)
  {
    var ooc := OutOfControlItems(numOutOfControl);
    forall x | x in ooc ensures !x.FollowUpRule? && !IsCapabilityAdvice(x) && !IsStableAdvice(x) {
      var i :| 0 <= i < |ooc| && ooc[i] == x;
    }
  }

  lemma DistinctThree(a: seq<Advice>, b: seq<Advice>, c: seq<Advice>)
    requires Distinct(a) && Distinct(b) && Distinct(c)
    requires forall x :: x in a ==> x !in b && x !in c
    requires forall x :: x in b ==> x !in c
    ensures Distinct(a + b + c)
  {
    DistinctConcat(a, b);
    forall x | x in a + b ensures x !in c {
      assert x in a || x in b;
    }
    DistinctConcat(a + b, c);
  }

  /** The actions never repeat an item: the three groups are disjoint and each is repetition-free. */
  lemma ActionsDistinct(numOutOfControl: nat, violations: seq<Violation>, cap: Option<Capability>)
    ensures Distinct(Actions(numOutOfControl, violations, cap))
  {
    var ooc, rules, caps := OutOfControlItems(numOutOfControl), RuleItems(violations), CapabilityItems(cap);
    OutOfControlItemsShape(numOutOfControl);
    RuleItemsShape(violations);
    CapabilityItemsShape(cap);
    DistinctThree(ooc, rules, caps);
  }

  /** The list is never empty and never holds the same item twice. */
  lemma RecommendationsDistinct(numOutOfControl: nat, violations: seq<Violation>, cap: Option<Capability>)
    ensures |Recommendations(numOutOfControl, violations, cap)| > 0
    ensures Distinct(Recommendations(numOutOfControl, violations, cap))
  {
    ActionsDistinct(numOutOfControl, violations, cap);
  }

  /** An item other than the "stable process" ones is in the list exactly when one of the three groups holds it. */
  lemma InRecommendations(numOutOfControl: nat, violations: seq<Violation>, cap: Option<Capability>, a: Advice)
    requires !IsStableAdvice(a)
    ensures a in Recommendations(numOutOfControl, violations, cap) <==>
      a in OutOfControlItems(numOutOfControl) || a in RuleItems(violations) || a in CapabilityItems(cap)
  {
    var ooc, rules, caps := OutOfControlItems(numOutOfControl), RuleItems(violations), CapabilityItems(cap);
    assert a in ooc + rules + caps <==> a in ooc || a in rules || a in caps;
  }

  /**
   * The four "stable process" items are the whole list exactly when nothing
   * calls for an action, and they never appear beside other items.
   */
  lemma StableIffNothingToReport(numOutOfControl: nat, violations: seq<Violation>, cap: Option<Capability>)
    ensures Recommendations(numOutOfControl, violations, cap) == StableAdvice <==>
      !CallsForAction(numOutOfControl, violations, cap)
    ensures StableUnderControl in Recommendations(numOutOfControl, violations, cap) <==>
      !CallsForAction(numOutOfControl, violations, cap)
  {
    var actions := Actions(numOutOfControl, violations, cap);
    ActionsEmptyIff(numOutOfControl, violations, cap);
    ActionsNotStable(numOutOfControl, violations, cap);
    if |actions| > 0 {
      assert StableUnderControl !in actions;
      assert StableAdvice[0] == StableUnderControl;
    }
  }

  /** The five out-of-control items lead the list exactly when some point is out of control. */
  lemma OutOfControlFirst(numOutOfControl: nat, violations: seq<Violation>, cap: Option<Capability>)
    ensures numOutOfControl > 0 <==> InvestigateSpecialCauses in Recommendations(numOutOfControl, violations, cap)
    ensures numOutOfControl > 0 ==>
      var r := Recommendations(numOutOfControl, violations, cap);
      |r| >= 5 && r[..5] == OutOfControlAdvice
  {
    var ooc := OutOfControlItems(numOutOfControl);
    RuleItemsShape(violations);
    CapabilityItemsShape(cap);
    InRecommendations(numOutOfControl, violations, cap, InvestigateSpecialCauses);
    if numOutOfControl > 0 {
      var actions := Actions(numOutOfControl, violations, cap);
      assert actions[..5] == ooc;
    }
  }

  /** A rule's item is in the list exactly when some violation belongs to that rule (1 to 5). */
  lemma RuleAdviceIff(numOutOfControl: nat, violations: seq<Violation>, cap: Option<Capability>, k: nat)
    ensures FollowUpRule(k) in Recommendations(numOutOfControl, violations, cap) <==>
      1 <= k <= 5 && Mentions(violations, k)
  {
    InRecommendations(numOutOfControl, violations, cap, FollowUpRule(k));
    RuleItemsFacts(violations);
    CapabilityItemsShape(cap);
    assert FollowUpRule(k) !in OutOfControlItems(numOutOfControl);
  }

  /**
   * The capability items, with specification limits only: the two urgent
   * items when Cpk < 1.0, the improvement item when 1.0 <= Cpk < 1.33, the
   * consistency item when Ppk < Cpk, the centering item when |Cpu − Cpl| > 0.2.
   */
  lemma CapabilityAdviceIff(numOutOfControl: nat, violations: seq<Violation>, cap: Option<Capability>)
    ensures var r := Recommendations(numOutOfControl, violations, cap);
      && (UrgentAction in r <==> HasSpecLimits(cap) && cap.value.cpk < 1.0)
      && (ReduceVariationOrWidenSpecs in r <==> HasSpecLimits(cap) && cap.value.cpk < 1.0)
      && (ContinuousImprovement in r <==> HasSpecLimits(cap) && 1.0 <= cap.value.cpk < 1.33)
      && (ReviewConsistency in r <==> HasSpecLimits(cap) && cap.value.ppk < cap.value.cpk)
      && (AdjustTowardsNominal in r <==> HasSpecLimits(cap) && Abs(cap.value.cpu - cap.value.cpl) > 0.2)
  {
    CapabilityItemsFacts(cap);
    CapabilityInRecommendations(numOutOfControl, violations, cap, UrgentAction);
    CapabilityInRecommendations(numOutOfControl, violations, cap, ReduceVariationOrWidenSpecs);
    CapabilityInRecommendations(numOutOfControl, violations, cap, ContinuousImprovement);
    CapabilityInRecommendations(numOutOfControl, violations, cap, ReviewConsistency);
    CapabilityInRecommendations(numOutOfControl, violations, cap, AdjustTowardsNominal);
  }

  /** A capability item is in the list exactly when the capability items hold it. */
  lemma CapabilityInRecommendations(numOutOfControl: nat, violations: seq<Violation>, cap: Option<Capability>, a: Advice)
    requires IsCapabilityAdvice(a)
    ensures a in Recommendations(numOutOfControl, violations, cap) <==> a in CapabilityItems(cap)
  {
    RuleItemsShape(violations);
    InRecommendations(numOutOfControl, violations, cap, a);
    assert a !in OutOfControlItems(numOutOfControl);
  }
}

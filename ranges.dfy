/** The range estimator: an ordered pair of uncertainty predicates picks the
    confidence label, the label fixes the +/- percentage, and the estimate is
    the total widened by it. The widening factors explain the choice and
    never feed back into the numbers. */
module Ranges {
  import opened Constants
  import opened TierAssignment

  /** The explanatory lines a range can carry, in their listing order. Those
      that quote a count keep it. */
  datatype WideningFactor =
    | SignificantBehavioralNeeds(behaviorsCount: nat)
    | HighAcuityMarketVariation
    | SpecializedTransferStaffing
    | InHomeAroundTheClockVariation
    | BehavioralNeedsMayVary
    | FallRiskMonitoring
    | ChronicConditionOversight(chronicCount: nat)
    | DependencyVariesByProvider
    | SupervisionVariesByCommunity
    | StableAndPredictable
  {
    function Position(): nat {
      match this
      case SignificantBehavioralNeeds(_) => 0
      case HighAcuityMarketVariation => 1
      case SpecializedTransferStaffing => 2
      case InHomeAroundTheClockVariation => 3
      case BehavioralNeedsMayVary => 4
      case FallRiskMonitoring => 5
      case ChronicConditionOversight(_) => 6
      case DependencyVariesByProvider => 7
      case SupervisionVariesByCommunity => 8
      case StableAndPredictable => 9
    }
  }

  /** Each factor at most once, in listing order. */
  predicate InListingOrder(factors: seq<WideningFactor>) {
    forall i, j :: 0 <= i < j < |factors| ==> factors[i].Position() < factors[j].Position()
  }

  /** The causes of a wide (+/-20%) range. */
  predicate HasHighUncertainty(flags: set<string>, a: Answers, careType: string) {
    ("behavioral_concerns" in flags && a.behaviorsCount >= 3)
    || careType == "memory_care_high_acuity"
    || ("transfer_assistance_2person" in flags && a.badlsCount >= 3)
    || "transfer_lift_required" in flags
    || (careType == "in_home_care" && "continuous_supervision" in flags)
  }

  /** The causes of a moderate (+/-12%) range. */
  predicate HasModerateUncertainty(flags: set<string>, a: Answers, careType: string) {
    (careType in ["memory_care", "memory_care_high_acuity"] && "behavioral_concerns" in flags)
    || ("falls_multiple" in flags && "high_mobility_dependence" in flags)
    || (|a.chronicConditions| >= 3 && "falls_multiple" in flags)
    || "high_dependence" in flags
    || ("continuous_supervision" in flags && careType != "in_home_care")
  }

  /** The confidence label: high uncertainty is tested first and gives "low",
      then moderate uncertainty gives "medium", otherwise "high". */
  function ConfidenceFor(flags: set<string>, a: Answers, careType: string): (c: Confidence)
    ensures HasHighUncertainty(flags, a, careType) ==> c == Low
    ensures c == Low ==> HasHighUncertainty(flags, a, careType)
    ensures c == Medium <==> !HasHighUncertainty(flags, a, careType) && HasModerateUncertainty(flags, a, careType)
  {
    if HasHighUncertainty(flags, a, careType) then Low
    else if HasModerateUncertainty(flags, a, careType) then Medium
    else High
  }

  /** High-acuity memory care, or a mechanical lift, always gives "low". */
  lemma HighAcuityOrLiftIsLowConfidence(flags: set<string>, a: Answers, careType: string)
    requires careType == "memory_care_high_acuity" || "transfer_lift_required" in flags
    ensures ConfidenceFor(flags, a, careType) == Low
  {
  }

  /** A lone continuous-supervision flag gives "low" for in-home care and
      "medium" for every other care type except high-acuity memory care,
      which is always "low". */
  lemma LoneSupervisionConfidence(a: Answers, careType: string)
    ensures ConfidenceFor({"continuous_supervision"}, a, "in_home_care") == Low
    ensures careType != "in_home_care" && careType != "memory_care_high_acuity" ==>
              ConfidenceFor({"continuous_supervision"}, a, careType) == Medium
  {
  }

  /** The low / likely / high estimates. */
  datatype Bounds = Bounds(low: real, likely: real, high: real)

  /** The total widened symmetrically by the label's percentage. */
  function BoundsFor(total: real, c: Confidence): (b: Bounds)
    ensures b.likely == total
    ensures b.likely - b.low == b.high - b.likely == total * RangePct(c)
    ensures total >= 0.0 ==> b.low <= b.likely <= b.high
    ensures total >= 0.0 ==> b.low >= 0.0
  {
    var rangePct := RangePct(c);
    Bounds(total * (1.0 - rangePct), total, total * (1.0 + rangePct))
  }

  /** The range record. */
  datatype CostRange = CostRange(
    low: real,
    likely: real,
    high: real,
    confidence: Confidence,
    rangePct: real,
    wideningFactors: seq<WideningFactor>)

  /** The one-element list [f] when c holds, else the empty list. */
  function When(c: bool, f: WideningFactor): (r: seq<WideningFactor>)
    ensures f in r <==> c
    ensures forall g :: g in r ==> g == f
  {
    if c then [f] else []
  }

  /** Every factor in the list sorts at or before position p. */
  predicate AllAtMost(xs: seq<WideningFactor>, p: nat) {
    forall i :: 0 <= i < |xs| ==> xs[i].Position() <= p
  }

  /** Appending a factor that sorts after everything so far keeps the order. */
  lemma {:induction false} ExtendInOrder(xs: seq<WideningFactor>, p: nat, c: bool, f: WideningFactor)
    requires InListingOrder(xs) && AllAtMost(xs, p) && p < f.Position()
    ensures InListingOrder(xs + When(c, f)) && AllAtMost(xs + When(c, f), f.Position())
  {
    var ys := xs + When(c, f);
    forall i, j | 0 <= i < j < |ys|
      ensures ys[i].Position() < ys[j].Position()
    {
      if j >= |xs| {
        assert ys[j] == f;
      }
    }
  }

  /** The factors behind a wide range, in listing order. */
  function HighUncertaintyFactors(flags: set<string>, a: Answers, careType: string): seq<WideningFactor> {
    When(a.behaviorsCount >= 3, SignificantBehavioralNeeds(a.behaviorsCount))
    + When(careType == "memory_care_high_acuity", HighAcuityMarketVariation)
    + When("transfer_assistance_2person" in flags || "transfer_lift_required" in flags, SpecializedTransferStaffing)
    + When("continuous_supervision" in flags && careType == "in_home_care", InHomeAroundTheClockVariation)
  }

  /** The factors behind a moderate range, in listing order. */
  function ModerateUncertaintyFactors(flags: set<string>, a: Answers, careType: string): seq<WideningFactor> {
    When("behavioral_concerns" in flags, BehavioralNeedsMayVary)
    + When("falls_multiple" in flags, FallRiskMonitoring)
    + When(|a.chronicConditions| >= 3, ChronicConditionOversight(|a.chronicConditions|))
    + When("high_dependence" in flags, DependencyVariesByProvider)
    + When("continuous_supervision" in flags, SupervisionVariesByCommunity)
  }

  /** Four guarded appends of factors in increasing position give a list in
      listing order, whichever guards hold. */
  lemma FourInOrder(c0: bool, f0: WideningFactor, c1: bool, f1: WideningFactor,
                    c2: bool, f2: WideningFactor, c3: bool, f3: WideningFactor)
    requires f0.Position() < f1.Position() < f2.Position() < f3.Position()
    ensures InListingOrder(When(c0, f0) + When(c1, f1) + When(c2, f2) + When(c3, f3))
  {
    var s0 := When(c0, f0);
    var s1 := s0 + When(c1, f1);
    var s2 := s1 + When(c2, f2);
    assert InListingOrder(s0) && AllAtMost(s0, f0.Position());
    ExtendInOrder(s0, f0.Position(), c1, f1);
    ExtendInOrder(s1, f1.Position(), c2, f2);
    ExtendInOrder(s2, f2.Position(), c3, f3);
  }

  /** The wide-range factors are in listing order. */
  lemma HighUncertaintyFactorsInOrder(flags: set<string>, a: Answers, careType: string)
    ensures InListingOrder(HighUncertaintyFactors(flags, a, careType))
  {
    FourInOrder(a.behaviorsCount >= 3, SignificantBehavioralNeeds(a.behaviorsCount),
                careType == "memory_care_high_acuity", HighAcuityMarketVariation,
                "transfer_assistance_2person" in flags || "transfer_lift_required" in flags, SpecializedTransferStaffing,
                "continuous_supervision" in flags && careType == "in_home_care", InHomeAroundTheClockVariation);
  }

  /** Each wide-range factor is listed exactly when its condition holds, and
      no other factor is ever listed. */
  lemma HighUncertaintyFactorsMembership(flags: set<string>, a: Answers, careType: string)
    ensures var fs := HighUncertaintyFactors(flags, a, careType);
      && (SignificantBehavioralNeeds(a.behaviorsCount) in fs <==> a.behaviorsCount >= 3)
      && (HighAcuityMarketVariation in fs <==> careType == "memory_care_high_acuity")
      && (SpecializedTransferStaffing in fs <==>
            "transfer_assistance_2person" in flags || "transfer_lift_required" in flags)
      && (InHomeAroundTheClockVariation in fs <==>
            "continuous_supervision" in flags && careType == "in_home_care")
      && (forall f :: f in fs ==>
            f in [SignificantBehavioralNeeds(a.behaviorsCount), HighAcuityMarketVariation,
                  SpecializedTransferStaffing, InHomeAroundTheClockVariation])
  {
  }

  /** Five guarded appends of factors in increasing position give a list in
      listing order, whichever guards hold. */
  lemma FiveInOrder(c0: bool, f0: WideningFactor, c1: bool, f1: WideningFactor, c2: bool, f2: WideningFactor,
                    c3: bool, f3: WideningFactor, c4: bool, f4: WideningFactor)
    requires f0.Position() < f1.Position() < f2.Position() < f3.Position() < f4.Position()
    ensures InListingOrder(When(c0, f0) + When(c1, f1) + When(c2, f2) + When(c3, f3) + When(c4, f4))
  {
    var s0 := When(c0, f0);
    var s1 := s0 + When(c1, f1);
    var s2 := s1 + When(c2, f2);
    var s3 := s2 + When(c3, f3);
    assert InListingOrder(s0) && AllAtMost(s0, f0.Position());
    ExtendInOrder(s0, f0.Position(), c1, f1);
    ExtendInOrder(s1, f1.Position(), c2, f2);
    ExtendInOrder(s2, f2.Position(), c3, f3);
    ExtendInOrder(s3, f3.Position(), c4, f4);
  }

  /** The moderate-range factors are in listing order. */
  lemma ModerateUncertaintyFactorsInOrder(flags: set<string>, a: Answers, careType: string)
    ensures InListingOrder(ModerateUncertaintyFactors(flags, a, careType))
  {
    FiveInOrder("behavioral_concerns" in flags, BehavioralNeedsMayVary,
                "falls_multiple" in flags, FallRiskMonitoring,
                |a.chronicConditions| >= 3, ChronicConditionOversight(|a.chronicConditions|),
                "high_dependence" in flags, DependencyVariesByProvider,
                "continuous_supervision" in flags, SupervisionVariesByCommunity);
  }

  /** Each moderate-range factor is listed exactly when its condition holds,
      and no other factor is ever listed. */
  lemma ModerateUncertaintyFactorsMembership(flags: set<string>, a: Answers, careType: string)
    ensures var fs := ModerateUncertaintyFactors(flags, a, careType);
      && (BehavioralNeedsMayVary in fs <==> "behavioral_concerns" in flags)
      && (FallRiskMonitoring in fs <==> "falls_multiple" in flags)
      && (ChronicConditionOversight(|a.chronicConditions|) in fs <==> |a.chronicConditions| >= 3)
      && (DependencyVariesByProvider in fs <==> "high_dependence" in flags)
      && (SupervisionVariesByCommunity in fs <==> "continuous_supervision" in flags)
      && (forall f :: f in fs ==>
            f in [BehavioralNeedsMayVary, FallRiskMonitoring, ChronicConditionOversight(|a.chronicConditions|),
                  DependencyVariesByProvider, SupervisionVariesByCommunity])
  {
  }

  /** The factors behind a wide range, appended one condition at a time. */
  method GetHighUncertaintyFactors(flags: set<string>, a: Answers, careType: string)
    returns (factors: seq<WideningFactor>)
    ensures factors == HighUncertaintyFactors(flags, a, careType)
  {
    factors := [];
    var behaviorsCount := a.behaviorsCount;
    if behaviorsCount >= 3 {
      factors := factors + [SignificantBehavioralNeeds(behaviorsCount)];
    }
    assert factors == When(behaviorsCount >= 3, SignificantBehavioralNeeds(behaviorsCount));
    ghost var before := factors;
    if careType == "memory_care_high_acuity" {
      factors := factors + [HighAcuityMarketVariation];
    }
    assert factors == before + When(careType == "memory_care_high_acuity", HighAcuityMarketVariation);
    before := factors;
    if "transfer_assistance_2person" in flags || "transfer_lift_required" in flags {
      factors := factors + [SpecializedTransferStaffing];
    }
    assert factors == before + When("transfer_assistance_2person" in flags || "transfer_lift_required" in flags,
                                    SpecializedTransferStaffing);
    before := factors;
    if "continuous_supervision" in flags && careType == "in_home_care" {
      factors := factors + [InHomeAroundTheClockVariation];
    }
    assert factors == before + When("continuous_supervision" in flags && careType == "in_home_care",
                                    InHomeAroundTheClockVariation);
  }

  /** The factors behind a moderate range, appended one condition at a time. */
  method GetModerateUncertaintyFactors(flags: set<string>, a: Answers, careType: string)
    returns (factors: seq<WideningFactor>)
    ensures factors == ModerateUncertaintyFactors(flags, a, careType)
  {
    factors := [];
    if "behavioral_concerns" in flags {
      factors := factors + [BehavioralNeedsMayVary];
    }
    assert factors == When("behavioral_concerns" in flags, BehavioralNeedsMayVary);
    ghost var before := factors;
    if "falls_multiple" in flags {
      factors := factors + [FallRiskMonitoring];
    }
    assert factors == before + When("falls_multiple" in flags, FallRiskMonitoring);
    before := factors;
    var chronicCount := |a.chronicConditions|;
    if chronicCount >= 3 {
      factors := factors + [ChronicConditionOversight(chronicCount)];
    }
    assert factors == before + When(chronicCount >= 3, ChronicConditionOversight(chronicCount));
    before := factors;
    if "high_dependence" in flags {
      factors := factors + [DependencyVariesByProvider];
    }
    assert factors == before + When("high_dependence" in flags, DependencyVariesByProvider);
    before := factors;
    if "continuous_supervision" in flags {
      factors := factors + [SupervisionVariesByCommunity];
    }
    assert factors == before + When("continuous_supervision" in flags, SupervisionVariesByCommunity);
  }

  /** Whenever the label is not "high", at least one factor explains it. */
  lemma UncertaintyIsExplained(flags: set<string>, a: Answers, careType: string)
    ensures HasHighUncertainty(flags, a, careType) ==> |HighUncertaintyFactors(flags, a, careType)| > 0
    ensures HasModerateUncertainty(flags, a, careType) ==> |ModerateUncertaintyFactors(flags, a, careType)| > 0
  {
    HighUncertaintyFactorsMembership(flags, a, careType);
    ModerateUncertaintyFactorsMembership(flags, a, careType);
  }

  /** The range of a total: the confidence label of the flags, answers and
      care type, its percentage, the widened bounds, and the factors. A
      "high" label is explained by stability alone; any other label by at
      least one factor. */
  method CalculateCostRange(total: real, flags: set<string>, a: Answers, careType: string)
    returns (r: CostRange)
    ensures r.confidence == ConfidenceFor(flags, a, careType)
    ensures r.rangePct == RangePct(r.confidence)
    ensures Bounds(r.low, r.likely, r.high) == BoundsFor(total, r.confidence)
    ensures r.wideningFactors == match r.confidence
              case Low => HighUncertaintyFactors(flags, a, careType)
              case Medium => ModerateUncertaintyFactors(flags, a, careType)
              case High => [StableAndPredictable]
    ensures |r.wideningFactors| > 0 && InListingOrder(r.wideningFactors)
    ensures total >= 0.0 ==> 0.0 <= r.low <= r.likely <= r.high
  {
    UncertaintyIsExplained(flags, a, careType);
    HighUncertaintyFactorsInOrder(flags, a, careType);
    ModerateUncertaintyFactorsInOrder(flags, a, careType);
    var confidence: Confidence;
    var wideningFactors: seq<WideningFactor>;
    if HasHighUncertainty(flags, a, careType) {
      confidence := Low;
      wideningFactors := GetHighUncertaintyFactors(flags, a, careType);
    } else if HasModerateUncertainty(flags, a, careType) {
      confidence := Medium;
      wideningFactors := GetModerateUncertaintyFactors(flags, a, careType);
    } else {
      confidence := High;
      wideningFactors := [StableAndPredictable];
    }
    var rangePct := ConfidenceRanges[confidence.Key()];
    var low := total * (1.0 - rangePct);
    var likely := total;
    var high := total * (1.0 + rangePct);
    r := CostRange(low, likely, high, confidence, rangePct, wideningFactors);
  }
}

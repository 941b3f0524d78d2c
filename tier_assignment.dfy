/** Assessment normalisation and the tier rules: the assisted-living and
    memory-care tier cascades, and the two care-type escalation predicates. */
module TierAssignment {
  import opened Wrappers
  import opened Constants

  // ---------------------------------------------------------------------------
  // Raw assessment outcome and its normalised context
  // ---------------------------------------------------------------------------

  /** A raw answer value: a list of selected options or a single scalar. */
  datatype RawValue = ListValue(items: seq<string>) | ScalarValue(text: string)

  /** The raw assessment outcome. An absent `flags` key is the empty
      sequence, an absent `answers` key the empty map; the other keys are
      optional. */
  datatype GcpOutcome = GcpOutcome(
    flags: seq<string>,
    answers: map<string, RawValue>,
    recommendation: Option<string>,
    tier: Option<string>,
    score: Option<int>,
    supportBand: Option<string>,
    hoursBand: Option<string>)

  /** The normalised answers: filtered lists, their counts, and the scalar
      answers passed through (absent when missing). */
  datatype Answers = Answers(
    badlsCount: nat,
    badlsList: seq<string>,
    iadlsCount: nat,
    iadlsList: seq<string>,
    behaviorsCount: nat,
    behaviorsList: seq<string>,
    chronicConditions: seq<string>,
    medsComplexity: Option<string>,
    incontinence: Option<string>,
    safeAlone: Option<string>,
    transfers: Option<string>,
    mobility: Option<string>,
    memoryChanges: Option<string>,
    mood: Option<string>,
    falls: Option<string>)

  /** The normalised assessment context a calculation works on. */
  datatype GcpContext = GcpContext(
    flags: set<string>,
    answers: Answers,
    tier: Option<string>,
    score: int,
    supportBand: string,
    hoursBand: string)

  /** The list with every "none" sentinel removed, order kept. */
  function DropNone(xs: seq<string>): (r: seq<string>)
    ensures "none" !in r
    ensures |r| == |xs| - multiset(xs)["none"]
    ensures forall x :: x != "none" ==> multiset(r)[x] == multiset(xs)[x]
  {
    if xs == [] then []
    else
      assert xs == [xs[0]] + xs[1..];
      if xs[0] == "none" then DropNone(xs[1..]) else [xs[0]] + DropNone(xs[1..])
  }

  /** A list-valued answer with the sentinel removed; a missing or non-list
      value counts as the empty list. */
  function ListAnswer(answers: map<string, RawValue>, key: string): (r: seq<string>)
    ensures "none" !in r
    ensures key !in answers || answers[key].ScalarValue? ==> r == []
    ensures key in answers && answers[key].ListValue? ==>
              |r| == |answers[key].items| - multiset(answers[key].items)["none"] &&
              forall x :: x in r <==> x in answers[key].items && x != "none"
  {
    if key in answers && answers[key].ListValue? then
      var r := DropNone(answers[key].items);
      assert forall x :: x in r <==> x in answers[key].items && x != "none" by {
        forall x ensures x in r <==> x in answers[key].items && x != "none" {
          assert x in r <==> multiset(r)[x] > 0;
          assert x in answers[key].items <==> multiset(answers[key].items)[x] > 0;
        }
      }
      r
    else []
  }

  /** A scalar answer, absent when missing. A list where a scalar is expected
      never equals any of the strings the rules compare with, so it is read
      as absent too. */
  function ScalarAnswer(answers: map<string, RawValue>, key: string): (r: Option<string>)
    ensures r.Some? <==> key in answers && answers[key].ScalarValue?
    ensures r.Some? ==> r.value == answers[key].text
  {
    if key in answers && answers[key].ScalarValue? then Some(answers[key].text) else None
  }

  /** Normalise a raw outcome: flags become a set, each list answer loses its
      "none" entries and is counted, scalars pass through, and the pass-through
      fields take their defaults (score 0, support band "low", hours band "<1h"). */
  function PrepareGcpContext(o: GcpOutcome): (c: GcpContext)
    ensures forall f :: f in c.flags <==> f in o.flags
    ensures c.answers.badlsCount == |c.answers.badlsList| && c.answers.badlsList == ListAnswer(o.answers, "badls")
    ensures c.answers.iadlsCount == |c.answers.iadlsList| && c.answers.iadlsList == ListAnswer(o.answers, "iadls")
    ensures c.answers.behaviorsCount == |c.answers.behaviorsList| && c.answers.behaviorsList == ListAnswer(o.answers, "behaviors")
    ensures c.answers.chronicConditions == ListAnswer(o.answers, "chronic_conditions")
    ensures c.answers.medsComplexity == ScalarAnswer(o.answers, "meds_complexity")
    ensures c.answers.incontinence == ScalarAnswer(o.answers, "incontinence")
    ensures c.answers.safeAlone == ScalarAnswer(o.answers, "safe_alone")
    ensures c.answers.transfers == ScalarAnswer(o.answers, "transfers")
    ensures c.answers.mobility == ScalarAnswer(o.answers, "mobility")
    ensures c.answers.memoryChanges == ScalarAnswer(o.answers, "memory_changes")
    ensures c.answers.mood == ScalarAnswer(o.answers, "mood")
    ensures c.answers.falls == ScalarAnswer(o.answers, "falls")
    ensures c.tier == o.tier
    ensures c.score == (if o.score.Some? then o.score.value else 0)
    ensures c.supportBand == (if o.supportBand.Some? then o.supportBand.value else "low")
    ensures c.hoursBand == (if o.hoursBand.Some? then o.hoursBand.value else "<1h")
  {
    var answers := o.answers;
    var badls := ListAnswer(answers, "badls");
    var iadls := ListAnswer(answers, "iadls");
    var behaviors := ListAnswer(answers, "behaviors");
    var chronic := ListAnswer(answers, "chronic_conditions");
    var normalized := Answers(
      |badls|, badls, |iadls|, iadls, |behaviors|, behaviors, chronic,
      ScalarAnswer(answers, "meds_complexity"),
      ScalarAnswer(answers, "incontinence"),
      ScalarAnswer(answers, "safe_alone"),
      ScalarAnswer(answers, "transfers"),
      ScalarAnswer(answers, "mobility"),
      ScalarAnswer(answers, "memory_changes"),
      ScalarAnswer(answers, "mood"),
      ScalarAnswer(answers, "falls"));
    var flags := set f | f in o.flags;
    GcpContext(
      flags, normalized,
      o.tier, o.score.GetOr(0), o.supportBand.GetOr("low"), o.hoursBand.GetOr("<1h"))
  }

  /** An outcome with nothing in it normalises to "no needs". */
  lemma EmptyOutcomeMeansNoNeeds(o: GcpOutcome)
    requires o.flags == [] && o.answers == map[]
    ensures var c := PrepareGcpContext(o);
            c.flags == {} && c.answers.badlsCount == 0 && c.answers.iadlsCount == 0 &&
            c.answers.behaviorsCount == 0 && c.answers.chronicConditions == [] &&
            c.answers.medsComplexity == None && c.answers.incontinence == None &&
            c.answers.safeAlone == None && c.answers.transfers == None &&
            c.answers.mobility == None && c.answers.memoryChanges == None &&
            c.answers.mood == None && c.answers.falls == None
  {
  }

  // ---------------------------------------------------------------------------
  // Assisted-living tier
  // ---------------------------------------------------------------------------

  /** 1 for a condition that holds, 0 otherwise. */
  function B(b: bool): nat {
    if b then 1 else 0
  }

  /** How many of the five tier-4 conditions hold. */
  function AlTier4Score(flags: set<string>, a: Answers): nat {
    B("severe_cognitive_risk" in flags) +
    B("high_mobility_dependence" in flags) +
    B("behavioral_concerns" in flags) +
    B(a.badlsCount >= 3) +
    B("continuous_supervision" in flags)
  }

  predicate IsModerateOrComplex(meds: Option<string>) {
    meds.Some? && meds.value in ["moderate", "complex"]
  }

  /** The assisted-living tier: the first of tier 4, 3, 2, 1 whose rule fires,
      tier 0 when none does. Tier 4 needs at least two of its five conditions. */
  function AssistedLivingTier(flags: set<string>, a: Answers): (t: Tier)
    ensures t == Tier4 <==> AlTier4Score(flags, a) >= 2
    ensures a.badlsCount >= 3 ==> t.Rank() >= 3
    ensures a.badlsCount >= 2 ==> t.Rank() >= 2
    ensures a.badlsCount >= 1 ==> t.Rank() >= 1
  {
    var badls := a.badlsCount;
    if AlTier4Score(flags, a) >= 2 then Tier4
    else if "severe_cognitive_risk" in flags
         || ("moderate_cognitive_decline" in flags && badls >= 2)
         || "behavioral_concerns" in flags
         || badls >= 3
         || "high_dependence" in flags
    then Tier3
    else if "high_mobility_dependence" in flags
         || "transfer_assistance_1person" in flags
         || badls >= 2
         || "incontinence_management" in flags
         || "falls_multiple" in flags
    then Tier2
    else if IsModerateOrComplex(a.medsComplexity)
         || badls == 1
         || a.iadlsCount >= 4
         || "mild_cognitive_decline" in flags
    then Tier1
    else Tier0
  }

  /** Tier 0 exactly when no signal any rule reads is present. In particular
      continuous supervision alone, or moderate cognitive decline with fewer
      than two BADLs, still prices at tier 0. */
  lemma AssistedLivingTierZeroIff(flags: set<string>, a: Answers)
    ensures AssistedLivingTier(flags, a) == Tier0 <==>
              a.badlsCount == 0 && a.iadlsCount < 4 && !IsModerateOrComplex(a.medsComplexity) &&
              "severe_cognitive_risk" !in flags && "high_mobility_dependence" !in flags &&
              "behavioral_concerns" !in flags && "high_dependence" !in flags &&
              "transfer_assistance_1person" !in flags && "incontinence_management" !in flags &&
              "falls_multiple" !in flags && "mild_cognitive_decline" !in flags
  {
  }

  /** With the flags and the other answers fixed, more BADLs never lower the
      assisted-living tier. */
  lemma AssistedLivingTierMonotoneInBadls(flags: set<string>, a: Answers, k: nat)
    requires k >= a.badlsCount
    ensures AssistedLivingTier(flags, a.(badlsCount := k)).Rank() >= AssistedLivingTier(flags, a).Rank()
  {
  }

  /** More flags never lower the assisted-living tier: every rule reads flags
      positively. */
  lemma AssistedLivingTierMonotoneInFlags(flags: set<string>, more: set<string>, a: Answers)
    requires flags <= more
    ensures AssistedLivingTier(more, a).Rank() >= AssistedLivingTier(flags, a).Rank()
  {
  }

  // ---------------------------------------------------------------------------
  // Memory-care tier
  // ---------------------------------------------------------------------------

  /** The memory-care tier: the first of tier 4, 3, 2, 1 whose rule fires,
      tier 0 when none does. */
  function MemoryCareTier(flags: set<string>, a: Answers): (t: Tier)
    ensures "transfer_lift_required" in flags || a.badlsCount >= 4 ==> t == Tier4
    ensures a.badlsCount >= 3 ==> t.Rank() >= 3
    ensures a.badlsCount >= 2 ==> t.Rank() >= 2
    ensures a.badlsCount >= 1 ==> t.Rank() >= 1
    ensures t == Tier4 ==> "transfer_lift_required" in flags || a.badlsCount >= 4 ||
                           ("behavioral_concerns" in flags && a.behaviorsCount >= 3) ||
                           ("continuous_supervision" in flags && "high_dependence" in flags)
  {
    var badls := a.badlsCount;
    if ("behavioral_concerns" in flags && a.behaviorsCount >= 3)
       || ("continuous_supervision" in flags && "high_dependence" in flags)
       || badls >= 4
       || "transfer_lift_required" in flags
    then Tier4
    else if "behavioral_concerns" in flags
         || badls >= 3
         || "transfer_assistance_2person" in flags
         || "high_dependence" in flags
    then Tier3
    else if badls >= 2
         || "high_mobility_dependence" in flags
         || "incontinence_management" in flags
    then Tier2
    else if badls == 1
         || "transfer_assistance_1person" in flags
         || "moderate_mobility" in flags
    then Tier1
    else Tier0
  }

  /** With the flags and the other answers fixed, more BADLs never lower the
      memory-care tier. */
  lemma MemoryCareTierMonotoneInBadls(flags: set<string>, a: Answers, k: nat)
    requires k >= a.badlsCount
    ensures MemoryCareTier(flags, a.(badlsCount := k)).Rank() >= MemoryCareTier(flags, a).Rank()
  {
  }

  /** More flags never lower the memory-care tier. */
  lemma MemoryCareTierMonotoneInFlags(flags: set<string>, more: set<string>, a: Answers)
    requires flags <= more
    ensures MemoryCareTier(more, a).Rank() >= MemoryCareTier(flags, a).Rank()
  {
  }

  // ---------------------------------------------------------------------------
  // Escalation predicates
  // ---------------------------------------------------------------------------

  /** Whether assisted living is overflowed and memory care is recommended:
      a dementia diagnosis with any complexity, severe cognitive risk with a
      safety concern, or three or more behaviours. */
  predicate ShouldRecommendMemoryCareInsteadOfAl(flags: set<string>, a: Answers)
    ensures a.behaviorsCount >= 3 ==> ShouldRecommendMemoryCareInsteadOfAl(flags, a)
    ensures ShouldRecommendMemoryCareInsteadOfAl(flags, a) ==>
              "memory_care_dx" in flags || "severe_cognitive_risk" in flags || a.behaviorsCount >= 3
  {
    ("memory_care_dx" in flags &&
      (a.badlsCount >= 2 || "behavioral_concerns" in flags || "continuous_supervision" in flags))
    || ("severe_cognitive_risk" in flags &&
      ("behavioral_concerns" in flags || "continuous_supervision" in flags || a.safeAlone == Some("no")))
    || a.behaviorsCount >= 3
  }

  /** Whether memory care escalates to high-acuity memory care: only from the
      memory-care tier "tier_4", and then on a mechanical lift, complete
      incontinence, or continuous supervision with two or more behaviours. */
  predicate ShouldRecommendHighAcuityMc(flags: set<string>, a: Answers, mcTier: string)
    ensures ShouldRecommendHighAcuityMc(flags, a, mcTier) ==> mcTier == "tier_4"
    ensures mcTier == "tier_4" && "transfer_lift_required" in flags ==> ShouldRecommendHighAcuityMc(flags, a, mcTier)
  {
    mcTier == "tier_4" &&
    ("transfer_lift_required" in flags
     || a.incontinence == Some("complete")
     || ("continuous_supervision" in flags && a.behaviorsCount >= 2))
  }

  /** With the tier the memory-care cascade assigns, a mechanical lift always
      escalates to high acuity, and escalation needs memory-care tier 4. */
  lemma LiftEscalatesToHighAcuity(flags: set<string>, a: Answers)
    ensures "transfer_lift_required" in flags ==>
              ShouldRecommendHighAcuityMc(flags, a, MemoryCareTier(flags, a).Key())
    ensures ShouldRecommendHighAcuityMc(flags, a, MemoryCareTier(flags, a).Key()) ==>
              MemoryCareTier(flags, a) == Tier4
  {
  }
}

/** The orchestrator: chooses the care type through the escalation chain,
    prices it on one of the six paths, and attaches the confidence range and
    the result metadata. */
module Calculator {
  import opened Wrappers
  import opened Errors
  import opened Constants
  import opened TierAssignment
  import opened AddOns
  import opened Ranges

  // ---------------------------------------------------------------------------
  // Care types and result records
  // ---------------------------------------------------------------------------

  /** The six care types the dispatcher prices. */
  datatype CareType = AssistedLiving | MemoryCare | MemoryCareHighAcuity | InHomeCare | HomemakerCare | HomeWithCarry {
    function Key(): string {
      match this
      case AssistedLiving => "assisted_living"
      case MemoryCare => "memory_care"
      case MemoryCareHighAcuity => "memory_care_high_acuity"
      case InHomeCare => "in_home_care"
      case HomemakerCare => "homemaker_care"
      case HomeWithCarry => "home_with_carry"
    }
  }

  const CareTypeKeys: set<string> :=
    {"assisted_living", "memory_care", "memory_care_high_acuity", "in_home_care", "homemaker_care", "home_with_carry"}

  /** The string-keyed entry point of the dispatcher: the care type whose key
      is s, or nothing for any other string. */
  function ParseCareType(s: string): (r: Option<CareType>)
    ensures r.Some? ==> r.value.Key() == s
    ensures r.None? <==> s !in CareTypeKeys
  {
    if s == "assisted_living" then Some(AssistedLiving)
    else if s == "memory_care" then Some(MemoryCare)
    else if s == "memory_care_high_acuity" then Some(MemoryCareHighAcuity)
    else if s == "in_home_care" then Some(InHomeCare)
    else if s == "homemaker_care" then Some(HomemakerCare)
    else if s == "home_with_carry" then Some(HomeWithCarry)
    else None
  }

  /** Every care type is recognised by its own key, and by no other. */
  lemma ParseCareTypeRoundTrip(c: CareType)
    ensures ParseCareType(c.Key()) == Some(c)
  {
  }

  /** What one breakdown line reports; the display text is left opaque. */
  datatype BreakdownItem =
    | NationalBase
    | RegionalAdjustment(multiplier: real)
    | CareTierLine(tierLabel: string)
    | AddOnsLine
    | NationalHourlyRate
    | WeeklyHours(hoursPerWeek: real)
    | FamilyProvides(familyHoursPerWeek: real)

  datatype BreakdownEntry = BreakdownEntry(item: BreakdownItem, amount: real)

  function BreakdownSum(entries: seq<BreakdownEntry>): real {
    if entries == [] then 0.0 else entries[0].amount + BreakdownSum(entries[1..])
  }

  lemma BreakdownSumOfThree(e0: BreakdownEntry, e1: BreakdownEntry, e2: BreakdownEntry)
    ensures BreakdownSum([e0, e1, e2]) == e0.amount + e1.amount + e2.amount
  {
    assert [e0, e1, e2][1..] == [e1, e2];
    assert [e1, e2][1..] == [e2];
    assert [e2][1..] == [];
    assert BreakdownSum([e2]) == e2.amount;
    assert BreakdownSum([e1, e2]) == e1.amount + e2.amount;
  }

  lemma BreakdownSumOfFour(e0: BreakdownEntry, e1: BreakdownEntry, e2: BreakdownEntry, e3: BreakdownEntry)
    ensures BreakdownSum([e0, e1, e2, e3]) == e0.amount + e1.amount + e2.amount + e3.amount
  {
    assert [e0, e1, e2, e3][1..] == [e1, e2, e3];
    BreakdownSumOfThree(e1, e2, e3);
  }

  /** The record one pricing path returns: a facility price (base, tier and
      add-ons) or an hourly price. */
  datatype PathResult =
    | Facility(
        totalMonthly: real,
        baseCost: real,
        regionalBase: real,
        tierLabel: string,
        tierId: string,
        tierIncrement: real,
        tierDescription: string,
        addons: seq<AddOn>,
        addonTotal: real,
        addonCap: real,
        breakdown: seq<BreakdownEntry>)
    | Hourly(
        totalMonthly: real,
        hourlyBase: real,
        regionalHourly: real,
        hoursPerWeek: real,
        hoursPerMonth: real,
        familyHoursPerWeek: Option<real>,
        tierId: string,
        breakdown: seq<BreakdownEntry>)

  /** Average weeks per month. */
  const WeeksPerMonth: real := 4.33

  // ---------------------------------------------------------------------------
  // Facility paths
  // ---------------------------------------------------------------------------

  /** The record of a tiered facility price: the regional base, the tier's
      scaled increment and the capped add-ons add up to the total, and so do
      the four breakdown lines. */
  function FacilityRecord(baseCost: real, m: real, tierId: string, tierConfig: TierConfig, tierIncrement: real,
                          addons: seq<AddOn>): (p: PathResult)
    ensures p.Facility? && p.baseCost == baseCost && p.regionalBase == baseCost * m
    ensures p.tierId == tierId && p.tierLabel == tierConfig.tierLabel && p.tierIncrement == tierIncrement
    ensures p.addons == addons && p.addonTotal == SumAmounts(addons) && p.addonCap == AddOnCap(baseCost * m)
    ensures p.totalMonthly == p.regionalBase + p.tierIncrement + p.addonTotal
    ensures |p.breakdown| == 4 && BreakdownSum(p.breakdown) == p.totalMonthly
  {
    var regionalBase := baseCost * m;
    var maxAddon := Min(MaxAddonAbsolute, regionalBase * MaxAddonPct);
    var addonTotal := SumAmounts(addons);
    var total := regionalBase + tierIncrement + addonTotal;
    var e0, e1 := BreakdownEntry(NationalBase, baseCost), BreakdownEntry(RegionalAdjustment(m), regionalBase - baseCost);
    var e2, e3 := BreakdownEntry(CareTierLine(tierConfig.tierLabel), tierIncrement), BreakdownEntry(AddOnsLine, addonTotal);
    BreakdownSumOfFour(e0, e1, e2, e3);
    Facility(
      total, baseCost, regionalBase, tierConfig.tierLabel, tierId, tierIncrement, tierConfig.description,
      addons, addonTotal, maxAddon, [e0, e1, e2, e3])
  }

  /** Assisted living at a given tier: 5900 scaled by the multiplier, the
      tier's increment in the assisted-living table scaled the same way, and the
      capped add-ons for that regional base. A non-negative multiplier
      always prices, within the add-on cap; a negative one fails only where
      the capping pass divides by zero. */
  function AssistedLivingTierCost(tier: Tier, flags: set<string>, a: Answers, m: real): (r: Result<PathResult, Error>)
    ensures r.Success? <==> AddOnsFor(flags, a, 5900.0 * m).Success?
    ensures r.Failure? ==> r.error == DivisionByZero
    ensures m >= 0.0 ==> r.Success? && r.value.Facility? && 0.0 <= r.value.addonTotal <= r.value.addonCap
                         && r.value.totalMonthly >= 0.0
    ensures r.Success? ==>
              var p := r.value;
              && p.Facility?
              && p.baseCost == 5900.0
              && p.regionalBase == 5900.0 * m
              && p.tierId == tier.Key()
              && p.tierIncrement == AlIncrement(tier) * m
              && p.tierLabel == AlTierIncrements[tier.Key()].tierLabel
              && p.addons == AddOnsFor(flags, a, 5900.0 * m).value
              && p.addonCap == AddOnCap(5900.0 * m)
              && p.totalMonthly == p.regionalBase + p.tierIncrement + p.addonTotal
              && BreakdownSum(p.breakdown) == p.totalMonthly
  {
    BaseCostValues();
    var baseCost := GetBaseCost("assisted_living").value;
    var regionalBase := baseCost * m;
    TierTablesComplete(tier);
    ScaledTierIncrement(tier, m);
    TierIncrementSign(tier);
    var tierConfig := GetTierConfig("assisted_living", tier.Key()).value;
    var tierIncrement := GetTierIncrement("assisted_living", tier.Key(), m).value;
    AddOnsPriced(flags, a, regionalBase);
    ScaledIncrementSign(AlIncrement(tier), m);
    var addOns := AddOnsFor(flags, a, regionalBase);
    if addOns.Failure? then Failure(addOns.error)
    else Success(FacilityRecord(baseCost, m, tier.Key(), tierConfig, tierIncrement, addOns.value))
  }

  /** Memory care at a given tier: 7400 scaled by the multiplier, the
      tier's increment in the memory-care table scaled the same way, and the
      capped add-ons for that regional base. A non-negative multiplier
      always prices, within the add-on cap; a negative one fails only where
      the capping pass divides by zero. */
  function MemoryCareTierCost(tier: Tier, flags: set<string>, a: Answers, m: real): (r: Result<PathResult, Error>)
    ensures r.Success? <==> AddOnsFor(flags, a, 7400.0 * m).Success?
    ensures r.Failure? ==> r.error == DivisionByZero
    ensures m >= 0.0 ==> r.Success? && r.value.Facility? && 0.0 <= r.value.addonTotal <= r.value.addonCap
                         && r.value.totalMonthly >= 0.0
    ensures r.Success? ==>
              var p := r.value;
              && p.Facility?
              && p.baseCost == 7400.0
              && p.regionalBase == 7400.0 * m
              && p.tierId == tier.Key()
              && p.tierIncrement == McIncrement(tier) * m
              && p.tierLabel == McTierIncrements[tier.Key()].tierLabel
              && p.addons == AddOnsFor(flags, a, 7400.0 * m).value
              && p.addonCap == AddOnCap(7400.0 * m)
              && p.totalMonthly == p.regionalBase + p.tierIncrement + p.addonTotal
              && BreakdownSum(p.breakdown) == p.totalMonthly
  {
    BaseCostValues();
    var baseCost := GetBaseCost("memory_care").value;
    var regionalBase := baseCost * m;
    TierTablesComplete(tier);
    ScaledTierIncrement(tier, m);
    TierIncrementSign(tier);
    var tierConfig := GetTierConfig("memory_care", tier.Key()).value;
    var tierIncrement := GetTierIncrement("memory_care", tier.Key(), m).value;
    AddOnsPriced(flags, a, regionalBase);
    ScaledIncrementSign(McIncrement(tier), m);
    var addOns := AddOnsFor(flags, a, regionalBase);
    if addOns.Failure? then Failure(addOns.error)
    else Success(FacilityRecord(baseCost, m, tier.Key(), tierConfig, tierIncrement, addOns.value))
  }

  /** Both tables' increments are non-negative. */
  lemma TierIncrementSign(t: Tier)
    ensures AlIncrement(t) >= 0.0 && McIncrement(t) >= 0.0
  {
    if t != Tier0 {
      TierIncrementsStrictlyIncrease(Tier0, t);
    }
  }

  /** Assisted living: the assisted-living price at the tier the
      assisted-living cascade assigns. */
  function AssistedLivingCost(flags: set<string>, a: Answers, m: real): (r: Result<PathResult, Error>)
    ensures r == AssistedLivingTierCost(AssistedLivingTier(flags, a), flags, a, m)
  {
    var tier := AssistedLivingTier(flags, a);
    AssistedLivingTierCost(tier, flags, a, m)
  }

  /** Memory care: the memory-care price at the tier the memory-care cascade
      assigns. */
  function MemoryCareCost(flags: set<string>, a: Answers, m: real): (r: Result<PathResult, Error>)
    ensures r == MemoryCareTierCost(MemoryCareTier(flags, a), flags, a, m)
  {
    var tier := MemoryCareTier(flags, a);
    MemoryCareTierCost(tier, flags, a, m)
  }

  /** High-acuity memory care: no tier, only the regional base and the capped
      add-ons; its three breakdown lines add up to the total. */
  function HighAcuityMemoryCareCost(flags: set<string>, a: Answers, m: real): (r: Result<PathResult, Error>)
    ensures m >= 0.0 ==> r.Success? && r.value.Facility? && 0.0 <= r.value.addonTotal <= r.value.addonCap && r.value.totalMonthly >= 0.0
    ensures r.Success? <==> AddOnsFor(flags, a, 9400.0 * m).Success?
    ensures r.Success? ==>
              var p := r.value;
              && p.Facility?
              && p.baseCost == 9400.0
              && p.regionalBase == 9400.0 * m
              && p.tierId == "high_acuity"
              && p.tierLabel == "High Acuity"
              && p.tierIncrement == 0.0
              && p.addons == AddOnsFor(flags, a, p.regionalBase).value
              && p.addonTotal == SumAmounts(p.addons)
              && p.addonCap == AddOnCap(p.regionalBase)
              && p.totalMonthly == p.regionalBase + p.addonTotal
              && |p.breakdown| == 3
              && BreakdownSum(p.breakdown) == p.totalMonthly
  {
    BaseCostValues();
    AddOnsPriced(flags, a, 9400.0 * m);
    var baseCost := GetBaseCost("memory_care_high_acuity").value;
    var regionalBase := baseCost * m;
    var maxAddon := Min(MaxAddonAbsolute, regionalBase * MaxAddonPct);
    var addons :- AddOnsFor(flags, a, regionalBase);
    var addonTotal := SumAmounts(addons);
    var total := regionalBase + addonTotal;
    var e0, e1 := BreakdownEntry(NationalBase, baseCost), BreakdownEntry(RegionalAdjustment(m), regionalBase - baseCost);
    var e2 := BreakdownEntry(AddOnsLine, addonTotal);
    BreakdownSumOfThree(e0, e1, e2);
    Success(Facility(
      total, baseCost, regionalBase, "High Acuity", "high_acuity", 0.0,
      "24/7 specialized memory care with highest level of support",
      addons, addonTotal, maxAddon, [e0, e1, e2]))
  }

  // ---------------------------------------------------------------------------
  // Hourly paths
  // ---------------------------------------------------------------------------

  /** The hourly base-cost lookup as the hourly paths write it: the keys
      "in_home_hourly" and "homemaker_hourly", neither of which is a care
      type of the base-cost table. */
  function HourlyBaseAsWritten(careType: CareType): (r: Result<real, Error>)
    ensures careType in {InHomeCare, HomeWithCarry} ==> r == Failure(UnknownCareType("in_home_hourly"))
    ensures careType == HomemakerCare ==> r == Failure(UnknownCareType("homemaker_hourly"))
  {
    if careType == HomemakerCare then GetBaseCost("homemaker_hourly") else GetBaseCost("in_home_hourly")
  }

  /** The hourly base cost as intended: the "hourly" field of the in-home
      care entry, or of the homemaker services entry for homemaker care. */
  function HourlyBase(careType: CareType): (r: Result<real, Error>)
    ensures careType in {InHomeCare, HomeWithCarry} ==> r == Success(34.0)
    ensures careType == HomemakerCare ==> r == Success(33.0)
  {
    BaseCostValues();
    if careType == HomemakerCare then GetBaseCost("homemaker_services", "hourly")
    else GetBaseCost("in_home_care", "hourly")
  }

  /** Every hourly path as written raises before pricing anything, whatever
      the multiplier or the answers. */
  lemma HourlyKeysAsWritten()
    ensures HourlyBaseAsWritten(InHomeCare).Failure?
    ensures HourlyBaseAsWritten(HomemakerCare).Failure?
    ensures HourlyBaseAsWritten(HomeWithCarry).Failure?
    ensures HourlyBase(InHomeCare).Success? && HourlyBase(HomemakerCare).Success?
  {
  }

  /** The weekly hours the hourly paths read from the normalised answers,
      with the path's default. The normalised answers never carry a
      recommended-hours entry, so the default is always the result. */
  function RecommendedHoursPerWeek(a: Answers, default: real): real {
    default
  }

  /** In-home care: the in-home hourly rate scaled by the multiplier, for the
      recommended weekly hours (20 by default), over 4.33 weeks. The
      breakdown's third line is the total itself, so the lines add up to the
      regional hourly rate plus the total. */
  function InHomeCareCost(a: Answers, m: real): (r: Result<PathResult, Error>)
    ensures r.Success?
    ensures var p := r.value;
              && p.Hourly?
              && p.hourlyBase == 34.0
              && p.regionalHourly == 34.0 * m
              && p.hoursPerWeek == 20.0
              && p.hoursPerMonth == 20.0 * WeeksPerMonth
              && p.totalMonthly == 34.0 * m * 20.0 * WeeksPerMonth
              && p.familyHoursPerWeek == None
              && p.tierId == "hourly"
              && |p.breakdown| == 3
              && BreakdownSum(p.breakdown) == p.regionalHourly + p.totalMonthly
  {
    var hourlyBase := HourlyBase(InHomeCare).value;
    var regionalHourly := hourlyBase * m;
    var hoursPerWeek := RecommendedHoursPerWeek(a, 20.0);
    var total := regionalHourly * (hoursPerWeek * WeeksPerMonth);
    var e0, e1 := BreakdownEntry(NationalHourlyRate, hourlyBase), BreakdownEntry(RegionalAdjustment(m), regionalHourly - hourlyBase);
    var e2 := BreakdownEntry(WeeklyHours(hoursPerWeek), total);
    BreakdownSumOfThree(e0, e1, e2);
    Success(Hourly(
      total, hourlyBase, regionalHourly, hoursPerWeek, hoursPerWeek * WeeksPerMonth, None, "hourly", [e0, e1, e2]))
  }

  /** Homemaker care: the homemaker hourly rate scaled by the multiplier, for
      the recommended weekly hours (10 by default), over 4.33 weeks. */
  function HomemakerCareCost(a: Answers, m: real): (r: Result<PathResult, Error>)
    ensures r.Success?
    ensures var p := r.value;
              && p.Hourly?
              && p.hourlyBase == 33.0
              && p.regionalHourly == 33.0 * m
              && p.hoursPerWeek == 10.0
              && p.hoursPerMonth == 10.0 * WeeksPerMonth
              && p.totalMonthly == 33.0 * m * 10.0 * WeeksPerMonth
              && p.familyHoursPerWeek == None
              && p.tierId == "hourly"
              && |p.breakdown| == 3
              && BreakdownSum(p.breakdown) == p.regionalHourly + p.totalMonthly
  {
    var hourlyBase := HourlyBase(HomemakerCare).value;
    var regionalHourly := hourlyBase * m;
    var hoursPerWeek := RecommendedHoursPerWeek(a, 10.0);
    var total := regionalHourly * (hoursPerWeek * WeeksPerMonth);
    var e0, e1 := BreakdownEntry(NationalHourlyRate, hourlyBase), BreakdownEntry(RegionalAdjustment(m), regionalHourly - hourlyBase);
    var e2 := BreakdownEntry(WeeklyHours(hoursPerWeek), total);
    BreakdownSumOfThree(e0, e1, e2);
    Success(Hourly(
      total, hourlyBase, regionalHourly, hoursPerWeek, hoursPerWeek * WeeksPerMonth, None, "hourly", [e0, e1, e2]))
  }

  /** In-home care with family support: the family carries half of the
      recommended hours (20 by default), so paid and family hours are equal
      and add up to the full hours; the family line costs nothing. */
  function HomeWithCarryCost(a: Answers, m: real): (r: Result<PathResult, Error>)
    ensures r.Success?
    ensures var p := r.value;
              && p.Hourly?
              && p.hourlyBase == 34.0
              && p.regionalHourly == 34.0 * m
              && p.familyHoursPerWeek == Some(p.hoursPerWeek)
              && p.hoursPerWeek + p.familyHoursPerWeek.value == 20.0
              && p.hoursPerMonth == p.hoursPerWeek * WeeksPerMonth
              && p.totalMonthly == 34.0 * m * p.hoursPerWeek * WeeksPerMonth
              && p.tierId == "hourly_with_carry"
              && |p.breakdown| == 4
              && p.breakdown[3].amount == 0.0
              && BreakdownSum(p.breakdown) == p.regionalHourly + p.totalMonthly
  {
    var hourlyBase := HourlyBase(HomeWithCarry).value;
    var regionalHourly := hourlyBase * m;
    var fullHours := RecommendedHoursPerWeek(a, 20.0);
    var hoursPerWeek := fullHours * 0.5;
    var familyHours := fullHours - hoursPerWeek;
    var total := regionalHourly * (hoursPerWeek * WeeksPerMonth);
    var e0, e1 := BreakdownEntry(NationalHourlyRate, hourlyBase), BreakdownEntry(RegionalAdjustment(m), regionalHourly - hourlyBase);
    var e2, e3 := BreakdownEntry(WeeklyHours(hoursPerWeek), total), BreakdownEntry(FamilyProvides(familyHours), 0.0);
    BreakdownSumOfFour(e0, e1, e2, e3);
    Success(Hourly(
      total, hourlyBase, regionalHourly, hoursPerWeek, hoursPerWeek * WeeksPerMonth, Some(familyHours),
      "hourly_with_carry", [e0, e1, e2, e3]))
  }

  /** The dispatcher: the path of each care type. Facility paths report the
      care type's price as the total of their breakdown; a non-negative
      multiplier always prices, at a non-negative total. */
  function PathCost(careType: CareType, flags: set<string>, a: Answers, m: real): (r: Result<PathResult, Error>)
    ensures m >= 0.0 ==> r.Success? && r.value.totalMonthly >= 0.0
    ensures r.Success? && r.value.Facility? ==> BreakdownSum(r.value.breakdown) == r.value.totalMonthly
    ensures r.Success? ==> (r.value.Facility? <==> careType in {AssistedLiving, MemoryCare, MemoryCareHighAcuity})
    ensures r.Failure? ==> r.error == DivisionByZero
  {
    match careType
    case AssistedLiving => AssistedLivingCost(flags, a, m)
    case MemoryCare => MemoryCareCost(flags, a, m)
    case MemoryCareHighAcuity => HighAcuityMemoryCareCost(flags, a, m)
    case InHomeCare => InHomeCareCost(a, m)
    case HomemakerCare => HomemakerCareCost(a, m)
    case HomeWithCarry => HomeWithCarryCost(a, m)
  }

  /** With a non-negative regional base the add-ons price, at a total between
      zero and the cap. */
  lemma AddOnsPriced(flags: set<string>, a: Answers, regionalBase: real)
    ensures regionalBase >= 0.0 ==>
              && AddOnsFor(flags, a, regionalBase).Success?
              && 0.0 <= SumAmounts(AddOnsFor(flags, a, regionalBase).value) <= AddOnCap(regionalBase)
  {
    if regionalBase >= 0.0 {
      AddOnTotalWithinCap(flags, a, regionalBase);
      SumNonNegative(AddOnsFor(flags, a, regionalBase).value);
    }
  }

  /** A tier increment scaled by a non-negative multiplier is non-negative. */
  lemma ScaledIncrementSign(increment: real, m: real)
    ensures increment >= 0.0 && m >= 0.0 ==> increment * m >= 0.0
  {
    if increment >= 0.0 && m >= 0.0 {
      ProductNonNegative(increment, m);
    }
  }

  // ---------------------------------------------------------------------------
  // Care-type choice
  // ---------------------------------------------------------------------------

  /** The care type the assessment recommends, after escalation: the
      recommendation (assisted living when absent), overridden to memory care
      from assisted living when assisted living overflows, and then to
      high-acuity memory care from memory care, original or just overridden,
      when the memory-care tier escalates. Any other recommendation stands. */
  function DetermineCareType(recommendation: Option<string>, flags: set<string>, a: Answers): (r: string)
    ensures var rec := recommendation.GetOr("assisted_living");
      && (rec !in {"assisted_living", "memory_care"} ==> r == rec)
      && (rec == "assisted_living" ==>
            (r == "assisted_living" <==> !ShouldRecommendMemoryCareInsteadOfAl(flags, a)))
      && (rec in {"assisted_living", "memory_care"} ==>
            r in {"assisted_living", "memory_care", "memory_care_high_acuity"})
      && (rec == "memory_care" ==> r != "assisted_living")
      && (rec in {"assisted_living", "memory_care"} && r != "assisted_living" ==>
            (r == "memory_care_high_acuity" <==> ShouldRecommendHighAcuityMc(flags, a, MemoryCareTier(flags, a).Key())))
  {
    var recommendation := recommendation.GetOr("assisted_living");
    var recommendation :=
      if recommendation == "assisted_living" && ShouldRecommendMemoryCareInsteadOfAl(flags, a)
      then "memory_care" else recommendation;
    if recommendation == "memory_care" && ShouldRecommendHighAcuityMc(flags, a, MemoryCareTier(flags, a).Key())
    then "memory_care_high_acuity" else recommendation
  }

  /** Escalating an already escalated care type changes nothing. */
  lemma {:induction false} DetermineCareTypeIdempotent(recommendation: Option<string>, flags: set<string>, a: Answers)
    ensures var once := DetermineCareType(recommendation, flags, a);
            DetermineCareType(Some(once), flags, a) == once
  {
    var rec := recommendation.GetOr("assisted_living");
    var once := DetermineCareType(recommendation, flags, a);
    if once == "memory_care" {
      assert !ShouldRecommendHighAcuityMc(flags, a, MemoryCareTier(flags, a).Key());
    }
  }

  /** A mechanical lift sends an overflowing assisted-living recommendation,
      or a memory-care one, all the way to high-acuity memory care. */
  lemma LiftGoesToHighAcuity(recommendation: Option<string>, flags: set<string>, a: Answers)
    requires "transfer_lift_required" in flags
    requires recommendation.GetOr("assisted_living") == "memory_care" ||
             (recommendation.GetOr("assisted_living") == "assisted_living" &&
              ShouldRecommendMemoryCareInsteadOfAl(flags, a))
    ensures DetermineCareType(recommendation, flags, a) == "memory_care_high_acuity"
  {
    LiftEscalatesToHighAcuity(flags, a);
  }

  /** The care type a calculation prices: the explicit one when given
      (bypassing the escalation chain), otherwise the escalated
      recommendation over the normalised assessment. */
  function EffectiveCareType(outcome: GcpOutcome, careType: Option<string>): (r: string)
    ensures careType.Some? ==> r == careType.value
    ensures careType.None? ==>
              var ctx := PrepareGcpContext(outcome);
              r == DetermineCareType(outcome.recommendation, ctx.flags, ctx.answers)
  {
    if careType.Some? then careType.value
    else
      var ctx := PrepareGcpContext(outcome);
      DetermineCareType(outcome.recommendation, ctx.flags, ctx.answers)
  }

  // ---------------------------------------------------------------------------
  // The calculation
  // ---------------------------------------------------------------------------

  /** A complete calculation: the path's record, the range fields and the
      metadata. */
  datatype CareCostResult = CareCostResult(
    path: PathResult,
    lowEstimate: real,
    likelyEstimate: real,
    highEstimate: real,
    confidence: Confidence,
    rangePct: real,
    wideningFactors: seq<WideningFactor>,
    careType: string,
    regionalMultiplier: real,
    modelVersion: string,
    calculationMethod: string)

  /** Price an assessment: normalise it, choose the care type, dispatch to
      its path, then extend the path's record with the range and with the
      metadata, one update after the other. An unknown care type is an
      error; a known one with a non-negative multiplier always prices. */
  method CalculateCareCosts(outcome: GcpOutcome, regionalMultiplier: real := 1.0, careType: Option<string> := None)
    returns (r: Result<CareCostResult, Error>)
    ensures var ct := EffectiveCareType(outcome, careType);
            ParseCareType(ct).None? ==> r == Failure(UnknownCareType(ct))
    ensures var ct := EffectiveCareType(outcome, careType);
            var ctx := PrepareGcpContext(outcome);
            ParseCareType(ct).Some? ==>
              var path := PathCost(ParseCareType(ct).value, ctx.flags, ctx.answers, regionalMultiplier);
              && (r.Success? <==> path.Success?)
              && (r.Failure? ==> r.error == path.error)
              && (r.Success? ==>
                    var res := r.value;
                    && res.path == path.value
                    && res.careType == ct
                    && res.regionalMultiplier == regionalMultiplier
                    && res.modelVersion == "3.0.0"
                    && res.calculationMethod == "tier_based"
                    && res.confidence == ConfidenceFor(ctx.flags, ctx.answers, ct)
                    && res.rangePct == RangePct(res.confidence)
                    && Bounds(res.lowEstimate, res.likelyEstimate, res.highEstimate)
                       == BoundsFor(res.path.totalMonthly, res.confidence)
                    && res.wideningFactors == match res.confidence
                         case Low => HighUncertaintyFactors(ctx.flags, ctx.answers, ct)
                         case Medium => ModerateUncertaintyFactors(ctx.flags, ctx.answers, ct)
                         case High => [StableAndPredictable])
    ensures ParseCareType(EffectiveCareType(outcome, careType)).Some? && regionalMultiplier >= 0.0 ==>
              r.Success? && 0.0 <= r.value.lowEstimate <= r.value.likelyEstimate <= r.value.highEstimate
  {
    var ctx := PrepareGcpContext(outcome);
    var flags := ctx.flags;
    var answers := ctx.answers;
    var ct: string;
    if careType.None? {
      ct := DetermineCareType(outcome.recommendation, flags, answers);
    } else {
      ct := careType.value;
    }
    var parsed := ParseCareType(ct);
    if parsed.None? {
      return Failure(UnknownCareType(ct));
    }
    var path :- PathCost(parsed.value, flags, answers, regionalMultiplier);
    var range := CalculateCostRange(path.totalMonthly, flags, answers, ct);
    var result := CareCostResult(
      path, range.low, range.likely, range.high, range.confidence, range.rangePct, range.wideningFactors,
      "", 0.0, "", "");
    result := result.(careType := ct, regionalMultiplier := regionalMultiplier,
                      modelVersion := "3.0.0", calculationMethod := "tier_based");
    r := Success(result);
  }

  /** An empty assessment prices as plain assisted living at the national
      base: tier 0, no add-ons, high confidence, 5487 to 6313. */
  lemma EmptyAssessmentPricesAtBase(outcome: GcpOutcome)
    requires outcome.flags == [] && outcome.answers == map[] && outcome.recommendation == None
    ensures var ctx := PrepareGcpContext(outcome);
            var p := PathCost(AssistedLiving, ctx.flags, ctx.answers, 1.0);
            && EffectiveCareType(outcome, None) == "assisted_living"
            && p.Success?
            && p.value.tierId == "tier_0"
            && p.value.addons == []
            && p.value.totalMonthly == 5900.0
            && ConfidenceFor(ctx.flags, ctx.answers, "assisted_living") == High
            && BoundsFor(p.value.totalMonthly, High) == Bounds(5487.0, 5900.0, 6313.0)
  {
    EmptyOutcomeMeansNoNeeds(outcome);
    var ctx := PrepareGcpContext(outcome);
    AssistedLivingTierZeroIff(ctx.flags, ctx.answers);
    TierIncrementsStrictlyIncrease(Tier0, Tier1);
    RangePctOrder();
  }
}

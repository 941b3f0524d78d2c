/** Static configuration of the tier-based cost model: the 2024 base-cost
    table, the assisted-living and memory-care tier tables, the add-on caps
    and fractions, the confidence ranges, and the guarded lookups over them. */
module Constants {
  import opened Wrappers
  import opened Errors

  // ---------------------------------------------------------------------------
  // Base costs
  // ---------------------------------------------------------------------------

  /** One entry of the base-cost table. `amounts` holds the numeric cost
      fields ("monthly", "hourly", "annual"); the rest is citation data. */
  datatype BaseCostEntry = BaseCostEntry(
    amounts: map<string, real>,
    source: string,
    sourceUrl: Option<string>,
    derived: bool,
    notes: string)

  const BaseCosts2024: map<string, BaseCostEntry> := map[
    "assisted_living" := BaseCostEntry(
      map["monthly" := 5900.0, "annual" := 70800.0],
      "Genworth Cost of Care Survey 2024",
      Some("https://investor.genworth.com/news-events/press-releases/detail/982/"),
      false, "National median for assisted living facility"),
    "memory_care" := BaseCostEntry(
      map["monthly" := 7400.0],
      "Derived from Genworth 2024 AL median (1.254x premium)",
      None, true, "Typical memory care premium over AL baseline"),
    "memory_care_high_acuity" := BaseCostEntry(
      map["monthly" := 9400.0],
      "Derived from MC base + high-acuity increment",
      None, true, "High-acuity memory care with skilled nursing"),
    "in_home_care" := BaseCostEntry(
      map["hourly" := 34.0],
      "Genworth Cost of Care Survey 2024 - Home Health Aide",
      Some("https://investor.genworth.com/news-events/press-releases/detail/982/"),
      false, "National median for home health aide"),
    "homemaker_services" := BaseCostEntry(
      map["hourly" := 33.0],
      "Genworth Cost of Care Survey 2024",
      Some("https://investor.genworth.com/news-events/press-releases/detail/982/"),
      false, "National median for homemaker services"),
    "home_carry" := BaseCostEntry(
      map["monthly" := 4500.0],
      "National median home ownership cost estimate",
      None, false, "Mortgage/rent + property tax + insurance + maintenance (user input)")
  ]

  /** The base cost of `careType` for `costType`; fails for a care type not in
      the table and for an entry without that cost field. */
  function GetBaseCost(careType: string, costType: string := "monthly"): (r: Result<real, Error>)
    ensures careType !in BaseCosts2024 ==> r == Failure(UnknownCareType(careType))
    ensures careType in BaseCosts2024 && costType !in BaseCosts2024[careType].amounts
            ==> r == Failure(MissingCostType(careType, costType))
    ensures r.Success? <==> careType in BaseCosts2024 && costType in BaseCosts2024[careType].amounts
    ensures r.Success? ==> r.value == BaseCosts2024[careType].amounts[costType]
  {
    if careType !in BaseCosts2024 then Failure(UnknownCareType(careType))
    else
      var costData := BaseCosts2024[careType];
      if costType !in costData.amounts then Failure(MissingCostType(careType, costType))
      else Success(costData.amounts[costType])
  }

  /** The monthly facility base costs, and the hourly-only entries failing a
      monthly lookup. */
  lemma BaseCostValues()
    ensures GetBaseCost("assisted_living") == Success(5900.0)
    ensures GetBaseCost("memory_care") == Success(7400.0)
    ensures GetBaseCost("memory_care_high_acuity") == Success(9400.0)
    ensures GetBaseCost("in_home_care", "hourly") == Success(34.0)
    ensures GetBaseCost("homemaker_services", "hourly") == Success(33.0)
    ensures GetBaseCost("in_home_care") == Failure(MissingCostType("in_home_care", "monthly"))
    ensures GetBaseCost("homemaker_services") == Failure(MissingCostType("homemaker_services", "monthly"))
    ensures GetBaseCost("homemaker_care", "hourly") == Failure(UnknownCareType("homemaker_care"))
  {
  }

  /** Citation data returned for a base cost. */
  datatype Citation = Citation(name: string, url: string, notes: string)

  /** Whether the base cost is derived rather than published; false for
      care types not in the table. */
  function IsBaseCostDerived(careType: string): (r: bool)
    ensures careType !in BaseCosts2024 ==> !r
    ensures r ==> careType in {"memory_care", "memory_care_high_acuity"}
  {
    if careType in BaseCosts2024 then BaseCosts2024[careType].derived else false
  }

  /** The citation of a base cost, with defaults "Unknown", "" and "" for
      whatever the entry (or the table) lacks. */
  function GetBaseCostSource(careType: string): (r: Citation)
    ensures careType !in BaseCosts2024 ==> r == Citation("Unknown", "", "")
    ensures careType in BaseCosts2024 ==>
              r.name == BaseCosts2024[careType].source &&
              r.url == BaseCosts2024[careType].sourceUrl.GetOr("") &&
              r.notes == BaseCosts2024[careType].notes
  {
    if careType !in BaseCosts2024 then Citation("Unknown", "", "")
    else
      var e := BaseCosts2024[careType];
      Citation(e.source, e.sourceUrl.GetOr(""), e.notes)
  }

  // ---------------------------------------------------------------------------
  // Tiers
  // ---------------------------------------------------------------------------

  /** The five pricing tiers, "tier_0" .. "tier_4". */
  datatype Tier = Tier0 | Tier1 | Tier2 | Tier3 | Tier4 {
    function Key(): string {
      match this
      case Tier0 => "tier_0"
      case Tier1 => "tier_1"
      case Tier2 => "tier_2"
      case Tier3 => "tier_3"
      case Tier4 => "tier_4"
    }

    /** The tier's position in the pricing order. */
    function Rank(): nat {
      match this
      case Tier0 => 0
      case Tier1 => 1
      case Tier2 => 2
      case Tier3 => 3
      case Tier4 => 4
    }
  }

  /** The tier named by a table key, if any. */
  function ParseTier(s: string): (r: Option<Tier>)
    ensures r.Some? ==> r.value.Key() == s
    ensures r.None? ==> s !in {"tier_0", "tier_1", "tier_2", "tier_3", "tier_4"}
  {
    if s == "tier_0" then Some(Tier0)
    else if s == "tier_1" then Some(Tier1)
    else if s == "tier_2" then Some(Tier2)
    else if s == "tier_3" then Some(Tier3)
    else if s == "tier_4" then Some(Tier4)
    else None
  }

  /** One row of a tier table. */
  datatype TierConfig = TierConfig(increment: real, tierLabel: string, description: string, typicalProfile: string)

  const AlTierIncrements: map<string, TierConfig> := map[
    "tier_0" := TierConfig(0.0, "Standard Care",
      "Minimal support, independent with most ADLs",
      "Independent resident needing minimal assistance"),
    "tier_1" := TierConfig(600.0, "Light Assistance",
      "Medication management OR mild ADL help",
      "Needs help with 1 ADL or medication management"),
    "tier_2" := TierConfig(1200.0, "Moderate Assistance",
      "Mobility assistance OR moderate ADL help",
      "Uses walker/wheelchair or needs help with 2+ ADLs"),
    "tier_3" := TierConfig(2000.0, "Enhanced Support",
      "Memory support OR behavioral concerns OR extensive ADLs",
      "Cognitive decline, behaviors, or 3+ ADLs"),
    "tier_4" := TierConfig(3000.0, "Maximum Support",
      "Multiple high-intensity needs",
      "Complex care with multiple dependencies")
  ]

  const McTierIncrements: map<string, TierConfig> := map[
    "tier_0" := TierConfig(0.0, "Standard Memory Care",
      "Base secured memory care environment",
      "Mild-moderate memory decline, secured environment"),
    "tier_1" := TierConfig(400.0, "Light ADL Support",
      "Mild ADL or mobility support",
      "Memory care + 1 ADL or mobility assistance"),
    "tier_2" := TierConfig(900.0, "Moderate ADL Support",
      "Moderate ADLs or mobility needs",
      "Memory care + 2 ADLs or significant mobility needs"),
    "tier_3" := TierConfig(1500.0, "Enhanced Behavioral Support",
      "Behavioral concerns or complex ADLs",
      "Challenging behaviors or 3+ ADLs"),
    "tier_4" := TierConfig(2200.0, "High-Acuity Care",
      "Severe behaviors or hands-on care",
      "Intensive supervision, severe behaviors, or total ADL dependence")
  ]

  /** The tier table a care type uses: assisted living has its own, both
      memory-care kinds share the memory-care table, nothing else has one. */
  function TierTable(careType: string): (r: Option<map<string, TierConfig>>)
    ensures r.Some? <==> careType in {"assisted_living", "memory_care", "memory_care_high_acuity"}
    ensures careType == "assisted_living" ==> r == Some(AlTierIncrements)
    ensures careType in {"memory_care", "memory_care_high_acuity"} ==> r == Some(McTierIncrements)
  {
    if careType == "assisted_living" then Some(AlTierIncrements)
    else if careType == "memory_care" || careType == "memory_care_high_acuity" then Some(McTierIncrements)
    else None
  }

  /** The tier increment scaled by the regional multiplier; fails for a care
      type without a tier table and for a tier not in that table. */
  function GetTierIncrement(careType: string, tier: string, regionalMultiplier: real := 1.0): (r: Result<real, Error>)
    ensures TierTable(careType).None? ==> r == Failure(NoTierIncrements(careType))
    ensures TierTable(careType).Some? && tier !in TierTable(careType).value ==> r == Failure(UnknownTier(tier))
    ensures r.Success? <==> TierTable(careType).Some? && tier in TierTable(careType).value
    ensures r.Success? ==> r.value == TierTable(careType).value[tier].increment * regionalMultiplier
  {
    var table := TierTable(careType);
    if table.None? then Failure(NoTierIncrements(careType))
    else if tier !in table.value then Failure(UnknownTier(tier))
    else Success(table.value[tier].increment * regionalMultiplier)
  }

  /** The tier's table row, or nothing (the source's empty record) for an
      unknown care type or tier; it never fails. */
  function GetTierConfig(careType: string, tier: string): (r: Option<TierConfig>)
    ensures r.Some? <==> GetTierIncrement(careType, tier).Success?
    ensures r.Some? ==> forall m: real :: GetTierIncrement(careType, tier, m) == Success(r.value.increment * m)
  {
    var table := TierTable(careType);
    if table.Some? && tier in table.value then Some(table.value[tier]) else None
  }

  /** Every tier has a row in both tables. */
  lemma TierTablesComplete(t: Tier)
    ensures t.Key() in AlTierIncrements && t.Key() in McTierIncrements
  {
  }

  /** The unscaled increment of a tier in the assisted-living table. */
  function AlIncrement(t: Tier): (r: real)
    ensures GetTierIncrement("assisted_living", t.Key()) == Success(r)
  {
    AlTierIncrements[t.Key()].increment
  }

  /** The unscaled increment of a tier in the memory-care table. */
  function McIncrement(t: Tier): (r: real)
    ensures GetTierIncrement("memory_care", t.Key()) == Success(r)
    ensures GetTierIncrement("memory_care_high_acuity", t.Key()) == Success(r)
  {
    McTierIncrements[t.Key()].increment
  }

  /** A lookup in a care type's table succeeds with the row's increment
      times the multiplier whenever the tier has a row. */
  lemma IncrementFromTable(careType: string, table: map<string, TierConfig>, tier: string, increment: real, m: real)
    requires TierTable(careType) == Some(table) && tier in table && table[tier].increment == increment
    ensures GetTierIncrement(careType, tier, m) == Success(increment * m)
  {
    var r := GetTierIncrement(careType, tier, m);
    assert r.Success?;
    assert TierTable(careType).value[tier].increment == increment;
    assert r.value == increment * m;
  }

  /** For every tier the scaled lookup succeeds with the table increment
      times the multiplier, in all three tiered care types. */
  lemma ScaledTierIncrement(t: Tier, m: real)
    ensures GetTierIncrement("assisted_living", t.Key(), m) == Success(AlIncrement(t) * m)
    ensures GetTierIncrement("memory_care", t.Key(), m) == Success(McIncrement(t) * m)
    ensures GetTierIncrement("memory_care_high_acuity", t.Key(), m) == Success(McIncrement(t) * m)
  {
    TierTablesComplete(t);
    IncrementFromTable("assisted_living", AlTierIncrements, t.Key(), AlIncrement(t), m);
    IncrementFromTable("memory_care", McTierIncrements, t.Key(), McIncrement(t), m);
    IncrementFromTable("memory_care_high_acuity", McTierIncrements, t.Key(), McIncrement(t), m);
  }

  /** Tier 0 costs nothing extra and increments strictly grow with the tier,
      in both tables: 0/600/1200/2000/3000 and 0/400/900/1500/2200. */
  lemma TierIncrementsStrictlyIncrease(s: Tier, t: Tier)
    requires s.Rank() < t.Rank()
    ensures AlIncrement(Tier0) == 0.0 && McIncrement(Tier0) == 0.0
    ensures AlIncrement(s) < AlIncrement(t)
    ensures McIncrement(s) < McIncrement(t)
  {
  }

  /** The increment lookup fails outside the three tiered care types and for
      keys that are not tiers. */
  lemma TierIncrementFailures()
    ensures GetTierIncrement("in_home_care", "tier_0") == Failure(NoTierIncrements("in_home_care"))
    ensures GetTierIncrement("assisted_living", "tier_5") == Failure(UnknownTier("tier_5"))
    ensures GetTierConfig("in_home_care", "tier_0") == None
    ensures GetTierConfig("memory_care_high_acuity", "tier_4") == Some(McTierIncrements["tier_4"])
  {
  }

  // ---------------------------------------------------------------------------
  // Add-on caps and confidence ranges
  // ---------------------------------------------------------------------------

  /** Largest add-on total as a fraction of the regional base. */
  const MaxAddonPct: real := 0.15
  /** Absolute ceiling of the add-on total, in dollars. */
  const MaxAddonAbsolute: real := 800.0

  /** The add-on amounts as fractions of the per-call cap. */
  const AddonAmounts: map<string, real> := map[
    "fall_monitoring" := 0.50,
    "chronic_complexity" := 0.375,
    "incontinence_care" := 0.3125
  ]

  /** Every single fraction is at most 1 and so is every pair, but all three
      together exceed 1. */
  lemma AddonFractionsOverflowOnlyAllThree()
    ensures forall k :: k in AddonAmounts ==> 0.0 < AddonAmounts[k] <= 1.0
    ensures AddonAmounts["fall_monitoring"] + AddonAmounts["chronic_complexity"] <= 1.0
    ensures AddonAmounts["fall_monitoring"] + AddonAmounts["incontinence_care"] <= 1.0
    ensures AddonAmounts["chronic_complexity"] + AddonAmounts["incontinence_care"] <= 1.0
    ensures AddonAmounts["fall_monitoring"] + AddonAmounts["chronic_complexity"] + AddonAmounts["incontinence_care"] > 1.0
  {
  }

  /** The three confidence labels. */
  datatype Confidence = High | Medium | Low {
    function Key(): string {
      match this
      case High => "high"
      case Medium => "medium"
      case Low => "low"
    }
  }

  const ConfidenceRanges: map<string, real> := map["high" := 0.07, "medium" := 0.12, "low" := 0.20]

  /** The +/- fraction of a confidence label. */
  function RangePct(c: Confidence): (r: real)
    ensures 0.0 < r < 1.0
  {
    ConfidenceRanges[c.Key()]
  }

  /** Lower confidence means a wider range: 0.07 < 0.12 < 0.20. */
  lemma RangePctOrder()
    ensures RangePct(High) == 0.07 && RangePct(Medium) == 0.12 && RangePct(Low) == 0.20
    ensures RangePct(High) < RangePct(Medium) < RangePct(Low)
  {
  }
}

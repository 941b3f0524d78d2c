# Tier-based care-cost engine, modelled in Dafny

This project models the care-cost engine of a senior-care planning tool and
proves properties of the model.

- **Input:** a guided-care assessment outcome, made of care flags and
  answers.
- **Output:** a monthly cost estimate for one of six kinds of care:
  - assisted living;
  - memory care;
  - high-acuity memory care;
  - in-home care;
  - homemaker care;
  - in-home care with family support.

**Facility care** is priced in these steps:

1. A national base cost is scaled by a regional multiplier.
2. A tier increment is added. The tier comes from an ordered cascade of rules
   over the flags and answers.
3. Capped add-ons are added, for falls, chronic conditions and incontinence.

Hourly care is priced as an hourly rate times hours per week times 4.33 weeks
per month.

Every estimate is then widened into a low, likely and high range by a
confidence label: ±7%, ±12% or ±20%. The label comes from two ordered
uncertainty predicates, and the range is explained by a list of widening
factors.

A second part models the home-equity helpers of the planner's previous
version:

- the net sale proceeds;
- the reverse-mortgage draw;
- the net rental income;
- the months of care a sum funds;
- the per-strategy analysis of a selection of strategies (keep, rent, sell,
  reverse mortgage);
- the computed fields of a normalised home-equity record.

The modules are listed below.

| file | module | models |
|---|---|---|
| wrappers.dfy | `Wrappers` | `Option` and `Result` |
| errors.dfy | `Errors` | the exceptions the engine raises, as an `Error` value |
| constants.dfy | `Constants` | base-cost table, tier tables, add-on constants, confidence ranges, lookups |
| tier_assignment.dfy | `TierAssignment` | assessment normalisation, both tier cascades, both escalation predicates |
| add_ons.dfy | `AddOns` | the add-on list and its in-place capping pass |
| ranges.dfy | `Ranges` | confidence label, widening factors, low/likely/high |
| calculator.dfy | `Calculator` | care-type choice, the six pricing paths, the result record |
| home_equity.dfy | `HomeEquity` | home-equity arithmetic, strategy analysis, normalisation |

Modelling choices:

- **Numbers.** Money, multipliers and percentages are `real`. The model states
  its properties on unrounded values.
- **Flags and answers.** Flags are a `set<string>`. Normalised answers are a
  record with these parts:
  - `nat` counts;
  - the list of chronic conditions;
  - `Option<string>` scalars.
- **Tiers and care types.** Both are datatypes. Each has a string-keyed entry
  point that can fail.
- **Errors.** A Python exception becomes a `Failure` of a `Result`:
  - an unknown care type;
  - a missing cost field;
  - a care type without tiers;
  - an unknown tier;
  - the add-on scaling's division by zero (reachable only with a negative
    regional multiplier).
- **Labels.** The display strings of the breakdown lines and of the widening
  factors are modelled as constructors. The numbers they carry (such as a
  behaviour count) are kept.
- **In-place code.** The step-by-step code is written as methods:
  - the add-on list that is appended to and then rewritten in place;
  - the factor lists built by appending;
  - the two result updates of the calculation;
  - the strategy loop that fills a map;
  - the normaliser that assigns by branch.

  Each method is proved equal to a specification function, or its whole
  result is stated field by field.

## Deviations

The orchestrator in `products/cost_planner_v3/calculator.py` calls several
functions with arguments that do not match their definitions. The leaf
functions are modelled exactly. The orchestrator is modelled with the wiring
below, one deviation per item.

- **D1, context unpacking** (`calculator.py:49`). The code unpacks the
  six-key context returned at `tier_assignment.py:276-283` into two names.
  The model takes the context's `flags` and `answers` fields, as the
  cost-planner test harness does at `products/resources/cost_v3_test/product.py:319-321`.
  That file is not part of this model.
- **D2, missing memory-care tier** (`calculator.py:124`). The code calls the
  high-acuity predicate without its `mc_tier` argument. The model passes the
  tier that `assign_memory_care_tier` gives for the same flags and answers
  (`Calculator.DetermineCareType`).
- **D3, raw answers** (`calculator.py:117,123`). The code passes the raw
  answers to the escalation predicates, but those predicates read
  `badls_count` and `behaviors_count`, which only the normalised answers
  contain. The model passes the normalised answers.
- **D4, add-on arguments** (`calculator.py:150,196,237`). The code calls
  `calculate_add_ons(flags, answers, max_addon)`, but the function's
  signature is `(care_type, flags, answers, regional_base)`. The model passes
  the regional base, and the add-on function computes the cap from it.
- **D5, hourly base-cost keys** (`calculator.py:274,308,345`). The code looks
  up `"in_home_hourly"` and `"homemaker_hourly"`, and neither key is in the
  base-cost table. The model reads the `"hourly"` field of `in_home_care` and
  of `homemaker_services` (`Calculator.HourlyBase`). The key mismatch is also
  a finding below.
- **D6, recommended hours** (`calculator.py:278,312,349`). The hourly paths
  read `recommended_hours_per_week` from the normalised answers, which never
  contain that key. The model keeps this behaviour: the lookup always yields
  its default of 20 or 10 hours (`Calculator.RecommendedHoursPerWeek`).

An hourly breakdown does not sum to its total. It lists the national rate,
the regional adjustment and the monthly total (`calculator.py:293-297`), so
it sums to the regional hourly rate plus the total. The ensures of
`Calculator.InHomeCareCost` states that sum. Facility breakdowns do sum to
the total.

## Model

| member | source | states |
|---|---|---|
| Constants.GetBaseCost | products/cost_planner_v3/constants.py:169-189 | fails with an unknown-care-type error for a care type not in the table and with a missing-cost-type error for an entry without the field; succeeds exactly otherwise, with the table's amount |
| Constants.BaseCostValues | products/cost_planner_v3/constants.py:14-57 | the monthly bases are 5900, 7400 and 9400 and the hourly rates 34 and 33; a monthly lookup of an hourly-only entry fails, and so does an unknown key |
| Constants.IsBaseCostDerived | products/cost_planner_v3/constants.py:228-230 | false for care types not in the table; true only for the two memory-care entries |
| Constants.GetBaseCostSource | products/cost_planner_v3/constants.py:233-249 | the citation defaults to "Unknown" with an empty url and empty notes; otherwise it is the entry's own, with an empty url when the entry has none |
| Constants.ParseTier | products/cost_planner_v3/constants.py:64-95 | the tier parsed from a key has that key; only the five tier keys parse |
| Constants.TierTable | products/cost_planner_v3/constants.py:204-225 | only the three facility care types have a tier table, and both memory-care kinds share the memory-care table |
| Constants.GetTierIncrement | products/cost_planner_v3/constants.py:192-215 | fails for a care type without tiers and for a tier not in its table; otherwise it is the table increment times the multiplier |
| Constants.GetTierConfig | products/cost_planner_v3/constants.py:218-225 | never fails: it yields a row exactly when the increment lookup succeeds, and that row's increment is what every scaled lookup multiplies |
| Constants.AlIncrement | products/cost_planner_v3/constants.py:64-95 | the unscaled increment lookup of a tier succeeds in the assisted-living table |
| Constants.McIncrement | products/cost_planner_v3/constants.py:102-133 | the unscaled increment lookup of a tier succeeds in the memory-care table, and gives the same result for high-acuity memory care |
| Constants.ScaledTierIncrement | products/cost_planner_v3/constants.py:192-215 | for every tier and multiplier, the scaled lookup in each facility type is the table increment times the multiplier |
| Constants.TierIncrementsStrictlyIncrease | products/cost_planner_v3/constants.py:64-133 | tier 0 adds nothing, and increments strictly grow with the tier in both tables |
| Constants.TierIncrementFailures | products/cost_planner_v3/constants.py:208-225 | a care type without tiers and a key that is not a tier both fail the increment lookup; the row lookup yields nothing for the first |
| Constants.AddonFractionsOverflowOnlyAllThree | products/cost_planner_v3/constants.py:147-151 | each add-on fraction is in (0, 1] and so is the sum of every pair, but all three together exceed 1 |
| Constants.RangePct | products/cost_planner_v3/constants.py:158-162 | each confidence percentage is strictly between 0 and 1 |
| Constants.RangePctOrder | products/cost_planner_v3/constants.py:158-162 | the percentages are 0.07, 0.12 and 0.20, in strictly increasing order from high to low confidence |
| TierAssignment.DropNone | products/cost_planner_v3/tier_assignment.py:236-255 | the filtered list holds no "none", is shorter by the number of "none" entries, and keeps every other value as many times as before |
| TierAssignment.ListAnswer | products/cost_planner_v3/tier_assignment.py:227-255 | a missing or non-list answer is the empty list; a list answer keeps exactly its non-"none" entries |
| TierAssignment.ScalarAnswer | products/cost_planner_v3/tier_assignment.py:266-274 | a scalar answer is present exactly when the raw answer is a scalar, with its text |
| TierAssignment.PrepareGcpContext | products/cost_planner_v3/tier_assignment.py:211-283 | flags become a set with the same members; each count is the length of its filtered list; all eight scalars (meds complexity, incontinence, safe alone, transfers, mobility, memory changes, mood, falls) pass through; score, support band and hours band default to 0, "low" and "<1h" |
| TierAssignment.EmptyOutcomeMeansNoNeeds | products/cost_planner_v3/tier_assignment.py:211-283 | an outcome without flags or answers normalises to no flags, zero counts, no chronic conditions and no scalars |
| TierAssignment.AssistedLivingTier | products/cost_planner_v3/tier_assignment.py:10-75 | tier 4 exactly when at least two of its five conditions hold; three, two or one BADL force at least tier 3, 2 or 1 |
| TierAssignment.AssistedLivingTierZeroIff | products/cost_planner_v3/tier_assignment.py:34-75 | tier 0 exactly when no signal that any rule reads is present |
| TierAssignment.AssistedLivingTierMonotoneInBadls | products/cost_planner_v3/tier_assignment.py:34-72 | with everything else fixed, a larger BADL count never lowers the assisted-living tier |
| TierAssignment.AssistedLivingTierMonotoneInFlags | products/cost_planner_v3/tier_assignment.py:34-72 | adding flags never lowers the assisted-living tier |
| TierAssignment.MemoryCareTier | products/cost_planner_v3/tier_assignment.py:78-131 | a mechanical lift, or four or more BADLs, forces tier 4; three, two or one BADL force at least tier 3, 2 or 1; tier 4 only through one of its four rules |
| TierAssignment.MemoryCareTierMonotoneInBadls | products/cost_planner_v3/tier_assignment.py:97-131 | with everything else fixed, a larger BADL count never lowers the memory-care tier |
| TierAssignment.MemoryCareTierMonotoneInFlags | products/cost_planner_v3/tier_assignment.py:97-131 | adding flags never lowers the memory-care tier |
| TierAssignment.ShouldRecommendMemoryCareInsteadOfAl | products/cost_planner_v3/tier_assignment.py:134-173 | three or more behaviours always escalate; escalation needs a dementia diagnosis, severe cognitive risk or three behaviours |
| TierAssignment.ShouldRecommendHighAcuityMc | products/cost_planner_v3/tier_assignment.py:176-208 | false unless the memory-care tier is "tier_4"; at tier 4 a mechanical lift always escalates |
| TierAssignment.LiftEscalatesToHighAcuity | products/cost_planner_v3/tier_assignment.py:201-208 | with the tier the memory-care cascade assigns, a lift always escalates, and escalation implies memory-care tier 4 |
| AddOns.AddOnCap | products/cost_planner_v3/add_ons.py:38 | the cap is at most $800 and at most 15% of the regional base, equals one of the two, and is non-negative for a non-negative base |
| AddOns.CountHighImpact | products/cost_planner_v3/add_ons.py:137 | the number of high-impact entries is at most the list length and is positive exactly when a high-impact condition is listed |
| AddOns.ShouldApplyChronicAddOn | products/cost_planner_v3/add_ons.py:84-142 | false for an empty chronic list, true with two or more high-impact conditions, and true only with two or more conditions or a BADL |
| AddOns.CandidateAddOns | products/cost_planner_v3/add_ons.py:41-67 | at most three items, none marked capped before the capping pass; their order, presence and amounts are stated by CandidateOrderAndPresence, CandidateAmountsBounded and CandidateSum |
| AddOns.ApplyCap | products/cost_planner_v3/add_ons.py:70-79 | capping keeps the number of items and fails only by division by zero, which needs a negative cap; ApplyCapKeepsItems, ApplyCapScalesToCap, ApplyCapLeavesAmounts and ApplyCapWithinCap state the rest |
| AddOns.AddOnsFor | products/cost_planner_v3/add_ons.py:11-81 | the add-ons of a calculation fail only by division by zero, and only for a negative regional base; AddOnTotalWithinCap and CappedIffAllThree state the total and when the cap binds |
| AddOns.CalculateAddOns | products/cost_planner_v3/add_ons.py:11-81 | the built and capped list equals the add-on specification, which does not depend on the care type; with a non-negative base it never fails and sums to at most the cap |
| AddOns.CapAddOnsInPlace | products/cost_planner_v3/add_ons.py:70-79 | rewriting each item in place gives exactly the capping pass: all scaled by cap/sum and marked capped, or all left and marked uncapped, or a division-by-zero error |
| AddOns.SumScaled | products/cost_planner_v3/add_ons.py:73-76 | scaling every amount by a factor scales the sum by it |
| AddOns.SumUncapped | products/cost_planner_v3/add_ons.py:77-79 | marking the items uncapped keeps the sum |
| AddOns.ApplyCapKeepsItems | products/cost_planner_v3/add_ons.py:70-79 | capping keeps every item's kind and position, and marks each item capped exactly when the sum exceeded the cap |
| AddOns.ApplyCapScalesToCap | products/cost_planner_v3/add_ons.py:70-76 | after scaling, the sum is exactly the cap and every amount was multiplied by the same factor cap/sum |
| AddOns.ApplyCapLeavesAmounts | products/cost_planner_v3/add_ons.py:77-79 | within the cap, every amount and the sum are unchanged |
| AddOns.CandidateOrderAndPresence | products/cost_planner_v3/add_ons.py:41-67 | at most three items in the order fall, chronic, incontinence, each present exactly when its guard holds; incontinence only with its flag and fewer than two BADLs |
| AddOns.CandidateAmountsBounded | products/cost_planner_v3/add_ons.py:38-64 | every amount before capping is at most its ceiling of 400, 300 or 250, and with a non-negative base it lies between 0 and the cap |
| AddOns.SumConcat | products/cost_planner_v3/add_ons.py:70 | the sum of a concatenation is the sum of the sums |
| AddOns.CandidateSum | products/cost_planner_v3/add_ons.py:41-70 | with a non-negative base, the uncapped sum is the cap times the fractions of the add-ons present |
| AddOns.ProductNonNegative | products/cost_planner_v3/add_ons.py:75 | a scaled non-negative amount stays non-negative |
| AddOns.SumNonNegative | products/cost_planner_v3/add_ons.py:70 | a list of non-negative amounts has a non-negative sum |
| AddOns.ApplyCapWithinCap | products/cost_planner_v3/add_ons.py:70-79 | capping non-negative amounts against a non-negative cap never fails, drops nothing, keeps amounts non-negative, and leaves the sum within the cap |
| AddOns.AddOnTotalWithinCap | products/cost_planner_v3/add_ons.py:11-81 | with a non-negative base the add-ons never fail, keep every candidate, and are non-negative with a total of at most the cap |
| AddOns.CappedIffAllThree | products/cost_planner_v3/add_ons.py:70-79 | with a non-negative base, the cap binds exactly when all three add-ons apply and the cap is positive, and then every item is marked capped |
| Ranges.HasHighUncertainty | products/cost_planner_v3/ranges.py:76-111 | no contract of its own: the five causes of a wide range; the ensures of ConfidenceFor make it the exact condition for "low", and HighAcuityOrLiftIsLowConfidence shows two of its causes each suffice |
| Ranges.HasModerateUncertainty | products/cost_planner_v3/ranges.py:113-147 | no contract of its own: the five causes of a moderate range; the ensures of ConfidenceFor make it, without high uncertainty, the exact condition for "medium", and LoneSupervisionConfidence shows one cause alone suffices |
| Ranges.ConfidenceFor | products/cost_planner_v3/ranges.py:46-55 | high uncertainty gives "low" whatever the moderate predicate says, "low" only from it, and "medium" exactly without high and with moderate uncertainty |
| Ranges.HighAcuityOrLiftIsLowConfidence | products/cost_planner_v3/ranges.py:95-104 | high-acuity memory care or a mechanical lift always gives "low" |
| Ranges.LoneSupervisionConfidence | products/cost_planner_v3/ranges.py:107-145 | a lone continuous-supervision flag gives "low" for in-home care and "medium" for every other care type except high-acuity memory care |
| Ranges.BoundsFor | products/cost_planner_v3/ranges.py:56-60 | the likely value is the total, low and high are equally far from it by total times the percentage, and for a non-negative total 0 ≤ low ≤ likely ≤ high |
| Ranges.When | products/cost_planner_v3/ranges.py:156-189 | a guarded append adds exactly the one factor, and only when its guard holds |
| Ranges.ExtendInOrder | products/cost_planner_v3/ranges.py:152-191 | appending a factor that sorts after everything so far keeps the list in listing order |
| Ranges.HighUncertaintyFactorsInOrder | products/cost_planner_v3/ranges.py:150-168 | the wide-range factors appear at most once each, in listing order |
| Ranges.HighUncertaintyFactorsMembership | products/cost_planner_v3/ranges.py:150-168 | each wide-range factor is listed exactly when its condition holds, and no other factor is listed |
| Ranges.ModerateUncertaintyFactorsInOrder | products/cost_planner_v3/ranges.py:171-191 | the moderate-range factors appear at most once each, in listing order |
| Ranges.ModerateUncertaintyFactorsMembership | products/cost_planner_v3/ranges.py:171-191 | each moderate-range factor is listed exactly when its condition holds, and no other factor is listed |
| Ranges.GetHighUncertaintyFactors | products/cost_planner_v3/ranges.py:150-168 | appending one condition at a time gives exactly the wide-range factor list |
| Ranges.GetModerateUncertaintyFactors | products/cost_planner_v3/ranges.py:171-191 | appending one condition at a time gives exactly the moderate-range factor list |
| Ranges.UncertaintyIsExplained | products/cost_planner_v3/ranges.py:76-191 | whenever either uncertainty predicate holds, its factor list is non-empty |
| Ranges.CalculateCostRange | products/cost_planner_v3/ranges.py:11-73 | label, percentage and bounds are as specified, and the bounds depend only on total and label; the factors are the wide-range list, the moderate-range list, or the single "stable" line, by label; they are never empty and always in order; a non-negative total gives 0 ≤ low ≤ likely ≤ high |
| Calculator.ParseCareType | products/cost_planner_v3/calculator.py:56-69 | a parsed care type has the given key; parsing fails exactly for the keys the dispatcher rejects |
| Calculator.ParseCareTypeRoundTrip | products/cost_planner_v3/calculator.py:56-69 | every care type parses back from its own key |
| Calculator.BreakdownSumOfThree | products/cost_planner_v3/calculator.py:254-258 | a three-line breakdown sums to its three amounts |
| Calculator.BreakdownSumOfFour | products/cost_planner_v3/calculator.py:167-172 | a four-line breakdown sums to its four amounts |
| Calculator.FacilityRecord | products/cost_planner_v3/calculator.py:154-173 | the record's regional base is base times multiplier and its cap is computed from that base; total = regional base + increment + add-on total; the four breakdown lines sum to the total |
| Calculator.AssistedLivingTierCost | products/cost_planner_v3/calculator.py:138-173 | succeeds exactly when the add-ons do, and fails only by division by zero; base 5900, regional base, the tier's label and its scaled increment, the add-ons and their cap; total = regional base + increment + add-ons; breakdown sums to total; a non-negative multiplier always prices, non-negatively, within the cap |
| Calculator.MemoryCareTierCost | products/cost_planner_v3/calculator.py:184-219 | the same as the assisted-living path, with base 7400 and the memory-care table |
| Calculator.TierIncrementSign | products/cost_planner_v3/constants.py:64-133 | every increment of both tables is non-negative |
| Calculator.AssistedLivingCost | products/cost_planner_v3/calculator.py:130-173 | the assisted-living path prices at the tier the assisted-living cascade assigns |
| Calculator.MemoryCareCost | products/cost_planner_v3/calculator.py:176-219 | the memory-care path prices at the tier the memory-care cascade assigns |
| Calculator.HighAcuityMemoryCareCost | products/cost_planner_v3/calculator.py:222-259 | base 9400, tier "high_acuity" and increment 0; total = regional base + add-ons; three breakdown lines sum to the total; succeeds exactly when the add-ons do; a non-negative multiplier always prices |
| Calculator.HourlyBaseAsWritten | products/cost_planner_v3/calculator.py:274-345 | the keys the hourly paths look up are unknown care types, so as written each lookup fails |
| Calculator.HourlyBase | products/cost_planner_v3/constants.py:37-49 | the intended lookups give 34 for in-home care and 33 for homemaker care |
| Calculator.HourlyKeysAsWritten | products/cost_planner_v3/calculator.py:274-345 | every hourly path as written fails before pricing, while the intended lookups succeed |
| Calculator.InHomeCareCost | products/cost_planner_v3/calculator.py:262-297 | rate 34 times multiplier, 20 hours by default, monthly hours = weekly hours × 4.33, total = regional rate × monthly hours; the breakdown sums to regional rate + total |
| Calculator.HomemakerCareCost | products/cost_planner_v3/calculator.py:300-330 | the same with rate 33 and 10 hours by default |
| Calculator.RecommendedHoursPerWeek | products/cost_planner_v3/calculator.py:278 | no contract of its own: the normalised answers have no recommended-hours entry, so the lookup yields the path's default; the ensures of the three hourly paths state the resulting 20 and 10 weekly hours, and 20 full hours split equally between paid and family care |
| Calculator.HomeWithCarryCost | products/cost_planner_v3/calculator.py:333-370 | the paid hours are half of the full hours, the family hours equal the paid ones and the two sum to the full hours; rate 34; the fourth breakdown line is 0 |
| Calculator.PathCost | products/cost_planner_v3/calculator.py:56-69 | a non-negative multiplier always prices at a non-negative total; a facility record exactly for the three facility care types, with a breakdown that reconciles; failure only by division by zero |
| Calculator.AddOnsPriced | products/cost_planner_v3/calculator.py:150-151 | with a non-negative regional base the add-ons price at a total between 0 and the cap |
| Calculator.DetermineCareType | products/cost_planner_v3/calculator.py:100-127 | default "assisted_living"; the memory-care override fires exactly when assisted living overflows; memory care never falls back to assisted living; from either, high acuity is chosen exactly when the high-acuity predicate holds at the memory-care tier; any other recommendation is unchanged |
| Calculator.DetermineCareTypeIdempotent | products/cost_planner_v3/calculator.py:100-127 | escalating an already escalated care type changes nothing |
| Calculator.LiftGoesToHighAcuity | products/cost_planner_v3/calculator.py:116-125 | a mechanical lift takes a memory-care recommendation, or an overflowing assisted-living one, to high-acuity memory care |
| Calculator.EffectiveCareType | products/cost_planner_v3/calculator.py:49-53 | an explicit care type bypasses the escalation chain; otherwise the escalated recommendation over the normalised assessment is used |
| Calculator.CalculateCareCosts | products/cost_planner_v3/calculator.py:24-97 | an unknown care type is an error; a known one succeeds exactly when its path does, with the path's record, the range label, percentage and bounds, the widening factors of that label, the effective care type, the multiplier, "3.0.0" and "tier_based"; a non-negative multiplier always prices with 0 ≤ low ≤ likely ≤ high |
| Calculator.EmptyAssessmentPricesAtBase | products/cost_planner_v3/calculator.py:24-173 | an empty assessment prices as assisted living at tier 0 with no add-ons at 5900, with high confidence from 5487 to 6313 |
| HomeEquity.NetSaleProceeds | products/cost_planner_v2/utils/home_equity_helpers.py:33-55 | never negative; 0 for a home without value; otherwise at least value − mortgage − fees, and exactly what remains after those when positive |
| HomeEquity.ReverseMortgageDraw | products/cost_planner_v2/utils/home_equity_helpers.py:58-90 | never negative; 0 for a home without value; otherwise at least half the value less the mortgage, and exactly that when positive |
| HomeEquity.NetRentalIncome | products/cost_planner_v2/utils/home_equity_helpers.py:93-118 | 0 without rent; otherwise net rent plus carry is the rent after vacancy, so it may be negative |
| HomeEquity.MonthsFunded | products/cost_planner_v2/utils/home_equity_helpers.py:121-138 | 0 when care costs nothing; otherwise months times cost gives back the funds, and non-negative funds give non-negative months |
| HomeEquity.SaleYieldsAtLeastReverseDraw | products/cost_planner_v2/utils/home_equity_helpers.py:28-90 | at the default percentages, selling never yields less than a reverse mortgage |
| HomeEquity.ProceedsFallWithMortgage | products/cost_planner_v2/utils/home_equity_helpers.py:49-90 | a larger mortgage never raises the sale proceeds or the draw |
| HomeEquity.RentBelowCarryIsNegative | products/cost_planner_v2/utils/home_equity_helpers.py:109-118 | carrying costs above the rent after vacancy make the net rental income negative |
| HomeEquity.ParseStrategy | products/cost_planner_v2/utils/home_equity_helpers.py:183-199 | exactly the four strategy names are recognised, each as the strategy with that name |
| HomeEquity.KeepStrategy | products/cost_planner_v2/utils/home_equity_helpers.py:204-228 | keeping raises nothing, funds no months, and its monthly flow plus the carry is zero |
| HomeEquity.RentStrategy | products/cost_planner_v2/utils/home_equity_helpers.py:231-262 | renting raises nothing up front and pays the net rental income monthly; with a positive care cost the months funded times the cost is the net rent over the care duration, otherwise no months are funded |
| HomeEquity.SellStrategy | products/cost_planner_v2/utils/home_equity_helpers.py:265-293 | selling raises the net sale proceeds, which are non-negative, with no monthly flow; with a positive care cost the months funded times the cost is the proceeds, otherwise no months are funded |
| HomeEquity.ReverseMortgageStrategy | products/cost_planner_v2/utils/home_equity_helpers.py:296-327 | a reverse mortgage raises the non-negative draw, with no monthly flow; with a positive care cost the months funded times the cost is the draw, otherwise no months are funded |
| HomeEquity.StrategyShapes | products/cost_planner_v2/utils/home_equity_helpers.py:204-327 | keep raises 0 and costs the carry monthly; rent raises 0 up front and pays the net rent monthly; sell and reverse mortgage have no monthly flow, raise a non-negative sum and fund non-negative months, which times the cost is that sum; without a care cost nothing funds any months |
| HomeEquity.ToLower | products/cost_planner_v2/utils/home_equity_helpers.py:172-173 | lowering keeps the length and lowers each character |
| HomeEquity.ToLowerIdempotent | products/cost_planner_v2/utils/home_equity_helpers.py:172-173 | lowering twice is lowering once |
| HomeEquity.OwnershipIgnoresCase | products/cost_planner_v2/utils/home_equity_helpers.py:172-176 | an ownership text counts the same as its lowered form; "YES" and "Own" count as owning and "no" does not |
| HomeEquity.SelectionItems | products/cost_planner_v2/utils/home_equity_helpers.py:179-180 | a list selection is kept; a single name is a one-element list, and an empty name an empty one |
| HomeEquity.SelectionGivenIffItems | products/cost_planner_v2/utils/home_equity_helpers.py:179-180 | a selection is non-empty exactly when its list is |
| HomeEquity.AnalyzeHomeEquityStrategies | products/cost_planner_v2/utils/home_equity_helpers.py:141-201 | empty unless the person owns the home; otherwise the keys are exactly the recognised names in the selection, and each value is the analysis of its strategy |
| HomeEquity.TruncateToInt | products/cost_planner_v2/utils/home_equity_helpers.py:350 | conversion to an integer truncates toward zero, moving by less than one |
| HomeEquity.MonthlyHousingCost | products/cost_planner_v2/utils/home_equity_helpers.py:357-375 | the cost is the carry for an owner; for a renter, the rent when they continue or are unsure, else 0; for other housing, the contribution if there is one; 0 for any other answer |
| HomeEquity.NormalizeHomeEquityData | products/cost_planner_v2/utils/home_equity_helpers.py:330-422 | the defaults are applied and the duration is truncated; the value, mortgage, carry, rent, household contribution, local rent and care cost pass through unchanged; the housing cost is as specified; equity is value − mortgage, and the available equity its non-negative part, only for an owner of a home with value; strategies are analysed only for an owner who asked and selected some, with exactly the recognised names as keys; the has-strategies field is true exactly when strategies exist |

## Left out

- User interface, session state, file reads and logging of the surrounding
  application: these are outside the engine.
- The explanation and text helpers:
  - the whole explanations module;
  - `generate_range_explanation` and `explain_range_to_advisor`;
  - `explain_chronic_addon_logic`;
  - the add-on descriptions and reasons;
  - the breakdown and tier display strings;
  - the `considerations` lists of the strategy analyses.

  They only build text. Their labels appear as constructors.
- Scalar answers must be well typed: an answer that holds a list where the
  code reads a scalar is read as absent. Every rule compares such an answer
  with a string, so the branch taken is the same.
- `round(x, 2)` and IEEE-754 arithmetic. The model computes with exact
  reals, so rounded outputs and float error are not modelled.
- `_to_float` in `home_equity_helpers.py`: it parses strings to floats with
  a library call. The form's numbers arrive already parsed.
- `int()` of a non-finite float: it raises in the source, and reals have no
  such value.
- `products/cost_planner_v3/__init__.py`: it only re-exports names.
- The citation metadata of the base-cost table. The data sits in the table,
  but beyond the lookups' defaults no property is stated about it.
- The insertion order of the strategy map: Dafny maps are unordered, and the
  model states the key set and each value.
- Ownership that is neither a boolean nor a string, and a selection that is
  not a string or a list of strings: both are outside the analysis's
  declared types.
- A recommendation or score key that is present but holds `None`. In the
  code, `get` then returns `None` instead of the default
  (`calculator.py:113`), and an absent care type ends in the unknown-care-type
  error (`calculator.py:68-69`). The model's `Option` fields cannot tell that
  key apart from a missing one, so such an assessment is priced with the
  default, as assisted living.
- Non-numeric fields of a base-cost entry. `get_base_cost` returns whatever
  the entry holds under the key (`constants.py:181-189`), including texts
  such as `"source"`. `Constants.GetBaseCost` looks up only the numeric
  monthly and hourly fields; the citation is read by
  `Constants.GetBaseCostSource`.
- HomeEquity.ToLower: lowers ASCII letters only, where Python's `lower()` is
  Unicode-aware. All the strings compared against are ASCII.
- Ranges.LoneSupervisionConfidence: excludes high-acuity memory care, for
  which the high-uncertainty predicate always gives "low". The claim that a
  lone supervision flag gives "medium" for every care type other than
  in-home care does not hold for it.

## Findings

| source | as written | input that shows it | evidently intended | confidence | as-written member | corrected member |
|---|---|---|---|---|---|---|
| products/cost_planner_v3/calculator.py:274,308,345 | the hourly paths look up the base costs `"in_home_hourly"` and `"homemaker_hourly"`, which are not keys of the base-cost table, so every in-home, homemaker and family-support calculation raises an unknown-care-type error | care type `"in_home_care"` with any assessment and any multiplier | the `"hourly"` field of the `in_home_care` and `homemaker_services` entries, 34 and 33 | not executed | Calculator.HourlyKeysAsWritten | Calculator.HourlyBase |

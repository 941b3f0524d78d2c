/** Home-equity strategy arithmetic: sale proceeds, a reverse-mortgage draw,
    net rental income and months of care funded, the per-strategy analysis
    over a selection, and the computed fields of a normalised home-equity
    record. */
module HomeEquity {
  import opened Wrappers

  // ---------------------------------------------------------------------------
  // Arithmetic helpers
  // ---------------------------------------------------------------------------

  const DefaultSellingFeePercent: real := 0.08
  const DefaultReverseMortgagePercent: real := 0.50
  const DefaultRentalVacancyPercent: real := 0.08

  function Max(x: real, y: real): (m: real)
    ensures m >= x && m >= y && (m == x || m == y)
  {
    if x >= y then x else y
  }

  /** What selling leaves after the mortgage and the selling costs, never
      below zero; nothing for a home without value. */
  function NetSaleProceeds(homeValue: real, mortgageBalance: real, sellingFeePercent: real := DefaultSellingFeePercent)
    : (r: real)
    ensures r >= 0.0
    ensures homeValue <= 0.0 ==> r == 0.0
    ensures homeValue > 0.0 ==> r >= homeValue - mortgageBalance - homeValue * sellingFeePercent
    ensures homeValue > 0.0 && r > 0.0 ==> r + mortgageBalance + homeValue * sellingFeePercent == homeValue
  {
    if homeValue <= 0.0 then 0.0
    else
      var sellingCosts := homeValue * sellingFeePercent;
      var netProceeds := homeValue - mortgageBalance - sellingCosts;
      Max(0.0, netProceeds)
  }

  /** The part of the home's value a reverse mortgage releases after paying
      off the existing mortgage, never below zero; nothing for a home
      without value. */
  function ReverseMortgageDraw(homeValue: real, mortgageBalance: real,
                               reversePercent: real := DefaultReverseMortgagePercent): (r: real)
    ensures r >= 0.0
    ensures homeValue <= 0.0 ==> r == 0.0
    ensures homeValue > 0.0 ==> r >= homeValue * reversePercent - mortgageBalance
    ensures homeValue > 0.0 && r > 0.0 ==> r + mortgageBalance == homeValue * reversePercent
  {
    if homeValue <= 0.0 then 0.0
    else
      var maxReverse := homeValue * reversePercent;
      var availableCash := maxReverse - mortgageBalance;
      Max(0.0, availableCash)
  }

  /** The monthly rent left after vacancy and carrying costs; nothing when
      there is no rent. It is not clamped: carrying costs above the
      effective rent make it negative. */
  function NetRentalIncome(localRent: real, monthlyCarry: real, vacancyPercent: real := DefaultRentalVacancyPercent)
    : (r: real)
    ensures localRent <= 0.0 ==> r == 0.0
    ensures localRent > 0.0 ==> r + monthlyCarry == localRent * (1.0 - vacancyPercent)
  {
    if localRent <= 0.0 then 0.0
    else
      var effectiveRent := localRent * (1.0 - vacancyPercent);
      effectiveRent - monthlyCarry
  }

  /** How many months of care the funds pay for; none when care costs
      nothing. Multiplying back by the cost recovers the funds. */
  function MonthsFunded(availableFunds: real, monthlyCareCost: real): (r: real)
    ensures monthlyCareCost <= 0.0 ==> r == 0.0
    ensures monthlyCareCost > 0.0 ==> r * monthlyCareCost == availableFunds
    ensures monthlyCareCost > 0.0 && availableFunds >= 0.0 ==> r >= 0.0
  {
    if monthlyCareCost <= 0.0 then 0.0 else availableFunds / monthlyCareCost
  }

  /** At the default percentages, selling a home of positive value never
      yields less than a reverse mortgage on it. */
  lemma SaleYieldsAtLeastReverseDraw(homeValue: real, mortgageBalance: real)
    ensures NetSaleProceeds(homeValue, mortgageBalance) >= ReverseMortgageDraw(homeValue, mortgageBalance)
  {
  }

  /** A larger mortgage never raises the sale proceeds or the draw. */
  lemma ProceedsFallWithMortgage(homeValue: real, mortgage: real, larger: real)
    requires mortgage <= larger
    ensures NetSaleProceeds(homeValue, larger) <= NetSaleProceeds(homeValue, mortgage)
    ensures ReverseMortgageDraw(homeValue, larger) <= ReverseMortgageDraw(homeValue, mortgage)
  {
  }

  /** Rent below the carrying costs makes the net rental income negative. */
  lemma RentBelowCarryIsNegative(localRent: real, monthlyCarry: real)
    requires localRent > 0.0 && monthlyCarry > localRent * (1.0 - DefaultRentalVacancyPercent)
    ensures NetRentalIncome(localRent, monthlyCarry) < 0.0
  {
  }

  // ---------------------------------------------------------------------------
  // Strategies
  // ---------------------------------------------------------------------------

  /** The four strategies and the names a selection uses for them. */
  datatype Strategy = Keep | Rent | Sell | ReverseMortgage {
    function Key(): string {
      match this
      case Keep => "keep"
      case Rent => "rent"
      case Sell => "sell"
      case ReverseMortgage => "reverse_mortgage"
    }
  }

  const StrategyKeys: set<string> := {"keep", "rent", "sell", "reverse_mortgage"}

  /** The strategy a selection name stands for, if any. */
  function ParseStrategy(s: string): (r: Option<Strategy>)
    ensures r.Some? <==> s in StrategyKeys
    ensures r.Some? ==> r.value.Key() == s
  {
    if s == "keep" then Some(Keep)
    else if s == "rent" then Some(Rent)
    else if s == "sell" then Some(Sell)
    else if s == "reverse_mortgage" then Some(ReverseMortgage)
    else None
  }

  /** The facts a strategy analysis reads. */
  datatype HomeFacts = HomeFacts(
    homeValue: real,
    mortgageBalance: real,
    monthlyCarry: real,
    localRent: real,
    careCost: real,
    careDuration: int,
    returnHome: string)

  /** The numeric part of a strategy's analysis; the considerations text is
      left out. */
  datatype StrategyResult = StrategyResult(
    strategy: string,
    netProceeds: real,
    monthlyCashFlow: real,
    monthsOfCareFunded: real)

  /** Keeping the home raises nothing and costs the carrying costs monthly. */
  function KeepStrategy(f: HomeFacts): (r: StrategyResult)
    ensures r.netProceeds == 0.0 && r.monthsOfCareFunded == 0.0
    ensures r.monthlyCashFlow + f.monthlyCarry == 0.0
  {
    StrategyResult("Keep the home", 0.0, -f.monthlyCarry, 0.0)
  }

  /** Renting the home pays the net rent monthly; over the care duration it
      funds that total's months of care. */
  function RentStrategy(f: HomeFacts): (r: StrategyResult)
    ensures r.netProceeds == 0.0
    ensures r.monthlyCashFlow == NetRentalIncome(f.localRent, f.monthlyCarry)
    ensures f.careCost > 0.0 ==> r.monthsOfCareFunded * f.careCost == r.monthlyCashFlow * f.careDuration as real
    ensures f.careCost <= 0.0 ==> r.monthsOfCareFunded == 0.0
  {
    var netRent := NetRentalIncome(f.localRent, f.monthlyCarry);
    var totalRentalIncome := netRent * f.careDuration as real;
    var monthsFunded := if f.careCost > 0.0 then MonthsFunded(totalRentalIncome, f.careCost) else 0.0;
    StrategyResult("Rent the home", 0.0, netRent, monthsFunded)
  }

  /** Selling the home raises the net sale proceeds once. */
  function SellStrategy(f: HomeFacts): (r: StrategyResult)
    ensures r.netProceeds == NetSaleProceeds(f.homeValue, f.mortgageBalance) && r.netProceeds >= 0.0
    ensures r.monthlyCashFlow == 0.0 && r.monthsOfCareFunded >= 0.0
    ensures f.careCost > 0.0 ==> r.monthsOfCareFunded * f.careCost == r.netProceeds
    ensures f.careCost <= 0.0 ==> r.monthsOfCareFunded == 0.0
  {
    var netProceeds := NetSaleProceeds(f.homeValue, f.mortgageBalance);
    var monthsFunded := if f.careCost > 0.0 then MonthsFunded(netProceeds, f.careCost) else 0.0;
    StrategyResult("Sell the home", netProceeds, 0.0, monthsFunded)
  }

  /** A reverse mortgage raises the draw once. */
  function ReverseMortgageStrategy(f: HomeFacts): (r: StrategyResult)
    ensures r.netProceeds == ReverseMortgageDraw(f.homeValue, f.mortgageBalance) && r.netProceeds >= 0.0
    ensures r.monthlyCashFlow == 0.0 && r.monthsOfCareFunded >= 0.0
    ensures f.careCost > 0.0 ==> r.monthsOfCareFunded * f.careCost == r.netProceeds
    ensures f.careCost <= 0.0 ==> r.monthsOfCareFunded == 0.0
  {
    var availableCash := ReverseMortgageDraw(f.homeValue, f.mortgageBalance);
    var monthsFunded := if f.careCost > 0.0 then MonthsFunded(availableCash, f.careCost) else 0.0;
    StrategyResult("Reverse mortgage", availableCash, 0.0, monthsFunded)
  }

  /** The analysis of one strategy. */
  function AnalyzeStrategy(s: Strategy, f: HomeFacts): StrategyResult {
    match s
    case Keep => KeepStrategy(f)
    case Rent => RentStrategy(f)
    case Sell => SellStrategy(f)
    case ReverseMortgage => ReverseMortgageStrategy(f)
  }

  /** What each strategy raises: keeping raises nothing and costs the carry
      monthly; renting raises nothing up front and pays the net rent
      monthly; selling and the reverse mortgage raise a non-negative sum and
      have no monthly flow. The one-off sums fund a non-negative number of
      months, and every sum is priced in months only against a positive
      care cost. */
  lemma StrategyShapes(f: HomeFacts)
    ensures KeepStrategy(f).netProceeds == 0.0 && KeepStrategy(f).monthlyCashFlow == -f.monthlyCarry
    ensures KeepStrategy(f).monthsOfCareFunded == 0.0
    ensures RentStrategy(f).netProceeds == 0.0
    ensures RentStrategy(f).monthlyCashFlow == NetRentalIncome(f.localRent, f.monthlyCarry)
    ensures SellStrategy(f).monthlyCashFlow == 0.0 && SellStrategy(f).netProceeds >= 0.0
    ensures ReverseMortgageStrategy(f).monthlyCashFlow == 0.0 && ReverseMortgageStrategy(f).netProceeds >= 0.0
    ensures SellStrategy(f).monthsOfCareFunded >= 0.0 && ReverseMortgageStrategy(f).monthsOfCareFunded >= 0.0
    ensures f.careCost <= 0.0 ==>
              RentStrategy(f).monthsOfCareFunded == 0.0 && SellStrategy(f).monthsOfCareFunded == 0.0 &&
              ReverseMortgageStrategy(f).monthsOfCareFunded == 0.0
    ensures f.careCost > 0.0 ==>
              SellStrategy(f).monthsOfCareFunded * f.careCost == SellStrategy(f).netProceeds &&
              ReverseMortgageStrategy(f).monthsOfCareFunded * f.careCost == ReverseMortgageStrategy(f).netProceeds
  {
  }

  // ---------------------------------------------------------------------------
  // Ownership and selection
  // ---------------------------------------------------------------------------

  /** The ownership answer: a boolean or a text answer. */
  datatype Ownership = OwnsBool(owns: bool) | OwnsText(text: string)

  function LowerChar(c: char): (d: char)
    ensures 'A' <= c <= 'Z' ==> 'a' <= d <= 'z'
    ensures !('A' <= c <= 'Z') ==> d == c
  {
    if 'A' <= c <= 'Z' then (c as int - 'A' as int + 'a' as int) as char else c
  }

  /** The text with every ASCII capital letter lowered. */
  function ToLower(s: string): (r: string)
    ensures |r| == |s|
    ensures forall i :: 0 <= i < |s| ==> r[i] == LowerChar(s[i])
  {
    seq(|s|, i requires 0 <= i < |s| => LowerChar(s[i]))
  }

  /** Lowering twice is lowering once. */
  lemma ToLowerIdempotent(s: string)
    ensures ToLower(ToLower(s)) == ToLower(s)
  {
  }

  /** Whether the ownership answer counts as owning: the boolean itself, or a
      text that lowers to "yes" or "own". */
  predicate OwnsHome(o: Ownership) {
    match o
    case OwnsBool(b) => b
    case OwnsText(s) => ToLower(s) in {"yes", "own"}
  }

  /** Ownership text is read without regard to case. */
  lemma OwnershipIgnoresCase(s: string)
    ensures OwnsHome(OwnsText(s)) <==> OwnsHome(OwnsText(ToLower(s)))
    ensures OwnsHome(OwnsText("YES")) && OwnsHome(OwnsText("Own")) && !OwnsHome(OwnsText("no"))
  {
    ToLowerIdempotent(s);
    assert ToLower("YES") == "yes";
    assert ToLower("Own") == "own";
    assert ToLower("no") == "no";
  }

  /** The strategy selection: a list of names, or a single name. */
  datatype Selection = SelectionList(items: seq<string>) | SelectionScalar(name: string)

  /** The selection as a list: a single name is a one-element list, and an
      empty name an empty one. */
  function SelectionItems(sel: Selection): (r: seq<string>)
    ensures sel.SelectionList? ==> r == sel.items
    ensures sel.SelectionScalar? ==> (r == [] <==> sel.name == "")
    ensures forall x :: x in r ==> sel.SelectionList? || x == sel.name
  {
    match sel
    case SelectionList(items) => items
    case SelectionScalar(name) => if name != "" then [name] else []
  }

  /** Whether the selection is non-empty. */
  predicate SelectionGiven(sel: Selection) {
    match sel
    case SelectionList(items) => items != []
    case SelectionScalar(name) => name != ""
  }

  /** The selection is given exactly when its list is non-empty. */
  lemma SelectionGivenIffItems(sel: Selection)
    ensures SelectionGiven(sel) <==> SelectionItems(sel) != []
  {
  }

  /** Analyse every selected strategy: nothing for a person who does not own
      the home; otherwise one entry per recognised name in the selection,
      each the analysis of its strategy, whatever order or repetition the
      selection has. Unrecognised names are skipped. */
  method AnalyzeHomeEquityStrategies(ownsHome: Ownership, f: HomeFacts, selection: Selection)
    returns (results: map<string, StrategyResult>)
    ensures !OwnsHome(ownsHome) ==> results == map[]
    ensures OwnsHome(ownsHome) ==>
              forall k :: k in results <==> k in StrategyKeys && k in SelectionItems(selection)
    ensures forall k :: k in results ==> ParseStrategy(k).Some? && results[k] == AnalyzeStrategy(ParseStrategy(k).value, f)
  {
    results := map[];
    if !OwnsHome(ownsHome) {
      return;
    }
    var items := SelectionItems(selection);
    var i := 0;
    while i < |items|
      invariant 0 <= i <= |items|
      invariant forall k :: k in results <==> k in StrategyKeys && k in items[..i]
      invariant forall k :: k in results ==> ParseStrategy(k).Some? && results[k] == AnalyzeStrategy(ParseStrategy(k).value, f)
    {
      var strategy := items[i];
      if strategy == "keep" {
        results := results[strategy := KeepStrategy(f)];
      } else if strategy == "rent" {
        results := results[strategy := RentStrategy(f)];
      } else if strategy == "sell" {
        results := results[strategy := SellStrategy(f)];
      } else if strategy == "reverse_mortgage" {
        results := results[strategy := ReverseMortgageStrategy(f)];
      }
      assert items[..i + 1] == items[..i] + [strategy];
      i := i + 1;
    }
    assert items[..i] == items;
  }

  // ---------------------------------------------------------------------------
  // Normalised record
  // ---------------------------------------------------------------------------

  /** Truncation of a float toward zero, as an integer conversion does. */
  function TruncateToInt(x: real): (n: int)
    ensures x >= 0.0 ==> 0.0 <= n as real <= x < n as real + 1.0
    ensures x < 0.0 ==> n as real - 1.0 < x <= n as real <= 0.0
  {
    if x >= 0.0 then x.Floor else -((-x).Floor)
  }

  /** The raw home-equity answers, with numbers already parsed (an absent or
      unparsable number is 0) and optional answers absent when missing. */
  datatype HomeEquityForm = HomeEquityForm(
    ownsHome: Option<string>,
    homeValue: real,
    mortgageBalance: real,
    monthlyCarry: real,
    monthlyRent: real,
    householdContributionType: Option<string>,
    monthlyHouseholdContribution: real,
    localRent: real,
    careCost: real,
    careDuration: real,
    returnHome: Option<string>,
    analyzeStrategies: Option<string>,
    strategySelection: Option<Selection>,
    homePlan: Option<string>,
    rentalPlan: Option<string>)

  /** The normalised record: the answers with their defaults, and the
      computed fields. */
  datatype NormalizedHomeEquity = NormalizedHomeEquity(
    ownsHome: string,
    homeValue: real,
    mortgageBalance: real,
    monthlyCarry: real,
    monthlyRent: real,
    householdContributionType: string,
    monthlyHouseholdContribution: real,
    localRent: real,
    careCost: real,
    careDuration: int,
    returnHome: string,
    analyzeStrategies: string,
    strategySelection: Selection,
    homePlan: string,
    rentalPlan: string,
    monthlyHousingCost: real,
    homeEquity: real,
    equityAvailable: real,
    strategies: map<string, StrategyResult>,
    hasStrategies: bool)

  /** The monthly housing cost an answer set implies: the carrying costs for
      an owner; the rent for a renter who continues or is unsure, nothing
      for one ending the lease; the household contribution for other
      housing when there is one; nothing for any other answer. */
  function MonthlyHousingCost(ownsHome: string, rentalPlan: string, monthlyCarry: real, monthlyRent: real,
                              householdContributionType: string, monthlyHouseholdContribution: real): (r: real)
    ensures ownsHome == "own" ==> r == monthlyCarry
    ensures ownsHome == "rent" ==> r == (if rentalPlan in {"continue", "uncertain"} then monthlyRent else 0.0)
    ensures ownsHome == "other" ==>
              r == (if householdContributionType != "no" then monthlyHouseholdContribution else 0.0)
    ensures ownsHome !in {"own", "rent", "other"} ==> r == 0.0
  {
    if ownsHome == "own" then monthlyCarry
    else if ownsHome == "rent" then
      if rentalPlan == "continue" || rentalPlan == "uncertain" then monthlyRent else 0.0
    else if ownsHome == "other" then
      if householdContributionType != "no" then monthlyHouseholdContribution else 0.0
    else 0.0
  }

  /** Normalise the answers: apply the defaults, compute the housing cost by
      branch, the equity (only for an owner of a home with value, and never
      available below zero), and the strategies (only for an owner who asked
      for them and selected some). */
  method NormalizeHomeEquityData(data: HomeEquityForm) returns (r: NormalizedHomeEquity)
    ensures r.ownsHome == data.ownsHome.GetOr("other")
    ensures r.householdContributionType == data.householdContributionType.GetOr("no")
    ensures r.returnHome == data.returnHome.GetOr("unsure")
    ensures r.analyzeStrategies == data.analyzeStrategies.GetOr("no")
    ensures r.strategySelection == data.strategySelection.GetOr(SelectionList([]))
    ensures r.homePlan == data.homePlan.GetOr("uncertain") && r.rentalPlan == data.rentalPlan.GetOr("uncertain")
    ensures r.homeValue == data.homeValue && r.mortgageBalance == data.mortgageBalance
    ensures r.monthlyCarry == data.monthlyCarry && r.monthlyRent == data.monthlyRent
    ensures r.monthlyHouseholdContribution == data.monthlyHouseholdContribution
    ensures r.localRent == data.localRent && r.careCost == data.careCost
    ensures r.careDuration == TruncateToInt(data.careDuration)
    ensures r.monthlyHousingCost == MonthlyHousingCost(r.ownsHome, r.rentalPlan, data.monthlyCarry, data.monthlyRent,
                                                       r.householdContributionType, data.monthlyHouseholdContribution)
    ensures r.ownsHome == "own" && data.homeValue > 0.0 ==>
              r.homeEquity == data.homeValue - data.mortgageBalance &&
              r.equityAvailable == Max(0.0, data.homeValue - data.mortgageBalance)
    ensures !(r.ownsHome == "own" && data.homeValue > 0.0) ==> r.homeEquity == 0.0 && r.equityAvailable == 0.0
    ensures r.equityAvailable >= 0.0
    ensures r.hasStrategies <==> |r.strategies| > 0
    ensures !(r.ownsHome == "own" && r.analyzeStrategies == "yes" && SelectionGiven(r.strategySelection)) ==>
              r.strategies == map[]
    ensures forall k :: k in r.strategies <==>
              r.ownsHome == "own" && r.analyzeStrategies == "yes" &&
              k in StrategyKeys && k in SelectionItems(r.strategySelection)
    ensures var facts := HomeFacts(data.homeValue, data.mortgageBalance, data.monthlyCarry, data.localRent,
                                   data.careCost, r.careDuration, r.returnHome);
            forall k :: k in r.strategies ==>
              ParseStrategy(k).Some? && r.strategies[k] == AnalyzeStrategy(ParseStrategy(k).value, facts)
  {
    var ownsHome := data.ownsHome.GetOr("other");
    var householdContributionType := data.householdContributionType.GetOr("no");
    var careDuration := TruncateToInt(data.careDuration);
    var returnHome := data.returnHome.GetOr("unsure");
    var analyzeStrategies := data.analyzeStrategies.GetOr("no");
    var strategySelection := data.strategySelection.GetOr(SelectionList([]));
    var homePlan := data.homePlan.GetOr("uncertain");
    var rentalPlan := data.rentalPlan.GetOr("uncertain");

    var monthlyHousingCost := 0.0;
    if ownsHome == "own" {
      monthlyHousingCost := data.monthlyCarry;
    } else if ownsHome == "rent" {
      if rentalPlan == "continue" || rentalPlan == "uncertain" {
        monthlyHousingCost := data.monthlyRent;
      } else {
        monthlyHousingCost := 0.0;
      }
    } else if ownsHome == "other" {
      if householdContributionType != "no" {
        monthlyHousingCost := data.monthlyHouseholdContribution;
      } else {
        monthlyHousingCost := 0.0;
      }
    }

    var homeEquity := 0.0;
    var equityAvailable := 0.0;
    if ownsHome == "own" && data.homeValue > 0.0 {
      homeEquity := data.homeValue - data.mortgageBalance;
      equityAvailable := Max(0.0, homeEquity);
    }

    var strategies: map<string, StrategyResult> := map[];
    var facts := HomeFacts(data.homeValue, data.mortgageBalance, data.monthlyCarry, data.localRent,
                           data.careCost, careDuration, returnHome);
    if ownsHome == "own" && analyzeStrategies == "yes" && SelectionGiven(strategySelection) {
      assert ToLower(ownsHome) == "own";
      strategies := AnalyzeHomeEquityStrategies(OwnsText(ownsHome), facts, strategySelection);
    } else if ownsHome == "own" && analyzeStrategies == "yes" {
      SelectionGivenIffItems(strategySelection);
    }

    r := NormalizedHomeEquity(
      ownsHome, data.homeValue, data.mortgageBalance, data.monthlyCarry, data.monthlyRent,
      householdContributionType, data.monthlyHouseholdContribution, data.localRent, data.careCost,
      careDuration, returnHome, analyzeStrategies, strategySelection, homePlan, rentalPlan,
      monthlyHousingCost, homeEquity, equityAvailable, strategies, |strategies| > 0);
  }
}

/** Capped secondary cost add-ons: fall prevention, chronic-condition
    management and incontinence care, each a fraction of the per-call cap,
    scaled down together when their sum exceeds the cap. */
module AddOns {
  import opened Wrappers
  import opened Errors
  import opened Constants
  import opened TierAssignment

  /** The three add-ons, in the order they are listed. The chronic add-on
      keeps the condition count its reason line reports. */
  datatype AddOnKind = FallPrevention | ChronicConditionManagement(conditionCount: nat) | IncontinenceCare {
    /** Position in the fixed listing order. */
    function Position(): nat {
      match this
      case FallPrevention => 0
      case ChronicConditionManagement(_) => 1
      case IncontinenceCare => 2
    }

    /** The fixed dollar ceiling of the add-on before capping. */
    function Ceiling(): real {
      match this
      case FallPrevention => 400.0
      case ChronicConditionManagement(_) => 300.0
      case IncontinenceCare => 250.0
    }
  }

  /** One add-on line; `capped` is set by the capping pass. */
  datatype AddOn = AddOn(kind: AddOnKind, amount: real, capped: bool)

  function Min(x: real, y: real): (m: real)
    ensures m <= x && m <= y && (m == x || m == y)
  {
    if x <= y then x else y
  }

  /** The per-call add-on cap: 15% of the regional base, at most $800. */
  function AddOnCap(regionalBase: real): (cap: real)
    ensures cap <= MaxAddonAbsolute && cap <= regionalBase * MaxAddonPct
    ensures cap == MaxAddonAbsolute || cap == regionalBase * MaxAddonPct
    ensures regionalBase >= 0.0 ==> cap >= 0.0
  {
    Min(MaxAddonAbsolute, regionalBase * MaxAddonPct)
  }

  const HighImpactConditions: set<string> := {"parkinsons", "copd", "heart_disease", "stroke"}

  /** How many list entries (duplicates included) are high-impact conditions. */
  function CountHighImpact(xs: seq<string>): (n: nat)
    ensures n <= |xs|
    ensures n > 0 <==> exists c :: c in xs && c in HighImpactConditions
  {
    if xs == [] then 0
    else B(xs[0] in HighImpactConditions) + CountHighImpact(xs[1..])
  }

  /** Whether the chronic conditions materially affect care and justify the
      chronic add-on. */
  predicate ShouldApplyChronicAddOn(flags: set<string>, a: Answers)
    ensures a.chronicConditions == [] ==> !ShouldApplyChronicAddOn(flags, a)
    ensures CountHighImpact(a.chronicConditions) >= 2 ==> ShouldApplyChronicAddOn(flags, a)
    ensures ShouldApplyChronicAddOn(flags, a) ==> |a.chronicConditions| >= 2 || a.badlsCount >= 1
  {
    var chronic := a.chronicConditions;
    var chronicCount := |chronic|;
    if chronicCount == 0 then false
    else if chronicCount >= 3 && IsModerateOrComplex(a.medsComplexity) then true
    else if chronicCount >= 2 && "falls_multiple" in flags then true
    else if (exists c :: c in HighImpactConditions && c in chronic) && a.badlsCount >= 1 then true
    else CountHighImpact(chronic) >= 2
  }

  /** Whether the incontinence add-on applies: the flag is present and the
      BADL count has not already pushed the tier up. */
  predicate IncontinenceAddOnApplies(flags: set<string>, a: Answers) {
    "incontinence_management" in flags && a.badlsCount < 2
  }

  /** The fall-prevention candidate: present with the multiple-falls flag. */
  function FallCandidate(flags: set<string>, maxAddon: real): seq<AddOn> {
    if "falls_multiple" in flags
    then [AddOn(FallPrevention, Min(400.0, maxAddon * AddonAmounts["fall_monitoring"]), false)]
    else []
  }

  /** The chronic-condition candidate: present when the chronic rule fires. */
  function ChronicCandidate(flags: set<string>, a: Answers, maxAddon: real): seq<AddOn> {
    if ShouldApplyChronicAddOn(flags, a)
    then [AddOn(ChronicConditionManagement(|a.chronicConditions|),
                Min(300.0, maxAddon * AddonAmounts["chronic_complexity"]), false)]
    else []
  }

  /** The incontinence candidate. */
  function IncontinenceCandidate(flags: set<string>, a: Answers, maxAddon: real): seq<AddOn> {
    if IncontinenceAddOnApplies(flags, a)
    then [AddOn(IncontinenceCare, Min(250.0, maxAddon * AddonAmounts["incontinence_care"]), false)]
    else []
  }

  /** The add-ons before capping, in the order fall, chronic, incontinence,
      each at its fraction of the cap and at most its ceiling. */
  function CandidateAddOns(flags: set<string>, a: Answers, regionalBase: real): (r: seq<AddOn>)
    ensures |r| <= 3
    ensures forall i :: 0 <= i < |r| ==> !r[i].capped
  {
    var maxAddon := AddOnCap(regionalBase);
    FallCandidate(flags, maxAddon) + ChronicCandidate(flags, a, maxAddon) + IncontinenceCandidate(flags, a, maxAddon)
  }

  /** The sum of the amounts. */
  function SumAmounts(items: seq<AddOn>): real {
    if items == [] then 0.0 else items[0].amount + SumAmounts(items[1..])
  }

  /** Every amount multiplied by `factor`, every item marked capped. */
  function Scaled(items: seq<AddOn>, factor: real): (r: seq<AddOn>)
    ensures |r| == |items|
  {
    seq(|items|, i requires 0 <= i < |items| => items[i].(amount := items[i].amount * factor, capped := true))
  }

  /** Every item marked not capped, amounts unchanged. */
  function Uncapped(items: seq<AddOn>): (r: seq<AddOn>)
    ensures |r| == |items|
  {
    seq(|items|, i requires 0 <= i < |items| => items[i].(capped := false))
  }

  /** The capping pass: when the sum exceeds the cap, scale every amount by
      cap/sum (a zero sum there is a division by zero), otherwise leave the
      amounts and mark nothing capped. */
  function ApplyCap(items: seq<AddOn>, cap: real): (r: Result<seq<AddOn>, Error>)
    ensures r.Success? ==> |r.value| == |items|
    ensures r.Failure? ==> r.error == DivisionByZero && cap < 0.0
  {
    var total := SumAmounts(items);
    if total > cap then
      if total == 0.0 then Failure(DivisionByZero) else Success(Scaled(items, cap / total))
    else Success(Uncapped(items))
  }

  /** The add-ons of one calculation. */
  function AddOnsFor(flags: set<string>, a: Answers, regionalBase: real): (r: Result<seq<AddOn>, Error>)
    ensures r.Failure? ==> r.error == DivisionByZero && regionalBase < 0.0
  {
    ApplyCap(CandidateAddOns(flags, a, regionalBase), AddOnCap(regionalBase))
  }

  /** Build the add-on list by appending fall, chronic and incontinence in
      turn, then run the capping pass over it. The care type is accepted and
      not used, so the result is the same for every care type. */
  method CalculateAddOns(careType: string, flags: set<string>, a: Answers, regionalBase: real)
    returns (r: Result<seq<AddOn>, Error>)
    ensures r == AddOnsFor(flags, a, regionalBase)
    ensures regionalBase >= 0.0 ==> r.Success? && SumAmounts(r.value) <= AddOnCap(regionalBase)
  {
    var addOns: seq<AddOn> := [];
    var maxAddon := Min(MaxAddonAbsolute, regionalBase * MaxAddonPct);
    if "falls_multiple" in flags {
      addOns := addOns + [AddOn(FallPrevention, Min(400.0, maxAddon * AddonAmounts["fall_monitoring"]), false)];
    }
    assert addOns == FallCandidate(flags, maxAddon);
    if ShouldApplyChronicAddOn(flags, a) {
      var chronicCount := |a.chronicConditions|;
      addOns := addOns + [AddOn(ChronicConditionManagement(chronicCount),
                                Min(300.0, maxAddon * AddonAmounts["chronic_complexity"]), false)];
    }
    assert addOns == FallCandidate(flags, maxAddon) + ChronicCandidate(flags, a, maxAddon);
    var badlsCount := a.badlsCount;
    if "incontinence_management" in flags && badlsCount < 2 {
      addOns := addOns + [AddOn(IncontinenceCare, Min(250.0, maxAddon * AddonAmounts["incontinence_care"]), false)];
    }
    assert addOns == CandidateAddOns(flags, a, regionalBase);
    r := CapAddOnsInPlace(addOns, maxAddon);
    if regionalBase >= 0.0 {
      AddOnTotalWithinCap(flags, a, regionalBase);
    }
  }

  /** The capping pass over a built list: sum the amounts, and rewrite every
      item's amount and capped flag in place, one index at a time. */
  method CapAddOnsInPlace(items: seq<AddOn>, maxAddon: real) returns (r: Result<seq<AddOn>, Error>)
    ensures r == ApplyCap(items, maxAddon)
  {
    var addOns := items;
    var totalAddons := SumAmounts(addOns);
    var i := 0;
    if totalAddons > maxAddon {
      if totalAddons == 0.0 {
        return Failure(DivisionByZero);
      }
      var scaleFactor := maxAddon / totalAddons;
      while i < |addOns|
        invariant 0 <= i <= |addOns| == |items|
        invariant forall k :: 0 <= k < i ==>
                    addOns[k] == items[k].(amount := items[k].amount * scaleFactor, capped := true)
        invariant forall k :: i <= k < |addOns| ==> addOns[k] == items[k]
      {
        addOns := addOns[i := addOns[i].(amount := addOns[i].amount * scaleFactor, capped := true)];
        i := i + 1;
      }
      assert forall k :: 0 <= k < |addOns| ==> addOns[k] == Scaled(items, scaleFactor)[k];
      assert addOns == Scaled(items, scaleFactor);
    } else {
      while i < |addOns|
        invariant 0 <= i <= |addOns| == |items|
        invariant forall k :: 0 <= k < i ==> addOns[k] == items[k].(capped := false)
        invariant forall k :: i <= k < |addOns| ==> addOns[k] == items[k]
      {
        addOns := addOns[i := addOns[i].(capped := false)];
        i := i + 1;
      }
      assert forall k :: 0 <= k < |addOns| ==> addOns[k] == Uncapped(items)[k];
      assert addOns == Uncapped(items);
    }
    r := Success(addOns);
  }

  // ---------------------------------------------------------------------------
  // Properties
  // ---------------------------------------------------------------------------

  lemma {:induction false} SumScaled(items: seq<AddOn>, factor: real)
    ensures SumAmounts(Scaled(items, factor)) == factor * SumAmounts(items)
  {
    if items != [] {
      assert forall k :: 0 <= k < |items| - 1 ==> Scaled(items, factor)[1..][k] == Scaled(items[1..], factor)[k];
      assert Scaled(items, factor)[1..] == Scaled(items[1..], factor);
      SumScaled(items[1..], factor);
    }
  }

  lemma {:induction false} SumUncapped(items: seq<AddOn>)
    ensures SumAmounts(Uncapped(items)) == SumAmounts(items)
  {
    if items != [] {
      assert forall k :: 0 <= k < |items| - 1 ==> Uncapped(items)[1..][k] == Uncapped(items[1..])[k];
      assert Uncapped(items)[1..] == Uncapped(items[1..]);
      SumUncapped(items[1..]);
    }
  }

  /** The capping pass never drops or reorders an item and marks all items
      alike: capped exactly when the sum exceeded the cap. */
  lemma ApplyCapKeepsItems(items: seq<AddOn>, cap: real)
    requires ApplyCap(items, cap).Success?
    ensures var r := ApplyCap(items, cap).value;
            |r| == |items| &&
            forall i :: 0 <= i < |r| ==>
              r[i].kind == items[i].kind && (r[i].capped <==> SumAmounts(items) > cap)
  {
  }

  /** When the sum exceeded the cap, every amount is multiplied by the same
      factor cap/sum, and the new sum is exactly the cap. */
  lemma ApplyCapScalesToCap(items: seq<AddOn>, cap: real)
    requires SumAmounts(items) > cap && SumAmounts(items) != 0.0
    ensures var r := ApplyCap(items, cap).value;
            SumAmounts(r) == cap &&
            forall i :: 0 <= i < |r| ==> r[i].amount == items[i].amount * (cap / SumAmounts(items))
  {
    SumScaled(items, cap / SumAmounts(items));
  }

  /** When the sum is within the cap, the amounts are left as they were. */
  lemma ApplyCapLeavesAmounts(items: seq<AddOn>, cap: real)
    requires SumAmounts(items) <= cap
    ensures var r := ApplyCap(items, cap).value;
            SumAmounts(r) == SumAmounts(items) &&
            forall i :: 0 <= i < |r| ==> r[i].amount == items[i].amount
  {
    SumUncapped(items);
  }

  /** The candidates appear in the order fall, chronic, incontinence, each
      exactly when its guard holds; incontinence in particular only with the
      flag and fewer than two BADLs. */
  lemma CandidateOrderAndPresence(flags: set<string>, a: Answers, regionalBase: real)
    ensures var c := CandidateAddOns(flags, a, regionalBase);
            |c| <= 3 &&
            ((exists i :: 0 <= i < |c| && c[i].kind == FallPrevention) <==> "falls_multiple" in flags) &&
            ((exists i :: 0 <= i < |c| && c[i].kind.ChronicConditionManagement?) <==> ShouldApplyChronicAddOn(flags, a)) &&
            ((exists i :: 0 <= i < |c| && c[i].kind == IncontinenceCare) <==>
               "incontinence_management" in flags && a.badlsCount < 2) &&
            (forall i, j :: 0 <= i < j < |c| ==> c[i].kind.Position() < c[j].kind.Position())
  {
    var c := CandidateAddOns(flags, a, regionalBase);
    var fall := "falls_multiple" in flags;
    var chronic := ShouldApplyChronicAddOn(flags, a);
    var inc := IncontinenceAddOnApplies(flags, a);
    // Name the index each present candidate sits at.
    if fall { assert c[0].kind == FallPrevention; }
    if chronic { assert c[B(fall)].kind.ChronicConditionManagement?; }
    if inc { assert c[B(fall) + B(chronic)].kind == IncontinenceCare; }
  }

  /** Before capping every amount is at most its fixed ceiling, and with a
      non-negative regional base it is between 0 and the cap. */
  lemma CandidateAmountsBounded(flags: set<string>, a: Answers, regionalBase: real)
    ensures var c := CandidateAddOns(flags, a, regionalBase);
            forall i :: 0 <= i < |c| ==>
              c[i].amount <= c[i].kind.Ceiling() &&
              (regionalBase >= 0.0 ==> 0.0 <= c[i].amount <= AddOnCap(regionalBase))
  {
  }

  lemma {:induction false} SumConcat(xs: seq<AddOn>, ys: seq<AddOn>)
    ensures SumAmounts(xs + ys) == SumAmounts(xs) + SumAmounts(ys)
  {
    if xs != [] {
      assert (xs + ys)[0] == xs[0];
      assert (xs + ys)[1..] == xs[1..] + ys;
      SumConcat(xs[1..], ys);
      assert SumAmounts(xs + ys) == xs[0].amount + SumAmounts(xs[1..] + ys);
    } else {
      assert xs + ys == ys;
    }
  }

  /** With a non-negative regional base each candidate is exactly its
      fraction of the cap (its ceiling never binds, since the cap is at most
      $800), so the candidates sum to the cap times the fractions present. */
  lemma CandidateSum(flags: set<string>, a: Answers, regionalBase: real)
    requires regionalBase >= 0.0
    ensures SumAmounts(CandidateAddOns(flags, a, regionalBase)) ==
              (if "falls_multiple" in flags then AddOnCap(regionalBase) * 0.5 else 0.0) +
              (if ShouldApplyChronicAddOn(flags, a) then AddOnCap(regionalBase) * 0.375 else 0.0) +
              (if IncontinenceAddOnApplies(flags, a) then AddOnCap(regionalBase) * 0.3125 else 0.0)
  {
    var cap := AddOnCap(regionalBase);
    var f, c, i := FallCandidate(flags, cap), ChronicCandidate(flags, a, cap), IncontinenceCandidate(flags, a, cap);
    SumConcat(f, c);
    SumConcat(f + c, i);
    assert SumAmounts(f) == if "falls_multiple" in flags then cap * 0.5 else 0.0;
    assert SumAmounts(c) == if ShouldApplyChronicAddOn(flags, a) then cap * 0.375 else 0.0;
    assert SumAmounts(i) == if IncontinenceAddOnApplies(flags, a) then cap * 0.3125 else 0.0;
  }

  lemma ProductNonNegative(x: real, y: real)
    requires x >= 0.0 && y >= 0.0
    ensures x * y >= 0.0
  {
  }

  lemma {:induction false} SumNonNegative(items: seq<AddOn>)
    requires forall i :: 0 <= i < |items| ==> items[i].amount >= 0.0
    ensures SumAmounts(items) >= 0.0
  {
    if items != [] {
      SumNonNegative(items[1..]);
    }
  }

  /** Capping a list of non-negative amounts against a non-negative cap
      never fails, keeps every item, keeps amounts non-negative, and leaves
      a total within the cap. */
  lemma ApplyCapWithinCap(items: seq<AddOn>, cap: real)
    requires cap >= 0.0
    requires forall i :: 0 <= i < |items| ==> items[i].amount >= 0.0
    ensures ApplyCap(items, cap).Success?
    ensures var r := ApplyCap(items, cap).value;
            |r| == |items| && SumAmounts(r) <= cap &&
            forall i :: 0 <= i < |r| ==> r[i].kind == items[i].kind && r[i].amount >= 0.0
  {
    var total := SumAmounts(items);
    SumNonNegative(items);
    ApplyCapKeepsItems(items, cap);
    if total > cap {
      ApplyCapScalesToCap(items, cap);
      var r := ApplyCap(items, cap).value;
      var factor := cap / total;
      assert factor >= 0.0;
      forall i | 0 <= i < |r| ensures r[i].amount >= 0.0 {
        ProductNonNegative(items[i].amount, factor);
      }
    } else {
      ApplyCapLeavesAmounts(items, cap);
    }
  }

  /** With a non-negative regional base the add-ons never fail, never go
      negative, keep every candidate, and total at most the cap. */
  lemma AddOnTotalWithinCap(flags: set<string>, a: Answers, regionalBase: real)
    requires regionalBase >= 0.0
    ensures var c := CandidateAddOns(flags, a, regionalBase);
            var r := AddOnsFor(flags, a, regionalBase);
            r.Success? && |r.value| == |c| && SumAmounts(r.value) <= AddOnCap(regionalBase) &&
            forall i :: 0 <= i < |r.value| ==> r.value[i].kind == c[i].kind && r.value[i].amount >= 0.0
  {
    CandidateAmountsBounded(flags, a, regionalBase);
    ApplyCapWithinCap(CandidateAddOns(flags, a, regionalBase), AddOnCap(regionalBase));
  }

  /** With a non-negative regional base, capping happens exactly when all
      three add-ons apply and the cap is positive, and then every item is
      marked capped; otherwise none is. */
  lemma CappedIffAllThree(flags: set<string>, a: Answers, regionalBase: real)
    requires regionalBase >= 0.0
    ensures var c := CandidateAddOns(flags, a, regionalBase);
            var allThree := "falls_multiple" in flags && ShouldApplyChronicAddOn(flags, a) &&
                            IncontinenceAddOnApplies(flags, a);
            (SumAmounts(c) > AddOnCap(regionalBase) <==> allThree && AddOnCap(regionalBase) > 0.0) &&
            forall i :: 0 <= i < |c| ==>
              (AddOnsFor(flags, a, regionalBase).value[i].capped <==> allThree && AddOnCap(regionalBase) > 0.0)
  {
    var c := CandidateAddOns(flags, a, regionalBase);
    CandidateSum(flags, a, regionalBase);
    AddOnTotalWithinCap(flags, a, regionalBase);
    ApplyCapKeepsItems(c, AddOnCap(regionalBase));
  }
}

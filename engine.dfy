/** The ROI calculation: a pure function from the fourteen inputs the calculation
    effect depends on to the results record, with the identities it satisfies. */
module Engine {
  import opened Fields
  import opened Tables

  /** Payback in months; `Never` stands for JavaScript's `Infinity`. */
  datatype Payback = Never | Months(months: real)

  /** Annual ROI in percent; `Unbounded` stands for JavaScript's `Infinity`. */
  datatype Roi = Unbounded | Pct(pct: real)

  /** The dependencies of the calculation effect. The ten numeric fields hold
      whatever the form stored; the three AI costs are set by tier selection. */
  datatype Inputs = Inputs(
    businessHourCalls: Value,
    afterHourCalls: Value,
    missedBusinessHourCalls: Value,
    avgCallDuration: Value,
    daysOpen: string,
    avgLeadValue: Value,
    conversionRate: Value,
    salesCallPercentage: Value,
    humanHourlyWage: Value,
    humanHoursPerWeek: Value,
    humanOverheadPercentage: Value,
    aiSetupFee: real,
    aiSubscriptionCost: real,
    aiPerMinuteCost: real)

  datatype Results = Results(
    totalCalls: real,
    missedCalls: real,
    salesMissedCalls: real,
    totalMinutes: real,
    aiBaseCost: real,
    aiMinuteCost: real,
    aiSetupFee: real,
    aiTotalMonthlyCost: real,
    potentialRevenue: real,
    aiSetupFeeMonthly: real,
    aiTotalCostWithSetup: real,
    humanCost: real,
    costSavings: real,
    netBenefit: real,
    paybackPeriod: Payback,
    yearlyCostSavings: real,
    yearlyPotentialRevenue: real,
    yearlyNetBenefit: real,
    firstYearNetReturn: real,
    firstYearRevenueVsAiCost: real,
    annualRoi: Roi,
    enhanceMonthlyNetGain: real,
    enhancePaybackPeriod: Payback)

  /** Working days per month: a fixed table, and 30 for any mode it does not name. */
  function DaysPerMonth(daysOpen: string): (d: nat)
    ensures d == 22 <==> daysOpen == "weekdays"
    ensures d == 26 <==> daysOpen == "sixdays"
    ensures d == 30 <==> daysOpen != "weekdays" && daysOpen != "sixdays"
  {
    if daysOpen == "weekdays" then 22 else if daysOpen == "sixdays" then 26 else 30
  }

  /** `setupFee / gain` months when the monthly gain is positive, otherwise never. */
  function PaybackFor(setupFee: real, gain: real): (p: Payback)
    ensures p.Never? <==> gain <= 0.0
    ensures p.Months? ==> p.months * gain == setupFee
    ensures p.Months? ==> (p.months == 0.0 <==> setupFee == 0.0)
    ensures p.Months? && setupFee >= 0.0 ==> p.months >= 0.0
  {
    if gain > 0.0 then Months(setupFee / gain) else Never
  }

  /** Monthly cost of the human receptionist: the weekly wage bill over 52 weeks,
      spread over 12 months, plus the overhead percentage. */
  function HumanMonthlyCost(hourlyWage: real, hoursPerWeek: real, overheadPercentage: real): real {
    var weeklyWageCost := hourlyWage * hoursPerWeek;
    var yearlyWageCost := weeklyWageCost * 52.0;
    var monthlyWageCost := yearlyWageCost / 12.0;
    monthlyWageCost * (1.0 + overheadPercentage / 100.0)
  }

  /** Calls per month: business-hour calls on every open day, after-hours calls on 30. */
  function MonthlyCalls(perDay: real, afterHourCalls: real, daysOpen: string): real {
    perDay * DaysPerMonth(daysOpen) as real + afterHourCalls * 30.0
  }

  /** Potential monthly revenue of the missed calls that are sales calls. */
  function PotentialRevenue(missedCalls: real, salesCallPercentage: real, avgLeadValue: real, conversionRate: real): real {
    var salesMissedCalls := missedCalls * (salesCallPercentage / 100.0);
    var valuePerCall := avgLeadValue * (conversionRate / 100.0);
    salesMissedCalls * valuePerCall
  }

  /** ROI of the first year: `Infinity` (unbounded) with no positive investment but a
      positive benefit. */
  function AnnualRoi(yearlyNetBenefit: real, investment: real): Roi {
    if investment > 0.0 then Pct(yearlyNetBenefit / investment * 100.0)
    else if yearlyNetBenefit > 0.0 then Unbounded
    else Pct(0.0)
  }

  /** The calculation effect: every numeric input coerced by `Number(x) || 0`,
      then the calculation block. */
  function Calculate(i: Inputs): Results {
    Compute(
      NumberOr0(i.businessHourCalls), NumberOr0(i.afterHourCalls), NumberOr0(i.missedBusinessHourCalls),
      NumberOr0(i.avgCallDuration), NumberOr0(i.salesCallPercentage), NumberOr0(i.avgLeadValue),
      NumberOr0(i.conversionRate), NumberOr0(i.humanHourlyWage), NumberOr0(i.humanHoursPerWeek),
      NumberOr0(i.humanOverheadPercentage),
      i.daysOpen, i.aiSetupFee, i.aiSubscriptionCost, i.aiPerMinuteCost)
  }

  /** The calculation block on the coerced numbers, expression by expression. */
  function Compute(
    businessHourCalls: real, afterHourCalls: real, missedBusinessHourCalls: real,
    avgCallDuration: real, salesCallPercentage: real, avgLeadValue: real, conversionRate: real,
    humanHourlyWage: real, humanHoursPerWeek: real, humanOverheadPercentage: real,
    daysOpen: string, aiSetupFee: real, aiSubscriptionCost: real, aiPerMinuteCost: real): Results
  {
    var humanCost := HumanMonthlyCost(humanHourlyWage, humanHoursPerWeek, humanOverheadPercentage);

    var totalCalls := MonthlyCalls(businessHourCalls, afterHourCalls, daysOpen);
    var missedCalls := MonthlyCalls(missedBusinessHourCalls, afterHourCalls, daysOpen);
    var totalMinutes := totalCalls * avgCallDuration;

    var salesMissedCalls := missedCalls * (salesCallPercentage / 100.0);
    var potentialRevenue := PotentialRevenue(missedCalls, salesCallPercentage, avgLeadValue, conversionRate);

    var aiBaseCost := aiSubscriptionCost;
    var aiMinuteCost := totalMinutes * aiPerMinuteCost;
    var aiTotalMonthlyCost := aiBaseCost + aiMinuteCost;

    var aiSetupFeeMonthly := aiSetupFee / 12.0;
    var aiTotalCostWithSetup := aiTotalMonthlyCost + aiSetupFeeMonthly;
    var costSavings := humanCost - aiTotalCostWithSetup;
    var netBenefit := costSavings + potentialRevenue;
    var yearlyCostSavings := (humanCost - aiTotalMonthlyCost) * 12.0;
    var yearlyPotentialRevenue := potentialRevenue * 12.0;
    var yearlyNetBenefit := yearlyCostSavings + yearlyPotentialRevenue;
    var annualOperationalGain := (humanCost - aiTotalMonthlyCost + potentialRevenue) * 12.0;
    var investment := aiTotalMonthlyCost * 12.0 + aiSetupFee;

    var enhanceMonthlyNetGain := potentialRevenue - aiTotalMonthlyCost;

    Results(
      totalCalls, missedCalls, salesMissedCalls, totalMinutes,
      aiBaseCost, aiMinuteCost, aiSetupFee, aiTotalMonthlyCost,
      potentialRevenue,
      aiSetupFeeMonthly, aiTotalCostWithSetup, humanCost,
      costSavings, netBenefit, PaybackFor(aiSetupFee, netBenefit),
      yearlyCostSavings, yearlyPotentialRevenue, yearlyNetBenefit,
      annualOperationalGain - aiSetupFee,
      yearlyPotentialRevenue - investment, AnnualRoi(yearlyNetBenefit, investment),
      enhanceMonthlyNetGain, PaybackFor(aiSetupFee, enhanceMonthlyNetGain))
  }

  /** The first-year AI investment: twelve months of recurring cost plus the setup fee. */
  function Investment(r: Results): real {
    r.aiTotalMonthlyCost * 12.0 + r.aiSetupFee
  }

  // ---------------------------------------------------------------------------
  // Call volumes

  /** Business-hour calls are counted per open day, after-hours calls on all 30
      days and all of them as missed: the answered calls are exactly the
      business-hour calls that were not missed. */
  lemma AfterHoursCallsAllMissed(i: Inputs)
    ensures var r := Calculate(i);
      r.totalCalls - r.missedCalls
        == (NumberOr0(i.businessHourCalls) - NumberOr0(i.missedBusinessHourCalls)) * DaysPerMonth(i.daysOpen) as real
  {
  }

  lemma DaysOpenAffectsBusinessHoursOnly(i: Inputs, mode: string)
    ensures var r, r' := Calculate(i), Calculate(i.(daysOpen := mode));
      var delta := DaysPerMonth(mode) as real - DaysPerMonth(i.daysOpen) as real;
      && r'.totalCalls - r.totalCalls == NumberOr0(i.businessHourCalls) * delta
      && r'.missedCalls - r.missedCalls == NumberOr0(i.missedBusinessHourCalls) * delta
  {
    var j := i.(daysOpen := mode);
    CallsOf(i);
    CallsOf(j);
    var b, m, a := NumberOr0(i.businessHourCalls), NumberOr0(i.missedBusinessHourCalls), NumberOr0(i.afterHourCalls);
    assert NumberOr0(j.businessHourCalls) == b && NumberOr0(j.missedBusinessHourCalls) == m && NumberOr0(j.afterHourCalls) == a;
    MonthlyCallsShift(b, a, i.daysOpen, mode);
    MonthlyCallsShift(m, a, i.daysOpen, mode);
  }

  lemma CallsOf(i: Inputs)
    ensures Calculate(i).totalCalls == MonthlyCalls(NumberOr0(i.businessHourCalls), NumberOr0(i.afterHourCalls), i.daysOpen)
    ensures Calculate(i).missedCalls == MonthlyCalls(NumberOr0(i.missedBusinessHourCalls), NumberOr0(i.afterHourCalls), i.daysOpen)
  {
  }

  lemma MonthlyCallsShift(perDay: real, afterHourCalls: real, d: string, d': string)
    ensures MonthlyCalls(perDay, afterHourCalls, d') - MonthlyCalls(perDay, afterHourCalls, d)
         == perDay * (DaysPerMonth(d') as real - DaysPerMonth(d) as real)
  {
  }

  /** With every call volume 0 (typed as 0, or NaN or blank text coerced to 0) there are
      no calls, no minutes, no revenue and no usage cost; the AI costs only its
      subscription. */
  lemma ZeroVolumesGiveZeroResults(i: Inputs)
    requires NumberOr0(i.businessHourCalls) == 0.0
    requires NumberOr0(i.afterHourCalls) == 0.0
    requires NumberOr0(i.missedBusinessHourCalls) == 0.0
    ensures var r := Calculate(i);
      && r.totalCalls == 0.0 && r.missedCalls == 0.0 && r.totalMinutes == 0.0
      && r.salesMissedCalls == 0.0 && r.potentialRevenue == 0.0
      && r.aiMinuteCost == 0.0 && r.aiTotalMonthlyCost == i.aiSubscriptionCost
      && r.enhanceMonthlyNetGain == -i.aiSubscriptionCost
  {
  }

  // ---------------------------------------------------------------------------
  // Replace scenario

  /** The first-year monthly cost spreads the setup fee over twelve months; the
      yearly figures use the recurring cost only, so the yearly net benefit exceeds
      twelve monthly net benefits by exactly the setup fee, and the first-year net
      return equals twelve monthly net benefits. */
  lemma AnnualFiguresUseRecurringCost(i: Inputs)
    ensures var r := Calculate(i);
      && r.aiTotalCostWithSetup == r.aiTotalMonthlyCost + i.aiSetupFee / 12.0
      && r.netBenefit == r.humanCost - r.aiTotalCostWithSetup + r.potentialRevenue
      && r.yearlyNetBenefit == 12.0 * (r.humanCost - r.aiTotalMonthlyCost + r.potentialRevenue)
      && r.yearlyNetBenefit == 12.0 * r.netBenefit + i.aiSetupFee
      && r.firstYearNetReturn == r.yearlyNetBenefit - i.aiSetupFee
      && r.firstYearNetReturn == 12.0 * r.netBenefit
      && r.yearlyCostSavings == 12.0 * r.costSavings + i.aiSetupFee
      && r.yearlyPotentialRevenue == 12.0 * r.potentialRevenue
  {
  }

  /** The human cost is the yearly wage bill (52 weeks) spread over 12 months plus
      the overhead percentage of it; it depends on nothing else. */
  lemma HumanCostFromWages(i: Inputs)
    ensures var wage, hours, overhead :=
        NumberOr0(i.humanHourlyWage), NumberOr0(i.humanHoursPerWeek), NumberOr0(i.humanOverheadPercentage);
      Calculate(i).humanCost * 12.0 == wage * hours * 52.0 * (1.0 + overhead / 100.0)
  {
  }

  /** Payback: `Never` exactly when the monthly net benefit is not positive; otherwise
      the number of months after which the benefit has covered the setup fee, which
      is 0 exactly when there is no setup fee. */
  lemma PaybackSentinels(i: Inputs)
    ensures var r := Calculate(i);
      && (r.paybackPeriod.Never? <==> r.netBenefit <= 0.0)
      && (r.paybackPeriod.Months? ==> r.paybackPeriod.months * r.netBenefit == i.aiSetupFee)
      && (r.paybackPeriod.Months? ==> (r.paybackPeriod.months == 0.0 <==> i.aiSetupFee == 0.0))
  {
  }

  /** Annual ROI relates the yearly net benefit to the first-year investment when
      that is positive; otherwise it is unbounded for a positive benefit and 0
      for any other. */
  lemma AnnualRoiCases(i: Inputs)
    ensures var r := Calculate(i);
      var investment := Investment(r);
      && investment == 12.0 * r.aiTotalMonthlyCost + i.aiSetupFee
      && r.firstYearRevenueVsAiCost == r.yearlyPotentialRevenue - investment
      && (investment > 0.0 ==> r.annualRoi.Pct? && r.annualRoi.pct * investment == 100.0 * r.yearlyNetBenefit)
      && (investment > 0.0 ==> (r.annualRoi.pct > 0.0 <==> r.yearlyNetBenefit > 0.0))
      && (investment <= 0.0 ==> (r.annualRoi.Unbounded? <==> r.yearlyNetBenefit > 0.0))
      && (investment <= 0.0 && r.yearlyNetBenefit <= 0.0 ==> r.annualRoi == Pct(0.0))
  {
    var r := Calculate(i);
    var investment := Investment(r);
    if investment > 0.0 {
      var q := r.yearlyNetBenefit / investment;
      assert q * investment == r.yearlyNetBenefit;
      assert r.annualRoi.pct == q * 100.0;
      assert q > 0.0 <==> r.yearlyNetBenefit > 0.0;
    }
  }

  // ---------------------------------------------------------------------------
  // Enhance scenario

  /** Keeping the staff: the monthly gain is the added revenue minus the recurring AI
      cost, and its payback follows the same rule as the replace scenario's. The
      replace scenario's net benefit additionally counts the human cost saved, less
      the amortised setup fee. */
  lemma EnhanceScenario(i: Inputs)
    ensures var r := Calculate(i);
      && r.enhanceMonthlyNetGain == r.potentialRevenue - r.aiTotalMonthlyCost
      && r.netBenefit == r.enhanceMonthlyNetGain + r.humanCost - r.aiSetupFeeMonthly
      && (r.enhancePaybackPeriod.Never? <==> r.enhanceMonthlyNetGain <= 0.0)
      && (r.enhancePaybackPeriod.Months? ==>
            r.enhancePaybackPeriod.months * r.enhanceMonthlyNetGain == i.aiSetupFee)
  {
  }

  /** The enhance figures do not depend on wages, hours or overhead. */
  lemma EnhanceIgnoresStaffCost(i: Inputs, wage: Value, hours: Value, overhead: Value)
    ensures var r, r' := Calculate(i),
      Calculate(i.(humanHourlyWage := wage, humanHoursPerWeek := hours, humanOverheadPercentage := overhead));
      r'.enhanceMonthlyNetGain == r.enhanceMonthlyNetGain && r'.enhancePaybackPeriod == r.enhancePaybackPeriod
  {
  }

  // ---------------------------------------------------------------------------
  // Pricing tiers

  /** With a tier's three costs in place, the recurring AI cost is that tier's
      subscription plus its per-minute price for every minute, and the first-year
      monthly cost adds a twelfth of its setup fee. */
  lemma TierDeterminesAiCost(i: Inputs, t: Tier)
    requires i.aiSetupFee == t.setupFee && i.aiSubscriptionCost == t.monthlyCost
    requires i.aiPerMinuteCost == t.perMinuteCost
    ensures var r := Calculate(i);
      && r.aiTotalMonthlyCost == t.monthlyCost + r.totalMinutes * t.perMinuteCost
      && r.aiTotalCostWithSetup == t.monthlyCost + r.totalMinutes * t.perMinuteCost + t.setupFee / 12.0
      && r.aiSetupFee == t.setupFee
  {
  }

  /** A listed tier's setup fee is positive, so every payback of a results record
      computed with it is `Never` or a positive number of months. */
  lemma ListedTierPaybackPositive(i: Inputs, t: Tier)
    requires IsListedTier(t) && i.aiSetupFee == t.setupFee
    ensures var r := Calculate(i);
      && (r.paybackPeriod.Months? ==> r.paybackPeriod.months > 0.0)
      && (r.enhancePaybackPeriod.Months? ==> r.enhancePaybackPeriod.months > 0.0)
  {
    ListedTierPositive(t);
    var r := Calculate(i);
    if r.paybackPeriod.Months? {
      assert r.paybackPeriod.months * r.netBenefit == t.setupFee;
    }
    if r.enhancePaybackPeriod.Months? {
      assert r.enhancePaybackPeriod.months * r.enhanceMonthlyNetGain == t.setupFee;
    }
  }
}

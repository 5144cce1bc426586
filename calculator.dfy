/** The calculator's input state and its update rules: the number-field handler,
    tier selection, industry presets, the days-open select and the aggregate
    error flag. `Form` is the state as a value and the transition functions say
    what each handler does to it; `RoiCalculator` holds the same state in
    mutable fields, one per piece of component state, and its methods run the
    handler and then the effects that the change triggers (the error aggregate,
    the tier costs and the recalculation). */
module Calculator {
  import opened Tables
  import opened Fields
  import opened Engine
  import opened Format

  /** The ten numeric input fields. */
  datatype NumField =
    | BusinessHourCalls | AfterHourCalls | MissedBusinessHourCalls | AvgCallDuration
    | SalesCallPercentage | AvgLeadValue | ConversionRate
    | HumanHourlyWage | HumanHoursPerWeek | HumanOverheadPercentage

  /** The key of a field's flag in the error map; distinct fields have distinct keys. */
  function ErrorKey(f: NumField): (k: string)
    ensures k in NumericErrorKeys()
  {
    match f
    case BusinessHourCalls => "businessHourCalls"
    case AfterHourCalls => "afterHourCalls"
    case MissedBusinessHourCalls => "missedBusinessHourCalls"
    case AvgCallDuration => "avgCallDuration"
    case SalesCallPercentage => "salesCallPercentage"
    case AvgLeadValue => "avgLeadValue"
    case ConversionRate => "conversionRate"
    case HumanHourlyWage => "humanHourlyWage"
    case HumanHoursPerWeek => "humanHoursPerWeek"
    case HumanOverheadPercentage => "humanOverheadPercentage"
  }

  lemma ErrorKeyInjective(f: NumField, g: NumField)
    ensures ErrorKey(f) == ErrorKey(g) ==> f == g
  {
  }

  function NumericErrorKeys(): set<string> {
    {"businessHourCalls", "afterHourCalls", "missedBusinessHourCalls", "avgCallDuration",
     "salesCallPercentage", "avgLeadValue", "conversionRate", "humanHourlyWage",
     "humanHoursPerWeek", "humanOverheadPercentage"}
  }

  /** The range each input passes to the handler: percentages of calls and
      conversions at most 100, overhead at most 200, everything else only
      non-negative. */
  datatype Range = Range(min: real, max: Bound)

  function InputRange(f: NumField): (r: Range)
    ensures r.min == 0.0
    ensures r.max.AtMost? <==> f in {SalesCallPercentage, ConversionRate, HumanOverheadPercentage}
    ensures r.max.AtMost? ==> r.max.max == if f == HumanOverheadPercentage then 200.0 else 100.0
  {
    match f
    case SalesCallPercentage => Range(0.0, AtMost(100.0))
    case ConversionRate => Range(0.0, AtMost(100.0))
    case HumanOverheadPercentage => Range(0.0, AtMost(200.0))
    case _ => Range(0.0, NoMax)
  }

  function Get(i: Inputs, f: NumField): Value {
    match f
    case BusinessHourCalls => i.businessHourCalls
    case AfterHourCalls => i.afterHourCalls
    case MissedBusinessHourCalls => i.missedBusinessHourCalls
    case AvgCallDuration => i.avgCallDuration
    case SalesCallPercentage => i.salesCallPercentage
    case AvgLeadValue => i.avgLeadValue
    case ConversionRate => i.conversionRate
    case HumanHourlyWage => i.humanHourlyWage
    case HumanHoursPerWeek => i.humanHoursPerWeek
    case HumanOverheadPercentage => i.humanOverheadPercentage
  }

  /** The setter of one field: that field becomes `v`, nothing else changes. */
  function Set(i: Inputs, f: NumField, v: Value): (j: Inputs)
    ensures Get(j, f) == v
    ensures forall g :: g != f ==> Get(j, g) == Get(i, g)
    ensures j.daysOpen == i.daysOpen
    ensures j.aiSetupFee == i.aiSetupFee && j.aiSubscriptionCost == i.aiSubscriptionCost
    ensures j.aiPerMinuteCost == i.aiPerMinuteCost
  {
    match f
    case BusinessHourCalls => i.(businessHourCalls := v)
    case AfterHourCalls => i.(afterHourCalls := v)
    case MissedBusinessHourCalls => i.(missedBusinessHourCalls := v)
    case AvgCallDuration => i.(avgCallDuration := v)
    case SalesCallPercentage => i.(salesCallPercentage := v)
    case AvgLeadValue => i.(avgLeadValue := v)
    case ConversionRate => i.(conversionRate := v)
    case HumanHourlyWage => i.(humanHourlyWage := v)
    case HumanHoursPerWeek => i.(humanHoursPerWeek := v)
    case HumanOverheadPercentage => i.(humanOverheadPercentage := v)
  }

  /** The calculator's state as a value. */
  datatype Form = Form(industry: string, inputs: Inputs, selectedTier: string, inputErrors: map<string, bool>)

  /** True when at least one flag of the error map is set (`Object.values(...).some(e => e)`). */
  predicate AnyError(flags: map<string, bool>) {
    exists k :: k in flags && flags[k]
  }

  /** The state on first render: the plumbing preset, the wage defaults, the
      professional tier and no flag set. */
  function InitialForm(): (s: Form)
    ensures !AnyError(s.inputErrors) && s.inputErrors.Keys == NumericErrorKeys()
    ensures Tier(s.inputs.aiSetupFee, s.inputs.aiSubscriptionCost, s.inputs.aiPerMinuteCost) == ProfessionalTier
  {
    var p := PresetOrDefault(DefaultIndustry);
    Form(
      DefaultIndustry,
      Inputs(
        Stored(p.businessHourCalls), Stored(p.afterHourCalls), Stored(p.missedBusinessHourCalls),
        Stored(p.avgCallDuration), p.daysOpen, Stored(p.avgLeadValue), Stored(p.conversionRate),
        Stored(47.0), Stored(18.0), Stored(40.0), Stored(25.0),
        ProfessionalTier.setupFee, ProfessionalTier.monthlyCost, ProfessionalTier.perMinuteCost),
      "professional",
      map k | k in NumericErrorKeys() :: false)
  }

  // ---------------------------------------------------------------------------
  // Transitions

  /** `handleNumberInputChange`: a rejected entry sets the field's flag and stores
      the raw entry; an accepted one clears the flag and stores the number. */
  function NumberInputChanged(s: Form, f: NumField, value: Entry, min: real, max: Bound): (t: Form)
    ensures t.industry == s.industry && t.selectedTier == s.selectedTier
    ensures Get(t.inputs, f) == (if Accepts(value, min, max) then Stored(value.number.x) else Raw(value))
    ensures forall g :: g != f ==> Get(t.inputs, g) == Get(s.inputs, g)
    ensures t.inputs.daysOpen == s.inputs.daysOpen
    ensures Tier(t.inputs.aiSetupFee, t.inputs.aiSubscriptionCost, t.inputs.aiPerMinuteCost)
         == Tier(s.inputs.aiSetupFee, s.inputs.aiSubscriptionCost, s.inputs.aiPerMinuteCost)
    ensures t.inputErrors.Keys == s.inputErrors.Keys + {ErrorKey(f)}
    ensures t.inputErrors[ErrorKey(f)] <==> !Accepts(value, min, max)
    ensures forall k :: k in s.inputErrors && k != ErrorKey(f) ==> t.inputErrors[k] == s.inputErrors[k]
  {
    var accepted := Accepts(value, min, max);
    s.(inputs := Set(s.inputs, f, Stores(value, min, max)),
       inputErrors := s.inputErrors[ErrorKey(f) := !accepted])
  }

  /** The seven flags an industry change clears, `daysOpen` among them. */
  function PresetFlagsCleared(): (m: map<string, bool>)
    ensures !AnyError(m)
  {
    map["daysOpen" := false, "businessHourCalls" := false, "afterHourCalls" := false,
        "missedBusinessHourCalls" := false, "avgCallDuration" := false,
        "avgLeadValue" := false, "conversionRate" := false]
  }

  /** `handleIndustryChange`: records the key and loads its preset (plumbing's for
      an unknown key) into the seven preset fields, clearing their flags. */
  function IndustryChanged(s: Form, key: string): (t: Form)
    ensures t.industry == key && t.selectedTier == s.selectedTier
    ensures var p := PresetOrDefault(key);
      && t.inputs.daysOpen == p.daysOpen
      && t.inputs.businessHourCalls == Stored(p.businessHourCalls)
      && t.inputs.afterHourCalls == Stored(p.afterHourCalls)
      && t.inputs.missedBusinessHourCalls == Stored(p.missedBusinessHourCalls)
      && t.inputs.avgCallDuration == Stored(p.avgCallDuration)
      && t.inputs.avgLeadValue == Stored(p.avgLeadValue)
      && t.inputs.conversionRate == Stored(p.conversionRate)
    ensures forall f :: f !in PresetFields() ==> Get(t.inputs, f) == Get(s.inputs, f)
    ensures Tier(t.inputs.aiSetupFee, t.inputs.aiSubscriptionCost, t.inputs.aiPerMinuteCost)
         == Tier(s.inputs.aiSetupFee, s.inputs.aiSubscriptionCost, s.inputs.aiPerMinuteCost)
    ensures t.inputErrors.Keys == s.inputErrors.Keys + PresetFlagsCleared().Keys
    ensures forall k :: k in PresetFlagsCleared() ==> !t.inputErrors[k]
    ensures forall k :: k in s.inputErrors && k !in PresetFlagsCleared() ==> t.inputErrors[k] == s.inputErrors[k]
  {
    var p := PresetOrDefault(key);
    s.(industry := key,
       inputs := s.inputs.(
         daysOpen := p.daysOpen,
         businessHourCalls := Stored(p.businessHourCalls),
         afterHourCalls := Stored(p.afterHourCalls),
         missedBusinessHourCalls := Stored(p.missedBusinessHourCalls),
         avgCallDuration := Stored(p.avgCallDuration),
         avgLeadValue := Stored(p.avgLeadValue),
         conversionRate := Stored(p.conversionRate)),
       inputErrors := s.inputErrors + PresetFlagsCleared())
  }

  function PresetFields(): set<NumField> {
    {BusinessHourCalls, AfterHourCalls, MissedBusinessHourCalls, AvgCallDuration, AvgLeadValue, ConversionRate}
  }

  /** The tier effect: a listed tier's three costs replace the current ones; an
      unknown key is recorded and changes no cost. */
  function TierSelected(s: Form, key: string): (t: Form)
    ensures t.selectedTier == key && t.industry == s.industry && t.inputErrors == s.inputErrors
    ensures forall f :: Get(t.inputs, f) == Get(s.inputs, f)
    ensures t.inputs.daysOpen == s.inputs.daysOpen
    ensures PricingTier(key).Some? ==>
      Tier(t.inputs.aiSetupFee, t.inputs.aiSubscriptionCost, t.inputs.aiPerMinuteCost) == PricingTier(key).value
    ensures PricingTier(key).None? ==> t.inputs == s.inputs
  {
    match PricingTier(key)
    case Some(tier) =>
      s.(selectedTier := key,
         inputs := s.inputs.(aiSetupFee := tier.setupFee, aiSubscriptionCost := tier.monthlyCost,
                             aiPerMinuteCost := tier.perMinuteCost))
    case None => s.(selectedTier := key)
  }

  /** The days-open select stores the chosen mode and touches no flag. */
  function DaysOpenSelected(s: Form, mode: string): (t: Form)
    ensures t.inputs == s.inputs.(daysOpen := mode)
    ensures t.industry == s.industry && t.selectedTier == s.selectedTier && t.inputErrors == s.inputErrors
  {
    s.(inputs := s.inputs.(daysOpen := mode))
  }

  // ---------------------------------------------------------------------------
  // Properties of the transitions

  /** The calculation reads only the coerced numbers: two inputs that coerce alike
      calculate alike. */
  lemma CalculateReadsCoercedValues(i: Inputs, j: Inputs)
    requires forall f :: NumberOr0(Get(i, f)) == NumberOr0(Get(j, f))
    requires i.daysOpen == j.daysOpen && i.aiSetupFee == j.aiSetupFee
    requires i.aiSubscriptionCost == j.aiSubscriptionCost && i.aiPerMinuteCost == j.aiPerMinuteCost
    ensures Calculate(i) == Calculate(j)
  {
    assert Get(i, BusinessHourCalls) == i.businessHourCalls && Get(j, BusinessHourCalls) == j.businessHourCalls;
    assert Get(i, AfterHourCalls) == i.afterHourCalls && Get(j, AfterHourCalls) == j.afterHourCalls;
    assert Get(i, MissedBusinessHourCalls) == i.missedBusinessHourCalls && Get(j, MissedBusinessHourCalls) == j.missedBusinessHourCalls;
    assert Get(i, AvgCallDuration) == i.avgCallDuration && Get(j, AvgCallDuration) == j.avgCallDuration;
    assert Get(i, SalesCallPercentage) == i.salesCallPercentage && Get(j, SalesCallPercentage) == j.salesCallPercentage;
    assert Get(i, AvgLeadValue) == i.avgLeadValue && Get(j, AvgLeadValue) == j.avgLeadValue;
    assert Get(i, ConversionRate) == i.conversionRate && Get(j, ConversionRate) == j.conversionRate;
    assert Get(i, HumanHourlyWage) == i.humanHourlyWage && Get(j, HumanHourlyWage) == j.humanHourlyWage;
    assert Get(i, HumanHoursPerWeek) == i.humanHoursPerWeek && Get(j, HumanHoursPerWeek) == j.humanHoursPerWeek;
    assert Get(i, HumanOverheadPercentage) == i.humanOverheadPercentage && Get(j, HumanOverheadPercentage) == j.humanOverheadPercentage;
  }

  /** Validation does not gate the calculation: after any edit the results are those
      of the typed number stored as accepted (0 for NaN), whether or not the entry
      was rejected and flagged. */
  lemma RejectedEntryStillCalculated(s: Form, f: NumField, value: Entry, min: real, max: Bound)
    ensures var t := NumberInputChanged(s, f, value, min, max);
      var typed := if value.number.NaN? then 0.0 else value.number.x;
      Calculate(t.inputs) == Calculate(Set(s.inputs, f, Stored(typed)))
  {
    var t := NumberInputChanged(s, f, value, min, max);
    var typed := if value.number.NaN? then 0.0 else value.number.x;
    var j := Set(s.inputs, f, Stored(typed));
    forall g ensures NumberOr0(Get(t.inputs, g)) == NumberOr0(Get(j, g)) {
      if g == f {
        assert Get(t.inputs, g) == Stores(value, min, max);
      }
    }
    CalculateReadsCoercedValues(t.inputs, j);
  }

  /** After an edit the aggregate flag is set exactly when the entry was rejected or
      some other field's flag was already set. */
  lemma AggregateAfterEdit(s: Form, f: NumField, value: Entry, min: real, max: Bound)
    ensures var t := NumberInputChanged(s, f, value, min, max);
      AnyError(t.inputErrors) <==>
        !Accepts(value, min, max) || exists k :: k in s.inputErrors && k != ErrorKey(f) && s.inputErrors[k]
  {
    var t := NumberInputChanged(s, f, value, min, max);
    if AnyError(t.inputErrors) && Accepts(value, min, max) {
      var k :| k in t.inputErrors && t.inputErrors[k];
      assert k != ErrorKey(f) && k in s.inputErrors && s.inputErrors[k];
    }
    if !Accepts(value, min, max) {
      assert ErrorKey(f) in t.inputErrors && t.inputErrors[ErrorKey(f)];
    }
    if exists k :: k in s.inputErrors && k != ErrorKey(f) && s.inputErrors[k] {
      var k :| k in s.inputErrors && k != ErrorKey(f) && s.inputErrors[k];
      assert k in t.inputErrors && t.inputErrors[k];
    }
  }

  /** An out-of-range number is flagged and still reaches the calculation: -3
      business-hour calls per day, entered over the defaults, leave 60 calls a month
      (-90 + 150 after hours). */
  lemma NegativeCallsReachCalculation()
    ensures var r := InputRange(BusinessHourCalls);
      var t := NumberInputChanged(InitialForm(), BusinessHourCalls, Entry(false, Num(-3.0)), r.min, r.max);
      && AnyError(t.inputErrors) && ErrorKey(BusinessHourCalls) in t.inputErrors
      && t.inputErrors[ErrorKey(BusinessHourCalls)]
      && Calculate(t.inputs).totalCalls == 60.0
  {
    var r := InputRange(BusinessHourCalls);
    var t := NumberInputChanged(InitialForm(), BusinessHourCalls, Entry(false, Num(-3.0)), r.min, r.max);
    assert t.inputErrors[ErrorKey(BusinessHourCalls)];
    assert NumberOr0(t.inputs.businessHourCalls) == -3.0;
    assert NumberOr0(t.inputs.afterHourCalls) == 5.0;
    assert DaysPerMonth(t.inputs.daysOpen) == 30;
  }

  /** A 150% conversion rate is flagged and still multiplies the revenue. */
  lemma OverRangeRateReachesCalculation()
    ensures var r := InputRange(ConversionRate);
      var t := NumberInputChanged(InitialForm(), ConversionRate, Entry(false, Num(150.0)), r.min, r.max);
      && AnyError(t.inputErrors) && ErrorKey(ConversionRate) in t.inputErrors
      && t.inputErrors[ErrorKey(ConversionRate)]
      && Calculate(t.inputs).potentialRevenue == 50760.0
  {
    var r := InputRange(ConversionRate);
    var t := NumberInputChanged(InitialForm(), ConversionRate, Entry(false, Num(150.0)), r.min, r.max);
    assert t.inputErrors[ErrorKey(ConversionRate)];
    assert NumberOr0(t.inputs.conversionRate) == 150.0;
    assert NumberOr0(t.inputs.missedBusinessHourCalls) == 3.0 && NumberOr0(t.inputs.afterHourCalls) == 5.0;
    assert NumberOr0(t.inputs.salesCallPercentage) == 47.0 && NumberOr0(t.inputs.avgLeadValue) == 300.0;
    assert DaysPerMonth(t.inputs.daysOpen) == 30;
    var missed := MonthlyCalls(3.0, 5.0, "alldays");
    assert missed == 240.0;
    assert PotentialRevenue(missed, 47.0, 300.0, 150.0) == 50760.0;
  }

  /** Loading the same industry twice changes nothing the second time. */
  lemma IndustryChangeIdempotent(s: Form, key: string)
    ensures IndustryChanged(IndustryChanged(s, key), key) == IndustryChanged(s, key)
  {
    var t := IndustryChanged(s, key);
    var u := IndustryChanged(t, key);
    assert u.inputErrors == t.inputErrors;
  }

  /** An industry change overwrites everything an earlier one set: "B, then A" is
      "A", so "A, then B, then A" is "A" as well. */
  lemma IndustryChangeLastWins(s: Form, a: string, b: string)
    ensures IndustryChanged(IndustryChanged(s, b), a) == IndustryChanged(s, a)
    ensures IndustryChanged(IndustryChanged(IndustryChanged(s, a), b), a) == IndustryChanged(s, a)
  {
    assert IndustryChanged(IndustryChanged(s, b), a).inputErrors == IndustryChanged(s, a).inputErrors;
    var t := IndustryChanged(s, a);
    assert IndustryChanged(IndustryChanged(t, b), a).inputErrors == IndustryChanged(t, a).inputErrors;
    IndustryChangeIdempotent(s, a);
  }

  /** An unknown industry key loads the plumbing preset but records the key itself. */
  lemma UnknownIndustryLoadsPlumbing(s: Form, key: string)
    requires key !in IndustryPresets
    ensures IndustryChanged(s, key).inputs == IndustryChanged(s, DefaultIndustry).inputs
    ensures IndustryChanged(s, key).industry == key
  {
  }

  /** Selecting a listed tier after any other selection leaves exactly that tier's
      costs in place, so the calculation prices the AI by that tier alone. */
  lemma TierSelectionPricesByTier(s: Form, earlier: string, key: string)
    requires PricingTier(key).Some?
    ensures var t := TierSelected(TierSelected(s, earlier), key);
      var tier := PricingTier(key).value;
      var r := Calculate(t.inputs);
      && t == TierSelected(s, key)
      && r.aiTotalMonthlyCost == tier.monthlyCost + r.totalMinutes * tier.perMinuteCost
      && r.aiTotalCostWithSetup == tier.monthlyCost + r.totalMinutes * tier.perMinuteCost + tier.setupFee / 12.0
  {
    var tier := PricingTier(key).value;
    var t := TierSelected(TierSelected(s, earlier), key);
    TierDeterminesAiCost(t.inputs, tier);
  }

  /** The numbers of the first render, and the texts shown for its two paybacks. */
  lemma DefaultScenario()
    ensures var r := Calculate(InitialForm().inputs);
      && r.totalCalls == 600.0 && r.missedCalls == 240.0 && r.totalMinutes == 6000.0
      && r.salesMissedCalls == 112.8 && r.potentialRevenue == 4399.2
      && r.humanCost == 3900.0 && r.aiTotalMonthlyCost == 2900.0 && r.aiTotalCostWithSetup == 3025.0
      && r.costSavings == 875.0 && r.netBenefit == 5274.2 && r.enhanceMonthlyNetGain == 1499.2
      && r.yearlyNetBenefit == 64790.4 && r.firstYearNetReturn == 63290.4
      && r.firstYearRevenueVsAiCost == 16490.4
      && r.annualRoi.Pct? && r.annualRoi.pct * 36300.0 == 6479040.0
      && FormatPaybackPeriod(r.paybackPeriod) == "Less than 1 month"
      && FormatPaybackPeriod(r.enhancePaybackPeriod) == "1 month"
  {
    DefaultInputsCoerced();
    DefaultFigures();
  }

  /** The first render's inputs, coerced. */
  lemma DefaultInputsCoerced()
    ensures Calculate(InitialForm().inputs)
         == Compute(15.0, 5.0, 3.0, 10.0, 47.0, 300.0, 13.0, 18.0, 40.0, 25.0, "alldays", 1500.0, 500.0, 0.40)
  {
    var i := InitialForm().inputs;
    assert NumberOr0(i.businessHourCalls) == 15.0 && NumberOr0(i.afterHourCalls) == 5.0;
    assert NumberOr0(i.missedBusinessHourCalls) == 3.0 && NumberOr0(i.avgCallDuration) == 10.0;
    assert NumberOr0(i.avgLeadValue) == 300.0 && NumberOr0(i.conversionRate) == 13.0;
  }

  lemma DefaultFigures()
    ensures var r := Compute(15.0, 5.0, 3.0, 10.0, 47.0, 300.0, 13.0, 18.0, 40.0, 25.0, "alldays", 1500.0, 500.0, 0.40);
      && r.totalCalls == 600.0 && r.missedCalls == 240.0 && r.totalMinutes == 6000.0
      && r.salesMissedCalls == 112.8 && r.potentialRevenue == 4399.2
      && r.humanCost == 3900.0 && r.aiTotalMonthlyCost == 2900.0 && r.aiTotalCostWithSetup == 3025.0
      && r.costSavings == 875.0 && r.netBenefit == 5274.2 && r.enhanceMonthlyNetGain == 1499.2
      && r.yearlyNetBenefit == 64790.4 && r.firstYearNetReturn == 63290.4
      && r.firstYearRevenueVsAiCost == 16490.4
      && r.annualRoi.Pct? && r.annualRoi.pct * 36300.0 == 6479040.0
      && FormatPaybackPeriod(r.paybackPeriod) == "Less than 1 month"
      && FormatPaybackPeriod(r.enhancePaybackPeriod) == "1 month"
  {
    var r := Compute(15.0, 5.0, 3.0, 10.0, 47.0, 300.0, 13.0, 18.0, 40.0, 25.0, "alldays", 1500.0, 500.0, 0.40);
    assert MonthlyCalls(15.0, 5.0, "alldays") == 600.0 && MonthlyCalls(3.0, 5.0, "alldays") == 240.0;
    assert HumanMonthlyCost(18.0, 40.0, 25.0) == 3900.0;
    assert PotentialRevenue(240.0, 47.0, 300.0, 13.0) == 4399.2;
    assert r.yearlyNetBenefit == 64790.4;
    assert r.annualRoi == AnnualRoi(64790.4, 36300.0);
    var q := 64790.4 / 36300.0;
    assert q * 36300.0 == 64790.4;
    assert r.paybackPeriod == Months(1500.0 / 5274.2);
    LessThanOneMonthExactly(1500.0 / 5274.2);
    var m := 1500.0 / 1499.2;
    assert r.enhancePaybackPeriod == Months(m);
    assert 1.0 <= m < 2.0;
    PeriodParts(m, 0, 1);
    assert DecimalString(1) == "1";
    assert CountText(1, "month") == "1 month";
  }

  // ---------------------------------------------------------------------------
  // The aggregate effect

  /** `Object.values(inputErrors).some(error => error)`: stops at the first set flag. */
  method HasErrors(flags: map<string, bool>) returns (b: bool)
    ensures b == AnyError(flags)
  {
    var pending := flags.Keys;
    b := false;
    while pending != {} && !b
      invariant pending <= flags.Keys
      invariant b ==> AnyError(flags)
      invariant !b ==> forall k :: k in flags && k !in pending ==> !flags[k]
      decreases pending
    {
      var k :| k in pending;
      b := flags[k];
      pending := pending - {k};
    }
  }

  // ---------------------------------------------------------------------------
  // The component's state

  class RoiCalculator {
    var industry: string
    var businessHourCalls: Value
    var afterHourCalls: Value
    var missedBusinessHourCalls: Value
    var avgCallDuration: Value
    var daysOpen: string
    var avgLeadValue: Value
    var conversionRate: Value
    var salesCallPercentage: Value
    var humanHourlyWage: Value
    var humanHoursPerWeek: Value
    var humanOverheadPercentage: Value
    var inputErrors: map<string, bool>
    var validationError: bool
    var selectedTier: string
    var aiSetupFee: real
    var aiSubscriptionCost: real
    var aiPerMinuteCost: real
    var results: Results

    /** The calculation effect's dependencies. */
    function CurrentInputs(): Inputs
      reads this
    {
      Inputs(businessHourCalls, afterHourCalls, missedBusinessHourCalls, avgCallDuration, daysOpen,
             avgLeadValue, conversionRate, salesCallPercentage, humanHourlyWage, humanHoursPerWeek,
             humanOverheadPercentage, aiSetupFee, aiSubscriptionCost, aiPerMinuteCost)
    }

    function Snapshot(): Form
      reads this
    {
      Form(industry, CurrentInputs(), selectedTier, inputErrors)
    }

    /** What holds once the effects have run: the aggregate flag and the results
      agree with the inputs, and the AI costs are those of a listed tier. */
    ghost predicate Valid()
      reads this
    {
      && validationError == AnyError(inputErrors)
      && results == Calculate(CurrentInputs())
      && IsListedTier(Tier(aiSetupFee, aiSubscriptionCost, aiPerMinuteCost))
    }

    /** The "Calculate ROI" button scrolls to the results only when no flag is set;
      the results themselves are always those of the current inputs. */
    function ButtonEnabled(): (enabled: bool)
      reads this
      requires Valid()
      ensures enabled <==> !AnyError(inputErrors)
      ensures results == Calculate(CurrentInputs())
    {
      !validationError
    }

    constructor ()
      ensures Valid() && Snapshot() == InitialForm()
    {
      var s := InitialForm();
      industry := s.industry;
      businessHourCalls := s.inputs.businessHourCalls;
      afterHourCalls := s.inputs.afterHourCalls;
      missedBusinessHourCalls := s.inputs.missedBusinessHourCalls;
      avgCallDuration := s.inputs.avgCallDuration;
      daysOpen := s.inputs.daysOpen;
      avgLeadValue := s.inputs.avgLeadValue;
      conversionRate := s.inputs.conversionRate;
      salesCallPercentage := s.inputs.salesCallPercentage;
      humanHourlyWage := s.inputs.humanHourlyWage;
      humanHoursPerWeek := s.inputs.humanHoursPerWeek;
      humanOverheadPercentage := s.inputs.humanOverheadPercentage;
      inputErrors := s.inputErrors;
      selectedTier := s.selectedTier;
      aiSetupFee := s.inputs.aiSetupFee;
      aiSubscriptionCost := s.inputs.aiSubscriptionCost;
      aiPerMinuteCost := s.inputs.aiPerMinuteCost;
      new;
      assert CurrentInputs() == s.inputs;
      assert Snapshot() == s;
      assert IsListedTier(Tier(aiSetupFee, aiSubscriptionCost, aiPerMinuteCost));
      RunEffects();
    }

    /** Runs the effects that follow a change of the flags or of the inputs. */
    method RunEffects()
      modifies this`validationError, this`results
      ensures validationError == AnyError(inputErrors)
      ensures results == Calculate(CurrentInputs())
    {
      validationError := HasErrors(inputErrors);
      results := Calculate(CurrentInputs());
    }

    method HandleNumberInputChange(f: NumField, value: Entry, min: real, max: Bound)
      requires Valid()
      modifies this
      ensures Valid()
      ensures Snapshot() == NumberInputChanged(old(Snapshot()), f, value, min, max)
    {
      RecordEntry(f, value, min, max);
      RunEffects();
    }

    /** The handler's two state updates: the field and its flag. */
    method RecordEntry(f: NumField, value: Entry, min: real, max: Bound)
      modifies this`businessHourCalls, this`afterHourCalls, this`missedBusinessHourCalls, this`avgCallDuration,
        this`salesCallPercentage, this`avgLeadValue, this`conversionRate, this`humanHourlyWage,
        this`humanHoursPerWeek, this`humanOverheadPercentage, this`inputErrors
      ensures Snapshot() == NumberInputChanged(old(Snapshot()), f, value, min, max)
    {
      SetField(f, Stores(value, min, max));
      inputErrors := inputErrors[ErrorKey(f) := !Accepts(value, min, max)];
    }

    /** The setter of one numeric field. */
    method SetField(f: NumField, v: Value)
      modifies this`businessHourCalls, this`afterHourCalls, this`missedBusinessHourCalls, this`avgCallDuration,
        this`salesCallPercentage, this`avgLeadValue, this`conversionRate, this`humanHourlyWage,
        this`humanHoursPerWeek, this`humanOverheadPercentage
      ensures CurrentInputs() == Set(old(CurrentInputs()), f, v)
    {
      match f {
      case BusinessHourCalls => businessHourCalls := v;
      case AfterHourCalls => afterHourCalls := v;
      case MissedBusinessHourCalls => missedBusinessHourCalls := v;
      case AvgCallDuration => avgCallDuration := v;
      case SalesCallPercentage => salesCallPercentage := v;
      case AvgLeadValue => avgLeadValue := v;
      case ConversionRate => conversionRate := v;
      case HumanHourlyWage => humanHourlyWage := v;
      case HumanHoursPerWeek => humanHoursPerWeek := v;
      case HumanOverheadPercentage => humanOverheadPercentage := v;
      }
    }

    method HandleIndustryChange(key: string)
      requires Valid()
      modifies this
      ensures Valid()
      ensures Snapshot() == IndustryChanged(old(Snapshot()), key)
    {
      LoadIndustry(key);
      RunEffects();
    }

    /** The handler's state updates: the key, the preset's seven fields and their flags. */
    method LoadIndustry(key: string)
      modifies this`industry, this`daysOpen, this`businessHourCalls, this`afterHourCalls,
        this`missedBusinessHourCalls, this`avgCallDuration, this`avgLeadValue, this`conversionRate,
        this`inputErrors
      ensures Snapshot() == IndustryChanged(old(Snapshot()), key)
    {
      industry := key;
      LoadPreset(PresetOrDefault(key));
      inputErrors := inputErrors + PresetFlagsCleared();
    }

    /** The seven setters of an industry change. */
    method LoadPreset(p: Preset)
      modifies this`daysOpen, this`businessHourCalls, this`afterHourCalls, this`missedBusinessHourCalls,
        this`avgCallDuration, this`avgLeadValue, this`conversionRate
      ensures CurrentInputs() == old(CurrentInputs()).(
        daysOpen := p.daysOpen,
        businessHourCalls := Stored(p.businessHourCalls),
        afterHourCalls := Stored(p.afterHourCalls),
        missedBusinessHourCalls := Stored(p.missedBusinessHourCalls),
        avgCallDuration := Stored(p.avgCallDuration),
        avgLeadValue := Stored(p.avgLeadValue),
        conversionRate := Stored(p.conversionRate))
    {
      daysOpen := p.daysOpen;
      businessHourCalls := Stored(p.businessHourCalls);
      afterHourCalls := Stored(p.afterHourCalls);
      missedBusinessHourCalls := Stored(p.missedBusinessHourCalls);
      avgCallDuration := Stored(p.avgCallDuration);
      avgLeadValue := Stored(p.avgLeadValue);
      conversionRate := Stored(p.conversionRate);
    }

    method SelectTier(key: string)
      requires Valid()
      modifies this
      ensures Valid()
      ensures Snapshot() == TierSelected(old(Snapshot()), key)
    {
      ApplyTier(key);
      RunEffects();
    }

    /** The tier effect's state updates. */
    method ApplyTier(key: string)
      modifies this`selectedTier, this`aiSetupFee, this`aiSubscriptionCost, this`aiPerMinuteCost
      ensures Snapshot() == TierSelected(old(Snapshot()), key)
      ensures IsListedTier(old(Tier(aiSetupFee, aiSubscriptionCost, aiPerMinuteCost)))
          ==> IsListedTier(Tier(aiSetupFee, aiSubscriptionCost, aiPerMinuteCost))
    {
      selectedTier := key;
      match PricingTier(key) {
      case Some(tier) =>
        aiSetupFee := tier.setupFee;
        aiSubscriptionCost := tier.monthlyCost;
        aiPerMinuteCost := tier.perMinuteCost;
      case None =>
      }
    }

    method SelectDaysOpen(mode: string)
      requires Valid()
      modifies this
      ensures Valid()
      ensures Snapshot() == DaysOpenSelected(old(Snapshot()), mode)
    {
      daysOpen := mode;
      RunEffects();
    }
  }
}

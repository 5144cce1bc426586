/** The two static lookup tables of the calculator: the AI pricing tiers and the
    industry benchmark presets. A lookup is modelled as membership of the table's
    own keys; the names an object inherits from its prototype are not keys here. */
module Tables {

  datatype Option<T> = None | Some(value: T)

  /** The three cost figures of a pricing tier (name and description are display text). */
  datatype Tier = Tier(setupFee: real, monthlyCost: real, perMinuteCost: real)

  /** Benchmark values loaded when an industry is selected. */
  datatype Preset = Preset(
    daysOpen: string,
    businessHourCalls: real,
    afterHourCalls: real,
    missedBusinessHourCalls: real,
    avgCallDuration: real,
    avgLeadValue: real,
    conversionRate: real)

  const BasicTier := Tier(745.0, 250.0, 0.45)
  const ProfessionalTier := Tier(1500.0, 500.0, 0.40)
  const EnterpriseTier := Tier(5000.0, 2500.0, 0.30)

  /** The tier a key names, if any. */
  function PricingTier(key: string): (t: Option<Tier>)
    ensures t.Some? <==> key in {"basic", "professional", "enterprise"}
    ensures t.Some? ==> IsListedTier(t.value)
  {
    if key == "basic" then Some(BasicTier)
    else if key == "professional" then Some(ProfessionalTier)
    else if key == "enterprise" then Some(EnterpriseTier)
    else None
  }

  predicate IsListedTier(t: Tier) {
    t == BasicTier || t == ProfessionalTier || t == EnterpriseTier
  }

  /** Every listed tier has a positive setup fee, monthly cost and per-minute price. */
  lemma ListedTierPositive(t: Tier)
    requires IsListedTier(t)
    ensures t.setupFee > 0.0 && t.monthlyCost > 0.0 && t.perMinuteCost > 0.0
  {
  }

  const DefaultIndustry := "plumbing"

  /** The benchmark table, keyed as the select's options. */
  const IndustryPresets: map<string, Preset> := map[
    "plumbing" := Preset("alldays", 15.0, 5.0, 3.0, 10.0, 300.0, 13.0),
    "HVAC" := Preset("alldays", 20.0, 7.0, 3.0, 12.5, 450.0, 11.0),
    "electrician" := Preset("sixdays", 12.5, 4.0, 3.0, 15.0, 350.0, 12.0),
    "landscaping_and_lawn_care" := Preset("sixdays", 10.0, 2.5, 3.0, 6.5, 120.0, 15.0),
    "cleaning_services" := Preset("sixdays", 15.0, 1.5, 3.0, 8.0, 100.0, 18.0),
    "roofing" := Preset("sixdays", 7.5, 1.5, 3.0, 17.5, 500.0, 9.0),
    "painting" := Preset("weekdays", 9.0, 1.5, 3.0, 10.0, 250.0, 14.0),
    "carpentry" := Preset("weekdays", 6.0, 1.0, 3.0, 25.0, 300.0, 13.0),
    "flooring_installation" := Preset("sixdays", 6.5, 1.0, 3.0, 12.5, 400.0, 12.0),
    "pest_control" := Preset("sixdays", 11.0, 3.0, 3.0, 7.0, 150.0, 16.0),
    "other_home_services" := Preset("sixdays", 9.5, 2.5, 3.0, 10.0, 250.0, 12.0)]

  const PlumbingPreset := Preset("alldays", 15.0, 5.0, 3.0, 10.0, 300.0, 13.0)

  /** `industryPresets[key] || industryPresets[defaultIndustry]`. */
  function PresetOrDefault(key: string): (p: Preset)
    ensures key in IndustryPresets ==> p == IndustryPresets[key]
    ensures key !in IndustryPresets ==> p == PlumbingPreset
  {
    if key in IndustryPresets then IndustryPresets[key] else IndustryPresets[DefaultIndustry]
  }

  /** Every preset is in range for the form's own validation: counts, durations and
      lead values non-negative, the conversion rate a percentage, and a days mode
      from the select's three options. */
  lemma PresetsInRange(key: string)
    ensures InRange(PresetOrDefault(key))
  {
    assert forall k | k in IndustryPresets :: InRange(IndustryPresets[k]);
  }

  predicate InRange(p: Preset) {
    && p.daysOpen in {"weekdays", "sixdays", "alldays"}
    && p.businessHourCalls >= 0.0 && p.afterHourCalls >= 0.0
    && p.missedBusinessHourCalls >= 0.0 && p.avgCallDuration >= 0.0
    && p.avgLeadValue >= 0.0 && 0.0 <= p.conversionRate <= 100.0
  }
}

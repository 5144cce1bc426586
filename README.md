# AI Receptionist ROI Calculator: a Dafny model

The calculator is a single React component. It compares a human receptionist with an AI
answering service for a home-services business. The user picks an industry, which loads
benchmark call volumes, and a pricing tier, which sets the AI costs. The user then edits ten
numeric inputs. Every edit is validated: a rejected entry is flagged, the flags are combined
into one aggregate error, and that error disables the "Calculate ROI" button. A calculation
effect recomputes about two dozen monthly and yearly figures whenever an input changes. One
of its outputs, the payback period, is shown as text such as "1 year 6 months".

The model has five modules:

- `Tables`: the three pricing tiers and the eleven industry presets. An unknown industry key
  falls back to the plumbing preset.
- `Fields`: what a numeric field holds (an accepted number, or the raw entry of a rejected
  one), the handler's acceptance test, and the coercion `Number(x) || 0` that the
  calculation applies.
- `Engine`: the calculation effect as a pure function `Calculate` from its fourteen
  dependencies to the results record, with lemmas for the identities those figures satisfy.
  JavaScript's `Infinity` becomes `Payback.Never` and `Roi.Unbounded`.
- `Format`: `formatPaybackPeriod`, including the decimal rendering of its year and month
  counts. Its `%` truncates toward zero, as JavaScript's does.
- `Calculator`: the component's state in two forms.
  - `Form` is the state as a value. `NumberInputChanged`, `IndustryChanged`, `TierSelected`
    and `DaysOpenSelected` are its transition functions.
  - The class `RoiCalculator` has one mutable field per piece of component state. Each
    handler method updates those fields and then runs the dependent effects: the aggregate
    error, which `HasErrors` computes with the short-circuiting loop of
    `Object.values(...).some`, and the recalculation. Every handler ensures that the new state
    is the transition function applied to the old one. It also keeps the invariant `Valid()`:
    the aggregate flag and the results agree with the inputs, and the AI costs are those of a
    listed tier.

Validation does not gate the calculation. A rejected entry is still stored as raw text, and
the calculation coerces it with `Number(x) || 0` (src/App.jsx:182-191, 284-286). So -3 daily
calls, or a 150% conversion rate, is flagged but still calculated.
`RejectedEntryStillCalculated`, `NegativeCallsReachCalculation` and
`OverRangeRateReachesCalculation` state this behaviour.

## Model

| member | source | states |
|---|---|---|
| Engine.Calculate | src/App.jsx:179-253 | no contract of its own: the engine lemmas (AfterHoursCallsAllMissed to ListedTierPaybackPositive) and Calculator.CalculateReadsCoercedValues carry its properties |
| Engine.Compute | src/App.jsx:193-253 | no contract of its own: the calculation block after coercion; Calculator.DefaultFigures evaluates it, and the engine lemmas state its identities through Calculate |
| Fields.NumberOr0 | src/App.jsx:182-191 | no contract of its own: Fields.Stores states what it reads from a stored entry, and Calculator.CalculateReadsCoercedValues that the engine sees nothing else |
| Fields.Accepts | src/App.jsx:284 | no contract of its own: the acceptance test; Fields.AcceptsExactly and Fields.Stores state its consequences |
| Engine.HumanMonthlyCost | src/App.jsx:194-197 | no contract of its own: Engine.HumanCostFromWages states it |
| Engine.MonthlyCalls | src/App.jsx:201-204 | no contract of its own: Engine.AfterHoursCallsAllMissed and Engine.DaysOpenAffectsBusinessHoursOnly state it |
| Engine.PotentialRevenue | src/App.jsx:208-210 | no contract of its own: Engine.ZeroVolumesGiveZeroResults and Calculator.OverRangeRateReachesCalculation state it |
| Engine.AnnualRoi | src/App.jsx:230 | no contract of its own: Engine.AnnualRoiCases states all three branches |
| Format.Years | src/App.jsx:296 | no contract of its own: Format.YearsAndMonthsSplit and Format.WholeMonthsText state it |
| Format.WholeMonths | src/App.jsx:297 | no contract of its own: Format.YearsAndMonthsSplit and Format.WholeMonthsText state it |
| Format.Duration | src/App.jsx:298-301 | no contract of its own: Format.DurationStartsWithDigit, Format.LessThanOneMonthExactly and Format.WholeMonthsText state it |
| Format.CountText | src/App.jsx:299-300 | no contract of its own: Format.SingularCountText, Format.PluralMonthsText and Format.PluralYearsText show the singular and plural forms |
| Tables.PricingTier | src/App.jsx:92-96 | exactly the keys basic, professional and enterprise name a tier, and each named tier is one of the three listed ones |
| Tables.ListedTierPositive | src/App.jsx:92-96 | every listed tier has a positive setup fee, monthly cost and per-minute price |
| Tables.PresetOrDefault | src/App.jsx:268 | a known industry key yields its own preset; any other key yields the plumbing preset |
| Tables.PresetsInRange | src/App.jsx:98-110 | every preset, including the fallback, is in range: its days mode is one of the three select options, its counts, durations and lead values are non-negative, and its conversion rate is a percentage |
| Fields.AcceptsExactly | src/App.jsx:284 | an accepted entry lies in [min, max]; NaN and blank entries are always rejected; with no maximum, every non-blank number of at least min is accepted |
| Fields.Stores | src/App.jsx:284-290 | an accepted entry is stored as its number and a rejected one as its raw text; either way the calculation reads the typed number, or 0 for NaN |
| Engine.DaysPerMonth | src/App.jsx:200 | 22 days exactly for weekdays, 26 exactly for six days, and 30 for every other mode |
| Engine.PaybackFor | src/App.jsx:222 | the payback is never exactly when the gain is not positive; otherwise it is the number of months whose gain equals the setup fee, 0 exactly when there is no fee, and non-negative for a non-negative fee |
| Engine.AfterHoursCallsAllMissed | src/App.jsx:201-204 | the monthly answered calls (total minus missed) are the answered business-hour calls per day times the open days, so every after-hours call counts as missed |
| Engine.DaysOpenAffectsBusinessHoursOnly | src/App.jsx:200-204 | changing the days mode shifts total and missed calls by the business-hour volume times the change in open days; after-hours calls are unaffected |
| Engine.ZeroVolumesGiveZeroResults | src/App.jsx:182-215 | with all call volumes coerced to 0 (typed as 0, NaN or blank) there are no calls, minutes, revenue or usage cost, and the AI costs its subscription only |
| Engine.AnnualFiguresUseRecurringCost | src/App.jsx:218-227 | the first-year monthly cost adds a twelfth of the setup fee; the yearly figures use the recurring cost, so the yearly net benefit is twelve monthly net benefits plus the setup fee, and the first-year net return is twelve monthly net benefits |
| Engine.HumanCostFromWages | src/App.jsx:194-197 | twelve monthly human costs are the 52-week wage bill plus the overhead percentage of it |
| Engine.PaybackSentinels | src/App.jsx:221-222 | the overall payback is never exactly when the monthly net benefit is not positive; otherwise its months times the benefit equal the setup fee, and it is 0 exactly when the fee is 0 |
| Engine.AnnualRoiCases | src/App.jsx:228-230 | the investment is twelve recurring months plus the setup fee; with a positive investment the ROI is the yearly net benefit as a percentage of it and is positive exactly when the benefit is; with no positive investment the ROI is unbounded exactly when the benefit is positive, and 0 otherwise |
| Engine.EnhanceScenario | src/App.jsx:234-236 | the enhance gain is the revenue minus the recurring AI cost; the replace benefit is that gain plus the human cost minus the monthly share of the setup fee; the enhance payback follows the same never/months rule |
| Engine.EnhanceIgnoresStaffCost | src/App.jsx:234-236 | the enhance gain and payback do not depend on wage, hours or overhead |
| Engine.TierDeterminesAiCost | src/App.jsx:213-219 | with a tier's costs in place, the recurring AI cost is its subscription plus its per-minute price for every minute, and the first-year monthly cost adds a twelfth of its setup fee |
| Engine.ListedTierPaybackPositive | src/App.jsx:218-236 | with a listed tier's setup fee, each payback period is never or a positive number of months |
| Format.DecimalString | src/App.jsx:299-300 | the rendering of a count is a non-empty string of decimal digits with no leading zero |
| Format.DecimalRoundTrip | src/App.jsx:299-300 | the rendered digits read back as the count they were rendered from |
| Format.Remainder12 | src/App.jsx:297 | the remainder by 12 has the sign of the dividend, is less than 12 in magnitude, and differs from the dividend by a whole multiple of 12 |
| Format.FormatPaybackPeriod | src/App.jsx:293-302 | the payback text is never empty |
| Format.DurationStartsWithDigit | src/App.jsx:298-301 | a non-empty year/month text starts with a digit, so it can never be "Less than 1 month" |
| Format.YearsAndMonthsSplit | src/App.jsx:296-297 | for a non-negative period the month part is between 0 and 11, and 12 times the years plus the months is the period's whole months |
| Format.LessThanOneMonthExactly | src/App.jsx:296-301 | a positive period is shown as "Less than 1 month" exactly when it is shorter than one month |
| Format.NegativePeriodText | src/App.jsx:296-301 | a negative period is shown as "Less than 1 month" |
| Format.FormatSentinels | src/App.jsx:294-295 | Infinity is shown as "Never" and 0 as "Immediate" |
| Format.WholeMonthsText | src/App.jsx:296-301 | from one month on, the text is the whole months split into whole years (integer division by 12) and the remaining months |
| Format.SingularCountText | src/App.jsx:299-300 | a count of one is singular and a zero part is omitted: 1.5 months is "1 month" and 12 months is "1 year" |
| Format.PluralMonthsText | src/App.jsx:296-300 | 18 months is "1 year 6 months" |
| Format.PluralYearsText | src/App.jsx:296-300 | 25.9 months is "2 years 1 month": both parts are floored |
| Calculator.ErrorKey | src/App.jsx:128-133 | every numeric field's flag key is one of the ten keys of the initial error map |
| Calculator.ErrorKeyInjective | src/App.jsx:128-133 | distinct fields have distinct flag keys |
| Calculator.InputRange | src/App.jsx:357-457 | every input has minimum 0; only the two call and conversion percentages (at most 100) and the overhead (at most 200) have a maximum |
| Calculator.Set | src/App.jsx:286-289 | a setter changes its own field to the new value and leaves every other input unchanged |
| Calculator.InitialForm | src/App.jsx:112-139 | the first render has no flag set, a flag for each of the ten numeric fields, and the professional tier's costs |
| Calculator.NumberInputChanged | src/App.jsx:282-291 | an edit stores the accepted number or the raw entry in its field, sets that field's flag exactly when the entry is rejected, and changes no other field or flag |
| Calculator.PresetFlagsCleared | src/App.jsx:276-279 | the seven flags an industry change writes are all cleared |
| Calculator.IndustryChanged | src/App.jsx:265-280 | an industry change records the key, loads the seven preset values (plumbing's for an unknown key), clears their flags, and leaves the other inputs, the tier costs and the other flags unchanged |
| Calculator.TierSelected | src/App.jsx:170-176 | selecting a listed tier installs its three costs; an unknown key is recorded and changes no input |
| Calculator.DaysOpenSelected | src/App.jsx:348 | the days select replaces the days mode only, and touches no flag |
| Calculator.CalculateReadsCoercedValues | src/App.jsx:182-191 | two input states whose fields coerce to the same numbers calculate to the same results |
| Calculator.RejectedEntryStillCalculated | src/App.jsx:282-291 | after any edit, accepted or rejected, the results are those of the typed number (0 for NaN) stored as accepted |
| Calculator.AggregateAfterEdit | src/App.jsx:165-168 | after an edit the aggregate error is set exactly when the entry was rejected or another field's flag was already set |
| Calculator.NegativeCallsReachCalculation | src/App.jsx:284-286 | -3 daily business-hour calls over the defaults is flagged and still gives 60 monthly calls |
| Calculator.OverRangeRateReachesCalculation | src/App.jsx:433 | a 150% conversion rate over the defaults is flagged and still gives 50760 of potential monthly revenue |
| Calculator.IndustryChangeIdempotent | src/App.jsx:265-280 | loading the same industry twice changes nothing the second time |
| Calculator.IndustryChangeLastWins | src/App.jsx:265-280 | an industry change overwrites everything an earlier one set, so "A, then B, then A" is "A" |
| Calculator.UnknownIndustryLoadsPlumbing | src/App.jsx:268 | an unknown industry key loads the same inputs as plumbing but records the unknown key |
| Calculator.TierSelectionPricesByTier | src/App.jsx:170-176 | after any earlier selection, selecting a listed tier leaves exactly its costs in place, and the AI cost figures are priced by that tier |
| Calculator.DefaultScenario | src/App.jsx:115-139 | the first render gives 600 calls, 240 missed, 4399.2 monthly revenue, a 3900 human cost, a 5274.2 net benefit, a 64790.4 yearly net benefit, about 178.5% ROI, and payback texts "Less than 1 month" (replace) and "1 month" (enhance) |
| Calculator.DefaultInputsCoerced | src/App.jsx:182-191 | the first render's stored values coerce to the plumbing preset's numbers and the default wages |
| Calculator.DefaultFigures | src/App.jsx:193-236 | the calculation block on those numbers gives the figures listed for the first render |
| Calculator.HasErrors | src/App.jsx:166 | the loop returns true exactly when some flag of the map is set |
| Calculator.RoiCalculator.ButtonEnabled | src/App.jsx:465-483 | in a valid state the button is enabled exactly when no flag is set, and the results on display are those of the current inputs |
| Calculator.RoiCalculator.constructor | src/App.jsx:112-139 | the component starts in the initial state with its effects run |
| Calculator.RoiCalculator.RunEffects | src/App.jsx:165-253 | the aggregate flag becomes that of the error map and the results those of the current inputs |
| Calculator.RoiCalculator.HandleNumberInputChange | src/App.jsx:282-291 | the new state is NumberInputChanged of the old one, with the effects run |
| Calculator.RoiCalculator.RecordEntry | src/App.jsx:285-289 | the handler's field and flag updates, as NumberInputChanged states them |
| Calculator.RoiCalculator.SetField | src/App.jsx:286-289 | the field's setter changes that input alone |
| Calculator.RoiCalculator.HandleIndustryChange | src/App.jsx:265-280 | the new state is IndustryChanged of the old one, with the effects run |
| Calculator.RoiCalculator.LoadIndustry | src/App.jsx:266-279 | the handler's key, preset and flag updates, as IndustryChanged states them |
| Calculator.RoiCalculator.LoadPreset | src/App.jsx:269-275 | the seven preset setters change exactly those inputs |
| Calculator.RoiCalculator.SelectTier | src/App.jsx:170-176 | the new state is TierSelected of the old one, with the effects run; the costs remain a listed tier's |
| Calculator.RoiCalculator.ApplyTier | src/App.jsx:171-175 | the tier effect's updates, as TierSelected states them |
| Calculator.RoiCalculator.SelectDaysOpen | src/App.jsx:348 | the new state is DaysOpenSelected of the old one, with the effects run |

## Left out

- Rendering: the JSX markup, the result cards and the number formatting helper `safeLocaleString` are display only. The last shows 'N/A' or a fallback for non-finite values.
- The analysis mode ('replace' or 'enhance'): it only chooses which result cards are shown. Both scenarios' figures are always calculated and are modelled.
- Printing, scrolling to the results, the external links and the `try`/`catch` around the calculation (which only logs): these are browser I/O.
- React scheduling: each handler method runs the effects that the change triggers at its end. The initial all-zero results record, which exists only until the first effect runs, is not modelled. The constructor runs the effects right away.
- Number parsing: an entry is given already parsed, as whether its trimmed text is blank and what `Number(text)` yields (a number or NaN). The parsing of strings is not modelled.
- Floating point: money, counts and rates are exact reals. IEEE-754 rounding and overflow to `Infinity` are not modelled. For example, the first render's enhance gain `4399.2 - 2900` evaluates to 1499.1999999999998 in JavaScript, while Calculator.DefaultScenario states 1499.2. `Infinity` occurs only as the deliberate sentinel results.
- Key lookup: `pricingTiers[key]` and `industryPresets[key]` are modelled as membership of the tables' own keys. JavaScript would also find names inherited from `Object.prototype` (such as "constructor" or "toString"), which would load `undefined` into the preset fields or the tier costs. No select produces such a key (src/App.jsx:336-342, 385-391), so these are left out.
- Tier names and descriptions, and the industry labels shown in the select: display text.
- src/main.jsx and the build and style configuration files: they mount the component and configure tooling, and hold no calculator logic.

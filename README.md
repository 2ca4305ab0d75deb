# Altalyze calculators — a verified Dafny model

Altalyze is a browser page with two calculators. The **portfolio profit
simulator** projects a lump sum plus yearly contributions at a compound
yearly rate, shows the final value, the money invested and the profit, and
charts the value year by year. The **startup valuation calculator** scores
revenue growth and profit margin into a revenue multiple, values the company
in rupees, converts that figure to dollars with a USD/INR rate fetched once
at page load, picks a qualitative profile sentence, and judges LTV/CAC unit
economics. Every form field goes through one numeric input normaliser first.

This project models that logic in Dafny and proves what it promises:

- `wrappers.dfy` — `Option` (the source's `null`) and `Result` (a refused form, in both calculators).
- `numeric_input.dfy` — `parseNumericInput`: separator stripping and the
  finite-or-zero rule. The host's `Number()` conversion is a parameter.
- `portfolio.dfy` — the portfolio submit handler: validation, the lump-sum and
  ordinary-annuity closed formulas, totals and profit, and the chart loop as a
  `method` with a `while` loop over growing sequences. The closed formulas are
  proved equal to an independent year-by-year recurrence
  (`Balance(n+1) = Balance(n)·(1+r) + contribution`). Monotonicity, profit ≥ 0
  and the zero-rate case are proved through that recurrence.
- `valuation.dfy` — the valuation submit handler: growth and margin buckets, the
  clamped multiple, the first-match profile table, the LTV/CAC verdict and the
  dollar conversion, with the current rate passed in as a value.
- `fx_rate.dfy` — the page-wide `usdInrRate` variable as a class with an
  optional field. It starts unset and is written when the rate request completes.
- `chart_ticks.dfy` — the y-axis tick label callback (crore / lakh / thousand).

All arithmetic is over exact `real`s.

The dollar figure is the rupee valuation divided by the rate
(script.js:275); the model proves `usd · rate == valuationInr`.

## Model

| member | source | states |
|---|---|---|
| NumericInput.StripSeparators | script.js:20 | the cleaned text has no comma or blank, is no longer than the input, and keeps exactly as many copies of every other character |
| NumericInput.StripConcat | script.js:20 | stripping distributes over concatenation, so the kept characters stay in their original order |
| NumericInput.StripClean | script.js:20 | a text without separators is left unchanged |
| NumericInput.StripIdempotent | script.js:20 | stripping twice is the same as stripping once |
| NumericInput.ParseNumericInput | script.js:18-23 | null gives 0; otherwise a finite parse of the stripped text is returned, and NaN or ±Infinity gives 0; the result is always a finite number |
| NumericInput.SeparatorInsensitive | script.js:18-23 | inserting a comma or blank anywhere in the input does not change the normalised number |
| NumericInput.ParseOfStripped | script.js:18-23 | normalising the already stripped text gives the same number as normalising the raw text |
| Portfolio.Pow | script.js:72 | a whole power of a non-negative base is non-negative, of a base ≥ 1 is ≥ 1, and of 1 is 1 |
| Portfolio.Rejected | script.js:60-65 | the handler's guard: initial < 0, contribution < 0, rate < 0 or years ≤ 0 |
| Portfolio.FutureValue | script.js:72-82 | the closed formulas given the growth factor: with no contribution the value is the grown lump sum alone, and at rate 0 it is the grown lump sum plus contribution × years |
| Portfolio.ValueAt | script.js:98-108 | the chart value for year k by the closed formulas: year 0 is the initial amount, and at rate 0 year k is initial + contribution × k |
| Portfolio.AnnuityStep | script.js:76-77 | one more year of the annuity formula equals the previous year's value grown by the rate plus one contribution |
| Portfolio.FutureValueStep | script.js:72-82 | for any growth factor reached so far, one more year of the closed formulas (lump sum, annuity branch, zero-rate branch, or no contribution) equals last year's value grown by the rate plus one contribution |
| Portfolio.ValueAtStep | script.js:72-82 | the value after n years by the closed formulas is the value after n − 1 years grown by the rate, plus one contribution |
| Portfolio.ValueAtIsBalance | script.js:72-82 | for every non-negative contribution and rate, the closed formulas equal the year-by-year balance: grow by the rate, then add the contribution |
| Portfolio.BalanceCoversInvestment | script.js:82-84 | with non-negative inputs, the value after n years is at least initial + contribution × n, so the profit is never negative |
| Portfolio.ZeroRateBalance | script.js:78-79 | with a zero rate, the value after n years is exactly initial + contribution × n |
| Portfolio.BalanceStepNonDecreasing | script.js:98-108 | with non-negative inputs, the value never falls from one year to the next |
| Portfolio.ValueAtMonotone | script.js:98-108 | with non-negative inputs, a later year's chart value is never below an earlier year's |
| Portfolio.Project | script.js:60-84 | the input is refused (`Err(InvalidInput)`) exactly when initial < 0, contribution < 0, rate < 0 or years ≤ 0; otherwise final value = year-by-year balance, invested = initial + contribution × years, profit = final − invested ≥ 0, and at rate 0 the final value is the money invested and the profit is 0 |
| Portfolio.TenYearsAtTenPercent | script.js:70-84 | 100,000 at 10% for 10 years with no contribution ends at 259,374.24601 with profit 159,374.24601 |
| Portfolio.YearlySeries | script.js:92-110 | the loop yields one label and one point per year 0..years, the point for year k being the portfolio value after k years |
| Portfolio.SubmitPortfolio | script.js:60-110 | the form is refused exactly when the guard holds; otherwise the figures are those of `Project`, the series has years + 1 points, label k is k and point k is the year-by-year balance after k years, the series starts at the initial amount, ends at the result box's final value, and is non-decreasing |
| Valuation.GrowthScore | script.js:232-236 | the score is 1, 2 or 3; it is 1 exactly for growth < 10 and 3 exactly for growth ≥ 25 |
| Valuation.MarginScore | script.js:238-243 | the score is 0, 1, 2 or 3; it is 0 exactly for a negative margin, 1 exactly for 0 ≤ margin < 10, 3 exactly for margin ≥ 20, and so 2 exactly for 10 ≤ margin < 20 |
| Valuation.GrowthScoreMonotone | script.js:232-236 | higher growth never scores lower |
| Valuation.MarginScoreMonotone | script.js:238-243 | a higher margin never scores lower |
| Valuation.Clamp | script.js:248-249 | the result lies in [lo, hi] and equals the input when the input is already in the band |
| Valuation.Multiple | script.js:245-249 | the multiple is 1.5 + growth score + margin score: the clamp to [1, 10] never takes effect, and the multiple always lies in [2.5, 7.5] |
| Valuation.MultipleMonotone | script.js:232-249 | raising growth or margin never lowers the multiple |
| Valuation.ChooseProfile | script.js:253-269 | the first-match table's choice always lies in the region of the (growth, margin) plane that profile stands for |
| Valuation.ProfileIsUniqueRegion | script.js:253-269 | the first-match table picks profile p exactly when the input lies in p's region; the four guarded regions are disjoint, so exactly one of the five texts results and the order of the guards decides nothing |
| Valuation.ProfileBoundsMultiple | script.js:232-269 | a compelling profile implies a multiple ≥ 6.5, a balanced one ≥ 5.5, a steady one ≤ 3.5, and high growth while loss-making gives exactly 4.5 |
| Valuation.VerdictOf | script.js:287-297 | ratio < 1 is unfavourable, 1 ≤ ratio < 3 is reasonable (so ratio 1 is reasonable), ratio ≥ 3 is attractive |
| Valuation.AssessUnitEconomics | script.js:283-303 | the LTV/CAC section exists exactly when ltv > 0 and cac > 0, and its ratio times cac is ltv |
| Valuation.VerdictWithoutDivision | script.js:283-297 | the verdict is unfavourable exactly when ltv < cac, reasonable exactly when cac ≤ ltv < 3·cac, and attractive exactly when ltv ≥ 3·cac |
| Valuation.ToUsd | script.js:274-279 | the dollar figure exists exactly when the rate is set and non-zero, and then times the rate gives the rupee valuation (division, not multiplication) |
| Valuation.Score | script.js:225-303 | revenue ≤ 0 is refused and nothing is computed; otherwise the multiple is `Multiple(growth, margin)` (so 1.5 + both scores, in [2.5, 7.5]), valuation = revenue × multiple, the profile is the table's choice, the dollar figure exists iff a non-zero rate is known and is valuation / rate, and the LTV/CAC section is `AssessUnitEconomics(ltv, cac)`: present iff both are positive, with its ratio and verdict |
| FxRate.RateAfterFetch | script.js:185-202 | after the request completes, a rate is stored exactly when the payload's INR field is a non-zero number, and it is that number |
| FxRate.RateCell.constructor | script.js:182 | at page load no rate is known |
| FxRate.RateCell.CompleteFetch | script.js:190-201 | the cell is set to the truthy INR figure, or cleared on a missing or zero field and on any failure |
| FxRate.RateCell.SubmitValuation | script.js:274-279 | a submission uses the rate stored now: the dollar figure is shown exactly when a rate is stored, and is valuation / rate |
| FxRate.NoRateNoConversion | script.js:195-200 | when the request fails or brings no usable rate, every accepted valuation is marked as having no dollar conversion |
| ChartTicks.LabelFor | script.js:155-160 | the label always stands for exactly the tick value; crores are used from 1e7 up, lakhs from 1e5 up, and thousands below that; the number is ≥ 1 in crores and lakhs, and < 100 below crores for non-negative ticks |
| ChartTicks.LabelUnitMonotone | script.js:155-160 | a larger tick never gets a smaller unit |
| ChartTicks.LargestFittingUnit | script.js:155-160 | from 1,000 up, the label uses the largest unit that keeps its number at least 1 |

## Left out

- Portfolio.Project: covers whole-number horizons only (`requires WholeYears`). For a fractional horizon the source's final value uses a fractional exponent while its chart loop stops at the whole year below it, so the two disagree. Fractional powers are not modelled.
- Portfolio.SubmitPortfolio: covers whole-number horizons only, for the same reason as Portfolio.Project.
- Portfolio.YearlySeries: chart points are kept exact; the source rounds each to a whole rupee with `Math.round` for display. The labels are year numbers; the source writes them as strings with `String(year)`, and its `year === 0 ? "0"` branch gives the same text.
- NumericInput.ParseNumericInput: the host's `Number()` conversion (hex, exponents, "Infinity", empty text as 0) is a parameter, not modelled. Field values are strings or null. The handlers' `value || 0` turns an empty field into the number 0, which normalises to 0 just as the empty string does.
- Valuation.Score: the revenue guard's `Number.isFinite` test is always true here, because normalised input is a finite real.
- FxRate.RateAfterFetch: the INR field is modelled as a number or absent. A truthy non-number (a string, say) is assigned, but `rate.toFixed(2)` then throws and the catch clears the rate before any submission runs (script.js:192-200). So it is modelled as an absent field, `Received(None)`.
- The network request itself (`fetch`, `res.ok`, `res.json`) and its asynchrony are left out. Its three outcomes are one input value, `FetchOutcome`.
- Currency formatting (`formatINR`, `formatUSD`, `toLocaleString`), `toFixed` and display-time `Math.round` are left out: they are locale and floating-point presentation.
- The profile sentences and LTV/CAC notes (script.js:255-268, 289-296) are not modelled as strings. Each is a constructor of `Profile` or `Verdict`, and the datatypes' comments name the sentence each one stands for.
- The number-to-string step of the tick labels is left out: a label is modelled as a number and a unit.
- IEEE-754 rounding is left out: all arithmetic, including `Math.pow`, is exact.
- Tab switching, DOM lookups and writes, `alert` dialogs and Chart.js construction, styling and `destroy` are left out: they are user-interface plumbing. A refused form appears as `Err` instead of an alert.

# Compound-interest simulator, modelled in Dafny

The simulator ("Simulador de Juros Compostos") takes six form fields: an initial
value, a monthly contribution, an interest rate stated per year or per month, and
a period stated in months or years. It turns them into a month-by-month series of
balances and then shows that series as headline figures, a chart and a table.

This project models the parts that have logic:

- `app.dfy` (module `App`) covers the calculation in `App.tsx`. It converts the
  rate to a monthly rate and the period to a horizon in months. Then it runs the
  accumulation loop, which starts from point 0. Each month interest accrues on the
  previous balance, the contribution is added and one point is appended. Finally
  the result record is read off the running values.
  - The loop is the method `Accumulate`. It is proved equal to the recursive
    specification `Series`, and the properties of the calculation are proved as
    lemmas about `Series`.
  - The page's result state is the class `AppState`.
  - `SubmitForm` and `ClearForm` connect the form's submit and clear buttons to
    the page.
- `calculator_form.dfy` (module `CalculatorForm`) covers how typed text becomes
  field values.
  - Currency text is reduced to its digits, which are read as cents.
  - Number text is defaulted to 0 when empty and clamped at 0.
  - A change event updates exactly one field of the form record. Clearing
    restores the defaults.
  - The form's state is the class `FormState`.
- `results.dfy` (module `Results`) covers the chart series. There is one chart
  point per month. When the series spans more than 24 months, only the
  whole-year points are kept and they are relabelled in years.
- `app_results.dfy` (module `AppResults`) connects the two: the page renders the
  result view with the calculation's output, and `ChartOfCalculation` states
  what the chart then plots.
- `types.dfy` (module `Types`) holds the records `FormData`, `MonthlyData` and
  `CalculationResult`.

All money is `real`, so the arithmetic is exact.

The platform's real-exponent power cannot be computed exactly. The monthly rate
for an annual rate therefore enters as a parameter, `annualRoot`. Where a lemma
needs it, the predicate `IsMonthlyEquivalent` states what that parameter is:
twelve months at `annualRoot` compound to one year at the annual rate.

The loop runs while `month <= totalMonths`, and `totalMonths` may be fractional.
`Horizon` gives the number of months this runs: the number of whole months m
with 1 <= m <= totalMonths.

`handleCalculate` (App.tsx:18, 33) accepts any number as the period, and the
model follows the code:

- a period of 2.5 months runs two months;
- a period below one month runs none.

The code also adds the contribution in every month, including the last one. The
guard at `App.tsx:38` is always true inside the loop.

## Model

| member | source | states |
|---|---|---|
| `App.MonthlyRate` | App.tsx:14-16 | a monthly rate is the rate in per cent divided by 100; an annual rate, entered through its monthly equivalent `annualRoot`, gives a monthly rate that compounds over twelve months to one year at the annual rate |
| `App.TotalMonths` | App.tsx:18 | a whole number of years k runs 12k months; a non-negative number of months p runs floor(p) months |
| `App.Opening` | App.tsx:20-31 | the opening point has month 0, no interest, no interest total, the initial value invested, and balance = invested + interest |
| `App.NextMonth` | App.tsx:34-49 | a month's interest is the previous balance times the rate; the interest total grows by that interest, the invested total by the contribution, the balance by both; balance = invested + interest is preserved |
| `App.StepAt` | App.tsx:33-49 | within any horizon, point m is the month computed from point m - 1 |
| `App.Summarize` | App.tsx:52-57 | the result keeps the series and reads the final value, invested and interest totals off its last point; final = invested + interest when the last point keeps that invariant |
| `App.Calculate` | App.tsx:11-58 | the result has Horizon + 1 points, and point 0 is month 0 with no interest and the initial value invested and accumulated |
| `App.Horizon` | App.tsx:33 | the loop runs for no month exactly when the horizon is below one month; otherwise it runs for n months, where n <= horizon < n + 1 |
| `App.Series` | App.tsx:20-50 | the series for a horizon of n months has n + 1 points |
| `App.Accumulate` | App.tsx:20-57 | the loop builds exactly the series `Series` for `Horizon(totalMonths)`, with `Horizon + 1` points; the final value, invested total and interest total are those of the last point, and final value = invested + interest |
| `App.SeriesPrefix` | App.tsx:33-50 | the series is append-only: point m is the same for every horizon n >= m |
| `App.OpeningPoint` | App.tsx:20-31 | point 0 has month 0, no interest, no interest total, and invested = balance = initial value |
| `App.MonthStep` | App.tsx:34-41 | month m's interest is month m - 1's balance times the monthly rate; it is added to the interest total and the balance before the contribution, which is added on every month including the last |
| `App.PointInvariant` | App.tsx:33-49 | point m has month m, invested = initial + m * contribution, and balance = invested + interest total, exactly |
| `App.RunningInterest` | App.tsx:34-35 | the interest total at month m is the sum of the per-month interest of points 0..m |
| `App.ZeroRate` | App.tsx:34-40 | at a zero monthly rate every point has no interest, no interest total, and balance = invested |
| `App.BalanceAtLeastInitial` | App.tsx:34-41 | with non-negative initial value, contribution and rate, no balance falls below the initial value |
| `App.Monotone` | App.tsx:34-41 | with non-negative initial value, contribution and rate, the balance and the invested total never decrease from one point to a later one |
| `App.CalculationShape` | App.tsx:52-57 | the result has Horizon + 1 points, and its final value, invested total and interest total are the last point's; invested = initial + months * contribution and final = invested + interest |
| `App.ShortHorizon` | App.tsx:18-33 | a horizon below one month (zero, negative or fractional) gives point 0 only: final value = invested = initial value, no interest |
| `App.YearsHorizon` | App.tsx:18 | a period of k years runs 12k months |
| `App.MonthsHorizon` | App.tsx:18 | a period of p >= 0 months runs floor(p) months; 2.5 months runs two |
| `App.MonthlyRateNonNegative` | App.tsx:14-16 | a non-negative rate gives a non-negative monthly rate, both for a monthly rate (rate / 100) and for an annual rate given its twelfth-root equivalent |
| `App.AnnualMonthlyEquivalence` | App.tsx:14-16 | an annual rate of x% and its monthly equivalent, entered as a monthly rate in per cent, produce the same calculation |
| `App.ZeroAnnualRoot` | App.tsx:14-15 | the only monthly equivalent of a 0% annual rate is 0 |
| `App.ZeroInterestRate` | App.tsx:14-16 | a rate of 0, annual or monthly, gives every point no interest, no interest total, and balance = invested |
| `App.ZeroAnnualRateScenario` | App.tsx:11-58 | initial 0, monthly 50, 0% a year, 10 years: 121 points, no interest, final value 6000 |
| `App.ZeroRateScenario` | App.tsx:11-58 | initial 0, monthly 50, rate 0, 3 months: final value 150, no interest, 4 points |
| `App.OneYearScenario` | App.tsx:11-58 | initial 1000, monthly 100, 12% a year, 1 year: 13 points, 2200 invested, month 1 interest = 1000 times the monthly rate and month 1 balance = 1000 plus that interest plus 100 |
| `App.AppState.constructor` | App.tsx:9 | the page starts with no result |
| `App.AppState.HandleCalculate` | App.tsx:11-58 | the page then holds the calculation of the submitted record |
| `App.AppState.HandleClear` | App.tsx:60-62 | the page then holds no result |
| `App.SubmitForm` | components/CalculatorForm.tsx:47-49 | submitting hands the form's current record, unchanged, to the calculation, and the page holds its result |
| `App.ClearForm` | components/CalculatorForm.tsx:58-61 | clearing restores the form defaults and drops the page's result |
| `CalculatorForm.InitialFormData` | components/CalculatorForm.tsx:10-17 | the defaults are 0, 0, 8, "annual", 10, "years", and every numeric default is non-negative |
| `CalculatorForm.DigitsOnly` | components/CalculatorForm.tsx:34 | stripping leaves only digits and never lengthens the text |
| `CalculatorForm.DigitsOnlyConcat` | components/CalculatorForm.tsx:34 | stripping the concatenation of two texts concatenates the stripped texts |
| `CalculatorForm.CurrencyValue` | components/CalculatorForm.tsx:33-35 | the stored currency value is non-negative, and 100 times it is the number the typed digits spell (0 when there are none), so it is a whole number of cents |
| `CalculatorForm.CurrencyDependsOnDigits` | components/CalculatorForm.tsx:34-35 | the stored value for a text equals the stored value for its digits alone |
| `CalculatorForm.NonDigitIgnored` | components/CalculatorForm.tsx:34 | inserting a non-digit character anywhere in the text leaves the stored value unchanged |
| `CalculatorForm.NoDigitsStoresZero` | components/CalculatorForm.tsx:35 | text without a digit (empty, separators, letters) stores 0 |
| `CalculatorForm.AppendDigitShiftsCents` | components/CalculatorForm.tsx:34-35 | typing digit d after a text storing v stores 10v + d/100 |
| `CalculatorForm.NumberValue` | components/CalculatorForm.tsx:39-42 | a number input stores 0 for empty text, 0 for a negative parsed value, the parsed value otherwise, and never a negative value |
| `CalculatorForm.ProcessedValue` | components/CalculatorForm.tsx:33-44 | currency and number controls store a non-negative number; the select controls store their raw text unchanged |
| `CalculatorForm.ApplyChange` | components/CalculatorForm.tsx:36-43 | a change event sets the named field to its processed value and leaves every other field as it was |
| `CalculatorForm.NumericFieldsStayNonNegative` | components/CalculatorForm.tsx:30-45 | after any sequence of change events from the defaults, the four numeric fields are non-negative |
| `CalculatorForm.FormState.constructor` | components/CalculatorForm.tsx:28 | the form starts with the defaults |
| `CalculatorForm.FormState.HandleChange` | components/CalculatorForm.tsx:30-45 | the record becomes the old record with only the named field changed to the processed value |
| `CalculatorForm.FormState.HandleClearForm` | components/CalculatorForm.tsx:58-59 | every field returns to its default: 0, 0, 8, "annual", 10, "years" |
| `Results.ChartData` | components/Results.tsx:14-18 | one chart point per month, in order, with x = month and the invested total and balance of that month |
| `Results.PeriodUnit` | components/Results.tsx:20 | the axis is in years exactly when the series has 26 points or more, i.e. spans more than 24 months |
| `Results.YearPoints` | components/Results.tsx:22 | the filter never adds points, and every point it keeps has a month divisible by 12, so the `periodo === 0` disjunct is redundant |
| `Results.InYears` | components/Results.tsx:22 | relabelling keeps every point and only replaces x by x / 12 |
| `Results.ChartDataTransformed` | components/Results.tsx:21-23 | the plotted series is never longer than the data; on a monthly axis it is the chart data; on a yearly axis it has one point per kept whole-year point, with x = that point's month / 12 |
| `Results.ShortSeriesPlotsEveryMonth` | components/Results.tsx:20-23 | with at most 24 months the axis is in months and the plotted series is the chart data unchanged |
| `Results.YearPointsSubsequence` | components/Results.tsx:22 | the kept points are an order-preserving subsequence of the chart points |
| `Results.YearPointsComplete` | components/Results.tsx:22 | every chart point whose month is divisible by 12 is kept |
| `Results.YearPointsMembers` | components/Results.tsx:22 | every kept point is one of the chart points |
| `Results.MonthZeroKept` | components/Results.tsx:22 | when the first point is month 0, it is the first point kept |
| `Results.YearPointsOfMonths` | components/Results.tsx:14-22 | for months 0..N exactly N/12 + 1 points are kept, point k being month 12k |
| `Results.LongSeriesPlotsYears` | components/Results.tsx:20-22 | with more than 24 months the axis is in years and, for months 0..N, the plotted points are x = 0..N/12, point k carrying month 12k's amounts |
| `Results.YearlyPointsFromWholeYears` | components/Results.tsx:20-22 | on a yearly axis every plotted point comes from a month divisible by 12, with x = month / 12 |
| `AppResults.ChartOfCalculation` | components/Results.tsx:14-23 | a calculation of N months plots every month when N <= 24; otherwise it plots N/12 + 1 points, year k with x = k and with initial + 12k * contribution invested |

## Left out

- The de-annualisation `Math.pow(1 + rate/100, 1/12) - 1` (App.tsx:15) is a
  real-exponent power. It is the parameter `annualRoot`, and the lemmas that need
  its meaning assume `IsMonthlyEquivalent`.
- Floating-point (IEEE-754) rounding is not modelled. Money is exact `real`, so
  the invariant balance = invested + interest holds exactly rather than within a
  tolerance.
- The `toFixed(2)` rounding of the plotted amounts (components/Results.tsx:16-17)
  is not modelled. A chart point carries the unrounded amounts.
- `parseFloat` is not modelled as a text parser.
  - Currency digits are read as an exact natural number, so precision loss on
    very long digit strings is not captured.
  - For number inputs, the change event carries the number the parser produced.
    A NaN result is not modelled.
- Which branch a change event takes depends on the `type` of its input control.
  The model fixes that type by the control's name, as the form declares it:
  - `interestRate` and `period` are number inputs;
  - the two selects are neither currency nor number inputs.
- All currency and locale formatting (`Intl.NumberFormat`, `toLocaleString`) and
  the formatted display of the currency fields are not modelled.
- React hooks are modelled as class fields. The following are not modelled:
  - the deferred `scrollIntoView` after submit;
  - the chart library;
  - the results table, which only displays each point;
  - the JSX markup.
- components/InfoSection.tsx and components/InputGroup.tsx are static text and
  layout only. They are not part of this model.

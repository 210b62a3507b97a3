# DCF valuation engine, modelled in Dafny

This project models `calculateDCF`, the valuation engine of a small stock-valuation tool. It takes seven
percentages (revenue growth, operating margin, discount rate, capex intensity, working-capital intensity,
tax rate, terminal growth rate), each written on a whole-number scale: 8.0 means 8 %, and fractions such as
2.5 % occur. It also takes an optional terminal-value method
('gordon' or 'multiple'), an optional exit multiple and an optional exit-multiple basis ('pe' or 'ebitda').
From these it works as follows:

- It projects five forecast years from a fixed base company: $1B revenue, $50M depreciation and 100M shares.
- Each year it computes revenue, operating profit, taxes, NOPAT, depreciation, capex, the level-to-level
  working-capital change, free cash flow and the present value of that cash flow.
- It accumulates the present values into a running total.
- It picks a terminal value: Gordon Growth, or an exit multiple on NOPAT or on operating profit plus
  depreciation.
- It discounts the terminal value and returns enterprise value and fair value per share.

Files:

- `types.dfy` (module `DcfTypes`): the records of `src/types.ts` and the argument object of the engine.
  Optional fields are `Option`s. The method and basis selectors are datatypes (`Gordon | Multiple`,
  `PE | EBITDA`).
- `dcf_calculator.dfy` (module `DcfCalculator`): the three company constants and the specification
  functions. There is one per step: `ProjectYear` for one forecast year, `Projection` for years 1..n,
  `SumPresentValues`, `TerminalValue` with `GordonGrowth`, `Assemble` for the final figures, and
  `Valuation` for the whole result. The engine itself is imperative:
  - `ProjectForecast` is the forecast loop. It keeps the previous working-capital level, the running
    present-value total and the (unused) running revenue and depreciation, and appends one entry per year.
  - `ForecastYear` is the body of that loop for one year.
  - `SelectTerminalValue` is the branch that assigns the terminal value.
  - `CalculateDCF` runs the forecast loop and the terminal-value branch, then assembles the result.

  Each method is proved equal to the specification functions.
- `dcf_properties.dfy` (module `DcfProperties`): the properties of the valuation, as lemmas.

Numbers are exact `real`s, an idealisation of the source's doubles. `Math.pow` is the recursive `Pow`.
Division is guarded by `WellDefined`. It requires a discount rate other than -100 %, so every discount
factor is nonzero. It also requires a discount rate other than the terminal growth rate, but only when
the Gordon Growth branch is taken, so that the Gordon denominator is nonzero.

Three details of the code shape the model:
- The exit-multiple basis is `'pe' | 'ebitda'` (`src/utils/dcfCalculator.ts:11`).
- The guard at `src/utils/dcfCalculator.ts:72` tests truthiness. So a multiple of 0 falls back to Gordon
  Growth just as a missing one does (`UsesExitMultiple`, `ExitMultipleGuard`).
- The result echoes the whole argument object, including the terminal-method fields
  (`src/utils/dcfCalculator.ts:100`).

## Model

| member | source | states |
|---|---|---|
| `DcfCalculator.Pow` | src/utils/dcfCalculator.ts:49-50 | a power of a nonzero base is nonzero and of a positive base positive, so a discount factor is never zero when the discount rate is not -100 % |
| `DcfCalculator.WorkingCapitalLevel` | src/utils/dcfCalculator.ts:16-43 | the working-capital level is 0 before year 1; after year y, while growth stays above −100 %, it is positive exactly when the intensity is positive and negative exactly when it is negative |
| `DcfCalculator.ProjectYear` | src/utils/dcfCalculator.ts:21-50 | a year's projection carries its year number, and its present value discounted back up by the year's factor gives its free cash flow |
| `DcfCalculator.Projection` | src/utils/dcfCalculator.ts:20-64 | the projection of n years has n entries with year fields 1..n in ascending order |
| `DcfCalculator.GordonGrowth` | src/utils/dcfCalculator.ts:84-86 | the Gordon value v satisfies v (1 + r/100) = (FCF + v)(1 + tg/100): adding next year's cash flow, growing at tg and discounting at r gives v back |
| `DcfCalculator.TerminalValue` | src/utils/dcfCalculator.ts:71-87 | under the guard, dividing the terminal value by the multiple gives back year-5 NOPAT ('pe') or year-5 operating profit plus depreciation ('ebitda'); otherwise it is the Gordon fixed point on year-5 free cash flow |
| `DcfCalculator.Assemble` | src/utils/dcfCalculator.ts:89-108 | the discounted terminal value times (1 + r/100)^5 is the terminal value of the final year; fair value = total present value + discounted terminal value; fair value per share × shares = fair value; shares, forecast, total and input are returned unchanged |
| `DcfCalculator.Valuation` | src/utils/dcfCalculator.ts:8-109 | the valuation has five forecast years, a total equal to the sum of their present values, echoes its input, and its fair value per share times the shares is the total present value plus the terminal value over (1 + r/100)^5 |
| `DcfCalculator.ForecastYear` | src/utils/dcfCalculator.ts:21-50 | one pass of the loop body, given the previous working-capital level, yields exactly the projection of that year and that year's working-capital level |
| `DcfCalculator.ProjectForecast` | src/utils/dcfCalculator.ts:13-68 | the loop's entries are exactly the five per-year projections in order and its running total is their present-value sum; it keeps the prior working-capital level (0 before year 1) and the unused running revenue and depreciation as loop invariants |
| `DcfCalculator.SelectTerminalValue` | src/utils/dcfCalculator.ts:71-87 | the branch assigns exactly the terminal value of the specification: exit multiple under the truthiness guard, Gordon Growth otherwise |
| `DcfCalculator.CalculateDCF` | src/utils/dcfCalculator.ts:8-109 | the engine's result is exactly the specified valuation of its input |
| `DcfProperties.ProjectionAt` | src/utils/dcfCalculator.ts:53-64 | entry k of the projection of n years is the projection of year k+1 |
| `DcfProperties.ForecastHorizon` | src/utils/dcfCalculator.ts:20-64 | the returned forecast has exactly 5 entries, with years 1, 2, 3, 4, 5 in ascending order, each the projection of its year |
| `DcfProperties.CompoundedEqualsChained` | src/utils/dcfCalculator.ts:22-35 | in exact arithmetic, revenue and depreciation compounded from the base each year equal the figures chained year over year from the previous year |
| `DcfProperties.DepreciationTracksRevenue` | src/utils/dcfCalculator.ts:34-35 | depreciation grows with revenue: each year it is one twentieth of revenue |
| `DcfProperties.IncomeLines` | src/utils/dcfCalculator.ts:22-38 | revenue is the base times (1 + g/100)^year; operating profit, taxes, NOPAT (= revenue · margin · (1 − tax rate)) and capex follow from revenue alone |
| `DcfProperties.CashFlowAndPresentValue` | src/utils/dcfCalculator.ts:45-50 | free cash flow is NOPAT + depreciation − capex − working-capital change, and its present value is it divided by the nonzero factor (1 + r/100)^year |
| `DcfProperties.WorkingCapitalFirstYear` | src/utils/dcfCalculator.ts:16-43 | year 1's working-capital change equals year 1's whole working-capital level, since the prior level starts at 0 |
| `DcfProperties.WorkingCapitalTelescopes` | src/utils/dcfCalculator.ts:40-43 | the working-capital changes of years 1..n add up to the year-n level |
| `DcfProperties.ForecastWorkingCapital` | src/utils/dcfCalculator.ts:40-43 | the five changes of the forecast add up to year 5's revenue times the working-capital intensity |
| `DcfProperties.SumFromFront` | src/utils/dcfCalculator.ts:17-51 | the running total kept in year order equals the first year's present value plus the total of the later years: in exact arithmetic the order of accumulation does not change the sum |
| `DcfProperties.SumOfFive` | src/utils/dcfCalculator.ts:17-51 | `SumPresentValues`, the year-order running total started at 0 (line 17) and advanced by each present value (line 51), over five entries is the sum of their five present values |
| `DcfProperties.TotalPresentValueIsSum` | src/utils/dcfCalculator.ts:17-51 | the returned total present value, the running total `SumPresentValues` of the forecast, equals the sum of the five returned present values |
| `DcfProperties.TerminalValueSelection` | src/utils/dcfCalculator.ts:71-87 | under the guard the terminal value is year-5 NOPAT × multiple for 'pe' and (operating profit + depreciation) × multiple for 'ebitda'; otherwise it is year-5 FCF · (1 + tg/100) / (r/100 − tg/100) |
| `DcfProperties.GordonDependsOnlyOnCashFlowAndRates` | src/utils/dcfCalculator.ts:82-87 | on the Gordon path the terminal value depends only on the final free cash flow, the discount rate and the terminal growth rate |
| `DcfProperties.ExitMultipleDependsOnlyOnBasis` | src/utils/dcfCalculator.ts:72-81 | on the exit-multiple path the terminal value depends only on the multiple and its basis, never on the rates or the free cash flow |
| `DcfProperties.ExitMultipleGuard` | src/utils/dcfCalculator.ts:72 | the guard predicate `UsesExitMultiple` fails, so the exit-multiple branch is skipped, exactly when the method is not 'multiple', the multiple is missing or 0, or the basis is missing |
| `DcfProperties.FallbackToGordon` | src/utils/dcfCalculator.ts:72-87 | with a missing or zero multiple, a missing basis, or an absent or 'gordon' method, the valuation equals that of an explicit 'gordon' call on the same assumptions (apart from the echoed input) |
| `DcfProperties.GordonFixedPoint` | src/utils/dcfCalculator.ts:84-86 | the Gordon value is the unique v with v (1 + r) = (FCF + v)(1 + g): one more year of growth, then one year of discounting, returns it (both directions) |
| `DcfProperties.GordonSign` | src/utils/dcfCalculator.ts:84-86 | for a positive final cash flow and growth above −100 %, the Gordon value is positive exactly when r > tg and negative exactly when r < tg |
| `DcfProperties.ValuationAssembly` | src/utils/dcfCalculator.ts:89-108 | the valuation's discounted terminal value is the terminal value over (1 + r/100)^5; its fair value, per-share value, shares and echoed input are assembled as above from the year-5 terminal value |
| `DcfProperties.DefaultScenarioYearOne` | src/App.tsx:9-17 | on the application's default assumptions, year 1 has revenue $1.08B, operating profit $162M, taxes $40.5M and NOPAT $121.5M |

## Left out

- CalculateDCF: computes over exact reals. IEEE rounding is not modelled. Neither are the Infinity/NaN
  results when the discount rate equals the terminal growth rate on the Gordon path, or when it is −100 %.
  Those inputs are excluded by the `WellDefined` precondition.
- UsesExitMultiple: a NaN multiple is also falsy in the source. NaN has no counterpart among reals.
- The fall-through when the basis is present but neither 'pe' nor 'ebitda' (the terminal value stays 0 at
  `src/utils/dcfCalculator.ts:71`) cannot occur under the declared type `'pe' | 'ebitda'`. It is not
  modelled as a separate case.
- The engine is one function in the source. Here its forecast loop (lines 13-68), the body of that loop
  (lines 21-50) and its terminal-value branch (lines 71-87) are separate methods, called in the same order.
  This keeps each proof small and changes no value.
- The running revenue and depreciation (lines 66-67) are updated but never read. The model keeps them and
  does not claim more about them than that.
- `formatCurrency`, `formatPercentage`, `formatPrice` and the inline `formatWithUnit` in `src/App.tsx`:
  these render numbers as strings, with float formatting and no domain logic.
- `src/App.tsx` state handling (scenario add/remove/rename, recomputation on change, ids from the clock,
  alerts), and the `Scenario` record that only it uses. This is user-interface glue around the engine.
- `src/components/*.tsx`: slider configuration, chart scaling and shading, random price history. These are
  rendering only.
- `dcf_fan_chart.py`: a separate plotting demo whose one-line compounding helper is unrelated to the engine.
- Monotonicity of fair value in growth, discount rate or terminal growth: the code does not guarantee it for
  arbitrary signs of margins and intensities.
- Determinism holds by construction: the valuation is a Dafny function of its input. No separate lemma
  states it.

/**
 * The valuation engine: a five-year discounted-cash-flow projection, a
 * terminal value chosen between Gordon Growth and an exit multiple, and the
 * resulting enterprise value and fair value per share.
 *
 * The pure functions below are the specification, one per step of the
 * computation; `CalculateDCF` is the engine itself, a loop over the five
 * forecast years proved equal to that specification.
 */
module DcfCalculator {
  import opened DcfTypes

  /** Example company data: starting annual revenue ($1B). */
  const BaseRevenue: real := 1000000000.0
  /** Example company data: starting annual depreciation ($50M). */
  const BaseDepreciation: real := 50000000.0
  /** Example company data: shares outstanding (100M). */
  const SharesOutstanding: real := 100000000.0
  /** The fixed length of the explicit forecast. */
  const Horizon: nat := 5

  /** `x` raised to the natural power `n`; nonzero and positive bases stay so. */
  function Pow(x: real, n: nat): (r: real)
    ensures x != 0.0 ==> r != 0.0
    ensures x > 0.0 ==> r > 0.0
  {
    if n == 0 then 1.0 else x * Pow(x, n - 1)
  }

  /** The discount factor is defined (nonzero) exactly when the discount rate is not -100 %. */
  predicate DiscountDefined(a: DcfAssumptions)
  {
    a.discountRate != -100.0
  }

  /** The cumulative growth multiplier of year `year`, compounded from the base. */
  function GrowthFactor(a: DcfAssumptions, year: nat): real
  {
    Pow(1.0 + a.revenueGrowthCAGR / 100.0, year)
  }

  /** The discount factor of year `year`. */
  function DiscountFactor(a: DcfAssumptions, year: nat): real
  {
    Pow(1.0 + a.discountRate / 100.0, year)
  }

  /** Revenue of year `year`: the base revenue times the growth multiplier. */
  function Revenue(a: DcfAssumptions, year: nat): real
  {
    BaseRevenue * GrowthFactor(a, year)
  }

  /** Depreciation of year `year`: the base depreciation times the same multiplier. */
  function Depreciation(a: DcfAssumptions, year: nat): real
  {
    BaseDepreciation * GrowthFactor(a, year)
  }

  /**
   * The working-capital level after year `year`: zero before year 1, then the
   * intensity's share of the year's revenue, so (while revenue stays positive)
   * it has the sign of the intensity.
   */
  function WorkingCapitalLevel(a: DcfAssumptions, year: nat): (r: real)
    ensures year == 0 ==> r == 0.0
    ensures year > 0 && a.revenueGrowthCAGR > -100.0 ==>
      (r > 0.0 <==> a.workingCapitalIntensity > 0.0) && (r < 0.0 <==> a.workingCapitalIntensity < 0.0)
  {
    if year == 0 then 0.0 else Revenue(a, year) * (a.workingCapitalIntensity / 100.0)
  }

  /**
   * The projection of one forecast year: revenue, operating profit, taxes,
   * NOPAT, depreciation, capex, working-capital change (level to level),
   * free cash flow and its present value.  Discounting the present value
   * back up by the year's discount factor gives the free cash flow again.
   */
  function ProjectYear(a: DcfAssumptions, year: nat): (c: DcfCalculation)
    requires 1 <= year
    requires DiscountDefined(a)
    ensures c.year == year
    ensures c.presentValue * DiscountFactor(a, year) == c.freeCashFlow
  {
    var revenue := Revenue(a, year);
    var operatingProfit := revenue * (a.operatingProfitMargin / 100.0);
    var taxes := operatingProfit * (a.taxRate / 100.0);
    var nopat := operatingProfit - taxes;
    var depreciation := Depreciation(a, year);
    var capex := revenue * (a.capexIntensity / 100.0);
    var workingCapitalChange := WorkingCapitalLevel(a, year) - WorkingCapitalLevel(a, year - 1);
    var freeCashFlow := nopat + depreciation - capex - workingCapitalChange;
    var presentValue := freeCashFlow / DiscountFactor(a, year);
    DcfCalculation(year, revenue, operatingProfit, taxes, nopat, depreciation,
                   capex, workingCapitalChange, freeCashFlow, presentValue)
  }

  /** The projections of years 1 to `n`, in ascending year order. */
  function Projection(a: DcfAssumptions, n: nat): (cs: seq<DcfCalculation>)
    requires DiscountDefined(a)
    ensures |cs| == n
    ensures forall k :: 0 <= k < n ==> cs[k].year == k + 1
  {
    if n == 0 then [] else Projection(a, n - 1) + [ProjectYear(a, n)]
  }

  /** The running total of the present values, summed in year order. */
  function SumPresentValues(cs: seq<DcfCalculation>): real
  {
    if cs == [] then 0.0 else SumPresentValues(cs[..|cs| - 1]) + cs[|cs| - 1].presentValue
  }

  /** The sum of the working-capital changes, in year order. */
  function SumWorkingCapitalChanges(cs: seq<DcfCalculation>): real
  {
    if cs == [] then 0.0
    else SumWorkingCapitalChanges(cs[..|cs| - 1]) + cs[|cs| - 1].workingCapitalChange
  }

  /**
   * The guard of the exit-multiple branch: the method is 'multiple' and both
   * the multiple and its basis are present and truthy (a multiple of 0 is
   * falsy and so falls back to Gordon Growth).
   */
  predicate UsesExitMultiple(i: CalculatorInput)
  {
    i.terminalMethod == Some(Multiple) && i.exitMultiple.Some? && i.exitMultiple.value != 0.0
    && i.exitMultipleType.Some?
  }

  /**
   * The inputs over which the valuation is defined: a nonzero discount factor
   * and, when the Gordon Growth branch is taken, a nonzero Gordon denominator.
   */
  predicate WellDefined(i: CalculatorInput)
  {
    DiscountDefined(i.assumptions)
    && (!UsesExitMultiple(i) ==> i.assumptions.discountRate != i.assumptions.terminalGrowthRate)
  }

  /**
   * Gordon Growth: final free cash flow grown one year, over (r - g), both as
   * fractions.  It is a fixed point of "add next year's cash flow, grow at g,
   * discount at r".
   */
  function GordonGrowth(finalFreeCashFlow: real, discountRate: real, terminalGrowthRate: real): (r: real)
    requires discountRate != terminalGrowthRate
    ensures r * (1.0 + discountRate / 100.0) == (finalFreeCashFlow + r) * (1.0 + terminalGrowthRate / 100.0)
  {
    finalFreeCashFlow * (1.0 + terminalGrowthRate / 100.0)
      / (discountRate / 100.0 - terminalGrowthRate / 100.0)
  }

  /**
   * The terminal value from the final forecast year: an exit multiple on
   * NOPAT ('pe') or on operating profit plus depreciation ('ebitda') when the
   * exit-multiple guard holds, and Gordon Growth otherwise.
   */
  function TerminalValue(i: CalculatorInput, year5: DcfCalculation): (r: real)
    requires !UsesExitMultiple(i) ==> i.assumptions.discountRate != i.assumptions.terminalGrowthRate
    ensures UsesExitMultiple(i) && i.exitMultipleType == Some(PE) ==> r / i.exitMultiple.value == year5.nopat
    ensures UsesExitMultiple(i) && i.exitMultipleType == Some(EBITDA) ==>
      r / i.exitMultiple.value == year5.operatingProfit + year5.depreciation
    ensures !UsesExitMultiple(i) ==>
      r * (1.0 + i.assumptions.discountRate / 100.0)
      == (year5.freeCashFlow + r) * (1.0 + i.assumptions.terminalGrowthRate / 100.0)
  {
    if UsesExitMultiple(i) then
      match i.exitMultipleType.value
      case PE => year5.nopat * i.exitMultiple.value
      case EBITDA => (year5.operatingProfit + year5.depreciation) * i.exitMultiple.value
    else
      GordonGrowth(year5.freeCashFlow, i.assumptions.discountRate, i.assumptions.terminalGrowthRate)
  }

  /**
   * The figures that follow the forecast: the terminal value from the final
   * year, its present value, the enterprise (fair) value and the fair value
   * per share, with the input echoed back.  Discounting back up recovers the
   * terminal value, and multiplying back by the share count recovers the fair
   * value.
   */
  function Assemble(i: CalculatorInput, calculations: seq<DcfCalculation>, totalPresentValue: real): (r: DcfResult)
    requires WellDefined(i)
    requires |calculations| == Horizon
    ensures r.presentValueTerminalValue * DiscountFactor(i.assumptions, Horizon) == r.terminalValue
    ensures r.terminalValue == TerminalValue(i, calculations[4])
    ensures r.fairValue == totalPresentValue + r.presentValueTerminalValue
    ensures r.fairValuePerShare * SharesOutstanding == r.fairValue
    ensures r.sharesOutstanding == SharesOutstanding
    ensures r.assumptions == i && r.calculations == calculations && r.totalPresentValue == totalPresentValue
  {
    var terminalValue := TerminalValue(i, calculations[|calculations| - 1]);
    var presentValueTerminalValue := terminalValue / DiscountFactor(i.assumptions, Horizon);
    var fairValue := totalPresentValue + presentValueTerminalValue;
    DcfResult(i, calculations, terminalValue, presentValueTerminalValue, totalPresentValue,
              fairValue, SharesOutstanding, fairValue / SharesOutstanding)
  }

  /**
   * The whole valuation, as a function of the input: five forecast years, and
   * a fair value per share that, times the share count, is the sum of the
   * present values plus the discounted terminal value.
   */
  function Valuation(i: CalculatorInput): (r: DcfResult)
    requires WellDefined(i)
    ensures |r.calculations| == Horizon
    ensures r.totalPresentValue == SumPresentValues(r.calculations)
    ensures r.fairValuePerShare * SharesOutstanding
         == r.totalPresentValue + r.terminalValue / DiscountFactor(i.assumptions, Horizon)
    ensures r.assumptions == i
  {
    var calculations := Projection(i.assumptions, Horizon);
    Assemble(i, calculations, SumPresentValues(calculations))
  }

  /**
   * The body of the forecast loop for one year: the year's lines from
   * revenue down to the present value of its free cash flow, given the
   * working-capital level the previous year left.  The entry is exactly the
   * projection of that year, and the new level is the year's level.
   */
  method ForecastYear(a: DcfAssumptions, year: nat, cumulativeWorkingCapital: real)
    returns (entry: DcfCalculation, workingCapital: real)
    requires 1 <= year
    requires DiscountDefined(a)
    requires cumulativeWorkingCapital == WorkingCapitalLevel(a, year - 1)
    ensures entry == ProjectYear(a, year)
    ensures workingCapital == WorkingCapitalLevel(a, year)
  {
    var revenueGrowth := Pow(1.0 + a.revenueGrowthCAGR / 100.0, year);
    var revenue := BaseRevenue * revenueGrowth;
    var operatingProfit := revenue * (a.operatingProfitMargin / 100.0);
    var taxes := operatingProfit * (a.taxRate / 100.0);
    var nopat := operatingProfit - taxes;
    var depreciation := BaseDepreciation * revenueGrowth;
    var capex := revenue * (a.capexIntensity / 100.0);
    workingCapital := revenue * (a.workingCapitalIntensity / 100.0);
    var workingCapitalChange := workingCapital - cumulativeWorkingCapital;
    var freeCashFlow := nopat + depreciation - capex - workingCapitalChange;
    var discountFactor := Pow(1.0 + a.discountRate / 100.0, year);
    var presentValue := freeCashFlow / discountFactor;
    entry := DcfCalculation(year, revenue, operatingProfit, taxes, nopat, depreciation,
                            capex, workingCapitalChange, freeCashFlow, presentValue);
  }

  /**
   * The forecast loop of the engine: projects the five years one after
   * another, keeping the previous working-capital level and the running total
   * of present values.  The entries are exactly the per-year projections and
   * the total is their sum.  The running revenue and depreciation are kept as
   * the engine keeps them, although nothing reads them.
   */
  method ProjectForecast(a: DcfAssumptions) returns (calculations: seq<DcfCalculation>, totalPresentValue: real)
    requires DiscountDefined(a)
    ensures calculations == Projection(a, Horizon)
    ensures totalPresentValue == SumPresentValues(calculations)
  {
    calculations := [];
    var currentRevenue := BaseRevenue;
    var currentDepreciation := BaseDepreciation;
    var cumulativeWorkingCapital := 0.0;
    totalPresentValue := 0.0;

    for year := 1 to Horizon + 1
      invariant calculations == Projection(a, year - 1)
      invariant cumulativeWorkingCapital == WorkingCapitalLevel(a, year - 1)
      invariant totalPresentValue == SumPresentValues(calculations)
      invariant currentRevenue == Revenue(a, year - 1)
      invariant currentDepreciation == Depreciation(a, year - 1)
    {
      var entry, workingCapital := ForecastYear(a, year, cumulativeWorkingCapital);
      cumulativeWorkingCapital := workingCapital;
      var previous := calculations;
      calculations := calculations + [entry];
      assert calculations[..|calculations| - 1] == previous;
      totalPresentValue := totalPresentValue + entry.presentValue;
      currentRevenue := entry.revenue;
      currentDepreciation := entry.depreciation;
    }
  }

  /**
   * The terminal-value choice of the engine: the exit multiple on the final
   * year's NOPAT or EBITDA proxy when the method is 'multiple' and both the
   * multiple and its basis are present and truthy; Gordon Growth on the final
   * year's free cash flow in every other case (no method, 'gordon', a missing
   * or zero multiple, a missing basis).
   */
  method SelectTerminalValue(input: CalculatorInput, year5: DcfCalculation) returns (terminalValue: real)
    requires WellDefined(input)
    ensures terminalValue == TerminalValue(input, year5)
  {
    var a := input.assumptions;
    terminalValue := 0.0;
    if input.terminalMethod == Some(Multiple) && input.exitMultiple.Some?
       && input.exitMultiple.value != 0.0 && input.exitMultipleType.Some?
    {
      if input.exitMultipleType.value == PE {
        terminalValue := year5.nopat * input.exitMultiple.value;
      } else if input.exitMultipleType.value == EBITDA {
        terminalValue := (year5.operatingProfit + year5.depreciation) * input.exitMultiple.value;
      }
    } else {
      terminalValue := year5.freeCashFlow * (1.0 + a.terminalGrowthRate / 100.0)
                       / (a.discountRate / 100.0 - a.terminalGrowthRate / 100.0);
    }
  }

  /**
   * The engine: the five-year forecast, then the terminal value by exactly one
   * method, discounted, then enterprise value and fair value per share.  The
   * result is exactly the valuation the specification functions describe.
   */
  method CalculateDCF(input: CalculatorInput) returns (result: DcfResult)
    requires WellDefined(input)
    ensures result == Valuation(input)
  {
    var a := input.assumptions;
    var calculations, totalPresentValue := ProjectForecast(a);
    var terminalValue := SelectTerminalValue(input, calculations[|calculations| - 1]);
    var terminalDiscountFactor := Pow(1.0 + a.discountRate / 100.0, Horizon);
    var presentValueTerminalValue := terminalValue / terminalDiscountFactor;
    var totalEnterpriseValue := totalPresentValue + presentValueTerminalValue;
    var fairValuePerShare := totalEnterpriseValue / SharesOutstanding;
    result := DcfResult(input, calculations, terminalValue, presentValueTerminalValue,
                        totalPresentValue, totalEnterpriseValue, SharesOutstanding,
                        fairValuePerShare);
  }
}

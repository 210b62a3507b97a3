/**
 * Properties of the valuation: the shape of the forecast, how each year's
 * lines follow from revenue, the telescoping of working-capital changes, the
 * running total of present values, the terminal-value choice and its
 * fallback, and how the final figures are assembled.
 */
module DcfProperties {
  import opened DcfTypes
  import opened DcfCalculator

  /** Entry `k` of the projection of `n` years is the projection of year `k + 1`. */
  lemma {:induction false} ProjectionAt(a: DcfAssumptions, n: nat, k: nat)
    requires DiscountDefined(a)
    requires k < n
    ensures Projection(a, n)[k] == ProjectYear(a, k + 1)
  {
    if k < n - 1 {
      ProjectionAt(a, n - 1, k);
    }
  }

  /**
   * The forecast has exactly five entries, for years 1 to 5 in ascending
   * order, and entry `k` is the projection of year `k + 1`.
   */
  lemma ForecastHorizon(i: CalculatorInput)
    requires WellDefined(i)
    ensures |Valuation(i).calculations| == 5
    ensures forall k :: 0 <= k < 5 ==>
      Valuation(i).calculations[k].year == k + 1
      && Valuation(i).calculations[k] == ProjectYear(i.assumptions, k + 1)
  {
    forall k | 0 <= k < 5
      ensures Valuation(i).calculations[k] == ProjectYear(i.assumptions, k + 1)
    {
      ProjectionAt(i.assumptions, Horizon, k);
    }
  }

  /** Revenue as a year-over-year update of the previous year's revenue would give it. */
  function ChainedRevenue(a: DcfAssumptions, year: nat): real
  {
    if year == 0 then BaseRevenue
    else ChainedRevenue(a, year - 1) * (1.0 + a.revenueGrowthCAGR / 100.0)
  }

  /** Depreciation as a year-over-year update of the previous year's depreciation would give it. */
  function ChainedDepreciation(a: DcfAssumptions, year: nat): real
  {
    if year == 0 then BaseDepreciation
    else ChainedDepreciation(a, year - 1) * (1.0 + a.revenueGrowthCAGR / 100.0)
  }

  /**
   * Revenue and depreciation are compounded from the base each year; in exact
   * arithmetic that equals chaining them year over year from the previous
   * year's figures.
   */
  lemma {:induction false} CompoundedEqualsChained(a: DcfAssumptions, year: nat)
    ensures Revenue(a, year) == ChainedRevenue(a, year)
    ensures Depreciation(a, year) == ChainedDepreciation(a, year)
  {
    if year > 0 {
      CompoundedEqualsChained(a, year - 1);
      var x := 1.0 + a.revenueGrowthCAGR / 100.0;
      assert GrowthFactor(a, year) == x * GrowthFactor(a, year - 1);
      calc {
        Revenue(a, year);
        BaseRevenue * (x * GrowthFactor(a, year - 1));
        (BaseRevenue * GrowthFactor(a, year - 1)) * x;
        ChainedRevenue(a, year);
      }
      calc {
        Depreciation(a, year);
        BaseDepreciation * (x * GrowthFactor(a, year - 1));
        (BaseDepreciation * GrowthFactor(a, year - 1)) * x;
        ChainedDepreciation(a, year);
      }
    }
  }

  /** Depreciation grows with revenue: every year it is one twentieth of revenue. */
  lemma DepreciationTracksRevenue(a: DcfAssumptions, year: nat)
    requires 1 <= year
    requires DiscountDefined(a)
    ensures ProjectYear(a, year).depreciation == ProjectYear(a, year).revenue / 20.0
  {
  }

  /**
   * The income lines of a year follow from its revenue alone: operating
   * profit is revenue times the margin, taxes are operating profit times the
   * tax rate, NOPAT is what is left after taxes, and capex is revenue times
   * the capex intensity.
   */
  lemma IncomeLines(a: DcfAssumptions, year: nat)
    requires 1 <= year
    requires DiscountDefined(a)
    ensures ProjectYear(a, year).revenue == BaseRevenue * Pow(1.0 + a.revenueGrowthCAGR / 100.0, year)
    ensures ProjectYear(a, year).operatingProfit
         == ProjectYear(a, year).revenue * (a.operatingProfitMargin / 100.0)
    ensures ProjectYear(a, year).taxes == ProjectYear(a, year).operatingProfit * (a.taxRate / 100.0)
    ensures ProjectYear(a, year).nopat + ProjectYear(a, year).taxes == ProjectYear(a, year).operatingProfit
    ensures ProjectYear(a, year).nopat
         == ProjectYear(a, year).revenue * (a.operatingProfitMargin / 100.0) * (1.0 - a.taxRate / 100.0)
    ensures ProjectYear(a, year).capex == ProjectYear(a, year).revenue * (a.capexIntensity / 100.0)
  {
  }

  /**
   * Free cash flow is NOPAT plus depreciation less capex and the
   * working-capital change, and the present value is that cash flow
   * discounted by the year's factor.
   */
  lemma CashFlowAndPresentValue(a: DcfAssumptions, year: nat)
    requires 1 <= year
    requires DiscountDefined(a)
    ensures ProjectYear(a, year).freeCashFlow
         == ProjectYear(a, year).nopat + ProjectYear(a, year).depreciation
            - ProjectYear(a, year).capex - ProjectYear(a, year).workingCapitalChange
    ensures DiscountFactor(a, year) != 0.0
    ensures ProjectYear(a, year).presentValue == ProjectYear(a, year).freeCashFlow / DiscountFactor(a, year)
  {
  }

  /** Year 1's working-capital change is the whole year-1 level: the prior level starts at 0. */
  lemma WorkingCapitalFirstYear(a: DcfAssumptions)
    requires DiscountDefined(a)
    ensures ProjectYear(a, 1).workingCapitalChange
         == ProjectYear(a, 1).revenue * (a.workingCapitalIntensity / 100.0)
  {
  }

  /** The working-capital changes of years 1 to `n` add up to the year-`n` level. */
  lemma {:induction false} WorkingCapitalTelescopes(a: DcfAssumptions, n: nat)
    requires DiscountDefined(a)
    ensures SumWorkingCapitalChanges(Projection(a, n)) == WorkingCapitalLevel(a, n)
  {
    if n > 0 {
      var cs := Projection(a, n);
      assert cs[..|cs| - 1] == Projection(a, n - 1);
      WorkingCapitalTelescopes(a, n - 1);
    }
  }

  /** Over the five-year forecast the changes add up to the year-5 working-capital level. */
  lemma ForecastWorkingCapital(i: CalculatorInput)
    requires WellDefined(i)
    ensures SumWorkingCapitalChanges(Valuation(i).calculations)
         == Valuation(i).calculations[4].revenue * (i.assumptions.workingCapitalIntensity / 100.0)
  {
    WorkingCapitalTelescopes(i.assumptions, Horizon);
    ProjectionAt(i.assumptions, Horizon, 4);
  }

  /**
   * The running total kept in year order equals the sum taken from the first
   * year on: in exact arithmetic the order of accumulation does not change
   * the total.
   */
  lemma {:induction false} SumFromFront(cs: seq<DcfCalculation>)
    requires cs != []
    ensures SumPresentValues(cs) == cs[0].presentValue + SumPresentValues(cs[1..])
  {
    if |cs| > 1 {
      var earlier := cs[..|cs| - 1];
      SumFromFront(earlier);
      assert cs[1..][..|cs| - 2] == earlier[1..];
    }
  }

  /** A running total over five entries is the sum of their five present values. */
  lemma {:induction false} SumOfFive(cs: seq<DcfCalculation>)
    requires |cs| == 5
    ensures SumPresentValues(cs)
         == cs[0].presentValue + cs[1].presentValue + cs[2].presentValue
            + cs[3].presentValue + cs[4].presentValue
  {
    assert cs[..4][..3] == cs[..3];
    assert cs[..3][..2] == cs[..2];
    assert cs[..2][..1] == cs[..1];
    assert cs[..1][..0] == [];
    calc {
      SumPresentValues(cs);
      SumPresentValues(cs[..4]) + cs[4].presentValue;
      SumPresentValues(cs[..3]) + cs[3].presentValue + cs[4].presentValue;
      SumPresentValues(cs[..2]) + cs[2].presentValue + cs[3].presentValue + cs[4].presentValue;
      SumPresentValues(cs[..1]) + cs[1].presentValue + cs[2].presentValue + cs[3].presentValue
        + cs[4].presentValue;
      cs[0].presentValue + cs[1].presentValue + cs[2].presentValue + cs[3].presentValue
        + cs[4].presentValue;
    }
  }

  /** The total present value is the sum of the five yearly present values. */
  lemma TotalPresentValueIsSum(i: CalculatorInput)
    requires WellDefined(i)
    ensures |Valuation(i).calculations| == 5
    ensures Valuation(i).totalPresentValue
         == Valuation(i).calculations[0].presentValue + Valuation(i).calculations[1].presentValue
            + Valuation(i).calculations[2].presentValue + Valuation(i).calculations[3].presentValue
            + Valuation(i).calculations[4].presentValue
  {
    SumOfFive(Projection(i.assumptions, Horizon));
  }

  /**
   * The terminal value uses exactly one formula: the exit multiple on NOPAT
   * ('pe') or on operating profit plus depreciation ('ebitda') when the
   * exit-multiple guard holds, Gordon Growth on the final free cash flow
   * otherwise.
   */
  lemma TerminalValueSelection(i: CalculatorInput, year5: DcfCalculation)
    requires !UsesExitMultiple(i) ==> i.assumptions.discountRate != i.assumptions.terminalGrowthRate
    ensures UsesExitMultiple(i) && i.exitMultipleType == Some(PE) ==>
      TerminalValue(i, year5) == year5.nopat * i.exitMultiple.value
    ensures UsesExitMultiple(i) && i.exitMultipleType == Some(EBITDA) ==>
      TerminalValue(i, year5) == (year5.operatingProfit + year5.depreciation) * i.exitMultiple.value
    ensures !UsesExitMultiple(i) ==>
      TerminalValue(i, year5)
      == year5.freeCashFlow * (1.0 + i.assumptions.terminalGrowthRate / 100.0)
         / (i.assumptions.discountRate / 100.0 - i.assumptions.terminalGrowthRate / 100.0)
  {
  }

  /**
   * On the Gordon path the terminal value depends only on the final free
   * cash flow, the discount rate and the terminal growth rate: the method,
   * the multiple and the final year's other lines play no part.
   */
  lemma GordonDependsOnlyOnCashFlowAndRates(i: CalculatorInput, j: CalculatorInput,
                                            c: DcfCalculation, d: DcfCalculation)
    requires !UsesExitMultiple(i) && !UsesExitMultiple(j)
    requires i.assumptions.discountRate == j.assumptions.discountRate
    requires i.assumptions.terminalGrowthRate == j.assumptions.terminalGrowthRate
    requires i.assumptions.discountRate != i.assumptions.terminalGrowthRate
    requires c.freeCashFlow == d.freeCashFlow
    ensures TerminalValue(i, c) == TerminalValue(j, d)
  {
  }

  /**
   * On the exit-multiple path the terminal value depends only on the
   * multiple and its basis (NOPAT, or operating profit plus depreciation):
   * the discount rate, the terminal growth rate and the free cash flow play
   * no part.
   */
  lemma ExitMultipleDependsOnlyOnBasis(i: CalculatorInput, j: CalculatorInput,
                                       c: DcfCalculation, d: DcfCalculation)
    requires UsesExitMultiple(i) && UsesExitMultiple(j)
    requires i.exitMultiple == j.exitMultiple && i.exitMultipleType == j.exitMultipleType
    requires i.exitMultipleType == Some(PE) ==> c.nopat == d.nopat
    requires i.exitMultipleType == Some(EBITDA) ==>
      c.operatingProfit + c.depreciation == d.operatingProfit + d.depreciation
    ensures TerminalValue(i, c) == TerminalValue(j, d)
  {
  }

  /**
   * The exit-multiple guard fails exactly when the method is absent or
   * 'gordon', the multiple is missing or zero, or the basis is missing.
   */
  lemma ExitMultipleGuard(i: CalculatorInput)
    ensures !UsesExitMultiple(i) <==>
      (i.terminalMethod != Some(Multiple) || i.exitMultiple.None? || i.exitMultiple == Some(0.0)
       || i.exitMultipleType.None?)
  {
  }

  /**
   * Fallback: whenever the exit-multiple guard fails, the valuation is the
   * one an explicit 'gordon' call on the same assumptions gives, apart from
   * the echoed input.
   */
  lemma FallbackToGordon(i: CalculatorInput)
    requires WellDefined(i)
    requires i.terminalMethod != Some(Multiple) || i.exitMultiple.None? || i.exitMultiple == Some(0.0)
             || i.exitMultipleType.None?
    ensures WellDefined(i.(terminalMethod := Some(Gordon)))
    ensures Valuation(i) == Valuation(i.(terminalMethod := Some(Gordon))).(assumptions := i)
  {
  }

  /**
   * The Gordon value is the one fixed point of "grow for one more year at the
   * terminal rate, then discount one year": v (1 + r) = (f + v) (1 + g),
   * which is the present value of next year's cash flow plus the grown
   * terminal value.
   */
  lemma GordonFixedPoint(finalFreeCashFlow: real, discountRate: real, terminalGrowthRate: real, v: real)
    requires discountRate != terminalGrowthRate
    ensures v == GordonGrowth(finalFreeCashFlow, discountRate, terminalGrowthRate)
      <==> v * (1.0 + discountRate / 100.0)
           == (finalFreeCashFlow + v) * (1.0 + terminalGrowthRate / 100.0)
  {
  }

  /**
   * Degeneracy of Gordon Growth: with a positive final cash flow and a
   * terminal growth above -100 %, the terminal value is positive exactly when
   * the discount rate exceeds the terminal growth rate, and negative when it
   * falls below it.
   */
  lemma GordonSign(finalFreeCashFlow: real, discountRate: real, terminalGrowthRate: real)
    requires discountRate != terminalGrowthRate
    requires finalFreeCashFlow > 0.0 && terminalGrowthRate > -100.0
    ensures GordonGrowth(finalFreeCashFlow, discountRate, terminalGrowthRate) > 0.0 <==> discountRate > terminalGrowthRate
    ensures GordonGrowth(finalFreeCashFlow, discountRate, terminalGrowthRate) < 0.0 <==> discountRate < terminalGrowthRate
  {
    var num := finalFreeCashFlow * (1.0 + terminalGrowthRate / 100.0);
    var den := discountRate / 100.0 - terminalGrowthRate / 100.0;
    assert num > 0.0;
    if den > 0.0 {
      assert num / den > 0.0;
    } else {
      assert num / den < 0.0;
    }
  }

  /** The final figures of the whole valuation, as `Assemble` states them. */
  lemma ValuationAssembly(i: CalculatorInput)
    requires WellDefined(i)
    ensures Valuation(i).presentValueTerminalValue == Valuation(i).terminalValue / DiscountFactor(i.assumptions, Horizon)
    ensures Valuation(i).fairValue == Valuation(i).totalPresentValue + Valuation(i).presentValueTerminalValue
    ensures Valuation(i).fairValuePerShare * SharesOutstanding == Valuation(i).fairValue
    ensures Valuation(i).sharesOutstanding == SharesOutstanding
    ensures Valuation(i).assumptions == i
    ensures Valuation(i).terminalValue == TerminalValue(i, Valuation(i).calculations[4])
  {
    var v := Valuation(i);
    assert v == Assemble(i, v.calculations, v.totalPresentValue);
  }

  /** The default assumptions of the application (8 % growth, 15 % margin, ...). */
  function DefaultAssumptions(): DcfAssumptions
  {
    DcfAssumptions(8.0, 15.0, 10.0, 8.0, 12.0, 25.0, 2.5)
  }

  /**
   * Worked example on the default assumptions: year-1 revenue is $1.08B,
   * operating profit $162M, taxes $40.5M and NOPAT $121.5M.
   */
  lemma DefaultScenarioYearOne()
    ensures DiscountDefined(DefaultAssumptions())
    ensures ProjectYear(DefaultAssumptions(), 1).revenue == 1080000000.0
    ensures ProjectYear(DefaultAssumptions(), 1).operatingProfit == 162000000.0
    ensures ProjectYear(DefaultAssumptions(), 1).taxes == 40500000.0
    ensures ProjectYear(DefaultAssumptions(), 1).nopat == 121500000.0
  {
  }
}

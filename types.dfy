/**
 * The record shapes the valuation engine consumes and produces.
 * Every number of the source is modelled as an exact `real`.
 */
module DcfTypes {

  /** An optional field of the argument object (absent or present). */
  datatype Option<T> = None | Some(value: T)

  /**
   * The seven user-adjustable assumptions, each a whole-number-scaled
   * percentage (8.0 means 8 %).
   */
  datatype DcfAssumptions = DcfAssumptions(
    revenueGrowthCAGR: real,
    operatingProfitMargin: real,
    discountRate: real,
    capexIntensity: real,
    workingCapitalIntensity: real,
    taxRate: real,
    terminalGrowthRate: real)

  /** The terminal-value method selector, 'gordon' or 'multiple'. */
  datatype TerminalMethod = Gordon | Multiple

  /** The basis of an exit multiple, 'pe' or 'ebitda'. */
  datatype ExitMultipleType = PE | EBITDA

  /**
   * The argument of the engine: the assumptions together with the optional
   * terminal-value method, exit multiple and exit-multiple basis.
   */
  datatype CalculatorInput = CalculatorInput(
    assumptions: DcfAssumptions,
    terminalMethod: Option<TerminalMethod>,
    exitMultiple: Option<real>,
    exitMultipleType: Option<ExitMultipleType>)

  /** One forecast year of the projection. */
  datatype DcfCalculation = DcfCalculation(
    year: nat,
    revenue: real,
    operatingProfit: real,
    taxes: real,
    nopat: real,
    depreciation: real,
    capex: real,
    workingCapitalChange: real,
    freeCashFlow: real,
    presentValue: real)

  /** The full output of one valuation. */
  datatype DcfResult = DcfResult(
    assumptions: CalculatorInput,
    calculations: seq<DcfCalculation>,
    terminalValue: real,
    presentValueTerminalValue: real,
    totalPresentValue: real,
    fairValue: real,
    sharesOutstanding: real,
    fairValuePerShare: real)
}

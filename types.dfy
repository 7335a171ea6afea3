/** The records shared by the form, the calculation and the result view. */
module Types {

  /** A value that may be absent (the page shows no result until one is calculated). */
  datatype Option<T> = None | Some(value: T)

  /** The six form fields. The two selects keep the raw option text they were set to. */
  datatype FormData = FormData(
    initialValue: real,
    monthlyValue: real,
    interestRate: real,
    interestRatePeriod: string,   // "monthly" or "annual"
    period: real,
    periodUnit: string            // "months" or "years"
  )

  /** One simulated month; month 0 is the state before any month elapses. */
  datatype MonthlyData = MonthlyData(
    month: nat,
    interest: real,          // interest accrued during this month only
    totalInvested: real,
    totalInterest: real,
    accumulatedValue: real
  )

  datatype CalculationResult = CalculationResult(
    finalValue: real,
    totalInvested: real,
    totalInterest: real,
    monthlyData: seq<MonthlyData>
  )
}

/**
  The accumulation engine: rate and horizon normalisation, the month-by-month
  compound-interest loop, and the page state that holds the latest result.
*/
module App {
  import opened Types
  import CalculatorForm

  // ---------------------------------------------------------------------------
  // Rate and horizon normalisation
  // ---------------------------------------------------------------------------

  /** b raised to the natural power k. */
  function Pow(b: real, k: nat): real
  {
    if k == 0 then 1.0 else b * Pow(b, k - 1)
  }

  /**
    `root` is the monthly rate equivalent to an annual rate of `annualPercent`
    per cent: twelve months at `root` compound to one year at the annual rate.
    This is what the platform's real-exponent power computes for an annual rate.
  */
  ghost predicate IsMonthlyEquivalent(root: real, annualPercent: real)
  {
    1.0 + root >= 0.0 && Pow(1.0 + root, 12) == 1.0 + annualPercent / 100.0
  }

  /**
    The effective monthly rate. An annual rate is de-annualised geometrically;
    that value is supplied as `annualRoot`. Any other period text is read as a
    monthly rate in per cent.
  */
  function MonthlyRate(interestRatePeriod: string, interestRate: real, annualRoot: real): (r: real)
    ensures interestRatePeriod != "annual" ==> r * 100.0 == interestRate
    ensures interestRatePeriod == "annual" && IsMonthlyEquivalent(annualRoot, interestRate) ==>
      Pow(1.0 + r, 12) == 1.0 + interestRate / 100.0
  {
    if interestRatePeriod == "annual" then annualRoot else interestRate / 100.0
  }

  /** The horizon in months: a period in years counts twelve months per year. */
  function TotalMonths(periodUnit: string, period: real): (t: real)
    ensures periodUnit == "years" && period >= 0.0 && period == period.Floor as real ==>
      Horizon(t) == 12 * period.Floor
    ensures periodUnit != "years" && period >= 0.0 ==> Horizon(t) == period.Floor
  {
    if periodUnit == "years" then period * 12.0 else period
  }

  /**
    The number of loop iterations for a horizon of `t` months, i.e. how many
    whole months m satisfy 1 <= m <= t. A horizon below one month runs no month.
  */
  function Horizon(t: real): (n: nat)
    ensures n == 0 <==> t < 1.0
    ensures n >= 1 ==> n as real <= t < (n + 1) as real
  {
    if t < 1.0 then 0 else t.Floor
  }

  // ---------------------------------------------------------------------------
  // The series as a specification
  // ---------------------------------------------------------------------------

  /** Point 0: nothing has accrued and only the initial value is invested. */
  function Opening(initialValue: real): (p: MonthlyData)
    ensures p.month == 0 && p.interest == 0.0 && p.totalInterest == 0.0
    ensures p.totalInvested == initialValue
    ensures p.accumulatedValue == p.totalInvested + p.totalInterest
  {
    MonthlyData(0, 0.0, initialValue, 0.0, initialValue)
  }

  /**
    Month `month` following point `prev`: interest accrues on the previous
    balance, then the contribution is added.
  */
  function NextMonth(prev: MonthlyData, month: nat, monthlyValue: real, monthlyRate: real): (p: MonthlyData)
    ensures p.month == month
    ensures p.interest == prev.accumulatedValue * monthlyRate
    ensures p.totalInterest - prev.totalInterest == p.interest
    ensures p.totalInvested - prev.totalInvested == monthlyValue
    ensures p.accumulatedValue - prev.accumulatedValue == p.interest + monthlyValue
    ensures prev.accumulatedValue == prev.totalInvested + prev.totalInterest ==>
      p.accumulatedValue == p.totalInvested + p.totalInterest
  {
    var interest := prev.accumulatedValue * monthlyRate;
    MonthlyData(month, interest,
                prev.totalInvested + monthlyValue,
                prev.totalInterest + interest,
                prev.accumulatedValue + interest + monthlyValue)
  }

  /** The points for months 0 through n. */
  function Series(initialValue: real, monthlyValue: real, monthlyRate: real, n: nat): (s: seq<MonthlyData>)
    ensures |s| == n + 1
  {
    if n == 0 then [Opening(initialValue)]
    else
      var prev := Series(initialValue, monthlyValue, monthlyRate, n - 1);
      prev + [NextMonth(prev[n - 1], n, monthlyValue, monthlyRate)]
  }

  /** The result record read off the last point of a series. */
  function Summarize(s: seq<MonthlyData>): (r: CalculationResult)
    requires s != []
    ensures r.monthlyData == s
    ensures r.finalValue == s[|s| - 1].accumulatedValue
    ensures r.totalInvested == s[|s| - 1].totalInvested && r.totalInterest == s[|s| - 1].totalInterest
    ensures s[|s| - 1].accumulatedValue == s[|s| - 1].totalInvested + s[|s| - 1].totalInterest ==>
      r.finalValue == r.totalInvested + r.totalInterest
  {
    var last := s[|s| - 1];
    CalculationResult(last.accumulatedValue, last.totalInvested, last.totalInterest, s)
  }

  /** What a calculation on `form` yields. */
  function Calculate(form: FormData, annualRoot: real): (r: CalculationResult)
    ensures |r.monthlyData| == Horizon(TotalMonths(form.periodUnit, form.period)) + 1
    ensures r.monthlyData[0].month == 0 && r.monthlyData[0].interest == 0.0
    ensures r.monthlyData[0].totalInvested == form.initialValue
    ensures r.monthlyData[0].accumulatedValue == form.initialValue
  {
    var rate := MonthlyRate(form.interestRatePeriod, form.interestRate, annualRoot);
    var n := Horizon(TotalMonths(form.periodUnit, form.period));
    OpeningPoint(form.initialValue, form.monthlyValue, rate, n);
    Summarize(Series(form.initialValue, form.monthlyValue, rate, n))
  }

  /** The sum of the per-month interest of the points in `s`. */
  function InterestSum(s: seq<MonthlyData>): real
  {
    if s == [] then 0.0 else InterestSum(s[..|s| - 1]) + s[|s| - 1].interest
  }

  // ---------------------------------------------------------------------------
  // The accumulation loop
  // ---------------------------------------------------------------------------

  /**
    The loop of the calculation: running balance, invested total and interest
    total, one point pushed per month.
  */
  method Accumulate(initialValue: real, monthlyValue: real, monthlyRate: real, totalMonths: real)
    returns (r: CalculationResult)
    ensures r.monthlyData == Series(initialValue, monthlyValue, monthlyRate, Horizon(totalMonths))
    ensures |r.monthlyData| == Horizon(totalMonths) + 1
    ensures r.finalValue == r.monthlyData[|r.monthlyData| - 1].accumulatedValue
    ensures r.totalInvested == r.monthlyData[|r.monthlyData| - 1].totalInvested
    ensures r.totalInterest == r.monthlyData[|r.monthlyData| - 1].totalInterest
    ensures r.finalValue == r.totalInvested + r.totalInterest
  {
    ghost var n := Horizon(totalMonths);
    var accumulatedValue := initialValue;
    var totalInvested := initialValue;
    var totalInterest := 0.0;
    var monthlyData := [MonthlyData(0, 0.0, totalInvested, totalInterest, accumulatedValue)];

    var month := 1;
    while month as real <= totalMonths
      invariant 1 <= month <= n + 1
      invariant monthlyData == Series(initialValue, monthlyValue, monthlyRate, month - 1)
      invariant monthlyData[month - 1].accumulatedValue == accumulatedValue
      invariant monthlyData[month - 1].totalInvested == totalInvested
      invariant monthlyData[month - 1].totalInterest == totalInterest
      invariant accumulatedValue == totalInvested + totalInterest
      decreases n + 1 - month
    {
      var interestForMonth := accumulatedValue * monthlyRate;
      totalInterest := totalInterest + interestForMonth;
      accumulatedValue := accumulatedValue + interestForMonth;

      if month as real <= totalMonths {
        accumulatedValue := accumulatedValue + monthlyValue;
        totalInvested := totalInvested + monthlyValue;
      }

      monthlyData := monthlyData + [MonthlyData(month, interestForMonth, totalInvested, totalInterest, accumulatedValue)];
      ghost var prev := Series(initialValue, monthlyValue, monthlyRate, month - 1);
      assert Series(initialValue, monthlyValue, monthlyRate, month) == prev + [NextMonth(prev[month - 1], month, monthlyValue, monthlyRate)];
      assert NextMonth(prev[month - 1], month, monthlyValue, monthlyRate) == monthlyData[month];
      assert monthlyData == Series(initialValue, monthlyValue, monthlyRate, month);
      month := month + 1;
    }

    r := CalculationResult(accumulatedValue, totalInvested, totalInterest, monthlyData);
  }

  // ---------------------------------------------------------------------------
  // Properties of the series
  // ---------------------------------------------------------------------------

  /** A longer horizon only appends points: month m is the same whatever the horizon. */
  lemma {:induction false} SeriesPrefix(initialValue: real, monthlyValue: real, monthlyRate: real, n: nat, m: nat)
    requires m <= n
    ensures Series(initialValue, monthlyValue, monthlyRate, n)[m] == Series(initialValue, monthlyValue, monthlyRate, m)[m]
  {
    if m < n {
      SeriesPrefix(initialValue, monthlyValue, monthlyRate, n - 1, m);
    }
  }

  /** Point 0 is the opening state, whatever the horizon. */
  lemma OpeningPoint(initialValue: real, monthlyValue: real, monthlyRate: real, n: nat)
    ensures var p := Series(initialValue, monthlyValue, monthlyRate, n)[0];
      p.month == 0 && p.interest == 0.0 && p.totalInterest == 0.0 &&
      p.totalInvested == initialValue && p.accumulatedValue == initialValue
  {
    SeriesPrefix(initialValue, monthlyValue, monthlyRate, n, 0);
  }

  /**
    Month m follows month m - 1: its interest is the previous balance times the
    rate, taken before the contribution; the contribution is then added, on every
    month including the last.
  */
  lemma {:induction false} MonthStep(initialValue: real, monthlyValue: real, monthlyRate: real, n: nat, m: nat)
    requires 1 <= m <= n
    ensures var s := Series(initialValue, monthlyValue, monthlyRate, n);
      s[m].interest == s[m - 1].accumulatedValue * monthlyRate &&
      s[m].totalInterest == s[m - 1].totalInterest + s[m].interest &&
      s[m].totalInvested == s[m - 1].totalInvested + monthlyValue &&
      s[m].accumulatedValue == s[m - 1].accumulatedValue + s[m].interest + monthlyValue
  {
    var s := Series(initialValue, monthlyValue, monthlyRate, n);
    StepAt(initialValue, monthlyValue, monthlyRate, n, m);
    var prev, next := s[m - 1], s[m];
    assert next == NextMonth(prev, m, monthlyValue, monthlyRate);
  }

  /** Within any horizon, point m is the month that follows point m - 1. */
  lemma {:induction false} StepAt(initialValue: real, monthlyValue: real, monthlyRate: real, n: nat, m: nat)
    requires 1 <= m <= n
    ensures Series(initialValue, monthlyValue, monthlyRate, n)[m]
         == NextMonth(Series(initialValue, monthlyValue, monthlyRate, n)[m - 1], m, monthlyValue, monthlyRate)
  {
    var prev := Series(initialValue, monthlyValue, monthlyRate, m - 1);
    assert Series(initialValue, monthlyValue, monthlyRate, m)
        == prev + [NextMonth(prev[m - 1], m, monthlyValue, monthlyRate)];
    SeriesPrefix(initialValue, monthlyValue, monthlyRate, n, m);
    SeriesPrefix(initialValue, monthlyValue, monthlyRate, n, m - 1);
  }

  /**
    Every point carries its own month, has had m contributions added to the
    initial value, and its balance is exactly invested plus interest.
  */
  lemma {:induction false} PointInvariant(initialValue: real, monthlyValue: real, monthlyRate: real, n: nat, m: nat)
    requires m <= n
    ensures var p := Series(initialValue, monthlyValue, monthlyRate, n)[m];
      p.month == m &&
      p.totalInvested == initialValue + (m as real) * monthlyValue &&
      p.accumulatedValue == p.totalInvested + p.totalInterest
  {
    if m == 0 {
      OpeningPoint(initialValue, monthlyValue, monthlyRate, n);
    } else {
      PointInvariant(initialValue, monthlyValue, monthlyRate, n, m - 1);
      MonthStep(initialValue, monthlyValue, monthlyRate, n, m);
      SeriesPrefix(initialValue, monthlyValue, monthlyRate, n, m);
    }
  }

  /** The interest total at month m is the running sum of the per-month interest up to m. */
  lemma {:induction false} RunningInterest(initialValue: real, monthlyValue: real, monthlyRate: real, n: nat, m: nat)
    requires m <= n
    ensures var s := Series(initialValue, monthlyValue, monthlyRate, n);
      s[m].totalInterest == InterestSum(s[..m + 1])
  {
    var s := Series(initialValue, monthlyValue, monthlyRate, n);
    if m == 0 {
      OpeningPoint(initialValue, monthlyValue, monthlyRate, n);
      assert s[..1][..0] == [];
    } else {
      RunningInterest(initialValue, monthlyValue, monthlyRate, n, m - 1);
      MonthStep(initialValue, monthlyValue, monthlyRate, n, m);
      assert s[..m + 1][..m] == s[..m];
    }
  }

  /** At a zero rate nothing accrues: the balance is what was invested. */
  lemma {:induction false} ZeroRate(initialValue: real, monthlyValue: real, n: nat, m: nat)
    requires m <= n
    ensures var p := Series(initialValue, monthlyValue, 0.0, n)[m];
      p.interest == 0.0 && p.totalInterest == 0.0 && p.accumulatedValue == p.totalInvested
  {
    if m == 0 {
      OpeningPoint(initialValue, monthlyValue, 0.0, n);
    } else {
      ZeroRate(initialValue, monthlyValue, n, m - 1);
      MonthStep(initialValue, monthlyValue, 0.0, n, m);
      PointInvariant(initialValue, monthlyValue, 0.0, n, m);
    }
  }

  /** With non-negative inputs the balance never falls below the initial value. */
  lemma {:induction false} BalanceAtLeastInitial(initialValue: real, monthlyValue: real, monthlyRate: real, n: nat, m: nat)
    requires initialValue >= 0.0 && monthlyValue >= 0.0 && monthlyRate >= 0.0
    requires m <= n
    ensures Series(initialValue, monthlyValue, monthlyRate, n)[m].accumulatedValue >= initialValue
  {
    if m == 0 {
      OpeningPoint(initialValue, monthlyValue, monthlyRate, n);
    } else {
      var s := Series(initialValue, monthlyValue, monthlyRate, n);
      BalanceAtLeastInitial(initialValue, monthlyValue, monthlyRate, n, m - 1);
      MonthStep(initialValue, monthlyValue, monthlyRate, n, m);
      assert s[m - 1].accumulatedValue * monthlyRate >= 0.0;
    }
  }

  /**
    With non-negative initial value, contribution and rate, the balance and the
    invested total never decrease from one point to a later one.
  */
  lemma {:induction false} Monotone(initialValue: real, monthlyValue: real, monthlyRate: real, n: nat, i: nat, j: nat)
    requires initialValue >= 0.0 && monthlyValue >= 0.0 && monthlyRate >= 0.0
    requires i <= j <= n
    ensures var s := Series(initialValue, monthlyValue, monthlyRate, n);
      s[i].accumulatedValue <= s[j].accumulatedValue && s[i].totalInvested <= s[j].totalInvested
  {
    if i < j {
      var s := Series(initialValue, monthlyValue, monthlyRate, n);
      Monotone(initialValue, monthlyValue, monthlyRate, n, i, j - 1);
      MonthStep(initialValue, monthlyValue, monthlyRate, n, j);
      BalanceAtLeastInitial(initialValue, monthlyValue, monthlyRate, n, j - 1);
      assert s[j - 1].accumulatedValue * monthlyRate >= 0.0;
    }
  }

  /**
    The series has one point per whole month of the horizon plus point 0, and
    the result is read off its last point, whose balance is invested plus interest.
  */
  lemma CalculationShape(form: FormData, annualRoot: real)
    ensures var r := Calculate(form, annualRoot);
      var n := Horizon(TotalMonths(form.periodUnit, form.period));
      |r.monthlyData| == n + 1 &&
      r.finalValue == r.monthlyData[n].accumulatedValue &&
      r.totalInvested == r.monthlyData[n].totalInvested &&
      r.totalInterest == r.monthlyData[n].totalInterest &&
      r.totalInvested == form.initialValue + (n as real) * form.monthlyValue &&
      r.finalValue == r.totalInvested + r.totalInterest
  {
    var rate := MonthlyRate(form.interestRatePeriod, form.interestRate, annualRoot);
    var n := Horizon(TotalMonths(form.periodUnit, form.period));
    PointInvariant(form.initialValue, form.monthlyValue, rate, n, n);
  }

  /**
    A horizon below one month (zero, negative or fractional) yields point 0 only:
    the final value is the initial value and no interest is earned.
  */
  lemma ShortHorizon(form: FormData, annualRoot: real)
    requires TotalMonths(form.periodUnit, form.period) < 1.0
    ensures var r := Calculate(form, annualRoot);
      |r.monthlyData| == 1 && r.finalValue == form.initialValue &&
      r.totalInvested == form.initialValue && r.totalInterest == 0.0
  {
  }

  /** A period in years runs twelve months per whole year. */
  lemma YearsHorizon(years: nat)
    ensures Horizon(TotalMonths("years", years as real)) == 12 * years
  {
  }

  /** A period in months runs one iteration per whole month: 2.5 months runs two. */
  lemma MonthsHorizon(period: real)
    requires period >= 0.0
    ensures Horizon(TotalMonths("months", period)) == period.Floor
    ensures Horizon(TotalMonths("months", 2.5)) == 2
  {
  }

  /** b^k stays in [0, 1) when 0 <= b < 1 and k >= 1. */
  lemma {:induction false} PowBelowOne(b: real, k: nat)
    requires 0.0 <= b < 1.0 && k >= 1
    ensures 0.0 <= Pow(b, k) < 1.0
  {
    if k > 1 {
      PowBelowOne(b, k - 1);
      var p := Pow(b, k - 1);
      assert Pow(b, k) == b * p;
      assert 0.0 <= b * p;
      assert b * p <= p by {
        assert p - b * p == (1.0 - b) * p;
      }
    }
  }

  /** b^k exceeds 1 when b > 1 and k >= 1. */
  lemma {:induction false} PowAboveOne(b: real, k: nat)
    requires b > 1.0 && k >= 1
    ensures Pow(b, k) > 1.0
  {
    if k > 1 {
      PowAboveOne(b, k - 1);
      var p := Pow(b, k - 1);
      assert Pow(b, k) == b * p;
      assert b * p > p by {
        assert b * p - p == (b - 1.0) * p;
      }
    }
  }

  /** The only monthly equivalent of an annual rate of 0% is the rate 0. */
  lemma ZeroAnnualRoot(root: real)
    requires IsMonthlyEquivalent(root, 0.0)
    ensures root == 0.0
  {
    if root < 0.0 {
      PowBelowOne(1.0 + root, 12);
    } else if root > 0.0 {
      PowAboveOne(1.0 + root, 12);
    }
  }

  /** A non-negative rate, annual or monthly, gives a non-negative monthly rate. */
  lemma MonthlyRateNonNegative(interestRatePeriod: string, interestRate: real, annualRoot: real)
    requires interestRate >= 0.0
    requires interestRatePeriod == "annual" ==> IsMonthlyEquivalent(annualRoot, interestRate)
    ensures MonthlyRate(interestRatePeriod, interestRate, annualRoot) >= 0.0
  {
    if interestRatePeriod == "annual" && annualRoot < 0.0 {
      PowBelowOne(1.0 + annualRoot, 12);
    }
  }

  /**
    An annual rate of x per cent and its monthly equivalent stated as a monthly
    rate in per cent give the same calculation. Both branches of the rate yield
    `annualRoot` here, so the proof does not need `IsMonthlyEquivalent`; it
    only says which root the annual branch is given.
  */
  lemma AnnualMonthlyEquivalence(form: FormData, annualRoot: real, anyRoot: real)
    requires form.interestRatePeriod == "annual"
    requires IsMonthlyEquivalent(annualRoot, form.interestRate)
    ensures Calculate(form, annualRoot)
         == Calculate(form.(interestRatePeriod := "monthly", interestRate := annualRoot * 100.0), anyRoot)
  {
  }

  /** Nothing accrues at a zero rate: 3 months of 50 from nothing end at 150. */
  lemma ZeroRateScenario(annualRoot: real)
    ensures var r := Calculate(FormData(0.0, 50.0, 0.0, "monthly", 3.0, "months"), annualRoot);
      r.finalValue == 150.0 && r.totalInterest == 0.0 && |r.monthlyData| == 4
  {
    var form := FormData(0.0, 50.0, 0.0, "monthly", 3.0, "months");
    assert Horizon(TotalMonths(form.periodUnit, form.period)) == 3;
    assert MonthlyRate(form.interestRatePeriod, form.interestRate, annualRoot) == 0.0;
    CalculationShape(form, annualRoot);
    ZeroRate(0.0, 50.0, 3, 3);
  }

  /**
    An interest rate of 0, stated per month or per year, earns nothing: every
    point of the calculation has no interest and its balance is what was invested.
  */
  lemma ZeroInterestRate(form: FormData, annualRoot: real, m: nat)
    requires form.interestRate == 0.0
    requires form.interestRatePeriod == "annual" ==> IsMonthlyEquivalent(annualRoot, 0.0)
    requires m < |Calculate(form, annualRoot).monthlyData|
    ensures var p := Calculate(form, annualRoot).monthlyData[m];
      p.interest == 0.0 && p.totalInterest == 0.0 && p.accumulatedValue == p.totalInvested
  {
    if form.interestRatePeriod == "annual" {
      ZeroAnnualRoot(annualRoot);
    }
    var n := Horizon(TotalMonths(form.periodUnit, form.period));
    assert MonthlyRate(form.interestRatePeriod, form.interestRate, annualRoot) == 0.0;
    ZeroRate(form.initialValue, form.monthlyValue, n, m);
  }

  /** The form's default rate period is annual: 0% a year from the defaults' shape earns nothing. */
  lemma ZeroAnnualRateScenario(annualRoot: real)
    requires IsMonthlyEquivalent(annualRoot, 0.0)
    ensures var r := Calculate(FormData(0.0, 50.0, 0.0, "annual", 10.0, "years"), annualRoot);
      |r.monthlyData| == 121 && r.totalInterest == 0.0 && r.finalValue == 6000.0
  {
    var form := FormData(0.0, 50.0, 0.0, "annual", 10.0, "years");
    YearsHorizon(10);
    ZeroInterestRate(form, annualRoot, 120);
    ZeroAnnualRoot(annualRoot);
    PointInvariant(0.0, 50.0, 0.0, 120, 120);
  }

  /**
    1000 initially, 100 a month, 12% a year for one year: twelve months run and
    2200 is invested, whatever the monthly equivalent of the rate.
  */
  lemma OneYearScenario(annualRoot: real)
    ensures var r := Calculate(FormData(1000.0, 100.0, 12.0, "annual", 1.0, "years"), annualRoot);
      |r.monthlyData| == 13 && r.totalInvested == 2200.0 &&
      r.monthlyData[1].interest == 1000.0 * annualRoot &&
      r.monthlyData[1].accumulatedValue == 1000.0 + 1000.0 * annualRoot + 100.0
  {
    YearsHorizon(1);
    PointInvariant(1000.0, 100.0, annualRoot, 12, 12);
    MonthStep(1000.0, 100.0, annualRoot, 12, 1);
    OpeningPoint(1000.0, 100.0, annualRoot, 12);
  }

  // ---------------------------------------------------------------------------
  // The page state
  // ---------------------------------------------------------------------------

  /** The page: it holds the latest result, or none. */
  class AppState {
    var results: Option<CalculationResult>

    constructor ()
      ensures results == None
    {
      results := None;
    }

    /** Normalise the rate and the horizon, run the loop and keep the result. */
    method HandleCalculate(formData: FormData, annualRoot: real)
      modifies this
      ensures results == Some(Calculate(formData, annualRoot))
    {
      var monthlyRate := MonthlyRate(formData.interestRatePeriod, formData.interestRate, annualRoot);
      var totalMonths := TotalMonths(formData.periodUnit, formData.period);
      var r := Accumulate(formData.initialValue, formData.monthlyValue, monthlyRate, totalMonths);
      results := Some(r);
    }

    /** Drop the result. */
    method HandleClear()
      modifies this
      ensures results == None
    {
      results := None;
    }
  }

  /** Submitting the form hands the record it holds to the calculation. */
  method SubmitForm(form: CalculatorForm.FormState, app: AppState, annualRoot: real)
    modifies app
    ensures app.results == Some(Calculate(form.formData, annualRoot))
    ensures form.formData == old(form.formData)
  {
    app.HandleCalculate(form.formData, annualRoot);
  }

  /** Clearing the form restores its defaults and drops the page's result. */
  method ClearForm(form: CalculatorForm.FormState, app: AppState)
    modifies form, app
    ensures form.formData == CalculatorForm.InitialFormData()
    ensures app.results == None
  {
    form.HandleClearForm();
    app.HandleClear();
  }
}

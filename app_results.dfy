/**
  The page renders the result view with the calculation's output; this module
  states what the chart plots for a calculation.
*/
module AppResults {
  import opened Types
  import App
  import Results

  /**
    The chart of a calculation: up to 24 months it shows every month; beyond,
    it shows the N / 12 + 1 whole years, year k with the invested total after
    12 * k contributions.
  */
  lemma ChartOfCalculation(form: FormData, annualRoot: real)
    ensures var data := App.Calculate(form, annualRoot).monthlyData;
      var n := App.Horizon(App.TotalMonths(form.periodUnit, form.period));
      var t := Results.ChartDataTransformed(data);
      (n <= 24 ==> |t| == n + 1 && forall m :: 0 <= m <= n ==> t[m].periodo == m) &&
      (n > 24 ==> |t| == n / 12 + 1 && forall k :: 0 <= k < |t| ==>
         t[k].periodo == k &&
         t[k].invested == form.initialValue + ((12 * k) as real) * form.monthlyValue)
  {
    var rate := App.MonthlyRate(form.interestRatePeriod, form.interestRate, annualRoot);
    var n := App.Horizon(App.TotalMonths(form.periodUnit, form.period));
    var data := App.Calculate(form, annualRoot).monthlyData;
    assert data == App.Series(form.initialValue, form.monthlyValue, rate, n);
    forall i | 0 <= i < |data|
      ensures data[i].month == i
      ensures data[i].totalInvested == form.initialValue + (i as real) * form.monthlyValue
    {
      App.PointInvariant(form.initialValue, form.monthlyValue, rate, n, i);
    }
    if n > 24 {
      Results.LongSeriesPlotsYears(data);
    }
  }
}

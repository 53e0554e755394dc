/**
 * The arithmetic behind the two summaries shown to the user: the scenario
 * summary table (a Baseline row, then one row per scenario with its total,
 * difference and percent change over the forecast window), and the forecast
 * summary metrics (the forecast total, compared with the previous period and
 * with the same period one year earlier).
 */
module Summary {
  import opened Wrappers
  import opened Scenarios
  import Dict

  /** A date filter on day offsets: inclusive at both ends, or with no upper bound. */
  datatype Window = Between(first: int, last: int) | From(first: int)

  predicate Contains(w: Window, day: int)
  {
    match w
    case Between(first, last) => first <= day <= last
    case From(first) => first <= day
  }

  /** The sum of `values` over the rows whose date lies in `w`. */
  function WindowSum(ds: seq<int>, values: seq<real>, w: Window): real
    requires |values| == |ds|
  {
    if |ds| == 0 then 0.0
    else
      var n := |ds| - 1;
      WindowSum(ds[..n], values[..n], w) + (if Contains(w, ds[n]) then values[n] else 0.0)
  }

  /** The number of rows whose date lies in `w`. */
  function CountIn(ds: seq<int>, w: Window): nat
  {
    if |ds| == 0 then 0
    else CountIn(ds[..|ds| - 1], w) + (if Contains(w, ds[|ds| - 1]) then 1 else 0)
  }

  /** A window holding no row is empty exactly when no date lies in it. */
  lemma {:induction false} CountInZeroIff(ds: seq<int>, w: Window)
    ensures CountIn(ds, w) == 0 <==> forall i :: 0 <= i < |ds| ==> !Contains(w, ds[i])
  {
    if |ds| > 0 {
      var prefix := ds[..|ds| - 1];
      CountInZeroIff(prefix, w);
      assert forall i :: 0 <= i < |prefix| ==> prefix[i] == ds[i];
    }
  }

  /** A window that selects no row sums to 0. */
  lemma {:induction false} WindowSumEmpty(ds: seq<int>, values: seq<real>, w: Window)
    requires |values| == |ds|
    requires CountIn(ds, w) == 0
    ensures WindowSum(ds, values, w) == 0.0
  {
    if |ds| > 0 {
      var n := |ds| - 1;
      WindowSumEmpty(ds[..n], values[..n], w);
    }
  }

  /** A window that selects every row sums the whole column, each row once. */
  lemma {:induction false} WindowSumAll(ds: seq<int>, values: seq<real>, w: Window)
    requires |values| == |ds|
    requires forall i :: 0 <= i < |ds| ==> Contains(w, ds[i])
    ensures WindowSum(ds, values, w) == Sum(values)
  {
    if |ds| > 0 {
      var n := |ds| - 1;
      assert forall i :: 0 <= i < n ==> ds[..n][i] == ds[i];
      WindowSumAll(ds[..n], values[..n], w);
    }
  }

  /** Window sums are additive: summing a row-wise sum of columns sums each column. */
  lemma {:induction false} WindowSumAdditive(ds: seq<int>, xs: seq<real>, ys: seq<real>, zs: seq<real>, w: Window)
    requires |xs| == |ds| && |ys| == |ds| && |zs| == |ds|
    requires forall i :: 0 <= i < |ds| ==> zs[i] == xs[i] + ys[i]
    ensures WindowSum(ds, zs, w) == WindowSum(ds, xs, w) + WindowSum(ds, ys, w)
  {
    if |ds| > 0 {
      var n := |ds| - 1;
      assert forall i :: 0 <= i < n ==> zs[..n][i] == xs[..n][i] + ys[..n][i];
      WindowSumAdditive(ds[..n], xs[..n], ys[..n], zs[..n], w);
    }
  }

  /** A window sum of non-negative values is non-negative. */
  lemma {:induction false} WindowSumNonNegative(ds: seq<int>, values: seq<real>, w: Window)
    requires |values| == |ds|
    requires forall i :: 0 <= i < |ds| ==> values[i] >= 0.0
    ensures WindowSum(ds, values, w) >= 0.0
  {
    if |ds| > 0 {
      var n := |ds| - 1;
      assert forall i :: 0 <= i < n ==> values[..n][i] == values[i];
      WindowSumNonNegative(ds[..n], values[..n], w);
    }
  }

  // ---------------------------------------------------------------------
  // Scenario summary table

  /** The percent-change cell: a fixed text for the Baseline row, a number for scenarios. */
  datatype PctCell = Text(text: string) | Percent(value: real)

  datatype Row = Row(scenario: string, total: real, difference: real, pctChange: PctCell)

  /** Percent change against the baseline total, 0 when that total is 0. */
  function PctChange(difference: real, baselineTotal: real): (pct: real)
    ensures baselineTotal != 0.0 ==> pct * baselineTotal == difference * 100.0
    ensures baselineTotal == 0.0 ==> pct == 0.0
  {
    if baselineTotal != 0.0 then (difference / baselineTotal) * 100.0 else 0.0
  }

  /**
   * `row` reports scenario `name` against a baseline total over `w`: its
   * total is the scenario's point forecast summed over the window, its
   * difference is that total minus the baseline total, and its percent
   * change is that difference relative to the baseline total.
   */
  predicate IsScenarioRow(row: Row, name: string, forecast: Forecast, baselineTotal: real, w: Window)
    requires |forecast.yhat| == |forecast.ds|
  {
    && row.scenario == name
    && row.total == WindowSum(forecast.ds, forecast.yhat, w)
    && row.difference == row.total - baselineTotal
    && row.pctChange == Percent(PctChange(row.difference, baselineTotal))
  }

  /**
   * The scenario summary over the forecast period [forecastStart, forecastEnd],
   * inclusive at both ends: the Baseline row first, then one row per scenario
   * in the dictionary's order.
   */
  method BuildSummary(baseline: Forecast, scenarioForecasts: Dict.Dict<Forecast>,
                      forecastStart: int, forecastEnd: int) returns (summary: seq<Row>)
    requires Aligned(baseline)
    requires forall i :: 0 <= i < |scenarioForecasts| ==> |scenarioForecasts[i].1.yhat| == |scenarioForecasts[i].1.ds|
    ensures |summary| == 1 + |scenarioForecasts|
    ensures summary[0] == Row("Baseline", WindowSum(baseline.ds, baseline.yhat, Between(forecastStart, forecastEnd)),
                              0.0, Text("0.0%"))
    ensures forall i :: 0 <= i < |scenarioForecasts| ==>
      IsScenarioRow(summary[i + 1], scenarioForecasts[i].0, scenarioForecasts[i].1, summary[0].total,
                    Between(forecastStart, forecastEnd))
  {
    var window := Between(forecastStart, forecastEnd);
    var baselineTotal := WindowSum(baseline.ds, baseline.yhat, window);
    summary := [Row("Baseline", baselineTotal, 0.0, Text("0.0%"))];
    for i := 0 to |scenarioForecasts|
      invariant |summary| == 1 + i
      invariant summary[0] == Row("Baseline", baselineTotal, 0.0, Text("0.0%"))
      invariant forall j :: 0 <= j < i ==>
        IsScenarioRow(summary[j + 1], scenarioForecasts[j].0, scenarioForecasts[j].1, baselineTotal, window)
    {
      var (scenarioName, scenarioForecast) := scenarioForecasts[i];
      var scenarioTotal := WindowSum(scenarioForecast.ds, scenarioForecast.yhat, window);
      var difference := scenarioTotal - baselineTotal;
      var pctChange := PctChange(difference, baselineTotal);
      ghost var previous := summary;
      summary := summary + [Row(scenarioName, scenarioTotal, difference, Percent(pctChange))];
      assert forall j :: 0 <= j <= i ==> summary[j] == previous[j];
    }
  }

  /**
   * The difference a scenario row reports for a forecast overlaid with an
   * effect is exactly the effect summed over the same window.
   */
  lemma ScenarioDifferenceIsWindowedEffect(baseline: Forecast, effect: seq<real>, w: Window)
    requires Aligned(baseline) && |effect| == |baseline.ds|
    ensures WindowSum(baseline.ds, Overlay(baseline, effect).yhat, w) - WindowSum(baseline.ds, baseline.yhat, w)
         == WindowSum(baseline.ds, effect, w)
  {
    var scenario := Overlay(baseline, effect);
    assert forall i :: 0 <= i < |baseline.ds| ==> scenario.yhat[i] == baseline.yhat[i] + effect[i];
    WindowSumAdditive(baseline.ds, baseline.yhat, effect, scenario.yhat, w);
  }

  /**
   * A non-negative effect never shows a negative difference, nor a negative
   * percent change against a positive baseline total.
   */
  lemma NonNegativeEffectRow(baseline: Forecast, effect: seq<real>, w: Window)
    requires Aligned(baseline) && |effect| == |baseline.ds|
    requires forall i :: 0 <= i < |effect| ==> effect[i] >= 0.0
    ensures WindowSum(baseline.ds, Overlay(baseline, effect).yhat, w) - WindowSum(baseline.ds, baseline.yhat, w) >= 0.0
    ensures WindowSum(baseline.ds, baseline.yhat, w) > 0.0 ==>
      PctChange(WindowSum(baseline.ds, Overlay(baseline, effect).yhat, w) - WindowSum(baseline.ds, baseline.yhat, w),
                WindowSum(baseline.ds, baseline.yhat, w)) >= 0.0
  {
    ScenarioDifferenceIsWindowedEffect(baseline, effect, w);
    WindowSumNonNegative(baseline.ds, effect, w);
    var baselineTotal := WindowSum(baseline.ds, baseline.yhat, w);
    var difference := WindowSum(baseline.ds, effect, w);
    if baselineTotal > 0.0 {
      assert (difference / baselineTotal) * 100.0 >= 0.0;
    }
  }

  // ---------------------------------------------------------------------
  // Forecast summary metrics

  /** Days subtracted to reach the same period one year earlier. */
  const DaysPerYear: int := 365

  /** A historical frame: dates and the observed target column. */
  datatype History = History(ds: seq<int>, y: seq<real>)

  /** A percent change, or positive infinity when the reference total is 0. */
  datatype Change = Finite(pct: real) | Infinite

  datatype Comparison = Comparison(previousTotal: real, difference: real, change: Change)

  datatype FutureMetrics = FutureMetrics(totalForecast: real, prevPeriod: Option<Comparison>,
                                         prevYear: Option<Comparison>)

  /** Percent change against an earlier total, infinite when that total is 0. */
  function ChangeAgainst(difference: real, previousTotal: real): (c: Change)
    ensures c == Infinite <==> previousTotal == 0.0
    ensures c.Finite? ==> c.pct * previousTotal == difference * 100.0
  {
    if previousTotal != 0.0 then Finite((difference / previousTotal) * 100.0) else Infinite
  }

  /**
   * The comparison of the forecast total with the history inside `w`; none
   * when no historical row falls in the window.
   */
  function CompareWith(totalForecast: real, history: History, w: Window): (c: Option<Comparison>)
    requires |history.y| == |history.ds|
    ensures c.Some? <==> CountIn(history.ds, w) > 0
    ensures c.Some? ==> c.value.previousTotal == WindowSum(history.ds, history.y, w)
                        && c.value.difference == totalForecast - c.value.previousTotal
                        && c.value.change == ChangeAgainst(c.value.difference, c.value.previousTotal)
  {
    if CountIn(history.ds, w) == 0 then None
    else
      var previousTotal := WindowSum(history.ds, history.y, w);
      var difference := totalForecast - previousTotal;
      Some(Comparison(previousTotal, difference, ChangeAgainst(difference, previousTotal)))
  }

  /** The previous period: as many days as the forecast spans, ending the day before it starts. */
  function PrevPeriodWindow(forecastStart: int, forecastEnd: int): Window
  {
    var forecastDuration := forecastEnd - forecastStart;
    Between(forecastStart - forecastDuration, forecastStart - 1)
  }

  /** The forecast period shifted back by 365 days. */
  function PrevYearWindow(forecastStart: int, forecastEnd: int): Window
  {
    Between(forecastStart - DaysPerYear, forecastEnd - DaysPerYear)
  }

  /**
   * The forecast summary metrics: the point forecast summed from the start
   * of the forecast period on, and, when a history is given, its comparison
   * with the previous period and with the same period a year earlier. The
   * year comparison is left out when that period starts where the previous
   * period does.
   */
  function ForecastSummaryMetrics(future: Forecast, history: Option<History>, forecastStart: int,
                                  forecastEnd: int): (m: FutureMetrics)
    requires Aligned(future)
    requires history.Some? ==> |history.value.y| == |history.value.ds|
    ensures m.totalForecast == WindowSum(future.ds, future.yhat, From(forecastStart))
    ensures history.None? ==> m.prevPeriod.None? && m.prevYear.None?
  {
    var totalForecast := WindowSum(future.ds, future.yhat, From(forecastStart));
    match history
    case None => FutureMetrics(totalForecast, None, None)
    case Some(h) =>
      var prevPeriod := PrevPeriodWindow(forecastStart, forecastEnd);
      var prevYear := PrevYearWindow(forecastStart, forecastEnd);
      var prevPeriodDiff := CompareWith(totalForecast, h, prevPeriod);
      var prevYearDiff := if prevYear.first == prevPeriod.first then None
                          else CompareWith(totalForecast, h, prevYear);
      FutureMetrics(totalForecast, prevPeriodDiff, prevYearDiff)
  }

  /**
   * With a history, the year comparison is missing exactly when the forecast
   * period spans 365 days (the year-earlier window would start where the
   * previous period starts) or no historical row falls in the year-earlier
   * window; otherwise it compares with the history summed over that window.
   */
  lemma PrevYearComparison(future: Forecast, history: History, forecastStart: int, forecastEnd: int)
    requires Aligned(future) && |history.y| == |history.ds|
    ensures var m := ForecastSummaryMetrics(future, Some(history), forecastStart, forecastEnd);
      && (m.prevYear.None? <==> forecastEnd - forecastStart == DaysPerYear
                                || CountIn(history.ds, PrevYearWindow(forecastStart, forecastEnd)) == 0)
      && (forecastEnd - forecastStart != DaysPerYear ==>
            m.prevYear == CompareWith(m.totalForecast, history, PrevYearWindow(forecastStart, forecastEnd)))
  {
  }

  /**
   * With a history, the previous-period comparison is present exactly when
   * some historical row falls in the previous period; it sums the history
   * over that period, which is one day shorter than the forecast period.
   */
  lemma PrevPeriodComparison(future: Forecast, history: History, forecastStart: int, forecastEnd: int)
    requires Aligned(future) && |history.y| == |history.ds|
    ensures var m := ForecastSummaryMetrics(future, Some(history), forecastStart, forecastEnd);
      && (m.prevPeriod.Some? <==> exists i :: 0 <= i < |history.ds|
                                    && Contains(PrevPeriodWindow(forecastStart, forecastEnd), history.ds[i]))
      && m.prevPeriod == CompareWith(m.totalForecast, history, PrevPeriodWindow(forecastStart, forecastEnd))
    ensures PrevPeriodWindow(forecastStart, forecastEnd).last - PrevPeriodWindow(forecastStart, forecastEnd).first + 1
         == forecastEnd - forecastStart
  {
    CountInZeroIff(history.ds, PrevPeriodWindow(forecastStart, forecastEnd));
  }

  // ---------------------------------------------------------------------
  // The forecast summary as its display code runs

  /** A name the display code reads before any assignment to it has run. */
  datatype DisplayError = UnboundLocal(name: string)

  /**
   * The forecast summary with its display code as written: without a history
   * the period description reads `forecast_duration`, which only the history
   * branch assigns; with a history and a 365-day forecast period the year
   * description reads `prev_year_data`, which the skipped year branch would
   * have assigned. Either way the summary fails before it is reported.
   */
  function PlotFutureAsWritten(future: Forecast, history: Option<History>, forecastStart: int,
                               forecastEnd: int): (r: Result<FutureMetrics, DisplayError>)
    requires Aligned(future)
    requires history.Some? ==> |history.value.y| == |history.value.ds|
    ensures r.Failure? <==> history.None? || forecastEnd - forecastStart == DaysPerYear
    ensures r.Success? ==> r.value == ForecastSummaryMetrics(future, history, forecastStart, forecastEnd)
  {
    if history.None? then Failure(UnboundLocal("forecast_duration"))
    else
      var prevPeriodStart := PrevPeriodWindow(forecastStart, forecastEnd).first;
      var prevYearStart := PrevYearWindow(forecastStart, forecastEnd).first;
      if prevYearStart == prevPeriodStart then Failure(UnboundLocal("prev_year_data"))
      else Success(ForecastSummaryMetrics(future, history, forecastStart, forecastEnd))
  }

  /** Two inputs the display code as written cannot summarise. */
  lemma PlotFutureAsWrittenFails()
    ensures PlotFutureAsWritten(Forecast([0], [1.0], [1.0], [1.0], map[]), None, 0, 30)
         == Failure(UnboundLocal("forecast_duration"))
    ensures PlotFutureAsWritten(Forecast([0], [1.0], [1.0], [1.0], map[]), Some(History([-1], [1.0])), 0, 365)
         == Failure(UnboundLocal("prev_year_data"))
  {
  }
}

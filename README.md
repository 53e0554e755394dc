# Scenario forecasts of an SEO traffic forecaster, in Dafny

The application fits a Prophet forecast of organic traffic. It then lets the
user lay "what if" scenarios on top of that baseline forecast:

- a **numeric** scenario: extra budget, content and backlinks, each with a
  coefficient;
- a **percentage** scenario: a target uplift in percent of the mean forecast.

Each scenario turns into an **effect curve** with three phases:

1. a delay with no effect;
2. a logistic S-curve ramp up to the maximum effect over the acceleration
   months;
3. a linear plateau that keeps growing at a small rate.

The curve is added to the point forecast. 0.8 and 1.2 times the curve are
added to the lower and upper bounds. All scenarios of a session are generated
into a dictionary keyed by scenario name.

The dashboard then shows two summaries:

- **Scenario summary table:** a Baseline row, then one row per scenario. Each
  row holds its total over the forecast period, its difference from the
  baseline, and its percent change, which is 0 against a zero baseline.
- **Forecast summary metrics:** the forecast total from the start date on,
  compared with:
  - the previous period: the d days just before the start date, where d is
    the number of days from the start date to the end date. The forecast
    period counts both ends and so has d + 1 days, one more than the
    previous period. A zero reference gives an infinite change;
  - the same period one year earlier, skipped when it would start where the
    previous period starts.

Modules:

- `Wrappers` (`wrappers.dfy`): `Option` and `Result`.
- `Effect` (`effect_curve.dfy`): the logistic and the three phases, the
  per-date effect, and the array-filling loop that computes the curve.
- `Dict` (`dict.dfy`): an insertion-ordered string-keyed dictionary. `Put`
  keeps an existing key's position, like a Python `dict`.
- `Scenarios` (`scenarios.dfy`): the forecast frame and how the effect is laid
  over it, the two scenario kinds, dispatch on the mode, and the batch loop.
- `Summary` (`summary.dfy`): the window sums behind both summaries.

Modelling choices:

- **Exponential:** the exponential that the logistic calls is a parameter
  `exp`. All that is assumed about it is `exp(0) = 1`, positivity and strict
  monotonicity (`Effect.IsExp`). Every property of the curve is proved from
  those three facts.
- **Dates and numbers:** dates are whole day offsets. Numbers are exact reals.
  The curve reads elapsed days with `.days`, which a datetime index has and a
  frame column does not (`Effect.EffectCurveOn`). Both applicators hand it the
  `ds` column, so as written every numeric or percentage scenario raises (see
  "## Findings"). The rest of the model uses the intended elapsed days.
- **Frames:** a forecast frame is a record of equally long columns (`ds`,
  `yhat`, `yhat_lower`, `yhat_upper`) plus the untouched other columns.
- **Exceptions:** a Python exception raised by a scenario (unknown mode, or a
  key missing for its mode) is a `Failure`, and it aborts the batch.

## Model

| member | source | states |
|---|---|---|
| Effect.Logistic | streamlit_prophet/lib/models/scenarios.py:53 | the sigmoid lies strictly between 0 and 1 |
| Effect.LogisticStrictlyIncreasing | streamlit_prophet/lib/models/scenarios.py:53 | the sigmoid is strictly increasing in its argument |
| Effect.LogisticAtZero | streamlit_prophet/lib/models/scenarios.py:50-53 | the sigmoid is 1/2 at its midpoint |
| Effect.MonthsSinceMonotone | streamlit_prophet/lib/models/scenarios.py:37-38 | months since the start (days / 30.44) grow with the date |
| Effect.PhaseOf | streamlit_prophet/lib/models/scenarios.py:43-46 | the ramp phase is reached only with positive acceleration months and after the delay; the plateau only after delay plus acceleration |
| Effect.EffectAt | streamlit_prophet/lib/models/scenarios.py:42-59 | no effect during the delay; non-negative for non-negative maximum and rate; strictly between 0 and the maximum during the ramp; at least the maximum on the plateau |
| Effect.EffectNonDecreasing | streamlit_prophet/lib/models/scenarios.py:42-59 | with a non-negative maximum and plateau rate the effect never decreases over time, across phase boundaries too |
| Effect.LogisticMonotone | streamlit_prophet/lib/models/scenarios.py:53 | the sigmoid is non-decreasing in its argument |
| Effect.RampArgMonotone | streamlit_prophet/lib/models/scenarios.py:49-53 | the sigmoid's argument k * (t - midpoint) grows with the months into the ramp |
| Effect.RampEffect | streamlit_prophet/lib/models/scenarios.py:49-54 | the ramp value lies strictly between 0 and a positive maximum effect, and is 0 for a zero maximum |
| Effect.RampNonDecreasing | streamlit_prophet/lib/models/scenarios.py:49-54 | within the ramp a non-negative effect never decreases |
| Effect.PlateauEffect | streamlit_prophet/lib/models/scenarios.py:57-59 | the plateau value is at least the maximum effect for non-negative inputs, and exactly the maximum when the plateau begins |
| Effect.PlateauNonDecreasing | streamlit_prophet/lib/models/scenarios.py:57-59 | within the plateau the effect never decreases for a non-negative maximum and rate |
| Effect.EffectScalesWithMaxEffect | streamlit_prophet/lib/models/scenarios.py:42-59 | the effect is proportional to the maximum effect at every time |
| Effect.EffectAtMidpoint | streamlit_prophet/lib/models/scenarios.py:49-54 | halfway through the ramp the effect is half the maximum |
| Effect.EffectAtStart | streamlit_prophet/lib/models/scenarios.py:43-54 | at the start date the effect is 0 after a delay, and maximum times sigmoid(-4) without one |
| Effect.EffectAtAccelerationEnd | streamlit_prophet/lib/models/scenarios.py:55-59 | at the end of the ramp the effect is exactly the maximum |
| Effect.RampStep | streamlit_prophet/lib/models/scenarios.py:46-54 | the loop's ramp branch computes the effect of its date |
| Effect.PlateauStep | streamlit_prophet/lib/models/scenarios.py:55-59 | the loop's plateau branch computes the effect of its date |
| Effect.CalculateEffectCurve | streamlit_prophet/lib/models/scenarios.py:6-61 | fills one value per date, each the phase-wise effect of that date's months since the start |
| Effect.EffectCurveOn | streamlit_prophet/lib/models/scenarios.py:6-61 | the curve is computed exactly when the dates come as a datetime index, and then gives each date its phase-wise effect; dates given as a frame column fail with the missing `days` attribute |
| Effect.CurveNonDecreasing | streamlit_prophet/lib/models/scenarios.py:6-61 | along sorted dates the curve never decreases, for non-negative maximum and rate |
| Dict.Get | streamlit_prophet/lib/models/scenarios.py:244-253 | a lookup misses exactly when the key is absent |
| Dict.Put | streamlit_prophet/lib/models/scenarios.py:253 | the key maps to the new value, every other key keeps its value, the key set gains the key, distinct keys stay distinct |
| Dict.PutAppendsNewKey | streamlit_prophet/lib/models/scenarios.py:253 | a new key is appended at the end of the insertion order |
| Dict.PutKeepsOrder | streamlit_prophet/lib/models/scenarios.py:253 | overwriting an existing key keeps the length and every key's position |
| Dict.PutExistingKeyOrder | streamlit_prophet/lib/models/scenarios.py:253 | assigning to a key already present leaves the key order unchanged |
| Dict.PutNewKeyOrder | streamlit_prophet/lib/models/scenarios.py:253 | assigning to a new key lists it after every key already present |
| Scenarios.Overlay | streamlit_prophet/lib/models/scenarios.py:121-123 | dates and other columns unchanged; point forecast raised by the effect, bounds by 0.8 and 1.2 of it |
| Scenarios.OverlayPreservesBand | streamlit_prophet/lib/models/scenarios.py:121-123 | a non-negative effect keeps each point within its bounds and widens the band by 0.4 of the effect |
| Scenarios.NegativeEffectCanBreakBand | streamlit_prophet/lib/models/scenarios.py:121-123 | a negative effect can push a point below its lower bound |
| Scenarios.OverlayUndo | streamlit_prophet/lib/models/scenarios.py:121-123 | overlaying the opposite effect restores the baseline exactly |
| Scenarios.NumericMaxEffect | streamlit_prophet/lib/models/scenarios.py:110-113 | the maximum effect is non-negative when levers and coefficients are |
| Scenarios.EffectAdditive | streamlit_prophet/lib/models/scenarios.py:113-118 | the effect of a sum of maximum effects is the sum of their effects |
| Scenarios.NumericEffectIsSumOfLevers | streamlit_prophet/lib/models/scenarios.py:110-118 | the scenario effect is the sum of the effects of budget, content and backlinks taken alone |
| Scenarios.ApplyNumericScenario | streamlit_prophet/lib/models/scenarios.py:64-125 | same dates and other columns; each point's uplift is the effect at its date for the levers' maximum effect; the lower and upper bounds move by 0.8 and 1.2 times that uplift |
| Scenarios.ApplyNumericScenarioAsWritten | streamlit_prophet/lib/models/scenarios.py:106-118 | the numeric scenario as written hands the `ds` column to the curve and fails for every baseline and every set of levers |
| Scenarios.NumericScenarioUplift | streamlit_prophet/lib/models/scenarios.py:64-125 | with non-negative inputs the forecast is never lowered, stays within its bounds, and the uplift grows along sorted dates |
| Scenarios.PercentageMaxEffect | streamlit_prophet/lib/models/scenarios.py:159-160 | the maximum effect is pct_increase percent of the mean point forecast |
| Scenarios.ApplyPercentageScenario | streamlit_prophet/lib/models/scenarios.py:128-175 | same dates and other columns; each point's uplift is the effect at its date with plateau rate 0.005 and the percentage maximum; the lower and upper bounds move by 0.8 and 1.2 times that uplift |
| Scenarios.ApplyPercentageScenarioAsWritten | streamlit_prophet/lib/models/scenarios.py:155-167 | the percentage scenario as written hands the `ds` column to the curve and fails for every baseline and percentage |
| Scenarios.PercentageScenarioExample | streamlit_prophet/lib/models/scenarios.py:128-175 | three days at 100 with a 50% one-month ramp are all lifted above 100 and strictly increase |
| Scenarios.ParseMode | streamlit_prophet/lib/models/scenarios.py:199-220 | a mode is unknown exactly when it is neither "numeric" nor "percentage", and the unknown mode is kept |
| Scenarios.GenerateScenarioForecast | streamlit_prophet/lib/models/scenarios.py:178-220 | succeeds exactly for a known mode with its parameters; the numeric and percentage modes give their applicators' results; any other mode fails carrying that mode |
| Scenarios.CollectFailureSticks | streamlit_prophet/lib/models/scenarios.py:246-253 | once one scenario raised, the batch fails with that error |
| Scenarios.CollectSucceedsIff | streamlit_prophet/lib/models/scenarios.py:246-253 | the loop completes exactly when every step succeeds |
| Scenarios.CollectKeys | streamlit_prophet/lib/models/scenarios.py:244-255 | the result has one entry per distinct name and no other key |
| Scenarios.CollectKeyOrder | streamlit_prophet/lib/models/scenarios.py:246-253 | the keys of a completed loop come in the order in which their names first appear |
| Scenarios.CollectLastWriteWins | streamlit_prophet/lib/models/scenarios.py:253 | a name maps to the value of its last occurrence |
| Scenarios.OutcomeNamesSnoc | streamlit_prophet/lib/models/scenarios.py:246-247 | the names of a list are those of all but its last entry plus the last one's |
| Scenarios.GenerateScenarioForecasts | streamlit_prophet/lib/models/scenarios.py:223-255 | the loop returns the batch: every scenario's forecast under its name in list order, or the first error |
| Scenarios.BatchSucceedsIff | streamlit_prophet/lib/models/scenarios.py:223-255 | the batch succeeds exactly when every scenario succeeds on its own |
| Scenarios.BatchKeys | streamlit_prophet/lib/models/scenarios.py:244-255 | a successful batch is keyed by exactly the scenario names, each once |
| Scenarios.BatchKeyOrder | streamlit_prophet/lib/models/scenarios.py:244-255 | a successful batch lists its forecasts in the order in which the scenario names first appear, the order the summary table's rows follow |
| Scenarios.BatchLastWriteWins | streamlit_prophet/lib/models/scenarios.py:246-253 | a name holds the forecast its last scenario gets on its own |
| Summary.CountInZeroIff | streamlit_prophet/lib/exposition/visualize.py:285-286 | a window is empty exactly when no date lies in it |
| Summary.WindowSumEmpty | streamlit_prophet/lib/exposition/visualize.py:976-980 | an empty window sums to 0 |
| Summary.WindowSumAll | streamlit_prophet/lib/exposition/visualize.py:976-980 | a window covering every date sums the whole column once |
| Summary.WindowSumAdditive | streamlit_prophet/lib/exposition/visualize.py:976-997 | window sums of a row-wise sum add up |
| Summary.WindowSumNonNegative | streamlit_prophet/lib/exposition/visualize.py:976-997 | non-negative values have a non-negative window sum |
| Summary.PctChange | streamlit_prophet/lib/exposition/visualize.py:998 | percent of the baseline total, and 0 against a zero baseline |
| Summary.BuildSummary | streamlit_prophet/lib/exposition/visualize.py:973-1005 | the Baseline row first with difference 0 and "0.0%", then one row per scenario in dictionary order with its window total, difference and percent change |
| Summary.ScenarioDifferenceIsWindowedEffect | streamlit_prophet/lib/exposition/visualize.py:991-997 | a scenario row's difference is its effect curve summed over the window |
| Summary.NonNegativeEffectRow | streamlit_prophet/lib/exposition/visualize.py:991-998 | a non-negative effect shows a non-negative difference and percent change against a positive baseline |
| Summary.ChangeAgainst | streamlit_prophet/lib/exposition/visualize.py:289 | infinite exactly when the earlier total is 0, the percent change otherwise |
| Summary.CompareWith | streamlit_prophet/lib/exposition/visualize.py:285-289 | a comparison exists exactly when the window holds data; its earlier total is that window's sum, its difference the total minus it, and its change the percent change, or infinite against 0 |
| Summary.ForecastSummaryMetrics | streamlit_prophet/lib/exposition/visualize.py:264-303 | the total counts the point forecast from the start date on; without history there are no comparisons |
| Summary.PrevPeriodComparison | streamlit_prophet/lib/exposition/visualize.py:277-289 | the previous-period comparison is the comparison with the window from d days before the start to the day before it, so it exists exactly when a history date lies there; that window is one day shorter than the forecast period |
| Summary.PrevYearComparison | streamlit_prophet/lib/exposition/visualize.py:291-303 | the year comparison is missing exactly for a 365-day period or an empty year-earlier window; otherwise it is the comparison with the forecast period shifted 365 days back |
| Summary.PlotFutureAsWritten | streamlit_prophet/lib/exposition/visualize.py:264-328 | the display fails exactly without history or with a 365-day period, and otherwise shows the corrected metrics |
| Summary.PlotFutureAsWrittenFails | streamlit_prophet/lib/exposition/visualize.py:311-324 | two concrete inputs on which the display fails with an unbound name |

## Left out

- Plotting, Streamlit widgets and layout, and the text of the scenario descriptions: these are display only.
- Rounding: table cells are `int(round(...))` and formatted with `{:+.1f}%`. The model keeps the exact totals, which are what the differences are computed from.
- Prophet fitting and the baseline forecast itself: the baseline is an input.
- The real exponential and floating point. The exponential is an abstract parameter. Numbers are exact reals, so NaN and overflow are not modelled.
- Effect.EffectAt: the intended saturation (within 1% of the maximum at the end of the ramp) is not stated. The sigmoid there is 1/(1+e^-4), about 0.982, which an abstract exponential cannot pin down. EffectAtAccelerationEnd states what the plateau formula gives at that point.
- Time of day: timestamps are whole day offsets, so elapsed days are whole numbers in the model.
- Scenarios.PercentageMaxEffect: on an empty baseline the mean is NaN in pandas. The model uses 0. No date is affected either way.
- Scenarios.GenerateScenarioForecast: a configuration is a typed record. A missing key inside a mode's parameter set, or in the coefficients, is not modelled; only a parameter set of the other mode gives `MissingKey`.
- Zero acceleration months: the ramp branch is then unreachable, so its division by zero never happens. The model follows the code, where `PhaseOf` yields the ramp only when the acceleration months are positive.
- Input validation by the sidebar widgets (non-negative sliders): the model does not impose it. The properties that need it say so in their requirements.
- The exceptions a Streamlit page shows: a `Failure` result stands for them.

## Findings

| source | as written | input that shows it | evidently intended | confidence | as-written member | corrected member |
|---|---|---|---|---|---|---|
| streamlit_prophet/lib/models/scenarios.py:107 | `pd.to_datetime` of the `ds` column is a column, and `calculate_effect_curve` reads `.days` off its difference with the start date at line 37, which only an index has, so an attribute error is raised | any numeric scenario, any baseline | read the elapsed days of each date (`.dt.days`, or a `DatetimeIndex`) and lay the curve on the baseline | not executed | Scenarios.ApplyNumericScenarioAsWritten | Scenarios.ApplyNumericScenario |
| streamlit_prophet/lib/models/scenarios.py:156 | the same conversion hands the `ds` column to the curve, which raises at line 37 | any percentage scenario, any baseline | read the elapsed days of each date and lay the curve on the baseline | not executed | Scenarios.ApplyPercentageScenarioAsWritten | Scenarios.ApplyPercentageScenario |
| streamlit_prophet/lib/exposition/visualize.py:311 | the period description reads `forecast_duration`, which is only assigned when a history frame is given | no history frame (`df` is None), any forecast period | describe the forecast period whether or not a history is given | not executed | Summary.PlotFutureAsWritten | Summary.ForecastSummaryMetrics |
| streamlit_prophet/lib/exposition/visualize.py:324 | the year description reads `prev_year_data`, which is not assigned when the year comparison is skipped | a history frame and a forecast period of exactly 365 days | report "no data for the same period last year" when the comparison is skipped | not executed | Summary.PlotFutureAsWritten | Summary.PrevYearComparison |

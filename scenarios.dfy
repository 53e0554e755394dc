/**
 * Scenario forecasts: a scenario's maximum effect, its effect curve over the
 * baseline's dates, and the overlay of that curve on a copy of the baseline;
 * dispatch on the scenario mode, and the batch runner that collects one
 * forecast per scenario name.
 */
module Scenarios {
  import opened Wrappers
  import opened Effect
  import Dict

  /**
   * A forecast frame: dates as day offsets, the point forecast and its lower
   * and upper bounds, and every other column, which scenarios carry over
   * untouched.
   */
  datatype Forecast = Forecast(ds: seq<int>, yhat: seq<real>, yhatLower: seq<real>, yhatUpper: seq<real>,
                               otherColumns: map<string, seq<real>>)

  /** The columns of a frame have one row per date. */
  predicate Aligned(f: Forecast)
  {
    |f.yhat| == |f.ds| && |f.yhatLower| == |f.ds| && |f.yhatUpper| == |f.ds|
  }

  /** Every point forecast lies within its bounds. */
  predicate Banded(f: Forecast)
  {
    Aligned(f) && forall i :: 0 <= i < |f.ds| ==> f.yhatLower[i] <= f.yhat[i] <= f.yhatUpper[i]
  }

  /** The share of the effect added to the lower bound. */
  const LowerMultiplier: real := 0.8
  /** The share of the effect added to the upper bound. */
  const UpperMultiplier: real := 1.2

  /**
   * A copy of `baseline` with the effect added: fully to the point forecast,
   * 0.8 of it to the lower bound and 1.2 of it to the upper bound.
   */
  function Overlay(baseline: Forecast, effect: seq<real>): (r: Forecast)
    requires Aligned(baseline) && |effect| == |baseline.ds|
    ensures Aligned(r) && r.ds == baseline.ds && r.otherColumns == baseline.otherColumns
    ensures forall i :: 0 <= i < |r.ds| ==>
      && r.yhat[i] - baseline.yhat[i] == effect[i]
      && r.yhatLower[i] - baseline.yhatLower[i] == LowerMultiplier * effect[i]
      && r.yhatUpper[i] - baseline.yhatUpper[i] == UpperMultiplier * effect[i]
  {
    var n := |effect|;
    baseline.(yhat := seq(n, i requires 0 <= i < n => baseline.yhat[i] + effect[i]),
              yhatLower := seq(n, i requires 0 <= i < n => baseline.yhatLower[i] + effect[i] * LowerMultiplier),
              yhatUpper := seq(n, i requires 0 <= i < n => baseline.yhatUpper[i] + effect[i] * UpperMultiplier))
  }

  function Negated(effect: seq<real>): seq<real>
  {
    seq(|effect|, i requires 0 <= i < |effect| => -effect[i])
  }

  /**
   * A non-negative effect keeps every point forecast within its bounds, and
   * widens each band by 0.4 of the effect.
   */
  lemma OverlayPreservesBand(baseline: Forecast, effect: seq<real>)
    requires Banded(baseline) && |effect| == |baseline.ds|
    requires forall i :: 0 <= i < |effect| ==> effect[i] >= 0.0
    ensures Banded(Overlay(baseline, effect))
    ensures forall i :: 0 <= i < |effect| ==>
      Overlay(baseline, effect).yhatUpper[i] - Overlay(baseline, effect).yhatLower[i]
      == baseline.yhatUpper[i] - baseline.yhatLower[i] + 0.4 * effect[i]
  {
  }

  /** A negative effect can push the point forecast below its lower bound. */
  lemma NegativeEffectCanBreakBand()
    ensures Banded(Forecast([0], [10.0], [10.0], [10.0], map[]))
    ensures !Banded(Overlay(Forecast([0], [10.0], [10.0], [10.0], map[]), [-1.0]))
  {
    var r := Overlay(Forecast([0], [10.0], [10.0], [10.0], map[]), [-1.0]);
    assert r.yhat[0] == 9.0 && r.yhatLower[0] == 9.2;
  }

  /** Overlaying the opposite effect restores the baseline. */
  lemma OverlayUndo(baseline: Forecast, effect: seq<real>)
    requires Aligned(baseline) && |effect| == |baseline.ds|
    ensures Overlay(Overlay(baseline, effect), Negated(effect)) == baseline
  {
    var r := Overlay(Overlay(baseline, effect), Negated(effect));
    assert r.yhat == baseline.yhat;
    assert r.yhatLower == baseline.yhatLower;
    assert r.yhatUpper == baseline.yhatUpper;
  }

  /** Sum of a column. */
  function Sum(s: seq<real>): real
  {
    if |s| == 0 then 0.0 else Sum(s[..|s| - 1]) + s[|s| - 1]
  }

  /** Arithmetic mean of a non-empty column. */
  function Mean(s: seq<real>): real
    requires |s| > 0
  {
    Sum(s) / |s| as real
  }

  datatype Coefficients = Coefficients(budget: real, content: real, backlinks: real)

  /**
   * The maximum effect of a numeric scenario: the budget counted per 1000,
   * plus the content and backlinks, each times its coefficient.
   */
  function NumericMaxEffect(budget: real, content: real, backlinks: real, coefficients: Coefficients): (r: real)
    ensures (&& budget >= 0.0 && content >= 0.0 && backlinks >= 0.0
             && coefficients.budget >= 0.0 && coefficients.content >= 0.0 && coefficients.backlinks >= 0.0)
            ==> r >= 0.0
  {
    var budgetEffect := (budget / 1000.0) * coefficients.budget;
    var contentEffect := content * coefficients.content;
    var backlinksEffect := backlinks * coefficients.backlinks;
    budgetEffect + contentEffect + backlinksEffect
  }

  /** Effects of maximum effects `a`, `b` and `c` add up to the effect of `a + b + c`. */
  lemma EffectAdditive(exp: real -> real, m: real, delayMonths: real, accelMonths: real, plateauRate: real,
                       a: real, b: real, c: real)
    requires IsExp(exp)
    ensures EffectAt(exp, m, delayMonths, accelMonths, plateauRate, a + b + c)
         == EffectAt(exp, m, delayMonths, accelMonths, plateauRate, a)
          + EffectAt(exp, m, delayMonths, accelMonths, plateauRate, b)
          + EffectAt(exp, m, delayMonths, accelMonths, plateauRate, c)
  {
    var unit := EffectAt(exp, m, delayMonths, accelMonths, plateauRate, 1.0);
    EffectScalesWithMaxEffect(exp, m, delayMonths, accelMonths, plateauRate, a + b + c);
    EffectScalesWithMaxEffect(exp, m, delayMonths, accelMonths, plateauRate, a);
    EffectScalesWithMaxEffect(exp, m, delayMonths, accelMonths, plateauRate, b);
    EffectScalesWithMaxEffect(exp, m, delayMonths, accelMonths, plateauRate, c);
    assert (a + b + c) * unit == a * unit + b * unit + c * unit;
  }

  /**
   * The effect of a numeric scenario at any time is the sum of the effects
   * the three levers would have on their own.
   */
  lemma NumericEffectIsSumOfLevers(exp: real -> real, m: real, budget: real, content: real, backlinks: real,
                                   coefficients: Coefficients, delayMonths: real, accelMonths: real,
                                   plateauRate: real)
    requires IsExp(exp)
    ensures EffectAt(exp, m, delayMonths, accelMonths, plateauRate,
                     NumericMaxEffect(budget, content, backlinks, coefficients))
         == EffectAt(exp, m, delayMonths, accelMonths, plateauRate, (budget / 1000.0) * coefficients.budget)
          + EffectAt(exp, m, delayMonths, accelMonths, plateauRate, content * coefficients.content)
          + EffectAt(exp, m, delayMonths, accelMonths, plateauRate, backlinks * coefficients.backlinks)
  {
    var a, b, c := (budget / 1000.0) * coefficients.budget, content * coefficients.content,
                   backlinks * coefficients.backlinks;
    assert NumericMaxEffect(budget, content, backlinks, coefficients) == a + b + c;
    EffectAdditive(exp, m, delayMonths, accelMonths, plateauRate, a, b, c);
  }


  /** A numeric scenario: the baseline plus the effect curve of the levers' maximum effect. */
  function ApplyNumericScenario(exp: real -> real, baseline: Forecast, budget: real, content: real,
                                backlinks: real, coefficients: Coefficients, delayMonths: real,
                                accelMonths: real, plateauRate: real, start: int): (r: Forecast)
    requires IsExp(exp) && Aligned(baseline)
    ensures Aligned(r) && r.ds == baseline.ds && r.otherColumns == baseline.otherColumns
    ensures forall i :: 0 <= i < |r.ds| ==>
      r.yhat[i] - baseline.yhat[i]
      == EffectAt(exp, MonthsSince(r.ds[i], start), delayMonths, accelMonths, plateauRate,
                  NumericMaxEffect(budget, content, backlinks, coefficients))
    ensures forall i :: 0 <= i < |r.ds| ==>
      && r.yhatLower[i] - baseline.yhatLower[i] == LowerMultiplier * (r.yhat[i] - baseline.yhat[i])
      && r.yhatUpper[i] - baseline.yhatUpper[i] == UpperMultiplier * (r.yhat[i] - baseline.yhat[i])
  {
    var totalMaxEffect := NumericMaxEffect(budget, content, backlinks, coefficients);
    var effectCurve := EffectCurve(exp, baseline.ds, start, delayMonths, accelMonths, plateauRate, totalMaxEffect);
    Overlay(baseline, effectCurve)
  }

  /** Lays a computed curve on the baseline, or passes on the error that stopped the curve. */
  function OverlayResult(baseline: Forecast, curve: Result<seq<real>, CurveError>): (r: Result<Forecast, CurveError>)
    requires Aligned(baseline)
    requires curve.Success? ==> |curve.value| == |baseline.ds|
    ensures r.Success? <==> curve.Success?
    ensures r.Failure? ==> r.error == curve.error
  {
    match curve
    case Success(effectCurve) => Success(Overlay(baseline, effectCurve))
    case Failure(e) => Failure(e)
  }

  /**
   * A numeric scenario as written: the frame's `ds` column, converted to
   * datetimes, is still a column when it is handed to the curve, so the curve
   * fails whatever the baseline and the levers.
   */
  function ApplyNumericScenarioAsWritten(exp: real -> real, baseline: Forecast, budget: real, content: real,
                                         backlinks: real, coefficients: Coefficients, delayMonths: real,
                                         accelMonths: real, plateauRate: real, start: int)
    : (r: Result<Forecast, CurveError>)
    requires IsExp(exp) && Aligned(baseline)
    ensures r == Failure(NoDaysAttribute)
  {
    var totalMaxEffect := NumericMaxEffect(budget, content, backlinks, coefficients);
    OverlayResult(baseline, EffectCurveOn(exp, DateColumn(baseline.ds), start, delayMonths, accelMonths,
                                          plateauRate, totalMaxEffect))
  }

  /**
   * With non-negative levers, coefficients and plateau rate, a numeric
   * scenario never lowers the forecast, keeps every point within its bounds,
   * and its uplift grows along the timeline.
   */
  lemma NumericScenarioUplift(exp: real -> real, baseline: Forecast, budget: real, content: real,
                              backlinks: real, coefficients: Coefficients, delayMonths: real,
                              accelMonths: real, plateauRate: real, start: int)
    requires IsExp(exp) && Banded(baseline)
    requires budget >= 0.0 && content >= 0.0 && backlinks >= 0.0
    requires coefficients.budget >= 0.0 && coefficients.content >= 0.0 && coefficients.backlinks >= 0.0
    requires plateauRate >= 0.0
    ensures var r := ApplyNumericScenario(exp, baseline, budget, content, backlinks, coefficients,
                                          delayMonths, accelMonths, plateauRate, start);
      && Banded(r)
      && (forall i :: 0 <= i < |r.ds| ==> r.yhat[i] >= baseline.yhat[i])
      && (forall i, j :: 0 <= i <= j < |r.ds| && r.ds[i] <= r.ds[j] ==>
            r.yhat[i] - baseline.yhat[i] <= r.yhat[j] - baseline.yhat[j])
  {
    var maxEffect := NumericMaxEffect(budget, content, backlinks, coefficients);
    var curve := EffectCurve(exp, baseline.ds, start, delayMonths, accelMonths, plateauRate, maxEffect);
    OverlayPreservesBand(baseline, curve);
    forall i, j | 0 <= i <= j < |baseline.ds| && baseline.ds[i] <= baseline.ds[j]
      ensures curve[i] <= curve[j]
    {
      CurveNonDecreasing(exp, baseline.ds, start, delayMonths, accelMonths, plateauRate, maxEffect, i, j);
    }
  }

  /** Plateau growth of a percentage scenario: 0.5% of the maximum effect per month, whatever the input. */
  const PercentagePlateauRate: real := 0.005

  /**
   * The maximum effect of a percentage scenario: `pctIncrease` percent of the
   * mean point forecast. An empty baseline has no dates to apply it to, and
   * gets 0.
   */
  function PercentageMaxEffect(yhat: seq<real>, pctIncrease: real): (r: real)
    ensures |yhat| > 0 ==> r * (|yhat| as real) * 100.0 == Sum(yhat) * pctIncrease
  {
    if |yhat| == 0 then 0.0
    else
      var n := |yhat| as real;
      assert Mean(yhat) * n == Sum(yhat);
      Mean(yhat) * (pctIncrease / 100.0)
  }

  /** A percentage scenario: the baseline plus an effect curve ramping to a share of the mean forecast. */
  function ApplyPercentageScenario(exp: real -> real, baseline: Forecast, pctIncrease: real,
                                   delayMonths: real, durationMonths: real, start: int): (r: Forecast)
    requires IsExp(exp) && Aligned(baseline)
    ensures Aligned(r) && r.ds == baseline.ds && r.otherColumns == baseline.otherColumns
    ensures forall i :: 0 <= i < |r.ds| ==>
      r.yhat[i] - baseline.yhat[i]
      == EffectAt(exp, MonthsSince(r.ds[i], start), delayMonths, durationMonths, PercentagePlateauRate,
                  PercentageMaxEffect(baseline.yhat, pctIncrease))
    ensures forall i :: 0 <= i < |r.ds| ==>
      && r.yhatLower[i] - baseline.yhatLower[i] == LowerMultiplier * (r.yhat[i] - baseline.yhat[i])
      && r.yhatUpper[i] - baseline.yhatUpper[i] == UpperMultiplier * (r.yhat[i] - baseline.yhat[i])
  {
    var maxEffect := PercentageMaxEffect(baseline.yhat, pctIncrease);
    var effectCurve := EffectCurve(exp, baseline.ds, start, delayMonths, durationMonths, PercentagePlateauRate, maxEffect);
    Overlay(baseline, effectCurve)
  }

  /**
   * A percentage scenario as written: like the numeric one it hands the
   * datetime column to the curve, which fails whatever the baseline.
   */
  function ApplyPercentageScenarioAsWritten(exp: real -> real, baseline: Forecast, pctIncrease: real,
                                            delayMonths: real, durationMonths: real, start: int)
    : (r: Result<Forecast, CurveError>)
    requires IsExp(exp) && Aligned(baseline)
    ensures r == Failure(NoDaysAttribute)
  {
    var maxEffect := PercentageMaxEffect(baseline.yhat, pctIncrease);
    OverlayResult(baseline, EffectCurveOn(exp, DateColumn(baseline.ds), start, delayMonths, durationMonths,
                                          PercentagePlateauRate, maxEffect))
  }

  /**
   * The worked example: three daily points of 100 (bounds 90 and 110) and a
   * 50% scenario without delay over one month. All three days fall in the
   * ramp, so every point is lifted above 100 and the points strictly increase.
   */
  lemma PercentageScenarioExample(exp: real -> real)
    requires IsExp(exp)
    ensures var r := ApplyPercentageScenario(exp, Forecast([0, 1, 2], [100.0, 100.0, 100.0], [90.0, 90.0, 90.0],
                                                           [110.0, 110.0, 110.0], map[]), 50.0, 0.0, 1.0, 0);
      && 100.0 < r.yhat[0] < r.yhat[1] < r.yhat[2]
  {
    var baseline := Forecast([0, 1, 2], [100.0, 100.0, 100.0], [90.0, 90.0, 90.0], [110.0, 110.0, 110.0], map[]);
    var yhat := [100.0, 100.0, 100.0];
    assert Sum(yhat) == 300.0 by {
      assert yhat[..2] == [100.0, 100.0];
      assert yhat[..2][..1] == [100.0];
      assert [100.0][..0] == [];
    }
    assert PercentageMaxEffect(yhat, 50.0) == 50.0;
    var r := ApplyPercentageScenario(exp, baseline, 50.0, 0.0, 1.0, 0);
    var m0, m1, m2 := MonthsSince(0, 0), MonthsSince(1, 0), MonthsSince(2, 0);
    assert m0 == 0.0 && 0.0 < m1 < m2 < 1.0;
    var z0, z1, z2 := RampArg(m0 - 0.0, 1.0), RampArg(m1 - 0.0, 1.0), RampArg(m2 - 0.0, 1.0);
    assert z0 < z1 < z2;
    LogisticStrictlyIncreasing(exp, z0, z1);
    LogisticStrictlyIncreasing(exp, z1, z2);
    assert PhaseOf(m0, 0.0, 1.0) == Acceleration && PhaseOf(m1, 0.0, 1.0) == Acceleration
        && PhaseOf(m2, 0.0, 1.0) == Acceleration;
    assert r.yhat[0] - 100.0 == 50.0 * Logistic(exp, z0);
    assert r.yhat[1] - 100.0 == 50.0 * Logistic(exp, z1);
    assert r.yhat[2] - 100.0 == 50.0 * Logistic(exp, z2);
  }

  /** What a scenario configuration holds besides its name and mode. */
  datatype Params =
    | NumericParams(budget: real, content: real, backlinks: real, coefficients: Coefficients,
                    delayMonths: real, accelMonths: real, plateauRate: real)
    | PercentageParams(pctIncrease: real, delayMonths: real, durationMonths: real)

  /** A named scenario configuration; `mode` is the string the configuration carries. */
  datatype ScenarioConfig = ScenarioConfig(name: string, mode: string, params: Params)

  datatype Mode = Numeric | Percentage | Unknown(mode: string)

  /**
   * Why a scenario forecast could not be made: a mode other than the two
   * known ones, or a configuration lacking the key its mode reads first.
   */
  datatype Error = UnknownScenarioMode(mode: string) | MissingKey(key: string)

  function ParseMode(mode: string): (m: Mode)
    ensures m.Unknown? <==> mode != "numeric" && mode != "percentage"
    ensures m.Unknown? ==> m.mode == mode
  {
    if mode == "numeric" then Numeric
    else if mode == "percentage" then Percentage
    else Unknown(mode)
  }

  /**
   * The forecast of one scenario. Only "numeric" and "percentage" are
   * accepted; any other mode is an error that carries the mode, never a
   * fallback to one of the two.
   */
  function GenerateScenarioForecast(exp: real -> real, baseline: Forecast, config: ScenarioConfig,
                                    start: int): (r: Result<Forecast, Error>)
    requires IsExp(exp) && Aligned(baseline)
    ensures r.Success? ==> Aligned(r.value) && r.value.ds == baseline.ds
                           && r.value.otherColumns == baseline.otherColumns
    ensures r.Success? <==> (config.mode == "numeric" && config.params.NumericParams?)
                            || (config.mode == "percentage" && config.params.PercentageParams?)
    ensures config.mode != "numeric" && config.mode != "percentage"
            ==> r == Failure(UnknownScenarioMode(config.mode))
    ensures config.mode == "numeric" && config.params.NumericParams? ==>
      var p := config.params;
      r == Success(ApplyNumericScenario(exp, baseline, p.budget, p.content, p.backlinks, p.coefficients,
                                        p.delayMonths, p.accelMonths, p.plateauRate, start))
    ensures config.mode == "percentage" && config.params.PercentageParams? ==>
      var p := config.params;
      r == Success(ApplyPercentageScenario(exp, baseline, p.pctIncrease, p.delayMonths, p.durationMonths, start))
  {
    match ParseMode(config.mode)
    case Numeric =>
      (match config.params
       case NumericParams(budget, content, backlinks, coefficients, delayMonths, accelMonths, plateauRate) =>
         Success(ApplyNumericScenario(exp, baseline, budget, content, backlinks, coefficients,
                                      delayMonths, accelMonths, plateauRate, start))
       case PercentageParams(_, _, _) => Failure(MissingKey("budget")))
    case Percentage =>
      (match config.params
       case PercentageParams(pctIncrease, delayMonths, durationMonths) =>
         Success(ApplyPercentageScenario(exp, baseline, pctIncrease, delayMonths, durationMonths, start))
       case NumericParams(_, _, _, _, _, _, _) => Failure(MissingKey("pct_increase")))
    case Unknown(mode) => Failure(UnknownScenarioMode(mode))
  }

  /** The set of names of a list of scenarios. */
  function ScenarioNames(scenarios: seq<ScenarioConfig>): set<string>
  {
    set i | 0 <= i < |scenarios| :: scenarios[i].name
  }

  /** The names of a list of named outcomes. */
  function OutcomeNames<V, E>(outcomes: seq<(string, Result<V, E>)>): set<string>
  {
    set i | 0 <= i < |outcomes| :: outcomes[i].0
  }

  lemma OutcomeNamesSnoc<V, E>(outcomes: seq<(string, Result<V, E>)>)
    requires |outcomes| > 0
    ensures OutcomeNames(outcomes)
         == OutcomeNames(outcomes[..|outcomes| - 1]) + {outcomes[|outcomes| - 1].0}
  {
    var prefix := outcomes[..|outcomes| - 1];
    forall name | name in OutcomeNames(prefix) ensures name in OutcomeNames(outcomes) {
      var i :| 0 <= i < |prefix| && prefix[i].0 == name;
      assert outcomes[i].0 == name;
    }
  }


  /**
   * The loop `d[name] = value` over named outcomes in list order: the first
   * error stops it, otherwise every value is stored under its name.
   */
  function Collect<V, E>(outcomes: seq<(string, Result<V, E>)>): Result<Dict.Dict<V>, E>
  {
    if |outcomes| == 0 then Success([])
    else
      var last := outcomes[|outcomes| - 1];
      match Collect(outcomes[..|outcomes| - 1])
      case Failure(e) => Failure(e)
      case Success(d) =>
        match last.1
        case Failure(e) => Failure(e)
        case Success(v) => Success(Dict.Put(d, last.0, v))
  }

  /** Once a prefix has failed, the whole fold fails with the same error. */
  lemma {:induction false} CollectFailureSticks<V, E>(outcomes: seq<(string, Result<V, E>)>, i: nat, e: E)
    requires i <= |outcomes|
    requires Collect(outcomes[..i]) == Failure(e)
    ensures Collect(outcomes) == Failure(e)
    decreases |outcomes| - i
  {
    if i < |outcomes| {
      assert outcomes[..i + 1][..i] == outcomes[..i];
      CollectFailureSticks(outcomes, i + 1, e);
    } else {
      assert outcomes[..i] == outcomes;
    }
  }

  /** The fold succeeds exactly when every outcome is a success. */
  lemma {:induction false} CollectSucceedsIff<V, E>(outcomes: seq<(string, Result<V, E>)>)
    ensures Collect(outcomes).Success? <==> forall i :: 0 <= i < |outcomes| ==> outcomes[i].1.Success?
  {
    if |outcomes| > 0 {
      var n := |outcomes|;
      var prefix := outcomes[..n - 1];
      CollectSucceedsIff(prefix);
      if Collect(outcomes).Success? {
        assert Collect(prefix).Success? && outcomes[n - 1].1.Success?;
        forall i | 0 <= i < n ensures outcomes[i].1.Success? {
          if i < n - 1 {
            assert prefix[i] == outcomes[i];
          }
        }
      } else if Collect(prefix).Success? {
        assert outcomes[n - 1].1.Failure?;
      } else {
        var i :| 0 <= i < n - 1 && !prefix[i].1.Success?;
        assert outcomes[i] == prefix[i];
      }
    }
  }

  /** A successful fold has one entry per distinct name and no other key. */
  lemma {:induction false} CollectKeys<V, E>(outcomes: seq<(string, Result<V, E>)>)
    requires Collect(outcomes).Success?
    ensures Dict.DistinctKeys(Collect(outcomes).value)
    ensures Dict.KeySet(Collect(outcomes).value) == OutcomeNames(outcomes)
  {
    if |outcomes| > 0 {
      var n := |outcomes|;
      var prefix := outcomes[..n - 1];
      var last := outcomes[n - 1];
      assert Collect(prefix).Success? && last.1.Success?;
      var d := Collect(prefix).value;
      assert Collect(outcomes).value == Dict.Put(d, last.0, last.1.value);
      CollectKeys(prefix);
      OutcomeNamesSnoc(outcomes);
    }
  }

  /** Last write wins: the value stored under a name is that of the last outcome with that name. */
  lemma {:induction false} CollectLastWriteWins<V, E>(outcomes: seq<(string, Result<V, E>)>, i: int)
    requires Collect(outcomes).Success?
    requires 0 <= i < |outcomes|
    requires forall j :: i < j < |outcomes| ==> outcomes[j].0 != outcomes[i].0
    ensures outcomes[i].1.Success?
    ensures Dict.Get(Collect(outcomes).value, outcomes[i].0) == Some(outcomes[i].1.value)
  {
    var n := |outcomes|;
    var prefix := outcomes[..n - 1];
    var last := outcomes[n - 1];
    assert Collect(prefix).Success? && last.1.Success?;
    assert Collect(outcomes).value == Dict.Put(Collect(prefix).value, last.0, last.1.value);
    if i < n - 1 {
      assert prefix[i] == outcomes[i];
      CollectLastWriteWins(prefix, i);
    }
  }

  /** The names of a list, each kept at its first appearance only. */
  function FirstAppearances(names: seq<string>): (r: seq<string>)
  {
    if |names| == 0 then []
    else
      var seen := FirstAppearances(names[..|names| - 1]);
      if names[|names| - 1] in seen then seen else seen + [names[|names| - 1]]
  }

  /** The names of a list of named outcomes, in list order. */
  function NameList<V, E>(outcomes: seq<(string, Result<V, E>)>): (names: seq<string>)
    ensures |names| == |outcomes|
    ensures forall i :: 0 <= i < |outcomes| ==> names[i] == outcomes[i].0
  {
    seq(|outcomes|, i requires 0 <= i < |outcomes| => outcomes[i].0)
  }

  /**
   * The keys of a successful fold come in the order in which their names
   * first appear: a repeated name overwrites the value but not the position.
   */
  lemma {:induction false} CollectKeyOrder<V, E>(outcomes: seq<(string, Result<V, E>)>)
    requires Collect(outcomes).Success?
    ensures Dict.Keys(Collect(outcomes).value) == FirstAppearances(NameList(outcomes))
  {
    if |outcomes| > 0 {
      var n := |outcomes|;
      var prefix := outcomes[..n - 1];
      var last := outcomes[n - 1];
      var seen := FirstAppearances(NameList(prefix));
      assert FirstAppearances(NameList(outcomes)) == if last.0 in seen then seen else seen + [last.0] by {
        assert NameList(outcomes)[..n - 1] == NameList(prefix);
        assert NameList(outcomes)[n - 1] == last.0;
      }
      assert Collect(prefix).Success? && last.1.Success?;
      var d := Collect(prefix).value;
      assert Collect(outcomes).value == Dict.Put(d, last.0, last.1.value);
      CollectKeyOrder(prefix);
      if last.0 in Dict.KeySet(d) {
        Dict.PutExistingKeyOrder(d, last.0, last.1.value);
      } else {
        Dict.PutNewKeyOrder(d, last.0, last.1.value);
      }
    }
  }

  /** Each scenario's name paired with the outcome of its forecast. */
  function Outcomes(exp: real -> real, baseline: Forecast, scenarios: seq<ScenarioConfig>,
                    start: int): (r: seq<(string, Result<Forecast, Error>)>)
    requires IsExp(exp) && Aligned(baseline)
  {
    seq(|scenarios|, i requires 0 <= i < |scenarios| =>
      (scenarios[i].name, GenerateScenarioForecast(exp, baseline, scenarios[i], start)))
  }

  /** The scenario forecasts of a batch, keyed by name, or the first scenario's error. */
  function Batch(exp: real -> real, baseline: Forecast, scenarios: seq<ScenarioConfig>,
                 start: int): Result<Dict.Dict<Forecast>, Error>
    requires IsExp(exp) && Aligned(baseline)
  {
    Collect(Outcomes(exp, baseline, scenarios, start))
  }

  /**
   * Runs every scenario against the same baseline and start date and stores
   * each forecast under its scenario's name.
   */
  method GenerateScenarioForecasts(exp: real -> real, baseline: Forecast, scenarios: seq<ScenarioConfig>,
                                   forecastStart: int)
    returns (r: Result<Dict.Dict<Forecast>, Error>)
    requires IsExp(exp) && Aligned(baseline)
    ensures r == Batch(exp, baseline, scenarios, forecastStart)
  {
    ghost var outcomes := Outcomes(exp, baseline, scenarios, forecastStart);
    var scenarioForecasts: Dict.Dict<Forecast> := [];
    for i := 0 to |scenarios|
      invariant Collect(outcomes[..i]) == Success(scenarioForecasts)
    {
      var scenario := scenarios[i];
      assert outcomes[..i + 1][..i] == outcomes[..i];
      var scenarioForecast := GenerateScenarioForecast(exp, baseline, scenario, forecastStart);
      assert outcomes[i] == (scenario.name, scenarioForecast);
      if scenarioForecast.Failure? {
        CollectFailureSticks(outcomes, i + 1, scenarioForecast.error);
        return Failure(scenarioForecast.error);
      }
      scenarioForecasts := Dict.Put(scenarioForecasts, scenario.name, scenarioForecast.value);
    }
    assert outcomes[..|scenarios|] == outcomes;
    r := Success(scenarioForecasts);
  }

  /** The batch succeeds exactly when every scenario on its own succeeds. */
  lemma BatchSucceedsIff(exp: real -> real, baseline: Forecast, scenarios: seq<ScenarioConfig>, start: int)
    requires IsExp(exp) && Aligned(baseline)
    ensures Batch(exp, baseline, scenarios, start).Success?
        <==> forall i :: 0 <= i < |scenarios| ==> GenerateScenarioForecast(exp, baseline, scenarios[i], start).Success?
  {
    var outcomes := Outcomes(exp, baseline, scenarios, start);
    CollectSucceedsIff(outcomes);
    assert forall i :: 0 <= i < |scenarios| ==>
      outcomes[i].1 == GenerateScenarioForecast(exp, baseline, scenarios[i], start);
  }

  /** A successful batch has exactly one entry per distinct scenario name. */
  lemma BatchKeys(exp: real -> real, baseline: Forecast, scenarios: seq<ScenarioConfig>, start: int)
    requires IsExp(exp) && Aligned(baseline)
    requires Batch(exp, baseline, scenarios, start).Success?
    ensures Dict.DistinctKeys(Batch(exp, baseline, scenarios, start).value)
    ensures Dict.KeySet(Batch(exp, baseline, scenarios, start).value) == ScenarioNames(scenarios)
  {
    var outcomes := Outcomes(exp, baseline, scenarios, start);
    CollectKeys(outcomes);
    assert OutcomeNames(outcomes) == ScenarioNames(scenarios) by {
      assert forall i :: 0 <= i < |scenarios| ==> outcomes[i].0 == scenarios[i].name;
    }
  }

  /** A successful batch lists its forecasts in the order the scenario names first appear. */
  lemma BatchKeyOrder(exp: real -> real, baseline: Forecast, scenarios: seq<ScenarioConfig>, start: int)
    requires IsExp(exp) && Aligned(baseline)
    requires Batch(exp, baseline, scenarios, start).Success?
    ensures Dict.Keys(Batch(exp, baseline, scenarios, start).value)
         == FirstAppearances(seq(|scenarios|, i requires 0 <= i < |scenarios| => scenarios[i].name))
  {
    var outcomes := Outcomes(exp, baseline, scenarios, start);
    CollectKeyOrder(outcomes);
    assert NameList(outcomes) == seq(|scenarios|, i requires 0 <= i < |scenarios| => scenarios[i].name);
  }

  /**
   * Last write wins: the forecast stored under a name is the one the last
   * scenario with that name gets on its own, against the same baseline and
   * start date.
   */
  lemma BatchLastWriteWins(exp: real -> real, baseline: Forecast, scenarios: seq<ScenarioConfig>,
                           start: int, i: int)
    requires IsExp(exp) && Aligned(baseline)
    requires Batch(exp, baseline, scenarios, start).Success?
    requires 0 <= i < |scenarios|
    requires forall j :: i < j < |scenarios| ==> scenarios[j].name != scenarios[i].name
    ensures GenerateScenarioForecast(exp, baseline, scenarios[i], start).Success?
    ensures Dict.Get(Batch(exp, baseline, scenarios, start).value, scenarios[i].name)
         == Some(GenerateScenarioForecast(exp, baseline, scenarios[i], start).value)
  {
    CollectLastWriteWins(Outcomes(exp, baseline, scenarios, start), i);
  }
}

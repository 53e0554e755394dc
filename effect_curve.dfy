/**
 * The effect curve of a scenario: for every date, the additive traffic effect
 * of an intervention that starts on `start`, in three phases measured in
 * average-length months since `start`: a delay with no effect, a logistic
 * acceleration towards `maxEffect`, and a plateau that keeps growing linearly.
 */
module Effect {
  import opened Wrappers

  /** Average number of days in a month, used to turn day offsets into months. */
  const DaysPerMonth: real := 30.44

  /** Steepness numerator of the logistic ramp: k = 8 / accelMonths. */
  const Steepness: real := 8.0

  /**
   * What the model relies on about numpy's exp: exp(0) = 1, it is positive
   * and strictly increasing. Every operation takes the exponential as a
   * parameter constrained by this predicate.
   */
  ghost predicate IsExp(exp: real -> real)
  {
    && exp(0.0) == 1.0
    && (forall x :: 0.0 < exp(x))
    && (forall x, y :: x < y ==> exp(x) < exp(y))
  }

  /** The logistic function 1 / (1 + exp(-z)); it lies strictly between 0 and 1. */
  function Logistic(exp: real -> real, z: real): (s: real)
    requires IsExp(exp)
    ensures 0.0 < s < 1.0
  {
    var e := exp(-z);
    assert 0.0 < e;
    1.0 / (1.0 + e)
  }

  /** The logistic function is strictly increasing. */
  lemma LogisticStrictlyIncreasing(exp: real -> real, z1: real, z2: real)
    requires IsExp(exp)
    requires z1 < z2
    ensures Logistic(exp, z1) < Logistic(exp, z2)
  {
    var e1, e2 := exp(-z1), exp(-z2);
    assert 0.0 < e2 < e1;
    assert 1.0 + e2 < 1.0 + e1;
    DivisionAntitone(1.0 + e2, 1.0 + e1);
  }

  /** The logistic function is non-decreasing. */
  lemma LogisticMonotone(exp: real -> real, z1: real, z2: real)
    requires IsExp(exp)
    requires z1 <= z2
    ensures Logistic(exp, z1) <= Logistic(exp, z2)
  {
    if z1 < z2 {
      LogisticStrictlyIncreasing(exp, z1, z2);
    }
  }

  lemma DivisionAntitone(a: real, b: real)
    requires 0.0 < a < b
    ensures 1.0 / b < 1.0 / a
  {
    assert 1.0 / a - 1.0 / b == (b - a) / (a * b);
    assert 0.0 < a * b;
  }

  lemma MulMonotone(c: real, x: real, y: real)
    requires 0.0 <= c && x <= y
    ensures c * x <= c * y
  {
    assert c * y - c * x == c * (y - x);
  }

  /** The logistic function is 1/2 at 0. */
  lemma LogisticAtZero(exp: real -> real)
    requires IsExp(exp)
    ensures Logistic(exp, 0.0) == 0.5
  {
    assert -0.0 == 0.0;
  }

  /** Elapsed months between day offsets `start` and `day` (negative before `start`). */
  function MonthsSince(day: int, start: int): real
  {
    (day - start) as real / DaysPerMonth
  }

  /** Elapsed months are non-decreasing in the date. */
  lemma MonthsSinceMonotone(d1: int, d2: int, start: int)
    requires d1 <= d2
    ensures MonthsSince(d1, start) <= MonthsSince(d2, start)
  {
    var a, b := (d1 - start) as real, (d2 - start) as real;
    assert a <= b;
    assert a / DaysPerMonth <= b / DaysPerMonth by {
      assert b / DaysPerMonth - a / DaysPerMonth == (b - a) / DaysPerMonth;
    }
  }

  datatype Phase = Delay | Acceleration | Plateau

  /**
   * The phase a point `m` months after the start falls in. The acceleration
   * phase can only be reached when the acceleration window is positive, so
   * the steepness 8 / accelMonths is never a division by zero.
   */
  function PhaseOf(m: real, delayMonths: real, accelMonths: real): (p: Phase)
    ensures p == Acceleration ==> accelMonths > 0.0 && delayMonths <= m
    ensures p == Plateau ==> delayMonths <= m && delayMonths + accelMonths <= m
  {
    if m < delayMonths then Delay
    else if m < delayMonths + accelMonths then Acceleration
    else Plateau
  }

  /**
   * The logistic's argument `t` months into an acceleration window of
   * `accelMonths`: steepness 8 / accelMonths, centred halfway through the window.
   */
  function RampArg(t: real, accelMonths: real): real
    requires accelMonths > 0.0
  {
    var k := Steepness / accelMonths;
    var midpoint := accelMonths / 2.0;
    k * (t - midpoint)
  }

  /** The logistic's argument grows with the months elapsed in the window. */
  lemma RampArgMonotone(t1: real, t2: real, accelMonths: real)
    requires accelMonths > 0.0 && t1 <= t2
    ensures RampArg(t1, accelMonths) <= RampArg(t2, accelMonths)
  {
    var k := Steepness / accelMonths;
    var midpoint := accelMonths / 2.0;
    MulMonotone(k, t1 - midpoint, t2 - midpoint);
  }

  /** The acceleration ramp: `maxEffect` times the logistic of the ramp argument. */
  function RampEffect(exp: real -> real, t: real, accelMonths: real, maxEffect: real): (e: real)
    requires IsExp(exp) && accelMonths > 0.0
    ensures maxEffect > 0.0 ==> 0.0 < e < maxEffect
    ensures maxEffect == 0.0 ==> e == 0.0
  {
    var s := Logistic(exp, RampArg(t, accelMonths));
    assert 0.0 < maxEffect ==> 0.0 < maxEffect * s < maxEffect * 1.0;
    maxEffect * s
  }


  /** The plateau, `monthsInPlateau` months after the ramp: `maxEffect` plus linear growth. */
  function PlateauEffect(maxEffect: real, plateauRate: real, monthsInPlateau: real): (e: real)
    ensures maxEffect >= 0.0 && plateauRate >= 0.0 && monthsInPlateau >= 0.0 ==> e >= maxEffect
    ensures monthsInPlateau == 0.0 ==> e == maxEffect
  {
    var plateauGrowth := maxEffect * plateauRate * monthsInPlateau;
    assert maxEffect >= 0.0 && plateauRate >= 0.0 && monthsInPlateau >= 0.0 ==> plateauGrowth >= 0.0;
    maxEffect + plateauGrowth
  }

  /** The effect `m` months after the start. */
  function EffectAt(exp: real -> real, m: real, delayMonths: real, accelMonths: real,
                    plateauRate: real, maxEffect: real): (e: real)
    requires IsExp(exp)
    ensures m < delayMonths ==> e == 0.0
    ensures maxEffect >= 0.0 && plateauRate >= 0.0 ==> e >= 0.0
    ensures PhaseOf(m, delayMonths, accelMonths) == Acceleration && maxEffect > 0.0 ==> 0.0 < e < maxEffect
    ensures PhaseOf(m, delayMonths, accelMonths) == Plateau && maxEffect >= 0.0 && plateauRate >= 0.0
            ==> e >= maxEffect
  {
    match PhaseOf(m, delayMonths, accelMonths)
    case Delay => 0.0
    case Acceleration => RampEffect(exp, m - delayMonths, accelMonths, maxEffect)
    case Plateau => PlateauEffect(maxEffect, plateauRate, m - (delayMonths + accelMonths))
  }

  /** The ramp is non-decreasing in the elapsed months for a non-negative maximum effect. */
  lemma RampNonDecreasing(exp: real -> real, t1: real, t2: real, accelMonths: real, maxEffect: real)
    requires IsExp(exp) && accelMonths > 0.0
    requires maxEffect >= 0.0 && t1 <= t2
    ensures RampEffect(exp, t1, accelMonths, maxEffect) <= RampEffect(exp, t2, accelMonths, maxEffect)
  {
    var z1, z2 := RampArg(t1, accelMonths), RampArg(t2, accelMonths);
    RampArgMonotone(t1, t2, accelMonths);
    LogisticMonotone(exp, z1, z2);
    MulMonotone(maxEffect, Logistic(exp, z1), Logistic(exp, z2));
  }



  /** The plateau is non-decreasing in the elapsed months for a non-negative maximum and rate. */
  lemma PlateauNonDecreasing(x1: real, x2: real, plateauRate: real, maxEffect: real)
    requires maxEffect >= 0.0 && plateauRate >= 0.0 && x1 <= x2
    ensures PlateauEffect(maxEffect, plateauRate, x1) <= PlateauEffect(maxEffect, plateauRate, x2)
  {
    var rate := maxEffect * plateauRate;
    assert 0.0 <= rate;
    MulMonotone(rate, x1, x2);
    assert PlateauEffect(maxEffect, plateauRate, x1) == maxEffect + rate * x1;
    assert PlateauEffect(maxEffect, plateauRate, x2) == maxEffect + rate * x2;
  }


  /**
   * With a non-negative maximum effect and plateau rate, the effect never
   * decreases as time passes: zero in the delay, strictly below the maximum
   * and increasing during acceleration, at least the maximum and growing on
   * the plateau.
   */
  lemma EffectNonDecreasing(exp: real -> real, m1: real, m2: real, delayMonths: real,
                            accelMonths: real, plateauRate: real, maxEffect: real)
    requires IsExp(exp)
    requires maxEffect >= 0.0 && plateauRate >= 0.0
    requires m1 <= m2
    ensures EffectAt(exp, m1, delayMonths, accelMonths, plateauRate, maxEffect)
         <= EffectAt(exp, m2, delayMonths, accelMonths, plateauRate, maxEffect)
  {
    var p1, p2 := PhaseOf(m1, delayMonths, accelMonths), PhaseOf(m2, delayMonths, accelMonths);
    if p1 == Acceleration && p2 == Acceleration {
      RampNonDecreasing(exp, m1 - delayMonths, m2 - delayMonths, accelMonths, maxEffect);
    } else if p1 == Plateau && p2 == Plateau {
      PlateauNonDecreasing(m1 - (delayMonths + accelMonths), m2 - (delayMonths + accelMonths), plateauRate, maxEffect);
    }
  }

  /**
   * The effect is linear in the maximum effect: the curve for `maxEffect` is
   * `maxEffect` times the curve for a maximum effect of 1.
   */
  lemma EffectScalesWithMaxEffect(exp: real -> real, m: real, delayMonths: real, accelMonths: real,
                                  plateauRate: real, maxEffect: real)
    requires IsExp(exp)
    ensures EffectAt(exp, m, delayMonths, accelMonths, plateauRate, maxEffect)
         == maxEffect * EffectAt(exp, m, delayMonths, accelMonths, plateauRate, 1.0)
  {
    match PhaseOf(m, delayMonths, accelMonths)
    case Delay =>
    case Acceleration =>
      assert RampEffect(exp, m - delayMonths, accelMonths, maxEffect)
          == maxEffect * RampEffect(exp, m - delayMonths, accelMonths, 1.0);
    case Plateau =>
      var x := m - (delayMonths + accelMonths);
      assert maxEffect + maxEffect * plateauRate * x == maxEffect * (1.0 + 1.0 * plateauRate * x);
  }

  /** The effect at the centre of the acceleration window is half the maximum effect. */
  lemma EffectAtMidpoint(exp: real -> real, delayMonths: real, accelMonths: real,
                         plateauRate: real, maxEffect: real)
    requires IsExp(exp)
    requires accelMonths > 0.0
    ensures EffectAt(exp, delayMonths + accelMonths / 2.0, delayMonths, accelMonths, plateauRate, maxEffect)
         == maxEffect / 2.0
  {
    var m := delayMonths + accelMonths / 2.0;
    assert PhaseOf(m, delayMonths, accelMonths) == Acceleration;
    assert (Steepness / accelMonths) * (m - delayMonths - accelMonths / 2.0) == 0.0;
    LogisticAtZero(exp);
  }

  /**
   * At the start date the effect is exactly zero when there is a delay;
   * without delay it is the logistic at -4 times the maximum effect, a small
   * value that is neither zero nor the maximum.
   */
  lemma EffectAtStart(exp: real -> real, delayMonths: real, accelMonths: real,
                      plateauRate: real, maxEffect: real)
    requires IsExp(exp)
    requires delayMonths >= 0.0 && accelMonths > 0.0
    ensures delayMonths > 0.0 ==> EffectAt(exp, 0.0, delayMonths, accelMonths, plateauRate, maxEffect) == 0.0
    ensures delayMonths == 0.0 ==>
      EffectAt(exp, 0.0, delayMonths, accelMonths, plateauRate, maxEffect) == maxEffect * Logistic(exp, -4.0)
  {
    if delayMonths == 0.0 {
      assert PhaseOf(0.0, delayMonths, accelMonths) == Acceleration;
      assert (Steepness / accelMonths) * (0.0 - delayMonths - accelMonths / 2.0) == -4.0 by {
        assert (Steepness / accelMonths) * accelMonths == Steepness;
      }
    }
  }

  /**
   * The plateau starts exactly at the maximum effect: at the end of the
   * acceleration window the effect is `maxEffect`, with no plateau growth yet.
   */
  lemma EffectAtAccelerationEnd(exp: real -> real, delayMonths: real, accelMonths: real,
                                plateauRate: real, maxEffect: real)
    requires IsExp(exp)
    requires accelMonths >= 0.0
    ensures EffectAt(exp, delayMonths + accelMonths, delayMonths, accelMonths, plateauRate, maxEffect)
         == maxEffect
  {
    assert delayMonths + accelMonths - (delayMonths + accelMonths) == 0.0;
  }

  /** The ramp branch of the curve loop computes the effect of its date. */
  lemma RampStep(exp: real -> real, months: real, delayMonths: real, accelMonths: real,
                 plateauRate: real, maxEffect: real, t: real, k: real, midpoint: real, sigmoid: real)
    requires IsExp(exp)
    requires delayMonths <= months < delayMonths + accelMonths
    requires t == months - delayMonths && k == Steepness / accelMonths && midpoint == accelMonths / 2.0
    requires sigmoid == 1.0 / (1.0 + exp(-k * (t - midpoint)))
    ensures maxEffect * sigmoid == EffectAt(exp, months, delayMonths, accelMonths, plateauRate, maxEffect)
  {
    assert PhaseOf(months, delayMonths, accelMonths) == Acceleration;
    assert -k * (t - midpoint) == -(k * (t - midpoint));
  }

  /** The plateau branch of the curve loop computes the effect of its date. */
  lemma PlateauStep(exp: real -> real, months: real, delayMonths: real, accelMonths: real,
                    plateauRate: real, maxEffect: real, monthsInPlateau: real, plateauGrowth: real)
    requires IsExp(exp)
    requires delayMonths <= months && delayMonths + accelMonths <= months
    requires monthsInPlateau == months - (delayMonths + accelMonths)
    requires plateauGrowth == maxEffect * plateauRate * monthsInPlateau
    ensures maxEffect + plateauGrowth == EffectAt(exp, months, delayMonths, accelMonths, plateauRate, maxEffect)
  {
    assert PhaseOf(months, delayMonths, accelMonths) == Plateau;
  }

  /** The effect curve over a timeline: one value per date, index for index. */
  function EffectCurve(exp: real -> real, dates: seq<int>, start: int, delayMonths: real,
                       accelMonths: real, plateauRate: real, maxEffect: real): seq<real>
    requires IsExp(exp)
  {
    seq(|dates|, i requires 0 <= i < |dates| =>
      EffectAt(exp, MonthsSince(dates[i], start), delayMonths, accelMonths, plateauRate, maxEffect))
  }

  /**
   * The dates handed to the curve: a datetime index, whose difference with
   * the start is a vector of durations with a `days` attribute, or a datetime
   * column of a frame, whose difference with the start is a column of
   * durations that exposes its days only through the `dt` accessor.
   */
  datatype Dates = DateIndex(days: seq<int>) | DateColumn(days: seq<int>)

  /** Reading `days` from a column of durations raises an attribute error. */
  datatype CurveError = NoDaysAttribute

  /**
   * The curve over the dates as they are handed in: the elapsed days are read
   * with `.days`, which only a datetime index has, so a datetime column fails
   * before any effect is computed.
   */
  function EffectCurveOn(exp: real -> real, dates: Dates, start: int, delayMonths: real,
                         accelMonths: real, plateauRate: real, maxEffect: real): (r: Result<seq<real>, CurveError>)
    requires IsExp(exp)
    ensures r.Success? <==> dates.DateIndex?
    ensures r.Failure? ==> r.error == NoDaysAttribute
    ensures r.Success? ==> |r.value| == |dates.days|
    ensures r.Success? ==> forall i :: 0 <= i < |r.value| ==>
      r.value[i] == EffectAt(exp, MonthsSince(dates.days[i], start), delayMonths, accelMonths, plateauRate, maxEffect)
  {
    match dates
    case DateIndex(days) => Success(EffectCurve(exp, days, start, delayMonths, accelMonths, plateauRate, maxEffect))
    case DateColumn(_) => Failure(NoDaysAttribute)
  }

  /**
   * Fills a zero-initialised buffer date by date with the effect of the
   * phase that date falls in.
   */
  method CalculateEffectCurve(exp: real -> real, dates: seq<int>, start: int, delayMonths: real,
                              accelMonths: real, plateauRate: real, maxEffect: real)
    returns (effect: seq<real>)
    requires IsExp(exp)
    ensures effect == EffectCurve(exp, dates, start, delayMonths, accelMonths, plateauRate, maxEffect)
  {
    ghost var curve := EffectCurve(exp, dates, start, delayMonths, accelMonths, plateauRate, maxEffect);
    var buffer := new real[|dates|](_ => 0.0);
    for i := 0 to |dates|
      invariant forall j :: 0 <= j < i ==> buffer[j] == curve[j]
    {
      var months := MonthsSince(dates[i], start);
      var value: real;
      if months < delayMonths {
        value := 0.0;
      } else if months < delayMonths + accelMonths {
        var t := months - delayMonths;
        var k := Steepness / accelMonths;
        var midpoint := accelMonths / 2.0;
        var sigmoid := 1.0 / (1.0 + exp(-k * (t - midpoint)));
        value := maxEffect * sigmoid;
        RampStep(exp, months, delayMonths, accelMonths, plateauRate, maxEffect, t, k, midpoint, sigmoid);
      } else {
        var monthsInPlateau := months - (delayMonths + accelMonths);
        var plateauGrowth := maxEffect * plateauRate * monthsInPlateau;
        value := maxEffect + plateauGrowth;
        PlateauStep(exp, months, delayMonths, accelMonths, plateauRate, maxEffect, monthsInPlateau, plateauGrowth);
      }
      assert value == curve[i];
      buffer[i] := value;
    }
    effect := buffer[..];
  }

  /**
   * Over a timeline in date order, the effect curve of a non-negative
   * scenario is non-decreasing.
   */
  lemma CurveNonDecreasing(exp: real -> real, dates: seq<int>, start: int, delayMonths: real,
                           accelMonths: real, plateauRate: real, maxEffect: real, i: int, j: int)
    requires IsExp(exp)
    requires maxEffect >= 0.0 && plateauRate >= 0.0
    requires 0 <= i <= j < |dates| && dates[i] <= dates[j]
    ensures EffectCurve(exp, dates, start, delayMonths, accelMonths, plateauRate, maxEffect)[i]
         <= EffectCurve(exp, dates, start, delayMonths, accelMonths, plateauRate, maxEffect)[j]
  {
    MonthsSinceMonotone(dates[i], dates[j], start);
    EffectNonDecreasing(exp, MonthsSince(dates[i], start), MonthsSince(dates[j], start),
                        delayMonths, accelMonths, plateauRate, maxEffect);
  }
}

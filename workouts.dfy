/**
 * The training hierarchy of the workout-statistics calculator: one datatype
 * with a constructor per concrete training class (Running, SportsWalking,
 * Swimming), and the three measurements every training offers (distance in
 * kilometres, mean speed in km/h, calories burned).
 *
 * All numbers are exact reals; the source computes them in binary floating
 * point, whose rounding is not modelled.
 */
module Workouts {

  /** Metres in a kilometre (`Training.M_IN_KM`). */
  const M_IN_KM: real := 1000.0
  /** Stride length in metres of a running or walking step (`Training.LEN_STEP`). */
  const LEN_STEP: real := 0.65
  /** Distance in metres covered by one swimming stroke (`Swimming.LEN_STEP`). */
  const SWM_LEN_STEP: real := 1.38

  /** Calorie coefficients of sports walking (`SportsWalking.COEFF_CAL_WLK_*`). */
  const COEFF_CAL_WLK_1: real := 0.035
  const COEFF_CAL_WLK_3: real := 0.029
  const COEFF_CAL_WLK_4: real := 60.0

  /** Calorie coefficients of swimming (`Swimming.COEFF_CAL_SWM_*`). */
  const COEFF_CAL_SWM_1: real := 1.1
  const COEFF_CAL_SWM_2: real := 2.0

  /**
   * One recorded training. `action` is the number of steps or strokes,
   * `duration` is in hours, `weight` in kilograms, `height` in centimetres,
   * `lengthPool` in metres and `countPool` the number of pool lengths swum.
   * The fields are fixed when the training is built and never change.
   */
  datatype Workout =
    | Running(action: real, duration: real, weight: real)
    | Walking(action: real, duration: real, weight: real, height: real)
    | Swimming(action: real, duration: real, weight: real, lengthPool: real, countPool: real)

  /** The stride length the variant's class uses. */
  function StepLength(w: Workout): (r: real)
    ensures r > 0.0
    ensures r == (if w.Swimming? then SWM_LEN_STEP else LEN_STEP)
  {
    match w
    case Swimming(_, _, _, _, _) => SWM_LEN_STEP
    case _ => LEN_STEP
  }

  /** Distance in kilometres (`Training.get_distance`, inherited by every variant). */
  function Distance(w: Workout): (r: real)
    ensures r * M_IN_KM == w.action * StepLength(w)
    ensures w.action >= 0.0 ==> r >= 0.0
  {
    w.action * StepLength(w) / M_IN_KM
  }

  /**
   * Mean speed in km/h. Running and walking use the base formula, distance
   * over duration; swimming overrides it with the pool geometry. Every
   * formula divides by the duration, which the source never checks: a zero
   * duration raises ZeroDivisionError there.
   */
  function MeanSpeed(w: Workout): (r: real)
    requires w.duration != 0.0
    ensures !w.Swimming? ==> r * w.duration == Distance(w)
    ensures w.Swimming? ==> r * w.duration * M_IN_KM == w.lengthPool * w.countPool
  {
    match w
    case Swimming(_, duration, _, lengthPool, countPool) =>
      lengthPool * countPool / M_IN_KM / duration
    case _ => Distance(w) / w.duration
  }

  /**
   * What the calorie formulas divide by must be non-zero: the duration, and
   * for walking the height.
   */
  predicate CaloriesDefined(w: Workout) {
    w.duration != 0.0 && (w.Walking? ==> w.height != 0.0)
  }

  /** The intended domain: positive duration, and positive height for walking. */
  predicate Physical(w: Workout) {
    w.duration > 0.0 && (w.Walking? ==> w.height > 0.0)
  }

  /**
   * Python's floor division `a // h` on floats: the quotient rounded towards
   * negative infinity. For a positive divisor it is the number of whole
   * multiples of `h` that fit in `a`.
   */
  function FloorDiv(a: real, h: real): (k: int)
    requires h != 0.0
    ensures k as real <= a / h < k as real + 1.0
    ensures h > 0.0 ==> k as real * h <= a < (k as real + 1.0) * h
    ensures h > 0.0 && a >= 0.0 ==> k >= 0
  {
    FloorDivBounds(a, h);
    (a / h).Floor
  }

  /**
   * The whole-number part of squared speed over height that the walking
   * formula keeps (`get_mean_speed() ** COEFF_CAL_WLK_2 // height`, the
   * exponent 2 written as a product).
   */
  function WalkingFloorTerm(w: Workout): (k: int)
    requires w.Walking? && CaloriesDefined(w)
    ensures k as real <= MeanSpeed(w) * MeanSpeed(w) / w.height < k as real + 1.0
  {
    FloorDiv(MeanSpeed(w) * MeanSpeed(w), w.height)
  }

  /**
   * Calories burned: each concrete variant supplies its own formula. The
   * base class has none, and the datatype has no base constructor.
   *
   * The contract gives each formula in a second form. Running: 18 for every
   * kilometre covered, less 20 for every hour trained, scaled by
   * weight * 60 / 1000, with no speed in it. Walking: a fixed weight rate
   * plus 0.029 kcal-units per kilogram and hour for every whole multiple of
   * the height that the squared speed reaches. Swimming: without division,
   * the pool distance plus the stroke-independent offset of 1.1 km/h,
   * doubled and scaled by weight.
   */
  function Calories(w: Workout): (r: real)
    requires CaloriesDefined(w)
    ensures w.Running? ==>
              r == (18.0 * Distance(w) - 20.0 * w.duration) * w.weight * 60.0 / M_IN_KM
    ensures w.Walking? ==>
              r == COEFF_CAL_WLK_1 * w.weight * w.duration * COEFF_CAL_WLK_4
                   + WalkingFloorTerm(w) as real * COEFF_CAL_WLK_3 * w.weight * w.duration * COEFF_CAL_WLK_4
    ensures w.Swimming? ==>
              r * w.duration * M_IN_KM
              == COEFF_CAL_SWM_2 * w.weight * (w.lengthPool * w.countPool + COEFF_CAL_SWM_1 * M_IN_KM * w.duration)
  {
    match w
    case Running(_, duration, weight) =>
      (18.0 * MeanSpeed(w) - 20.0) * weight / M_IN_KM * duration * 60.0
    case Walking(_, duration, weight, _) =>
      (COEFF_CAL_WLK_1 * weight + WalkingFloorTerm(w) as real * COEFF_CAL_WLK_3 * weight)
        * duration * COEFF_CAL_WLK_4
    case Swimming(_, _, weight, _, _) =>
      (MeanSpeed(w) + COEFF_CAL_SWM_1) * COEFF_CAL_SWM_2 * weight
  }

  // ---------------------------------------------------------------------
  // Properties of the formulas
  // ---------------------------------------------------------------------

  /** Base mean speed is distance per hour, and it is zero exactly when the distance is. */
  lemma BaseSpeedIsDistancePerHour(w: Workout)
    requires !w.Swimming? && w.duration > 0.0
    ensures MeanSpeed(w) == Distance(w) / w.duration
    ensures MeanSpeed(w) == 0.0 <==> w.action == 0.0
    ensures w.action >= 0.0 ==> MeanSpeed(w) >= 0.0
  {
  }

  /** The swimming speed reads only the pool fields: the stroke count never changes it. */
  lemma SwimmingSpeedIgnoresAction(w: Workout, action: real)
    requires w.Swimming? && w.duration != 0.0
    ensures var w' := Swimming(action, w.duration, w.weight, w.lengthPool, w.countPool);
            MeanSpeed(w') == MeanSpeed(w) && Calories(w') == Calories(w)
  {
  }

  /** For a positive body weight, running burns calories exactly above 10/9 km/h. */
  lemma RunningCaloriesSign(w: Workout)
    requires w.Running? && w.duration > 0.0 && w.weight > 0.0
    ensures Calories(w) > 0.0 <==> MeanSpeed(w) > 10.0 / 9.0
    ensures Calories(w) == 0.0 <==> MeanSpeed(w) == 10.0 / 9.0
  {
    var f := w.weight / M_IN_KM * w.duration * 60.0;
    var c := 18.0 * MeanSpeed(w) - 20.0;
    assert f > 0.0;
    assert Calories(w) == c * f;
    if c > 0.0 {
      assert c * f > 0.0;
    } else if c < 0.0 {
      assert c * f < 0.0;
    }
  }

  /** Floor division by a positive divisor keeps the largest whole multiple not above the dividend. */
  lemma FloorDivBounds(a: real, h: real)
    requires h != 0.0
    ensures (a / h).Floor as real <= a / h < (a / h).Floor as real + 1.0
    ensures h > 0.0 ==> (a / h).Floor as real * h <= a
    ensures h > 0.0 ==> a < ((a / h).Floor as real + 1.0) * h
    ensures h > 0.0 && a >= 0.0 ==> (a / h).Floor >= 0
  {
    if h > 0.0 {
      var x := a / h;
      var k := x.Floor as real;
      assert k <= x < k + 1.0;
      assert x * h == a;
      var d := x - k;
      assert 0.0 <= d < 1.0;
      assert d * h < 1.0 * h;
      assert d * h == a - k * h;
      assert (k + 1.0) * h == k * h + h;
      assert a - k * h < h;
      assert a < k * h + h;
    }
  }

  /** The floor term is the squared speed floor-divided by the height, stated for callers whose hypotheses are nonlinear. */
  lemma WalkingFloorTermIsFloorDiv(w: Workout)
    requires w.Walking? && CaloriesDefined(w)
    ensures WalkingFloorTerm(w) == FloorDiv(MeanSpeed(w) * MeanSpeed(w), w.height)
  {
  }

  /** A square is never negative, so the walking floor term is never negative either. */
  lemma SquareNonNegative(v: real)
    ensures v * v >= 0.0
  {
    if v < 0.0 {
      assert (-v) * (-v) > 0.0;
    }
  }

  /** A non-negative dividend below a positive divisor holds it zero whole times. */
  lemma FloorDivBelowDivisor(a: real, h: real)
    requires h > 0.0 && 0.0 <= a < h
    ensures FloorDiv(a, h) == 0
  {
    var k := FloorDiv(a, h);
    assert k as real * h < 1.0 * h;
    assert (1.0 - k as real) * h > 0.0;
  }

  /** The floor term is the largest whole multiple of the height not above the squared speed. */
  lemma WalkingFloorTermBounds(w: Workout)
    requires w.Walking? && Physical(w)
    ensures WalkingFloorTerm(w) >= 0
    ensures WalkingFloorTerm(w) as real * w.height <= MeanSpeed(w) * MeanSpeed(w)
    ensures MeanSpeed(w) * MeanSpeed(w) < (WalkingFloorTerm(w) as real + 1.0) * w.height
  {
    SquareNonNegative(MeanSpeed(w));
  }

  /** Below one height's worth of squared speed only the fixed weight rate remains. */
  lemma WalkingSlowIsWeightRate(w: Workout)
    requires w.Walking? && Physical(w)
    requires MeanSpeed(w) * MeanSpeed(w) < w.height
    ensures WalkingFloorTerm(w) == 0
    ensures Calories(w) == COEFF_CAL_WLK_1 * w.weight * w.duration * COEFF_CAL_WLK_4
  {
    WalkingFloorTermIsFloorDiv(w);
    SquareNonNegative(MeanSpeed(w));
    FloorDivBelowDivisor(MeanSpeed(w) * MeanSpeed(w), w.height);
  }

  /** For a non-negative weight, walking never burns less than the fixed weight rate. */
  lemma WalkingCaloriesAtLeastWeightRate(w: Workout)
    requires w.Walking? && Physical(w) && w.weight >= 0.0
    ensures Calories(w) >= COEFF_CAL_WLK_1 * w.weight * w.duration * COEFF_CAL_WLK_4
  {
    WalkingFloorTermBounds(w);
    var k := WalkingFloorTerm(w) as real;
    var c := COEFF_CAL_WLK_3 * w.weight * w.duration * COEFF_CAL_WLK_4;
    assert c >= 0.0;
    assert k * c >= 0.0;
    assert k * COEFF_CAL_WLK_3 * w.weight * w.duration * COEFF_CAL_WLK_4 == k * c;
  }

  /**
   * For a non-negative weight and pool distance, swimming never burns less
   * than the stroke-independent offset alone, 1.1 * 2 * weight.
   */
  lemma SwimmingCaloriesAtLeastOffsetRate(w: Workout)
    requires w.Swimming? && w.duration > 0.0
    ensures w.weight >= 0.0 && w.lengthPool * w.countPool >= 0.0 ==>
              Calories(w) >= COEFF_CAL_SWM_1 * COEFF_CAL_SWM_2 * w.weight
  {
  }
}

/**
 * The workout classes of homework.py: the base class Training and its
 * three subclasses, as one closed datatype. Every getter is a pure function
 * of the fields, which the source assigns once in the constructor.
 * Quantities are exact reals; Python's float rounding is not modelled.
 */
module Workouts {

  import opened RealArith

  // Class-level constants (Training, Running, SportsWalking, Swimming).
  const LenStep: real := 0.65
  const SwimmingLenStep: real := 1.38
  const MetersInKm: real := 1000.0
  const MinutesInHour: real := 60.0
  const RunCoeff1: real := 18.0
  const RunCoeff2: real := 20.0
  const WalkCoeff1: real := 0.035
  const WalkCoeff2: real := 0.029
  const SwimCoeff1: real := 1.1
  const SwimCoeff2: real := 2.0

  /**
   * One constructed workout. The fields of every constructor come in the
   * order of the Python constructor's parameters.
   */
  datatype Training =
    | Running(action: real, duration: real, weight: real)
    | SportsWalking(action: real, duration: real, weight: real, height: real)
    | Swimming(action: real, duration: real, weight: real, lengthPool: real, countPool: real)

  /** The class name that the source reads through `__class__.__name__`. */
  function TypeName(t: Training): (name: string)
    ensures name == "Running" <==> t.Running?
    ensures name == "SportsWalking" <==> t.SportsWalking?
    ensures name == "Swimming" <==> t.Swimming?
  {
    match t
    case Running(_, _, _) => "Running"
    case SportsWalking(_, _, _, _) => "SportsWalking"
    case Swimming(_, _, _, _, _) => "Swimming"
  }

  /** LEN_STEP as seen from an instance: Swimming overrides the class attribute. */
  function StepLength(t: Training): (step: real)
    ensures step > 0.0
    ensures step == SwimmingLenStep <==> t.Swimming?
    ensures !t.Swimming? ==> step == LenStep
  {
    if t.Swimming? then SwimmingLenStep else LenStep
  }

  /** Training.get_distance, in kilometres; no subclass overrides it. */
  function Distance(t: Training): real
  {
    t.action * StepLength(t) / MetersInKm
  }

  /**
   * The distance, in kilometres, that the mean speed is computed from:
   * the step-based distance, except for Swimming, which uses the pool.
   */
  function SpeedBasis(t: Training): real
  {
    if t.Swimming? then t.lengthPool * t.countPool / MetersInKm else Distance(t)
  }

  /**
   * get_mean_speed: Training's version for Running and SportsWalking,
   * Swimming's override for Swimming. Python raises ZeroDivisionError on a
   * zero duration; the model excludes it.
   */
  function MeanSpeed(t: Training): real
    requires t.duration != 0.0
  {
    match t
    case Swimming(_, duration, _, lengthPool, countPool) =>
      var distanceMeters := lengthPool * countPool;
      var distanceKm := distanceMeters / MetersInKm;
      distanceKm / duration
    case _ =>
      Distance(t) / t.duration
  }

  /**
   * Python's `x // y` on numbers: the whole number just at or below x / y,
   * as a number.
   */
  function FloorDiv(x: real, y: real): (q: real)
    requires y != 0.0
    ensures q == q.Floor as real
    ensures q <= x / y < q + 1.0
  {
    (x / y).Floor as real
  }

  /** What get_spent_calories divides by: duration, and height for walking. */
  predicate CanComputeCalories(t: Training)
  {
    t.duration != 0.0 && (t.SportsWalking? ==> t.height != 0.0)
  }

  /**
   * get_spent_calories of the three subclasses. The base class raises
   * NotImplementedError; it has no constructor here, so that case cannot
   * arise.
   */
  function SpentCalories(t: Training): real
    requires CanComputeCalories(t)
  {
    match t
    case Running(_, duration, weight) =>
      var pace := (RunCoeff1 * MeanSpeed(t) - RunCoeff2) * weight;
      var paceInKm := pace / MetersInKm;
      var paceInMin := duration * MinutesInHour;
      paceInKm * paceInMin
    case SportsWalking(_, duration, weight, height) =>
      var speed := MeanSpeed(t);
      var pace := WalkCoeff1 * weight + FloorDiv(speed * speed, height) * WalkCoeff2 * weight;
      var paceInMin := duration * MinutesInHour;
      pace * paceInMin
    case Swimming(_, _, weight, _, _) =>
      (MeanSpeed(t) + SwimCoeff1) * SwimCoeff2 * weight
  }

  /** The distance gives back the action count: km * 1000 / LEN_STEP == action. */
  lemma DistanceRecoversAction(t: Training)
    ensures Distance(t) * MetersInKm == t.action * StepLength(t)
    ensures Distance(t) * MetersInKm / StepLength(t) == t.action
  {
  }

  /** Mean speed times duration is the distance the speed is based on. */
  lemma MeanSpeedTimesDuration(t: Training)
    requires t.duration != 0.0
    ensures MeanSpeed(t) * t.duration == SpeedBasis(t)
    ensures !t.Swimming? ==> MeanSpeed(t) * t.duration == Distance(t)
  {
  }

  /**
   * Running: the speed cancels against the duration, so the calories are
   * weight * (1.08 * distance - 1.2 * duration).
   */
  lemma RunningCaloriesClosedForm(t: Training)
    requires t.Running? && t.duration != 0.0
    ensures SpentCalories(t)
            == t.weight * MinutesInHour / MetersInKm * (RunCoeff1 * Distance(t) - RunCoeff2 * t.duration)
  {
  }

  /** Swimming calories in terms of the constructor arguments alone. */
  lemma SwimmingCaloriesClosedForm(t: Training)
    requires t.Swimming? && t.duration != 0.0
    ensures SpentCalories(t)
            == SwimCoeff2 * t.weight * SwimCoeff1
               + SwimCoeff2 * t.weight * t.lengthPool * t.countPool / (MetersInKm * t.duration)
  {
  }

  /**
   * The SportsWalking formula with the quotient term q left open:
   * (0.035 * weight + q * 0.029 * weight) * (duration * 60).
   */
  function WalkingCaloriesFor(weight: real, duration: real, q: real): real
  {
    (WalkCoeff1 * weight + q * (WalkCoeff2 * weight)) * (duration * MinutesInHour)
  }

  /** What one whole unit of the quotient term adds: 0.029 * weight * duration * 60. */
  function WalkingQuotientUnit(weight: real, duration: real): real
  {
    WalkCoeff2 * weight * (duration * MinutesInHour)
  }

  /** The walking formula is affine in the quotient term. */
  lemma WalkingCaloriesAffine(weight: real, duration: real, q: real)
    ensures WalkingCaloriesFor(weight, duration, q)
            == WalkingCaloriesFor(weight, duration, 0.0) + q * WalkingQuotientUnit(weight, duration)
  {
  }

  /**
   * Reference for SportsWalking: the same formula with real division in
   * place of `//`.
   */
  function WalkingCaloriesRealDivision(t: Training): real
    requires t.SportsWalking? && t.duration != 0.0 && t.height != 0.0
  {
    WalkingCaloriesFor(t.weight, t.duration, MeanSpeed(t) * MeanSpeed(t) / t.height)
  }

  /** SportsWalking calories are the formula at q = speed ** 2 // height. */
  lemma WalkingCaloriesShape(t: Training)
    requires t.SportsWalking? && t.duration != 0.0 && t.height != 0.0
    ensures SpentCalories(t) == WalkingCaloriesFor(t.weight, t.duration, FloorDiv(MeanSpeed(t) * MeanSpeed(t), t.height))
  {
  }

  /** Clearing the floor term: below one whole quotient it contributes nothing. */
  lemma WalkingFloorTermVanishes(t: Training)
    requires t.SportsWalking? && t.duration != 0.0 && t.height != 0.0
    requires 0.0 <= MeanSpeed(t) * MeanSpeed(t) < t.height
    ensures SpentCalories(t) == WalkCoeff1 * t.weight * t.duration * MinutesInHour
  {
    FloorDivOfProperFraction(MeanSpeed(t) * MeanSpeed(t), t.height);
    WalkingCaloriesShape(t);
    WalkingCaloriesAtZero(t.weight, t.duration);
  }

  /** The walking formula with no quotient term. */
  lemma WalkingCaloriesAtZero(weight: real, duration: real)
    ensures WalkingCaloriesFor(weight, duration, 0.0) == WalkCoeff1 * weight * duration * MinutesInHour
  {
  }

  /** The part of speed ** 2 / height that `//` drops. */
  function WalkingDroppedFraction(t: Training): real
    requires t.SportsWalking? && t.duration != 0.0 && t.height != 0.0
  {
    MeanSpeed(t) * MeanSpeed(t) / t.height - FloorDiv(MeanSpeed(t) * MeanSpeed(t), t.height)
  }

  /**
   * Floor division costs exactly the dropped fraction of one quotient
   * unit, and that fraction lies in [0, 1).
   */
  lemma WalkingFloorDeficit(t: Training)
    requires t.SportsWalking? && t.duration != 0.0 && t.height != 0.0
    ensures 0.0 <= WalkingDroppedFraction(t) < 1.0
    ensures WalkingCaloriesRealDivision(t) - SpentCalories(t)
            == WalkingDroppedFraction(t) * WalkingQuotientUnit(t.weight, t.duration)
  {
    var s2 := MeanSpeed(t) * MeanSpeed(t);
    var q := FloorDiv(s2, t.height);
    assert q <= s2 / t.height < q + 1.0;
    WalkingCaloriesShape(t);
    WalkingCaloriesGap(t.weight, t.duration, s2 / t.height, q);
  }

  /** The walking formula at x exceeds it at q by (x - q) quotient units. */
  lemma WalkingCaloriesGap(weight: real, duration: real, x: real, q: real)
    ensures WalkingCaloriesFor(weight, duration, x) - WalkingCaloriesFor(weight, duration, q)
            == (x - q) * WalkingQuotientUnit(weight, duration)
  {
    WalkingCaloriesAffine(weight, duration, q);
    WalkingCaloriesAffine(weight, duration, x);
    AffineDifference(WalkingCaloriesFor(weight, duration, x), WalkingCaloriesFor(weight, duration, q),
                     WalkingCaloriesFor(weight, duration, 0.0), x, q, WalkingQuotientUnit(weight, duration));
  }

  /**
   * For a positive weight and duration the floor never adds calories, and
   * it removes less than one whole quotient unit compared with real division.
   */
  lemma WalkingCaloriesBelowRealDivision(t: Training)
    requires t.SportsWalking? && t.duration > 0.0 && t.height != 0.0 && t.weight > 0.0
    ensures WalkingCaloriesRealDivision(t) - WalkingQuotientUnit(t.weight, t.duration)
            < SpentCalories(t) <= WalkingCaloriesRealDivision(t)
  {
    WalkingFloorDeficit(t);
    MulPositive(WalkCoeff2 * t.weight, t.duration * MinutesInHour);
    FractionOf(WalkingDroppedFraction(t), WalkingQuotientUnit(t.weight, t.duration));
    WithinOneUnit(WalkingCaloriesRealDivision(t), SpentCalories(t),
                  WalkingDroppedFraction(t), WalkingQuotientUnit(t.weight, t.duration));
  }

  /** 0 <= x < h makes x // h zero. */
  lemma FloorDivOfProperFraction(x: real, h: real)
    requires 0.0 <= x < h
    ensures FloorDiv(x, h) == 0.0
  {
    assert (x / h) * h == x;
    assert 0.0 <= x / h < 1.0;
  }

  /**
   * Swimming's speed and calories come from pool geometry only: two
   * sessions that differ at most in the stroke count have the same speed
   * and calories, and only the displayed distance follows the strokes.
   */
  lemma SwimmingIgnoresAction(t: Training, u: Training)
    requires t.Swimming? && u.Swimming? && t.duration != 0.0
    requires u.duration == t.duration && u.weight == t.weight
    requires u.lengthPool == t.lengthPool && u.countPool == t.countPool
    ensures MeanSpeed(u) == MeanSpeed(t)
    ensures SpentCalories(u) == SpentCalories(t)
    ensures Distance(u) == u.action * SwimmingLenStep / MetersInKm
  {
  }
}

/** The calculation hierarchy of the fitness tracker: a base training and its
    three variants, each with its distance, mean speed and calorie formula.
    The class hierarchy becomes one tagged datatype; a method a variant
    overrides becomes a case of a `match`. */
module Trainings {
  import opened Outcomes

  // Constants of the base training.
  const StepLength: real := 0.65      // metres covered by one step
  const MetersInKm: real := 1000.0
  const MinutesInHour: real := 60.0

  // Running.
  const RunSpeedMultiplier: real := 18.0
  const RunSpeedShift: real := 1.79

  // Sports walking.
  const CmInM: real := 100.0
  const WalkWeightCoeff: real := 0.035
  const WalkSpeedHeightCoeff: real := 0.029
  const KmhInMs: real := 0.278

  // Swimming.
  const StrokeLength: real := 1.38    // metres covered by one stroke
  const SwimSpeedShift: real := 1.1
  const SwimWeightMultiplier: real := 2.0

  /** One recorded workout. `action` counts steps or strokes, `duration` is in
      hours, `weight` in kilograms, `height` in centimetres, `lengthPool` in
      metres and `countPool` in laps. The fields are set once, at construction. */
  datatype Training =
    | BaseTraining(action: real, duration: real, weight: real)
    | Running(action: real, duration: real, weight: real)
    | SportsWalking(action: real, duration: real, weight: real, height: real)
    | Swimming(action: real, duration: real, weight: real, lengthPool: real, countPool: real)

  /** The base training with the same three common fields. */
  function AsBase(t: Training): Training
  {
    BaseTraining(t.action, t.duration, t.weight)
  }

  /** No formula divides by zero: every variant divides by the duration, and
      walking also by the height. */
  predicate Computable(t: Training)
  {
    t.duration != 0.0 && (t.SportsWalking? ==> t.height != 0.0)
  }

  /** The length of one step; swimming overrides it with the stroke length. */
  function LenStep(t: Training): real
  {
    if t.Swimming? then StrokeLength else StepLength
  }

  /** Distance in kilometres: the steps (or strokes) times their length, in
      metres, converted to kilometres. */
  function Distance(t: Training): (km: real)
    ensures t.action >= 0.0 ==> km >= 0.0
  {
    t.action * LenStep(t) / MetersInKm
  }

  /** Mean speed in km/h: kilometres per hour of training. For the base
      training and the variants that inherit it, the kilometres are the
      distance; swimming overrides them with the pool length times the number
      of laps, converted to kilometres. */
  function MeanSpeed(t: Training): (kmh: real)
    requires t.duration != 0.0
    ensures !t.Swimming? ==> kmh * t.duration == Distance(t)
    ensures t.Swimming? ==> kmh * t.duration * MetersInKm == t.lengthPool * t.countPool
  {
    match t
    case Swimming(_, duration, _, lengthPool, countPool) =>
      lengthPool * countPool / MetersInKm / duration
    case _ => Distance(t) / t.duration
  }

  function Square(x: real): real { x * x }

  /** Calories spent. The base training has no formula and fails before it
      divides by anything, so it needs no non-zero duration. */
  function SpentCalories(t: Training): (r: Result<real>)
    requires t.BaseTraining? || Computable(t)
    ensures r.Err? <==> t.BaseTraining?
    ensures r.Err? ==> r.error == NotImplemented
  {
    match t
    case BaseTraining(_, _, _) => Err(NotImplemented)
    case Running(_, duration, weight) =>
      Ok((RunSpeedMultiplier * MeanSpeed(t) + RunSpeedShift)
         * weight / MetersInKm * (duration * MinutesInHour))
    case SportsWalking(_, duration, weight, height) =>
      Ok((WalkWeightCoeff * weight
          + (Square(MeanSpeed(t) * KmhInMs) / (height / CmInM))
            * WalkSpeedHeightCoeff * weight)
         * (duration * MinutesInHour))
    case Swimming(_, duration, weight, _, _) =>
      Ok((MeanSpeed(t) + SwimSpeedShift) * SwimWeightMultiplier * weight * duration)
  }

  // ---------------------------------------------------------------------
  // Distance and speed

  /** Every variant but swimming uses the base step length, and so the base
      distance, unchanged; the second clause is the same fact in metres. */
  lemma InheritedDistance(t: Training)
    requires !t.Swimming?
    ensures Distance(t) == Distance(AsBase(t))
    ensures Distance(t) * MetersInKm == t.action * StepLength
  {
  }

  /** Swimming covers the stroke length per action instead of the step
      length: its distance relates to the base distance by their ratio. */
  lemma SwimmingDistanceOverride(t: Training)
    requires t.Swimming?
    ensures Distance(t) * MetersInKm == t.action * StrokeLength
    ensures Distance(t) * StepLength == Distance(AsBase(t)) * StrokeLength
  {
  }

  /** Distance grows with the number of steps or strokes. */
  lemma DistanceMonotone(t: Training, action: real)
    requires t.action <= action
    ensures Distance(t) <= Distance(t.(action := action))
  {
  }

  /** Outside swimming, mean speed is distance per hour: speed times duration
      gives the distance back, whatever the sign of the duration. */
  lemma MeanSpeedIsDistancePerHour(t: Training)
    requires !t.Swimming? && t.duration != 0.0
    ensures MeanSpeed(t) == MeanSpeed(AsBase(t))
    ensures MeanSpeed(t) * t.duration == Distance(t)
    ensures t.action >= 0.0 && t.duration > 0.0 ==> MeanSpeed(t) >= 0.0
  {
  }

  /** Swimming speed is the pool distance per hour; it does not depend on the
      number of strokes. */
  lemma SwimmingSpeedFromPool(t: Training, action: real)
    requires t.Swimming? && t.duration != 0.0
    ensures MeanSpeed(t) * t.duration * MetersInKm == t.lengthPool * t.countPool
    ensures MeanSpeed(Swimming(action, t.duration, t.weight, t.lengthPool, t.countPool)) == MeanSpeed(t)
  {
  }

  /** The two swimming formulas are independent: mean speed times duration is
      not the reported distance in general. */
  lemma SwimmingSpeedIgnoresDistance()
    ensures var t := Swimming(720.0, 1.0, 80.0, 25.0, 40.0);
            MeanSpeed(t) * t.duration != Distance(t)
  {
  }

  // ---------------------------------------------------------------------
  // Calories

  /** Running calories in closed form: with the speed written out, the duration
      cancels from the speed term, leaving a rate per kilogram per minute made
      of a part proportional to the distance in metres and a part proportional
      to the time. */
  lemma RunningCaloriesClosedForm(t: Training)
    requires t.Running? && t.duration != 0.0
    ensures SpentCalories(t)
         == Ok((RunSpeedMultiplier * t.action * StepLength / MetersInKm + RunSpeedShift * t.duration)
               * t.weight / MetersInKm * MinutesInHour)
  {
    var d := t.duration;
    var speed := MeanSpeed(t);
    MeanSpeedIsDistancePerHour(t);
    assert speed * d == t.action * StepLength / MetersInKm;
    assert SpentCalories(t).value
        == (RunSpeedMultiplier * speed + RunSpeedShift) * t.weight / MetersInKm * (d * MinutesInHour);
    calc {
      (RunSpeedMultiplier * speed + RunSpeedShift) * t.weight / MetersInKm * (d * MinutesInHour);
      (RunSpeedMultiplier * (speed * d) + RunSpeedShift * d) * t.weight / MetersInKm * MinutesInHour;
      (RunSpeedMultiplier * t.action * StepLength / MetersInKm + RunSpeedShift * d)
        * t.weight / MetersInKm * MinutesInHour;
    }
    assert SpentCalories(t).value == (RunSpeedMultiplier * t.action * StepLength / MetersInKm + RunSpeedShift * t.duration)
               * t.weight / MetersInKm * MinutesInHour;
  }

  /** A run with no negative counts, weight or time spends no negative calories. */
  lemma RunningCaloriesNonNegative(t: Training)
    requires t.Running? && t.action >= 0.0 && t.weight >= 0.0 && t.duration > 0.0
    ensures SpentCalories(t).Ok? && SpentCalories(t).value >= 0.0
  {
  }

  /** Walking spends no negative calories when weight is non-negative and the
      duration and height are positive, whatever the speed. */
  lemma WalkingCaloriesNonNegative(t: Training)
    requires t.SportsWalking? && t.weight >= 0.0 && t.duration > 0.0 && t.height > 0.0
    ensures SpentCalories(t).Ok? && SpentCalories(t).value >= 0.0
  {
  }

  /** Swimming calories in closed form: the pool distance in kilometres plus a
      part proportional to the time, per kilogram. */
  lemma SwimmingCaloriesClosedForm(t: Training)
    requires t.Swimming? && t.duration != 0.0
    ensures SpentCalories(t)
         == Ok((t.lengthPool * t.countPool / MetersInKm + SwimSpeedShift * t.duration)
               * SwimWeightMultiplier * t.weight)
  {
    var d := t.duration;
    var speed := MeanSpeed(t);
    SwimmingSpeedFromPool(t, t.action);
    assert SpentCalories(t).value == (speed + SwimSpeedShift) * SwimWeightMultiplier * t.weight * d;
    calc {
      (speed + SwimSpeedShift) * SwimWeightMultiplier * t.weight * d;
      (speed * d + SwimSpeedShift * d) * SwimWeightMultiplier * t.weight;
      (t.lengthPool * t.countPool / MetersInKm + SwimSpeedShift * d) * SwimWeightMultiplier * t.weight;
    }
    assert SpentCalories(t).value
        == (t.lengthPool * t.countPool / MetersInKm + SwimSpeedShift * t.duration) * SwimWeightMultiplier * t.weight;
  }

  /** A swim over a non-negative pool distance spends no negative calories. */
  lemma SwimmingCaloriesNonNegative(t: Training)
    requires t.Swimming? && t.lengthPool * t.countPool >= 0.0
    requires t.weight >= 0.0 && t.duration > 0.0
    ensures SpentCalories(t).Ok? && SpentCalories(t).value >= 0.0
  {
  }
}

/**
 * InfoMessage and show_training_info: the summary record of one workout.
 * Rendering the record as text is not part of this model.
 */
module InfoMessages {

  import opened Workouts

  /** The dataclass InfoMessage, field for field. */
  datatype InfoMessage = InfoMessage(
    trainingType: string,
    duration: real,
    distance: real,
    speed: real,
    calories: real)

  /**
   * Training.show_training_info. The getters run in the order distance,
   * speed, calories; none of them changes the workout, so the record is a
   * function of the workout alone.
   */
  function ShowTrainingInfo(t: Training): (m: InfoMessage)
    requires CanComputeCalories(t)
    ensures m.trainingType in {"Running", "SportsWalking", "Swimming"}
    ensures m.trainingType == "Swimming" <==> t.Swimming?
    ensures m.trainingType == "Running" <==> t.Running?
    ensures m.duration == t.duration
    ensures m.distance * MetersInKm == t.action * StepLength(t)
    ensures m.speed * m.duration == SpeedBasis(t)
    ensures m.calories == SpentCalories(t)
  {
    DistanceRecoversAction(t);
    MeanSpeedTimesDuration(t);
    InfoMessage(
      trainingType := TypeName(t),
      duration := t.duration,
      distance := Distance(t),
      speed := MeanSpeed(t),
      calories := SpentCalories(t))
  }
}

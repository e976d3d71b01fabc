/**
 * The three packages the module's demo runs, and the end-to-end link from
 * a package to the record shown for it.
 */
module Scenarios {

  import opened Wrappers
  import opened Workouts
  import opened Packages
  import opened InfoMessages

  /** The record of a package that read_package accepts, in terms of the package. */
  lemma ReportOfPackage(tag: string, data: seq<real>)
    requires ReadPackage(tag, data).Ok?
    requires CanComputeCalories(ReadPackage(tag, data).value)
    ensures |data| >= 3
    ensures ShowTrainingInfo(ReadPackage(tag, data).value).trainingType
            == (if tag == "SWM" then "Swimming" else if tag == "RUN" then "Running" else "SportsWalking")
    ensures ShowTrainingInfo(ReadPackage(tag, data).value).duration == data[1]
    ensures ShowTrainingInfo(ReadPackage(tag, data).value).distance
            == data[0] * (if tag == "SWM" then SwimmingLenStep else LenStep) / MetersInKm
  {
    var t := ReadPackage(tag, data).value;
    assert Arguments(t) == data;
    assert t.action == data[0] && t.duration == data[1];
  }

  /** ('SWM', [720, 1, 80, 25, 40]): 0.9936 km, since Swimming's LEN_STEP is 1.38. */
  lemma SwimmingPackage()
    ensures ReadPackage("SWM", [720.0, 1.0, 80.0, 25.0, 40.0]) == Ok(Swimming(720.0, 1.0, 80.0, 25.0, 40.0))
    ensures ShowTrainingInfo(Swimming(720.0, 1.0, 80.0, 25.0, 40.0))
            == InfoMessage("Swimming", 1.0, 0.9936, 1.0, 336.0)
  {
    ReadPackageRoundTrip(Swimming(720.0, 1.0, 80.0, 25.0, 40.0));
  }

  /** ('RUN', [15000, 1, 75]): 9.75 km at 9.75 km/h, 699.75 kcal. */
  lemma RunningPackage()
    ensures ReadPackage("RUN", [15000.0, 1.0, 75.0]) == Ok(Running(15000.0, 1.0, 75.0))
    ensures ShowTrainingInfo(Running(15000.0, 1.0, 75.0))
            == InfoMessage("Running", 1.0, 9.75, 9.75, 699.75)
  {
    ReadPackageRoundTrip(Running(15000.0, 1.0, 75.0));
  }

  /** ('WLK', [9000, 1, 75, 180]): 34.2225 // 180 is 0, so 157.5 kcal. */
  lemma WalkingPackage()
    ensures ReadPackage("WLK", [9000.0, 1.0, 75.0, 180.0]) == Ok(SportsWalking(9000.0, 1.0, 75.0, 180.0))
    ensures ShowTrainingInfo(SportsWalking(9000.0, 1.0, 75.0, 180.0))
            == InfoMessage("SportsWalking", 1.0, 5.85, 5.85, 157.5)
  {
    var t := SportsWalking(9000.0, 1.0, 75.0, 180.0);
    ReadPackageRoundTrip(t);
    assert MeanSpeed(t) == 5.85;
    WalkingFloorTermVanishes(t);
  }

  /**
   * A walk whose speed ** 2 / height is not whole: 380.25 / 180 floors to 2,
   * and the result differs from the one real division would give.
   */
  lemma WalkingFloorIsUsed()
    ensures SpentCalories(SportsWalking(30000.0, 1.0, 75.0, 180.0)) == 418.5
    ensures WalkingCaloriesRealDivision(SportsWalking(30000.0, 1.0, 75.0, 180.0)) != 418.5
  {
    var t := SportsWalking(30000.0, 1.0, 75.0, 180.0);
    assert MeanSpeed(t) == 19.5;
    assert FloorDiv(380.25, 180.0) == 2.0;
    WalkingCaloriesShape(t);
  }
}

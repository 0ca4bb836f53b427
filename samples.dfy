/**
 * The three sample packages the driver of homework.py reads, each taken
 * through the dispatcher and summarised, with the exact values the
 * formulas give them.
 */
module Samples {
  import opened Results
  import opened Workouts
  import opened Info
  import opened Dispatch

  /** ('SWM', [720, 1, 80, 25, 40]): a 1 km/h swim burning 336 kcal. */
  lemma SwimmingSample()
    ensures var r := ReadPackage("SWM", [720.0, 1.0, 80.0, 25.0, 40.0]);
            r.Ok? && CaloriesDefined(r.value)
            && ShowTrainingInfo(r.value) == InfoMessage("Swimming", 1.0, 0.9936, 1.0, 336.0)
  {
    ReadSwimming(720.0, 1.0, 80.0, 25.0, 40.0);
  }

  /**
   * ('RUN', [15000, 1, 75]): 9.75 km at 9.75 km/h burning
   * (18 * 9.75 - 20) * 75 / 1000 * 1 * 60 = 699.75 kcal.
   */
  lemma RunningSample()
    ensures var r := ReadPackage("RUN", [15000.0, 1.0, 75.0]);
            r.Ok? && CaloriesDefined(r.value)
            && ShowTrainingInfo(r.value) == InfoMessage("Running", 1.0, 9.75, 9.75, 699.75)
  {
    ReadRunning(15000.0, 1.0, 75.0);
  }

  /**
   * ('WLK', [9000, 1, 75, 180]): 5.85 km at 5.85 km/h; the squared speed
   * 34.2225 is below the height 180, so the floor term is 0 and only the
   * weight rate 0.035 * 75 * 60 = 157.5 kcal remains.
   */
  lemma WalkingSample()
    ensures var r := ReadPackage("WLK", [9000.0, 1.0, 75.0, 180.0]);
            r.Ok? && CaloriesDefined(r.value)
            && ShowTrainingInfo(r.value) == InfoMessage("SportsWalking", 1.0, 5.85, 5.85, 157.5)
  {
    var w := Walking(9000.0, 1.0, 75.0, 180.0);
    ReadWalking(9000.0, 1.0, 75.0, 180.0);
    assert MeanSpeed(w) == 5.85;
    assert WalkingFloorTerm(w) == 0;
  }
}

/**
 * The summary record of one training (`InfoMessage`) and the operation
 * that fills it from a training (`Training.show_training_info`).
 */
module Info {
  import opened Workouts

  /** The computed summary of one training, a plain record with no back-reference to it. */
  datatype InfoMessage = InfoMessage(
    trainingType: string,
    duration: real,
    distance: real,
    speed: real,
    calories: real)

  /** The name of the training's class, which the summary uses as its label. */
  function ClassName(w: Workout): (name: string)
    ensures name == "Running" <==> w.Running?
    ensures name == "SportsWalking" <==> w.Walking?
    ensures name == "Swimming" <==> w.Swimming?
  {
    match w
    case Running(_, _, _) => "Running"
    case Walking(_, _, _, _) => "SportsWalking"
    case Swimming(_, _, _, _, _) => "Swimming"
  }

  /**
   * `show_training_info`: the label, the stored duration and the three
   * computed measurements of the training, in that order.
   */
  function ShowTrainingInfo(w: Workout): (m: InfoMessage)
    requires CaloriesDefined(w)
    ensures m.trainingType == ClassName(w)
    ensures m.duration == w.duration
    ensures m.distance == Distance(w)
    ensures m.speed == MeanSpeed(w)
    ensures m.calories == Calories(w)
  {
    InfoMessage(ClassName(w), w.duration, Distance(w), MeanSpeed(w), Calories(w))
  }

  /**
   * For running and walking the summary is self-consistent: the reported
   * speed times the reported duration is the reported distance. Swimming
   * reports a pool-based speed instead, which agrees with the stroke-based
   * distance only when both measure the same length.
   */
  lemma SummaryIsConsistent(w: Workout)
    requires CaloriesDefined(w)
    ensures var m := ShowTrainingInfo(w);
            !w.Swimming? ==> m.speed * m.duration == m.distance
    ensures var m := ShowTrainingInfo(w);
            w.Swimming? ==> (m.speed * m.duration == m.distance
                             <==> w.lengthPool * w.countPool == w.action * SWM_LEN_STEP)
  {
  }

  /** The label alone tells which variant produced a summary. */
  lemma LabelIdentifiesVariant(w: Workout, w': Workout)
    requires CaloriesDefined(w) && CaloriesDefined(w')
    ensures ShowTrainingInfo(w).trainingType == ShowTrainingInfo(w').trainingType
            <==> (w.Running? && w'.Running?) || (w.Walking? && w'.Walking?) || (w.Swimming? && w'.Swimming?)
  {
  }
}

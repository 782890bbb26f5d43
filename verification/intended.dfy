/** The two places where the calculator departs from what its own constants
    name, each shown on a concrete input against the code as written, and
    the corrected definitions with the properties they were meant to have:

    - the running formula multiplies the speed term by the constant named
      as a shift (the mean calories burnt while running), instead of adding it;
    - the swimming report measures its distance with the walking stride,
      while a stroke length constant sits commented out beside the other
      swimming constants. The doc comment of `distance` says it also
      takes strokes, so this second case is only what the disabled
      constant suggests. */
module Intended {
  import opened FTracker
  import opened FTrackerProperties

  /** Length of one swimming stroke, in metres; disabled in the code. */
  const SwimmingLenStep: real := 1.38

  /** Running calories with the shift added to the speed term, as its name
      and the constant's comment say. */
  function RunningSpentCaloriesIntended(weight: real, duration: real, speed: real): (calories: real)
    ensures weight == 0.0 || duration == 0.0 ==> calories == 0.0
    ensures weight > 0.0 && duration > 0.0 && speed >= 0.0 ==>
              calories >= RunningSpeedShift * weight / MInKm * duration * MinInH > 0.0
  {
    (RunningSpeedMultiplier * speed + RunningSpeedShift) * weight / MInKm * duration * MinInH
  }

  /** Kilometres covered by `action` strokes of `SwimmingLenStep` metres
      each, as the disabled stroke constant suggests. */
  function SwimmingDistance(action: int): (km: real)
    ensures km * MInKm == action as real * SwimmingLenStep
    ensures action >= 0 ==> km >= Distance(action)
    ensures action > 0 ==> km > Distance(action)
  {
    action as real * SwimmingLenStep / MInKm
  }

  /** The tag switch with both corrections in place. */
  function ShowTrainingInfoIntended(action: int, trainingType: string, duration: real, weight: real,
                                    height: real, lengthPool: int, countPool: int): (info: TrainingInfo)
    requires trainingType == WalkingTag ==> height != 0.0
    ensures info.UnknownType? <==> !IsKnownTag(trainingType)
    ensures info.UnknownType? ==> info.message == UnknownTypeMessage
    ensures info.Summary? ==> info.trainingType == trainingType && info.duration == duration
    ensures info.Summary? && duration == 0.0 ==> info.speed == 0.0 && info.calories == 0.0
  {
    if trainingType == RunningTag then
      var distance := Distance(action);
      var speed := MeanSpeed(distance, duration);
      var calories := RunningSpentCaloriesIntended(weight, duration, speed);
      Summary(trainingType, duration, distance, speed, calories)
    else if trainingType == WalkingTag then
      var distance := Distance(action);
      var speed := MeanSpeed(distance, duration);
      var calories := WalkingSpentCalories(duration, weight, height, speed);
      Summary(trainingType, duration, distance, speed, calories)
    else if trainingType == SwimmingTag then
      var distance := SwimmingDistance(action);
      var speed := SwimmingMeanSpeed(lengthPool, countPool, duration);
      var calories := SwimmingSpentCalories(duration, weight, speed);
      Summary(trainingType, duration, distance, speed, calories)
    else
      UnknownType(UnknownTypeMessage)
  }

  /** The corrected report agrees with the code as written everywhere except
      in the running calories and the swimming distance. */
  lemma IntendedDiffersOnlyAtFindings(action: int, trainingType: string, duration: real, weight: real,
                                      height: real, lengthPool: int, countPool: int)
    requires trainingType == WalkingTag ==> height != 0.0
    ensures var asWritten := ShowTrainingInfo(action, trainingType, duration, weight, height, lengthPool, countPool);
            var intended := ShowTrainingInfoIntended(action, trainingType, duration, weight, height, lengthPool, countPool);
            && (trainingType != RunningTag && trainingType != SwimmingTag ==> intended == asWritten)
            && (trainingType == RunningTag ==>
                  intended == asWritten.(calories := RunningSpentCaloriesIntended(weight, duration, asWritten.speed)))
            && (trainingType == SwimmingTag ==>
                  intended == asWritten.(distance := SwimmingDistance(action)))
  {
  }

  /** As written, a runner at standstill burns nothing, and at 70 kg for
      one hour at 10 km/h the multiplied shift gives 1353.24 where the
      additive one gives 763.518. */
  lemma RunningShiftIsMultiplied()
    ensures RunningSpentCalories(70.0, 1.0, 0.0) == 0.0
    ensures RunningSpentCaloriesIntended(70.0, 1.0, 0.0) == 7.518
    ensures RunningSpentCalories(70.0, 1.0, 10.0) == 1353.24
    ensures RunningSpentCaloriesIntended(70.0, 1.0, 10.0) == 763.518
  {
  }

  /** As written, once the duration is non-zero the running calories of a
      report do not depend on how long the run took: the same steps in half
      an hour or in two hours burn the same. A zero duration gives 0. */
  lemma AsWrittenRunningIgnoresDuration(action: int, t1: real, t2: real, weight: real,
                                         height: real, lengthPool: int, countPool: int)
    requires t1 != 0.0 && t2 != 0.0
    ensures ShowTrainingInfo(action, RunningTag, t1, weight, height, lengthPool, countPool).calories
         == ShowTrainingInfo(action, RunningTag, t2, weight, height, lengthPool, countPool).calories
  {
    RunningReportClosedForm(action, t1, weight, height, lengthPool, countPool);
    RunningReportClosedForm(action, t2, weight, height, lengthPool, countPool);
  }

  /** Corrected, covering the same steps over a longer time burns strictly
      more: the shift term accrues with the duration. */
  lemma IntendedRunningGrowsWithDuration(action: int, t1: real, t2: real, weight: real,
                                         height: real, lengthPool: int, countPool: int)
    requires 0.0 < t1 < t2 && weight > 0.0
    ensures ShowTrainingInfoIntended(action, RunningTag, t1, weight, height, lengthPool, countPool).calories
          < ShowTrainingInfoIntended(action, RunningTag, t2, weight, height, lengthPool, countPool).calories
  {
  }

  /** As written, a thousand strokes are reported as 0.65 km, the distance
      of a thousand walking steps, not the 1.38 km the disabled stroke
      length would give. */
  lemma SwimmingDistanceUsesStepLength()
    ensures ShowTrainingInfo(1000, SwimmingTag, 1.0, 70.0, 175.0, 25, 40).distance == 0.65
    ensures ShowTrainingInfoIntended(1000, SwimmingTag, 1.0, 70.0, 175.0, 25, 40).distance == 1.38
  {
  }
}

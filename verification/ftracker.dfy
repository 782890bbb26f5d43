/** A model of the fitness-tracker calculator: the unit conversions, the
    mean-speed helpers, the three calorie formulas and the dispatch on the
    training tag. Go's float64 is idealised as `real` and Go's int as `int`;
    the formatted report text is replaced by the record of the values it
    would print. Every formula is modelled exactly as the code writes it;
    the module Intended holds the corrected versions of the two places where
    the code departs from what its constants' names promise. */
module FTracker {

  // Conversion constants.
  const LenStep: real := 0.65     // mean stride of one step, in metres
  const MInKm: real := 1000.0     // metres in a kilometre
  const MinInH: real := 60.0      // minutes in an hour
  const KmhInMSec: real := 0.278  // km/h to m/s factor
  const CmInM: real := 100.0      // centimetres in a metre

  // Running calorie constants.
  const RunningSpeedMultiplier: real := 18.0
  const RunningSpeedShift: real := 1.79

  // Walking calorie constants.
  const WalkingWeightMultiplier: real := 0.035
  const WalkingSpeedHeightMultiplier: real := 0.029

  // Swimming calorie constants.
  const SwimmingSpeedShift: real := 1.1
  const SwimmingWeightMultiplier: real := 2.0

  // The three training tags the dispatch recognises, and its sentinel answer.
  const RunningTag: string := "Бег"
  const WalkingTag: string := "Ходьба"
  const SwimmingTag: string := "Плавание"
  const UnknownTypeMessage: string := "неизвестный тип тренировки"

  /** Kilometres covered by `action` steps of `LenStep` metres each. */
  function Distance(action: int): (km: real)
    ensures km * MInKm == action as real * LenStep
    ensures action >= 0 ==> km >= 0.0
    ensures km == 0.0 <==> action == 0
  {
    action as real * LenStep / MInKm
  }

  /** Mean speed in km/h; a zero duration gives speed 0 instead of a fault. */
  function MeanSpeed(distance: real, duration: real): (speed: real)
    ensures duration == 0.0 ==> speed == 0.0
    ensures duration != 0.0 ==> speed * duration == distance
    ensures distance >= 0.0 && duration > 0.0 ==> speed >= 0.0
  {
    if duration == 0.0 then 0.0 else distance / duration
  }

  /** Mean swimming speed in km/h from the pool length in metres and the
      number of lengths swum; a zero duration gives speed 0. */
  function SwimmingMeanSpeed(lengthPool: int, countPool: int, duration: real): (speed: real)
    ensures duration == 0.0 ==> speed == 0.0
    ensures duration != 0.0 ==>
              speed * duration * MInKm == lengthPool as real * countPool as real
    ensures lengthPool >= 0 && countPool >= 0 && duration > 0.0 ==> speed >= 0.0
  {
    if duration == 0.0 then 0.0
    else lengthPool as real * countPool as real / MInKm / duration
  }

  /** Calories spent running, as written: the speed term is MULTIPLIED by
      `RunningSpeedShift` rather than shifted by it (see Intended). */
  function RunningSpentCalories(weight: real, duration: real, speed: real): (calories: real)
    ensures speed == 0.0 || weight == 0.0 || duration == 0.0 ==> calories == 0.0
    ensures weight >= 0.0 && duration >= 0.0 && speed >= 0.0 ==> calories >= 0.0
  {
    (RunningSpeedMultiplier * speed * RunningSpeedShift) * weight / MInKm * duration * MinInH
  }

  /** Calories spent walking: a weight term plus a speed-squared-over-height
      term, the speed taken in m/s and the height in metres. The source
      squares with a power function; `x * x` is the same value. */
  function WalkingSpentCalories(duration: real, weight: real, height: real, speed: real): (calories: real)
    requires height != 0.0
    ensures speed == 0.0 ==> calories == WalkingWeightMultiplier * weight * duration * MinInH
    ensures weight == 0.0 || duration == 0.0 ==> calories == 0.0
    ensures weight >= 0.0 && duration >= 0.0 && height > 0.0 ==> calories >= 0.0
  {
    var speedInMSec := speed * KmhInMSec;
    var heightInM := height / 100.0;
    ((WalkingWeightMultiplier * weight)
      + ((speedInMSec * speedInMSec / heightInM) * WalkingSpeedHeightMultiplier * weight))
      * duration * MinInH
  }

  /** Calories spent swimming: linear in the shifted speed, weight and duration. */
  function SwimmingSpentCalories(duration: real, weight: real, speed: real): (calories: real)
    ensures weight == 0.0 || duration == 0.0 ==> calories == 0.0
    ensures weight >= 0.0 && duration >= 0.0 && speed + SwimmingSpeedShift >= 0.0 ==> calories >= 0.0
  {
    (speed + SwimmingSpeedShift) * SwimmingWeightMultiplier * weight * duration
  }

  /** What the report shows: the five values the formatted summary prints,
      or the fixed sentinel for an unrecognised tag. */
  datatype TrainingInfo =
    | Summary(trainingType: string, duration: real, distance: real, speed: real, calories: real)
    | UnknownType(message: string)

  predicate IsKnownTag(tag: string) {
    tag == RunningTag || tag == WalkingTag || tag == SwimmingTag
  }

  /** The tag switch: each known tag runs its distance -> speed -> calories
      pipeline; any other tag yields the sentinel message. */
  function ShowTrainingInfo(action: int, trainingType: string, duration: real, weight: real,
                            height: real, lengthPool: int, countPool: int): (info: TrainingInfo)
    requires trainingType == WalkingTag ==> height != 0.0
    ensures info.UnknownType? <==> !IsKnownTag(trainingType)
    ensures info.UnknownType? ==> info.message == UnknownTypeMessage
    ensures info.Summary? ==>
              && info.trainingType == trainingType
              && info.duration == duration
              && info.distance * MInKm == action as real * LenStep
    ensures info.Summary? && duration == 0.0 ==> info.speed == 0.0 && info.calories == 0.0
  {
    if trainingType == RunningTag then
      var distance := Distance(action);
      var speed := MeanSpeed(distance, duration);
      var calories := RunningSpentCalories(weight, duration, speed);
      Summary(trainingType, duration, distance, speed, calories)
    else if trainingType == WalkingTag then
      var distance := Distance(action);
      var speed := MeanSpeed(distance, duration);
      var calories := WalkingSpentCalories(duration, weight, height, speed);
      Summary(trainingType, duration, distance, speed, calories)
    else if trainingType == SwimmingTag then
      var distance := Distance(action);
      var speed := SwimmingMeanSpeed(lengthPool, countPool, duration);
      var calories := SwimmingSpentCalories(duration, weight, speed);
      Summary(trainingType, duration, distance, speed, calories)
    else
      UnknownType(UnknownTypeMessage)
  }
}

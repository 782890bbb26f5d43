/** Facts about the calculator that relate several calls: monotonicity of
    distance and calories, linearity of the swimming formula, which inputs
    each branch of the report depends on, and closed forms of the report. */
module FTrackerProperties {
  import opened FTracker

  /** More steps never give a shorter distance. */
  lemma DistanceMonotone(a: int, b: int)
    requires a <= b
    ensures Distance(a) <= Distance(b)
    ensures Distance(b) - Distance(a) == Distance(b - a)
  {
  }

  /** Running calories grow with speed for a non-negative weight and duration. */
  lemma RunningCaloriesMonotoneInSpeed(weight: real, duration: real, s1: real, s2: real)
    requires weight >= 0.0 && duration >= 0.0 && s1 <= s2
    ensures RunningSpentCalories(weight, duration, s1) <= RunningSpentCalories(weight, duration, s2)
  {
  }

  /** Walking calories grow with (non-negative) speed: the speed enters squared. */
  lemma WalkingCaloriesMonotoneInSpeed(duration: real, weight: real, height: real, s1: real, s2: real)
    requires duration >= 0.0 && weight >= 0.0 && height > 0.0 && 0.0 <= s1 <= s2
    ensures WalkingSpentCalories(duration, weight, height, s1) <= WalkingSpentCalories(duration, weight, height, s2)
  {
  }

  /** Walking calories depend on the sign of the speed only through its square. */
  lemma WalkingCaloriesEvenInSpeed(duration: real, weight: real, height: real, speed: real)
    requires height != 0.0
    ensures WalkingSpentCalories(duration, weight, height, -speed) == WalkingSpentCalories(duration, weight, height, speed)
  {
  }

  /** The swimming formula is additive and homogeneous in the duration and in the weight. */
  lemma SwimmingCaloriesLinear(k: real, t1: real, t2: real, weight: real, speed: real)
    ensures SwimmingSpentCalories(t1 + t2, weight, speed)
         == SwimmingSpentCalories(t1, weight, speed) + SwimmingSpentCalories(t2, weight, speed)
    ensures SwimmingSpentCalories(k * t1, weight, speed) == k * SwimmingSpentCalories(t1, weight, speed)
    ensures SwimmingSpentCalories(t1, k * weight, speed) == k * SwimmingSpentCalories(t1, weight, speed)
  {
  }

  /** An unrecognised tag gives the same sentinel whatever the numbers are. */
  lemma UnknownTagIgnoresArguments(trainingType: string,
                                   a1: int, t1: real, w1: real, h1: real, l1: int, c1: int,
                                   a2: int, t2: real, w2: real, h2: real, l2: int, c2: int)
    requires !IsKnownTag(trainingType)
    ensures ShowTrainingInfo(a1, trainingType, t1, w1, h1, l1, c1)
         == ShowTrainingInfo(a2, trainingType, t2, w2, h2, l2, c2)
         == UnknownType(UnknownTypeMessage)
  {
  }

  /** Running and walking derive the speed from the step count: the reported
      speed times the duration gives back the reported distance. */
  lemma StepTrainingsSpeedFromDistance(action: int, trainingType: string, duration: real, weight: real,
                                       height: real, lengthPool: int, countPool: int)
    requires trainingType == RunningTag || trainingType == WalkingTag
    requires trainingType == WalkingTag ==> height != 0.0
    ensures var info := ShowTrainingInfo(action, trainingType, duration, weight, height, lengthPool, countPool);
            && info.Summary?
            && info.speed == MeanSpeed(Distance(action), duration)
            && (duration != 0.0 ==> info.speed * duration == info.distance)
  {
  }

  /** Swimming derives the speed from the pool alone: the step count changes
      the reported distance but neither the speed nor the calories. */
  lemma SwimmingIgnoresActionForSpeed(a1: int, a2: int, duration: real, weight: real,
                                      height: real, lengthPool: int, countPool: int)
    ensures var i1 := ShowTrainingInfo(a1, SwimmingTag, duration, weight, height, lengthPool, countPool);
            var i2 := ShowTrainingInfo(a2, SwimmingTag, duration, weight, height, lengthPool, countPool);
            && i1.speed == i2.speed == SwimmingMeanSpeed(lengthPool, countPool, duration)
            && i1.calories == i2.calories
            && (i1.distance == i2.distance <==> a1 == a2)
  {
  }

  /** Swimming calories in the report, for a non-zero duration: the pool
      distance in km plus a term proportional to the time, both scaled by
      twice the weight. */
  lemma SwimmingReportClosedForm(action: int, duration: real, weight: real,
                                 height: real, lengthPool: int, countPool: int)
    requires duration != 0.0
    ensures ShowTrainingInfo(action, SwimmingTag, duration, weight, height, lengthPool, countPool).calories
         == SwimmingWeightMultiplier * weight
            * (lengthPool as real * countPool as real / MInKm + SwimmingSpeedShift * duration)
  {
  }

  /** Walking calories in the report, for a non-zero duration and height: a
      term linear in the time plus one proportional to distance squared over
      time. */
  lemma WalkingReportClosedForm(action: int, duration: real, weight: real,
                                height: real, lengthPool: int, countPool: int)
    requires duration != 0.0 && height != 0.0
    ensures ShowTrainingInfo(action, WalkingTag, duration, weight, height, lengthPool, countPool).calories
         == WalkingWeightMultiplier * weight * duration * MinInH
            + KmhInMSec * KmhInMSec * CmInM * WalkingSpeedHeightMultiplier * MinInH
              * weight * Distance(action) * Distance(action) / (height * duration)
  {
  }

  /** In the same time, more steps walked means at least as many calories. */
  lemma WalkingReportMonotoneInSteps(a1: int, a2: int, duration: real, weight: real,
                                     height: real, lengthPool: int, countPool: int)
    requires 0 <= a1 <= a2 && duration >= 0.0 && height > 0.0 && weight >= 0.0
    ensures ShowTrainingInfo(a1, WalkingTag, duration, weight, height, lengthPool, countPool).calories
         <= ShowTrainingInfo(a2, WalkingTag, duration, weight, height, lengthPool, countPool).calories
  {
    if duration == 0.0 {
      return;
    }
    var s1 := MeanSpeed(Distance(a1), duration);
    var s2 := MeanSpeed(Distance(a2), duration);
    DistanceMonotone(a1, a2);
    assert 0.0 <= s1 <= s2 by {
      assert Distance(a1) / duration <= Distance(a2) / duration;
    }
    WalkingCaloriesMonotoneInSpeed(duration, weight, height, s1, s2);
  }

  /** Running calories in the report, for a non-zero duration: because the
      formula multiplies speed by duration, only the distance and the weight
      remain, and the duration cancels out. */
  lemma RunningReportClosedForm(action: int, duration: real, weight: real,
                                height: real, lengthPool: int, countPool: int)
    requires duration != 0.0
    ensures ShowTrainingInfo(action, RunningTag, duration, weight, height, lengthPool, countPool).calories
         == RunningSpeedMultiplier * RunningSpeedShift * MinInH / MInKm * weight * Distance(action)
  {
  }

  /** For any duration, more steps run means at least as many calories. */
  lemma RunningReportMonotoneInSteps(a1: int, a2: int, duration: real, weight: real,
                                     height: real, lengthPool: int, countPool: int)
    requires a1 <= a2 && weight >= 0.0
    ensures ShowTrainingInfo(a1, RunningTag, duration, weight, height, lengthPool, countPool).calories
         <= ShowTrainingInfo(a2, RunningTag, duration, weight, height, lengthPool, countPool).calories
  {
    var c1 := ShowTrainingInfo(a1, RunningTag, duration, weight, height, lengthPool, countPool).calories;
    var c2 := ShowTrainingInfo(a2, RunningTag, duration, weight, height, lengthPool, countPool).calories;
    if duration != 0.0 {
      var k := RunningSpeedMultiplier * RunningSpeedShift * MinInH / MInKm * weight;
      RunningReportClosedForm(a1, duration, weight, height, lengthPool, countPool);
      RunningReportClosedForm(a2, duration, weight, height, lengthPool, countPool);
      assert c1 == k * Distance(a1) && c2 == k * Distance(a2);
      DistanceMonotone(a1, a2);
      assert k * Distance(a1) <= k * Distance(a2);
    }
  }
}

# ftracker in Dafny

A model of `ftracker`, a fitness-tracker calculator. It turns raw activity
counters into training statistics: distance, mean speed and calories burned.
It covers three training types, each picked by a Russian tag: running
("Бег"), walking ("Ходьба") and swimming ("Плавание").

- `ftracker.dfy` (module `FTracker`) holds the constants and the three
  distance/speed helpers. It also holds the three calorie formulas and the
  tag dispatch `ShowTrainingInfo`. All of them are written as the Go code
  writes them, apart from the two differences listed under Left out: the
  power function and the report string.
- `properties.dfy` (module `FTrackerProperties`) holds lemmas that relate
  several calls. They cover monotonicity, linearity and which inputs each
  branch depends on. They also give closed forms of the calories in the report.
- `intended.dfy` (module `Intended`) covers the two findings below. For each
  one it holds the corrected definitions with their proved properties, and a
  lemma that shows the code as written on a concrete input.

Go's `float64` is modelled as `real` and Go's `int` as `int`. The report
string is modelled as a datatype `TrainingInfo`. A known tag gives
`Summary(trainingType, duration, distance, speed, calories)`, the five values
the `fmt.Sprintf` template prints. Any other tag gives `UnknownType` carrying the
fixed sentinel "неизвестный тип тренировки".

The running formula multiplies the speed term by
`runningCaloriesMeanSpeedShift` (1.79): `(18 × speed × 1.79) × …`. The
constant's name and comment describe an additive shift, the mean calories
burned while running, and the swimming formula does add its own shift. The
model follows the code. The additive form is the corrected definition under
Findings.

## Model

| member | source | states |
|---|---|---|
| FTracker.Distance | ftracker/ftracker.go:41-43 | the distance in metres (km × 1000) equals the steps times the 0.65 m stride; it is non-negative for a non-negative count and zero exactly when the count is zero |
| FTracker.MeanSpeed | ftracker/ftracker.go:51-56 | a zero duration gives speed 0; otherwise speed × duration gives back the distance; non-negative for a non-negative distance and positive duration |
| FTracker.SwimmingMeanSpeed | ftracker/ftracker.go:65-70 | a zero duration gives speed 0; otherwise speed × duration × 1000 equals pool length × lengths swum; non-negative for non-negative pool counters and positive duration |
| FTracker.RunningSpentCalories | ftracker/ftracker.go:79-81 | zero when speed, weight or duration is zero; non-negative for non-negative inputs |
| FTracker.WalkingSpentCalories | ftracker/ftracker.go:91-95 | at speed 0 it reduces to 0.035 × weight × duration × 60; zero when weight or duration is zero; non-negative for non-negative weight and duration and positive height |
| FTracker.SwimmingSpentCalories | ftracker/ftracker.go:104-106 | zero when weight or duration is zero; non-negative when weight and duration are non-negative and speed + 1.1 is non-negative |
| FTracker.ShowTrainingInfo | ftracker/ftracker.go:115-136 | the result is the sentinel exactly when the tag is none of the three known tags; a summary echoes the tag and the duration and reports the step distance; a zero duration gives speed 0 and calories 0 in every branch |
| FTrackerProperties.DistanceMonotone | ftracker/ftracker.go:41-43 | more steps never give a shorter distance, and the difference of two distances is the distance of the difference |
| FTrackerProperties.RunningCaloriesMonotoneInSpeed | ftracker/ftracker.go:79-81 | for non-negative weight and duration, a higher speed never burns fewer calories |
| FTrackerProperties.WalkingCaloriesMonotoneInSpeed | ftracker/ftracker.go:91-95 | for non-negative weight and duration and positive height, a higher non-negative speed never burns fewer calories |
| FTrackerProperties.WalkingCaloriesEvenInSpeed | ftracker/ftracker.go:92-94 | the speed enters only squared, so negating it leaves the calories unchanged |
| FTrackerProperties.SwimmingCaloriesLinear | ftracker/ftracker.go:104-106 | the swimming calories are additive and homogeneous in the duration and homogeneous in the weight |
| FTrackerProperties.UnknownTagIgnoresArguments | ftracker/ftracker.go:133-134 | for an unknown tag, any two calls give the same sentinel, whatever the numeric arguments |
| FTrackerProperties.StepTrainingsSpeedFromDistance | ftracker/ftracker.go:118-127 | running and walking compute speed as the mean speed of the step distance; with a non-zero duration, speed × duration gives back the reported distance |
| FTrackerProperties.SwimmingIgnoresActionForSpeed | ftracker/ftracker.go:128-132 | the swimming speed comes from the pool counters alone, so two step counts give the same speed and calories; the reported distance differs exactly when the step counts differ |
| FTrackerProperties.SwimmingReportClosedForm | ftracker/ftracker.go:128-132 | for a non-zero duration the swimming calories are 2 × weight × (pool km + 1.1 × duration) |
| FTrackerProperties.WalkingReportClosedForm | ftracker/ftracker.go:123-127 | for non-zero duration and height the walking calories are a term linear in the duration plus one proportional to weight × distance² / (height × duration) |
| FTrackerProperties.WalkingReportMonotoneInSteps | ftracker/ftracker.go:123-127 | in the same non-negative duration, for positive height and non-negative weight, more (non-negative) steps walked never burn fewer calories |
| FTrackerProperties.RunningReportClosedForm | ftracker/ftracker.go:118-122 | for a non-zero duration the running calories are 18 × 1.79 × 60 / 1000 × weight × distance; the duration cancels out |
| FTrackerProperties.RunningReportMonotoneInSteps | ftracker/ftracker.go:118-122 | for any duration and a non-negative weight, more steps run never burn fewer calories |
| Intended.RunningSpentCaloriesIntended | ftracker/ftracker.go:18-21 | with the 1.79 shift added: zero when weight or duration is zero; for positive weight and duration and non-negative speed, at least the shift's share 1.79 × weight / 1000 × duration × 60, which is positive |
| Intended.SwimmingDistance | ftracker/ftracker.go:31 | the distance in metres equals the strokes times the 1.38 m stroke; for a positive stroke count it is longer than the step distance |
| Intended.ShowTrainingInfoIntended | ftracker/ftracker.go:115-136 | the corrected dispatch keeps the contract of the dispatch as written: sentinel exactly for unknown tags, tag and duration echoed, zero duration gives zero speed and calories |
| Intended.IntendedDiffersOnlyAtFindings | ftracker/ftracker.go:115-136 | the corrected report equals the one as written except for the running calories, which use the additive shift, and the swimming distance, which uses the stroke length |
| Intended.RunningShiftIsMultiplied | ftracker/ftracker.go:80 | as written, a runner at speed 0 burns 0 where the additive form gives 7.518; at 70 kg, 1 h and 10 km/h the code gives 1353.24 where the additive form gives 763.518 |
| Intended.AsWrittenRunningIgnoresDuration | ftracker/ftracker.go:118-122 | as written, the running calories for the same steps are equal for any two non-zero durations |
| Intended.IntendedRunningGrowsWithDuration | ftracker/ftracker.go:18-21 | corrected, the same steps over a strictly longer positive duration burn strictly more when the weight is positive |
| Intended.SwimmingDistanceUsesStepLength | ftracker/ftracker.go:129 | as written, 1000 strokes are reported as 0.65 km; corrected, as 1.38 km |

## Left out

- The `fmt.Sprintf` rendering is left out: the tag through `%s` and the four numbers through `%.2f`, which is decimal formatting and rounding. The report is the record of the five values it would print.
- IEEE-754 behaviour is left out: rounding, NaN, ±Inf and overflow. Arithmetic is exact over `real`, and `int` to `float64` conversion is treated as exact (Go rounds it beyond 2^53).
- `math.Pow(x, 2)` is modelled as `x * x`, since the exponent is the constant 2.
- FTracker.WalkingSpentCalories: requires a non-zero height. In Go a zero height divides by zero and yields ±Inf or NaN, and Dafny's `real` has no such values.
- FTracker.ShowTrainingInfo: for the walking tag it requires a non-zero height, for the same reason.
- Intended.ShowTrainingInfoIntended: for the walking tag it requires a non-zero height, for the same reason.
- There is no caller, CLI or I/O around the module, so nothing else is modelled.

## Findings

| source | as written | input that shows it | evidently intended | confidence | as-written member | corrected member |
|---|---|---|---|---|---|---|
| ftracker/ftracker.go:80 | `(18 * speed * 1.79) * weight / 1000 * duration * 60`: the constant named as a shift, described at line 20 as the mean calories burned while running, is a factor; the swimming shift is added at line 105 | weight 70, duration 1, speed 0 gives 0 calories (additive: 7.518); speed 10 gives 1353.24 (additive: 763.518); the calories of a report ignore the duration once it is non-zero (a zero duration gives 0) | `(18 * speed + 1.79) * weight / 1000 * duration * 60` | medium (not executed) | Intended.RunningShiftIsMultiplied | Intended.RunningSpentCaloriesIntended |
| ftracker/ftracker.go:129 | the swimming distance is `distance(action)`, using the 0.65 m step length, while the 1.38 m stroke length at line 31 is commented out; against this, the doc comment of `distance` at line 40 says its count may be strokes when swimming, so the 0.65 m stride may be deliberate | 1000 strokes are reported as 0.65 km | what the commented-out stroke constant suggests: 1000 strokes × 1.38 m = 1.38 km | low (not executed) | Intended.SwimmingDistanceUsesStepLength | Intended.SwimmingDistance |

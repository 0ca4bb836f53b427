# Workout statistics calculator, modelled in Dafny

The program computes the statistics of one workout from raw sensor values: the
distance in kilometres, the mean speed in km/h and the calories burned. It knows
three kinds of training, `Running`, `SportsWalking` and `Swimming`. They share the
base `Training` formulas but each has its own calorie formula, and swimming also
has its own speed formula, based on the pool. A dispatcher, `read_package`, turns
a three-letter code and a list of values into a training. `show_training_info`
copies the computed values into an `InfoMessage` record.

Every method of the source is one closed-form expression over fields that are set
once, in the constructor. The model is therefore pure: a datatype and functions,
with lemmas about them.

- `results.dfy`, module `Results`: the `Result` type used for the dispatcher's faults.
- `workouts.dfy`, module `Workouts`:
  - the `Workout` datatype, one constructor per training class;
  - the class constants (`M_IN_KM`, `LEN_STEP`, and the `COEFF_CAL_*` coefficients
    except the exponent `COEFF_CAL_WLK_2 = 2`, which is written as the product
    `MeanSpeed(w) * MeanSpeed(w)`);
  - `Distance`, `MeanSpeed`, `Calories` and Python's float floor division `FloorDiv`;
  - the lemmas about the formulas.
- `info.dfy`, module `Info`: the `InfoMessage` record, the class-name label and
  `ShowTrainingInfo`.
- `dispatch.dfy`, module `Dispatch`:
  - the code table and `ReadPackage` with its two faults, unknown code and wrong
    number of values;
  - `PackageOf`, which undoes `ReadPackage`, and the round-trip lemmas.
- `samples.dfy`, module `Samples`: the three sample packages of the program's
  driver, with their exact results.

Numbers are exact `real`s. `action` is a `real` as well, because the source's
`int` annotation is not enforced and every value of a package is passed
positionally from one list. Floor division (`//`) on floats is `(a / h).Floor`,
which rounds towards negative infinity, as Python's `//` does.

The calorie formulas are defined whenever what they divide by is non-zero
(`CaloriesDefined`): the duration, and for walking the height. A zero there is
the source's ZeroDivisionError. Lemmas that need a sign also require
`Physical`: a positive duration, and a positive height for walking.

Two details of the code are worth stating:

- By the formula at homework.py:65-66 the running sample `('RUN', [15000, 1, 75])`
  burns (18 · 9.75 − 20) · 75 / 1000 · 1 · 60 = 699.75 kcal.
- `Training.get_spent_calories` (homework.py:44-46) is `pass`: it returns `None`
  and raises nothing. The model has no base variant at all.

## Model

| member | source | states |
|---|---|---|
| Workouts.StepLength | homework.py:26-29 | a step is 0.65 m for running and walking, and the swimming override (line 90) makes a stroke 1.38 m |
| Workouts.Distance | homework.py:36-38 | the distance in km times 1000 is the number of actions times the step length; it is non-negative when action >= 0 |
| Workouts.Calories | homework.py:63-106 | the three `get_spent_calories` overrides, each in a second form: running equals (18 · distance − 20 · duration) · weight · 60 / 1000, with no speed; walking equals the weight rate 0.035 · weight · duration · 60 plus k · 0.029 · weight · duration · 60, k being the floor term; swimming calories · duration · 1000 equal 2 · weight · (pool length · pool count + 1.1 · 1000 · duration) |
| Workouts.MeanSpeed | homework.py:40-42 | defined for any non-zero duration; the base speed times the duration is the distance; the swimming speed times the duration times 1000 is pool length times pool count |
| Workouts.BaseSpeedIsDistancePerHour | homework.py:40-42 | running and walking speed is distance / duration; it is zero exactly when the action count is; it is non-negative for a non-negative count and positive duration |
| Workouts.SwimmingSpeedIgnoresAction | homework.py:100-102 | changing a swim's stroke count changes neither its mean speed nor its calories |
| Workouts.RunningCaloriesSign | homework.py:63-66 | for positive duration and weight, running calories are positive exactly when the speed exceeds 10/9 km/h, and zero exactly at 10/9 km/h |
| Workouts.FloorDivBounds | homework.py:83-84 | the floor of a / h lies within one of a / h; for h > 0, floor · h <= a < (floor + 1) · h, and the floor of a non-negative a is non-negative |
| Workouts.FloorDiv | homework.py:83-84 | Python's `//` on floats: the quotient rounded towards negative infinity; for a positive divisor, the largest count of whole divisors not above the dividend |
| Workouts.WalkingFloorTerm | homework.py:83-84 | `speed ** 2 // height`: the floor term k satisfies k <= speed² / height < k + 1 for any non-zero height |
| Workouts.FloorDivBelowDivisor | homework.py:83-84 | a non-negative dividend below a positive divisor floor-divides to 0 |
| Workouts.WalkingFloorTermBounds | homework.py:82-85 | the walking floor term k is non-negative and k · height <= speed² < (k + 1) · height |
| Workouts.WalkingSlowIsWeightRate | homework.py:82-85 | when speed² is below the height the floor term is 0 and walking calories are the weight rate alone |
| Workouts.WalkingCaloriesAtLeastWeightRate | homework.py:82-85 | for positive duration and height and non-negative weight, walking calories are never below the weight rate |
| Workouts.SwimmingCaloriesAtLeastOffsetRate | homework.py:104-106 | for positive duration and non-negative weight and pool distance, swimming calories are at least 1.1 · 2 · weight |
| Info.ClassName | homework.py:50 | the label is "Running", "SportsWalking" or "Swimming", and each label belongs to exactly one variant |
| Info.ShowTrainingInfo | homework.py:48-54 | the record holds, in order, the class name, the stored duration and the computed distance, mean speed and calories |
| Info.SummaryIsConsistent | homework.py:48-54 | for running and walking the reported speed times the reported duration is the reported distance; for swimming that holds exactly when pool length · pool count equals strokes · 1.38 |
| Info.LabelIdentifiesVariant | homework.py:50 | two summaries have the same label exactly when they come from the same variant |
| Dispatch.TableEntries | homework.py:111 | the table's keys are exactly SWM, RUN and WLK, naming Swimming, Running and SportsWalking |
| Dispatch.Arity | homework.py:60-95 | every constructor takes at least the three base values it hands to `Training.__init__` |
| Dispatch.ArityCountsFields | homework.py:60-98 | building a training from exactly its arity's worth of values and reading its fields back gives the same values: the arity (5, 3, 4) is the class's field count |
| Dispatch.Construct | homework.py:112 | every value goes to the constructor by position: action, duration and weight first, then height for walking, or pool length and pool count for swimming; the kind decides the variant |
| Dispatch.ReadPackage | homework.py:109-112 | a code outside SWM, RUN, WLK fails with an unknown-code fault; the result is a training exactly when the code is in the table and the number of values is that class's arity |
| Dispatch.ReadRunning | homework.py:57-61 | 'RUN' with three values builds Running from them in order |
| Dispatch.ReadWalking | homework.py:77-80 | 'WLK' with four values builds SportsWalking from them in order, the fourth being the height |
| Dispatch.ReadSwimming | homework.py:94-98 | 'SWM' with five values builds Swimming from them in order, the last two being pool length and pool count |
| Dispatch.WrongArityFails | homework.py:112 | a known code with the wrong number of values fails with an arity fault naming the class and the count given |
| Dispatch.PackageRoundTrip | homework.py:109-112 | every training is read back unchanged from its own code and value list |
| Dispatch.ReadPackageIsInjective | homework.py:109-112 | a successful read determines its code and its value list, so no two packages build the same training |
| Dispatch.ReadPackageLabel | homework.py:109-112 | the summary label of a read training is the class that the code names |
| Samples.SwimmingSample | homework.py:125 | ('SWM', [720, 1, 80, 25, 40]) reads and summarises to Swimming, 1 h, 0.9936 km, 1.0 km/h, 336.0 kcal |
| Samples.RunningSample | homework.py:126 | ('RUN', [15000, 1, 75]) reads and summarises to Running, 1 h, 9.75 km, 9.75 km/h, 699.75 kcal |
| Samples.WalkingSample | homework.py:127 | ('WLK', [9000, 1, 75, 180]) reads and summarises to SportsWalking, 1 h, 5.85 km, 5.85 km/h, 157.5 kcal; the floor term is 0 |

## Left out

- `InfoMessage.get_message` (homework.py:13-23) is not modelled. It renders each number with three decimals, which has no exact counterpart over reals.
- `main` and the driver loop (homework.py:115-132) are not modelled. They only print to the console; the three sample packages are stated as lemmas instead.
- IEEE-754 rounding is not modelled. All arithmetic is exact. Results agree with the program up to float rounding, except for the walking floor term: when speed² / height lies near a whole number, rounding can move the floor term at homework.py:83-84 by one. Walking calories then differ by a whole 0.029 · weight · duration · 60, not by a rounding-sized amount.
- The base `Training.get_spent_calories` (homework.py:44-46) returns `None`, and the model has no counterpart. There is no base constructor, so the model cannot ask for it and no fault is invented.
- Wrong value types passed through `*dt` (homework.py:112) are not modelled. Every value is a `real`; only the unknown-code and wrong-arity faults are modelled.
- Workouts.MeanSpeed: requires a non-zero duration. For zero the source raises ZeroDivisionError; the model has no value or fault for that case.
- Workouts.Calories: requires `CaloriesDefined`, a non-zero duration and, for walking, a non-zero height. With a zero the source raises ZeroDivisionError; the model does not produce that fault.
- Info.ShowTrainingInfo: requires `CaloriesDefined`, for the same reason as `Calories`.

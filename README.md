# Fitness tracker calculator, modelled in Dafny

The program turns raw sensor readings into workout statistics. A reading is an
action count (steps or strokes), a duration in hours, a weight in kilograms,
and, for some workouts, a height in centimetres or a pool length and lap count.
There are three workouts: running, sports walking and swimming.
For each one the program computes a distance in kilometres, a mean speed in
km/h and the calories spent. It packs these into an `InfoMessage` report and
renders the report as one line of text.
A dispatcher, `read_package`, maps a workout code (`SWM`, `RUN`, `WLK`) and a
list of numbers to the matching workout.

The model is pure and uses exact `real` arithmetic:

- `Outcomes` (outcomes.dfy): `Option`, and `Result` with its `Error`. `Error`
  stands for the two exceptions the program raises: `NotImplemented` for the
  base class's calorie method, and `ArgumentCount(expected, given)` for a
  constructor called with the wrong number of arguments.
- `Trainings` (trainings.dfy): the class hierarchy `Training` / `Running` /
  `SportsWalking` / `Swimming` as one datatype with one constructor per class.
  Also the constants, and `Distance`, `MeanSpeed` and `SpentCalories`, where
  each override is a case of the match. Then the lemmas about the formulas:
  inheritance and override, unit conversions, closed forms and non-negativity.
- `Messages` (messages.dfy): the `InfoMessage` record, `ShowTrainingInfo`,
  the fixed per-variant display names, and the text template.
- `Packages` (packages.dfy): `ReadPackage`, with its round trip against the
  code and constructor arguments of each variant.
- `Samples` (samples.dfy): the three sample packages of the driver, with
  exact reports, and an unknown code.

Division by zero is not modelled as an error. `MeanSpeed` and
`ShowTrainingInfo` require a non-zero duration, and walking also a non-zero
height (`Trainings.Computable`). These are exactly the inputs on which they
divide by zero. `SpentCalories` requires the same, except for the base
training, which fails with `NotImplemented` before it divides by anything.

An unknown workout code does not raise an error. The program evaluates
`Training(*data)` and throws the result away. So with three numbers the result
is no training (`Ok(None)`), and with any other count it is an argument error.
The model follows the code here and does not add an "unsupported workout
type" error.

## Model

| member | source | states |
|---|---|---|
| Trainings.Distance | homework.py:41-43 | the distance in km is non-negative whenever the action count is non-negative |
| Trainings.InheritedDistance | homework.py:28-43 | running and walking use the base distance unchanged: action times the 0.65 m step is the distance converted back to metres |
| Trainings.SwimmingDistanceOverride | homework.py:97-114 | swimming distance uses the 1.38 m stroke: times 1000 it is action · 1.38, and it is the base distance scaled by 1.38/0.65 |
| Trainings.DistanceMonotone | homework.py:41-43 | more steps or strokes never give a shorter distance |
| Trainings.MeanSpeed | homework.py:45-47 | mean speed is kilometres per hour: outside swimming, speed times duration is the distance; for swimming (override at homework.py:116-118), speed times duration times 1000 is pool length times lap count |
| Trainings.MeanSpeedIsDistancePerHour | homework.py:45-47 | for running and walking, mean speed is the base speed, speed times duration is the distance, and speed is non-negative when action is non-negative and duration is positive |
| Trainings.SwimmingSpeedFromPool | homework.py:116-118 | swimming speed times duration times 1000 is pool length times lap count, and changing the stroke count leaves the speed unchanged |
| Trainings.SwimmingSpeedIgnoresDistance | homework.py:113-118 | swimming's speed and distance formulas disagree: on the sample, speed times duration differs from the distance |
| Trainings.SpentCalories | homework.py:49-51 | calories fail with NotImplemented exactly for the base training, whatever its duration; every variant has a value |
| Trainings.RunningCaloriesClosedForm | homework.py:63-72 | running calories equal (18 · action · 0.65/1000 + 1.79 · duration) · weight / 1000 · 60: the duration cancels from the speed term |
| Trainings.RunningCaloriesNonNegative | homework.py:63-72 | running calories are non-negative for non-negative action and weight and positive duration |
| Trainings.WalkingCaloriesNonNegative | homework.py:75-94 | walking calories are non-negative for non-negative weight and positive duration and height, whatever the speed |
| Trainings.SwimmingCaloriesClosedForm | homework.py:97-122 | swimming calories equal (pool length · laps / 1000 + 1.1 · duration) · 2 · weight |
| Trainings.SwimmingCaloriesNonNegative | homework.py:120-122 | swimming calories are non-negative for non-negative pool distance and weight and positive duration |
| Messages.TypeName | homework.py:56 | the class name of the variant: only the base training is named "Training", and no name contains a semicolon |
| Messages.TypeNameIdentifiesVariant | homework.py:53-60 | two trainings have the same report name exactly when they are the same variant |
| Messages.ShowTrainingInfo | homework.py:53-60 | the report fails with NotImplemented exactly for the base training; otherwise it holds the variant's name, the duration, and that variant's distance, mean speed and calories |
| Messages.ReportIsSound | homework.py:53-60 | for physically valid inputs every variant's report exists with non-negative distance, speed and calories, and outside swimming speed times duration is the distance |
| Messages.GetMessage | homework.py:12-23 | whatever the number formatter does, the rendered line starts with the fixed header, the type name and the duration label, and ends with the speed unit, the calories label, the calories and a full stop |
| Messages.MessageCarriesTypeName | homework.py:12-23 | whatever the number formatter does, the type name can be read back from the rendered line, if it has no semicolon |
| Packages.ReadPackage | homework.py:125-131 | a package succeeds exactly when the list length matches the chosen constructor (5 for SWM, 4 for WLK, 3 otherwise), and otherwise fails with that arity; it yields a training exactly for a known code, and never a bare base training |
| Packages.ReadPackageRoundTrip | homework.py:125-129 | every variant is rebuilt exactly from its own code and its constructor arguments in order |
| Packages.ReadPackageInverse | homework.py:125-129 | a training the dispatcher yields pins down the package: the code is the variant's code and the list is its arguments in order |
| Packages.UnknownCodeYieldsNothing | homework.py:130-131 | an unknown code yields no training exactly for a three-number list, and an argument error for any other length |
| Samples.SwimmingSample | homework.py:142 | SWM [720, 1, 80, 25, 40] reports distance 0.9936, speed 1.0 and calories 336.0 |
| Samples.RunningSample | homework.py:143 | RUN [15000, 1, 75] reports distance 9.75, speed 9.75 and calories 797.805 |
| Samples.WalkingSample | homework.py:144 | WLK [9000, 1, 75, 180] reports distance 5.85, speed 5.85 and calories 349.251747525 |
| Samples.UnknownCodeSample | homework.py:125-131 | XYZ with three numbers yields no training, and with two numbers an argument error expecting three |

## Left out

- The driver `main` and the `__main__` loop over the sample list (homework.py:134-149). They only print. The three samples appear as lemmas in `Samples` instead.
- Calling `show_training_info` on the `None` that an unknown code yields. This is an attribute error in the driver, which is not modelled.
- The `{:.3f}` rendering of numbers in `InfoMessage.get_message`. It is float-to-text formatting. `Messages.GetMessage` takes the number formatter as a parameter and models only the fixed text around it.
- IEEE double rounding. The model computes in exact `real`, so its values agree with the program's only up to float error (for example 0.9936 where the program computes 0.9935999…).
- Parameter types. The program annotates action, height and the pool fields as `int` but does not enforce this. Every parameter is a `real` here, and a list element that is not a number is not modelled.
- Division by zero (a zero duration, or a zero height for walking). The program raises ZeroDivisionError there; the model excludes these inputs by a precondition instead of returning an error.
- Reflection (`self.__class__.__name__`). It is replaced by a fixed name per variant: "Training", "Running", "SportsWalking", "Swimming".
- Overriding the `TEXT` template field of one `InfoMessage` instance, and the other methods a dataclass generates (`__repr__` and the like).

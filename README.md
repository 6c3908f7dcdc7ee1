# Fitness tracker calculations, modelled in Dafny

The repository is a small fitness-tracker module. It takes raw sensor readings
for a training session and computes three figures: the distance in km, the
mean speed in km/h and the calories spent. It then bundles them into a
summary message. There are three kinds of training:

- **Running** uses the default distance, `action * 0.65 / 1000`, and the
  default speed, distance over duration. Its calories are
  `(18 * speed - 20) * weight / 1000 * duration * 60`.
- **Sports walking** adds the walker's height. It uses the default distance
  and speed. Its calories are
  `(0.035 * weight + (speed² // height) * 0.029 * weight) * duration * 60`,
  where `//` is Python's floor division.
- **Swimming** adds the pool length and the number of pool lengths. It
  overrides the step length to 1.38 and overrides the speed to
  `length_pool * count_pool / 1000 / duration`. It does not override the
  distance, so its distance is `action * 1.38 / 1000`. Its calories are
  `(speed + 1.1) * 2 * weight`.

A dispatcher, `read_package`, maps the codes `SWM`, `RUN` and `WLK` to the
three kinds. It passes the reading list to the constructor as positional
arguments.

`homework.dfy` (module `Homework`) holds the model. The class hierarchy is the
three-constructor datatype `Training`. The methods are functions over it. The
summary is the datatype `InfoMessage`. Python's exceptions are the `Failure`
cases of a `Result`:

- `UnknownWorkoutType` stands for the `KeyError` of an unknown code.
- `WrongArgumentCount` stands for the `TypeError` of a reading list of the
  wrong length.
- `ZeroDivision` stands for the `ZeroDivisionError` of a zero duration, or of
  a zero height when walking.

`properties.dfy` (module `HomeworkProperties`) holds the lemmas that relate
the operations to each other and to the three sample packages.

Quantities are exact reals, so double-precision rounding is not modelled. The
one discrete step in the formulas is the floor division in the walking
formula. It is written out as `.Floor`.

Three details of the code are kept as written:

- `Swimming` does not override `get_distance` (homework.py:112-141), so its
  distance is `action * 1.38 / 1000` and ignores the pool.
- `RUN [15000, 1, 75]` gives `(18 * 9.75 - 20) * 75 / 1000 * 1 * 60 = 699.75`
  kcal, which `RunningSample` proves.
- `count_pool` is annotated `float` (homework.py:124), so it is a real here.

## Model

| member | source | states |
|---|---|---|
| `Homework.StepLength` | homework.py:115 | The step length is positive, and it differs from the default step length (`LenStep`, 0.65) exactly for swimming, which declares its own. |
| `Homework.Distance` | homework.py:45-48 | The distance in km times 1000 is the action count times the variant's step length. It is non-negative for a non-negative count and zero exactly when the count is zero. |
| `Homework.MeanSpeed` | homework.py:50-53 | Defined for a non-zero duration. For running and walking, speed times duration is the distance. For swimming, speed times duration times 1000 is pool length times pool count. |
| `Homework.WalkSpeedTerm` | homework.py:104-106 | The floor-division term is a whole number. It lies within one below the squared speed over the height. |
| `Homework.SpentCalories` | homework.py:76-141 | Each variant's formula, defined when its divisors are non-zero. A weight of zero gives zero calories. |
| `Homework.ClassName` | homework.py:62 | The summary label is the variant's class name: "Running", "SportsWalking" or "Swimming", one per variant. |
| `Homework.ShowTrainingInfo` | homework.py:59-67 | Succeeds exactly when the duration, and for walking the height, are non-zero. Otherwise it fails with a zero division. On success the label is the class name, and duration, distance, speed and calories are the variant's own. |
| `Homework.Code` | homework.py:149-152 | Each variant has its own code in the dispatch table: SWM for swimming, RUN for running, WLK for walking. |
| `Homework.Arity` | homework.py:36-125 | A recognised code's constructor takes 3, 4 or 5 positional readings: `Training.__init__` (36-40) takes 3, `SportsWalking.__init__` (93-98) 4 and `Swimming.__init__` (119-125) 5. |
| `Homework.Readings` | homework.py:36-130 | A session's constructor arguments in the positional order of `Training.__init__` (36-43), `SportsWalking.__init__` (93-100) and `Swimming.__init__` (119-130). The list has the constructor's length and starts with action, duration and weight. |
| `Homework.ReadPackage` | homework.py:144-154 | An unknown code fails with that code. A recognised code with the wrong number of readings fails with the expected and given counts, and nothing is truncated or padded. Otherwise it succeeds, and the result's code and readings are exactly the ones given. |
| `HomeworkProperties.DistanceSharedAcrossVariants` | homework.py:45-53 | Running and walking have the same default distance and speed. Swimming's distance is the running distance scaled by 1.38/0.65, whatever the pool. |
| `HomeworkProperties.SwimmingSpeedIgnoresAction` | homework.py:132-141 | Swimming's speed and calories do not depend on the action count. |
| `HomeworkProperties.SwimmingDistanceIgnoresPool` | homework.py:112-117 | Swimming's distance is the inherited `action * 1.38 / 1000` and does not depend on the pool. |
| `HomeworkProperties.CaloriesLinearInWeight` | homework.py:76-141 | For every variant, the calories equal the weight times the calories at weight 1. |
| `HomeworkProperties.RunningCaloriesSign` | homework.py:76-82 | For a positive weight and duration, running's calories are positive exactly when the speed exceeds 20/18 km/h, and zero exactly at that speed. |
| `HomeworkProperties.FloorTermBounds` | homework.py:104-106 | Over a positive height, the floor term is 0 when the squared speed is below the height and at least 1 from there on. |
| `HomeworkProperties.WalkingFloorTerm` | homework.py:102-109 | When the squared speed is below the height, walking's calories reduce to `0.035 * weight * duration * 60`. Otherwise the floor term is at least 1. |
| `HomeworkProperties.SummaryConsistent` | homework.py:59-67 | A computable session always has a summary. For running and walking, its speed times its duration is its distance. For swimming, it is the pool distance in km. |
| `HomeworkProperties.ReadPackageRoundTrip` | homework.py:144-154 | Dispatching a session's own code and readings rebuilds exactly that session. |
| `HomeworkProperties.ReadPackageInjective` | homework.py:154 | Two reading lists accepted under the same code build the same session only if the lists are equal. |
| `HomeworkProperties.RunningSample` | homework.py:70-82 | RUN [15000, 1, 75] gives a Running session: 9.75 km, 9.75 km/h and 699.75 kcal. |
| `HomeworkProperties.WalkingSample` | homework.py:85-109 | WLK [9000, 1, 75, 180] gives a SportsWalking session: 5.85 km and 5.85 km/h. The floor term is 0, so the calories are 157.5. |
| `HomeworkProperties.SwimmingSample` | homework.py:112-141 | SWM [720, 1, 80, 25, 40] gives a Swimming session: 0.9936 km, 1.0 km/h and 336 kcal. Its speed is not its distance over its duration. |

## Left out

- `InfoMessage.get_message` (homework.py:21-28) is left out. It formats the summary as localized text, rounding each figure to three decimals. This is float-to-text formatting with nothing to prove.
- `main` and the `__main__` driver (homework.py:157-172) are left out. They only print, and loop over sample data. The sample data appears in the three `*Sample` lemmas.
- IEEE-754 double rounding is left out. All quantities are exact reals.
- The base class's `get_spent_calories` returns `None` (homework.py:55-57). It is not modelled, because the dispatcher never builds the base class.
- Readings of a non-numeric type are left out. The model's readings are reals.

# Workout calculator model

A Dafny model of `homework.py`, a small fitness calculator. It turns raw workout readings into a summary: distance, mean speed and calories burned. There are three workout kinds: running, sports walking and swimming. The model covers:

- the workout classes (`Training` and its subclasses `Running`, `SportsWalking`, `Swimming`), their getters and their calorie formulas;
- the factory `read_package`, which maps a workout code (`SWM`, `RUN`, `WLK`) and a positional argument list to a workout;
- the summary record `InfoMessage`, which `show_training_info` builds.

The source is pure. A constructor assigns the fields once, and every getter is an expression over those fields. So the model uses values only:

- one datatype `Workouts.Training` with one constructor per subclass;
- a function per getter;
- lemmas for the properties.

Quantities are exact `real`s. Python's `x // y` on numbers becomes `Workouts.FloorDiv(x, y)`, which is `(x / y).Floor`. The `ValueError` and `TypeError` that `read_package` can raise become `Wrappers.Result` values. Two other exceptions are not results:

- a zero divisor, which the source does not guard, is a precondition instead: `duration != 0` for the speed, and also `height != 0` for the walking calories;
- the base class's `NotImplementedError` cannot arise, because the datatype has no constructor for the base class.

Files:

- `wrappers.dfy`: `Option` and `Result`.
- `real_arith.dfy`: small facts about real products. These are stated on plain numbers, so the solver does not have to rediscover them inside larger proofs.
- `workouts.dfy`: the classes, their constants and getters, and the calorie formulas with their lemmas.
- `read_package.dfy`: the registry, the construction from positional arguments, `read_package`, and the message of the unsupported-type error.
- `info_message.dfy`: `InfoMessage` and `show_training_info`.
- `scenarios.dfy`: the demo's three packages, a walking case where the floor matters, and the link from a package to its record.

Two results of the demo packages that are easy to get wrong by hand:

- `RUN [15000, 1, 75]` burns 699.75 kcal by the formula at homework.py:69-75; `Scenarios.RunningPackage` proves it.
- `Swimming` overrides `LEN_STEP` with 1.38 (homework.py:105), so the 720 strokes of `SWM [720, 1, 80, 25, 40]` give 0.9936 km; `Scenarios.SwimmingPackage` proves it.

## Model

| member | source | states |
|---|---|---|
| `Workouts.TypeName` | homework.py:55 | the class name `__class__.__name__` reads: "Running", "SportsWalking" or "Swimming", each exactly for its own class |
| `Workouts.StepLength` | homework.py:27 | `self.LEN_STEP`: positive, and 1.38 exactly for Swimming (its override at homework.py:105), 0.65 otherwise |
| `Workouts.Distance` | homework.py:40-42 | `get_distance`, in kilometres; its properties are in `DistanceRecoversAction` and `SwimmingIgnoresAction` |
| `Workouts.MeanSpeed` | homework.py:44-46 | `get_mean_speed`, with Swimming's override (homework.py:119-124) for Swimming; its properties are in `MeanSpeedTimesDuration` and `SwimmingIgnoresAction` |
| `Workouts.FloorDiv` | homework.py:95 | `x // y` is a whole number q with q <= x / y < q + 1 |
| `Workouts.SpentCalories` | homework.py:69-75 | `get_spent_calories` of Running, SportsWalking (homework.py:93-99) and Swimming (homework.py:126-129); its properties are in `RunningCaloriesClosedForm`, `WalkingFloorTermVanishes`, `WalkingFloorDeficit`, `WalkingCaloriesBelowRealDivision` and `SwimmingCaloriesClosedForm` |
| `Workouts.WalkingCaloriesRealDivision` | homework.py:93-99 | reference for the walking calories: the same formula with real division in place of `//`; `WalkingFloorDeficit` and `WalkingCaloriesBelowRealDivision` relate it to `SpentCalories` |
| `Workouts.DistanceRecoversAction` | homework.py:40-42 | distance * 1000 equals action * LEN_STEP, where LEN_STEP is 0.65 for the base class and 1.38 for Swimming; dividing by LEN_STEP gives back the action count |
| `Workouts.MeanSpeedTimesDuration` | homework.py:44-46 | mean speed times duration is the distance the speed is based on: the step distance for Running and SportsWalking, and length_pool * count_pool / 1000 for Swimming (the override at homework.py:119-124) |
| `Workouts.RunningCaloriesClosedForm` | homework.py:69-75 | Running calories are weight * 60 / 1000 * (18 * distance - 20 * duration); the speed cancels against the duration |
| `Workouts.WalkingFloorTermVanishes` | homework.py:93-99 | when 0 <= speed ** 2 < height the floor term is 0, and the calories reduce to 0.035 * weight * duration * 60 |
| `Workouts.WalkingFloorDeficit` | homework.py:95 | the real-division formula exceeds the floored one by exactly the dropped fraction of speed ** 2 / height times one quotient unit, and that fraction lies in [0, 1) |
| `Workouts.WalkingCaloriesBelowRealDivision` | homework.py:93-99 | for a positive weight and duration, the floored calories are at most the real-division calories and less than one quotient unit below them |
| `Workouts.SwimmingCaloriesClosedForm` | homework.py:126-129 | Swimming calories are 2 * weight * 1.1 + 2 * weight * length_pool * count_pool / (1000 * duration) |
| `Workouts.SwimmingIgnoresAction` | homework.py:119-129 | two Swimming sessions that differ at most in the action count have the same speed and calories; the distance is action * 1.38 / 1000 |
| `Workouts.FloorDivOfProperFraction` | homework.py:95 | 0 <= x < h makes `x // h` zero |
| `Packages.Arguments` | homework.py:31-117 | a workout's constructor arguments in parameter order, as many as its class's `__init__` takes: three for Running (homework.py:31-38), four for SportsWalking (homework.py:84-91), five for Swimming (homework.py:109-117) |
| `Packages.Lookup` | homework.py:135-140 | finds the registry entry whose code is the tag, and finds one exactly when such an entry exists |
| `Packages.Codes` | homework.py:143 | the registry's keys, one per entry and in entry order |
| `Packages.RegistryListing` | homework.py:143 | the keys joined with ", " read "SWM, RUN, WLK" |
| `Packages.UnsupportedMessage` | homework.py:141-144 | the ValueError text is the tag followed by " is not a supported workout type (try one of these: SWM, RUN, WLK)" |
| `Packages.Construct` | homework.py:145 | construction fails exactly when the argument count differs from the class's arity, and then with an arity error naming the class, its arity and the count given; on success the workout has that class and the arguments in order |
| `Packages.ReadPackage` | homework.py:132-146 | an unknown tag gives the unsupported-type error with the listing message, and only an unknown tag gives that error; SWM, RUN and WLK succeed exactly with 5, 3 and 4 arguments; an arity error names the tag's class, its arity and the count given; a result carries the tag's class and the arguments in position |
| `Packages.ReadPackageRoundTrip` | homework.py:132-146 | reading a workout's own code and arguments gives that workout back |
| `InfoMessages.ShowTrainingInfo` | homework.py:52-60 | the record names the class (Swimming exactly for Swimming, Running exactly for Running), copies the duration, has distance * 1000 = action * LEN_STEP and speed * duration = the speed's distance basis, and carries the calories |
| `Scenarios.ReportOfPackage` | homework.py:145-146 | for an accepted package, the record's type is the tag's class name, its duration is data[1], and its distance is data[0] * LEN_STEP / 1000 with 1.38 for SWM and 0.65 otherwise |
| `Scenarios.SwimmingPackage` | homework.py:157 | SWM [720, 1, 80, 25, 40] gives distance 0.9936, speed 1.0 and 336.0 kcal |
| `Scenarios.RunningPackage` | homework.py:158 | RUN [15000, 1, 75] gives distance 9.75, speed 9.75 and 699.75 kcal |
| `Scenarios.WalkingPackage` | homework.py:159 | WLK [9000, 1, 75, 180] gives distance 5.85 and speed 5.85; since 34.2225 // 180 = 0, it gives 157.5 kcal |
| `Scenarios.WalkingFloorIsUsed` | homework.py:95 | WLK [30000, 1, 75, 180] has 380.25 / 180 not whole; its calories are 418.5 with the floor, which differs from the real-division value |

## Left out

- Text rendering: `InfoMessage.MESSAGE` and `get_message` (homework.py:13-21) format floats to three decimals through `str.format`. This model has no float-to-decimal conversion.
- Floating point: all arithmetic is exact real arithmetic, so the IEEE-754 rounding of `/`, `*` and `//` is not reproduced. For `/` and `*` that is a last-bit difference. At `//` it can be a whole step: when the float value of speed ** 2 lands just below a whole multiple of height but the exact value does not, Python's floor is one less than the model's. The calories then differ by one quotient unit, 0.029 * weight * duration * 60, which is 130.5 kcal for 75 kg over one hour.
- Output and the demo: `main` prints to standard output (homework.py:149-152), and the `__main__` loop (homework.py:155-164) drives it. The three demo packages appear as lemmas instead.
- The base class as a workout: `Training` itself is not in the registry, so `read_package` never builds one. Its `get_spent_calories` raises `NotImplementedError` (homework.py:48-50). The closed datatype has no base constructor, so that call cannot arise in the model.
- Reflection: the record's type is `Workouts.TypeName`, an explicit mapping from constructor to class name, in place of `__class__.__name__`.
- Argument types: Python passes whatever values the list holds. Here every argument is a `real`, so an integer-annotated parameter (`action`, `height`, `length_pool`, `count_pool`) takes any real. A wrong-type argument cannot be expressed.
- TypeError text: a wrong argument count is `ArityMismatch(workout, expected, given)`. The model does not reproduce the interpreter's message.
- Zero divisors: a zero duration, or a zero height for walking calories, raises `ZeroDivisionError` in the source. Here it is a precondition, not an error result.
- Repeated `show_training_info` calls: the model is a function of an immutable value, so two calls give equal records by construction. No lemma is stated for it.

# Bonus wheel: a Dafny model

This project models the logic of a weighted prize wheel (a Unity project in C#).

- **`WheelGenerator`** holds the list of slices. Each slice has a drop rate and a reward string. The generator validates the list: it must be non-empty and its drop rates must sum to exactly 1. It caches the validity flag, the slice count and the slice angle `360 / n`. It answers index queries and lays the slices out around the hub.
- **`WheelSpinner`** keeps one in-flight flag. `Spin` refuses to start on an invalid wheel, then refuses while a spin is in flight. Otherwise it picks a prize by walking the drop rates in order and subtracting each rate from a uniform draw. It turns the prize index into a cumulative target angle `numSpins * 360 + sliceAngle * i + angleInSlice` and hands that to the animation. Completion clears the flag and reports the reward.
- **`Wheel`** is the earlier variant, which the spin button still calls. It uses the same layout and angle arithmetic. Its prize draw is uniform over `[1, n)` and ignores the rates. It has no validity guard and no in-flight guard.

Files:

- `geometry.dfy` (module `Geometry`): the angle arithmetic both variants share, and the C# floating-point `%`.
- `generator.dfy` (module `Generator`): `WheelSlice`, the validation rules, and class `WheelGenerator`.
- `spinner.dfy` (module `Spinner`): prefix sums, the selection predicate and its lemmas, and class `WheelSpinner`.
- `legacy_wheel.dfy` (module `LegacyWheel`): class `Wheel`.
- `spin_validation.dfy` (module `SpinValidation`): the eight-slice scenario of the editor tests.

How the model treats the pieces outside the logic:

- **Random draws.** `Random.Range` becomes parameters with range preconditions:
  - `rand` in `[0, 1]`;
  - `numSpins` in `[minSpins, maxSpins)`;
  - `angleInSlice` in `[wheelArrowOffset, sliceAngle]`;
  - for the earlier wheel, `prizeDraw` in `[1, numSlices)`.
- **Animation.** The tween is represented by the `SpinRequest` that a spin returns: the target angle and the prize index its completion callback reports. Completion is an explicit call to `EndSpin(i)` or `LogReward(i)`.
- **Floating point.** `float` is `real`. The validity check keeps the source's exact comparison `totalSum != 1`.

The model keeps three behaviours of the code:

- the validity check compares the sum with 1 exactly, with no tolerance;
- `EndSpin` has no error when no spin is in flight and clears the flag unconditionally;
- a selection that runs out returns the sentinel -1, which `Spin`'s range check absorbs.

Two edge cases of the source, as the model shows them:

- **In exact arithmetic, a draw of exactly 1.0 picks nothing** (`FullDrawFindsNoSlice`). On a valid list with rates in `[0, 1]`, the loop falls through to -1, and `Spin` then starts nothing. In single precision the outcome depends on rounding. On the editor-test table, the remainder after seven subtractions from 1.0 is just below 0.2, so a draw of 1.0 selects slice 7.
- **The far edge of the last slice lands on slice 0** (`TargetAtFullTurn`). When the last slice is chosen and the in-slice draw equals the whole slice angle, the target angle modulo 360 is 0. That is the leading edge of slice 0, not a point inside the last slice's sector. With `numSpins >= 0` and `0 <= wheelArrowOffset`, in exact arithmetic every other draw lands in the closed range `[sliceAngle*i + offset, sliceAngle*i + sliceAngle]` that the editor test asserts (`TargetLandsInSlice`). In single precision, a few draws just below the last slice's far edge also round to a full turn and land at 0. The far edge of a slice i < n-1 is the leading edge of slice i+1 (`FarEdgeStartsNextSlice`), which the test's closed range accepts. Only the last slice's far edge wraps to 0, outside it. The arrow offset is an unconstrained inspector value, so a negative offset is outside what these lemmas cover.

## Model

| member | source | states |
|---|---|---|
| `Geometry.SliceCentre` | Assets/Scripts/WheelGenerator.cs:102-118 | slice i is drawn at a rotation strictly inside its sector (i*sliceAngle, i*sliceAngle + sliceAngle) |
| `Geometry.Remainder360` | Assets/Tests/EditorTests/SpinValidationTests.cs:61 | the C# float `%` by 360 truncates the quotient: for x >= 0 the result is in [0, 360), for x < 0 in (-360, 0] |
| `Geometry.RemainderOfWholeTurns` | Assets/Tests/EditorTests/SpinValidationTests.cs:60-61 | removing full turns: (k*360 + a) % 360 == a for k >= 0 and 0 <= a < 360 |
| `Geometry.TargetLandsInSlice` | Assets/Scripts/WheelSpinner.cs:83-95 | with 0 <= i < n, numSpins >= 0, 0 <= arrowOffset <= angleInSlice <= sliceAngle and not the far edge of the last slice, target % 360 lies in [sliceAngle*i + arrowOffset, sliceAngle*i + sliceAngle] |
| `Geometry.FarEdgeStartsNextSlice` | Assets/Scripts/WheelSpinner.cs:92-94 | for a slice i < n-1, the far-edge draw gives target % 360 == sliceAngle*i + sliceAngle, the leading edge of slice i+1, which is the upper end of the closed range the editor test accepts |
| `Geometry.LandingInSector` | Assets/Scripts/Wheel.cs:97-107 | the same landing property for any valid draw, as an implication from its side conditions |
| `Geometry.TargetAtFullTurn` | Assets/Scripts/WheelSpinner.cs:92-94 | the far-edge draw on the last slice gives target % 360 == 0, outside the range the editor test asserts for that slice |
| `Generator.Initialized` | Assets/Scripts/WheelGenerator.cs:57-92 | after initialisation the flag holds iff the list is non-empty with rates summing to exactly 1; when valid, count == list length and count*angle == 360; when invalid, count and angle are the old ones |
| `Generator.InitializeIdempotent` | Assets/Scripts/WheelGenerator.cs:57-92 | initialising twice on the same list gives the same flag, count and angle as once |
| `Generator.InitializedGeometry` | Assets/Scripts/WheelGenerator.cs:65-66 | after a successful initialisation sliceAngle > 0 and numSlices*sliceAngle == 360 |
| `Generator.WheelGenerator.constructor` | Assets/Scripts/WheelGenerator.cs:30-38 | a new generator has an empty list, count 0, angle 0 and is not valid |
| `Generator.WheelGenerator.SetTestSlices` | Assets/Scripts/WheelGenerator.cs:51-54 | replaces the list and nothing else; the cached flag is not recomputed |
| `Generator.WheelGenerator.ValidateWheel` | Assets/Scripts/WheelGenerator.cs:69-92 | the flag becomes exactly "non-empty and the front-to-back sum of rates is 1"; an empty list is never valid |
| `Generator.WheelGenerator.InitializeWheel` | Assets/Scripts/WheelGenerator.cs:57-67 | new cache == Initialized(old cache, list): on failure only the flag changes; the class invariant (count/angle consistent, flag vouching for the validated list) is kept |
| `Generator.WheelGenerator.GenerateSlices` | Assets/Scripts/WheelGenerator.cs:94-122 | nothing is laid out on an invalid wheel; otherwise one placement per cached slice, carrying slice i's label at a rotation strictly inside sector i |
| `Generator.WheelGenerator.GetDropRate` | Assets/Scripts/WheelGenerator.cs:124-127 | the drop rate of slice i, defined only for 0 <= i < Count |
| `Generator.WheelGenerator.GetReward` | Assets/Scripts/WheelGenerator.cs:129-132 | the reward string of slice i, defined only for 0 <= i < Count |
| `Generator.WheelGenerator.IsWheelValid` | Assets/Scripts/WheelGenerator.cs:134-137 | the cached flag; when true, the list seen at the last initialisation (not necessarily the current list) was valid |
| `Generator.WheelGenerator.GetNumberOfSlices` | Assets/Scripts/WheelGenerator.cs:139-142 | never negative; on a valid wheel the length of the validated list |
| `Generator.WheelGenerator.GetSliceAngle` | Assets/Scripts/WheelGenerator.cs:144-147 | never negative; once a count is cached, positive with count*angle == 360 |
| `Spinner.PrefixMonotone` | Assets/Scripts/WheelGenerator.cs:24-25 | with rates in the inspector's [0, 1] range, the running sums of the rates never decrease |
| `Spinner.SelectionUnique` | Assets/Scripts/WheelSpinner.cs:52-67 | the selection loop's result is determined by the list and the draw |
| `Spinner.SelectionCoverage` | Assets/Scripts/WheelSpinner.cs:52-67 | on a valid list, a draw r in [0, 1) always selects an index i in [0, n) with prefix(i) <= r < prefix(i+1) |
| `Spinner.BandSelects` | Assets/Scripts/WheelSpinner.cs:52-67 | conversely, with rates in [0, 1], every r in [prefix(j), prefix(j+1)) selects j, so the bands tile [0, 1) without gap or overlap |
| `Spinner.FullDrawFindsNoSlice` | Assets/Scripts/WheelSpinner.cs:55-66 | the draw 1.0 on a valid list with rates in [0, 1] falls through to the -1 sentinel |
| `Spinner.WheelSpinner.InitializeValues` | Assets/Scripts/WheelSpinner.cs:20-30 | stores the spin settings and the generator; no spin is in flight |
| `Spinner.WheelSpinner.Spin` | Assets/Scripts/WheelSpinner.cs:33-50 | invalid wheel: nothing drawn or started, flag unchanged; then in flight: refused, flag stays set; otherwise it starts a spin (and sets the flag) exactly when the selection is in range, to the selected index and its target angle. A -1 selection starts nothing and leaves the flag false. On an unchanged valid list with r < 1 a spin always starts, on the slice whose band holds r |
| `Spinner.WheelSpinner.GetRandomPrizeIndex` | Assets/Scripts/WheelSpinner.cs:52-67 | the result is the first index whose rate exceeds what is left of the draw after subtracting the earlier rates, or -1 when there is none |
| `Spinner.WheelSpinner.SpinToSlice` | Assets/Scripts/WheelSpinner.cs:69-81 | sets the in-flight flag and requests a rotation to the slice's target angle, to be completed with the same index |
| `Spinner.WheelSpinner.GetRandomSpinAngleToSlice` | Assets/Scripts/WheelSpinner.cs:83-95 | the target lies in [numSpins*360 + sliceAngle*i + arrowOffset, numSpins*360 + sliceAngle*i + sliceAngle]; when numSpins >= 0 and 0 <= arrowOffset, modulo 360 it lies in the closed range [sliceAngle*i + arrowOffset, sliceAngle*i + sliceAngle], except at the far edge of the last slice |
| `Spinner.WheelSpinner.EndSpin` | Assets/Scripts/WheelSpinner.cs:97-102 | clears the flag unconditionally and announces the reward string of the slice spun to |
| `Spinner.WheelSpinner.GetReward` | Assets/Scripts/WheelSpinner.cs:116-119 | the generator's reward string for slice i |
| `LegacyWheel.Wheel.constructor` | Assets/Scripts/Wheel.cs:19-30 | stores the inspector settings and the list; count and angle start at 0 |
| `LegacyWheel.Wheel.GenerateSlices` | Assets/Scripts/Wheel.cs:37-63 | with no emptiness check (a non-empty list is required): count == list length, angle == 360/count, and one placement per slice, each strictly inside its sector |
| `LegacyWheel.Wheel.Spin` | Assets/Scripts/Wheel.cs:65-71 | no guard: every call takes the integer draw from [1, n) as the prize, so never slice 0, and requests the rotation to that slice, to be completed with the same index |
| `LegacyWheel.Wheel.SpinToSlice` | Assets/Scripts/Wheel.cs:73-84 | requests the rotation to slice i's target angle, completed with the same index |
| `LegacyWheel.Wheel.LogReward` | Assets/Scripts/Wheel.cs:86-89 | the reward string of slice i |
| `LegacyWheel.Wheel.GetRandomPrize` | Assets/Scripts/Wheel.cs:91-95 | the prize comes from an integer draw in [1, n) that never reads the rates: an index of the list other than 0 |
| `LegacyWheel.Wheel.GetRandomSpinAngleToSlice` | Assets/Scripts/Wheel.cs:97-107 | the same cumulative bounds as the spin engine's target and, when numSpins >= 0 and 0 <= arrowOffset, the same closed landing range modulo 360, except at the far edge of the last slice |
| `SpinValidation.TestPrefixes` | Assets/Tests/EditorTests/SpinValidationTests.cs:20-30 | the running sums of the eight test rates are 0, 0.2, 0.3, 0.4, 0.5, 0.55, 0.75, 0.8, 1 |
| `SpinValidation.TestTableIsValid` | Assets/Tests/EditorTests/SpinValidationTests.cs:20-43 | the test table is valid, its rates lie in [0, 1], and its slices are 45 degrees wide |
| `SpinValidation.TestTableSelections` | Assets/Scripts/WheelSpinner.cs:52-67 | on the test table, the draws 0.15, 0.25 and 0.999 select slices 0, 1 and 7 |
| `SpinValidation.SetUpTestWheel` | Assets/Tests/EditorTests/SpinValidationTests.cs:13-37 | the test setup gives a valid, idle spinner with 8 slices of 45 degrees, 3 to 10 turns and an arrow offset of 3 |
| `SpinValidation.SpinToPrizeLandsOnCorrectSlice` | Assets/Tests/EditorTests/SpinValidationTests.cs:54-66 | for every slice i and every draw but the far edge of the last slice, the target % 360 lies in [45i + 3, 45i + 45], and the reward is testSlices[i]'s |
| `SpinValidation.SpinLifecycle` | Assets/Scripts/WheelSpinner.cs:33-102 | idle -> spinning -> idle on the test table: the draw 0.15 starts a spin to slice 0; a second spin while it is in flight is refused and the flag stays set; completion announces "Life 30 min" and leaves the spinner idle |

## Left out

- Animation. DOTween's `DORotate`, `SetSpeedBased`, `Ease.OutCirc`, `RotateMode.FastBeyond360` and the timing of `OnComplete` are not modelled. A spin returns the rotation request, and completion is an explicit `EndSpin` or `LogReward` call. `spinSpeed` is stored but only the animation would read it.
- Scene glue. `Awake`/`Start`, `Instantiate`, `GetComponent`, the sprite and text setters, and `transform.Rotate` are not modelled. The layout records the rotation angle of each slice. The sign flip that makes the drawing follow the spin direction is rendering.
- The `slicePrefab == null` early return in `WheelGenerator.GenerateSlices` is scene glue and is not modelled.
- The icon sprite of a slice is display data the logic never reads. `SliceReferences.cs` (rendering) and `SpinButton.cs` (touch input) are not part of this model.
- `Debug.Log` and `Debug.LogWarning` output is not modelled. `EndSpin` returns the reward it would log.
- Random draws are parameters. `Random.Range`'s own bound conventions are not modelled beyond the ranges stated in the preconditions.
- Floating-point rounding is not modelled. Rates and angles are exact reals, so the rates 0.2, 0.1, … sum to exactly 1 here. In single precision the sum and the repeated subtractions of the selection loop may drift.
- Geometry.TargetLandsInSlice: the source adds three terms in single precision: the `int` product `numSpins * 360` converted to `float`, `sliceAngle * i` and the in-slice draw. Once that sum nears 2^24, about 46,600 turns, the low bits are lost and the source's remainder can fall outside the landing range. The `int` product also wraps around in the default unchecked context from numSpins = 5,965,233 on; the target is then negative up to numSpins = 11,930,464. The model adds exact numbers, so its landing range holds for every numSpins >= 0. The same holds for `Geometry.TargetAngle`, `Geometry.LandingInSector`, `Geometry.FarEdgeStartsNextSlice` and `Geometry.TargetAtFullTurn`.
- Spinner.WheelSpinner.GetRandomSpinAngleToSlice: the same 32-bit wrap-around of `numSpins * 360` is not modelled. Nor is the single-precision rounding of the sum. Its landing `ensures` holds for every numSpins >= 0, while the source's range already fails at about 46,600 turns, from rounding alone.
- LegacyWheel.Wheel.GetRandomSpinAngleToSlice: the same single-precision rounding of the sum and 32-bit wrap-around of `numSpins * 360` are not modelled.
- `GetNumberOfSlices` returns a `float` in the source and an `int` here. The two are equal for any realistic slice count.
- LegacyWheel.Wheel.GenerateSlices: requires a non-empty list. On an empty list the source divides 360 by 0 in floating point and caches an infinite angle, which reals cannot represent.
- LegacyWheel.Wheel.Spin: requires at least two slices, because the prize draw is taken from `[1, numSlices)`. On a one-slice wheel the source's `Random.Range(1, 1)` returns 1, and the reward lookup then runs past the end of the list.
- Spinner.WheelSpinner.Spin: the draws must be in range whenever the wheel is valid and idle. The source takes the angle draws only after an in-range selection.
- Spinner.WheelSpinner.Spin also requires the cached count not to exceed the current list length. After a list is shortened without initialising again, the source's `GetDropRate` can throw, when the walk passes the end of the shorter list. A draw caught before that point starts a spin normally, and the model excludes those runs too.
- Spinner.WheelSpinner.GetRandomPrizeIndex: requires the cached count not to exceed the current list length, for the same reason. On a shortened list the source's walk returns normally when the draw is caught before the end of the list, and the model does not cover those runs.
- Out-of-range indexes passed to `GetDropRate`, `GetReward`, `EndSpin` and `LogReward` throw in the source. Here they are preconditions. The source's `EndSpin` clears the flag before the lookup that throws, so even with an out-of-range index the spinner ends up idle; the model does not cover that call.
- Generator.WheelGenerator.GenerateSlices: requires the cached count not to exceed the current list length when the wheel is valid. The source's only caller runs it in `Start`, after `Awake` has initialised the wheel on the same list, which guarantees it.
- `SetTestSlices` stores the caller's `List` reference in the source, so the caller and the generator share one list. The model stores a `seq` value, so a later change the caller makes to its list is not seen by the generator. Nothing in the logic depends on that sharing.
- The test harness's `SpinEmulator_RecordResults` (its frequency counting and file output) is not modelled. The accessors `GetArrowOffset`, `GetRandomPrizeString` and `SpinToPrizeAndGetFinalAngle` are not modelled separately: the model reads the field and calls the wrapped functions directly.
- There is no concurrency. The source runs on Unity's single main thread.

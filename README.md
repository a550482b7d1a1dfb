# Slope calculator ("Gefällerechner") in Dafny

This project models the calculation core of a small slope calculator. The
controller `RechnerController` has a form with four numbers: the horizontal
distance `x`, the vertical distance `y`, the angle in degrees and the slope in
percent. A 0 field counts as "not given". The data view `get_data_view`
derives the missing fields from two given ones. The reset button
`reset_params` sets all four fields back to 0.

The model follows the source in three parts:

- `slope.dfy` (module `Slope`) holds the data and the solver as functions.
  `Params` holds the four fields. `CountZeros` is the list's `count(0)`.
  `FirstMatch` is the if/elif order of the six known-value pairs,
  (x,y), (x,angle), (x,slope), (y,angle), (y,slope), (angle,slope).
  `FromXY` … `FromAngleSlope` are the six branch bodies. `Solve` is the whole
  view: the zero-count check, the first matching branch, and the fallback
  error.
- `controller.dfy` (module `Controller`) holds `GetDataView`. It is the view
  written the way the source writes it: local copies of the fields, an early
  return after the zero count, and an if/elif chain that overwrites the
  locals. It is proved equal to `Solve`. `ResetParams` models the reset
  action.
- `properties.dfy` (module `SlopeProperties`) and `scenarios.dfy` (module
  `SlopeScenarios`) hold the lemmas about the solver and some concrete forms.

`math.tan`, `math.atan` and `math.pi` are not defined here. The solver takes
them as a parameter of type `Math`. The only thing assumed about it is
`pi > 0`. So every result holds for any tangent and arc-tangent functions.
Concrete trigonometric values appear only as stated hypotheses, as in
`tan(45°) = 1`. Numbers are modelled as `real`.

A division by zero makes Python raise `ZeroDivisionError`, and the view's
`except` turns it into an error item. The model returns `Err(DivisionByZero)`
in that case. Over exact reals this can happen only in branches 4 and 6,
when the tangent of the angle is 0. Python's floating point does not behave
like this (see "## Left out"). The fallback `raise ValueError(...)` becomes
`Err(InvalidCombination)`. The model proves this fallback can never be
reached.

A successful result does not always have all four fields nonzero. In the
code, branch 2 returns `y = 0` and `slope = 0` when
the tangent of the given angle is 0 (`RiseZeroIff`). Branches 1, 3 and 5 give
angle 0 if `atan` of a nonzero ratio is 0. Real `atan` never does that, but
the abstract `Math` parameter allows it.

## Model

| member | source | states |
|---|---|---|
| Slope.CountZeros | app.py:34 | the zero count of a list is at most its length |
| Slope.CountZerosIsMultiplicity | app.py:34 | `CountZeros(s)` is exactly the number of occurrences of 0 in `s`, i.e. `[x, y, angle, slope].count(0)` |
| Slope.Rank | app.py:43-63 | each pair has a position in the order (x,y), (x,angle), (x,slope), (y,angle), (y,slope), (angle,slope) |
| Slope.FirstKnown | app.py:43-68 | returns the index of the first pair with both fields nonzero, or the length when there is none; every earlier pair has a zero field |
| Slope.FirstMatch | app.py:43-68 | the selected pair has both fields nonzero, no pair earlier in the order does, and no pair is selected exactly when no pair has both fields nonzero |
| Slope.FirstMatchIs | app.py:43-66 | a pair with both fields given decides, when every earlier pair has a zero field |
| Slope.Message | app.py:36 | exactly the two errors the view writes itself carry a fixed text; the division error's text is the interpreter's own |
| Slope.FromXY | app.py:43-46 | branch 1 keeps x and y, computes slope = y/x·100 and angle = atan(y/x) in degrees |
| Slope.FromXAngle | app.py:47-50 | branch 2 keeps x and angle, and the derived rise satisfies y/x = tan(angle) and slope = y/x·100 |
| Slope.FromXSlope | app.py:51-54 | branch 3 keeps x and slope, and the derived y is nonzero with y/x·100 equal to the given slope; the angle is atan(y/x) in degrees |
| Slope.FromYAngle | app.py:55-58 | branch 4 fails with a division by zero exactly when tan(angle) is 0; otherwise it keeps y and angle, x is nonzero, y/x = tan(angle) and slope = y/x·100 |
| Slope.FromYSlope | app.py:59-62 | branch 5 keeps y and slope, x is nonzero and y/x·100 equals the given slope; the angle is atan(y/x) in degrees |
| Slope.FromAngleSlope | app.py:63-66 | branch 6 fails with a division by zero exactly when tan(angle) is 0; otherwise it keeps angle and slope, the run satisfies x·(100·tan(angle)) = slope, x and y are nonzero and y/x·100 equals the given slope |
| Slope.Derive | app.py:43-66 | the selected branch either fails with a division by zero or keeps the two fields of its pair unchanged |
| Slope.Solve | app.py:34-40 | the "at least two values" error comes out exactly when more than two fields are 0 |
| Controller.GetDataView | app.py:27-81 | the statement-by-statement view (zero count, early return, if/elif chain over the locals, caught errors) gives exactly the outcome of `Solve` |
| Controller.ResetParams | app.py:18-24 | the reset leaves all four fields unset |
| SlopeProperties.UnsetBoundIffSomePair | app.py:34-68 | at most two fields are 0 exactly when some pair has both fields nonzero |
| SlopeProperties.InsufficientIff | app.py:34-40 | the too-few-values error comes out exactly when more than two fields are 0, and then no pair is given, so no derivation runs |
| SlopeProperties.FallbackUnreachable | app.py:67-68 | the "Ungültige Kombination von Inputs" error is never the outcome |
| SlopeProperties.FirstGivenPairDecides | app.py:43-66 | the first pair in priority order with both fields given determines the outcome through its branch |
| SlopeProperties.OtherFieldsIgnored | app.py:43-66 | the two fields outside the deciding pair are ignored: clearing them gives the same outcome |
| SlopeProperties.DeriveReadsOnlyPair | app.py:43-66 | a branch's result depends only on the two fields of its pair |
| SlopeProperties.XAndYWin | app.py:43-46 | with x and y both given, the outcome keeps x and y and equals the outcome for x and y alone, whatever angle and slope are |
| SlopeProperties.KeepsDecidingPair | app.py:43-66 | a successful outcome carries the two fields of the deciding pair unchanged |
| SlopeProperties.DivisionByZeroIff | app.py:55-79 | the division error comes out exactly when branch 4 or 6 decides and tan(angle) is 0; the outcome has values exactly when at most two fields are 0 and that is not the case |
| SlopeProperties.SlopeConsistent | app.py:43-66 | every successful outcome has x != 0 and slope = y/x·100, in all six branches |
| SlopeProperties.AngleConsistent | app.py:43-66 | in branches 1, 3 and 5 angle = atan(y/x) in degrees; in branches 2 and 4 the given angle is kept and y/x = tan(angle); branch 6 keeps angle and slope |
| SlopeProperties.RiseZeroIff | app.py:47-50 | a successful outcome has y = 0 exactly when branch 2 decides with tan(angle) = 0, and slope = 0 exactly when y = 0 |
| SlopeProperties.RoundTripThroughXY | app.py:43-46 | solving a result's x and y alone gives the same slope, and gives the whole result back for branches 1, 3 and 5 |
| SlopeProperties.RoundTripWithInverse | app.py:46-58 | when atan undoes tan at the given angle, the round trip also gives back the results of branches 2 and 4 |
| SlopeProperties.RoundTripAngleSlope | app.py:63-66 | for an angle and slope that describe the same triangle, and atan undoing tan, solving branch 6's x and y alone gives the whole result back |
| SlopeProperties.AngleSlopeUnitRun | app.py:63-66 | when the given angle and slope agree (tan = slope/100), branch 6 yields the unit run x = 1 and y = tan(angle) |
| SlopeProperties.ResetThenSolve | app.py:18-40 | solving the reset form gives the "Bitte geben Sie mindestens zwei Werte ein." error |
| SlopeScenarios.TooFewValues | app.py:34-40 | an empty form, or one with one value, is refused |
| SlopeScenarios.RunAndRise | app.py:43-46 | x = 3, y = 4 gives slope 400/3 and angle atan(4/3) in degrees |
| SlopeScenarios.RunAndAngle | app.py:47-50 | x = 3 at 45° with tan(45°) = 1 gives y = 3 and slope 100 |
| SlopeScenarios.RiseAndSlope | app.py:59-62 | y = 4 at 50 % gives x = 8 |
| SlopeScenarios.AllFourGiven | app.py:43-46 | with all four fields given, the outcome is the one for x and y alone |
| SlopeScenarios.RiseAndFlatAngle | app.py:55-79 | y = 4 with a zero tangent (the exact-real tan(180°)) gives the division error instead of values |

## Left out

- The Viktor framework (parametrization, the form fields and the reset button, `DataView`, `DataResult`, `DataGroup`, `DataItem`, `SetParamsResult`): it only renders. The outcome datatype stands for the data group. The four labelled items become `Ok`, and the single "Fehler" item becomes `Err`.
- Floating point: numbers are exact reals. The model does not cover rounding, `inf`/`nan` near 90°, overflow or underflow. So the division error cases in Python are not the ones the model proves:
  - `math.tan(180 * math.pi / 180)` is about -1.22e-16, not 0. So the form (0, 4, 180, 0) shows values (x about -3.3e16), not an error.
  - `math.tan` returns 0.0 for a nonzero angle only when `angle * pi / 180` underflows to 0.
  - Branch 5 (app.py:61) raises `ZeroDivisionError` when `slope / 100` underflows to 0, for example slope = 5e-324.
  - Branch 4's second division (app.py:58) raises it when `x = y / tan` underflows to 0.
  - A tiny tangent in branch 4 can make x infinite.
- `math.tan`, `math.atan`, `math.pi`: these come in as an abstract parameter. The model states no numeric values such as 53.13°. It assumes only `pi > 0`.
- Slope.Message: the text of Python's float division error (`str(e)` at app.py:78) is not modelled. It is `None` here.
- Exceptions other than division by zero inside the `try` (app.py:42-79) do not occur over exact reals, so they are not modelled.

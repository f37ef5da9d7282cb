# HYDRO intake counter

A model of the intake counter on the hydration screen. The screen keeps
how much water has been drunk today, starting at 1.5 L, against a fixed
goal of 3.0 L. The add button adds 0.5 L. After each addition the sum is
rounded to one decimal: it is written with `toFixed(1)` and read back with
`parseFloat`. The progress ring shows `min(intake / goal * 100, 100)`. The
intake itself is never clamped.

Intake and goal are integer tenths of a litre: the goal is 30 and the
starting intake 15. An added amount is a real number of litres, since
`handleAddWater` takes any number. The button passes 0.5 L, which adds 5
tenths. `DecimalText` models the text round trip of
the update. `toFixed(1)` is modelled as a string. `parseFloat` is modelled
on the strings `toFixed(1)` can produce. `ParseToFixed1` proves that
reading back what was written gives exactly the rounded number of tenths.
`Intake` holds the percentage, the update as a function (`AddStep`), runs
of updates (`Replay`) and the class `App`. `App` has the screen's three
state cells: intake, theme and sidebar.

The main results are about rounding to one decimal. First, additions of
whole tenths stay exact through the rounding (`AddStepExact`,
`ReplayExact`). For example, 0.1 L added ten times gives exactly 1.0 L.
Second, the rounding removes error. An amount that is off from a whole
number of tenths by less than 0.05 L, either way, still adds exactly that
many tenths. That error is the kind a binary floating-point sum carries.
Over a run of such additions no error builds up (`AddStepAbsorbs`,
`ReplayAbsorbs`).

## Model

| member | source | states |
|---|---|---|
| `DecimalText.RoundHalfUp` | App.tsx:29 | the result is the integer nearest its argument; on a tie it is the larger one |
| `DecimalText.RoundTenths` | App.tsx:29 | the number of tenths `toFixed(1)` keeps: nearest tenth with ties up for non-negative input; a negative input is rounded as its magnitude, so ties move away from zero |
| `DecimalText.RoundTenthsUnique` | App.tsx:29 | that interval determines the rounded value uniquely |
| `DecimalText.RoundTenthsOfTenths` | App.tsx:29 | a value that is already a whole number of tenths is kept unchanged |
| `DecimalText.ToFixed1` | App.tsx:29 | the text ends in a point and one digit; it starts with a minus exactly when the number is negative |
| `DecimalText.ParseUnsignedFixed1` | App.tsx:29 | an unsigned one-decimal string is accepted exactly when it is digits, a point and one digit; the value is ten per whole unit plus the digit after the point |
| `DecimalText.ParseUnsignedOfFixed1` | App.tsx:29 | a whole number q written in decimal, a point and a digit d read back as exactly 10q + d tenths |
| `DecimalText.ParseFixed1` | App.tsx:29 | a string is accepted iff it is an unsigned one-decimal string, or a minus sign followed by one; the value is that string's tenths, negated after a minus sign; the empty string gives `None`, meaning outside the modelled strings |
| `DecimalText.ParseToFixed1` | App.tsx:29 | `parseFloat(x.toFixed(1))` gives back exactly the rounded tenths of `x` |
| `DecimalText.DigitsValueOfNatToDecimal` | App.tsx:29 | reading back the decimal digits of a whole number gives that number |
| `Intake.PercentageOf` | App.tsx:26 | the result is at most 100; it is exactly 100 iff intake >= goal; below the goal it equals intake / goal * 100 unclamped; it is non-negative for non-negative intake |
| `Intake.App.Percentage` | App.tsx:26 | the screen's percentage is at most 100, is exactly 100 iff the intake reaches the goal, and below the goal is intake / goal * 100 |
| `Intake.PercentageMonotone` | App.tsx:26 | more intake never gives a lower percentage |
| `Intake.AddStep` | App.tsx:29 | the updater `prev => parseFloat((prev + amount).toFixed(1))` gives a new intake within half a tenth of the exact sum |
| `Intake.Replay` | App.tsx:28-30 | successive `handleAddWater` calls end within half a tenth per call of the exact total |
| `Intake.AddStepExact` | App.tsx:28-30 | adding k tenths to n tenths gives exactly n + k |
| `Intake.AddStepNonDecreasing` | App.tsx:28-30 | a non-negative amount never lowers the intake |
| `Intake.AddStepIncreases` | App.tsx:28-30 | from a non-negative intake, a non-negative amount raises it iff the amount is at least 0.05 L |
| `Intake.ReplayExact` | App.tsx:28-30 | a run of additions of whole tenths ends at the exact sum: no drift |
| `Intake.AddStepAbsorbs` | App.tsx:29 | an amount within less than 0.05 L of k tenths adds exactly k tenths: the rounding removes the error |
| `Intake.ReplayAbsorbs` | App.tsx:28-30 | a run of additions, each within less than 0.05 L of a whole number of tenths, ends at the exact decimal sum |
| `Intake.ReplayNonDecreasing` | App.tsx:28-30 | a run of non-negative additions never lowers the intake |
| `Intake.ReachablePercentageInRange` | App.tsx:20-29 | every intake reachable from 1.5 L by non-negative additions is at least 1.5 L and shows 0..100 percent |
| `Intake.TenTenthsMakeALitre` | App.tsx:29 | 0.1 L added ten times to 0 gives exactly 1.0 L |
| `Intake.ButtonPresses` | App.tsx:20-30 | k presses from the start give 1.5 + 0.5k L exactly; the percentage is 100 iff k >= 3; from the fourth press the intake exceeds the goal |
| `Intake.App.constructor` | App.tsx:20-23 | intake 1.5 L, light theme, sidebar closed, percentage 50 |
| `Intake.App.AddWater` | App.tsx:28-30 | the new intake is the rounded sum; a non-negative amount never lowers intake or percentage; theme and sidebar are unchanged |
| `Intake.App.PressAddButton` | components/WaterControls.tsx:31 | one press adds exactly 5 tenths and changes nothing else |
| `Intake.App.OpenSidebar` | App.tsx:49 | the sidebar is open; intake and theme are unchanged |
| `Intake.App.CloseSidebar` | App.tsx:38 | the sidebar is closed; intake and theme are unchanged |
| `Intake.App.SetTheme` | App.tsx:21 | the theme is the chosen one; intake and sidebar are unchanged |

## Left out

- Binary floating point: intake, amount and goal are exact tenths and reals, not IEEE-754 doubles. The model shows that the intended decimal arithmetic does not drift. It does not reproduce binary rounding inside `toFixed`.
- `ToFixed1`: does not model the exponent form `toFixed` uses for magnitudes of 10^21 and above. An intake of that size cannot be reached by pressing a button.
- `ParseFixed1`: models `parseFloat` only on strings shaped like `toFixed(1)` output. Other strings give `None`, which means "outside the modelled strings", not NaN. `parseFloat` also reads strings with no point ("12"), with more than one decimal ("1.25"), with a leading point (".5") or with a plus sign ("+0.5"). It also reads leading blanks, exponents and trailing text. None of these are modelled, and the update never produces them.
- `ParseUnsignedFixed1`: accepts only digits, a point and exactly one digit. That is narrower than what `parseFloat` accepts for an unsigned number. It is all that `toFixed(1)` writes.
- The goal is the module constant `Goal` (App.tsx:23). The `HydrationState` record in types.ts is a declaration the screen never uses, so it is not modelled.
- `PercentageOf`: requires a positive goal. The goal is the constant 3.0, so the division by zero that would give Infinity or NaN is not modelled.
- React's state mechanics: the render cycle and the batching of `setCurrentIntake` updaters are not modelled. `App` applies each update at once.
- The percentage display rounding (`Math.round` in components/CircularProgress.tsx:164) and the SVG ring geometry are floating-point rendering.
- The `currentIntake.toFixed(1)` label in components/WaterControls.tsx:25 is display only.
- The weekly chart (mock data, App.tsx:11-17), the AI coach and its network call, sound synthesis and the static knowledge screen are UI or foreign I/O.
- The screen keeps no history across days and stores nothing, so there is no day reset or persistence to model.

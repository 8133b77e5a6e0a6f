# ONI rocket calculator — a Dafny model of the rocket-performance arithmetic

The web calculator for the game *Oxygen Not Included* gets its numbers from two
separate Python calculators. They use different constant tables and different
formulas, and this project models each one in its own module without merging
them:

- `EmbeddedCalculator` (`embedded_calculator.dfy`) is the Python program held
  in a template string in `src/utils/pythonCalculator.ts`. It covers the fuel,
  oxidizer, engine and component tables. `TotalWeight` is twice the fuel mass
  plus oxidizer tanks, engine, command capsule and components, with the tank
  count a ceiling over the per-fuel oxidizer ratio. `ViableDistance` is
  `(fuel/total)/efficiency * 10000`. `GenerateChartData` is the sweep of
  `generate_chart`: a loop over `range(100, 5001, 100)` that collects
  `max(0, distance)`. A missing dictionary key is `Err(KeyError(key))`.
  Dividing by a zero total weight is `Err(ZeroDivisionError)`; this can only
  happen with negative inputs.
- `PyScriptCalculator` (`pyscript_calculator.dfy`) is `public/main.py`. It
  covers the engine-mass lookup with its default and the fixed tank masses.
  `ViableDistance` is a chain of guards that return `0.0`.
  `CalculateRocketDistance` is the entry point: it lower-cases the names,
  decides whether there is an oxidizer tank, and has a special formula for
  steam. The oxidizer argument is an `Option<string>` because the entry point
  accepts `None`. When the helper is reached with `None` and a positive mass,
  `.lower()` raises, and this is modelled as `Err(AttributeError)`.
- `Wrappers` (`wrappers.dfy`) holds the `Option` and `Result` datatypes.

The source's floats are exact reals (2.33 is 233/100). Python's `math.ceil` is
`Ceil`, defined through `Floor`. Python's `round(x, 2)` is `Round2`: the
nearest multiple of 0.01 to the exact value, with ties going to the even
multiple. Dictionary keys are strings, so unknown names can be written down.
The component-quantity dictionary is the sequence of its `items()` in
iteration order. With that order, the key that raises is the first unknown
one.

## Model

| member | source | states |
|---|---|---|
| `EmbeddedCalculator.Ceil` | oni-rocket-calculator-web/src/utils/pythonCalculator.ts:52 | `math.ceil`: the result n satisfies n-1 < x <= n |
| `EmbeddedCalculator.Max0` | oni-rocket-calculator-web/src/utils/pythonCalculator.ts:151 | `max(0, d)` is non-negative, at least d, and equal to d or 0 |
| `EmbeddedCalculator.Range` | oni-rocket-calculator-web/src/utils/pythonCalculator.ts:145 | `range(start, stop, step)` with a positive step is empty iff stop <= start and otherwise starts at start; `RangeSpec` characterises it in full |
| `EmbeddedCalculator.RangeMemberForm` | oni-rocket-calculator-web/src/utils/pythonCalculator.ts:145 | every element of the range lies in [start, stop) and is a whole number of steps from start |
| `EmbeddedCalculator.RangeHasMember` | oni-rocket-calculator-web/src/utils/pythonCalculator.ts:145 | every value in [start, stop) that is a whole number of steps from start is in the range |
| `EmbeddedCalculator.RangeSpec` | oni-rocket-calculator-web/src/utils/pythonCalculator.ts:145 | `range(start, stop, step)` with a positive step: a non-empty range starts at start, every element lies in [start, stop), each is the previous plus step, one more step would reach stop, and a value is in it iff it lies in [start, stop) and is a whole number of steps from start |
| `EmbeddedCalculator.OxidizerTanks` | oni-rocket-calculator-web/src/utils/pythonCalculator.ts:50-53 | no tanks when no oxidizer is needed; otherwise the least n with n*2700 >= oxidizer needed |
| `EmbeddedCalculator.OxidizerTanksMonotone` | oni-rocket-calculator-web/src/utils/pythonCalculator.ts:52 | more oxidizer never needs fewer tanks |
| `EmbeddedCalculator.ComponentWeight` | oni-rocket-calculator-web/src/utils/pythonCalculator.ts:59 | the generator sum succeeds iff every key is in `COMPONENT_WEIGHTS`; otherwise it raises KeyError for the first unknown key in iteration order; it is >= 0 for non-negative quantities; an empty dict gives 0 |
| `EmbeddedCalculator.ComponentWeightMonotone` | oni-rocket-calculator-web/src/utils/pythonCalculator.ts:59 | raising any component quantities never lowers the component weight |
| `EmbeddedCalculator.TotalWeight` | oni-rocket-calculator-web/src/utils/pythonCalculator.ts:47-63 | an unknown fuel type raises KeyError(fuel type) before anything else; with a known fuel type it succeeds iff every component key is known, and otherwise fails with the component sum's KeyError; it never substitutes a default |
| `EmbeddedCalculator.TotalWeightBreakdown` | oni-rocket-calculator-web/src/utils/pythonCalculator.ts:48-61 | total = 2*fuel + 100*tanks + engine weight + 200 + component weight, where the tank count is the one characterised by `OxidizerTanks` |
| `EmbeddedCalculator.NoOxidizerTanks` | oni-rocket-calculator-web/src/utils/pythonCalculator.ts:48-61 | for steam, or for zero fuel, no oxidizer tank weight is added |
| `EmbeddedCalculator.TotalWeightLowerBound` | oni-rocket-calculator-web/src/utils/pythonCalculator.ts:55-61 | with fuel >= 0 and quantities >= 0 the total is at least engine + capsule weight, which is > 0 |
| `EmbeddedCalculator.ScaledTanksMonotone` | oni-rocket-calculator-web/src/utils/pythonCalculator.ts:50-52 | with a non-negative oxidizer ratio, more fuel never needs fewer oxidizer tanks |
| `EmbeddedCalculator.TotalWeightMonotoneInFuel` | oni-rocket-calculator-web/src/utils/pythonCalculator.ts:48-53 | for fuel >= 0, the total weight does not decrease as fuel grows |
| `EmbeddedCalculator.TotalWeightMonotoneInComponents` | oni-rocket-calculator-web/src/utils/pythonCalculator.ts:59-61 | the total weight does not decrease as component quantities grow |
| `EmbeddedCalculator.ViableDistance` | oni-rocket-calculator-web/src/utils/pythonCalculator.ts:65-72 | an unknown fuel raises KeyError and a zero total raises ZeroDivisionError, and these are the only failures; otherwise the distance is fuel*10000/(total*efficiency); it is 0 for zero fuel and >= 0 for fuel >= 0 and total > 0 |
| `EmbeddedCalculator.ViableDistanceIgnoresOxidizer` | oni-rocket-calculator-web/src/utils/pythonCalculator.ts:65-72 | the distance does not depend on the oxidizer type |
| `EmbeddedCalculator.DistanceForFuel` | oni-rocket-calculator-web/src/utils/pythonCalculator.ts:149-150 | one sweep sample: an unknown fuel type fails with KeyError(fuel type) |
| `EmbeddedCalculator.DistanceForFuelDefined` | oni-rocket-calculator-web/src/utils/pythonCalculator.ts:149-150 | with known keys, fuel >= 0 and non-negative quantities, a sample never fails, its distance is >= 0, and it is 0 at zero fuel |
| `EmbeddedCalculator.Collect` | oni-rocket-calculator-web/src/utils/pythonCalculator.ts:148-151 | the raise-or-append loop over computed samples: on success one non-negative distance per sample; a failure is the exception of some sample; `CollectSpec` characterises it in full |
| `EmbeddedCalculator.CollectSpec` | oni-rocket-calculator-web/src/utils/pythonCalculator.ts:148-151 | the loop's collection step succeeds iff every sample does; entry i is then max(0, sample i); a failure is the exception of the first failing sample |
| `EmbeddedCalculator.CollectStep` | oni-rocket-calculator-web/src/utils/pythonCalculator.ts:148-151 | one loop iteration: a failing sample ends the run with its exception, a successful one appends its clamped distance |
| `EmbeddedCalculator.CollectPrefixFails` | oni-rocket-calculator-web/src/utils/pythonCalculator.ts:148-151 | once the samples so far have raised, the whole loop raises the same exception |
| `EmbeddedCalculator.Samples` | oni-rocket-calculator-web/src/utils/pythonCalculator.ts:148-150 | one sample per fuel mass; with an unknown fuel type every sample raises KeyError(fuel type) |
| `EmbeddedCalculator.Sweep` | oni-rocket-calculator-web/src/utils/pythonCalculator.ts:145-151 | the data part of `generate_chart`: on success 50 fuel values and 50 non-negative distances; an unknown fuel type raises KeyError(fuel type); `SweepSpec` characterises it in full |
| `EmbeddedCalculator.SweepSpec` | oni-rocket-calculator-web/src/utils/pythonCalculator.ts:145-151 | the sweep succeeds iff all 50 samples do; on success it has 50 fuel values 100*(i+1) in increasing order and 50 distances, entry i being max(0, distance at 100*(i+1)), all >= 0; otherwise it returns the error of the first failing sample |
| `EmbeddedCalculator.SweepDefined` | oni-rocket-calculator-web/src/utils/pythonCalculator.ts:145-151 | with a known fuel type, known component keys and non-negative quantities the sweep always succeeds |
| `EmbeddedCalculator.GenerateChartData` | oni-rocket-calculator-web/src/utils/pythonCalculator.ts:145-151 | the loop returns exactly the sweep that `SweepSpec` characterises: the fuel range with the clamped distances, or the first sample's exception |
| `PyScriptCalculator.LowerChar` | oni-rocket-calculator-web/public/main.py:33-34 | lower-casing maps 'A'..'Z' to 'a'..'z', leaves every other character alone, and leaves no upper-case ASCII letter |
| `PyScriptCalculator.Lower` | oni-rocket-calculator-web/public/main.py:33-34 | `str.lower()` keeps the length and lower-cases each character |
| `PyScriptCalculator.LowerIdempotent` | oni-rocket-calculator-web/public/main.py:23 | lower-casing a name that is already lower-case changes nothing (the engine name is lowered at line 80 and again at line 23) |
| `PyScriptCalculator.Round2` | oni-rocket-calculator-web/public/main.py:57 | `round(x, 2)`: a multiple of 0.01 within 0.005 of x; exact ties go to the even multiple; a non-negative x gives a non-negative result |
| `PyScriptCalculator.Round2Monotone` | oni-rocket-calculator-web/public/main.py:57 | rounding preserves <= |
| `PyScriptCalculator.EngineMass` | oni-rocket-calculator-web/public/main.py:12-23 | the engine mass is 200 for every engine name, known or unknown |
| `PyScriptCalculator.TotalWeight` | oni-rocket-calculator-web/public/main.py:22-27 | total = 300 + fuel + extra, plus 100 exactly when there is an oxidizer tank, whatever the engine name |
| `PyScriptCalculator.UnroundedDistance` | oni-rocket-calculator-web/public/main.py:56 | for known fuel and oxidizer and positive mass, the unrounded distance is positive |
| `PyScriptCalculator.UnroundedDistanceDecreasing` | oni-rocket-calculator-web/public/main.py:56 | for known fuel and oxidizer, the unrounded distance is strictly decreasing in total mass |
| `PyScriptCalculator.DistanceForKeys` | oni-rocket-calculator-web/public/main.py:39-57 | on lower-cased names and a positive mass: steam, an unknown fuel or an unknown oxidizer gives 0.0, known names give `Round2(fuel_eff*ox_eff*100/mass)`, and the result is >= 0 |
| `PyScriptCalculator.ViableDistance` | oni-rocket-calculator-web/public/main.py:29-57 | mass <= 0 gives 0.0; it fails iff the mass is positive and the oxidizer is None; steam, an unknown fuel or an unknown oxidizer gives 0.0; otherwise it is `Round2(fuel_eff*ox_eff*100/mass)`; every result is >= 0 |
| `PyScriptCalculator.NormalizedOxidizer` | oni-rocket-calculator-web/public/main.py:71 | None and "" become "none"; any other name is lower-cased |
| `PyScriptCalculator.HasOxidizerTank` | oni-rocket-calculator-web/public/main.py:73-77 | there is a tank iff the lower-cased fuel is not "steam" and the oxidizer is not None, not empty, and not "none" after lower-casing |
| `PyScriptCalculator.RocketMass` | oni-rocket-calculator-web/public/main.py:80 | the entry point's mass is 300 + fuel + extra, plus 100 exactly when `HasOxidizerTank` holds |
| `PyScriptCalculator.CalculateRocketDistance` | oni-rocket-calculator-web/public/main.py:61-94 | mass <= 0 gives 0.0; it fails iff the fuel is not steam, the oxidizer is None and 300+fuel+extra > 0; steam gives `Round2(240*fuel/mass)` with mass 300+fuel+extra; known non-steam names give `Round2(fuel_eff*ox_eff*100/mass)` with mass 400+fuel+extra; unknown names give 0.0; with fuel >= 0 and extra >= 0 the result is >= 0 |
| `PyScriptCalculator.ViableDistanceCaseInsensitive` | oni-rocket-calculator-web/public/main.py:33-34 | the helper's result depends on the fuel and oxidizer names only through their lower-cased forms |
| `PyScriptCalculator.CaseInsensitive` | oni-rocket-calculator-web/public/main.py:70-80 | fuel and oxidizer names that differ only in ASCII case give equal results, and the engine name never affects the result |
| `PyScriptCalculator.SteamIgnoresOxidizer` | oni-rocket-calculator-web/public/main.py:86-90 | for steam fuel, the oxidizer argument does not affect the result |
| `PyScriptCalculator.MassOnlyThroughTotal` | oni-rocket-calculator-web/public/main.py:80-94 | for non-steam fuel, fuel mass and extra mass affect the result only through their sum, i.e. through the total mass |
| `PyScriptCalculator.DistanceNonIncreasingInMass` | oni-rocket-calculator-web/public/main.py:56-57 | for known non-steam fuel and oxidizer, a heavier rocket never gets a larger rounded distance |

## Left out

- The user interface of `pythonCalculator.ts`: `update_results` reads the form, writes HTML, and recomputes a breakdown that duplicates `TotalWeight`. `setup_listeners` and `initialize` wire up events. None of this is computation.
- The `createChart` call and the chart-error HTML in `generate_chart`. These are a foreign call and DOM output. `GenerateChartData` stops where they begin, and returns the exception instead of logging it.
- The warning `print` calls in `main.py` (lines 48, 51 and 96). They are console output, and the model does not show them.
- `chartUtils.ts`, `usePyodide.ts`, the React pages and their tests, and the root `main.py` (tables and an `input()` call only). These are UI, asynchronous interpreter loading, or have no function the core calls.
- Parsing numbers out of form fields (`int(... or 0)`, `parseInt`). This is input plumbing. In the model, quantities are already integers and masses are already reals.
- PyScriptCalculator.Round2: this models rounding of the exact value. Python rounds the binary double. The two disagree only where the double lies just on the other side of a tie.
- EmbeddedCalculator.OxidizerTanks: this uses exact reals. At exact tank-capacity boundaries, double arithmetic could give a different ceiling.
- PyScriptCalculator.Lower: only ASCII letters are lower-cased. Python's `str.lower()` also folds non-ASCII letters, some of them (the Kelvin sign) into ASCII letters. Those names are outside this model.
- EmbeddedCalculator.ComponentWeight: quantities are integers. A non-numeric quantity would raise a Python TypeError, and the model does not cover that.

# Emotional wellbeing centre — a Dafny model of its core

The application serves three guided exercises. Anxiety (*ansiedad*) is 4-4 breathing. Anger (*ira*) is 4-7-8 breathing. Stress (*estrés*) is watching waves calm down. A main page lets the user pick one.

Its core has three pure parts. This project models each one and proves properties of it:

- **Colour and easing helpers** (`utils.js`), in module `Utils` (`utils.dfy`):
  - linear interpolation of numbers and of RGB colours;
  - sampling of a multi-stop colour ramp at a progress value;
  - the three cubic easing curves.

  JavaScript numbers are exact reals here. `Math.round(x)` is `(x + 0.5).Floor`. `Math.pow(x, 3)` is `Pow(x, 3)` over a natural exponent. `getColorFromArray` raises a `TypeError` when its lower stop does not exist; here that case is `None`.
- **The configuration tables** (`parameters.py`), in module `Parameters` (`parameters.dfy`):
  - each exercise table is an `Exercise` value. Its `colors` and `messages` dictionaries keep their keys. The `*_time` and `duration` entries go into a `timings` map under their own keys. `cycles` becomes an optional field. The stress wave settings (`wave_count`, `initial_*`, `final_*`) become a `Waves` record, e.g. `waves.waveCount` and `waves.chaos.initial`;
  - the shared timings are a `General`;
  - the main-page colours are a `UiColors`.

  The lemmas state the well-formedness the comments promise and connect the ramps to `ColorFromArray`.
- **The routes** (`app.py`), in module `App` (`app.dfy`). `render_template` is modelled as the `Page` record of what the template receives. `Dispatch` is the total lookup from a request path and its `show` parameter to that page.

`wrappers.dfy` holds the `Option` type.

Two facts about the tables are proved as lemmas:

- **Within one anger cycle, the inhale ramp and the hold ramp do not join.** The inhale ramp ends on red-400 (248, 113, 113). The hold ramp starts on red-500 (239, 68, 68), which the inhale ramp passes at four fifths of its way. `IraInhaleToHoldJump` proves this, even though the hold ramp's first entry is commented as continuing the inhale ramp. Two other phase changes join exactly: anxiety's inhale to exhale and anger's hold to exhale. From one cycle to the next the ramps never join, in either breathing exercise (`CycleRestartJumps`).
- **The fourth orb's colour is off by 12 in blue.** It is `[249, 115, 34]` and is commented as orange-500. The ramps spell orange-500 as (249, 115, 22). `FourthOrbIsNotOrange500` states the difference. The model keeps the value as written.

## Model

| member | source | states |
|---|---|---|
| Utils.Lerp | utils.js:57-59 | weight 0 gives `a` and weight 1 gives `b` |
| Utils.LerpBetween | utils.js:57-59 | for a weight in [0, 1] the result lies between `a` and `b`, whichever is larger |
| Utils.LerpExamples | utils.js:52-55 | the documented examples: lerp(0,100,0.5) = 50, lerp(0,100,0.25) = 25, lerp(10,20,1) = 20 |
| Utils.Round | utils.js:79-81 | `Math.round` gives the one integer in (x - 1/2, x + 1/2], so halves round up |
| Utils.RoundInt | utils.js:79-81 | rounding an integer gives that integer |
| Utils.LerpColor | utils.js:77-83 | weight 0 gives the first colour and weight 1 the second; each channel is within one half of the exact interpolation of its two channels; for a weight in [0, 1] each channel lies between the two colours' channels, so two byte colours give a byte colour |
| Utils.LerpColorSame | utils.js:77-83 | interpolating a colour with itself gives that colour at every weight |
| Utils.LerpColorExample | utils.js:72-75 | red to blue at 0.5 gives (128, 0, 128), with 127.5 rounded up |
| Utils.Locate | utils.js:107-111 | the weight `idx - lo` is in [0, 1); when `lo` is an index of the array, `lo <= hi <= lo + 1` and `hi` is an index too; `lo` is an index exactly when `0 <= progress * (n - 1) < n` |
| Utils.LocateInRange | utils.js:107-111 | for a non-empty array and progress in [0, 1], `0 <= lo <= n - 1` |
| Utils.LocateIndex | utils.js:107-111 | `lo + weight` is the fractional index `progress * (n - 1)` |
| Utils.ColorFromArray | utils.js:105-115 | a colour is produced exactly when `arr[lo]` exists, and otherwise there is none (the TypeError); a colour sampled from byte colours is a byte colour; progress 0 gives the first stop and progress 1 the last |
| Utils.ColorFromArrayDefined | utils.js:105-115 | every progress in [0, 1] gives a colour from a non-empty array |
| Utils.ColorFromArrayBetween | utils.js:105-115 | the stops `lo` and `hi` a sampled colour comes from exist, and each of its channels lies between theirs |
| Utils.ColorFromArraySegment | utils.js:105-115 | the sample interpolates: a progress a fraction `w` in [0, 1) of the way from stop `k` to stop `k + 1` gives `lerpColor` of those two stops at weight `w` |
| Utils.ColorFromArrayAtStop | utils.js:88-90 | each entry is an exact stop: progress k/(n - 1) gives `arr[k]` |
| Utils.ColorFromArrayExample | utils.js:96-103 | the documented example: red-yellow-green at 0.25 gives orange (255, 128, 0) and at 0.75 lime (128, 255, 0) |
| Utils.Pow | utils.js:145 | a power of a non-negative base is non-negative, at most 1 for a base in [0, 1], 0 for base 0 and 1 for base 1 |
| Utils.PowStep | utils.js:145 | one more factor keeps a power non-negative, and within [0, 1] for a base and a power in [0, 1] |
| Utils.PowCube | utils.js:145 | the third power is `x * x * x` |
| Utils.PowMonotone | utils.js:158 | on non-negative bases, a larger base gives a power that is at least as large |
| Utils.EaseInOutCubic | utils.js:137-146 | maps 0 to 0, 0.5 to 0.5 and 1 to 1, and [0, 1] into [0, 1]; below 0.5 the result is below 0.5, and from 0.5 on it is at least 0.5 |
| Utils.EaseOutCubic | utils.js:157-159 | maps 0 to 0 and 1 to 1, and [0, 1] into [0, 1] |
| Utils.EaseInCubic | utils.js:170-172 | maps 0 to 0 and 1 to 1, and [0, 1] into [0, 1] |
| Utils.EaseInOutCubicHalves | utils.js:142-146 | the first half is ease-in compressed into [0, 1/2], and the second half is ease-out compressed into [1/2, 1] |
| Utils.EaseOutIsReversedEaseIn | utils.js:157-172 | ease-out at t equals 1 minus ease-in at 1 - t |
| Utils.EaseInOutCubicSymmetric | utils.js:142-146 | the curve is point-symmetric about (1/2, 1/2) |
| Utils.EasingMonotone | utils.js:142-172 | all three curves are non-decreasing on [0, 1] |
| Utils.EaseInBelow | utils.js:162-172 | ease-in starts slowly: for t in (0, 1) it is strictly below t |
| Utils.EaseOutAbove | utils.js:149-159 | ease-out ends slowly: for t in (0, 1) it is strictly above t |
| Utils.EaseInOutShape | utils.js:126-146 | ease-in-out is strictly below t on (0, 1/2) and strictly above t on (1/2, 1): slow at both ends |
| Parameters.AnsiedadInhale | parameters.py:49-56 | the anxiety inhale ramp, stop for stop |
| Parameters.AnsiedadExhale | parameters.py:59-66 | the anxiety exhale ramp, stop for stop |
| Parameters.IraRed | parameters.py:102-109 | the anger inhale ramp (`red`), stop for stop |
| Parameters.IraRedToYellow | parameters.py:112-122 | the anger hold ramp (`red_to_yellow`), stop for stop |
| Parameters.IraYellowToViolet | parameters.py:125-137 | the anger exhale ramp (`yellow_to_violet`), stop for stop |
| Parameters.EstresChaos | parameters.py:184-189 | the stress `chaos` ramp, stop for stop |
| Parameters.EstresCalm | parameters.py:191-196 | the stress `calm` ramp, stop for stop |
| Parameters.Ansiedad | parameters.py:37-76 | the ANSIEDAD table, value for value |
| Parameters.Ira | parameters.py:90-148 | the IRA table, value for value |
| Parameters.Estres | parameters.py:162-207 | the ESTRES table, value for value |
| Parameters.GeneralTimings | parameters.py:215-219 | the GENERAL table, value for value |
| Parameters.Ui | parameters.py:232-302 | the UI_COLORS table, value for value |
| Parameters.RampsAreValid | parameters.py:46-196 | every ramp of every exercise has at least two stops, and each channel is a byte |
| Parameters.ExercisesWellFormed | parameters.py:37-207 | each exercise table has valid ramps, positive timings, a positive cycle count where it has one, and `question` and `success` messages |
| Parameters.SampleExerciseRamp | parameters.py:46-196 | sampling any ramp of any exercise at any progress in [0, 1] gives a byte colour |
| Parameters.AnsiedadPhasesJoin | parameters.py:55-60 | the anxiety exhale ramp starts on the colour its inhale ramp ends on |
| Parameters.IraHoldJoinsExhale | parameters.py:121-126 | the anger exhale ramp starts on the colour its hold ramp ends on |
| Parameters.IraInhaleToHoldJump | parameters.py:107-113 | the anger hold ramp starts at the colour the inhale ramp reaches at 4/5 of the way, not at its end |
| Parameters.CycleRestartJumps | parameters.py:49-137 | from one cycle to the next the ramps do not join: anxiety's exhale end differs from its inhale start, and anger's exhale end from its inhale start |
| Parameters.EstresCalmsDown | parameters.py:167-179 | chaos, speed and amplitude of the stress waves all decrease; chaos stays within [0, 1]; there are waves |
| Parameters.GeneralPositive | parameters.py:215-219 | the shared fade, message and welcome durations are positive |
| Parameters.OnlyIraHolds | parameters.py:90-147 | among the three exercises, only anger has a `hold` message and a `hold_time` |
| Parameters.OrbsWellFormed | parameters.py:274-301 | there are four orbs; each lies on the canvas, has a radius in (0, 1], three byte channels and a positive speed |
| Parameters.FourthOrbIsNotOrange500 | parameters.py:296-300 | the fourth orb's colour is the ramps' orange-500 with blue raised by 12 |
| Parameters.DigitValue | parameters.py:20 | a character has a value exactly when it is a lower-case hex digit, and the value is in 0..15 |
| Parameters.Digit | parameters.py:20 | the digit for k in 0..15 reads back as k |
| Parameters.HexByte | parameters.py:20 | two hex digits give a byte, and anything else gives none |
| Parameters.HexToRgb | parameters.py:20 | a string names a colour exactly when it is `#rrggbb`, and that colour has byte channels |
| Parameters.RgbToHex | parameters.py:20 | a byte colour is spelled as a well-formed `#rrggbb` |
| Parameters.HexRoundTrip | parameters.py:20 | reading back the `#rrggbb` spelling of a byte colour gives that colour |
| Parameters.UiHexWellFormed | parameters.py:236-269 | every theme and card colour of the main page is a well-formed `#rrggbb` |
| Parameters.UiMatchesExercises | parameters.py:239-269 | the card colours name the exercise colours they are commented as: sky-500, red-500, orange-500, and the violet-400 accent |
| App.Routes | app.py:34-99 | the four page routes the handlers are registered under: `/` and the three `/select/` paths |
| App.Index | app.py:53-55 | renders `index.html` with the UI colours unchanged; the welcome screen shows exactly when `show` is absent or is `welcome` |
| App.Dispatch | app.py:34-117 | a page is produced exactly for the four page routes; `/` is the index page; an exercise page receives the shared timings and a well-formed table |
| App.IndexWelcome | app.py:53-54 | with no `show` or with `welcome` the welcome screen shows; with `main` it does not |
| App.SelectRoutes | app.py:58-117 | `/select/<name>` produces a page for exactly `ansiedad`, `ira` and `estres`; each renders `<name>.html` with its own table and the shared timings |
| App.SelectIsCaseSensitive | app.py:58-99 | `/select/Ansiedad` and `/select/IRA` are not routes |
| App.ExercisePagesAnimate | app.py:58-117 | every ramp of the table an exercise page receives gives a byte colour at every progress in [0, 1] |

## Left out

- Numbers are exact reals, so IEEE-754 rounding is not modelled. An interpolated channel that lands a rounding error below a half may round differently in JavaScript. NaN and infinite inputs are not modelled.
- Utils.Pow: covers `Math.pow` only for natural exponents, which is the only use in the modelled code.
- Utils.ColorFromArray: the `TypeError` JavaScript raises for a missing lower stop is the `None` result. A caller's handling of that exception is not modelled.
- The canvas helpers `setupCanvas`, `drawRadialGradient` and `updateCircleStyle` in `utils.js` are left out. They are DOM and canvas mutation, window listeners, clock-driven animation and CSS string building.
- `script.js` (page timers, DOM updates, random particles and the emotion-selection stub) is not part of this model.
- The HTML templates and the Perlin-noise wave rendering are not part of this model. Neither is how templates use the tables.
- In `app.py`, three things are left out:
  - `serve_styles` and Flask's static-file fallback: `Dispatch` returns `None` for every path that is not one of the four page routes;
  - the console banner and `app.run`;
  - Flask request parsing and Jinja rendering: `render_template` is the `Page` record.
- Parameters.HexToRgb: accepts lower-case digits only, as the tables write them. CSS would also accept upper case and short forms.
- Python's distinction between `int` and `float` in the tables is not kept: every timing and decay value is a real.

# Stable Z home, modelled in Dafny

`STABLE_Z_HOME` is a Klipper G-code command (`stable_z_home.py`). It homes
the Z axis again and again until the Z stepper position stops moving. Each
attempt does three things:

- runs an optional pre-home G-code script;
- issues `G28 Z`;
- reads the homing stepper's position.

Readings go into a list that is cut back to the last `WINDOW` entries after
every append. Once the list is full, its range (`max - min`) is compared with
`RETRY_TOLERANCE` plus a fixed slack of `1e-4`. The command succeeds on the
first attempt whose full window is within that bound. It fails with "Max
retries exceeded" once `RETRIES` attempts have been used up. Before the first
attempt, three guards run:

- the toolhead must exist;
- X and Y must be homed;
- a kinematic stepper must be named exactly as the configured homing stepper.

At connect time, the steppers whose name starts with `stepper_z` become the
candidate homing steppers.

The project has two modules:

- `ZWindow` (`ZWindow.dfy`) holds the pure window arithmetic: `Max`, `Min`,
  `Range`, `LastK` (Python's `s[-k:]`), `WindowRange` and `Converged`.
- `StableZHome` (`StableZHome.dfy`) holds the command itself.
  - The outside world is an environment `env: seq<Attempt>`. Each attempt
    says whether the pre-home script ran, whether `G28 Z` completed, and
    which position was read back.
  - The command's behaviour is specified by the functions `Command`,
    `RetryLoop`/`LoopFrom`, `WindowAfter`, `RangeAfter`/`Ranges` and
    `Reports`. Lemmas characterise each way the command can end.
  - The command and its loops are modelled as methods and proved against
    those functions:
    - `StableZHomeCmd` runs the guards;
    - `FindStepper` is the `for ... break` stepper lookup;
    - `HomeUntilStable` is the `while` retry loop, with `HomeOnce` as one
      pass of its body;
    - `StepperChoices` is the `stepper_z` filter of `handle_connect`.

Every way the command can end is an `Outcome` value:

- `Succeeded(n)`;
- `MaxRetriesExceeded`;
- `PreHomeFailed(n)`;
- `HomingFailed(n)`, the error of `G28 Z`, which the source does not catch
  and so ends the command;
- `PrinterNotReady`, `NotHomedXY` and `NoStepper`.

Two boundary cases of the code:

- With `RETRIES=0` the loop body never runs. The command fails at once with
  "Max retries exceeded" (`ZeroRetriesExceedsAtOnce`) and issues no `G28 Z`
  (`StableZHomeCmd`).
- Readings 0.10, 0.101, 0.102, 0.099 with window 3 and tolerance 0.01
  succeed on attempt 3, because the first full window [0.10, 0.101, 0.102]
  already spreads 0.002 (`SettledReadingsSucceedAtFirstFullWindow`).

## Model

| member | source | states |
|---|---|---|
| ZWindow.Max | stable_z_home.py:83 | Python's `max` of the list: an element of it (`ArgMax` returns an index below the length) no smaller than any reading, by `ArgMaxIsLargest` |
| ZWindow.Min | stable_z_home.py:83 | Python's `min` of the list: an element of it (`ArgMin` returns an index below the length) no larger than any reading, by `ArgMinIsSmallest` |
| ZWindow.Range | stable_z_home.py:83 | `max(mcu_z_readings) - min(mcu_z_readings)`; its meaning, the least bound on the difference of two readings, is stated by `RangeIsSpread` and its independence of order by `RangeOfSameContents` |
| ZWindow.Converged | stable_z_home.py:90 | the window has converged iff its range is defined and at most the tolerance plus the `1e-4` slack added at line 68; the loop's use of it is stated by `AttemptOutcome` and `RetryLoopSucceeds` |
| ZWindow.ArgMaxIsLargest | stable_z_home.py:83 | the index `max` picks holds a reading no smaller than any other in the list |
| ZWindow.ArgMinIsSmallest | stable_z_home.py:83 | the index `min` picks holds a reading no larger than any other in the list |
| ZWindow.RangeIsSpread | stable_z_home.py:83 | `max - min` is never negative, bounds the difference of every two readings, and is attained by some pair |
| ZWindow.RangeOfSameContents | stable_z_home.py:83 | the range depends only on the multiset of readings, not their order |
| ZWindow.LastK | stable_z_home.py:81 | `s[-k:]` keeps `min(len(s), k)` readings |
| ZWindow.WindowRange | stable_z_home.py:82-85 | the window range is defined exactly when the list holds `window` readings |
| StableZHome.IsZStepperName | stable_z_home.py:35 | a stepper is a candidate iff its name starts with `stepper_z`; the filter built from it is stated by `StepperChoices` |
| StableZHome.XYHomed | stable_z_home.py:52 | X and Y count as homed iff both letters occur in `homed_axes`; the guard built from it is stated by `Command` |
| StableZHome.WindowAfter | stable_z_home.py:80-81 | after `n` attempts the list holds `min(n, window)` readings, never more than `window` |
| StableZHome.WindowAfterHoldsLatest | stable_z_home.py:80-81 | the list holds exactly the positions of the most recent attempts, in attempt order |
| StableZHome.RangeAfter | stable_z_home.py:82-85 | the range after attempt `n` is undefined exactly while `n < window` |
| StableZHome.WindowRangeIsRangeAfter | stable_z_home.py:80-85 | the range computed from the append-and-cut list equals the spread of the positions of the last `window` attempts |
| StableZHome.RangesAt | stable_z_home.py:82-85 | entry `i` of the per-attempt ranges is the range after attempt `i + 1`, undefined exactly before a full window |
| StableZHome.Ranges | stable_z_home.py:82-85 | one window range per attempt, entry `i` being the range attempt `i + 1` reports (`RangesAt`) |
| StableZHome.RangeOfNextReading | stable_z_home.py:78-85 | appending attempt `n`'s reading to the list left by attempt `n - 1` and cutting it back yields the list and range of attempt `n` |
| StableZHome.Reports | stable_z_home.py:87-88 | one status line per attempt reported so far |
| StableZHome.ReportsAt | stable_z_home.py:87-88 | status line `i` names retry `i + 1`, the homing stepper, the position read and the window range after that attempt |
| StableZHome.AttemptOutcome | stable_z_home.py:70-92 | one attempt ends the command with "Pre-home Gcode failed" iff its script fails, with the `G28 Z` error iff homing fails after the script ran, with success iff both ran and the window range is within tolerance plus slack, and goes on otherwise |
| StableZHome.LoopFrom | stable_z_home.py:66-97 | the loop ends with "Max retries exceeded" or with the verdict of an attempt numbered between the current counter and `max_retries` |
| StableZHome.Verdict | stable_z_home.py:70-92 | the terminal outcome of attempt `i + 1`, given its window range, as `AttemptOutcome` states it |
| StableZHome.RetryLoop | stable_z_home.py:66-97 | the loop from `retries = 1`: "Max retries exceeded" or the verdict of an attempt numbered 1 to `max_retries`; how it ends is characterised by `RetryLoopStopsAtFirstVerdict`, `RetryLoopSucceeds`, `RetryLoopExhausts`, `RetryLoopPreHomeFails` and `RetryLoopHomingFails` |
| StableZHome.LoopFromStopsAt | stable_z_home.py:69-94 | if attempt `n` is the first with a verdict, the loop returns that verdict |
| StableZHome.LoopFromExhausts | stable_z_home.py:69-97 | if no remaining attempt has a verdict, the loop fails with "Max retries exceeded" |
| StableZHome.LoopFromFirstVerdict | stable_z_home.py:69-94 | if some remaining attempt has a verdict, the loop returns the verdict of the first one |
| StableZHome.RetryLoopStopsAtFirstVerdict | stable_z_home.py:66-97 | the loop fails with "Max retries exceeded" iff none of the first `max_retries` attempts has a verdict; otherwise it returns the verdict of the first that has one |
| StableZHome.RetryLoopSucceeds | stable_z_home.py:66-97 | success on attempt `n` iff `1 <= n <= max_retries`, every attempt up to `n` ran, attempt `n` converged and no earlier one did |
| StableZHome.RetryLoopExhausts | stable_z_home.py:66-97 | "Max retries exceeded" iff all `max_retries` attempts ran and none converged |
| StableZHome.RetryLoopPreHomeFails | stable_z_home.py:69-74 | "Pre-home Gcode failed" on attempt `n` iff the script fails there and every earlier attempt ran without converging |
| StableZHome.RetryLoopHomingFails | stable_z_home.py:69-76 | the `G28 Z` error on attempt `n` iff the script ran there, homing failed, and every earlier attempt ran without converging |
| StableZHome.Command | stable_z_home.py:44-62 | "Printer not ready" iff no toolhead; "Must home X and Y axes first" iff the toolhead exists and X or Y is not homed; "No Z steppers found" iff those pass and no stepper has the homing stepper's name |
| StableZHome.SucceedsAtFirstConvergence | stable_z_home.py:44-97 | the command succeeds on attempt `n` iff the guards pass and attempt `n` is the first, within the budget, whose full window is within tolerance, all earlier attempts having run |
| StableZHome.ExhaustsIffNeverConverges | stable_z_home.py:44-97 | the command fails with "Max retries exceeded" iff the guards pass and every one of the `max_retries` attempts runs without converging |
| StableZHome.NoSuccessBeforeFullWindow | stable_z_home.py:82-92 | success never comes before attempt `window` nor after attempt `max_retries` |
| StableZHome.ZeroRetriesExceedsAtOnce | stable_z_home.py:67-97 | with `RETRIES=0` and the guards passing, the command fails with "Max retries exceeded" |
| StableZHome.FindStepper | stable_z_home.py:55-62 | the lookup finds nothing iff no stepper has the name; otherwise it returns the first stepper with that name |
| StableZHome.StepperChoices | stable_z_home.py:32-36 | the candidates are exactly the steppers whose name starts with `stepper_z`, each mapped to itself |
| StableZHome.StableZHomeCmd | stable_z_home.py:39-97 | the command ends as `Command` says; it issues at most `max_retries` `G28 Z` (exactly `max_retries` when retries run out, none when a guard fails, otherwise one per attempt whose pre-home script ran, so none for an attempt whose script failed); its status lines are those of the attempts that read a position |
| StableZHome.HomeUntilStable | stable_z_home.py:66-97 | the retry loop ends as `RetryLoop` says, with the same `G28 Z` count and status lines |
| StableZHome.HomeOnce | stable_z_home.py:70-92 | one attempt yields that attempt's verdict, issues `G28 Z` iff the script ran, and appends a reading and a status line only when both ran |
| StableZHome.DriftingReadingsKeepLastThree | stable_z_home.py:80-81 | readings 0.50, 0.03, 0.02, 0.01 with window 3 leave [0.03, 0.02, 0.01] |
| StableZHome.DriftingReadingsExhaust | stable_z_home.py:66-97 | with those readings the last window spreads 0.02, and four retries at tolerance 0.01 are exhausted |
| StableZHome.SettledReadingsSucceedAtFirstFullWindow | stable_z_home.py:66-92 | readings 0.10, 0.101, 0.102, 0.099 with window 3 and tolerance 0.01 succeed on attempt 3 |

## Left out

- Klipper plumbing is not modelled. This covers printer and object lookup,
  command and event registration, the reactor clock and `load_config`
  (stable_z_home.py:16-28, 47, 50, 100-101). The toolhead lookup and the
  homed-axes query appear only as their results, `toolheadReady` and
  `homedAxes`.
- The pre-home script and `G28 Z` are physical actions. Template rendering
  and `run_script_from_command` are not modelled. Each attempt's
  `preHomeOk`/`homeOk` flag says whether the action completed.
- The stepper position comes from the stepper's kinematics
  (stable_z_home.py:78-79). It is an input per attempt, `Attempt.position`.
  The stepper objects are modelled by their names only.
- Readings and tolerances are `real`. Floating-point rounding is not
  modelled, and the `1e-4` slack is the constant `Slack`.
- Text output and logging are not modelled: the startup message, the
  `%.4f` formatting, "Succeeded" and `logging.exception`
  (stable_z_home.py:64, 73, 87, 91). Status lines are `Report` values
  carrying the same fields.
- Config and parameter parsing are not modelled. This covers the `getint`,
  `getfloat`, `get_int`, `get_float` and `getchoice` bounds and their
  errors, and the defaults 20, 1/400 and 4 (stable_z_home.py:21-23, 37,
  40-42). The methods take the parsed values, and their `requires` state
  the bounds: a tolerance of at least 0.001 and a window of at least 3.
  The configured homing stepper is an input.
- The environment must describe at least `max_retries` attempts
  (`maxRetries <= |env|`). This is how the model supplies the outcome of
  every attempt the loop might make. It does not restrict the command.
- HomeUntilStable: the `ranges` argument is a specification-only (ghost)
  parameter. It names the window range of each attempt, so the loop is
  proved against `RetryLoop` over those ranges. `StableZHomeCmd` passes
  the ranges that `Ranges` computes from the readings.

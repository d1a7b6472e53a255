/** The STABLE_Z_HOME command: home Z again and again until the last `window`
    Z stepper positions agree to within a tolerance.

    Everything the command does to the machine is abstracted as an
    environment: one `Attempt` per homing attempt, saying whether the pre-home
    Gcode ran, whether `G28 Z` completed, and which position was read back.
 */
module StableZHome {
  import opened ZWindow

  /** What the outside world does on one attempt. */
  datatype Attempt = Attempt(preHomeOk: bool, homeOk: bool, position: real)

  /** How one STABLE_Z_HOME command ends. Every constructor except
      `Succeeded` is raised as a Gcode error by the source. */
  datatype Outcome =
    | Succeeded(attempt: nat)       // converged on this attempt
    | MaxRetriesExceeded            // "Max retries exceeded"
    | PreHomeFailed(attempt: nat)   // "Pre-home Gcode failed"
    | HomingFailed(attempt: nat)    // the error raised by `G28 Z`, propagated
    | PrinterNotReady               // "Printer not ready"
    | NotHomedXY                    // "Must home X and Y axes first"
    | NoStepper                     // "No Z steppers found"

  /** One status line, "Retry N: <stepper> position P, window range R". */
  datatype Report = Report(retry: nat, stepper: string, position: real, windowRange: Option<real>)

  /** Smallest tolerance the RETRY_TOLERANCE parameter accepts. */
  const MinRetryTolerance: real := 0.001

  /** Prefix that makes a stepper a candidate homing stepper. */
  const ZStepperPrefix: string := "stepper_z"

  predicate IsZStepperName(name: string)
  {
    ZStepperPrefix <= name
  }

  predicate XYHomed(homedAxes: string)
  {
    'x' in homedAxes && 'y' in homedAxes
  }

  /** The reading list after attempt `n`: each attempt appends its position
      and cuts the list back to its last `window` entries. */
  function WindowAfter(env: seq<Attempt>, n: nat, window: nat): (w: seq<real>)
    requires n <= |env| && window >= 3
    ensures |w| == if n <= window then n else window
  {
    if n == 0 then [] else LastK(WindowAfter(env, n - 1, window) + [env[n - 1].position], window)
  }

  /** The list holds exactly the positions of the most recent
      `min(n, window)` attempts, in attempt order. */
  lemma {:induction false} WindowAfterHoldsLatest(env: seq<Attempt>, n: nat, window: nat, j: nat)
    requires n <= |env| && window >= 3
    requires j < |WindowAfter(env, n, window)|
    ensures WindowAfter(env, n, window)[j] == env[n - |WindowAfter(env, n, window)| + j].position
  {
    var w := WindowAfter(env, n, window);
    var prev := WindowAfter(env, n - 1, window);
    var pushed := prev + [env[n - 1].position];
    assert w[j] == pushed[|pushed| - |w| + j];
    if |pushed| - |w| + j < |prev| {
      WindowAfterHoldsLatest(env, n - 1, window, |pushed| - |w| + j);
    }
  }


  /** The positions read on a run of attempts, in attempt order. */
  function Positions(run: seq<Attempt>): (ps: seq<real>)
    ensures |ps| == |run|
  {
    seq(|run|, i requires 0 <= i < |run| => run[i].position)
  }

  /** The window range after attempt `n`, stated on its own terms: undefined
      before `window` attempts, then the spread of the positions read on the
      last `window` attempts. */
  function RangeAfter(env: seq<Attempt>, n: nat, window: nat): (r: Option<real>)
    requires n <= |env| && window >= 3
    ensures r.None? <==> n < window
  {
    if n < window then None else Some(Range(Positions(env[n - window..n])))
  }

  /** The range the command computes from its reading list after attempt
      `n` is exactly that window range. */
  lemma WindowRangeIsRangeAfter(env: seq<Attempt>, n: nat, window: nat)
    requires n <= |env| && window >= 3
    ensures WindowRange(WindowAfter(env, n, window), window) == RangeAfter(env, n, window)
  {
    if n >= window {
      var w := WindowAfter(env, n, window);
      var p := Positions(env[n - window..n]);
      forall j | 0 <= j < window
        ensures w[j] == p[j]
      {
        WindowAfterHoldsLatest(env, n, window, j);
      }
      assert w == p;
    }
  }

  /** The window range of every attempt: entry `i` is the range reported by
      attempt `i + 1`. */
  function Ranges(env: seq<Attempt>, window: nat): (rs: seq<Option<real>>)
    requires window >= 3
    ensures |rs| == |env|
  {
    seq(|env|, i requires 0 <= i < |env| => RangeAfter(env, i + 1, window))
  }

  lemma RangesAt(env: seq<Attempt>, window: nat, i: nat)
    requires window >= 3 && i < |env|
    ensures Ranges(env, window)[i] == RangeAfter(env, i + 1, window)
    ensures Ranges(env, window)[i].None? <==> i + 1 < window
  {
  }

  /** Appending the reading of attempt `n` to the list left by attempt
      `n - 1` and cutting it back gives the range attempt `n` reports. */
  lemma RangeOfNextReading(env: seq<Attempt>, window: nat, n: nat, readings: seq<real>)
    requires window >= 3 && 1 <= n <= |env|
    requires readings == WindowAfter(env, n - 1, window)
    ensures WindowAfter(env, n, window) == LastK(readings + [env[n - 1].position], window)
    ensures WindowRange(LastK(readings + [env[n - 1].position], window), window) == RangeAfter(env, n, window)
  {
    WindowRangeIsRangeAfter(env, n, window);
  }

  /** The status lines of the first `n` attempts, given the window range
      each attempt reports. */
  function Reports(env: seq<Attempt>, n: nat, stepper: string, ranges: seq<Option<real>>): (rs: seq<Report>)
    requires n <= |env| && |ranges| == |env|
    ensures |rs| == n
  {
    if n == 0 then []
    else Reports(env, n - 1, stepper, ranges) + [Report(n, stepper, env[n - 1].position, ranges[n - 1])]
  }

  /** Status line `i` reports attempt `i + 1`, the position it read and the
      window range after it. */
  lemma {:induction false} ReportsAt(env: seq<Attempt>, n: nat, stepper: string, ranges: seq<Option<real>>, i: nat)
    requires n <= |env| && |ranges| == |env| && i < n
    ensures Reports(env, n, stepper, ranges)[i] == Report(i + 1, stepper, env[i].position, ranges[i])
  {
    if i < n - 1 {
      ReportsAt(env, n - 1, stepper, ranges, i);
    }
  }

  // ---------------------------------------------------------------------------
  // One attempt, and the retry loop over the window ranges of all attempts.

  /** The attempt ran its pre-home Gcode and `G28 Z` without error. */
  predicate Completes(a: Attempt)
  {
    a.preHomeOk && a.homeOk
  }

  /** The terminal outcome attempt `n` produces on its own, given the window
      range it reports; `None` when the loop goes on. */
  function AttemptOutcome(a: Attempt, n: nat, range: Option<real>, tolerance: real): (r: Option<Outcome>)
    ensures r == Some(PreHomeFailed(n)) <==> !a.preHomeOk
    ensures r == Some(HomingFailed(n)) <==> a.preHomeOk && !a.homeOk
    ensures r == Some(Succeeded(n)) <==> Completes(a) && Converged(range, tolerance)
    ensures r == None <==> Completes(a) && !Converged(range, tolerance)
    ensures r.Some? ==> AttemptOf(r.value) == n && r.value != MaxRetriesExceeded
  {
    if !a.preHomeOk then Some(PreHomeFailed(n))
    else if !a.homeOk then Some(HomingFailed(n))
    else if Converged(range, tolerance) then Some(Succeeded(n))
    else None
  }

  /** The attempt number an outcome carries (0 for those that carry none). */
  function AttemptOf(o: Outcome): (n: nat)
  {
    match o
    case Succeeded(n) => n
    case PreHomeFailed(n) => n
    case HomingFailed(n) => n
    case _ => 0
  }

  /** What attempt `i + 1` decides on its own, given the attempts and the
      window range each reports. */
  function Verdict(env: seq<Attempt>, ranges: seq<Option<real>>, tolerance: real, i: nat): (v: Option<Outcome>)
    requires i < |env| && |ranges| == |env|
    ensures v.Some? ==> AttemptOf(v.value) == i + 1 && v.value != MaxRetriesExceeded
  {
    AttemptOutcome(env[i], i + 1, ranges[i], tolerance)
  }

  /** The retry loop with its counter at `retries`: stop at the first attempt
      with a verdict, or fail once the counter passes `maxRetries`. The
      result is "Max retries exceeded" or the verdict of an attempt numbered
      between `retries` and `maxRetries`. */
  function LoopFrom(env: seq<Attempt>, ranges: seq<Option<real>>, tolerance: real, retries: nat, maxRetries: nat): (r: Outcome)
    requires 1 <= retries && maxRetries <= |env| && |ranges| == |env|
    ensures r.MaxRetriesExceeded? || retries <= AttemptOf(r) <= maxRetries
    decreases maxRetries + 1 - retries
  {
    if retries > maxRetries then MaxRetriesExceeded
    else
      match Verdict(env, ranges, tolerance, retries - 1)
      case Some(o) => o
      case None => LoopFrom(env, ranges, tolerance, retries + 1, maxRetries)
  }

  /** The retry loop from its first attempt, over attempts `env` whose window
      ranges are `ranges`. */
  function RetryLoop(maxRetries: nat, tolerance: real, env: seq<Attempt>, ranges: seq<Option<real>>): (r: Outcome)
    requires maxRetries <= |env| && |ranges| == |env|
    ensures r.MaxRetriesExceeded? || 1 <= AttemptOf(r) <= maxRetries
  {
    LoopFrom(env, ranges, tolerance, 1, maxRetries)
  }

  /** The guards that run before the first attempt all pass. */
  predicate GuardsPass(toolheadReady: bool, homedAxes: string, steppers: seq<string>, homingStepper: string)
  {
    toolheadReady && XYHomed(homedAxes) && homingStepper in steppers
  }

  /** The whole command: the guards, then the retry loop over the window
      ranges the readings of `env` produce. */
  function Command(toolheadReady: bool, homedAxes: string, steppers: seq<string>, homingStepper: string,
                   maxRetries: nat, retryTolerance: real, window: nat, env: seq<Attempt>): (r: Outcome)
    requires window >= 3 && maxRetries <= |env|
    ensures r.PrinterNotReady? <==> !toolheadReady
    ensures r.NotHomedXY? <==> toolheadReady && !XYHomed(homedAxes)
    ensures r.NoStepper? <==> toolheadReady && XYHomed(homedAxes) && homingStepper !in steppers
  {
    if !toolheadReady then PrinterNotReady
    else if !XYHomed(homedAxes) then NotHomedXY
    else if homingStepper !in steppers then NoStepper
    else RetryLoop(maxRetries, retryTolerance, env, Ranges(env, window))
  }

  // ---------------------------------------------------------------------------
  // The loop stops at the first attempt with a verdict, and only there.

  lemma {:induction false} LoopFromStopsAt(env: seq<Attempt>, ranges: seq<Option<real>>, tolerance: real,
                                           k: nat, n: nat, maxRetries: nat)
    requires 1 <= k <= n <= maxRetries <= |env| && |ranges| == |env|
    requires Verdict(env, ranges, tolerance, n - 1).Some?
    requires forall i :: k - 1 <= i < n - 1 ==> Verdict(env, ranges, tolerance, i).None?
    ensures LoopFrom(env, ranges, tolerance, k, maxRetries) == Verdict(env, ranges, tolerance, n - 1).value
    decreases n - k
  {
    if k < n {
      LoopFromStopsAt(env, ranges, tolerance, k + 1, n, maxRetries);
    }
  }

  lemma {:induction false} LoopFromExhausts(env: seq<Attempt>, ranges: seq<Option<real>>, tolerance: real,
                                            k: nat, maxRetries: nat)
    requires 1 <= k && maxRetries <= |env| && |ranges| == |env|
    requires forall i :: k - 1 <= i < maxRetries ==> Verdict(env, ranges, tolerance, i).None?
    ensures LoopFrom(env, ranges, tolerance, k, maxRetries) == MaxRetriesExceeded
    decreases maxRetries + 1 - k
  {
    if k <= maxRetries {
      LoopFromExhausts(env, ranges, tolerance, k + 1, maxRetries);
    }
  }

  /** When some attempt has a verdict, the loop returns the verdict of the
      first such attempt. */
  lemma {:induction false} LoopFromFirstVerdict(env: seq<Attempt>, ranges: seq<Option<real>>, tolerance: real,
                                                k: nat, maxRetries: nat)
    requires 1 <= k && maxRetries <= |env| && |ranges| == |env|
    requires exists i :: k - 1 <= i < maxRetries && Verdict(env, ranges, tolerance, i).Some?
    ensures exists i :: k - 1 <= i < maxRetries && Verdict(env, ranges, tolerance, i).Some? &&
                        LoopFrom(env, ranges, tolerance, k, maxRetries) == Verdict(env, ranges, tolerance, i).value &&
                        forall j :: k - 1 <= j < i ==> Verdict(env, ranges, tolerance, j).None?
    decreases maxRetries + 1 - k
  {
    if Verdict(env, ranges, tolerance, k - 1).None? {
      LoopFromFirstVerdict(env, ranges, tolerance, k + 1, maxRetries);
    } else {
      assert LoopFrom(env, ranges, tolerance, k, maxRetries) == Verdict(env, ranges, tolerance, k - 1).value;
    }
  }

  /** The retry loop returns the verdict of the first attempt that has one,
      and fails with "Max retries exceeded" only if none of the first
      `maxRetries` attempts has one. */
  lemma RetryLoopStopsAtFirstVerdict(maxRetries: nat, tolerance: real, env: seq<Attempt>, ranges: seq<Option<real>>)
    requires maxRetries <= |env| && |ranges| == |env|
    ensures var r := RetryLoop(maxRetries, tolerance, env, ranges);
      (r == MaxRetriesExceeded <==>
        forall i :: 0 <= i < maxRetries ==> Verdict(env, ranges, tolerance, i).None?) &&
      (r != MaxRetriesExceeded ==>
        1 <= AttemptOf(r) <= maxRetries &&
        Verdict(env, ranges, tolerance, AttemptOf(r) - 1) == Some(r) &&
        forall i :: 0 <= i < AttemptOf(r) - 1 ==> Verdict(env, ranges, tolerance, i).None?)
  {
    var r := RetryLoop(maxRetries, tolerance, env, ranges);
    if forall i :: 0 <= i < maxRetries ==> Verdict(env, ranges, tolerance, i).None? {
      LoopFromExhausts(env, ranges, tolerance, 1, maxRetries);
    } else {
      LoopFromFirstVerdict(env, ranges, tolerance, 1, maxRetries);
      var i :| 0 <= i < maxRetries && Verdict(env, ranges, tolerance, i).Some? &&
        r == Verdict(env, ranges, tolerance, i).value &&
        forall j :: 0 <= j < i ==> Verdict(env, ranges, tolerance, j).None?;
      assert AttemptOf(r) == i + 1 && r != MaxRetriesExceeded;
    }
  }

  /** The loop succeeds on attempt `n` exactly when every attempt up to `n`
      ran, attempt `n` is the first whose window range is within tolerance,
      and `n` is within the retry budget. */
  lemma RetryLoopSucceeds(maxRetries: nat, tolerance: real, env: seq<Attempt>, ranges: seq<Option<real>>, n: nat)
    requires maxRetries <= |env| && |ranges| == |env|
    ensures RetryLoop(maxRetries, tolerance, env, ranges) == Succeeded(n)
        <==> 1 <= n <= maxRetries &&
             (forall i :: 0 <= i < n ==> Completes(env[i])) &&
             Converged(ranges[n - 1], tolerance) &&
             (forall i :: 0 <= i < n - 1 ==> !Converged(ranges[i], tolerance))
  {
    var r := RetryLoop(maxRetries, tolerance, env, ranges);
    RetryLoopStopsAtFirstVerdict(maxRetries, tolerance, env, ranges);
    if 1 <= n <= maxRetries && (forall i :: 0 <= i < n ==> Completes(env[i])) &&
       Converged(ranges[n - 1], tolerance) &&
       (forall i :: 0 <= i < n - 1 ==> !Converged(ranges[i], tolerance)) {
      assert Completes(env[n - 1]);
      assert Verdict(env, ranges, tolerance, n - 1) == Some(Succeeded(n));
      assert r != MaxRetriesExceeded;
      var a := AttemptOf(r);
      assert a == n;
    }
    if r == Succeeded(n) {
      forall i | 0 <= i < n - 1
        ensures Completes(env[i]) && !Converged(ranges[i], tolerance)
      {
        assert Verdict(env, ranges, tolerance, i).None?;
      }
    }
  }

  /** The loop fails with "Max retries exceeded" exactly when each of the
      `maxRetries` attempts runs without its window range coming within
      tolerance. */
  lemma RetryLoopExhausts(maxRetries: nat, tolerance: real, env: seq<Attempt>, ranges: seq<Option<real>>)
    requires maxRetries <= |env| && |ranges| == |env|
    ensures RetryLoop(maxRetries, tolerance, env, ranges) == MaxRetriesExceeded
        <==> forall i :: 0 <= i < maxRetries ==> Completes(env[i]) && !Converged(ranges[i], tolerance)
  {
    RetryLoopStopsAtFirstVerdict(maxRetries, tolerance, env, ranges);
    if forall i :: 0 <= i < maxRetries ==> Completes(env[i]) && !Converged(ranges[i], tolerance) {
      forall i | 0 <= i < maxRetries
        ensures Verdict(env, ranges, tolerance, i).None?
      {
        assert Completes(env[i]) && !Converged(ranges[i], tolerance);
      }
    }
    if RetryLoop(maxRetries, tolerance, env, ranges) == MaxRetriesExceeded {
      forall i | 0 <= i < maxRetries
        ensures Completes(env[i]) && !Converged(ranges[i], tolerance)
      {
        assert Verdict(env, ranges, tolerance, i).None?;
      }
    }
  }

  /** The loop fails with "Pre-home Gcode failed" on attempt `n` exactly when
      the script fails on attempt `n` and every earlier attempt ran without
      converging. */
  lemma RetryLoopPreHomeFails(maxRetries: nat, tolerance: real, env: seq<Attempt>, ranges: seq<Option<real>>, n: nat)
    requires maxRetries <= |env| && |ranges| == |env|
    ensures RetryLoop(maxRetries, tolerance, env, ranges) == PreHomeFailed(n)
        <==> 1 <= n <= maxRetries && !env[n - 1].preHomeOk &&
             (forall i :: 0 <= i < n - 1 ==> Completes(env[i]) && !Converged(ranges[i], tolerance))
  {
    var r := RetryLoop(maxRetries, tolerance, env, ranges);
    RetryLoopStopsAtFirstVerdict(maxRetries, tolerance, env, ranges);
    if 1 <= n <= maxRetries && !env[n - 1].preHomeOk &&
       (forall i :: 0 <= i < n - 1 ==> Completes(env[i]) && !Converged(ranges[i], tolerance)) {
      assert Verdict(env, ranges, tolerance, n - 1) == Some(PreHomeFailed(n));
      assert r != MaxRetriesExceeded;
      var a := AttemptOf(r);
      assert a == n;
    }
    if r == PreHomeFailed(n) {
      forall i | 0 <= i < n - 1
        ensures Completes(env[i]) && !Converged(ranges[i], tolerance)
      {
        assert Verdict(env, ranges, tolerance, i).None?;
      }
    }
  }

  /** The error of `G28 Z` on attempt `n` ends the command exactly when the
      pre-home script ran on attempt `n` and every earlier attempt ran
      without converging. */
  lemma RetryLoopHomingFails(maxRetries: nat, tolerance: real, env: seq<Attempt>, ranges: seq<Option<real>>, n: nat)
    requires maxRetries <= |env| && |ranges| == |env|
    ensures RetryLoop(maxRetries, tolerance, env, ranges) == HomingFailed(n)
        <==> 1 <= n <= maxRetries && env[n - 1].preHomeOk && !env[n - 1].homeOk &&
             (forall i :: 0 <= i < n - 1 ==> Completes(env[i]) && !Converged(ranges[i], tolerance))
  {
    var r := RetryLoop(maxRetries, tolerance, env, ranges);
    RetryLoopStopsAtFirstVerdict(maxRetries, tolerance, env, ranges);
    if 1 <= n <= maxRetries && env[n - 1].preHomeOk && !env[n - 1].homeOk &&
       (forall i :: 0 <= i < n - 1 ==> Completes(env[i]) && !Converged(ranges[i], tolerance)) {
      assert Verdict(env, ranges, tolerance, n - 1) == Some(HomingFailed(n));
      assert r != MaxRetriesExceeded;
      var a := AttemptOf(r);
      assert a == n;
    }
    if r == HomingFailed(n) {
      forall i | 0 <= i < n - 1
        ensures Completes(env[i]) && !Converged(ranges[i], tolerance)
      {
        assert Verdict(env, ranges, tolerance, i).None?;
      }
    }
  }

  // ---------------------------------------------------------------------------
  // The command as a whole.

  /** The command succeeds on attempt `n` exactly when the guards pass, every
      attempt up to `n` ran, attempt `n` is the first whose window range is
      within tolerance, and `n` is within the retry budget. */
  lemma SucceedsAtFirstConvergence(toolheadReady: bool, homedAxes: string, steppers: seq<string>, homingStepper: string,
                                   maxRetries: nat, retryTolerance: real, window: nat, env: seq<Attempt>, n: nat)
    requires window >= 3 && maxRetries <= |env|
    ensures Command(toolheadReady, homedAxes, steppers, homingStepper, maxRetries, retryTolerance, window, env) == Succeeded(n)
        <==> GuardsPass(toolheadReady, homedAxes, steppers, homingStepper) && 1 <= n <= maxRetries &&
             (forall i :: 0 <= i < n ==> Completes(env[i])) &&
             Converged(Ranges(env, window)[n - 1], retryTolerance) &&
             (forall i :: 0 <= i < n - 1 ==> !Converged(Ranges(env, window)[i], retryTolerance))
  {
    RetryLoopSucceeds(maxRetries, retryTolerance, env, Ranges(env, window), n);
  }

  /** The command fails with "Max retries exceeded" exactly when the guards
      pass and none of the `maxRetries` attempts aborts or converges. */
  lemma ExhaustsIffNeverConverges(toolheadReady: bool, homedAxes: string, steppers: seq<string>, homingStepper: string,
                                  maxRetries: nat, retryTolerance: real, window: nat, env: seq<Attempt>)
    requires window >= 3 && maxRetries <= |env|
    ensures Command(toolheadReady, homedAxes, steppers, homingStepper, maxRetries, retryTolerance, window, env) == MaxRetriesExceeded
        <==> GuardsPass(toolheadReady, homedAxes, steppers, homingStepper) &&
             forall i :: 0 <= i < maxRetries ==> Completes(env[i]) && !Converged(Ranges(env, window)[i], retryTolerance)
  {
    RetryLoopExhausts(maxRetries, retryTolerance, env, Ranges(env, window));
  }

  /** Success needs a full window, so it never comes before attempt `window`;
      in particular a budget smaller than the window can never succeed. */
  lemma NoSuccessBeforeFullWindow(toolheadReady: bool, homedAxes: string, steppers: seq<string>, homingStepper: string,
                                  maxRetries: nat, retryTolerance: real, window: nat, env: seq<Attempt>)
    requires window >= 3 && maxRetries <= |env|
    ensures var r := Command(toolheadReady, homedAxes, steppers, homingStepper, maxRetries, retryTolerance, window, env);
      r.Succeeded? ==> window <= r.attempt <= maxRetries
  {
    var r := Command(toolheadReady, homedAxes, steppers, homingStepper, maxRetries, retryTolerance, window, env);
    if r.Succeeded? {
      var ranges := Ranges(env, window);
      RetryLoopStopsAtFirstVerdict(maxRetries, retryTolerance, env, ranges);
      assert Converged(ranges[r.attempt - 1], retryTolerance);
      RangesAt(env, window, r.attempt - 1);
    }
  }

  /** With RETRIES=0 the loop body never runs and the command fails at once
      with "Max retries exceeded": the counter starts at 1 and is compared
      with `<=`. */
  lemma ZeroRetriesExceedsAtOnce(toolheadReady: bool, homedAxes: string, steppers: seq<string>, homingStepper: string,
                                  retryTolerance: real, window: nat, env: seq<Attempt>)
    requires window >= 3
    requires GuardsPass(toolheadReady, homedAxes, steppers, homingStepper)
    ensures Command(toolheadReady, homedAxes, steppers, homingStepper, 0, retryTolerance, window, env) == MaxRetriesExceeded
  {
  }

  // ---------------------------------------------------------------------------
  // The command itself.

  /** First stepper whose name is `target` (the `for ... break` lookup). */
  method FindStepper(names: seq<string>, target: string) returns (found: Option<nat>)
    ensures found.None? <==> target !in names
    ensures found.Some? ==> found.value < |names| && names[found.value] == target
    ensures found.Some? ==> forall j :: 0 <= j < found.value ==> names[j] != target
  {
    found := None;
    var i := 0;
    while i < |names|
      invariant 0 <= i <= |names|
      invariant forall j :: 0 <= j < i ==> names[j] != target
    {
      if names[i] == target {
        found := Some(i);
        break;
      }
      i := i + 1;
    }
  }

  /** The candidate homing steppers offered at connect time: every stepper
      whose name starts with `stepper_z`, mapped to itself. */
  method StepperChoices(allSteppers: seq<string>) returns (selection: map<string, string>)
    ensures forall name :: name in selection <==> name in allSteppers && IsZStepperName(name)
    ensures forall name :: name in selection ==> selection[name] == name
  {
    selection := map[];
    for i := 0 to |allSteppers|
      invariant forall name :: name in selection <==> name in allSteppers[..i] && IsZStepperName(name)
      invariant forall name :: name in selection ==> selection[name] == name
    {
      var name := allSteppers[i];
      if IsZStepperName(name) {
        selection := selection[name := name];
      }
      assert allSteppers[..i + 1] == allSteppers[..i] + [name];
    }
    assert allSteppers[..|allSteppers|] == allSteppers;
  }

  /** Runs STABLE_Z_HOME against the environment `env`. Returns the outcome,
      the number of `G28 Z` commands issued and the status lines reported. */
  method StableZHomeCmd(toolheadReady: bool, homedAxes: string, steppers: seq<string>, homingStepper: string,
                        maxRetries: nat, retryTolerance: real, window: nat, env: seq<Attempt>)
    returns (outcome: Outcome, homings: nat, reports: seq<Report>)
    requires retryTolerance >= MinRetryTolerance && window >= 3
    requires maxRetries <= |env|
    ensures outcome == Command(toolheadReady, homedAxes, steppers, homingStepper, maxRetries, retryTolerance, window, env)
    ensures homings <= maxRetries
    ensures outcome.MaxRetriesExceeded? ==> homings == maxRetries
    ensures outcome.Succeeded? || outcome.HomingFailed? ==> homings == outcome.attempt
    ensures outcome.PreHomeFailed? ==> homings == outcome.attempt - 1
    ensures !GuardsPass(toolheadReady, homedAxes, steppers, homingStepper) ==> homings == 0
    ensures |reports| == if outcome.HomingFailed? then homings - 1 else homings
    ensures reports == Reports(env, |reports|, homingStepper, Ranges(env, window))
  {
    homings, reports := 0, [];
    assert reports == Reports(env, 0, homingStepper, Ranges(env, window));
    if !toolheadReady {
      return PrinterNotReady, homings, reports;
    }
    if !XYHomed(homedAxes) {
      return NotHomedXY, homings, reports;
    }
    var found := FindStepper(steppers, homingStepper);
    if found.None? {
      return NoStepper, homings, reports;
    }
    forall n | 1 <= n <= |env|
      ensures Ranges(env, window)[n - 1] == RangeAfter(env, n, window)
    {
      RangesAt(env, window, n - 1);
    }
    outcome, homings, reports := HomeUntilStable(steppers[found.value], maxRetries, retryTolerance, window, env, Ranges(env, window));
  }

  /** The retry loop of STABLE_Z_HOME once the guards have passed: home
      until the window range is within tolerance or the retries run out.
      `ranges` names, for the specification only, the window range each
      attempt reports. */
  method HomeUntilStable(stepper: string, maxRetries: nat, retryTolerance: real, window: nat, env: seq<Attempt>,
                         ghost ranges: seq<Option<real>>)
    returns (outcome: Outcome, homings: nat, reports: seq<Report>)
    requires window >= 3 && maxRetries <= |env| && |ranges| == |env|
    requires forall n :: 1 <= n <= |env| ==> ranges[n - 1] == RangeAfter(env, n, window)
    ensures outcome == RetryLoop(maxRetries, retryTolerance, env, ranges)
    ensures homings <= maxRetries
    ensures outcome.MaxRetriesExceeded? ==> homings == maxRetries
    ensures outcome.Succeeded? || outcome.HomingFailed? ==> homings == outcome.attempt
    ensures outcome.PreHomeFailed? ==> homings == outcome.attempt - 1
    ensures |reports| == if outcome.HomingFailed? then homings - 1 else homings
    ensures reports == Reports(env, |reports|, stepper, ranges)
  {
    homings, reports := 0, [];
    var readings: seq<real> := [];
    var retries: nat := 1;
    while retries <= maxRetries
      invariant 1 <= retries <= maxRetries + 1
      invariant readings == WindowAfter(env, retries - 1, window)
      invariant homings == retries - 1
      invariant reports == Reports(env, retries - 1, stepper, ranges)
      invariant LoopFrom(env, ranges, retryTolerance, retries, maxRetries) == RetryLoop(maxRetries, retryTolerance, env, ranges)
      decreases maxRetries + 1 - retries
    {
      var verdict, homed;
      verdict, homed, readings, reports := HomeOnce(stepper, retries, retryTolerance, window, env, ranges, readings, reports);
      if homed {
        homings := homings + 1;
      }
      if verdict.Some? {
        return verdict.value, homings, reports;
      }
      retries := retries + 1;
    }
    outcome := MaxRetriesExceeded;
  }

  /** Attempt `n` of the retry loop: run the pre-home Gcode, home Z, append
      the reading to the list, cut it back to the window and report. The
      verdict is the attempt's terminal outcome, `None` to go on. */
  method HomeOnce(stepper: string, n: nat, retryTolerance: real, window: nat, env: seq<Attempt>,
                  ghost ranges: seq<Option<real>>, readings: seq<real>, reports: seq<Report>)
    returns (verdict: Option<Outcome>, homed: bool, readings': seq<real>, reports': seq<Report>)
    requires window >= 3 && 1 <= n <= |env| && |ranges| == |env|
    requires forall k :: 1 <= k <= |env| ==> ranges[k - 1] == RangeAfter(env, k, window)
    requires readings == WindowAfter(env, n - 1, window)
    requires reports == Reports(env, n - 1, stepper, ranges)
    ensures verdict == Verdict(env, ranges, retryTolerance, n - 1)
    ensures homed == env[n - 1].preHomeOk
    ensures Completes(env[n - 1]) ==> readings' == WindowAfter(env, n, window)
    ensures !Completes(env[n - 1]) ==> readings' == readings
    ensures reports' == Reports(env, if Completes(env[n - 1]) then n else n - 1, stepper, ranges)
  {
    readings', reports' := readings, reports;
    var attempt := env[n - 1];
    if !attempt.preHomeOk {
      return Some(PreHomeFailed(n)), false, readings', reports';
    }
    if !attempt.homeOk {
      return Some(HomingFailed(n)), true, readings', reports';
    }
    var position := attempt.position;
    RangeOfNextReading(env, window, n, readings);
    readings' := readings' + [position];
    readings' := LastK(readings', window);
    var windowRange := WindowRange(readings', window);
    reports' := reports' + [Report(n, stepper, position, windowRange)];
    if Converged(windowRange, retryTolerance) {
      return Some(Succeeded(n)), true, readings', reports';
    }
    verdict, homed := None, true;
  }

  // ---------------------------------------------------------------------------
  // Worked examples (window 3, tolerance 0.01, every attempt runs).

  /** Attempts that all run and read back the given positions. */
  function AllRun(positions: seq<real>): (env: seq<Attempt>)
    ensures |env| == |positions|
  {
    seq(|positions|, i requires 0 <= i < |positions| => Attempt(true, true, positions[i]))
  }

  /** Readings 0.50, 0.03, 0.02, 0.01: after the fourth attempt the list
      has dropped the first reading and holds the last three. */
  lemma DriftingReadingsKeepLastThree()
    ensures WindowAfter(AllRun([0.50, 0.03, 0.02, 0.01]), 4, 3) == [0.03, 0.02, 0.01]
  {
    var env := AllRun([0.50, 0.03, 0.02, 0.01]);
    assert WindowAfter(env, 1, 3) == [0.50];
    assert WindowAfter(env, 2, 3) == [0.50, 0.03];
    assert WindowAfter(env, 3, 3) == [0.50, 0.03, 0.02];
  }

  /** With the same readings the last window spreads 0.02, above the
      tolerance 0.01, so four retries are exhausted. */
  lemma DriftingReadingsExhaust()
    ensures RangeAfter(AllRun([0.50, 0.03, 0.02, 0.01]), 4, 3) == Some(0.02)
    ensures Command(true, "xyz", ["stepper_z"], "stepper_z", 4, 0.01, 3, AllRun([0.50, 0.03, 0.02, 0.01]))
         == MaxRetriesExceeded
  {
    var env := AllRun([0.50, 0.03, 0.02, 0.01]);
    assert Positions(env[0..3]) == [0.50, 0.03, 0.02];
    assert Positions(env[1..4]) == [0.03, 0.02, 0.01];
    assert ArgMax([0.50, 0.03, 0.02], 3) == 0 && ArgMin([0.50, 0.03, 0.02], 3) == 2;
    assert ArgMax([0.03, 0.02, 0.01], 3) == 0 && ArgMin([0.03, 0.02, 0.01], 3) == 2;
    var ranges := Ranges(env, 3);
    assert ranges[0] == None && ranges[1] == None;
    assert ranges[2] == RangeAfter(env, 3, 3) == Some(0.48);
    assert ranges[3] == RangeAfter(env, 4, 3) == Some(0.02);
    RetryLoopExhausts(4, 0.01, env, ranges);
  }

  /** Readings 0.10, 0.101, 0.102, 0.099: the first full window already
      spreads only 0.002, so the command succeeds on attempt 3 (and never
      looks at the fourth reading). */
  lemma SettledReadingsSucceedAtFirstFullWindow()
    ensures Command(true, "xyz", ["stepper_z"], "stepper_z", 4, 0.01, 3, AllRun([0.10, 0.101, 0.102, 0.099]))
         == Succeeded(3)
  {
    var env := AllRun([0.10, 0.101, 0.102, 0.099]);
    assert Positions(env[0..3]) == [0.10, 0.101, 0.102];
    assert ArgMax([0.10, 0.101, 0.102], 3) == 2 && ArgMin([0.10, 0.101, 0.102], 3) == 0;
    var ranges := Ranges(env, 3);
    assert ranges[0] == None && ranges[1] == None;
    assert ranges[2] == RangeAfter(env, 3, 3) == Some(0.002);
    RetryLoopSucceeds(4, 0.01, env, ranges, 3);
  }
}

# Whiteboard simulator: the animation core of `WhiteboardPanel`

The whiteboard simulator draws a two-string plotter. A pen hangs from two
strings, and each string is wound on a wheel under one of two pulleys set
`pulleySeparation` apart. A wheel-pulse command `moveWheels(w0, w1)` becomes a
timed run. While it runs, the animator reports the fraction of the run done
so far. Each report turns wheel `i` by its share of `distance[i]` and pays its
string out by `wheelRadius` millimetres per radian.

The project models that state machine and the arithmetic around it:

- `java_numbers.dfy` (module `JavaNumbers`): the 32-bit `int` of the
  command, `Math.abs` on it (which leaves `-2^31` negative), and the
  `(long)` cast, which truncates toward zero.
- `geometry.dfy` (module `Geometry`): the expressions that need no
  trigonometry.
  - The constructor's `radiansPerPulse` and initial string lengths.
  - The cosine-rule x-coordinate of the pen in `calculatePoint`.
- `motion.dfy` (module `Motion`): one timing event on one wheel, as a value
  (`Step`).
  - A run of events, defined as a fold (`Run`).
  - The slack `str - wheelRadius * pos` that both leave unchanged.
  - The telescoping sum of a run.
- `command.dfy` (module `Command`): the duration of a command.
- `whiteboard_panel.dfy` (module `Whiteboard`): class `WhiteboardPanel`.
  - It holds the arrays `pos`, `distance` and `strings` (updated in place),
    plus `previous`, `running`, the `animator` reference and the log of
    "running" property-change events.
  - Its methods are the constructor, `setRunning`, `isRunning`, the
    timing-target callbacks `begin`, `timingEvent` and `end`, and
    `moveWheels`.
  - The class invariant `Valid()` says two things. First, each slack still
    has its constructor value. Second, `running` is what the last
    property-change event reported, and those events alternate.
  - The ghost predicate `Tracking()` connects the arrays to `Motion.Run`
    over the fractions consumed since the last `begin`.

Java `double` is modelled by exact `real`; `Math.PI` is the constant
3.141592653589793, and only its positivity matters. `Math.sqrt` is not
computed. Each square root is a parameter `r` with `r >= 0` and `r * r` equal
to its argument (`Geometry.IsSqrt`).

The animator library is not part of this model. It is the environment: it
calls `Begin`, then `Tick` with the fractions of the run, then `End`. The
model assumes that `animator.stop()` only marks the animator stopped and
leaves `pos` and `strings` as they are; any `end` the library delivers for a
stopped animator is a separate, later call of `End` (see "Left out").

Two behaviours of the code are worth stating plainly:

- From idle, a null command (`0, 0`) fires two "running" property-change
  events, `true` then `false`, because `moveWheels` calls `setRunning(true)`
  before it tests the duration. During a run `running` is already true, so
  `setRunning(true)` fires nothing and only `false` follows.
- Neither the constructor nor `calculatePoint` checks the geometry, so the
  model has no error case for it. The only preconditions are the ones a
  Java division needs to give a finite result.

## Model

| member | source | states |
|---|---|---|
| Geometry.RadiansPerPulse | host/whiteboard-simulator/src/main/java/whiteboard/WhiteboardPanel.java:84 | a full revolution of `pulsesPerRevolution` pulses turns the wheel exactly 2π, and the angle is positive for a positive pulse count |
| JavaNumbers.JavaAbs | host/whiteboard-simulator/src/main/java/whiteboard/WhiteboardPanel.java:145 | `Math.abs` on an `int` is the magnitude for every value except −2^31, which it returns unchanged |
| JavaNumbers.TruncToLong | host/whiteboard-simulator/src/main/java/whiteboard/WhiteboardPanel.java:146 | the `(long)` cast rounds toward zero: the result is within 1 of its argument, on the same side of zero, and no farther from zero |
| Geometry.LeftStringSquared | host/whiteboard-simulator/src/main/java/whiteboard/WhiteboardPanel.java:85 | the argument of the left string's `Math.sqrt` is never negative, so the square root exists |
| Geometry.RightStringSquared | host/whiteboard-simulator/src/main/java/whiteboard/WhiteboardPanel.java:86 | the argument of the right string's `Math.sqrt` is never negative, so the square root exists |
| Geometry.CosAlpha | host/whiteboard-simulator/src/main/java/whiteboard/WhiteboardPanel.java:173-174 | the cosine rule: `l1² = l0² + sep² − 2·l0·sep·cosAlpha` |
| Geometry.PenX | host/whiteboard-simulator/src/main/java/whiteboard/WhiteboardPanel.java:176 | the pen x `cosAlpha * l[0]` is where a point `l0` from the left pulley centre and `l1` from the right one is equally deep below both: `l0² − x² = l1² − (sep − x)²` |
| Motion.Step | host/whiteboard-simulator/src/main/java/whiteboard/WhiteboardPanel.java:126-128 | one timing event turns the wheel by `distance·(fraction − previous)` and changes its string by `wheelRadius` per radian turned |
| Geometry.PenXFromStrings | host/whiteboard-simulator/src/main/java/whiteboard/WhiteboardPanel.java:171-176 | with `l[i]` the square root of `pulleyRadius² + strings[i]²`, the pen x `cosAlpha * l[0]` is `(s0² − s1² + sep²) / (2·sep)`: the pulley radius cancels out |
| Geometry.StartPenX | host/whiteboard-simulator/src/main/java/whiteboard/WhiteboardPanel.java:85-86 | round trip: the string lengths the constructor computes from the start offset put the pen back at x = `startLeft` |
| Geometry.SymmetricStart | host/whiteboard-simulator/src/main/java/whiteboard/WhiteboardPanel.java:85-86 | a pen started at `startLeft = sep/2` hangs on two equal strings and is placed at x = `sep/2` |
| Motion.StepConserves | host/whiteboard-simulator/src/main/java/whiteboard/WhiteboardPanel.java:125-129 | one timing event adds `diff` to the angle and `wheelRadius·diff` to the string, so `str − wheelRadius·pos` is unchanged |
| Motion.RunTelescopes | host/whiteboard-simulator/src/main/java/whiteboard/WhiteboardPanel.java:118-130 | however many events a run has had, the wheel has turned exactly `distance·(last fraction − start)` and the string has changed by `wheelRadius` times that |
| Motion.RunCompletes | host/whiteboard-simulator/src/main/java/whiteboard/WhiteboardPanel.java:118-130 | a run from 0 whose last fraction is 1 turns the wheel by the whole `distance` and pays out `wheelRadius·distance` of string |
| Motion.RunConserves | host/whiteboard-simulator/src/main/java/whiteboard/WhiteboardPanel.java:125-130 | the slack `str − wheelRadius·pos` is the same after any run |
| Command.Duration | host/whiteboard-simulator/src/main/java/whiteboard/WhiteboardPanel.java:145-146 | the duration `(long)(max / speed)` is exactly 5 ms per pulse of the busier wheel, is never negative, and is 0 exactly for the null command |
| Command.DurationAsWritten | host/whiteboard-simulator/src/main/java/whiteboard/WhiteboardPanel.java:145-146 | the code's expression, with 32-bit `Math.abs`, is 5 times the larger of the two `Math.abs` results |
| Command.DurationAsWrittenAgrees | host/whiteboard-simulator/src/main/java/whiteboard/WhiteboardPanel.java:145-146 | for pulse counts other than −2^31, the code's expression equals the exact duration |
| Command.MinIntCommandDropped | host/whiteboard-simulator/src/main/java/whiteboard/WhiteboardPanel.java:145-148 | the command (−2^31, 0) gets duration 0 and is treated as a null move, although its exact duration is 10737418240 ms; and (−2^31, −2^31) gets a negative duration |
| Whiteboard.WhiteboardPanel.constructor | host/whiteboard-simulator/src/main/java/whiteboard/WhiteboardPanel.java:81-86 | the wheels start at angle 0, `radiansPerPulse` is `2π / pulsesPerRevolution`, and the strings are the square roots of `startLeft² + startDown²` and `(sep − startLeft)² + startDown²`; not running, no animator, no events yet, and the invariant holds |
| Whiteboard.WhiteboardPanel.SetRunning | host/whiteboard-simulator/src/main/java/whiteboard/WhiteboardPanel.java:264-266 | sets the flag, and fires a property-change event with the new value only when the value changes |
| Whiteboard.WhiteboardPanel.IsRunning | host/whiteboard-simulator/src/main/java/whiteboard/WhiteboardPanel.java:268-271 | returns the value the last "running" event reported, or false before any |
| Whiteboard.WhiteboardPanel.Begin | host/whiteboard-simulator/src/main/java/whiteboard/WhiteboardPanel.java:116-120 | `previous` becomes 0 and the panel is running (one event if it was not), the wheels do not move, and a new run starts from the current wheels |
| Whiteboard.WhiteboardPanel.Tick | host/whiteboard-simulator/src/main/java/whiteboard/WhiteboardPanel.java:123-132 | each wheel becomes `Motion.Step` of itself with the previous fraction, `previous` becomes the new fraction, the slack invariant is kept, and a tracked run stays tracked with one more fraction |
| Whiteboard.WhiteboardPanel.End | host/whiteboard-simulator/src/main/java/whiteboard/WhiteboardPanel.java:135-138 | the panel is no longer running, and a `false` event is fired if it was running |
| Whiteboard.WhiteboardPanel.MoveWheels | host/whiteboard-simulator/src/main/java/whiteboard/WhiteboardPanel.java:142-158 | `pos` and `strings` keep the progress already made. A command with positive duration sets `distance[i] = w[i]·radiansPerPulse` and leaves a fresh animator of that duration, with the panel running. The null command leaves the old animator stopped, `distance` unchanged and the panel not running, after the events `true`, `false` (only `false` if it was running) |
| Whiteboard.WhiteboardPanel.Progress | host/whiteboard-simulator/src/main/java/whiteboard/WhiteboardPanel.java:118-130 | during a tracked run, wheel `i` has turned `distance[i]·previous` since `begin` and its string has changed by `wheelRadius` times that. At fraction 1 the turn is the whole `distance[i]` |

## Left out

- Trigonometry in `calculatePoint` (`Math.acos`, `Math.sin`, `Math.atan`) and the y-coordinate
  and string angles built from it: floating-point numerics with no exact real counterpart.
- `Math.sqrt` and `Math.pow` are not computed. Their results are parameters constrained to be
  the non-negative square root of their argument.
- Rounding of `double` arithmetic in the sums accumulated by `timingEvent`: the model uses
  exact reals. For the duration nothing is lost: the double `0.2` is `0.2·(1 + 2^-54)`, so
  `max / speed` lies less than half an ulp below `5·max`, rounds to exactly `5·max` for every
  `int` `max`, and the `(long)` cast keeps that value.
- NaN and infinities: `RadiansPerPulse` requires a non-zero pulse count. `CosAlpha` and
  `PenX` require a non-zero `l[0]` and separation, the cases where Java would divide by zero.
- The animator library (`Animator`, `SwingTimerTimingSource`, its 30 ms period). It appears
  only as the caller of `Begin`, `Tick` and `End`, and as the reference `moveWheels` stops
  and replaces. `Tick` accepts any fraction: the telescoping result needs no ordering of
  the fractions.
- `animator.start()` and the timer thread: the callbacks run when the environment calls
  them, one at a time.
- `repaint()`, `paintComponent`, `drawWheel`, `drawString`, `calculateScale`, the output
  image, component listeners, `removeNotify`, `prevPoint`, `drawing` and `canvasWidth`:
  Swing/AWT presentation.
- `moveWheels` with other than two pulse counts: the model takes exactly two. With fewer,
  Java throws `ArrayIndexOutOfBoundsException` at line 145, but only after lines 143-144 have
  already stopped the current animator. With more, the extra counts are ignored.
- The firmware sources (`whiteboard.cpp`, `encoder.h`, `parsertest.cpp`): hardware
  registers, interrupts, and a parser whose implementation is not part of this model.
- Whiteboard.WhiteboardPanel.MoveWheels: assumes `animator.stop()` does not call `end`
  during `moveWheels`; the event postconditions (no event for a positive command while running,
  `false` alone for a null command while running) rest on that. An `end` the library delivers
  for the stopped animator is modelled as a later, separate call of `End`. The model keeps no
  record of an animator once it is replaced, so the positive case does not state that the
  previous animator was stopped.
- Whiteboard.WhiteboardPanel.MoveWheels: uses the corrected `Command.Duration`, not the
  code's 32-bit `Math.abs`. See Findings.

## Findings

| source | as written | input that shows it | evidently intended | confidence | as-written member | corrected member |
|---|---|---|---|---|---|---|
| host/whiteboard-simulator/src/main/java/whiteboard/WhiteboardPanel.java:145-146 | `Math.abs(w[i])` on a 32-bit `int` returns −2^31 for −2^31 | `moveWheels(-2147483648, 0)`: here `max` is 0, the duration is 0, and the command is dropped as a null move. `moveWheels(-2147483648, -2147483648)` gets a negative duration | the duration is 5 ms per pulse of the larger magnitude, and is zero only for (0, 0) | not executed; the input is far outside any real pulse count | Command.DurationAsWritten, Command.MinIntCommandDropped | Command.Duration |

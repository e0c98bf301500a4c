# Stepper motor coil driver — a Dafny model

The core of this repository is `run_motor(steps, direction)` in
`motor_logic.py`. It drives a four-coil stepper motor through the Raspberry
Pi GPIO library:

- It turns library warnings off, selects BCM channel numbering and sets the
  four coil lines `PINS = [17, 18, 27, 22]` up as outputs.
- It picks the coil sequence. That is `SEQUENCE` for the exact string
  `"forward"` and the list reversed (entries reordered, bits untouched) for
  any other value.
- It runs `steps` times through that sequence. Each pattern is four
  output writes in `PINS` order followed by a 4 ms delay.
- In a `finally` block, it drives all four lines low and calls `cleanup`.
  This happens however the loop ends.

The model has three files:

- `gpio.dfy` (module `Gpio`) is the library as the driver sees it. A class
  `Board` holds the four tracked lines and an array of their latched levels.
  It also holds the set of lines set up as outputs and an append-only log of
  every call, delays included. Each library call is a method that appends
  its event to the log. `GPIO.output` also writes its slot of the array and
  may only drive a line that has been set up. `Replay` gives the line levels
  a log leaves behind, and `Writes` picks out its output writes.
- `motor_logic.dfy` (module `MotorLogic`) holds the driver itself.
  - `RunMotor` is imperative, in the source's form. `SetUpPins`, `Stepping`,
    `Step`, `ApplyPattern` and `AllOff` model the setup lines, the three
    nested loops and the `finally` block.
  - Each method is proved against specification functions of the log it
    produces (`SetupEvents`, `LoopEvents`, `Attempted`, `OffEvents`,
    `RunEvents`), of its outcome (`RunOutcome`) and of the coil levels it
    leaves (`StepLevels`, `LoopLevels`).
  - A hardware fault is the parameter `failAt`. When it is `Some(k)`, the
    loop's `k`-th output call (counting from 0) raises. The method then
    leaves the `try` block, runs the `finally` block and reports `Raised(k)`.
- `motor_properties.dfy` (module `MotorProperties`) proves what a run does,
  as lemmas about those specification functions.

## Model

| member | source | states |
|---|---|---|
| MotorLogic.RunMotor | motor_logic.py:7-26 | `direction` defaults to `"forward"` (and the fault index to none). The log grows by exactly the run's events: setup, the loop's writes and delays (cut short at a faulting write), then the four off writes and `cleanup`. The outcome is `Raised(k)` exactly when write `k` is reached. The lines as the `finally` block starts are `LoopLevels` of the run on every path; after a fault-free run with `steps > 0` that is the last pattern of the chosen sequence. Every line is low at the end, and no line is still an output. |
| MotorLogic.SetUpPins | motor_logic.py:8-11 | Logs `setwarnings(False)`, `setmode(BCM)` and a `setup` of each coil line in `PINS` order. Afterwards every coil line is an output. |
| MotorLogic.Stepping | motor_logic.py:16-21 | The `try` block: `max(steps, 0)` complete steps, or the steps up to write `failAt` if a run of that length reaches it. The outcome is `Raised(failAt)` exactly then. On every path the lines end as `LoopLevels` says: unchanged for `steps <= 0`, the sequence's last pattern after a completed loop, and the half-written pattern over the previous one after a fault. |
| MotorLogic.Step | motor_logic.py:18-21 | One pass over the four patterns, each written and followed by the delay. Fewer than 16 writes are made exactly when the fault index lies in this pass, and the fault index is then the write that raised. After a fault the lines are `StepLevels` of the writes made; a full pass leaves the fourth pattern on the lines. |
| MotorLogic.ApplyPattern | motor_logic.py:19-21 | Writes `pattern[i]` to `PINS[i]` for `i = 0..3`, then logs the delay, stopping at the faulting write with no delay. The first `written` slots of the line state hold the pattern and the others keep their levels. |
| MotorLogic.AllOff | motor_logic.py:22-26 | Logs a low write to each coil line in `PINS` order, then `cleanup`. All four levels are 0 afterwards, from any prior state, and no line is still an output. |
| MotorLogic.ChooseSequence | motor_logic.py:14 | Returns `SEQUENCE` for exactly `"forward"`. For any other string it returns entry `3 - j` at position `j`, i.e. the four patterns in reverse order with their bits unchanged. Every entry is one of `SEQUENCE`'s own patterns. |
| MotorLogic.Reverse | motor_logic.py:14 | `list(reversed(s))`: same length, element `k` is element `len - 1 - k` of the input. |
| Gpio.Board.SetWarnings | motor_logic.py:8 | `GPIO.setwarnings(enabled)`: the call is logged and nothing else changes. |
| Gpio.Board.SetMode | motor_logic.py:9 | `GPIO.setmode(numbering)`: the call is logged and nothing else changes. |
| Gpio.Board.Setup | motor_logic.py:11 | `GPIO.setup(pin, GPIO.OUT)`: `pin` joins the output lines and the call is logged. |
| Gpio.Board.Output | motor_logic.py:20 | `GPIO.output(pin, level)` on a line that was set up: exactly that line's slot takes `level`, and the call is logged. |
| Gpio.Board.Sleep | motor_logic.py:21 | The delay is logged and changes no line. |
| Gpio.Board.Cleanup | motor_logic.py:26 | `GPIO.cleanup()`: no line is an output any more, and the call is logged. |
| MotorProperties.RunSchedule | motor_logic.py:5-20 | A fault-free run makes `16 * max(steps, 0)` coil writes and then the four off writes. Write `w` is entry `w % 4` of pattern `(w / 4) % 4` on line `PINS[w % 4]`. The pattern is taken from `SEQUENCE`, counted from the end of the list for any direction but `"forward"`. |
| MotorProperties.PatternsInOrder | motor_logic.py:5-20 | A fault-free run's writes in groups of four are the patterns in order: pattern `m` is `SEQUENCE[m % 4]` forward and `SEQUENCE[3 - m % 4]` otherwise, `4 * steps` of them, then the all-low pattern. |
| MotorProperties.TwoCoilsPerPattern | motor_logic.py:5-14 | In both directions every pattern is one of `SEQUENCE`'s own and energises exactly two of the four coils. |
| MotorProperties.NoSteps | motor_logic.py:17 | With `steps <= 0` no pattern is written and no fault can occur. The log is the setup, the four off writes and `cleanup`, and the lines keep their levels until the `finally` block. |
| MotorProperties.FaultedRun | motor_logic.py:16-26 | A write that raises at index `k` inside the run leaves exactly the first `k` writes of the fault-free run, followed by the four off writes, and the outcome `Raised(k)`. A fault index past the last coil write changes neither the log nor the outcome. |
| MotorProperties.EveryExitAllOff | motor_logic.py:16-26 | On every way out of the loop, faulting or not, the log ends with the four off writes and `cleanup`. From any initial line state, all four lines are low when `cleanup` is called. |
| MotorProperties.LastPatternHeld | motor_logic.py:14-21 | After a fault-free run with `steps > 0`, the lines hold `[1, 0, 0, 1]` (forward) or `[1, 1, 0, 0]` (any other direction) when the `finally` block starts. |
| MotorProperties.StepLevelsReplayed | motor_logic.py:18-21 | `StepLevels`, the state `Step` reports after a fault, is exactly what replaying the writes of the cut-short step leaves on the lines. |
| MotorProperties.LoopLevelsReplayed | motor_logic.py:16-21 | `LoopLevels`, the state `Stepping` reports, is exactly what replaying the loop's log leaves on the lines, for every `steps`, fault index and starting state. |
| MotorProperties.FinallyLevels | motor_logic.py:8-22 | The state `RunMotor` reports as the `finally` block starts is what replaying the whole `try`-part log (setup included) leaves on the lines. |
| MotorProperties.SetupBeforeOutput | motor_logic.py:8-20 | Every run begins with the six setup calls. Every output write in the log comes after a `setup` of its own line. |
| MotorProperties.RunWritesOnCoils | motor_logic.py:20-25 | Every write of a run, faulting or not, goes to one of the four coil lines. |

## Left out

- `app.py` is not part of this model. It is the web front end that calls
  `run_motor(steps, direction)`, with defaults 512 and `"forward"`.
- `verify_motor.py` is not part of this model. It calls `run_motor` with
  keyword arguments `stutter`, `cycle_fwd` and `cycle_back`. The driver in
  `motor_logic.py` has no such parameters, so that call would raise a
  TypeError. Those keywords suggest a stutter mode. `motor_logic.py` has
  no stutter, no cancellation, no session exclusivity and no scheduler, so
  the model has none either.
- Timing: `time.sleep(0.004)` is a `Sleep(4)` event in the log. Wall-clock
  time and motor speed are not modelled.
- The library's internals are not modelled: warnings, numbering modes and
  what `cleanup` does to the hardware. `setwarnings`, `setmode` and
  `cleanup` are logged events, and only the four coil lines are tracked.
- Faults are modelled only in the loop. `failAt` stands for any exception
  that ends the loop (a library error, an interrupt), taken at the boundary
  of one of its output writes. A fault in `setup` raises before the `try`
  block, so no cleanup would follow; it is not modelled. Neither is a fault
  inside the `finally` block itself.
- MotorLogic.RunMotor: the raised exception is its returned outcome
  `Raised(k)` instead of a propagating exception, and the caller's handling
  of it is not modelled.
- `steps` is an integer and `direction` a string. A non-integer `steps`
  raises a TypeError inside the `try` block and is not modelled. A
  non-string `direction` is not modelled either (it behaves like any string
  other than `"forward"`).
- `False` written as a level is the level 0.
- Concurrency: two overlapping calls of `run_motor` are not modelled.

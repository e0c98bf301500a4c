/** The stepper coil-phase driver `run_motor`: it sets the four coil lines
    up as outputs, writes a four-entry coil sequence (reversed for any
    direction other than "forward") once per step, and on every way out of
    the stepping loop drives all four lines low and releases the library. */
module MotorLogic {
  import opened Gpio

  /** The BCM channel numbers of the four coil lines, in write order. */
  const PINS: seq<int> := [17, 18, 27, 22]

  /** The coil activation patterns of one step, forward order. */
  const SEQUENCE: seq<seq<Bit>> := [[1, 1, 0, 0], [0, 1, 1, 0], [0, 0, 1, 1], [1, 0, 0, 1]]

  /** The delay after each pattern, in milliseconds (0.004 s). */
  const DELAY_MILLIS: nat := 4

  /** All four coil lines low. */
  const ALL_OFF: seq<Bit> := [0, 0, 0, 0]

  datatype Option<T> = None | Some(value: T)

  /** How a run ends: the stepping loop completed, or the output call with
      the given index (counting the loop's writes from 0) raised. */
  datatype Outcome = Completed | Raised(write: nat)

  /** `list(reversed(s))`. */
  function Reverse<T>(s: seq<T>): (r: seq<T>)
    ensures |r| == |s|
    ensures forall k :: 0 <= k < |s| ==> r[k] == s[|s| - 1 - k]
  {
    if s == [] then [] else [s[|s| - 1]] + Reverse(s[..|s| - 1])
  }

  /** Four patterns of four levels each. */
  predicate WellFormed(phases: seq<seq<Bit>>)
  {
    |phases| == 4 && forall j :: 0 <= j < 4 ==> |phases[j]| == 4
  }

  /** The sequence a run steps through: `SEQUENCE` for exactly "forward",
      the list reversed (entries reordered, bits untouched) for anything else. */
  function ChooseSequence(direction: string): (phases: seq<seq<Bit>>)
    ensures WellFormed(phases)
    ensures direction == "forward" ==> phases == SEQUENCE
    ensures direction != "forward" ==> forall j :: 0 <= j < 4 ==> phases[j] == SEQUENCE[3 - j]
    ensures direction != "forward" ==>
      phases == [[1, 0, 0, 1], [0, 0, 1, 1], [0, 1, 1, 0], [1, 1, 0, 0]]
    ensures forall j :: 0 <= j < 4 ==> phases[j] in SEQUENCE
  {
    if direction == "forward" then SEQUENCE else Reverse(SEQUENCE)
  }

  /** The number of iterations of `range(steps)`. */
  function Iterations(steps: int): nat
  {
    if steps > 0 then steps else 0
  }

  // ---------------------------------------------------------------------
  // The log a run produces

  /** `setwarnings(False)`, `setmode(BCM)`, then `setup` of each coil line. */
  function SetupEvents(): seq<Event>
  {
    [SetWarnings(false), SetMode(BCM)] + seq(4, k requires 0 <= k < 4 => Setup(PINS[k]))
  }

  /** The writes that apply one pattern, one per line in `PINS` order. */
  function PatternWrites(pattern: seq<Bit>): seq<Event>
    requires |pattern| == 4
  {
    seq(4, i requires 0 <= i < 4 => Output(PINS[i], pattern[i]))
  }

  /** The writes of the first `j` patterns of a step, each followed by the delay. */
  function StepPrefix(phases: seq<seq<Bit>>, j: nat): seq<Event>
    requires WellFormed(phases) && j <= 4
  {
    if j == 0 then []
    else StepPrefix(phases, j - 1) + PatternWrites(phases[j - 1]) + [Sleep(DELAY_MILLIS)]
  }

  /** The events of `n` complete steps. */
  function LoopEvents(phases: seq<seq<Bit>>, n: nat): seq<Event>
    requires WellFormed(phases)
  {
    if n == 0 then [] else LoopEvents(phases, n - 1) + StepPrefix(phases, 4)
  }

  /** The events of the stepping loop up to (not including) its `k`-th write:
      `k / 16` whole steps, then the whole patterns and the single writes of
      the step that was under way. */
  function Attempted(phases: seq<seq<Bit>>, k: nat): seq<Event>
    requires WellFormed(phases)
  {
    LoopEvents(phases, k / 16) + StepAttempted(phases, k % 16)
  }

  /** The events of one step up to (not including) its `r`-th write. */
  function StepAttempted(phases: seq<seq<Bit>>, r: nat): seq<Event>
    requires WellFormed(phases) && r < 16
  {
    StepPrefix(phases, r / 4) + PatternWrites(phases[r / 4])[..r % 4]
  }

  /** The loop's write `failAt` is issued by the run, so its raising ends the loop. */
  predicate Faults(steps: int, failAt: Option<nat>)
  {
    failAt.Some? && failAt.value < 16 * Iterations(steps)
  }

  /** What the stepping loop logs. */
  function LoopPart(steps: int, phases: seq<seq<Bit>>, failAt: Option<nat>): seq<Event>
    requires WellFormed(phases)
  {
    if Faults(steps, failAt) then Attempted(phases, failAt.value)
    else LoopEvents(phases, Iterations(steps))
  }

  /** The coil levels after one step's writes before its write `r`, from
      `levels`: the pattern under way holds its first `r % 4` entries, the
      other lines keep the previous pattern of the step (or, during the
      first pattern, `levels`). */
  function StepLevels(phases: seq<seq<Bit>>, levels: seq<Bit>, r: nat): (l: seq<Bit>)
    requires WellFormed(phases) && |levels| == 4 && r < 16
    ensures |l| == 4
  {
    phases[r / 4][..r % 4] + (if r < 4 then levels else phases[r / 4 - 1])[r % 4..]
  }

  /** The coil levels when the stepping loop ends, from `levels`: unchanged
      when it never runs, the sequence's last pattern when it completes, and
      the state at the raising write otherwise. */
  function LoopLevels(steps: int, phases: seq<seq<Bit>>, failAt: Option<nat>, levels: seq<Bit>): (l: seq<Bit>)
    requires WellFormed(phases) && |levels| == 4
    ensures |l| == 4
  {
    if Faults(steps, failAt) then
      StepLevels(phases, if failAt.value < 16 then levels else phases[3], failAt.value % 16)
    else if steps > 0 then phases[3]
    else levels
  }

  /** What is logged before the `finally` block starts. */
  function TryEvents(steps: int, direction: string, failAt: Option<nat>): seq<Event>
  {
    SetupEvents() + LoopPart(steps, ChooseSequence(direction), failAt)
  }

  /** The `finally` block: every coil line low, then `cleanup`. */
  function OffEvents(): seq<Event>
  {
    seq(4, k requires 0 <= k < 4 => Output(PINS[k], 0)) + [Cleanup]
  }

  /** The whole log of one call of `run_motor`. */
  function RunEvents(steps: int, direction: string, failAt: Option<nat>): seq<Event>
  {
    TryEvents(steps, direction, failAt) + OffEvents()
  }

  /** How that call ends. */
  function RunOutcome(steps: int, failAt: Option<nat>): Outcome
  {
    if Faults(steps, failAt) then Raised(failAt.value) else Completed
  }

  // ---------------------------------------------------------------------
  // The driver

  /** `run_motor(steps, direction)`. A hardware fault is modelled by
      `failAt`: when it is `Some(k)`, the loop's `k`-th output call raises
      (if the loop gets that far), which ends the `try` block early; the
      `finally` block runs either way. `atFinally` is the coil state at the
      moment the `finally` block starts. */
  method RunMotor(gpio: Board, steps: int, direction: string := "forward", failAt: Option<nat> := None)
    returns (outcome: Outcome, ghost atFinally: seq<Bit>)
    requires gpio.Valid() && gpio.lines == PINS
    modifies gpio, gpio.levels
    ensures gpio.Valid() && gpio.levels == old(gpio.levels)
    ensures gpio.log == old(gpio.log) + RunEvents(steps, direction, failAt)
    ensures outcome == RunOutcome(steps, failAt)
    ensures atFinally == LoopLevels(steps, ChooseSequence(direction), failAt, old(gpio.levels[..]))
    ensures outcome == Completed && steps > 0 ==> atFinally == ChooseSequence(direction)[3]
    ensures gpio.levels[..] == ALL_OFF
    ensures gpio.outputs == {}
  {
    SetUpPins(gpio);
    var phases := ChooseSequence(direction);
    outcome := Stepping(gpio, steps, phases, failAt);
    atFinally := gpio.levels[..];
    AllOff(gpio);
  }

  /** The setup at the head of `run_motor`: configure the library and set
      every coil line up as an output. */
  method SetUpPins(gpio: Board)
    requires gpio.Valid() && gpio.lines == PINS
    modifies gpio`outputs, gpio`log
    ensures gpio.Valid()
    ensures gpio.log == old(gpio.log) + SetupEvents()
    ensures forall m :: 0 <= m < 4 ==> PINS[m] in gpio.outputs
  {
    gpio.SetWarnings(false);
    gpio.SetMode(BCM);
    for k := 0 to 4
      invariant gpio.Valid() && gpio.lines == PINS
      invariant gpio.log == old(gpio.log) + SetupEvents()[..2 + k]
      invariant forall m :: 0 <= m < k ==> PINS[m] in gpio.outputs
    {
      gpio.Setup(PINS[k]);
    }
    assert SetupEvents()[..6] == SetupEvents();
  }

  /** The `try` block: `steps` times through the sequence, each pattern as
      four writes in `PINS` order followed by the delay. It ends early, with
      `Raised(failAt.value)`, when the write `failAt` is reached. */
  method Stepping(gpio: Board, steps: int, phases: seq<seq<Bit>>, failAt: Option<nat>)
    returns (outcome: Outcome)
    requires gpio.Valid() && gpio.lines == PINS && WellFormed(phases)
    requires forall m :: 0 <= m < 4 ==> PINS[m] in gpio.outputs
    modifies gpio`log, gpio.levels
    ensures gpio.Valid() && PINS == gpio.lines
    ensures gpio.log == old(gpio.log) + LoopPart(steps, phases, failAt)
    ensures outcome == RunOutcome(steps, failAt)
    ensures gpio.levels[..] == LoopLevels(steps, phases, failAt, old(gpio.levels[..]))
  {
    ghost var base, start := gpio.log, gpio.levels[..];
    var s := 0;
    while s < steps
      invariant 0 <= s <= Iterations(steps)
      invariant gpio.Valid() && gpio.lines == PINS
      invariant gpio.log == base + LoopEvents(phases, s)
      invariant s == 0 ==> gpio.levels[..] == start
      invariant s > 0 ==> gpio.levels[..] == phases[3]
      invariant failAt.Some? ==> 16 * s <= failAt.value
    {
      var written := Step(gpio, phases, 16 * s, failAt);
      if written < 16 {
        // the write `16 * s + written` raised: control leaves the try block
        assert (16 * s + written) / 16 == s && (16 * s + written) % 16 == written;
        return Raised(16 * s + written);
      }
      s := s + 1;
    }
    return Completed;
  }

  /** One iteration of the stepping loop: `for step in seq`, each pattern
      written and followed by the delay; `w` is the number of loop writes
      issued before. `written` is the number of writes performed: 16, or
      fewer when the write `failAt` raised. */
  method Step(gpio: Board, phases: seq<seq<Bit>>, w: nat, failAt: Option<nat>)
    returns (written: nat)
    requires gpio.Valid() && gpio.lines == PINS && WellFormed(phases)
    requires forall m :: 0 <= m < 4 ==> PINS[m] in gpio.outputs
    modifies gpio`log, gpio.levels
    ensures gpio.Valid() && gpio.lines == PINS
    ensures written <= 16
    ensures written < 16 <==> failAt.Some? && w <= failAt.value < w + 16
    ensures written < 16 ==> failAt == Some(w + written)
    ensures written < 16 ==> gpio.log == old(gpio.log) + StepAttempted(phases, written)
    ensures written == 16 ==> gpio.log == old(gpio.log) + StepPrefix(phases, 4)
    ensures written < 16 ==> gpio.levels[..] == StepLevels(phases, old(gpio.levels[..]), written)
    ensures written == 16 ==> gpio.levels[..] == phases[3]
  {
    ghost var start := gpio.levels[..];
    for j := 0 to 4
      invariant gpio.Valid() && gpio.lines == PINS
      invariant gpio.log == old(gpio.log) + StepPrefix(phases, j)
      invariant j == 0 ==> gpio.levels[..] == start
      invariant j > 0 ==> gpio.levels[..] == phases[j - 1]
      invariant failAt.Some? ==> !(w <= failAt.value < w + 4 * j)
    {
      var done := ApplyPattern(gpio, phases[j], w + 4 * j, failAt);
      if done < 4 {
        // the write `w + 4 * j + done` raised
        assert (4 * j + done) / 4 == j && (4 * j + done) % 4 == done;
        return 4 * j + done;
      }
      assert StepPrefix(phases, j + 1) == StepPrefix(phases, j) + PatternWrites(phases[j]) + [Sleep(DELAY_MILLIS)];
    }
    return 16;
  }

  /** The body of `for step in seq`: `for i in range(4): GPIO.output(PINS[i],
      step[i])`, then the delay; `w` is the number of loop writes issued
      before. `written` is the number of writes performed: 4, or fewer when
      the write `failAt` raised, in which case no delay follows. */
  method ApplyPattern(gpio: Board, pattern: seq<Bit>, w: nat, failAt: Option<nat>)
    returns (written: nat)
    requires gpio.Valid() && gpio.lines == PINS && |pattern| == 4
    requires forall m :: 0 <= m < 4 ==> PINS[m] in gpio.outputs
    modifies gpio`log, gpio.levels
    ensures gpio.Valid() && gpio.lines == PINS
    ensures written <= 4
    ensures written < 4 <==> failAt.Some? && w <= failAt.value < w + 4
    ensures written < 4 ==> failAt == Some(w + written)
    ensures written < 4 ==> gpio.log == old(gpio.log) + PatternWrites(pattern)[..written]
    ensures written < 4 ==> gpio.levels[..] == pattern[..written] + old(gpio.levels[..])[written..]
    ensures written == 4 ==> gpio.log == old(gpio.log) + PatternWrites(pattern) + [Sleep(DELAY_MILLIS)]
    ensures written == 4 ==> gpio.levels[..] == pattern
  {
    ghost var before := gpio.levels[..];
    for i := 0 to 4
      invariant gpio.Valid() && gpio.lines == PINS
      invariant gpio.log == old(gpio.log) + PatternWrites(pattern)[..i]
      invariant gpio.levels[..] == pattern[..i] + before[i..]
      invariant failAt.Some? ==> !(w <= failAt.value < w + i)
    {
      if failAt == Some(w + i) {
        return i;
      }
      gpio.Output(PINS[i], pattern[i]);
      IndexOfDistinct(PINS, i);
      TakeOneMore(PatternWrites(pattern), i);
      Overwrite(pattern, before, i);
    }
    assert PatternWrites(pattern)[..4] == PatternWrites(pattern);
    assert pattern[..4] + before[4..] == pattern;
    gpio.Sleep(DELAY_MILLIS);
    return 4;
  }

  /** The `finally` block: every coil line driven low, then `cleanup`. */
  method AllOff(gpio: Board)
    requires gpio.Valid() && gpio.lines == PINS
    requires forall m :: 0 <= m < 4 ==> PINS[m] in gpio.outputs
    modifies gpio`outputs, gpio`log, gpio.levels
    ensures gpio.Valid()
    ensures gpio.log == old(gpio.log) + OffEvents()
    ensures gpio.levels[..] == ALL_OFF
    ensures gpio.outputs == {}
  {
    ghost var before := gpio.levels[..];
    for k := 0 to 4
      invariant gpio.Valid() && gpio.lines == PINS
      invariant forall m :: 0 <= m < 4 ==> PINS[m] in gpio.outputs
      invariant gpio.log == old(gpio.log) + OffEvents()[..k]
      invariant gpio.levels[..] == ALL_OFF[..k] + before[k..]
    {
      gpio.Output(PINS[k], 0);
      IndexOfDistinct(PINS, k);
      TakeOneMore(OffEvents(), k);
      Overwrite(ALL_OFF, before, k);
    }
    gpio.Cleanup();
    assert OffEvents()[..4] + [Cleanup] == OffEvents();
  }

  lemma TakeOneMore<T>(s: seq<T>, i: nat)
    requires i < |s|
    ensures s[..i + 1] == s[..i] + [s[i]]
  {
  }

  /** Writing slot `i` of a half-updated state updates one more slot. */
  lemma Overwrite(target: seq<Bit>, before: seq<Bit>, i: nat)
    requires |target| == |before| == 4 && i < 4
    ensures (target[..i] + before[i..])[i := target[i]] == target[..i + 1] + before[i + 1..]
  {
  }
}

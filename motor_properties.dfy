/** What one call of `run_motor` does, stated on the log it produces. */
module MotorProperties {
  import opened Gpio
  import opened MotorLogic

  /** The output writes of one call, in order. */
  function RunWrites(steps: int, direction: string, failAt: Option<nat>): seq<Event>
  {
    Writes(RunEvents(steps, direction, failAt))
  }

  /** The `finally` block's writes: every coil line low, in `PINS` order. */
  function OffWrites(): seq<Event>
  {
    seq(4, k requires 0 <= k < 4 => Output(PINS[k], 0))
  }

  /** Reference for the loop's write `w`: line `PINS[w % 4]` gets entry
      `w % 4` of pattern `(w / 4) % 4` of the chosen sequence. */
  function Scheduled(phases: seq<seq<Bit>>, w: nat): Event
    requires WellFormed(phases)
  {
    Output(PINS[w % 4], phases[(w / 4) % 4][w % 4])
  }

  /** The four writes with numbers `4 * m` to `4 * m + 3`: pattern number `m`. */
  function Group(t: seq<Event>, m: nat): seq<Event>
    requires 4 * m + 4 <= |t|
  {
    t[4 * m..4 * m + 4]
  }

  /** The number of coil lines a pattern energises. */
  function Energised(pattern: seq<Bit>): int
    requires |pattern| == 4
  {
    pattern[0] as int + pattern[1] as int + pattern[2] as int + pattern[3] as int
  }

  // ---------------------------------------------------------------------
  // Writes of the pieces of a log

  lemma {:induction false} WritesOfWrites(t: seq<Event>)
    requires forall k :: 0 <= k < |t| ==> t[k].Output?
    ensures Writes(t) == t
    decreases |t|
  {
    if t != [] {
      WritesOfWrites(t[..|t| - 1]);
    }
  }

  lemma {:induction false} WritesOfNoWrites(t: seq<Event>)
    requires forall k :: 0 <= k < |t| ==> !t[k].Output?
    ensures Writes(t) == []
    decreases |t|
  {
    if t != [] {
      WritesOfNoWrites(t[..|t| - 1]);
    }
  }

  /** Every write of a log is kept by `Writes`. */
  lemma {:induction false} WritesKeep(t: seq<Event>, e: nat)
    requires e < |t| && t[e].Output?
    ensures t[e] in Writes(t)
    decreases |t|
  {
    if e < |t| - 1 {
      WritesKeep(t[..|t| - 1], e);
    }
  }

  /** Loop write `w` lies in step `s`: its line and pattern depend only on
      its position inside that step. */
  lemma Shift(w: nat, s: nat)
    requires 16 * s <= w < 16 * s + 16
    ensures w % 4 == (w - 16 * s) % 4 && (w / 4) % 4 == (w - 16 * s) / 4
  {
  }

  /** The writes of one more pattern of a step. */
  lemma PatternStepWrites(phases: seq<seq<Bit>>, j: nat)
    requires WellFormed(phases) && 0 < j <= 4
    ensures Writes(StepPrefix(phases, j)) == Writes(StepPrefix(phases, j - 1)) + PatternWrites(phases[j - 1])
  {
    var before, p, sleep := StepPrefix(phases, j - 1), PatternWrites(phases[j - 1]), [Sleep(DELAY_MILLIS)];
    assert StepPrefix(phases, j) == (before + p) + sleep;
    WritesAppend(before + p, sleep);
    WritesAppend(before, p);
    WritesOfWrites(p);
    WritesOfNoWrites(sleep);
  }

  lemma {:induction false} StepPrefixWrites(phases: seq<seq<Bit>>, j: nat)
    requires WellFormed(phases) && j <= 4
    ensures |Writes(StepPrefix(phases, j))| == 4 * j
    ensures forall r :: 0 <= r < 4 * j ==>
      Writes(StepPrefix(phases, j))[r] == Output(PINS[r % 4], phases[r / 4][r % 4])
  {
    if j > 0 {
      StepPrefixWrites(phases, j - 1);
      PatternStepWrites(phases, j);
      var B, P := Writes(StepPrefix(phases, j - 1)), PatternWrites(phases[j - 1]);
      forall r | 0 <= r < 4 * j
        ensures (B + P)[r] == Output(PINS[r % 4], phases[r / 4][r % 4])
      {
        if r >= 4 * (j - 1) {
          assert r / 4 == j - 1 && r % 4 == r - 4 * (j - 1);
          assert (B + P)[r] == P[r - 4 * (j - 1)];
        }
      }
    }
  }

  /** `n` whole steps write the reference schedule, 16 writes a step. */
  lemma {:induction false} LoopWrites(phases: seq<seq<Bit>>, n: nat)
    requires WellFormed(phases)
    ensures |Writes(LoopEvents(phases, n))| == 16 * n
    ensures forall w :: 0 <= w < 16 * n ==> Writes(LoopEvents(phases, n))[w] == Scheduled(phases, w)
  {
    if n > 0 {
      LoopWrites(phases, n - 1);
      WritesAppend(LoopEvents(phases, n - 1), StepPrefix(phases, 4));
      StepPrefixWrites(phases, 4);
      ScheduleAppend(phases, Writes(LoopEvents(phases, n - 1)), Writes(StepPrefix(phases, 4)), n - 1);
    }
  }

  /** The writes of `s` whole steps followed by those of one more step are
      the writes of `s + 1` steps. */
  lemma ScheduleAppend(phases: seq<seq<Bit>>, B: seq<Event>, S: seq<Event>, s: nat)
    requires WellFormed(phases)
    requires |B| == 16 * s && forall w :: 0 <= w < 16 * s ==> B[w] == Scheduled(phases, w)
    requires |S| == 16 && forall r :: 0 <= r < 16 ==> S[r] == Output(PINS[r % 4], phases[r / 4][r % 4])
    ensures forall w :: 0 <= w < 16 * s + 16 ==> (B + S)[w] == Scheduled(phases, w)
  {
    forall w | 0 <= w < 16 * s + 16
      ensures (B + S)[w] == Scheduled(phases, w)
    {
      if w >= 16 * s {
        Shift(w, s);
        assert (B + S)[w] == S[w - 16 * s];
      }
    }
  }

  /** One step stopped at its write `r` has made that step's first `r` writes. */
  lemma StepAttemptedWrites(phases: seq<seq<Bit>>, r: nat)
    requires WellFormed(phases) && r < 16
    ensures |Writes(StepAttempted(phases, r))| == r
    ensures forall t :: 0 <= t < r ==>
      Writes(StepAttempted(phases, r))[t] == Output(PINS[t % 4], phases[t / 4][t % 4])
  {
    var j, i := r / 4, r % 4;
    StepPrefixWrites(phases, j);
    WritesAppend(StepPrefix(phases, j), PatternWrites(phases[j])[..i]);
    WritesOfWrites(PatternWrites(phases[j])[..i]);
    forall t | 4 * j <= t < r
      ensures Writes(StepAttempted(phases, r))[t] == Output(PINS[t % 4], phases[t / 4][t % 4])
    {
      assert t / 4 == j && t % 4 == t - 4 * j;
    }
  }

  /** A loop stopped at its write `k` has made exactly the first `k` writes
      of the schedule. */
  lemma AttemptedWrites(phases: seq<seq<Bit>>, k: nat)
    requires WellFormed(phases)
    ensures |Writes(Attempted(phases, k))| == k
    ensures forall w :: 0 <= w < k ==> Writes(Attempted(phases, k))[w] == Scheduled(phases, w)
  {
    var s, r := k / 16, k % 16;
    LoopWrites(phases, s);
    StepAttemptedWrites(phases, r);
    WritesAppend(LoopEvents(phases, s), StepAttempted(phases, r));
    forall w | 16 * s <= w < k
      ensures Writes(Attempted(phases, k))[w] == Scheduled(phases, w)
    {
      Shift(w, s);
    }
  }

  /** The setup writes nothing; the `finally` block writes the off writes. */
  lemma FrameWrites()
    ensures Writes(SetupEvents()) == []
    ensures Writes(OffEvents()) == OffWrites()
  {
    WritesOfNoWrites(SetupEvents());
    assert OffEvents() == OffWrites() + [Cleanup];
    WritesAppend(OffWrites(), [Cleanup]);
    WritesOfWrites(OffWrites());
    WritesOfNoWrites([Cleanup]);
  }

  /** A run's writes are its loop's writes followed by the off writes. */
  lemma WritesOfRun(steps: int, direction: string, failAt: Option<nat>)
    ensures RunWrites(steps, direction, failAt)
         == Writes(LoopPart(steps, ChooseSequence(direction), failAt)) + OffWrites()
  {
    var setup, loop, off := SetupEvents(), LoopPart(steps, ChooseSequence(direction), failAt), OffEvents();
    assert RunEvents(steps, direction, failAt) == (setup + loop) + off;
    WritesAppend(setup + loop, off);
    WritesAppend(setup, loop);
    FrameWrites();
  }

  // ---------------------------------------------------------------------
  // Properties of a run

  /** Reference for write `w` of a fault-free run: line `PINS[w % 4]` gets
      entry `w % 4` of pattern `(w / 4) % 4` of `SEQUENCE`, the patterns
      counted from the end of the list for any direction but "forward". */
  function Expected(direction: string, w: nat): Event
  {
    var j := (w / 4) % 4;
    Output(PINS[w % 4], SEQUENCE[if direction == "forward" then j else 3 - j][w % 4])
  }

  lemma ScheduledIsExpected(direction: string, w: nat)
    ensures Scheduled(ChooseSequence(direction), w) == Expected(direction, w)
  {
  }

  /** Write `i` of pattern `m` is write `4 * m + i` of the loop. */
  lemma Split4(m: nat, i: nat)
    requires i < 4
    ensures (4 * m + i) % 4 == i && ((4 * m + i) / 4) % 4 == m % 4
  {
  }

  /** A fault-free run makes `16 * steps` coil writes (none for `steps <= 0`),
      write `w` being `Expected(direction, w)`, and then the four off writes. */
  lemma RunSchedule(steps: int, direction: string)
    ensures |RunWrites(steps, direction, None)| == 16 * Iterations(steps) + 4
    ensures forall w :: 0 <= w < 16 * Iterations(steps) ==>
      RunWrites(steps, direction, None)[w] == Expected(direction, w)
    ensures RunWrites(steps, direction, None)[16 * Iterations(steps)..] == OffWrites()
  {
    var phases, n := ChooseSequence(direction), Iterations(steps);
    WritesOfRun(steps, direction, None);
    assert LoopPart(steps, phases, None) == LoopEvents(phases, n);
    var L := Writes(LoopEvents(phases, n));
    LoopWrites(phases, n);
    assert RunWrites(steps, direction, None) == L + OffWrites();
    forall w | 0 <= w < 16 * n
      ensures (L + OffWrites())[w] == Expected(direction, w)
    {
      ScheduledIsExpected(direction, w);
    }
  }

  /** The patterns of a schedule of `16 * n` writes plus four. */
  lemma GroupsOfSchedule(W: seq<Event>, n: nat, direction: string)
    requires |W| == 16 * n + 4
    requires forall w :: 0 <= w < 16 * n ==> W[w] == Expected(direction, w)
    requires W[16 * n..] == OffWrites()
    ensures Group(W, 4 * n) == PatternWrites(ALL_OFF)
    ensures forall m :: 0 <= m < 4 * n ==>
      Group(W, m) == PatternWrites(SEQUENCE[if direction == "forward" then m % 4 else 3 - m % 4])
  {
    forall m | 0 <= m < 4 * n
      ensures Group(W, m) == PatternWrites(SEQUENCE[if direction == "forward" then m % 4 else 3 - m % 4])
    {
      var p := SEQUENCE[if direction == "forward" then m % 4 else 3 - m % 4];
      forall i | 0 <= i < 4
        ensures Group(W, m)[i] == PatternWrites(p)[i]
      {
        Split4(m, i);
        assert Group(W, m)[i] == W[4 * m + i];
      }
    }
    assert Group(W, 4 * n) == W[16 * n..];
    assert OffWrites() == PatternWrites(ALL_OFF);
  }

  /** Pattern `m` of a fault-free run is entry `m % 4` of `SEQUENCE` (of the
      list read backwards for any direction but "forward"), written one line
      at a time in `PINS` order; `4 * steps` patterns in all, then the
      all-low pattern of the `finally` block. */
  lemma PatternsInOrder(steps: int, direction: string)
    ensures |RunWrites(steps, direction, None)| == 4 * (4 * Iterations(steps) + 1)
    ensures forall m :: 0 <= m < 4 * Iterations(steps) ==>
      Group(RunWrites(steps, direction, None), m)
        == PatternWrites(SEQUENCE[if direction == "forward" then m % 4 else 3 - m % 4])
    ensures Group(RunWrites(steps, direction, None), 4 * Iterations(steps)) == PatternWrites(ALL_OFF)
  {
    RunSchedule(steps, direction);
    GroupsOfSchedule(RunWrites(steps, direction, None), Iterations(steps), direction);
  }

  /** Both sequences consist of `SEQUENCE`'s own patterns, each energising
      exactly two of the four coil lines: reversing reorders, it never
      inverts a bit. */
  lemma TwoCoilsPerPattern(direction: string)
    ensures forall j :: 0 <= j < 4 ==>
      ChooseSequence(direction)[j] in SEQUENCE && Energised(ChooseSequence(direction)[j]) == 2
  {
    var phases := ChooseSequence(direction);
    forall j | 0 <= j < 4
      ensures phases[j] in SEQUENCE && Energised(phases[j]) == 2
    {
      assert phases[j] == SEQUENCE[if direction == "forward" then j else 3 - j];
    }
  }

  /** With `steps <= 0` the loop body never runs: the log is the setup,
      the four off writes and `cleanup`, whatever the fault point, and the
      lines keep their levels until the `finally` block. */
  lemma NoSteps(steps: int, direction: string, failAt: Option<nat>)
    requires steps <= 0
    ensures RunEvents(steps, direction, failAt) == SetupEvents() + OffEvents()
    ensures RunOutcome(steps, failAt) == Completed
    ensures RunWrites(steps, direction, failAt) == OffWrites()
    ensures forall levels :: |levels| == 4 ==> LoopLevels(steps, ChooseSequence(direction), failAt, levels) == levels
  {
    WritesOfRun(steps, direction, failAt);
  }

  /** The loop stopped at write `k` of `n` steps has made a prefix of the
      writes of the whole loop. */
  lemma AttemptedIsPrefix(phases: seq<seq<Bit>>, n: nat, k: nat)
    requires WellFormed(phases) && k <= 16 * n
    ensures |Writes(LoopEvents(phases, n))| == 16 * n
    ensures Writes(Attempted(phases, k)) == Writes(LoopEvents(phases, n))[..k]
  {
    var A, L := Writes(Attempted(phases, k)), Writes(LoopEvents(phases, n));
    AttemptedWrites(phases, k);
    LoopWrites(phases, n);
    assert forall w :: 0 <= w < k ==> A[w] == Scheduled(phases, w) == L[w];
  }

  /** A write that raises part-way through the loop cuts the coil writes
      short at exactly that write; the off writes still follow. A fault
      point past the run's last coil write changes nothing. */
  lemma FaultedRun(steps: int, direction: string, k: nat)
    ensures |RunWrites(steps, direction, None)| == 16 * Iterations(steps) + 4
    ensures k < 16 * Iterations(steps) ==>
      RunOutcome(steps, Some(k)) == Raised(k) &&
      RunWrites(steps, direction, Some(k)) == RunWrites(steps, direction, None)[..k] + OffWrites()
    ensures k >= 16 * Iterations(steps) ==>
      RunOutcome(steps, Some(k)) == Completed &&
      RunEvents(steps, direction, Some(k)) == RunEvents(steps, direction, None)
  {
    var phases, n := ChooseSequence(direction), Iterations(steps);
    WritesOfRun(steps, direction, None);
    assert LoopPart(steps, phases, None) == LoopEvents(phases, n);
    LoopWrites(phases, n);
    if k < 16 * n {
      WritesOfRun(steps, direction, Some(k));
      assert LoopPart(steps, phases, Some(k)) == Attempted(phases, k);
      AttemptedIsPrefix(phases, n, k);
      var L := Writes(LoopEvents(phases, n));
      assert (L + OffWrites())[..k] == L[..k];
    }
  }

  lemma {:induction false} ReplayPatternPrefix(levels: seq<Bit>, pattern: seq<Bit>, i: nat)
    requires |levels| == 4 && |pattern| == 4 && i <= 4
    ensures Replay(PINS, levels, PatternWrites(pattern)[..i]) == pattern[..i] + levels[i..]
  {
    if i > 0 {
      var t := PatternWrites(pattern)[..i];
      assert t[..i - 1] == PatternWrites(pattern)[..i - 1];
      ReplayPatternPrefix(levels, pattern, i - 1);
      var prev := Replay(PINS, levels, t[..i - 1]);
      assert Replay(PINS, levels, t) == Apply(PINS, prev, t[i - 1]);
      assert t[i - 1] == Output(PINS[i - 1], pattern[i - 1]);
      assert Distinct(PINS);
      IndexOfDistinct(PINS, i - 1);
      assert Apply(PINS, prev, t[i - 1]) == prev[i - 1 := pattern[i - 1]];
      Overwrite(pattern, levels, i - 1);
    }
  }

  /** Applying a pattern leaves the coil lines exactly in that pattern. */
  lemma ReplayPattern(levels: seq<Bit>, pattern: seq<Bit>)
    requires |levels| == 4 && |pattern| == 4
    ensures Replay(PINS, levels, PatternWrites(pattern)) == pattern
  {
    ReplayPatternPrefix(levels, pattern, 4);
    assert PatternWrites(pattern)[..4] == PatternWrites(pattern);
  }

  /** Whatever was logged before it, the `finally` block closes the log
      and leaves all four lines low as `cleanup` is called. */
  lemma FinallyAllOff(tried: seq<Event>, levels: seq<Bit>)
    requires |levels| == 4
    ensures (tried + OffEvents())[|tried + OffEvents()| - 5..] == OffEvents()
    ensures Replay(PINS, levels, (tried + OffEvents())[..|tried + OffEvents()| - 1]) == ALL_OFF
  {
    var t := tried + OffEvents();
    assert t[..|t| - 1] == tried + PatternWrites(ALL_OFF);
    ReplayAppend(PINS, levels, tried, PatternWrites(ALL_OFF));
    ReplayPattern(Replay(PINS, levels, tried), ALL_OFF);
  }

  /** On every exit, completed or cut short by a fault, the log ends with
      the four off writes and `cleanup`, and whatever the lines held before,
      they are all low when `cleanup` is called. */
  lemma EveryExitAllOff(steps: int, direction: string, failAt: Option<nat>, levels: seq<Bit>)
    requires |levels| == 4
    ensures |RunEvents(steps, direction, failAt)| >= 5
    ensures RunEvents(steps, direction, failAt)[|RunEvents(steps, direction, failAt)| - 5..] == OffEvents()
    ensures Replay(PINS, levels, RunEvents(steps, direction, failAt)[..|RunEvents(steps, direction, failAt)| - 1])
         == ALL_OFF
  {
    FinallyAllOff(TryEvents(steps, direction, failAt), levels);
  }

  /** After the first `j > 0` patterns of a step the lines hold pattern `j - 1`. */
  lemma ReplayStepPrefix(phases: seq<seq<Bit>>, levels: seq<Bit>, j: nat)
    requires WellFormed(phases) && |levels| == 4 && 0 < j <= 4
    ensures Replay(PINS, levels, StepPrefix(phases, j)) == phases[j - 1]
  {
    var before := StepPrefix(phases, j - 1);
    var sleep := [Sleep(DELAY_MILLIS)];
    assert StepPrefix(phases, j) == (before + PatternWrites(phases[j - 1])) + sleep;
    ReplayAppend(PINS, levels, before + PatternWrites(phases[j - 1]), sleep);
    ReplayAppend(PINS, levels, before, PatternWrites(phases[j - 1]));
    ReplayPattern(Replay(PINS, levels, before), phases[j - 1]);
    assert sleep[..0] == [];
  }

  /** `StepLevels` is what the writes of a step cut short before write `r`
      leave on the lines. */
  lemma StepLevelsReplayed(phases: seq<seq<Bit>>, levels: seq<Bit>, r: nat)
    requires WellFormed(phases) && |levels| == 4 && r < 16
    ensures Replay(PINS, levels, StepAttempted(phases, r)) == StepLevels(phases, levels, r)
  {
    var j, d := r / 4, r % 4;
    ReplayAppend(PINS, levels, StepPrefix(phases, j), PatternWrites(phases[j])[..d]);
    if j > 0 {
      ReplayStepPrefix(phases, levels, j);
    }
    ReplayPatternPrefix(Replay(PINS, levels, StepPrefix(phases, j)), phases[j], d);
  }

  /** After `n > 0` whole steps the lines hold the sequence's last pattern. */
  lemma ReplayLoop(phases: seq<seq<Bit>>, levels: seq<Bit>, n: nat)
    requires WellFormed(phases) && |levels| == 4 && n > 0
    ensures Replay(PINS, levels, LoopEvents(phases, n)) == phases[3]
  {
    ReplayAppend(PINS, levels, LoopEvents(phases, n - 1), StepPrefix(phases, 4));
    ReplayStepPrefix(phases, Replay(PINS, levels, LoopEvents(phases, n - 1)), 4);
  }

  /** `LoopLevels` is what the stepping loop's log leaves on the lines, on
      every way out of the loop. */
  lemma LoopLevelsReplayed(steps: int, phases: seq<seq<Bit>>, failAt: Option<nat>, levels: seq<Bit>)
    requires WellFormed(phases) && |levels| == 4
    ensures Replay(PINS, levels, LoopPart(steps, phases, failAt)) == LoopLevels(steps, phases, failAt, levels)
  {
    if Faults(steps, failAt) {
      var k := failAt.value;
      ReplayAppend(PINS, levels, LoopEvents(phases, k / 16), StepAttempted(phases, k % 16));
      var mid := Replay(PINS, levels, LoopEvents(phases, k / 16));
      if k / 16 > 0 {
        ReplayLoop(phases, levels, k / 16);
      }
      assert mid == if k < 16 then levels else phases[3];
      StepLevelsReplayed(phases, mid, k % 16);
    } else if steps > 0 {
      ReplayLoop(phases, levels, Iterations(steps));
    }
  }

  /** The setup calls change no level. */
  lemma ReplaySetup(levels: seq<Bit>)
    requires |levels| == 4
    ensures Replay(PINS, levels, SetupEvents()) == levels
  {
    var t := SetupEvents();
    assert forall k :: 0 <= k < |t| ==> !t[k].Output? by {
      assert t == [SetWarnings(false), SetMode(BCM), Setup(17), Setup(18), Setup(27), Setup(22)];
    }
    ReplayWithoutWrites(PINS, levels, t);
  }

  /** The lines as the `finally` block starts, which `RunMotor` reports as
      `atFinally`, are what the log of the `try` part leaves on them. */
  lemma FinallyLevels(steps: int, direction: string, failAt: Option<nat>, levels: seq<Bit>)
    requires |levels| == 4
    ensures Replay(PINS, levels, TryEvents(steps, direction, failAt))
         == LoopLevels(steps, ChooseSequence(direction), failAt, levels)
  {
    var phases := ChooseSequence(direction);
    ReplayAppend(PINS, levels, SetupEvents(), LoopPart(steps, phases, failAt));
    ReplaySetup(levels);
    LoopLevelsReplayed(steps, phases, failAt, levels);
  }

  /** After the setup and `n > 0` whole steps the lines hold the last
      pattern of the sequence. */
  lemma LastPatternOfLoop(phases: seq<seq<Bit>>, n: nat, levels: seq<Bit>)
    requires WellFormed(phases) && n > 0 && |levels| == 4
    ensures Replay(PINS, levels, SetupEvents() + LoopEvents(phases, n)) == phases[3]
  {
    var before := SetupEvents() + LoopEvents(phases, n - 1);
    assert SetupEvents() + LoopEvents(phases, n) == before + StepPrefix(phases, 4);
    ReplayAppend(PINS, levels, before, StepPrefix(phases, 4));
    ReplayStepPrefix(phases, Replay(PINS, levels, before), 4);
  }

  /** When the loop completes at least one step, the lines hold the last
      pattern of the chosen sequence as the `finally` block starts:
      `[1, 0, 0, 1]` forward, `[1, 1, 0, 0]` otherwise. */
  lemma LastPatternHeld(steps: int, direction: string, levels: seq<Bit>)
    requires steps > 0 && |levels| == 4
    ensures Replay(PINS, levels, TryEvents(steps, direction, None))
         == if direction == "forward" then [1, 0, 0, 1] else [1, 1, 0, 0]
  {
    var phases := ChooseSequence(direction);
    assert TryEvents(steps, direction, None) == SetupEvents() + LoopEvents(phases, steps);
    LastPatternOfLoop(phases, steps, levels);
  }

  /** Every write of a run goes to one of the four coil lines. */
  lemma RunWritesOnCoils(steps: int, direction: string, failAt: Option<nat>)
    ensures forall x :: x in RunWrites(steps, direction, failAt) ==> x.Output? && x.pin in PINS
  {
    var phases := ChooseSequence(direction);
    WritesOfRun(steps, direction, failAt);
    if Faults(steps, failAt) {
      AttemptedWrites(phases, failAt.value);
    } else {
      LoopWrites(phases, Iterations(steps));
    }
  }

  /** In a log that starts with the setup and writes only coil lines,
      every write comes after the setup of the line it drives. */
  lemma SetupPrecedes(t: seq<Event>)
    requires |t| >= 6 && t[..6] == SetupEvents()
    requires forall x :: x in Writes(t) ==> x.Output? && x.pin in PINS
    ensures forall e :: 0 <= e < |t| && t[e].Output? ==> Setup(t[e].pin) in t[..e]
  {
    assert forall k :: 0 <= k < 6 ==> !t[k].Output? by {
      assert forall k :: 0 <= k < 6 ==> t[k] == t[..6][k];
    }
    forall e | 0 <= e < |t| && t[e].Output?
      ensures Setup(t[e].pin) in t[..e]
    {
      WritesKeep(t, e);
      var m := IndexOf(PINS, t[e].pin);
      assert t[2 + m] == SetupEvents()[2 + m] == Setup(t[e].pin);
      assert t[..e][2 + m] == t[2 + m];
    }
  }

  /** The four coil lines are set up as outputs at the start, and every
      write, on every path, comes after the setup of the line it drives. */
  lemma SetupBeforeOutput(steps: int, direction: string, failAt: Option<nat>)
    ensures RunEvents(steps, direction, failAt)[..6] == SetupEvents()
    ensures forall e ::
      0 <= e < |RunEvents(steps, direction, failAt)| && RunEvents(steps, direction, failAt)[e].Output? ==>
        Setup(RunEvents(steps, direction, failAt)[e].pin) in RunEvents(steps, direction, failAt)[..e]
  {
    var t := RunEvents(steps, direction, failAt);
    assert t[..6] == SetupEvents();
    RunWritesOnCoils(steps, direction, failAt);
    SetupPrecedes(t);
  }
}

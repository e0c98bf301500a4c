/** The part of the Raspberry Pi GPIO library that the motor driver uses,
    seen from the driver: four tracked output lines whose latched levels are
    an array, and an append-only log of every library call (and of every
    delay) in the order the driver makes them. */
module Gpio {

  /** An output level: 0 is LOW (also written `False`), 1 is HIGH. */
  type Bit = b: int | 0 <= b <= 1

  /** The two pin-numbering schemes the library offers. */
  datatype Numbering = BCM | BOARD

  /** One observable call on the library or the clock. */
  datatype Event =
    | SetWarnings(enabled: bool)
    | SetMode(numbering: Numbering)
    | Setup(pin: int)                // configure `pin` as an output
    | Output(pin: int, level: Bit)   // drive `pin` to `level`
    | Sleep(millis: nat)             // a delay; it changes no pin
    | Cleanup                        // release every channel

  /** The output writes of a log, in order. */
  function Writes(t: seq<Event>): (w: seq<Event>)
    ensures |w| <= |t|
    ensures forall k :: 0 <= k < |w| ==> w[k].Output?
  {
    if t == [] then []
    else Writes(t[..|t| - 1]) + (if t[|t| - 1].Output? then [t[|t| - 1]] else [])
  }

  lemma {:induction false} WritesAppend(a: seq<Event>, b: seq<Event>)
    ensures Writes(a + b) == Writes(a) + Writes(b)
    decreases |b|
  {
    if b == [] {
      assert a + b == a;
    } else {
      var b' := b[..|b| - 1];
      assert (a + b)[..|a + b| - 1] == a + b';
      WritesAppend(a, b');
    }
  }

  /** Position of `x` in `s`, which holds it. */
  function IndexOf(s: seq<int>, x: int): (k: nat)
    requires x in s
    ensures k < |s| && s[k] == x
    ensures forall j :: 0 <= j < k ==> s[j] != x
  {
    if s[0] == x then 0 else 1 + IndexOf(s[1..], x)
  }

  /** No channel number occurs twice in `lines`. */
  predicate Distinct(lines: seq<int>)
  {
    forall a, b :: 0 <= a < b < |lines| ==> lines[a] != lines[b]
  }

  lemma IndexOfDistinct(s: seq<int>, k: nat)
    requires Distinct(s) && k < |s|
    ensures IndexOf(s, s[k]) == k
  {
  }

  /** The levels of the tracked `lines` after event `e`: an output write to
      a tracked line sets that line's slot; nothing else changes a level. */
  function Apply(lines: seq<int>, levels: seq<Bit>, e: Event): (r: seq<Bit>)
    requires |levels| == |lines|
    ensures |r| == |levels|
  {
    if e.Output? && e.pin in lines then levels[IndexOf(lines, e.pin) := e.level] else levels
  }

  /** The levels after the events of `t`, in order, starting from `levels`. */
  function Replay(lines: seq<int>, levels: seq<Bit>, t: seq<Event>): (r: seq<Bit>)
    requires |levels| == |lines|
    ensures |r| == |levels|
  {
    if t == [] then levels else Apply(lines, Replay(lines, levels, t[..|t| - 1]), t[|t| - 1])
  }

  lemma {:induction false} ReplayAppend(lines: seq<int>, levels: seq<Bit>, a: seq<Event>, b: seq<Event>)
    requires |levels| == |lines|
    ensures Replay(lines, levels, a + b) == Replay(lines, Replay(lines, levels, a), b)
    decreases |b|
  {
    if b == [] {
      assert a + b == a;
    } else {
      var b' := b[..|b| - 1];
      assert (a + b)[..|a + b| - 1] == a + b';
      ReplayAppend(lines, levels, a, b');
    }
  }

  /** A log without output writes leaves every level as it was. */
  lemma {:induction false} ReplayWithoutWrites(lines: seq<int>, levels: seq<Bit>, t: seq<Event>)
    requires |levels| == |lines|
    requires forall k :: 0 <= k < |t| ==> !t[k].Output?
    ensures Replay(lines, levels, t) == levels
    decreases |t|
  {
    if t != [] {
      ReplayWithoutWrites(lines, levels, t[..|t| - 1]);
    }
  }

  /** The library restricted to four channels: `levels[k]` is the level last
      driven on channel `lines[k]`, `outputs` the channels currently set up
      as outputs, and `log` every call so far. */
  class Board {
    const lines: seq<int>
    var levels: array<Bit>
    var outputs: set<int>
    var log: seq<Event>

    ghost predicate Valid()
      reads this
    {
      |lines| == 4 && Distinct(lines) && levels.Length == 4 &&
      forall p :: p in outputs ==> p in lines
    }

    /** A board on which nothing has been configured yet, all lines low. */
    constructor (wiring: seq<int>)
      requires |wiring| == 4 && Distinct(wiring)
      ensures Valid() && fresh(levels)
      ensures lines == wiring && levels[..] == [0, 0, 0, 0]
      ensures outputs == {} && log == []
    {
      lines := wiring;
      levels := new Bit[4](_ => 0);
      outputs := {};
      log := [];
    }

    /** `GPIO.setwarnings(enabled)`. */
    method SetWarnings(enabled: bool)
      modifies this`log
      ensures log == old(log) + [Event.SetWarnings(enabled)]
    {
      log := log + [Event.SetWarnings(enabled)];
    }

    /** `GPIO.setmode(numbering)`. */
    method SetMode(numbering: Numbering)
      modifies this`log
      ensures log == old(log) + [Event.SetMode(numbering)]
    {
      log := log + [Event.SetMode(numbering)];
    }

    /** `GPIO.setup(pin, GPIO.OUT)`: from now on `pin` may be driven. */
    method Setup(pin: int)
      requires Valid() && pin in lines
      modifies this`outputs, this`log
      ensures Valid()
      ensures outputs == old(outputs) + {pin}
      ensures log == old(log) + [Event.Setup(pin)]
    {
      outputs := outputs + {pin};
      log := log + [Event.Setup(pin)];
    }

    /** `GPIO.output(pin, level)`: only a channel set up as an output may be
        driven; exactly its slot of `levels` changes. */
    method Output(pin: int, level: Bit)
      requires Valid() && pin in outputs
      modifies this`log, levels
      ensures Valid()
      ensures levels[..] == Apply(lines, old(levels[..]), Event.Output(pin, level))
      ensures log == old(log) + [Event.Output(pin, level)]
    {
      levels[IndexOf(lines, pin)] := level;
      log := log + [Event.Output(pin, level)];
    }

    /** `time.sleep(millis / 1000)`: recorded, no pin changes. */
    method Sleep(millis: nat)
      modifies this`log
      ensures log == old(log) + [Event.Sleep(millis)]
    {
      log := log + [Event.Sleep(millis)];
    }

    /** `GPIO.cleanup()`: every channel stops being an output; the latched
        levels are the ones driven last. */
    method Cleanup()
      requires Valid()
      modifies this`outputs, this`log
      ensures Valid()
      ensures outputs == {}
      ensures log == old(log) + [Event.Cleanup]
    {
      outputs := {};
      log := log + [Event.Cleanup];
    }
  }
}

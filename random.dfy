/** The Tone.Random object: a randomised recurring scheduler whose fields the
    methods update in place. Calls into `Tone.Event` and `Tone.Transport` are
    returned as effects; the `Math.random()` draw is a parameter. */
module ToneRandom {
  import Sampling
  import opened Scheduling

  /** A call delegated to the underlying `Tone.Event` (`this._event`). */
  datatype EventCall = EventStart(at: Option<real>) | EventStop(at: Option<real>)

  /** What the `range` setter can be given: a JavaScript array (only its first
      two elements are read), a number, or any other value. */
  datatype RangeInput = ArrayInput(items: array<real>) | NumberInput(x: real) | OtherInput

  /** `Tone.Random.defaults`. */
  const DefaultCallback: Callback := NoOp
  const DefaultRange: seq<real> := [1.0, 2.0]
  const DefaultKind: string := "uniform"
  const DefaultIterations: Iterations := Infinite
  const DefaultMute: bool := false

  class Random {
    /** `callback`; None stands for the null written by `dispose`. */
    var callback: Option<Callback>
    /** `_range`: the stored min/max array. No method replaces it, so its
        identity is fixed for the life of the object. */
    const range: array<real>
    /** `type`: the distribution name. */
    var kind: string
    /** `_playbackRate` and `_startOffset`, fixed at construction. */
    var playbackRate: real
    var startOffset: int
    /** `mute`: stored, never read by `_tick`. */
    var mute: bool
    /** `_loop` and `_iterations`. */
    var loop: bool
    var iterations: Iterations

    ghost predicate Valid()
      reads this
    {
      range.Length == 2
    }

    /** The modelled fields as a value. */
    function Snapshot(): State
      reads this, range
      requires Valid()
    {
      State(loop, iterations, range[0], range[1], callback, kind, mute)
    }

    /** `new Tone.Random(options)` with every option given. The range array
        is stored as given, so the caller's array and `_range` are one
        object. `_loop` starts true. */
    constructor (callback: Callback, range: array<real>, kind: string, iterations: Iterations, mute: bool)
      requires range.Length == 2
      ensures Valid() && this.range == range
      ensures Snapshot() == State(true, iterations, range[0], range[1], Some(callback), kind, mute)
      ensures playbackRate == 1.0 && startOffset == 0
    {
      this.callback := Some(callback);
      this.range := range;
      this.kind := kind;
      this.loop := true;
      this.playbackRate := 1.0;
      this.startOffset := 0;
      this.mute := mute;
      this.iterations := iterations;
    }

    /** `new Tone.Random()` with every option taken from the defaults. */
    constructor WithDefaults()
      ensures Valid() && fresh(range) && range[..] == DefaultRange
      ensures Snapshot() == State(true, DefaultIterations, 1.0, 2.0, Some(DefaultCallback), DefaultKind, DefaultMute)
      ensures playbackRate == 1.0 && startOffset == 0
    {
      var r := new real[2];
      r[0], r[1] := DefaultRange[0], DefaultRange[1];
      this.callback := Some(DefaultCallback);
      this.range := r;
      this.kind := DefaultKind;
      this.loop := true;
      this.playbackRate := 1.0;
      this.startOffset := 0;
      this.mute := DefaultMute;
      this.iterations := DefaultIterations;
    }

    /** `_tick(time)`: proved to do what `TickSpec` says. Only `_iterations`
        can change. */
    method Tick(time: real, draw: real) returns (effect: TickEffect)
      requires Valid()
      modifies this`iterations
      ensures (Snapshot(), effect) == TickSpec(old(Snapshot()), time, draw)
    {
      effect := Skipped;
      if loop {
        if iterations == Infinite {
          effect := Invoke(time, draw);
        } else if iterations.count > 0 {
          iterations := Finite(iterations.count - 1);
          effect := Invoke(time, draw);
        }
      }
    }

    /** `this.callback(time)` followed by `Tone.Transport.schedule` of the
        next tick after a uniform delay drawn from the current range. */
    method Invoke(time: real, draw: real) returns (effect: TickEffect)
      requires Valid()
      ensures effect == CallAndReschedule(Snapshot(), time, draw)
    {
      if callback == None {
        effect := CallbackNull;
      } else {
        var delay := Sampling.GenRandomNum(range[0], range[1], draw);
        effect := Fired(callback.value, time, iterations, delay);
      }
    }

    /** `start(time)`: sets `_loop`, delegates to the event, returns `this`. */
    method Start(time: Option<real>) returns (self: Random, call: EventCall)
      requires Valid()
      modifies this`loop
      ensures self == this && call == EventStart(time)
      ensures Snapshot() == old(Snapshot()).(loop := true)
    {
      loop := true;
      call := EventStart(time);
      self := this;
    }

    /** `stop(time)`: clears `_loop`, delegates to the event, returns `this`. */
    method Stop(time: Option<real>) returns (self: Random, call: EventCall)
      requires Valid()
      modifies this`loop
      ensures self == this && call == EventStop(time)
      ensures Snapshot() == old(Snapshot()).(loop := false)
    {
      loop := false;
      call := EventStop(time);
      self := this;
    }

    /** `dispose()`: drops the callback and nothing else; returns nothing. */
    method Dispose()
      requires Valid()
      modifies this`callback
      ensures Snapshot() == old(Snapshot()).(callback := None)
    {
      callback := None;
    }

    /** The `range` getter: the stored array itself, not a copy. */
    method GetRange() returns (r: array<real>)
      requires Valid()
      ensures r == range && r.Length == 2
      ensures r[0] == Snapshot().low && r[1] == Snapshot().high
    {
      r := range;
    }

    /** The `range` setter. An array has its first two elements copied into
        the stored array (which stays the same object); a number `x` gives
        `[0, x]`; anything else is ignored. */
    method SetRange(input: RangeInput)
      requires Valid()
      requires input.ArrayInput? ==> input.items.Length >= 2
      modifies range
      ensures input.ArrayInput? ==>
        range[..] == [old(input.items[0]), old(input.items[1])]
      ensures input.NumberInput? ==> range[..] == [0.0, input.x]
      ensures input.OtherInput? ==> range[..] == old(range[..])
      ensures Snapshot() == old(Snapshot()).(low := range[0], high := range[1])
    {
      match input
      case ArrayInput(items) =>
        range[0] := items[0];
        range[1] := items[1];
      case NumberInput(x) =>
        range[0] := 0.0;
        range[1] := x;
      case OtherInput =>
    }

    /** The `iterations` getter. */
    method GetIterations() returns (n: Iterations)
      requires Valid()
      ensures n == Snapshot().iterations
    {
      n := iterations;
    }

    /** The `iterations` setter: stores the value without any check. */
    method SetIterations(iters: Iterations)
      requires Valid()
      modifies this`iterations
      ensures Snapshot() == old(Snapshot()).(iterations := iters)
    {
      iterations := iters;
    }
  }

  /** Three iterations and no explicit stop: three callbacks, each followed by
      one scheduled tick with a delay inside the range, then a fourth tick
      that does nothing while `_loop` stays true. The range array passed in
      is the one the getter hands back. */
  method ThreeIterationsScenario()
  {
    var bounds := new real[2];
    bounds[0], bounds[1] := 5.0, 10.0;
    var rand := new Random(Handler(1), bounds, "gaussian", Finite(3), true);
    var e1 := rand.Tick(0.0, 0.5);
    assert e1 == Fired(Handler(1), 0.0, Finite(2), 7.5);
    var e2 := rand.Tick(7.5, 0.0);
    assert e2 == Fired(Handler(1), 7.5, Finite(1), 5.0);
    var e3 := rand.Tick(12.5, 0.25);
    assert e3.Fired? && e3.iterationsSeen == Finite(0);
    var e4 := rand.Tick(20.0, 0.75);
    assert e4 == Skipped && rand.loop && rand.iterations == Finite(0);
    var r := rand.GetRange();
    assert r == bounds;
  }

  /** A stop before the pending tick arrives: that tick fires nothing. A
      number given to the `range` setter writes into the caller's array. */
  method StopBeforeTickScenario()
  {
    var rand := new Random.WithDefaults();
    var self, call := rand.Start(Some(0.0));
    assert call == EventStart(Some(0.0));
    self, call := rand.Stop(Some(0.0));
    var e := rand.Tick(0.0, 0.5);
    assert e == Skipped;
    var shared := rand.GetRange();
    rand.SetRange(NumberInput(4.0));
    assert shared[..] == [0.0, 4.0];
  }
}

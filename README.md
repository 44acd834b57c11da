# Tone.Random: a randomised recurring scheduler, in Dafny

`Tone.Random` calls a user callback again and again. The gap between two calls
is drawn at random from a `[min, max]` range. Each call of its tick handler
`_tick(time)` does one of two things:

- it does nothing at all;
- or it uses up one iteration (when the budget is finite), calls the callback
  with `time`, and asks `Tone.Transport` to run `_tick` again after a freshly
  drawn delay.

`start` and `stop` only switch the `_loop` flag and pass the call on to an
internal `Tone.Event`. When a finite budget runs out, ticks simply stop
rescheduling. `_loop` stays true in that case.

The model has three modules:

- `Sampling` (`sampling.dfy`) covers the two pure functions.
  - `_genRandom` is a dispatch on the `type` string. The Box–Muller sampler
    is an opaque branch of it.
  - `_genRandomNum` is the uniform affine map `r * (max - min) + min`. The
    `Math.random()` draw `r` is a parameter.
- `Scheduling` (`scheduling.dfy`) is the value-level view of the fields `_tick` uses.
  - `TickSpec` is one tick as a function giving the new state and the
    observable effect.
  - `Run` is a sequence of ticks.
  - The lemmas state what one tick and what many ticks do.
- `ToneRandom` (`random.dfy`) holds the class `Random`.
  - It has the object's fields.
  - `_range` is a length-2 `array<real>` that the setter updates in place.
  - Each method is proved against `Scheduling`: `Tick` ensures exactly what
    `TickSpec` says of the old field values.
  - Two client methods show the three-iterations case and the
    stop-before-tick case. They also show that the range array stays the
    object the caller passed in.

Tick effects are values of `TickEffect`:

- `Skipped`: neither a callback nor a schedule.
- `Fired(callback, time, iterationsSeen, delay)`: one callback call, then one
  scheduled tick at `"+" + delay`. `iterationsSeen` records the budget the
  callback observes, which is already decremented.
- `CallbackNull`: the callback has been set to null by `dispose`, so calling
  it throws.

The model follows the code as written, also where its own comments promise more:

- `mute` is stored but never read, so a muted scheduler still calls its
  callback, although the field's comment says it would not.
- The delay always comes from the uniform sampler, whatever `type` says.
- An unknown distribution name gives no value (JavaScript `undefined`). It is
  not an error.
- Nothing clamps `_iterations`. The `iterations` setter stores any value.
  `_tick` only decrements a positive count.
- `dispose` returns nothing. Its doc comment says it returns `this`.
- Exhausting the budget writes no state. `_loop` stays true.

## Model

| member | source | states |
|---|---|---|
| `Sampling.DispatchByKind` | Tone/event/Random.js:139-154 | "u"/"uniform" give exactly the uniform map of the draw; "gauss"/"gaussian" give exactly the Box–Muller branch over the same bounds; every other string, and only those, gives no value (both directions) |
| `Sampling.UnimplementedKindsYieldNothing` | Tone/event/Random.js:147-153 | "power", "powerlaw" and the string label "default" produce no value |
| `Sampling.UniformInRange` | Tone/event/Random.js:163-167 | for a draw in [0, 1) and min < max, `_genRandomNum` lies in [min, max) |
| `Sampling.UniformInInvertedRange` | Tone/event/Random.js:163-167 | an inverted range is not rejected: for max < min the sample lies in (max, min] |
| `Sampling.UniformDegenerateRange` | Tone/event/Random.js:163-167 | with min == max every draw gives min |
| `Scheduling.TickWhenStopped` | Tone/event/Random.js:262-275 | with `_loop` false a tick fires no callback, schedules nothing and leaves every field unchanged |
| `Scheduling.TickWithFiniteBudget` | Tone/event/Random.js:267-271 | with finite `_iterations = n > 0` a tick sets it to n - 1 before the callback (which sees n - 1), calls the callback once with `time`, schedules one tick after the uniform delay, and changes nothing else |
| `Scheduling.TickWithInfiniteBudget` | Tone/event/Random.js:264-266 | with `_iterations = Infinity` an enabled tick fires once, schedules once, and the state, `Infinity` included, is unchanged |
| `Scheduling.TickWhenExhausted` | Tone/event/Random.js:262-275 | with finite `_iterations <= 0` a tick fires and schedules nothing, changes nothing, and `_loop` stays true |
| `Scheduling.TickAfterDispose` | Tone/event/Random.js:262-271 | with a null callback an enabled tick with budget left throws instead of calling, and a finite budget has already been decremented |
| `Scheduling.TickIgnoresMuteAndKind` | Tone/event/Random.js:262-275 | changing `mute` or `type` changes neither the effect of a tick nor any other field of its result |
| `Scheduling.TickDelayIsUniform` | Tone/event/Random.js:264-271 | a fired tick's delay is the "uniform" sample of the draw whatever `type` is, and lies in [low, high) for a draw in [0, 1) |
| `Scheduling.TickFrame` | Tone/event/Random.js:262-275 | a tick never changes `_loop`, the range, the callback, `type` or `mute`, and never takes a non-negative finite budget below zero |
| `Scheduling.RunFromFinite` | Tone/event/Random.js:264-273 | from finite n >= 0 with `_loop` true, k ticks fire exactly min(k, n) callbacks: tick i fires (seeing n - 1 - i left) iff i < n; the budget ends at n - min(k, n) >= 0 and `_loop` stays true |
| `Scheduling.RunFromInfinite` | Tone/event/Random.js:264-266 | with `Infinity`, each of k ticks fires once with its own time and delay, and the state never changes |
| `Scheduling.RunWhileStopped` | Tone/event/Random.js:262-275 | once `_loop` is false, any number of ticks fire nothing and change nothing |
| `ToneRandom.Random.constructor` | Tone/event/Random.js:21-114 | stores the callback, the caller's own range array (same object), `type`, `mute` and the iterations; `_loop` starts true, `_playbackRate` 1, `_startOffset` 0 |
| `ToneRandom.Random.WithDefaults` | Tone/event/Random.js:123-130 | the defaults: no-op callback, range [1, 2], "uniform", `Infinity` iterations, not muted |
| `ToneRandom.Random.Tick` | Tone/event/Random.js:239-276 | the new fields and the returned effect are exactly `TickSpec` of the old fields; only `_iterations` may change |
| `ToneRandom.Random.Invoke` | Tone/event/Random.js:264-271 | calls the callback (or throws on null) and schedules the next tick after the uniform delay over the current range |
| `ToneRandom.Random.Start` | Tone/event/Random.js:205-211 | sets `_loop` true and nothing else, delegates `start(time)` to the event, returns `this` |
| `ToneRandom.Random.Stop` | Tone/event/Random.js:218-222 | sets `_loop` false and nothing else, delegates `stop(time)` to the event, returns `this` |
| `ToneRandom.Random.Dispose` | Tone/event/Random.js:383-387 | sets only the callback to null |
| `ToneRandom.Random.GetRange` | Tone/event/Random.js:348-350 | returns the stored range array itself, not a copy |
| `ToneRandom.Random.SetRange` | Tone/event/Random.js:351-359 | an array copies its first two elements into the same stored array (also when it is that array); a number x gives [0, x]; any other input changes nothing; no other field changes |
| `ToneRandom.Random.GetIterations` | Tone/event/Random.js:371-373 | returns `_iterations` |
| `ToneRandom.Random.SetIterations` | Tone/event/Random.js:374-376 | stores the value unchecked and changes nothing else |

## Left out

- `_genRandomBMNum` (the Box–Muller sampler) is left out. It uses
  logarithms, cosines, square roots and powers of floating-point numbers, and
  it resamples by unbounded recursion. The dispatch only records that it was
  chosen, together with its bounds.
- `Math.random()` is a parameter (`draw`) of the operations that use it.
- JavaScript numbers are modelled as exact reals. Floating-point rounding,
  `NaN` and `-Infinity` are not modelled.
- `ToneRandom.Random.Tick` and `Scheduling.TickSpec` model `_iterations` as `Infinity`
  or an integer. A fractional count, which the setter would accept, is not
  modelled.
- `ToneRandom.Random.SetRange` requires an array input to have at least two elements.
  For a shorter array JavaScript would store `undefined`, and later delays
  would be `NaN`.
- `ToneRandom.Random.constructor` requires a two-element range array. JavaScript would
  also accept a longer array, or a non-array that later breaks `_tick`.
- The callback is assumed not to act on the scheduler while it runs. If it
  did, it could for example change the range before the next delay is drawn.
  The callback's own exceptions are not modelled either.
- `Tone.Transport.schedule` and the `Tone.Event` methods `start`/`stop` are
  foreign calls.
  - They appear only as returned effects: `Fired` with its delay, and
    `EventStart` and `EventStop`.
  - A tick that is already queued when `stop` is called is not cancelled
    either in the source or in the model. Only the `_loop` check inside the
    tick stops it.
- The `"+" + delay` relative-time string is not modelled.
- Start and stop times are `Option<real>`. Tone's other time notations are
  not modelled.
- `Tone.defaults` option merging is not modelled. The constructor takes its
  options explicitly, and `WithDefaults` uses `Tone.Random.defaults`.
- `WithDefaults` allocates a new range array. Whether two instances built
  from the defaults would share the single `[1, 2]` array of
  `Tone.Random.defaults` depends on `Tone.defaults`, which is not part of
  this model.
- The following are unseen library code and are not modelled:
  - the `toTicks` conversions of `loopStart`/`loopEnd`;
  - the `Tone.TimelineState` in `_state`;
  - the creation of `_event` with its forwarded `playbackRate` and
    `probability`;
  - the assignment to the inherited `playbackRate` at Tone/event/Random.js:110.
- `console.log` is I/O and is not modelled.
- The commented-out code is not modelled: `cancel` and the `state`,
  `progress`, `playbackRate` and `mute` accessors.

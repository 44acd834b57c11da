/** The value-level view of Tone.Random's self-rescheduling loop: the fields
    that `_tick` reads and writes, one tick as a function of them, and runs of
    ticks. The class in module ToneRandom is proved against `TickSpec`. */
module Scheduling {
  import Sampling

  datatype Option<T> = None | Some(value: T)

  /** `_iterations`: the JavaScript value `Infinity`, or a finite count. */
  datatype Iterations = Infinite | Finite(count: int)

  /** The user callback, identified by name only: `Tone.noOp` (the default)
      or some caller-supplied function. */
  datatype Callback = NoOp | Handler(id: nat)

  /** What one call of `_tick(time)` does that can be observed from outside.
      - `Skipped`: nothing (stopped, or the finite budget is used up).
      - `Fired`: the callback was called once with `time`, while `_iterations`
        held `iterationsSeen`, and then exactly one further tick was handed to
        `Tone.Transport.schedule` with relative time "+" + `delay`.
      - `CallbackNull`: `this.callback` is null (after `dispose`), so calling
        it throws a TypeError; nothing is scheduled. */
  datatype TickEffect =
    | Skipped
    | Fired(callback: Callback, time: real, iterationsSeen: Iterations, delay: real)
    | CallbackNull

  /** The modelled fields of a Tone.Random: `_loop`, `_iterations`,
      `_range[0]`, `_range[1]`, `callback` (None is null), `type` and `mute`. */
  datatype State = State(
    loop: bool,
    iterations: Iterations,
    low: real,
    high: real,
    callback: Option<Callback>,
    kind: string,
    mute: bool)

  /** The arguments of one tick: the time it is called with and the
      `Math.random()` draw used for the next delay. */
  datatype TickInput = TickInput(time: real, draw: real)

  /** Calling the callback and scheduling the next tick, in state `s` (whose
      `_iterations` has already been decremented when finite). The delay
      always comes from the uniform sampler `_genRandomNum`, whatever `type` is. */
  function CallAndReschedule(s: State, time: real, draw: real): TickEffect
  {
    match s.callback
    case None => CallbackNull
    case Some(cb) => Fired(cb, time, s.iterations, Sampling.GenRandomNum(s.low, s.high, draw))
  }

  /** `_tick(time)`: the new state and the effect. */
  function TickSpec(s: State, time: real, draw: real): (State, TickEffect)
  {
    if !s.loop then (s, Skipped)
    else if s.iterations == Infinite then (s, CallAndReschedule(s, time, draw))
    else if s.iterations.count > 0 then
      var decremented := s.(iterations := Finite(s.iterations.count - 1));
      (decremented, CallAndReschedule(decremented, time, draw))
    else (s, Skipped)
  }

  /** A tick both calls the callback and schedules its successor exactly when
      its effect is `Fired`. */
  predicate Scheduled(e: TickEffect) { e.Fired? }

  /** Ticks applied one after the other, with the effect of each. */
  function Run(s: State, ticks: seq<TickInput>): (r: (State, seq<TickEffect>))
    ensures |r.1| == |ticks|
    decreases |ticks|
  {
    if ticks == [] then (s, [])
    else
      var (next, e) := TickSpec(s, ticks[0].time, ticks[0].draw);
      var (last, es) := Run(next, ticks[1..]);
      (last, [e] + es)
  }

  /** How many effects in `es` are callback invocations. */
  function FiredCount(es: seq<TickEffect>): nat
  {
    if es == [] then 0 else (if es[0].Fired? then 1 else 0) + FiredCount(es[1..])
  }

  function Min(a: int, b: int): int { if a <= b then a else b }

  // ---------------------------------------------------------------------
  // One tick
  // ---------------------------------------------------------------------

  /** With `_loop` false a tick does nothing at all. */
  lemma TickWhenStopped(s: State, time: real, draw: real)
    requires !s.loop
    ensures TickSpec(s, time, draw) == (s, Skipped)
  {
  }

  /** A finite positive budget: `_iterations` drops by exactly one before the
      callback runs (the callback sees the decremented value), the callback
      is called once with `time`, and one further tick is scheduled. */
  lemma TickWithFiniteBudget(s: State, time: real, draw: real, n: int)
    requires s.loop && s.iterations == Finite(n) && n > 0
    requires s.callback.Some?
    ensures TickSpec(s, time, draw).0 == s.(iterations := Finite(n - 1))
    ensures TickSpec(s, time, draw).1
         == Fired(s.callback.value, time, Finite(n - 1), Sampling.GenRandomNum(s.low, s.high, draw))
  {
  }

  /** An infinite budget: every enabled tick fires and reschedules once, and
      nothing in the state changes. */
  lemma TickWithInfiniteBudget(s: State, time: real, draw: real)
    requires s.loop && s.iterations == Infinite
    requires s.callback.Some?
    ensures TickSpec(s, time, draw)
         == (s, Fired(s.callback.value, time, Infinite, Sampling.GenRandomNum(s.low, s.high, draw)))
  {
  }

  /** An exhausted finite budget: nothing fires, nothing is scheduled, and
      `_loop` stays true; exhaustion is not recorded as a stop. */
  lemma TickWhenExhausted(s: State, time: real, draw: real, n: int)
    requires s.loop && s.iterations == Finite(n) && n <= 0
    ensures TickSpec(s, time, draw) == (s, Skipped)
    ensures TickSpec(s, time, draw).0.loop
  {
  }

  /** After `dispose` an enabled tick with budget left throws on the null
      callback, having already consumed one iteration when finite. */
  lemma TickAfterDispose(s: State, time: real, draw: real)
    requires s.loop && s.callback == None
    requires s.iterations.Finite? ==> s.iterations.count > 0
    ensures TickSpec(s, time, draw).1 == CallbackNull
    ensures TickSpec(s, time, draw).0
         == if s.iterations == Infinite then s
            else s.(iterations := Finite(s.iterations.count - 1))
  {
  }

  /** Neither `mute` nor `type` has any influence on a tick: changing them
      changes nothing but themselves. */
  lemma TickIgnoresMuteAndKind(s: State, mute: bool, kind: string, time: real, draw: real)
    ensures TickSpec(s.(mute := mute, kind := kind), time, draw)
         == (TickSpec(s, time, draw).0.(mute := mute, kind := kind), TickSpec(s, time, draw).1)
  {
  }

  /** The next delay is the uniform sample even when `type` names another
      distribution, and for a draw in [0, 1) it lies in [low, high). */
  lemma TickDelayIsUniform(s: State, time: real, draw: real)
    requires TickSpec(s, time, draw).1.Fired?
    ensures TickSpec(s, time, draw).1.delay == Sampling.GenRandom("uniform", s.low, s.high, draw).value
    ensures 0.0 <= draw < 1.0 && s.low < s.high ==>
              s.low <= TickSpec(s, time, draw).1.delay < s.high
  {
    if 0.0 <= draw < 1.0 && s.low < s.high {
      Sampling.UniformInRange(s.low, s.high, draw);
    }
  }

  /** A tick never changes the range, the callback, `type`, `mute` or `_loop`,
      and never takes a non-negative finite budget below zero. */
  lemma TickFrame(s: State, time: real, draw: real)
    ensures var t := TickSpec(s, time, draw).0;
      t.loop == s.loop && t.low == s.low && t.high == s.high &&
      t.callback == s.callback && t.kind == s.kind && t.mute == s.mute
    ensures s.iterations.Finite? && s.iterations.count >= 0 ==>
      TickSpec(s, time, draw).0.iterations.Finite? && TickSpec(s, time, draw).0.iterations.count >= 0
  {
  }

  // ---------------------------------------------------------------------
  // Runs of ticks
  // ---------------------------------------------------------------------

  lemma {:induction false} FiredCountAppend(e: TickEffect, es: seq<TickEffect>)
    ensures FiredCount([e] + es) == (if e.Fired? then 1 else 0) + FiredCount(es)
  {
    assert ([e] + es)[1..] == es;
  }

  /** Starting from a finite budget `n >= 0` with `_loop` true, `k` ticks fire
      exactly `min(k, n)` callbacks: the first `n` ticks fire (the i-th one
      seeing `n - 1 - i` iterations left) and the rest are skipped. The budget
      ends at `n - min(k, n)`, never below zero, and `_loop` stays true. */
  lemma {:induction false} RunFromFinite(s: State, ticks: seq<TickInput>, n: nat)
    requires s.loop && s.iterations == Finite(n) && s.callback.Some?
    ensures Run(s, ticks).0 == s.(iterations := Finite(n - Min(|ticks|, n)))
    ensures FiredCount(Run(s, ticks).1) == Min(|ticks|, n)
    ensures forall i :: 0 <= i < |ticks| ==>
      Run(s, ticks).1[i]
        == if i < n
           then Fired(s.callback.value, ticks[i].time, Finite(n - 1 - i),
                      Sampling.GenRandomNum(s.low, s.high, ticks[i].draw))
           else Skipped
    decreases |ticks|
  {
    if ticks != [] {
      var rest := ticks[1..];
      var (next, e) := TickSpec(s, ticks[0].time, ticks[0].draw);
      var m: nat := if n > 0 then n - 1 else 0;
      assert next == s.(iterations := Finite(m));
      RunFromFinite(next, rest, m);
      var es := Run(next, rest).1;
      assert Run(s, ticks).1 == [e] + es;
      FiredCountAppend(e, es);
      forall i | 0 <= i < |ticks|
        ensures Run(s, ticks).1[i]
          == if i < n
             then Fired(s.callback.value, ticks[i].time, Finite(n - 1 - i),
                        Sampling.GenRandomNum(s.low, s.high, ticks[i].draw))
             else Skipped
      {
        if i > 0 {
          assert rest[i - 1] == ticks[i];
        }
      }
    }
  }

  /** With an infinite budget every one of `k` ticks fires, and the state
      never changes. */
  lemma {:induction false} RunFromInfinite(s: State, ticks: seq<TickInput>)
    requires s.loop && s.iterations == Infinite && s.callback.Some?
    ensures Run(s, ticks).0 == s
    ensures FiredCount(Run(s, ticks).1) == |ticks|
    ensures forall i :: 0 <= i < |ticks| ==>
      Run(s, ticks).1[i]
        == Fired(s.callback.value, ticks[i].time, Infinite,
                 Sampling.GenRandomNum(s.low, s.high, ticks[i].draw))
    decreases |ticks|
  {
    if ticks != [] {
      var rest := ticks[1..];
      RunFromInfinite(s, rest);
      var e := TickSpec(s, ticks[0].time, ticks[0].draw).1;
      var es := Run(s, rest).1;
      assert Run(s, ticks).1 == [e] + es;
      FiredCountAppend(e, es);
      forall i | 0 <= i < |ticks|
        ensures Run(s, ticks).1[i]
          == Fired(s.callback.value, ticks[i].time, Infinite,
                   Sampling.GenRandomNum(s.low, s.high, ticks[i].draw))
      {
        if i > 0 {
          assert rest[i - 1] == ticks[i];
        }
      }
    }
  }

  /** Once `_loop` is false (after `stop`), any number of ticks fire nothing,
      schedule nothing and change nothing. */
  lemma {:induction false} RunWhileStopped(s: State, ticks: seq<TickInput>)
    requires !s.loop
    ensures Run(s, ticks).0 == s
    ensures FiredCount(Run(s, ticks).1) == 0
    ensures forall i :: 0 <= i < |ticks| ==> Run(s, ticks).1[i] == Skipped
    decreases |ticks|
  {
    if ticks != [] {
      var rest := ticks[1..];
      RunWhileStopped(s, rest);
      var es := Run(s, rest).1;
      assert Run(s, ticks).1 == [Skipped] + es;
      FiredCountAppend(Skipped, es);
    }
  }
}

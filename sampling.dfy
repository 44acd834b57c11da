/** Random-number generation of Tone.Random: the kind dispatch `_genRandom`
    and the uniform affine map `_genRandomNum`. The `Math.random()` draw is a
    parameter `r`; JavaScript numbers are modelled as reals. */
module Sampling {

  /** What `_genRandom` hands back. The Box–Muller sampler is kept as an opaque
      branch: `BoxMuller(min, max)` records that `_genRandomBMNum(min, max)`
      was called, without modelling the number it produces. `NoValue` is the
      JavaScript `undefined` returned when no case of the switch returns. */
  datatype Sample = Uniform(value: real) | BoxMuller(min: real, max: real) | NoValue

  /** `_genRandomNum(min, max)`: the draw `r` stretched over `diff = max - min`
      and shifted by `min`. */
  function GenRandomNum(min: real, max: real, r: real): real
  {
    Stretch(r, max - min) + min
  }

  /** The draw scaled by the width of the range (`Math.random() * diff`). */
  function Stretch(r: real, diff: real): real
  {
    r * diff
  }

  /** `_genRandom(min, max)` with `this.type` passed as `kind`. The labels
      "power", "powerlaw" and the string "default" match but return nothing,
      and every other string falls out of the switch: all give `NoValue`. */
  function GenRandom(kind: string, min: real, max: real, r: real): Sample
  {
    match kind
    case "u" => Uniform(GenRandomNum(min, max, r))
    case "uniform" => Uniform(GenRandomNum(min, max, r))
    case "gauss" => BoxMuller(min, max)
    case "gaussian" => BoxMuller(min, max)
    case _ => NoValue
  }

  /** The kinds that select a sampler, and nothing else. */
  predicate IsUniformKind(kind: string) { kind == "u" || kind == "uniform" }
  predicate IsGaussianKind(kind: string) { kind == "gauss" || kind == "gaussian" }

  /** Dispatch: the two uniform names give the uniform map of the same draw,
      the two gaussian names defer to Box–Muller over the same bounds, and
      every other string (including "power", "powerlaw" and "default")
      yields no value. */
  lemma DispatchByKind(kind: string, min: real, max: real, r: real)
    ensures GenRandom(kind, min, max, r).Uniform? <==> IsUniformKind(kind)
    ensures IsUniformKind(kind) ==> GenRandom(kind, min, max, r).value == GenRandomNum(min, max, r)
    ensures GenRandom(kind, min, max, r).BoxMuller? <==> IsGaussianKind(kind)
    ensures IsGaussianKind(kind) ==> GenRandom(kind, min, max, r) == BoxMuller(min, max)
    ensures GenRandom(kind, min, max, r).NoValue? <==> !IsUniformKind(kind) && !IsGaussianKind(kind)
  {
  }

  /** The declared-but-unimplemented kinds, and the string label "default",
      produce nothing. */
  lemma UnimplementedKindsYieldNothing(min: real, max: real, r: real)
    ensures GenRandom("power", min, max, r) == NoValue
    ensures GenRandom("powerlaw", min, max, r) == NoValue
    ensures GenRandom("default", min, max, r) == NoValue
  {
  }

  /** For a draw in [0, 1) and a proper range, the uniform map lands in
      [min, max). */
  lemma UniformInRange(min: real, max: real, r: real)
    requires 0.0 <= r < 1.0
    requires min < max
    ensures min <= GenRandomNum(min, max, r) < max
  {
    StretchBounds(r, max - min);
  }

  /** An inverted range (min > max) is not rejected: the map lands in
      (max, min] instead. */
  lemma UniformInInvertedRange(min: real, max: real, r: real)
    requires 0.0 <= r < 1.0
    requires max < min
    ensures max < GenRandomNum(min, max, r) <= min
  {
    StretchBounds(r, min - max);
    StretchNegate(r, min - max);
    assert -(min - max) == max - min;
  }

  /** A degenerate range (min == max) always gives min. */
  lemma UniformDegenerateRange(min: real, r: real)
    ensures GenRandomNum(min, min, r) == min
  {
  }

  /** A draw in [0, 1) scaled by a positive width stays in [0, width). */
  lemma StretchBounds(r: real, diff: real)
    requires 0.0 <= r < 1.0 && 0.0 < diff
    ensures 0.0 <= Stretch(r, diff) < diff
  {
    NonNegativeProduct(r, diff);
    PositiveProduct(1.0 - r, diff);
    assert (1.0 - r) * diff == diff - r * diff;
  }

  lemma StretchNegate(r: real, diff: real)
    ensures Stretch(r, -diff) == -Stretch(r, diff)
  {
  }

  lemma NonNegativeProduct(a: real, b: real)
    requires 0.0 <= a && 0.0 <= b
    ensures 0.0 <= a * b
  {
  }

  lemma PositiveProduct(a: real, b: real)
    requires 0.0 < a && 0.0 < b
    ensures 0.0 < a * b
  {
  }
}

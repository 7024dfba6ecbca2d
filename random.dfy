/**
 * The uniform draw `Math.random() * (max - min) + min` that both the layout
 * engine and the particle spawner use. The random number itself is a
 * parameter `r`; callers that want the bounds pass `0 <= r < 1`.
 */
module Random {

  /** `r` is a value `Math.random()` can return. */
  predicate IsUnit(r: real) {
    0.0 <= r < 1.0
  }

  /** Every element of `rs` is a value `Math.random()` can return. */
  predicate AllUnit(rs: seq<real>) {
    forall i :: 0 <= i < |rs| ==> IsUnit(rs[i])
  }

  /** Scaling a non-negative span by a fraction in [0,1] stays inside the span. */
  lemma ScaleWithin(t: real, span: real)
    ensures 0.0 <= t <= 1.0 && 0.0 <= span ==> 0.0 <= t * span <= span
    ensures 0.0 <= t < 1.0 && 0.0 < span ==> t * span < span
  {
    if 0.0 <= t <= 1.0 && 0.0 <= span {
      assert span - t * span == (1.0 - t) * span;
    }
  }

  /** Scaling by a non-zero span can be undone by dividing by it. */
  lemma Unscale(t: real, span: real)
    ensures span != 0.0 ==> (t * span) / span == t
  {
  }

  /** `rand(min, max)`: the draw `r` mapped linearly onto the interval from `min` to `max`. */
  function Rand(min: real, max: real, r: real): (v: real)
    ensures IsUnit(r) && min <= max ==> min <= v <= max
    ensures IsUnit(r) && min < max ==> v < max
  {
    var span := max - min;
    ScaleWithin(r, span);
    r * span + min
  }
}

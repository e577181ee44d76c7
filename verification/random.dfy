/** The range arithmetic of pkg/utils/random.go. The generator itself is not
    modelled: every raw draw (`rand.Intn`, `rand.Int63n`, `rand.Float64`) is a
    parameter, constrained to the range the generator guarantees. */
module Random {

  /** `rand.Float64()` returns a value in [0, 1). */
  predicate UnitDraw(u: real)
  {
    0.0 <= u < 1.0
  }

  /** `min + rand.Intn(max-min+1)`, with the draw of `rand.Intn` given as `draw`.
      `rand.Intn` panics unless its argument is positive, hence `min <= max`. */
  function RandomInt(min: int, max: int, draw: int): (r: int)
    requires min <= max
    requires 0 <= draw < max - min + 1
    ensures min <= r <= max
  {
    min + draw
  }

  /** Every value in [min, max] is produced by exactly one draw. */
  lemma RandomIntCoversRange(min: int, max: int, v: int)
    requires min <= v <= max
    ensures 0 <= v - min < max - min + 1 && RandomInt(min, max, v - min) == v
    ensures forall d :: 0 <= d < max - min + 1 && RandomInt(min, max, d) == v ==> d == v - min
  {
  }

  /** `min + rand.Float64()*(max-min)` in exact arithmetic. */
  function RandomFloat(min: real, max: real, u: real): (r: real)
    requires min <= max
    requires UnitDraw(u)
    ensures min <= r <= max
    ensures min < max ==> r < max
  {
    var span := max - min;
    assert 0.0 <= u * span;
    assert span - u * span == (1.0 - u) * span;
    assert 0.0 <= (1.0 - u) * span;
    assert min < max ==> 0.0 < (1.0 - u) * span;
    min + u * span
  }

  /** `rand.Int63n(int64(max-min) + int64(min))` as the code computes it: the
      argument simplifies to `max`, so the result lies in [0, max), not in
      [min, max] as the function's doc comment says. `rand.Int63n` panics
      unless its argument is positive. */
  function RandomDuration(min: int, max: int, draw: int): (r: int)
    requires (max - min) + min > 0
    requires 0 <= draw < (max - min) + min
    ensures 0 <= r < max
  {
    draw
  }

  /** With min = 5 and max = 10, the draw 0 gives 0, which is below `min`. */
  lemma RandomDurationBelowMin()
    ensures RandomDuration(5, 10, 0) < 5
  {
  }

  /** The evident intent: `min + rand.Int63n(max-min)`, a duration in [min, max). */
  function RandomDurationIntended(min: int, max: int, draw: int): (r: int)
    requires min < max
    requires 0 <= draw < max - min
    ensures min <= r < max
  {
    min + draw
  }

  /** The intended version reaches every duration in [min, max). */
  lemma RandomDurationIntendedCoversRange(min: int, max: int, v: int)
    requires min <= v < max
    ensures 0 <= v - min < max - min && RandomDurationIntended(min, max, v - min) == v
  {
  }

  /** `rand.Float64() < probability`, with the draw given as `u`. */
  function RandomChance(probability: real, u: real): (b: bool)
    requires UnitDraw(u)
    ensures b <==> u < probability
    ensures probability <= 0.0 ==> !b
    ensures probability >= 1.0 ==> b
  {
    u < probability
  }
}

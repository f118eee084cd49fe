/**
 * Randomness as an oracle. Every output slot of a random layer receives a
 * `Draw`: the probability gate's answer and up to three values of
 * `random.random()`. `random.uniform` is computed from them as CPython
 * defines it; `random.randint` is computed by scaling one value, which gives
 * the same range of integers but not CPython's own draw (its `_randbelow`
 * uses `getrandbits` with rejection).
 */
module Randomness {

  /** A value of `random.random()`. */
  type Unit = u: real | 0.0 <= u < 1.0

  /** What one output slot draws: the gate (`_get_probability`) and three uniform values. */
  datatype Draw = Draw(gate: bool, u: Unit, v: Unit, w: Unit)

  /** The draws of one `_apply_layer` call, by input position and output slot. */
  type Oracle = (nat, nat) -> Draw

  /** A product `x * u` with `u` in [0, 1) lies between 0 and `x`, short of `x` unless `x` is 0. */
  lemma ScaleWithin(x: real, u: Unit, p: real)
    requires p == x * u
    ensures 0.0 <= x ==> 0.0 <= p <= x
    ensures x <= 0.0 ==> x <= p <= 0.0
    ensures 0.0 < x ==> p < x
    ensures x < 0.0 ==> x < p
  {
    if x < 0.0 {
      assert p - x == (-x) * (1.0 - u);
    } else if 0.0 < x {
      assert x - p == x * (1.0 - u);
    }
  }

  /** `random.uniform(a, b)`, which CPython defines as `a + (b - a) * random()`. */
  function Uniform(a: real, b: real, u: Unit): (r: real)
    ensures a <= b ==> a <= r <= b
    ensures b < a ==> b < r <= a
  {
    var m := (b - a) * u;
    ScaleWithin(b - a, u, m);
    a + m
  }

  /** `random.randint(a, b)`: an integer in [a, b]. */
  function RandInt(a: int, b: int, u: Unit): (r: int)
    requires a <= b
    ensures a <= r <= b
  {
    var span := (b - a + 1) as real;
    var p := u * span;
    ScaleWithin(span, u, p);
    a + p.Floor
  }
}

/**
 * Values the browser supplies to the animations, which the model takes as
 * parameters: `Math.random()` results and sine or cosine values.
 */
module Host {

  /** A `Math.random()` result. */
  predicate UnitDraw(r: real) {
    0.0 <= r < 1.0
  }

  /** A sine or cosine value. */
  predicate Wave(v: real) {
    -1.0 <= v <= 1.0
  }

  /** A fraction scales a non-negative quantity into [0, that quantity], below it when positive. */
  lemma ScaleBounds(r: real, q: real)
    requires 0.0 <= r <= 1.0 && q >= 0.0
    ensures 0.0 <= r * q <= q
    ensures r < 1.0 && q > 0.0 ==> r * q < q
  {
    assert q - r * q == (1.0 - r) * q;
    if r < 1.0 && q > 0.0 {
      assert (1.0 - r) * q > 0.0;
    }
  }
}

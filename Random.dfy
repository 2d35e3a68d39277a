/**
 * The renderer's seeded pseudo-random source (`SeededRandom`). Its generator is not
 * part of this model: the k-th value produced after seeding with s is an arbitrary but
 * fixed oracle `draw(s, k)` in [0, 1). Reseeding restarts the sequence, so the values
 * drawn after `setSeed(s)` depend on s alone.
 */
module Random {

  /** A value `next()` can return. */
  type Unit = r: real | 0.0 <= r < 1.0

  /** `nextInt(lo, hi)` from one draw u: lo + floor(u * (hi - lo)). */
  function ScaleDraw(u: Unit, lo: int, hi: int): (r: int)
    requires lo < hi
    ensures lo <= r < hi
  {
    var span := (hi - lo) as real;
    assert 0.0 <= u * span < span;
    lo + (u * span).Floor
  }

  class SeededRandom {
    const draw: (int, int) -> Unit
    var seed: int
    var calls: nat

    constructor (seed: int, draw: (int, int) -> Unit)
      ensures this.draw == draw
      ensures this.seed == seed && calls == 0
    {
      this.draw := draw;
      this.seed := seed;
      calls := 0;
    }

    /** `setSeed(s)`: restart the sequence from seed s. */
    method SetSeed(s: int)
      modifies this
      ensures seed == s && calls == 0
    {
      seed := s;
      calls := 0;
    }

    /** `next()`: the next value of the current sequence. */
    method Next() returns (u: Unit)
      modifies this
      ensures u == draw(old(seed), old(calls))
      ensures seed == old(seed) && calls == old(calls) + 1
    {
      u := draw(seed, calls);
      calls := calls + 1;
    }

    /** `nextInt(lo, hi)`: one draw scaled to an integer in [lo, hi). */
    method NextInt(lo: int, hi: int) returns (r: int)
      requires lo < hi
      modifies this
      ensures lo <= r < hi
      ensures r == ScaleDraw(draw(old(seed), old(calls)), lo, hi)
      ensures seed == old(seed) && calls == old(calls) + 1
    {
      var u := Next();
      r := ScaleDraw(u, lo, hi);
    }
  }
}

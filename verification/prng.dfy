/**
 * The seeded bit-stream the randomizer draws from. The generator library
 * itself is not modelled: a `Source` is any deterministic function from a
 * seed and a position to a draw in [0, 1), so that `generator.create(seed)`
 * is the stream at position 0 of that seed and `gen.random()` reads the
 * draw at the current position and moves one position on.
 */
module Prng {

  /** Every draw of every stream lies in [0, 1). */
  type Source = f: (string, nat) -> real | forall seed: string, pos: nat :: 0.0 <= f(seed, pos) < 1.0
    witness (seed: string, pos: nat) => 0.0

  /** A generator created from `seed` after `pos` draws. */
  datatype Stream = Stream(seed: string, pos: nat)
  {
    /** The stream after one more draw. */
    function Next(): Stream
    {
      Stream(seed, pos + 1)
    }

    /** The stream after `k` more draws. */
    function Advance(k: nat): Stream
    {
      Stream(seed, pos + k)
    }
  }

  /** The draw a stream yields next. */
  function Draw(source: Source, s: Stream): (d: real)
    ensures 0.0 <= d < 1.0
  {
    source(s.seed, s.pos)
  }
}

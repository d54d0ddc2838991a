/**
 * The seeded noise behind the "volatile" price model: the mulberry32
 * generator, the seed derived from the scenario inputs, and the two-draw
 * Gaussian step.
 *
 * JavaScript keeps the generator's counter in a double, but every use of it
 * goes through `Math.imul`, `>>>`, `^` and `|`, which all work modulo 2^32,
 * so the counter is a `bv32` here.
 */
module SeededNoise {
  import opened JsMath

  /** The constant mulberry32 adds to its counter on every call. */
  const Increment: bv32 := 0x6d2b79f5

  /** `ToUint32`: the starting counter for an integer seed. */
  function SeedBits(seed: int): bv32
  {
    (seed % 0x1_0000_0000) as bv32
  }

  /**
   * The mixing that turns the freshly advanced counter into an output word:
   * `t = imul(t ^ t >>> 15, t | 1); t ^= t + imul(t ^ t >>> 7, t | 61); t ^ t >>> 14`.
   */
  function Mix(t: bv32): bv32
  {
    var t1 := (t ^ (t >> 15)) * (t | 1);
    var t2 := t1 ^ (t1 + (t1 ^ (t1 >> 7)) * (t1 | 61));
    t2 ^ (t2 >> 14)
  }

  /** The value a call returns once the counter has been advanced to `counter`: a uint32 over 2^32. */
  function Draw(counter: bv32): (u: real)
    ensures 0.0 <= u < 1.0
  {
    (Mix(counter) as int) as real / 4294967296.0
  }

  /** The counter after `k` calls from `seed`. */
  function Advance(seed: bv32, k: nat): bv32
  {
    if k == 0 then seed else Advance(seed, k - 1) + Increment
  }

  /** The first `n` values a generator seeded with `seed` yields: call `k` (from 0) mixes the counter advanced `k + 1` times. */
  function Stream(seed: bv32, n: nat): (s: seq<real>)
    ensures |s| == n
    ensures forall k :: 0 <= k < n ==> 0.0 <= s[k] < 1.0
  {
    seq(n, k requires 0 <= k < n => Draw(Advance(seed, k + 1)))
  }

  /** Advancing `a` times and then `b` times is advancing `a + b` times. */
  lemma {:induction false} AdvanceAdd(seed: bv32, a: nat, b: nat)
    ensures Advance(Advance(seed, a), b) == Advance(seed, a + b)
  {
    if b > 0 {
      AdvanceAdd(seed, a, b - 1);
    }
  }

  /** Two calls advance the counter by two increments. */
  lemma AdvanceTwice(seed: bv32, k: nat)
    ensures Advance(seed, k + 2) == Advance(seed, k) + Increment + Increment
  {
  }

  /** Taking `a + b` values is taking `a`, then `b` more from where the counter stands. */
  lemma StreamSplit(seed: bv32, a: nat, b: nat)
    ensures Stream(seed, a + b) == Stream(seed, a) + Stream(Advance(seed, a), b)
  {
    forall k | 0 <= k < b
      ensures Stream(seed, a + b)[a + k] == Stream(Advance(seed, a), b)[k]
    {
      StreamLater(seed, a, b, k);
    }
    assert Stream(seed, a + b) == Stream(seed, a) + Stream(Advance(seed, a), b);
  }

  /** Value `a + k` of the long stream is value `k` of the stream restarted after `a` calls. */
  lemma StreamLater(seed: bv32, a: nat, b: nat, k: nat)
    requires k < b
    ensures Stream(seed, a + b)[a + k] == Stream(Advance(seed, a), b)[k]
  {
    AdvanceAdd(seed, a, k + 1);
  }

  /** `mulberry32(seed)`: the closure's captured counter, as an object. */
  class Mulberry32 {
    var counter: bv32

    constructor (seed: int)
      ensures counter == SeedBits(seed)
    {
      counter := SeedBits(seed);
    }

    /** One call of the generator: advance the counter, then mix it. */
    method Next() returns (u: real)
      modifies this
      ensures counter == old(counter) + Increment
      ensures u == Draw(counter)
      ensures 0.0 <= u < 1.0
    {
      counter := counter + Increment;
      u := Draw(counter);
    }
  }

  /**
   * `hashSeed`: the weighted sum of the five scenario inputs, times 100, rounded.
   */
  function HashSeed(init: real, monthly: real, current: real, target: real, months: real): (h: int)
    ensures var w := (init * 7.0 + monthly * 13.0 + current * 31.0 + target * 37.0 + months * 41.0) * 100.0;
            h as real - 0.5 <= w < h as real + 0.5
  {
    Round((init * 7.0 + monthly * 13.0 + current * 31.0 + target * 37.0 + months * 41.0) * 100.0)
  }

  /** One more month on the horizon moves the seed by exactly 4100, so the generator starts from a different counter. */
  lemma HashSeedNextMonth(init: real, monthly: real, current: real, target: real, months: real)
    ensures HashSeed(init, monthly, current, target, months + 1.0)
         == HashSeed(init, monthly, current, target, months) + 4100
  {
    var w := (init * 7.0 + monthly * 13.0 + current * 31.0 + target * 37.0 + months * 41.0) * 100.0;
    assert (init * 7.0 + monthly * 13.0 + current * 31.0 + target * 37.0 + (months + 1.0) * 41.0) * 100.0
        == w + 4100 as real;
    RoundShift(w, 4100);
  }

  /** `u1 || 0.0001`: the first draw, kept away from zero before its logarithm is taken. */
  function GuardFirstDraw(u1: real): (r: real)
    ensures u1 != 0.0 ==> r == u1
    ensures u1 == 0.0 ==> r == 0.0001
    ensures u1 >= 0.0 ==> r > 0.0
  {
    if u1 == 0.0 then 0.0001 else u1
  }

  /**
   * The Gaussian sample a generator at `counter` produces next; `boxMuller`
   * stands for `sqrt(-2 ln u1) * cos(2 pi u2)`.
   */
  function Gaussian(counter: bv32, boxMuller: (real, real) -> real): real
  {
    boxMuller(GuardFirstDraw(Draw(counter + Increment)), Draw(counter + Increment + Increment))
  }

  /** `gaussianRandom(rng)`: exactly two draws, the first guarded. */
  method GaussianRandom(rng: Mulberry32, boxMuller: (real, real) -> real) returns (g: real)
    modifies rng
    ensures rng.counter == old(rng.counter) + Increment + Increment
    ensures g == Gaussian(old(rng.counter), boxMuller)
  {
    var u1 := rng.Next();
    var u2 := rng.Next();
    g := boxMuller(GuardFirstDraw(u1), u2);
  }
}

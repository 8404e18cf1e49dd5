/** The seeded pseudo-random source: the mulberry32 generator and the three
    draws built on it (`random`, `randomRange`, `jitter`).

    The generator's only state is its 32-bit seed. Every draw first advances
    the seed by the constant 0x6D2B79F5 and then scrambles the new seed into a
    32-bit output, which is scaled into [0, 1). */
module SeededRandom {
  import opened Common

  /** The amount every draw adds to the seed. */
  const Increment: bv32 := 0x6D2B79F5

  /** 2^32, the scale that maps a 32-bit output into [0, 1). */
  const TwoTo32: real := 4294967296.0

  /** The low 32 bits of an integral seed, as JavaScript's `ToInt32` keeps them. */
  function SeedBits(seed: int): bv32
  {
    (seed % 0x1_0000_0000) as bv32
  }

  /** The output scrambling of mulberry32, applied to the already advanced seed.
      `Math.imul` is a wrapping 32-bit product and the `^=` of a sum wraps the sum,
      so every step is bv32 arithmetic. */
  function Scramble(t0: bv32): bv32
  {
    var t1 := (t0 ^ (t0 >> 15)) * (t0 | 1);
    var t2 := t1 ^ (t1 + (t1 ^ (t1 >> 7)) * (t1 | 61));
    t2 ^ (t2 >> 14)
  }

  /** The unsigned 32-bit output divided by 2^32 lies in [0, 1). */
  function ToUnit(x: bv32): (u: real)
    ensures 0.0 <= u < 1.0
  {
    (x as int) as real / TwoTo32
  }

  /** The seed after `n` draws from a generator seeded with `s`. */
  function Advance(s: bv32, n: nat): bv32
  {
    if n == 0 then s else Advance(s, n - 1) + Increment
  }

  /** The value of the draw numbered `n` (from 0) of a generator seeded with
      `s`: it depends on the seed and the position only. Draw `n` of seed `s`
      is draw `n - 1` of the seed one step further on. */
  function NthDraw(s: bv32, n: nat): (u: real)
    ensures 0.0 <= u < 1.0
    decreases n
  {
    if n == 0 then ToUnit(Scramble(s + Increment)) else NthDraw(s + Increment, n - 1)
  }

  /** Advancing `n` times from the seed one step on is advancing `n + 1` times. */
  lemma {:induction false} AdvanceShift(s: bv32, n: nat)
    ensures Advance(s + Increment, n) == Advance(s, n + 1)
  {
    if n > 0 {
      AdvanceShift(s, n - 1);
    }
  }

  /** Draw `n` scrambles the seed advanced `n + 1` times. */
  lemma {:induction false} NthDrawScramblesAdvance(s: bv32, n: nat, t: bv32)
    requires t == Advance(s, n + 1)
    ensures NthDraw(s, n) == ToUnit(Scramble(t))
    decreases n
  {
    if n > 0 {
      AdvanceShift(s, n);
      NthDrawScramblesAdvance(s + Increment, n - 1, t);
    }
  }

  /** The first `n` draws of a generator seeded with `s`. */
  function Stream(s: bv32, n: nat): seq<real>
  {
    seq(n, i requires 0 <= i < n => NthDraw(s, i))
  }

  /** A shorter stream is a prefix of a longer one from the same seed. */
  lemma StreamPrefix(s: bv32, m: nat, n: nat)
    requires m <= n
    ensures Stream(s, m) == Stream(s, n)[..m]
  {
  }

  /** The seven draws `7j .. 7j + 6`, read off the stream that ends with them. */
  lemma StreamDraws(s: bv32, j: nat)
    ensures var us := Stream(s, 7 * j + 7);
      && us[7 * j] == NthDraw(s, 7 * j) && us[7 * j + 1] == NthDraw(s, 7 * j + 1)
      && us[7 * j + 2] == NthDraw(s, 7 * j + 2) && us[7 * j + 3] == NthDraw(s, 7 * j + 3)
      && us[7 * j + 4] == NthDraw(s, 7 * j + 4) && us[7 * j + 5] == NthDraw(s, 7 * j + 5)
      && us[7 * j + 6] == NthDraw(s, 7 * j + 6)
  {
  }

  /** `lo + u * width`: a draw `u` stretched over a range of that width. */
  function Stretch(lo: real, width: real, u: real): real
  {
    lo + u * width
  }

  /** A draw in [0, 1) stretched over a positive width stays below the end. */
  lemma StretchBounds(lo: real, width: real, u: real)
    requires 0.0 <= u < 1.0 && width > 0.0
    ensures lo <= Stretch(lo, width, u) < lo + width
  {
    FractionBelow(u, width);
  }

  /** `min + u * (max - min)`: the value `randomRange` returns for draw `u`. */
  function RangeOf(min: real, max: real, u: real): real
  {
    Stretch(min, max - min, u)
  }

  /** A draw in [0, 1) stretched over [min, max) stays in it, and an empty
      range gives back its one end. */
  lemma RangeOfBounds(min: real, max: real, u: real)
    requires 0.0 <= u < 1.0
    ensures min < max ==> min <= RangeOf(min, max, u) < max
    ensures min == max ==> RangeOf(min, max, u) == min
  {
    if min < max {
      StretchBounds(min, max - min, u);
    }
  }

  /** `1 + (2u - 1) * c`: a factor spread evenly over `1 - c .. 1 + c`. */
  function Spread(u: real, c: real): real
  {
    1.0 + (u * 2.0 - 1.0) * c
  }

  /** For a draw in [0, 1) and a non-negative spread `c` the factor lies in
      [1 - c, 1 + c), and is one when `c` is zero. */
  lemma SpreadRange(u: real, c: real)
    requires 0.0 <= u < 1.0 && c >= 0.0
    ensures 1.0 - c <= Spread(u, c) <= 1.0 + c
    ensures c > 0.0 ==> Spread(u, c) < 1.0 + c
    ensures c == 0.0 ==> Spread(u, c) == 1.0
  {
    MulNonNegative(u, c);
    MulNonNegative(1.0 - u, c);
    assert (u * 2.0 - 1.0) * c == 2.0 * (u * c) - c;
    assert (1.0 - u) * c == c - u * c;
    if c > 0.0 {
      MulPositive(1.0 - u, c);
    }
  }

  /** `1 + (2u - 1) * (j / 100)`: the factor a jitter of `j` percent multiplies by. */
  function JitterFactor(u: real, jitterPercent: real): real
  {
    Spread(u, jitterPercent / 100.0)
  }

  /** For a draw in [0, 1) the factor lies within `j` percent of one, and is
      one when `j` is zero. */
  lemma JitterFactorRange(u: real, jitterPercent: real)
    requires 0.0 <= u < 1.0
    ensures jitterPercent >= 0.0 ==>
      1.0 - jitterPercent / 100.0 <= JitterFactor(u, jitterPercent) <= 1.0 + jitterPercent / 100.0
    ensures jitterPercent > 0.0 ==> JitterFactor(u, jitterPercent) < 1.0 + jitterPercent / 100.0
    ensures jitterPercent == 0.0 ==> JitterFactor(u, jitterPercent) == 1.0
  {
    if jitterPercent >= 0.0 {
      SpreadRange(u, jitterPercent / 100.0);
    }
  }

  /** `value * factor`: the jittered value. */
  function JitterOf(value: real, jitterPercent: real, u: real): real
  {
    value * JitterFactor(u, jitterPercent)
  }

  /** Scaling a band `lo <= f <= hi` by a non-negative `v` keeps the order. */
  lemma ScaleBetween(v: real, lo: real, f: real, hi: real)
    requires v >= 0.0 && lo <= f <= hi
    ensures v * lo <= v * f <= v * hi
  {
    MulMonotone(lo, f, v);
    MulMonotone(f, hi, v);
  }

  /** At zero jitter the value comes back unchanged. */
  lemma JitterOfZero(value: real, u: real)
    requires 0.0 <= u < 1.0
    ensures JitterOf(value, 0.0, u) == value
  {
    JitterFactorRange(u, 0.0);
    assert JitterFactor(u, 0.0) == 1.0;
  }

  /** A non-negative value moves by at most `j` percent either way. */
  lemma JitterOfBand(value: real, jitterPercent: real, u: real)
    requires 0.0 <= u < 1.0 && value >= 0.0 && jitterPercent >= 0.0
    ensures value * (1.0 - jitterPercent / 100.0) <= JitterOf(value, jitterPercent, u)
                                                  <= value * (1.0 + jitterPercent / 100.0)
  {
    var c, f := jitterPercent / 100.0, JitterFactor(u, jitterPercent);
    JitterFactorRange(u, jitterPercent);
    ScaleBetween(value, 1.0 - c, f, 1.0 + c);
    assert JitterOf(value, jitterPercent, u) == value * f;
  }

  /** Up to 100 percent, a non-negative value stays non-negative. */
  lemma JitterOfNonNegative(value: real, jitterPercent: real, u: real)
    requires 0.0 <= u < 1.0 && value >= 0.0 && 0.0 <= jitterPercent <= 100.0
    ensures JitterOf(value, jitterPercent, u) >= 0.0
  {
    var f := JitterFactor(u, jitterPercent);
    JitterFactorRange(u, jitterPercent);
    assert f >= 0.0;
    MulNonNegative(value, f);
    assert JitterOf(value, jitterPercent, u) == value * f;
  }

  /** Below 100 percent, a positive value stays positive. */
  lemma JitterOfPositive(value: real, jitterPercent: real, u: real)
    requires 0.0 <= u < 1.0 && value > 0.0 && 0.0 <= jitterPercent < 100.0
    ensures JitterOf(value, jitterPercent, u) > 0.0
  {
    var f := JitterFactor(u, jitterPercent);
    JitterFactorRange(u, jitterPercent);
    assert f > 0.0;
    MulPositive(value, f);
    assert JitterOf(value, jitterPercent, u) == value * f;
  }

  /** A jittered value: unchanged at zero jitter; a non-negative value moves
      by at most `j` percent, stays non-negative up to 100 percent and positive
      below it. */
  lemma JitterOfBounds(value: real, jitterPercent: real, u: real)
    requires 0.0 <= u < 1.0
    ensures jitterPercent == 0.0 ==> JitterOf(value, jitterPercent, u) == value
    ensures value >= 0.0 && jitterPercent >= 0.0 ==>
      value * (1.0 - jitterPercent / 100.0) <= JitterOf(value, jitterPercent, u)
                                             <= value * (1.0 + jitterPercent / 100.0)
    ensures value >= 0.0 && 0.0 <= jitterPercent <= 100.0 ==> JitterOf(value, jitterPercent, u) >= 0.0
    ensures value > 0.0 && 0.0 <= jitterPercent < 100.0 ==> JitterOf(value, jitterPercent, u) > 0.0
  {
    if jitterPercent == 0.0 {
      JitterOfZero(value, u);
    }
    if value >= 0.0 && jitterPercent >= 0.0 {
      JitterOfBand(value, jitterPercent, u);
    }
    if value >= 0.0 && 0.0 <= jitterPercent <= 100.0 {
      JitterOfNonNegative(value, jitterPercent, u);
    }
    if value > 0.0 && 0.0 <= jitterPercent < 100.0 {
      JitterOfPositive(value, jitterPercent, u);
    }
  }

  /** A generator object: `createSeededRandom(seed)`. Its one real field is the
      seed captured by the mulberry32 closure; the ghost fields remember the
      seed it was created with and how many draws it has handed out. */
  class Generator {
    var seed: bv32
    ghost const origin: bv32
    ghost var draws: nat

    ghost predicate Valid()
      reads this
    {
      seed == Advance(origin, draws)
    }

    constructor (initialSeed: int)
      ensures Valid()
      ensures origin == SeedBits(initialSeed) && draws == 0
    {
      seed := SeedBits(initialSeed);
      origin := SeedBits(initialSeed);
      draws := 0;
    }

    /** `random()`: advances the seed once and returns the scaled output. */
    method Random() returns (u: real)
      requires Valid()
      modifies this
      ensures Valid() && draws == old(draws) + 1
      ensures seed == old(seed) + Increment
      ensures u == NthDraw(origin, old(draws))
      ensures 0.0 <= u < 1.0
    {
      seed := seed + Increment;
      draws := draws + 1;
      u := ToUnit(Scramble(seed));
      NthDrawScramblesAdvance(origin, old(draws), seed);
    }

    /** `randomRange(min, max)`: one draw, stretched over [min, max). */
    method RandomRange(min: real, max: real) returns (r: real)
      requires Valid()
      modifies this
      ensures Valid() && draws == old(draws) + 1
      ensures r == RangeOf(min, max, NthDraw(origin, old(draws)))
      ensures min < max ==> min <= r < max
    {
      var u := Random();
      r := RangeOf(min, max, u);
      RangeOfBounds(min, max, u);
    }

    /** `jitter(value, jitterPercent)`: one draw, turned into a factor within
        `jitterPercent` percent of one. */
    method Jitter(value: real, jitterPercent: real) returns (r: real)
      requires Valid()
      modifies this
      ensures Valid() && draws == old(draws) + 1
      ensures r == JitterOf(value, jitterPercent, NthDraw(origin, old(draws)))
      ensures jitterPercent == 0.0 ==> r == value
    {
      var u := Random();
      r := JitterOf(value, jitterPercent, u);
      JitterOfBounds(value, jitterPercent, u);
    }
  }

  /** Two generators created with the same seed hand out the same stream: the
      `n` draws of each are the first `n` values of `Stream`. */
  method SameSeedSameStream(initialSeed: int, n: nat) returns (xs: seq<real>, ys: seq<real>)
    ensures xs == ys
    ensures xs == Stream(SeedBits(initialSeed), n)
  {
    var g := new Generator(initialSeed);
    var h := new Generator(initialSeed);
    xs, ys := [], [];
    while |xs| < n
      invariant g.Valid() && h.Valid()
      invariant g.origin == h.origin == SeedBits(initialSeed)
      invariant g.draws == h.draws == |xs| == |ys| <= n
      invariant xs == ys == Stream(SeedBits(initialSeed), |xs|)
      decreases n - |xs|
    {
      var x := g.Random();
      var y := h.Random();
      xs, ys := xs + [x], ys + [y];
    }
  }
}

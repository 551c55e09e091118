/** The seeded generator of engine/rng.js and public/js/util.js: mulberry32. */
module Rng {
  import opened Options
  import opened RandomPrograms

  const TWO32 := 0x1_0000_0000
  const INCREMENT := 0x6D2B_79F5
  /** Integers up to here are exact in a JavaScript number. */
  const EXACT := 0x20_0000_0000_0000

  type Word = x: nat | x < 0x1_0000_0000

  /** The accumulator is never wrapped; the mixing reads its low 32 bits. */
  function Low(t: nat): bv32 {
    (t % TWO32) as bv32
  }

  /** The bit mixing, alike in both files. */
  function Scramble(t: bv32): bv32 {
    var r := (t ^ (t >> 15)) * (t | 1);
    var s := r ^ (r + (r ^ (r >> 7)) * (r | 61));
    s ^ (s >> 14)
  }

  function Number(b: bv32): Word {
    b as nat
  }

  /** The number the generator makes of its accumulator. */
  function Output(t: nat): (v: real)
    ensures 0.0 <= v < 1.0
  {
    Number(Scramble(Low(t))) as real / TWO32 as real
  }

  /** The accumulator after `n` draws. */
  function Accumulator(seed: nat, n: nat): nat {
    seed + n * INCREMENT
  }

  /** The mixing of the first three accumulators of seed 0, in bits. */
  lemma FirstMixed()
    ensures Scramble(0x6D2B_79F5) == 0x4434_B462
    ensures Scramble(0xDA56_F3EA) == 0x0015_9C37
    ensures Scramble(0x4782_6DDF) == 0x3928_5B08
  {
  }

  lemma LowIs(t: nat, b: bv32)
    requires Number(b) == t % TWO32
    ensures Low(t) == b
  {
  }

  lemma FirstNumbers()
    ensures Number(0x6D2B_79F5) == 0x6D2B_79F5 && Number(0xDA56_F3EA) == 0xDA56_F3EA
      && Number(0x4782_6DDF) == 0x4782_6DDF
    ensures Number(0x4434_B462) == 1_144_304_738 && Number(0x0015_9C37) == 1_416_247
    ensures Number(0x3928_5B08) == 958_946_056
  {
  }

  /** What decides all later draws. */
  function State(seed: nat, n: nat): Word {
    Accumulator(seed, n) % TWO32
  }

  /** The stream of a seed, as the recorder and the seeded replay read it. */
  function StreamOf(seed: nat): Stream {
    (n: nat) => Output(Accumulator(seed, n + 1))
  }

  /** The first numbers of seed 0. */
  lemma StreamBegins()
    ensures StreamOf(0)(0) == 1_144_304_738.0 / 4_294_967_296.0
    ensures StreamOf(0)(1) == 1_416_247.0 / 4_294_967_296.0
    ensures StreamOf(0)(2) == 958_946_056.0 / 4_294_967_296.0
  {
    FirstMixed();
    FirstNumbers();
    hide Scramble, Low, Number;
    LowIs(INCREMENT, 0x6D2B_79F5);
    LowIs(2 * INCREMENT, 0xDA56_F3EA);
    LowIs(3 * INCREMENT, 0x4782_6DDF);
    assert Accumulator(0, 1) == INCREMENT && Accumulator(0, 2) == 2 * INCREMENT && Accumulator(0, 3) == 3 * INCREMENT;
  }

  class Mulberry32 {
    var t: nat
    ghost const seed: nat
    ghost var drawn: nat

    ghost predicate Valid()
      reads this
    {
      t == Accumulator(seed, drawn)
    }

    constructor (seed: Word)
      ensures Valid() && this.seed == seed && drawn == 0
    {
      this.seed, t, drawn := seed, seed, 0;
    }

    method Next() returns (v: real)
      requires Valid()
      modifies this
      ensures Valid() && drawn == old(drawn) + 1
      ensures v == StreamOf(seed)(old(drawn)) && 0.0 <= v < 1.0
    {
      t := t + INCREMENT;
      drawn := drawn + 1;
      v := Output(t);
    }

    /** `int(min, max)`: `None` is the error for an empty range. */
    method Int(min: real, max: real) returns (k: Option<int>)
      requires Valid()
      modifies this
      ensures Valid()
      ensures k.None? <==> max.Floor < CeilInt(min)
      ensures k.None? ==> drawn == old(drawn) && t == old(t)
      ensures k.Some? ==> drawn == old(drawn) + 1 && CeilInt(min) <= k.value <= max.Floor
      ensures k.Some? ==> min <= k.value as real <= max
      ensures k.Some? ==> k.value == Bucket(StreamOf(seed)(old(drawn)), max.Floor - CeilInt(min) + 1) + CeilInt(min)
    {
      CeilIs(min);
      hide Output, CeilInt;
      var lo, hi := CeilInt(min), max.Floor;
      if hi < lo { return None; }
      var u := Next();
      BucketRange(u, hi - lo + 1);
      k := Some(Bucket(u, hi - lo + 1) + lo);
      hide Bucket;
    }

    /** `float(min, max)`. */
    method Float(min: real, max: real) returns (x: Option<real>)
      requires Valid()
      modifies this
      ensures Valid()
      ensures x.None? <==> max < min
      ensures x.None? ==> drawn == old(drawn) && t == old(t)
      ensures x.Some? ==> drawn == old(drawn) + 1 && min <= x.value <= max && (min < max ==> x.value < max)
      ensures x.Some? ==> x.value - min == StreamOf(seed)(old(drawn)) * (max - min)
      ensures x.Some? ==> x.value == Spread(StreamOf(seed)(old(drawn)), max - min, min)
    {
      if max < min { return None; }
      var u := Next();
      SpreadRange(u, max - min, min);
      x := Some(Spread(u, max - min, min));
    }
  }

  function CeilInt(v: real): int {
    -((-v).Floor)
  }

  lemma CeilIs(v: real)
    ensures CeilInt(v) as real - 1.0 < v <= CeilInt(v) as real
  {
  }

  function Bucket(u: real, n: int): int {
    (u * n as real).Floor
  }

  /** The point a fraction `u` of `width` above `min`. */
  function Spread(u: real, width: real, min: real): real {
    u * width + min
  }

  lemma SpreadRange(u: real, width: real, min: real)
    requires 0.0 <= u < 1.0 && width >= 0.0
    ensures min <= Spread(u, width, min) <= min + width
    ensures width > 0.0 ==> Spread(u, width, min) < min + width
  {
    Scaled(u, width);
  }

  lemma Scaled(u: real, d: real)
    requires 0.0 <= u < 1.0 && d >= 0.0
    ensures 0.0 <= u * d <= d && (d > 0.0 ==> u * d < d)
  {
  }

  /** A draw falls into one of `n` buckets of equal width. */
  lemma BucketRange(u: real, n: int)
    requires 0.0 <= u < 1.0 && n > 0
    ensures 0 <= Bucket(u, n) < n
    ensures Bucket(u, n) as real <= u * n as real < (Bucket(u, n) + 1) as real
  {
    Scaled(u, n as real);
  }

  // The period.

  const INVERSE := 3_696_798_301

  /** The increment is odd, so multiplying by it can be undone modulo 2^32. */
  lemma IncrementInvertible(d: int)
    requires (d * INCREMENT) % TWO32 == 0
    ensures d % TWO32 == 0
  {
    var q := d * INCREMENT / TWO32;
    assert INCREMENT * INVERSE == 1_576_479_847 * TWO32 + 1;
    assert d == TWO32 * (q * INVERSE - d * 1_576_479_847);
  }

  lemma EqualRemainders(a: int, b: int)
    requires a % TWO32 == b % TWO32
    ensures (b - a) % TWO32 == 0
  {
    assert b - a == TWO32 * (b / TWO32 - a / TWO32);
  }

  /** No state comes back within 2^32 draws. */
  lemma StatesDistinct(seed: nat, i: nat, j: nat)
    requires i < j < i + TWO32
    ensures State(seed, i) != State(seed, j)
  {
    if State(seed, i) == State(seed, j) {
      EqualRemainders(seed + i * INCREMENT, seed + j * INCREMENT);
      assert seed + j * INCREMENT - (seed + i * INCREMENT) == (j - i) * INCREMENT;
      IncrementInvertible(j - i);
    }
  }

  /** Accumulators that agree modulo 2^32 give the same number. */
  lemma LowBitsDecide(t: nat, u: nat)
    requires t % TWO32 == u % TWO32
    ensures Output(t) == Output(u)
  {
    hide Scramble, Number;
  }

  lemma Wrapped(a: nat, b: nat, q: int)
    requires b - a == q * TWO32
    ensures a % TWO32 == b % TWO32
  {
    assert b == a + q * TWO32;
  }

  /** How far along the stream of `seed` the stream of `other` begins. */
  function Place(seed: nat, other: nat): Word {
    (other - seed) * INVERSE % TWO32
  }

  lemma PlaceReached(seed: nat, other: nat) returns (turns: int)
    ensures Accumulator(seed, Place(seed, other)) - other == turns * TWO32
  {
    var q := (other - seed) * INVERSE / TWO32;
    turns := (other - seed) * 1_576_479_847 - q * INCREMENT;
    assert INCREMENT * INVERSE == 1_576_479_847 * TWO32 + 1;
    assert Place(seed, other) == (other - seed) * INVERSE - q * TWO32;
    assert (other - seed) * INVERSE * INCREMENT == (other - seed) * (1_576_479_847 * TWO32 + 1);
  }

  /** Every seed's stream is every other's from some place of its cycle on. */
  lemma OneCycle(seed: nat, other: nat, n: nat)
    ensures StreamOf(other)(n) == StreamOf(seed)(Place(seed, other) + n)
  {
    var turns := PlaceReached(seed, other);
    Wrapped(Accumulator(other, n + 1), Accumulator(seed, Place(seed, other) + n + 1), turns);
    LowBitsDecide(Accumulator(other, n + 1), Accumulator(seed, Place(seed, other) + n + 1));
    hide Output, Place;
  }

  /** The unwrapped accumulator of a 32-bit seed stays exact for the first 4.9 million draws. */
  lemma AccumulatorExact(seed: Word, n: nat)
    requires n <= 4_917_756
    ensures seed + n * INCREMENT < EXACT
  {
  }
}

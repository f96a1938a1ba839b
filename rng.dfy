/** The seeded generator `mulberry32` and the small numeric helpers the
    planner and the renderer use to turn its draws into decisions. */
module Rng {

  /** The increment the generator adds to its state on every draw. */
  const Golden: bv32 := 0x6D2B79F5

  /** The constant the song seed is XOR-ed with to seed the renderer's
      stream, so that it is independent of the planner's stream. */
  const RenderSalt: bv32 := 0xA11CE

  /** 2^32 as a real: the divisor that maps a 32-bit output into [0,1). */
  const TwoTo32: real := 4294967296.0

  /** The mixing function applied to the state after it is advanced.
      `Math.imul` is multiplication modulo 2^32 and `>>>` a logical shift,
      which is what `*` and `>>` are on `bv32`. */
  function Mix(t: bv32): bv32
  {
    var x0 := t;
    var x1 := (x0 ^ (x0 >> 15)) * (x0 | 1);
    var x2 := x1 ^ (x1 + (x1 ^ (x1 >> 7)) * (x1 | 61));
    x2 ^ (x2 >> 14)
  }

  /** An unsigned 32-bit output divided by 2^32 (an exact division). */
  function Unit(u: bv32): (r: real)
    ensures 0.0 <= r < 1.0
  {
    (u as int) as real / TwoTo32
  }

  /** The generator's state after `k` draws from `seed`. */
  function StateAfter(seed: bv32, k: nat): bv32
  {
    if k == 0 then seed else StateAfter(seed, k - 1) + Golden
  }

  /** Value number `i` (counting from 0) of the stream seeded with `seed`:
      the state is advanced first, then mixed. */
  function Draw(seed: bv32, i: nat): (r: real)
    ensures 0.0 <= r < 1.0
  {
    Unit(Mix(StateAfter(seed, i + 1)))
  }

  /** Starting `k` draws later is the same as seeding with the state
      reached after those `k` draws: the stream only depends on the state. */
  lemma {:induction false} StateAfterShift(seed: bv32, j: nat, k: nat)
    ensures StateAfter(StateAfter(seed, j), k) == StateAfter(seed, j + k)
  {
    if k > 0 {
      StateAfterShift(seed, j, k - 1);
    }
  }

  /** The renderer's stream is seeded differently from the planner's. */
  lemma RenderSeedDiffers(seed: bv32)
    ensures seed ^ RenderSalt != seed
  {
  }

  /** The closure returned by `mulberry32(seed)`: its captured variable `t`
      becomes the field `t`. `seed` and `history` record which stream this
      is and the values drawn from it so far, so that the planner and the
      renderer can speak of a draw by its position in the stream. */
  class Mulberry32 {
    var t: bv32
    ghost var seed: bv32
    ghost var history: seq<real>

    ghost predicate Valid()
      reads this
    {
      && t == StateAfter(seed, |history|)
      && (forall i {:trigger Draw(seed, i)} :: 0 <= i < |history| ==> history[i] == Draw(seed, i))
      && (forall i :: 0 <= i < |history| ==> 0.0 <= history[i] < 1.0)
    }

    constructor (s: bv32)
      ensures Valid() && seed == s && history == [] && t == s
    {
      t := s;
      seed := s;
      history := [];
    }

    /** One call of the closure: advance the state, mix it, scale to [0,1). */
    method Next() returns (x: real)
      requires Valid()
      modifies this
      ensures Valid() && seed == old(seed) && history == old(history) + [x]
      ensures t == old(t) + Golden
      ensures 0.0 <= x < 1.0
    {
      ghost var h := history;
      t := t + Golden;
      x := Unit(Mix(t));
      assert t == StateAfter(seed, |h| + 1);
      assert x == Draw(seed, |h|);
      history := h + [x];
      forall i | 0 <= i < |history|
        ensures history[i] == Draw(seed, i) && 0.0 <= history[i] < 1.0
      {
        if i < |h| {
          assert history[i] == h[i];
        }
      }
    }
  }

  /** `after` is `before` followed by `k` more draws. */
  predicate Drew(before: seq<real>, after: seq<real>, k: nat)
  {
    |after| == |before| + k && after[..|before|] == before
  }

  /** k draws followed by j more are k + j draws. */
  lemma DrewThen(a: seq<real>, b: seq<real>, c: seq<real>, k: nat, j: nat)
    requires Drew(a, b, k) && Drew(b, c, j)
    ensures Drew(a, c, k + j)
  {
    assert c[..|a|] == c[..|b|][..|a|];
  }

  /** What the stream records is exactly the mulberry32 sequence of its seed. */
  lemma HistoryIsStream(rng: Mulberry32, i: nat)
    requires rng.Valid() && i < |rng.history|
    ensures rng.history[i] == Draw(rng.seed, i)
  {
  }

  /** `Math.max(a, Math.min(b, n))`: when `a > b` the lower bound wins. */
  function Clamp(n: real, a: real, b: real): (r: real)
    ensures a <= b ==> a <= r <= b
    ensures a <= n <= b ==> r == n
    ensures a > b ==> r == a
  {
    if (if b < n then b else n) < a then a else if b < n then b else n
  }

  /** `clamp` applied to integers. */
  function ClampInt(n: int, a: int, b: int): (r: int)
    ensures a <= b ==> a <= r <= b
    ensures a <= n <= b ==> r == n
    ensures r == a || r == b || r == n
    ensures a <= r
  {
    if (if b < n then b else n) < a then a else if b < n then b else n
  }

  /** `a + (b-a)*t`. */
  function Lerp(a: real, b: real, t: real): (r: real)
    ensures a <= b && 0.0 <= t <= 1.0 ==> a <= r <= b
    ensures a <= b && 0.0 <= t < 1.0 && a < b ==> r < b
  {
    var span := b - a;
    assert span >= 0.0 && 0.0 <= t ==> span * t >= 0.0;
    assert span >= 0.0 && t <= 1.0 ==> span * t <= span * 1.0;
    assert span > 0.0 && t < 1.0 ==> span * t < span * 1.0;
    a + span * t
  }

  /** `Math.round` on a real: round half up, i.e. `floor(x + 0.5)`. */
  function Round(x: real): (r: int)
    ensures r as real - 0.5 <= x < r as real + 0.5
  {
    (x + 0.5).Floor
  }

  /** `Math.floor(a + (b-a+1)*x)` for a draw `x`. */
  function RandInt(x: real, a: int, b: int): (r: int)
    requires 0.0 <= x < 1.0 && a <= b
    ensures a <= r <= b
  {
    var y := a as real + (b - a + 1) as real * x;
    assert (b - a + 1) as real * x < (b - a + 1) as real;
    y.Floor
  }

  /** `chance(rng, p)`: draw once and compare with `p`. */
  method Chance(rng: Mulberry32, p: real) returns (hit: bool)
    requires rng.Valid()
    modifies rng
    ensures rng.Valid() && rng.seed == old(rng.seed) && Drew(old(rng.history), rng.history, 1)
    ensures hit <==> rng.history[|old(rng.history)|] < p
  {
    var x := rng.Next();
    hit := x < p;
  }

  /** `randInt(rng, a, b)`: draw once and scale into [a, b]. */
  method DrawInt(rng: Mulberry32, a: int, b: int) returns (r: int)
    requires rng.Valid() && a <= b
    modifies rng
    ensures rng.Valid() && rng.seed == old(rng.seed) && Drew(old(rng.history), rng.history, 1)
    ensures r == RandInt(rng.history[|old(rng.history)|], a, b)
  {
    var x := rng.Next();
    r := RandInt(x, a, b);
  }
}

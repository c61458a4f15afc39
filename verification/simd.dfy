/** The vector engine: z1, z2, z3 and one padding lane packed into a single
    4-lane vector of 32-bit words, stepped by lane-wise operations with
    per-lane masks and shift amounts. */
module Simd {
  import opened Encoding
  import opened Recurrence
  import opened Seeding

  /** A `u32x4`: four 32-bit lanes, combined lane by lane. */
  datatype U32x4 = U32x4(l0: bv32, l1: bv32, l2: bv32, l3: bv32) {

    function And(o: U32x4): U32x4 {
      U32x4(l0 & o.l0, l1 & o.l1, l2 & o.l2, l3 & o.l3)
    }

    function Xor(o: U32x4): U32x4 {
      U32x4(l0 ^ o.l0, l1 ^ o.l1, l2 ^ o.l2, l3 ^ o.l3)
    }

    function Shl(o: U32x4): U32x4 {
      U32x4(ShlLane(l0, o.l0), ShlLane(l1, o.l1), ShlLane(l2, o.l2), ShlLane(l3, o.l3))
    }

    function Shr(o: U32x4): U32x4 {
      U32x4(ShrLane(l0, o.l0), ShrLane(l1, o.l1), ShrLane(l2, o.l2), ShrLane(l3, o.l3))
    }
  }

  /** A vector shift of one lane; the shift amount is taken modulo the lane
      width, as the vector shift operators do. */
  function ShlLane(x: bv32, s: bv32): bv32 {
    x << (s & 31)
  }

  function ShrLane(x: bv32, s: bv32): bv32 {
    x >> (s & 31)
  }

  /** The per-lane constants of `next_u32`; the padding lane has mask 0 and
      shift amounts 0. */
  const Mask: U32x4 := U32x4(0xFFFF_FFFE, 0xFFFF_FFF8, 0xFFFF_FFF0, 0)
  const Shift1L: U32x4 := U32x4(12, 4, 17, 0)
  const Shift2L: U32x4 := U32x4(13, 2, 3, 0)
  const Shift2R: U32x4 := U32x4(19, 25, 11, 0)

  /** The vector holding a state: `[z1, z2, z3, 0]`. */
  function Pack(s: State): U32x4 {
    U32x4(s.z1, s.z2, s.z3, 0)
  }

  /** The state held in lanes 0-2. */
  function Unpack(z: U32x4): State {
    State(z.l0, z.l1, z.l2)
  }

  /** With an amount below 32, as every amount of lanes 0-2 is, a vector
      shift is the plain shift by that amount. */
  lemma Lane0Shifts(x: bv32)
    ensures ShlLane(x & 0xFFFF_FFFE, 12) == (x & 0xFFFF_FFFE) << 12
    ensures ShrLane(ShlLane(x, 13) ^ x, 19) == ((x << 13) ^ x) >> 19
  {
  }

  lemma Lane1Shifts(x: bv32)
    ensures ShlLane(x & 0xFFFF_FFF8, 4) == (x & 0xFFFF_FFF8) << 4
    ensures ShrLane(ShlLane(x, 2) ^ x, 25) == ((x << 2) ^ x) >> 25
  {
  }

  lemma Lane2Shifts(x: bv32)
    ensures ShlLane(x & 0xFFFF_FFF0, 17) == (x & 0xFFFF_FFF0) << 17
    ensures ShrLane(ShlLane(x, 3) ^ x, 11) == ((x << 3) ^ x) >> 11
  {
  }

  /** Lane 0 of the vector formula, with its mask and shift amounts, is the
      scalar step of z1. */
  lemma Lane0Step(x: bv32)
    ensures ShlLane(x & 0xFFFF_FFFE, 12) ^ ShrLane(ShlLane(x, 13) ^ x, 19) == Step1(x)
  {
    Lane0Shifts(x);
  }

  /** Lane 1 is the scalar step of z2. */
  lemma Lane1Step(x: bv32)
    ensures ShlLane(x & 0xFFFF_FFF8, 4) ^ ShrLane(ShlLane(x, 2) ^ x, 25) == Step2(x)
  {
    Lane1Shifts(x);
  }

  /** Lane 2 is the scalar step of z3. */
  lemma Lane2Step(x: bv32)
    ensures ShlLane(x & 0xFFFF_FFF0, 17) ^ ShrLane(ShlLane(x, 3) ^ x, 11) == Step3(x)
  {
    Lane2Shifts(x);
  }

  /** The padding lane, with mask 0 and shift amounts 0, becomes zero. */
  lemma Lane3Step(x: bv32)
    ensures ShlLane(x & 0, 0) ^ ShrLane(ShlLane(x, 0) ^ x, 0) == 0
  {
  }

  /** The vector transition. Lanes 0-2 step exactly as the scalar formulas
      do and the padding lane becomes zero, whatever it held. */
  function LaneStep(z: U32x4): (r: U32x4)
    ensures r == Pack(Step(Unpack(z)))
  {
    Lane0Step(z.l0);
    Lane1Step(z.l1);
    Lane2Step(z.l2);
    Lane3Step(z.l3);
    var term1 := z.And(Mask).Shl(Shift1L);
    var term2 := z.Shl(Shift2L).Xor(z).Shr(Shift2R);
    term1.Xor(term2)
  }

  /** The draw: the xor of lanes 0-2; the padding lane never reaches it. */
  function LaneOutput(z: U32x4): (r: bv32)
    ensures r == Output(Unpack(z))
  {
    z.l0 ^ z.l1 ^ z.l2
  }

  /** Vectors that differ only in the padding lane step to the same vector. */
  lemma PaddingIsInert(v: U32x4, w: U32x4)
    requires Unpack(v) == Unpack(w)
    ensures LaneStep(v) == LaneStep(w)
    ensures LaneOutput(v) == LaneOutput(w)
  {
  }

  /** The vector after n transitions from z. */
  function LaneAdvance(z: U32x4, n: nat): U32x4
    decreases n
  {
    if n == 0 then z else LaneStep(LaneAdvance(z, n - 1))
  }

  /** After n transitions lanes 0-2 hold the scalar state n steps on; after
      at least one the padding lane is zero. */
  lemma {:induction false} LaneAdvanceIsAdvance(z: U32x4, n: nat)
    ensures Unpack(LaneAdvance(z, n)) == Advance(Unpack(z), n)
    ensures n > 0 ==> LaneAdvance(z, n) == Pack(Advance(Unpack(z), n))
    decreases n
  {
    if n > 0 {
      LaneAdvanceIsAdvance(z, n - 1);
    }
  }

  /** The first k draws of the vector engine from the vector z. */
  function LaneDraws(z: U32x4, k: nat): (ds: seq<bv32>)
    ensures |ds| == k
    decreases k
  {
    if k == 0 then [] else LaneDraws(z, k - 1) + [LaneOutput(LaneAdvance(z, k))]
  }

  /** Engine equivalence: the vector engine's draws from a vector are the
      scalar engine's draws from the state in its lanes 0-2. */
  lemma {:induction false} LaneDrawsAreDraws(z: U32x4, k: nat)
    ensures LaneDraws(z, k) == Draws(Unpack(z), k)
    decreases k
  {
    if k > 0 {
      LaneDrawsAreDraws(z, k - 1);
      LaneAdvanceIsAdvance(z, k);
    }
  }

  /** From equal seeds the two engines produce identical draw sequences. */
  lemma EngineEquivalence(seed: Seed, k: nat)
    ensures LaneDraws(Pack(SeedState(seed)), k) == Draws(SeedState(seed), k)
  {
    LaneDrawsAreDraws(Pack(SeedState(seed)), k);
  }

  class Taus88Simd {
    var z: U32x4

    /** The struct literal, without checks; callers go through New or FromSeed. */
    constructor Init(v: U32x4)
      ensures z == v
    {
      z := v;
    }

    /** `Taus88::new`: the same checks and messages as the scalar engine;
        stores `[seed1, seed2, seed3, 0]`. */
    static method New(seed1: bv32, seed2: bv32, seed3: bv32) returns (r: Outcome<Taus88Simd>)
      ensures r.Ok? <==> MeetsMinimums(State(seed1, seed2, seed3))
      ensures r.Ok? ==> fresh(r.value) && r.value.z == U32x4(seed1, seed2, seed3, 0)
      ensures r.Panic? ==> r.message == CheckedNew(seed1, seed2, seed3).message
    {
      var checked := CheckedNew(seed1, seed2, seed3);
      if checked.Panic? {
        return Panic(checked.message);
      }
      var g := new Taus88Simd.Init(U32x4(seed1, seed2, seed3, 0));
      return Ok(g);
    }

    /** `from_seed`: the same decoding and promotion as the scalar engine. */
    static method FromSeed(seed: Seed) returns (g: Taus88Simd)
      ensures fresh(g) && g.z == Pack(SeedState(seed))
    {
      var s1 := LeWord(seed[0..4]);
      var s2 := LeWord(seed[4..8]);
      var s3 := LeWord(seed[8..12]);
      var r := New(Promote(s1, 2), Promote(s2, 8), Promote(s3, 16));
      g := r.value;
    }

    /** `next_u32`: one lane-wise transition of the vector, returning the xor
        of lanes 0-2. */
    method NextU32() returns (r: bv32)
      modifies this
      ensures z == Pack(Step(Unpack(old(z))))
      ensures r == Output(Unpack(z))
    {
      z := LaneStep(z);
      r := LaneOutput(z);
    }

    /** `next_u64`: two draws, the first in the high half; the padding lane
        is zero afterwards. */
    method NextU64() returns (r: bv64)
      modifies this
      ensures z == Pack(Advance(Unpack(old(z)), 2))
      ensures r == Join(Draw(Unpack(old(z)), 0), Draw(Unpack(old(z)), 1))
    {
      ghost var s0 := Unpack(z);
      var hi := NextU32();
      assert Unpack(z) == Advance(s0, 1);
      assert hi == Draw(s0, 0);
      var lo := NextU32();
      assert lo == Draw(s0, 1) && z == Pack(Advance(s0, 2));
      r := Join(hi, lo);
    }

    /** One pass of the `fill_bytes` loop, for the chunk dest[i..i + len]
        after k whole chunks: draw once and copy the draw's first len
        little-endian bytes into the chunk. */
    method FillNextChunk(dest: array<bv8>, i: nat, len: nat, ghost s0: State, ghost k: nat)
      requires i == 4 * k && i + len <= dest.Length && len <= 4
      requires Unpack(z) == Advance(s0, k) && dest[..i] == Bytes(s0, k)[..i]
      modifies this, dest
      ensures z == Pack(Advance(s0, k + 1))
      ensures dest[..i + len] == Bytes(s0, k + 1)[..i + len]
      ensures dest[i + len..] == old(dest[i + len..])
    {
      var rand := NextU32();
      assert rand == Draw(s0, k);
      CopyChunk(dest, i, LeBytes(rand), len);
      TakeAppend(Bytes(s0, k), LeBytes(rand), len);
    }

    /** `fill_bytes`: one draw per 4-byte chunk of dest, written little-endian;
        a shorter last chunk takes the low-order bytes of its draw. The bytes
        are those the scalar engine writes from the state in lanes 0-2. */
    method FillBytes(dest: array<bv8>)
      modifies this, dest
      ensures z == if dest.Length == 0 then old(z) else Pack(Advance(Unpack(old(z)), Ceil4(dest.Length)))
      ensures dest[..] == FillSpec(Unpack(old(z)), dest.Length)
    {
      ghost var z0 := z;
      ghost var s0 := Unpack(z);
      ghost var k: nat := 0;
      var i := 0;
      while i < dest.Length
        invariant 4 * k - 4 < i <= 4 * k
        invariant i <= dest.Length
        invariant i < 4 * k ==> i == dest.Length
        invariant Unpack(z) == Advance(s0, k)
        invariant k == 0 ==> z == z0
        invariant k > 0 ==> z == Pack(Advance(s0, k))
        invariant dest[..i] == Bytes(s0, k)[..i]
      {
        var len := if dest.Length - i < 4 then dest.Length - i else 4;
        FillNextChunk(dest, i, len, s0, k);
        k := k + 1;
        i := i + len;
      }
      Ceil4Exact(i, k);
      assert dest[..] == dest[..i];
    }
  }
}

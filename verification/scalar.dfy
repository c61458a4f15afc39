/** The scalar engine: the three state words kept as three fields, updated in
    place by every draw. */
module Scalar {
  import opened Encoding
  import opened Recurrence
  import opened Seeding

  class Taus88Scalar {
    var z1: bv32
    var z2: bv32
    var z3: bv32

    /** The generator state the three fields hold. */
    function Current(): State
      reads this
    {
      State(z1, z2, z3)
    }

    /** The struct literal, without checks; callers go through New or FromSeed. */
    constructor Init(seed1: bv32, seed2: bv32, seed3: bv32)
      ensures Current() == State(seed1, seed2, seed3)
    {
      z1, z2, z3 := seed1, seed2, seed3;
    }

    /** `Taus88::new`: panics with the message of the first failed check when
        a word is below its minimum, otherwise stores the words unchanged. */
    static method New(seed1: bv32, seed2: bv32, seed3: bv32) returns (r: Outcome<Taus88Scalar>)
      ensures r.Ok? <==> MeetsMinimums(State(seed1, seed2, seed3))
      ensures r.Ok? ==> fresh(r.value) && r.value.Current() == State(seed1, seed2, seed3)
      ensures r.Panic? ==> r.message == CheckedNew(seed1, seed2, seed3).message
    {
      var checked := CheckedNew(seed1, seed2, seed3);
      if checked.Panic? {
        return Panic(checked.message);
      }
      var g := new Taus88Scalar.Init(seed1, seed2, seed3);
      return Ok(g);
    }

    /** `from_seed`: decodes three little-endian words, raises each to its
        minimum and hands them to New, which therefore never panics. */
    static method FromSeed(seed: Seed) returns (g: Taus88Scalar)
      ensures fresh(g) && g.Current() == SeedState(seed)
    {
      var s1 := LeWord(seed[0..4]);
      var s2 := LeWord(seed[4..8]);
      var s3 := LeWord(seed[8..12]);
      var r := New(Promote(s1, 2), Promote(s2, 8), Promote(s3, 16));
      g := r.value;
    }

    /** `next_u32`: one transition of the three words, returning their xor. */
    method NextU32() returns (r: bv32)
      modifies this
      ensures Current() == Step(old(Current()))
      ensures r == Output(Current())
    {
      z1 := Step1(z1);
      z2 := Step2(z2);
      z3 := Step3(z3);
      r := Output(Current());
    }

    /** `next_u64`: two draws, the first in the high half. */
    method NextU64() returns (r: bv64)
      modifies this
      ensures Current() == Advance(old(Current()), 2)
      ensures r == Join(Draw(old(Current()), 0), Draw(old(Current()), 1))
    {
      ghost var s0 := Current();
      var hi := NextU32();
      assert Current() == Advance(s0, 1);
      assert hi == Draw(s0, 0);
      var lo := NextU32();
      assert lo == Draw(s0, 1) && Current() == Advance(s0, 2);
      r := Join(hi, lo);
    }

    /** One pass of the `fill_bytes` loop, for the chunk dest[i..i + len]
        after k whole chunks: draw once and copy the draw's first len
        little-endian bytes into the chunk. */
    method FillNextChunk(dest: array<bv8>, i: nat, len: nat, ghost s0: State, ghost k: nat)
      requires i == 4 * k && i + len <= dest.Length && len <= 4
      requires Current() == Advance(s0, k) && dest[..i] == Bytes(s0, k)[..i]
      modifies this, dest
      ensures Current() == Advance(s0, k + 1)
      ensures dest[..i + len] == Bytes(s0, k + 1)[..i + len]
      ensures dest[i + len..] == old(dest[i + len..])
    {
      var rand := NextU32();
      assert rand == Draw(s0, k);
      CopyChunk(dest, i, LeBytes(rand), len);
      TakeAppend(Bytes(s0, k), LeBytes(rand), len);
    }

    /** `fill_bytes`: one draw per 4-byte chunk of dest, written little-endian;
        a shorter last chunk takes the low-order bytes of its draw. */
    method FillBytes(dest: array<bv8>)
      modifies this, dest
      ensures Current() == Advance(old(Current()), Ceil4(dest.Length))
      ensures dest[..] == FillSpec(old(Current()), dest.Length)
    {
      ghost var s0 := Current();
      ghost var k: nat := 0;
      var i := 0;
      while i < dest.Length
        invariant 4 * k - 4 < i <= 4 * k
        invariant i <= dest.Length
        invariant i < 4 * k ==> i == dest.Length
        invariant Current() == Advance(s0, k)
        invariant dest[..i] == Bytes(s0, k)[..i]
      {
        var len := if dest.Length - i < 4 then dest.Length - i else 4;
        FillNextChunk(dest, i, len, s0, k);
        k := k + 1;
        i := i + len;
      }
      Ceil4Exact(i, k);
      assert dest[..] == dest[..i];
    }
  }
}

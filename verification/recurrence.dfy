/** The Taus88 transition: three independent shift/xor/mask recurrences on
    32-bit words whose xor is the output, and the stream of draws and of
    bytes they define. Both engines are proved against these functions. */
module Recurrence {
  import opened Encoding

  /** The three words of generator state. */
  datatype State = State(z1: bv32, z2: bv32, z3: bv32)

  /** The masks applied before the first left shift of each word. */
  const Mask1: bv32 := 0xFFFF_FFFE
  const Mask2: bv32 := 0xFFFF_FFF8
  const Mask3: bv32 := 0xFFFF_FFF0

  function Step1(z: bv32): bv32 {
    ((z & Mask1) << 12) ^ (((z << 13) ^ z) >> 19)
  }

  function Step2(z: bv32): bv32 {
    ((z & Mask2) << 4) ^ (((z << 2) ^ z) >> 25)
  }

  function Step3(z: bv32): bv32 {
    ((z & Mask3) << 17) ^ (((z << 3) ^ z) >> 11)
  }

  /** One transition: each word is computed from its own previous value only. */
  function Step(s: State): State {
    State(Step1(s.z1), Step2(s.z2), Step3(s.z3))
  }

  /** The value a draw returns from the state it has just produced. */
  function Output(s: State): bv32 {
    s.z1 ^ s.z2 ^ s.z3
  }

  /** The state after n transitions. */
  function Advance(s: State, n: nat): State
    decreases n
  {
    if n == 0 then s else Step(Advance(s, n - 1))
  }

  /** The k-th draw (from 0) made from state s. */
  function Draw(s: State, k: nat): bv32 {
    Output(Advance(s, k + 1))
  }

  /** Advancing from the next state is advancing one step further. */
  lemma {:induction false} AdvanceFromStep(s: State, n: nat)
    ensures Advance(Step(s), n) == Advance(s, n + 1)
    decreases n
  {
    if n > 0 {
      AdvanceFromStep(s, n - 1);
    }
  }

  /** The first k draws from s, in the order a generator makes them. */
  function Draws(s: State, k: nat): (ds: seq<bv32>)
    ensures |ds| == k
    decreases k
  {
    if k == 0 then [] else Draws(s, k - 1) + [Draw(s, k - 1)]
  }

  /** Draw i of the list is the i-th draw from s, whatever the length. */
  lemma {:induction false} DrawsAt(s: State, k: nat, i: nat)
    requires i < k
    ensures Draws(s, k)[i] == Draw(s, i)
    decreases k
  {
    if i < k - 1 {
      DrawsAt(s, k - 1, i);
    }
  }

  /** The little-endian bytes of the first k draws from s, one draw after the
      other. */
  function Bytes(s: State, k: nat): (b: seq<bv8>)
    ensures |b| == 4 * k
    decreases k
  {
    if k == 0 then [] else Bytes(s, k - 1) + LeBytes(Draw(s, k - 1))
  }

  /** Byte i of the stream is byte i mod 4 of draw i / 4. */
  lemma {:induction false} BytesAt(s: State, k: nat, i: nat)
    requires i < 4 * k
    ensures Bytes(s, k)[i] == LeBytes(Draw(s, i / 4))[i % 4]
    decreases k
  {
    if i < 4 * (k - 1) {
      BytesAt(s, k - 1, i);
    } else {
      assert i / 4 == k - 1 && i % 4 == i - 4 * (k - 1);
    }
  }

  /** The bytes `fill_bytes` writes into an n-byte buffer from state s: the
      bytes of ceil(n / 4) draws, cut to n, so that a shorter last chunk
      takes the low-order bytes of its draw. */
  function FillSpec(s: State, n: nat): (b: seq<bv8>)
    ensures |b| == n
  {
    Bytes(s, Ceil4(n))[..n]
  }

  /** Byte i of the buffer is byte i mod 4, little-endian, of draw i / 4. */
  lemma FillSpecAt(s: State, n: nat, i: nat)
    requires i < n
    ensures FillSpec(s, n)[i] == LeBytes(Draw(s, i / 4))[i % 4]
  {
    BytesAt(s, Ceil4(n), i);
  }

  /** A shorter buffer receives a prefix of the bytes a longer one does. */
  lemma FillSpecPrefix(s: State, n: nat, m: nat)
    requires m <= n
    ensures FillSpec(s, n)[..m] == FillSpec(s, m)
  {
    var long, short := FillSpec(s, n), FillSpec(s, m);
    forall j | 0 <= j < m
      ensures long[j] == short[j]
    {
      FillSpecAt(s, n, j);
      FillSpecAt(s, m, j);
    }
  }

  /** The transition never reads the low 1, 3 and 4 bits of z1, z2 and z3:
      the state holds 31 + 29 + 28 = 88 bits that matter. */
  lemma StepIgnoresMaskedBits(s: State)
    ensures Step(s) == Step(State(s.z1 & Mask1, s.z2 & Mask2, s.z3 & Mask3))
  {
  }

  /** The minimums 2, 8 and 16 say exactly that the bits the transition reads
      are not all zero. */
  lemma MinimumsAreMaskedBits(s: State)
    ensures s.z1 >= 2 <==> s.z1 & Mask1 != 0
    ensures s.z2 >= 8 <==> s.z2 & Mask2 != 0
    ensures s.z3 >= 16 <==> s.z3 & Mask3 != 0
  {
  }

  /** A word below its minimum collapses to zero at the first transition and
      stays zero at every later one. */
  lemma {:induction false} BelowMinimumCollapses(s: State, n: nat)
    requires n >= 1
    ensures s.z1 < 2 ==> Advance(s, n).z1 == 0
    ensures s.z2 < 8 ==> Advance(s, n).z2 == 0
    ensures s.z3 < 16 ==> Advance(s, n).z3 == 0
    decreases n
  {
    if n > 1 {
      BelowMinimumCollapses(s, n - 1);
    }
  }
}

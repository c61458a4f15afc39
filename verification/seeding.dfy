/** The two ways to seed a generator, shared by both engines: the strict
    constructor `new`, which panics on a word below its minimum, and the
    permissive `from_seed`, which decodes 12 bytes and raises each word to
    its minimum. */
module Seeding {
  import opened Encoding
  import opened Recurrence

  /** What a call returns, or the message of the `assert!` that panicked. */
  datatype Outcome<T> = Ok(value: T) | Panic(message: string)

  /** The seed type `[u8; 12]`. */
  type Seed = s: seq<bv8> | |s| == 12 witness [0, 0, 0, 0, 0, 0, 0, 0, 0, 0, 0, 0]

  /** Each word is at least the minimum the transition needs. */
  predicate MeetsMinimums(s: State) {
    s.z1 >= 2 && s.z2 >= 8 && s.z3 >= 16
  }

  /** `new(seed1, seed2, seed3)`: its three `assert!`s, checked in order, and
      the state it builds when they all pass. */
  function CheckedNew(seed1: bv32, seed2: bv32, seed3: bv32): (r: Outcome<State>)
    ensures r.Ok? <==> MeetsMinimums(State(seed1, seed2, seed3))
    ensures r.Ok? ==> r.value == State(seed1, seed2, seed3)
    ensures r.Panic? ==> r.message in {"seed1 must be >= 2", "seed2 must be >= 8", "seed3 must be >= 16"}
  {
    if !(seed1 >= 2) then Panic("seed1 must be >= 2")
    else if !(seed2 >= 8) then Panic("seed2 must be >= 8")
    else if !(seed3 >= 16) then Panic("seed3 must be >= 16")
    else Ok(State(seed1, seed2, seed3))
  }

  /** `w.max(min)`: the least value that is at least both. */
  function Promote(w: bv32, min: bv32): (r: bv32)
    ensures r >= w && r >= min
    ensures r == w || r == min
  {
    if w < min then min else w
  }

  /** The state `from_seed` builds: three little-endian words, each raised to
      its minimum. */
  function SeedState(seed: Seed): (s: State)
    ensures MeetsMinimums(s)
  {
    State(Promote(LeWord(seed[0..4]), 2), Promote(LeWord(seed[4..8]), 8), Promote(LeWord(seed[8..12]), 16))
  }

  /** `from_seed` never panics: the promoted words always pass `new`'s checks. */
  lemma FromSeedPassesNew(seed: Seed)
    ensures CheckedNew(SeedState(seed).z1, SeedState(seed).z2, SeedState(seed).z3) == Ok(SeedState(seed))
  {
  }

  /** Promotion changes only the words below their minimums: a seed whose
      words already meet them gives exactly those words, and every other word
      becomes its minimum. */
  lemma SeedStatePromotes(seed: Seed)
    ensures var w := State(LeWord(seed[0..4]), LeWord(seed[4..8]), LeWord(seed[8..12]));
      && SeedState(seed).z1 == (if w.z1 < 2 then 2 else w.z1)
      && SeedState(seed).z2 == (if w.z2 < 8 then 8 else w.z2)
      && SeedState(seed).z3 == (if w.z3 < 16 then 16 else w.z3)
      && (MeetsMinimums(w) ==> SeedState(seed) == w)
  {
  }

  /** The 12-byte seed layout: the three words, each little-endian, in order. */
  function EncodeSeed(s: State): (seed: Seed) {
    LeBytes(s.z1) + LeBytes(s.z2) + LeBytes(s.z3)
  }

  /** Every state that meets the minimums is reached by `from_seed` from its
      own 12-byte encoding. */
  lemma SeedRoundTrip(s: State)
    requires MeetsMinimums(s)
    ensures SeedState(EncodeSeed(s)) == s
  {
    var seed := EncodeSeed(s);
    assert seed[0..4] == LeBytes(s.z1);
    assert seed[4..8] == LeBytes(s.z2);
    assert seed[8..12] == LeBytes(s.z3);
    LeWordOfLeBytes(s.z1);
    LeWordOfLeBytes(s.z2);
    LeWordOfLeBytes(s.z3);
  }
}

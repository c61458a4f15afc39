/** Fixed seeds with their known outputs, for both engines. */
module KnownAnswers {
  import opened Recurrence
  import opened Seeding
  import opened Scalar
  import opened Simd

  const ZeroSeed: Seed := [0, 0, 0, 0, 0, 0, 0, 0, 0, 0, 0, 0]
  const SampleSeed: Seed := [123, 0, 0, 0, 45, 1, 0, 0, 89, 2, 0, 0]

  /** The all-zero seed is promoted to the minimums (2, 8, 16), whose first
      draw is 2105472. */
  lemma ZeroSeedIsPromoted()
    ensures SeedState(ZeroSeed) == State(2, 8, 16)
    ensures Draw(SeedState(ZeroSeed), 0) == 2105472
  {
  }

  /** `new(1, 8, 16)` panics on its first check; `new(2, 8, 16)` succeeds. */
  lemma NewRejectsLowFirstWord()
    ensures CheckedNew(1, 8, 16) == Panic("seed1 must be >= 2")
    ensures CheckedNew(2, 8, 16) == Ok(State(2, 8, 16))
  {
  }

  /** The sample seed decodes to the words 123, 301 and 601 and gives the
      same first five draws on both engines. */
  lemma SampleSeedSequence()
    ensures SeedState(SampleSeed) == State(123, 301, 601)
    ensures Draws(SeedState(SampleSeed), 5) == [78099075, 2047148672, 1778027400, 2294194181, 680023868]
    ensures LaneDraws(Pack(SeedState(SampleSeed)), 5) == Draws(SeedState(SampleSeed), 5)
  {
    var s := State(123, 301, 601);
    assert SeedState(SampleSeed) == s;
    var s1 := Step(s);
    assert s1 == State(499713, 4736, 77594626);
    var s2 := Step(s1);
    assert s2 == State(2046828160, 75776, 275456);
    var s3 := Step(s2);
    assert s3 == State(31985466, 1212416, 1744831666);
    var s4 := Step(s3);
    assert s4 == State(2163449857, 19398656, 157614084);
    var s5 := Step(s4);
    assert s5 == State(973086366, 310378498, 543136);
    assert Draws(s, 5) == [Output(s1), Output(s2), Output(s3), Output(s4), Output(s5)];
    EngineEquivalence(SampleSeed, 5);
  }

  /** The engines themselves, run on the sample seed. */
  method SampleSeedOnBothEngines() returns (scalarFirst: bv32, simdFirst: bv32)
    ensures scalarFirst == simdFirst == 78099075
  {
    var a := Taus88Scalar.FromSeed(SampleSeed);
    var b := Taus88Simd.FromSeed(SampleSeed);
    SampleSeedSequence();
    scalarFirst := a.NextU32();
    simdFirst := b.NextU32();
  }
}

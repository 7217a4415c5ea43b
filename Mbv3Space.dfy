/**
 * The ofa_mbv3_d234_e346_k357_w1.2 search space and its test vectors as
 * lemmas.
 */
module Mbv3Space {
  import opened SearchSpace
  import opened ParameterCodec
  import opened OneHotEncoding

  /** ofa_mbv3_d234_e346_k357_w1.2: 20 kernel sizes, 20 expansion ratios,
      then 5 stage depths. */
  const Mbv3: Table := [
    Field("ks", 20, [3, 5, 7]),
    Field("e", 20, [3, 4, 6]),
    Field("d", 5, [2, 3, 4])
  ]

  /** The test vector, one run per field. */
  const Mbv3Ks: Vector := [1, 2, 2, 2, 2, 2, 1, 2, 0, 2, 1, 1, 0, 0, 1, 1, 2, 2, 1, 0]
  const Mbv3E: Vector := [1, 1, 2, 1, 0, 1, 0, 2, 2, 2, 0, 0, 2, 2, 2, 2, 1, 1, 2, 1]
  const Mbv3D: Vector := [2, 0, 2, 0, 0]
  const Mbv3Vector: Vector := Mbv3Ks + Mbv3E + Mbv3D

  const Mbv3Config: ArchConfig := map[
    "d" := [4, 2, 4, 2, 2],
    "e" := [4, 4, 6, 4, 3, 4, 3, 6, 6, 6, 3, 3, 6, 6, 6, 6, 4, 4, 6, 4],
    "ks" := [5, 7, 7, 7, 7, 7, 5, 7, 3, 7, 5, 5, 3, 3, 5, 5, 7, 7, 5, 3]
  ]

  lemma Mbv3Shape()
    ensures WellFormed(Mbv3) && Names(Mbv3) == Mbv3Config.Keys
    ensures VectorLength(Mbv3) == 45 && OneHotLength(Mbv3) == 135
  {
  }

  lemma Mbv3ConfigValid()
    ensures ValidConfig(Mbv3, Mbv3Config)
  {
    assert ValidField(Mbv3[0], Mbv3Config["ks"]);
    assert ValidField(Mbv3[1], Mbv3Config["e"]);
    assert ValidField(Mbv3[2], Mbv3Config["d"]);
  }

  lemma Mbv3Translate2Pymoo()
    ensures ValidConfig(Mbv3, Mbv3Config)
    ensures Encode(Mbv3, Mbv3Config) == Mbv3Vector
  {
    var t, c := Mbv3, Mbv3Config;
    Mbv3ConfigValid();
    EncodeFirstField(t, c);
    EncodeFirstField(t[1..], c);
    EncodeFirstField(t[1..][1..], c);
    assert t[1..][1..][1..] == [];
    Mbv3FieldIndices();
  }

  lemma Mbv3FieldIndices()
    ensures EncodeField([3, 5, 7], Mbv3Config["ks"]) == Mbv3Ks
    ensures EncodeField([3, 4, 6], Mbv3Config["e"]) == Mbv3E
    ensures EncodeField([2, 3, 4], Mbv3Config["d"]) == Mbv3D
  {
  }

  lemma Mbv3Translate2Param()
    ensures ValidVector(Mbv3, Mbv3Vector)
    ensures Decode(Mbv3, Mbv3Vector) == Mbv3Config
  {
    Mbv3Shape();
    Mbv3Translate2Pymoo();
    DecodeEncode(Mbv3, Mbv3Config);
  }

  /** The expected encoding of the test vector, five positions (fifteen
      bits) per line. */
  const Mbv3KsOneHot: seq<int> :=
    [0, 1, 0, 0, 0, 1, 0, 0, 1, 0, 0, 1, 0, 0, 1]
    + [0, 0, 1, 0, 1, 0, 0, 0, 1, 1, 0, 0, 0, 0, 1]
    + [0, 1, 0, 0, 1, 0, 1, 0, 0, 1, 0, 0, 0, 1, 0]
    + [0, 1, 0, 0, 0, 1, 0, 0, 1, 0, 1, 0, 1, 0, 0]
  const Mbv3EOneHot: seq<int> :=
    [0, 1, 0, 0, 1, 0, 0, 0, 1, 0, 1, 0, 1, 0, 0]
    + [0, 1, 0, 1, 0, 0, 0, 0, 1, 0, 0, 1, 0, 0, 1]
    + [1, 0, 0, 1, 0, 0, 0, 0, 1, 0, 0, 1, 0, 0, 1]
    + [0, 0, 1, 0, 1, 0, 0, 1, 0, 0, 0, 1, 0, 1, 0]
  const Mbv3DOneHot: seq<int> :=
    [0, 0, 1, 1, 0, 0, 0, 0, 1, 1, 0, 0, 1, 0, 0]
  const Mbv3OneHot: seq<int> := Mbv3KsOneHot + Mbv3EOneHot + Mbv3DOneHot

  /** Five positions of cardinality three, the unit the test vectors are
      checked in. */
  const Run5: seq<nat> := [3, 3, 3, 3, 3]

  lemma Mbv3KsChunk0()
    ensures OneHotBlocks(Run5, [1, 2, 2, 2, 2]) == [0, 1, 0, 0, 0, 1, 0, 0, 1, 0, 0, 1, 0, 0, 1]
  {
  }

  lemma Mbv3KsChunk1()
    ensures OneHotBlocks(Run5, [2, 1, 2, 0, 2]) == [0, 0, 1, 0, 1, 0, 0, 0, 1, 1, 0, 0, 0, 0, 1]
  {
  }

  lemma Mbv3KsChunk2()
    ensures OneHotBlocks(Run5, [1, 1, 0, 0, 1]) == [0, 1, 0, 0, 1, 0, 1, 0, 0, 1, 0, 0, 0, 1, 0]
  {
  }

  lemma Mbv3KsChunk3()
    ensures OneHotBlocks(Run5, [1, 2, 2, 1, 0]) == [0, 1, 0, 0, 0, 1, 0, 0, 1, 0, 1, 0, 1, 0, 0]
  {
  }

  lemma Mbv3EChunk0()
    ensures OneHotBlocks(Run5, [1, 1, 2, 1, 0]) == [0, 1, 0, 0, 1, 0, 0, 0, 1, 0, 1, 0, 1, 0, 0]
  {
  }

  lemma Mbv3EChunk1()
    ensures OneHotBlocks(Run5, [1, 0, 2, 2, 2]) == [0, 1, 0, 1, 0, 0, 0, 0, 1, 0, 0, 1, 0, 0, 1]
  {
  }

  lemma Mbv3EChunk2()
    ensures OneHotBlocks(Run5, [0, 0, 2, 2, 2]) == [1, 0, 0, 1, 0, 0, 0, 0, 1, 0, 0, 1, 0, 0, 1]
  {
  }

  lemma Mbv3EChunk3()
    ensures OneHotBlocks(Run5, [2, 1, 1, 2, 1]) == [0, 0, 1, 0, 1, 0, 0, 1, 0, 0, 0, 1, 0, 1, 0]
  {
  }

  /** Twenty positions of cardinality three are encoded as four runs of
      five. */
  lemma FourRuns(k0: Vector, k1: Vector, k2: Vector, k3: Vector)
    requires |k0| == |k1| == |k2| == |k3| == 5
    ensures OneHotBlocks(Repeat(3, 20), k0 + k1 + k2 + k3) ==
      OneHotBlocks(Run5, k0) + OneHotBlocks(Run5, k1) + OneHotBlocks(Run5, k2) + OneHotBlocks(Run5, k3)
  {
    var r := Run5;
    assert Repeat(3, 20) == r + r + r + r;
    OneHotBlocksAppend(r, k0, r, k1);
    OneHotBlocksAppend(r + r, k0 + k1, r, k2);
    OneHotBlocksAppend(r + r + r, k0 + k1 + k2, r, k3);
  }

  lemma Mbv3KsBits()
    ensures OneHotBlocks(Repeat(3, 20), Mbv3Ks) == Mbv3KsOneHot
  {
    var k0, k1, k2, k3 := [1, 2, 2, 2, 2], [2, 1, 2, 0, 2], [1, 1, 0, 0, 1], [1, 2, 2, 1, 0];
    assert Mbv3Ks == k0 + k1 + k2 + k3;
    FourRuns(k0, k1, k2, k3);
    Mbv3KsChunk0();
    Mbv3KsChunk1();
    Mbv3KsChunk2();
    Mbv3KsChunk3();
  }

  lemma Mbv3EBits()
    ensures OneHotBlocks(Repeat(3, 20), Mbv3E) == Mbv3EOneHot
  {
    var k0, k1, k2, k3 := [1, 1, 2, 1, 0], [1, 0, 2, 2, 2], [0, 0, 2, 2, 2], [2, 1, 1, 2, 1];
    assert Mbv3E == k0 + k1 + k2 + k3;
    FourRuns(k0, k1, k2, k3);
    Mbv3EChunk0();
    Mbv3EChunk1();
    Mbv3EChunk2();
    Mbv3EChunk3();
  }

  lemma Mbv3DBits()
    ensures OneHotBlocks(Repeat(3, 5), Mbv3D) == Mbv3DOneHot
  {
    assert Repeat(3, 5) == Run5;
  }

  lemma Mbv3RunsInRange()
    ensures InRange(Repeat(3, 20), Mbv3Ks) && InRange(Repeat(3, 20), Mbv3E)
    ensures InRange(Repeat(3, 5), Mbv3D)
  {
  }

  /** onehot_generic on the test vector gives the expected 135 bits. */
  lemma Mbv3OneHotGeneric()
    ensures ValidVector(Mbv3, Mbv3Vector)
    ensures OneHot(Mbv3, Mbv3Vector) == Mbv3OneHot
  {
    Mbv3RunsInRange();
    Mbv3KsBits();
    Mbv3EBits();
    Mbv3DBits();
    OneHotThreeFields(Mbv3[0], Mbv3[1], Mbv3[2], Mbv3Ks, Mbv3E, Mbv3D);
  }

  /** Every valid vector of the mbv3 space decodes to 20 kernel sizes, 20
      expansion ratios and 5 depths: the depths do not cut the other lists
      short. */
  lemma Mbv3NoTruncation(v: Vector)
    requires ValidVector(Mbv3, v)
    ensures |Decode(Mbv3, v)["ks"]| == 20 && |Decode(Mbv3, v)["e"]| == 20
    ensures |Decode(Mbv3, v)["d"]| == 5
  {
    Mbv3Shape();
    var c := Decode(Mbv3, v);
    assert ValidField(Mbv3[0], c["ks"]) && ValidField(Mbv3[1], c["e"]) && ValidField(Mbv3[2], c["d"]);
  }

  /** A vector whose first kernel-size coordinate is 5, outside the three
      values of that position, is rejected as an invalid vector. */
  lemma Mbv3RejectsOutOfRange(v: Vector)
    requires |v| == 45 && v[0] == 5
    ensures Translate2Param(Mbv3, v) == Err(InvalidVector)
  {
    DimsAt(Mbv3, 0, 0);
    assert Offset(Mbv3, 0) == 0 by { assert Mbv3[..0] == []; }
  }

  /** translate2param accepts the test vector and gives the expected
      dictionary; translate2pymoo accepts that dictionary and gives the
      test vector back. */
  lemma Mbv3Translations()
    ensures Translate2Param(Mbv3, Mbv3Vector) == Ok(Mbv3Config)
    ensures Translate2Pymoo(Mbv3, Mbv3Config) == Ok(Mbv3Vector)
  {
    Mbv3Translate2Param();
    Mbv3Translate2Pymoo();
    Mbv3Shape();
    TranslateRoundTrips(Mbv3, Mbv3Vector, Mbv3Config);
  }
}

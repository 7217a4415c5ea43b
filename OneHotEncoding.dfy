/**
 * onehot_generic of the dynas parameter manager: every vector position
 * becomes an indicator block as wide as that position's cardinality, with
 * a single 1 at the offset the position holds; the blocks are concatenated
 * in vector order.
 */
module OneHotEncoding {
  import opened SearchSpace

  /** Indicator block of the given width with a 1 at offset k and 0
      everywhere else. */
  function Block(width: nat, k: int): (b: seq<int>)
    ensures |b| == width
    ensures forall j :: 0 <= j < width ==> b[j] == if j == k then 1 else 0
  {
    seq(width, j => if j == k then 1 else 0)
  }

  function SumInts(s: seq<int>): int {
    if s == [] then 0 else s[0] + SumInts(s[1..])
  }

  /** The blocks of every position, in order. */
  function OneHotBlocks(dims: seq<nat>, v: Vector): (bits: seq<int>)
    requires |v| == |dims|
    ensures |bits| == Sum(dims)
  {
    if dims == [] then [] else Block(dims[0], v[0]) + OneHotBlocks(dims[1..], v[1..])
  }

  /** onehot_generic: its length is the sum over the fields of position
      count times number of values. */
  function OneHot(t: Table, v: Vector): (bits: seq<int>)
    requires ValidVector(t, v)
    ensures |bits| == OneHotLength(t)
  {
    OneHotLengthIsSumOfDims(t);
    OneHotBlocks(Dims(t), v)
  }

  /** Where the block of position i starts: after the blocks of all
      earlier positions. */
  function BlockStart(dims: seq<nat>, i: nat): nat
    requires i <= |dims|
  {
    Sum(dims[..i])
  }

  /** A block holds exactly one 1 when its offset is inside it, and none
      otherwise. */
  lemma {:induction false} BlockSum(width: nat, k: int)
    ensures SumInts(Block(width, k)) == if 0 <= k < width then 1 else 0
  {
    if width > 0 {
      assert Block(width, k)[1..] == Block(width - 1, k - 1);
      BlockSum(width - 1, k - 1);
    }
  }

  /** The slice of the encoding that belongs to position i is position i's
      block. */
  lemma OneHotBlocksAt(dims: seq<nat>, v: Vector, i: nat)
    requires |v| == |dims| && i < |dims|
    ensures BlockStart(dims, i) + dims[i] <= Sum(dims)
    ensures OneHotBlocks(dims, v)[BlockStart(dims, i)..BlockStart(dims, i) + dims[i]] == Block(dims[i], v[i])
  {
    var s := BlockStart(dims, i);
    OneHotBlocksSplit(dims, v, i);
    var post := OneHotBlocks(dims[i..], v[i..]);
    assert post == Block(dims[i], v[i]) + OneHotBlocks(dims[i..][1..], v[i..][1..]);
    assert OneHotBlocks(dims, v)[s..s + dims[i]] == post[..dims[i]];
  }

  /** Position i's block is the indicator of offset v[i]: a 1 there, and
      a sum of 1. */
  lemma BlockIndicator(dims: seq<nat>, v: Vector, i: nat)
    requires InRange(dims, v) && i < |v|
    ensures BlockStart(dims, i) + dims[i] <= |OneHotBlocks(dims, v)|
    ensures OneHotBlocks(dims, v)[BlockStart(dims, i) + v[i]] == 1
    ensures SumInts(OneHotBlocks(dims, v)[BlockStart(dims, i)..BlockStart(dims, i) + dims[i]]) == 1
  {
    OneHotBlocksAt(dims, v, i);
    BlockSum(dims[i], v[i]);
    var s := BlockStart(dims, i);
    var b := Block(dims[i], v[i]);
    assert OneHotBlocks(dims, v)[s + v[i]] == b[v[i]];
  }

  /** The one-hot block invariant: the block of position i starts after the
      blocks of positions 0 .. i-1, is as wide as position i's cardinality,
      is the indicator of offset v[i] (1 there, 0 elsewhere) and sums
      to 1. */
  lemma OneHotBlock(t: Table, v: Vector, i: nat)
    requires ValidVector(t, v) && i < |v|
    ensures BlockStart(Dims(t), i) + Dims(t)[i] <= |OneHot(t, v)|
    ensures OneHot(t, v)[BlockStart(Dims(t), i)..BlockStart(Dims(t), i) + Dims(t)[i]] == Block(Dims(t)[i], v[i])
    ensures OneHot(t, v)[BlockStart(Dims(t), i) + v[i]] == 1
    ensures SumInts(OneHot(t, v)[BlockStart(Dims(t), i)..BlockStart(Dims(t), i) + Dims(t)[i]]) == 1
  {
    var d := Dims(t);
    var bits := OneHotBlocks(d, v);
    assert OneHot(t, v) == bits;
    OneHotBlocksAt(d, v, i);
    BlockIndicator(d, v, i);
    var s := BlockStart(d, i);
    assert bits[s..s + d[i]] == Block(d[i], v[i]);
  }

  /** Every bit of the encoding is 0 or 1. */
  lemma {:induction false} OneHotBits(dims: seq<nat>, v: Vector)
    requires |v| == |dims|
    ensures forall k :: 0 <= k < |OneHotBlocks(dims, v)| ==>
      OneHotBlocks(dims, v)[k] == 0 || OneHotBlocks(dims, v)[k] == 1
  {
    if dims != [] {
      OneHotBits(dims[1..], v[1..]);
    }
  }

  /** Different valid vectors have different one-hot encodings. */
  lemma OneHotInjective(t: Table, v1: Vector, v2: Vector)
    requires ValidVector(t, v1) && ValidVector(t, v2)
    requires OneHot(t, v1) == OneHot(t, v2)
    ensures v1 == v2
  {
    var dims := Dims(t);
    forall i | 0 <= i < |v1| ensures v1[i] == v2[i] {
      OneHotBlock(t, v1, i);
      OneHotBlock(t, v2, i);
      var b := Block(dims[i], v2[i]);
      assert b == Block(dims[i], v1[i]);
      assert b[v1[i]] == 1;
    }
  }

  /** Encoding two runs of positions one after the other gives the two
      encodings one after the other. */
  lemma {:induction false} OneHotBlocksAppend(d1: seq<nat>, v1: Vector, d2: seq<nat>, v2: Vector)
    requires |v1| == |d1| && |v2| == |d2|
    ensures OneHotBlocks(d1 + d2, v1 + v2) == OneHotBlocks(d1, v1) + OneHotBlocks(d2, v2)
  {
    if d1 == [] {
      assert d1 + d2 == d2 && v1 + v2 == v2;
    } else {
      assert (d1 + d2)[1..] == d1[1..] + d2 && (v1 + v2)[1..] == v1[1..] + v2;
      OneHotBlocksAppend(d1[1..], v1[1..], d2, v2);
    }
  }

  /** The encoding of a run of positions splits at any position k into the
      encodings of the two parts. */
  lemma OneHotBlocksSplit(dims: seq<nat>, v: Vector, k: nat)
    requires |v| == |dims| && k <= |dims|
    ensures OneHotBlocks(dims, v) == OneHotBlocks(dims[..k], v[..k]) + OneHotBlocks(dims[k..], v[k..])
  {
    assert dims[..k] + dims[k..] == dims && v[..k] + v[k..] == v;
    OneHotBlocksAppend(dims[..k], v[..k], dims[k..], v[k..]);
  }

  /** onehot_generic of two tables one after the other is the two
      encodings one after the other. */
  lemma OneHotAppend(t1: Table, v1: Vector, t2: Table, v2: Vector)
    requires ValidVector(t1, v1) && ValidVector(t2, v2)
    ensures ValidVector(t1 + t2, v1 + v2)
    ensures OneHot(t1 + t2, v1 + v2) == OneHot(t1, v1) + OneHot(t2, v2)
  {
    DimsAppend(t1, t2);
    InRangeAppend(Dims(t1), v1, Dims(t2), v2);
    OneHotBlocksAppend(Dims(t1), v1, Dims(t2), v2);
  }

  /** A table of one field: onehot_generic is that field's block run. */
  lemma OneHotSingle(f: Field, a: Vector)
    requires InRange(Repeat(|f.values|, f.count), a)
    ensures ValidVector([f], a)
    ensures OneHot([f], a) == OneHotBlocks(Repeat(|f.values|, f.count), a)
  {
    var r := Repeat(|f.values|, f.count);
    assert [f][1..] == [];
    assert Dims([f]) == r + [];
    assert r + [] == r;
  }

  /** Three fields: onehot_generic is their three block runs. */
  lemma OneHotThreeFields(f0: Field, f1: Field, f2: Field, a: Vector, b: Vector, c: Vector)
    requires InRange(Repeat(|f0.values|, f0.count), a)
    requires InRange(Repeat(|f1.values|, f1.count), b)
    requires InRange(Repeat(|f2.values|, f2.count), c)
    ensures ValidVector([f0, f1, f2], a + b + c)
    ensures OneHot([f0, f1, f2], a + b + c) ==
      OneHotBlocks(Repeat(|f0.values|, f0.count), a) + OneHotBlocks(Repeat(|f1.values|, f1.count), b)
      + OneHotBlocks(Repeat(|f2.values|, f2.count), c)
  {
    assert [f0, f1, f2] == [f0] + [f1] + [f2];
    OneHotSingle(f0, a);
    OneHotSingle(f1, b);
    OneHotSingle(f2, c);
    OneHotAppend([f0], a, [f1], b);
    OneHotAppend([f0] + [f1], a + b, [f2], c);
  }
}

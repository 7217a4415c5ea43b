/**
 * The search space of a supernet, as the dynas parameter manager sees it:
 * an ordered table of fields, each occupying a run of consecutive
 * positions in the integer ("pymoo") vector and each with an ordered list
 * of allowed values.
 */
module SearchSpace {

  /** One architecture parameter: its name in the architecture dictionary,
      how many vector positions it occupies, and its ordered allowed values. */
  datatype Field = Field(name: string, count: nat, values: seq<int>)

  /** Fields in vector order. */
  type Table = seq<Field>

  /** The integer vector handed to and from the optimizer. */
  type Vector = seq<int>

  /** The architecture dictionary: field name -> list of concrete values. */
  type ArchConfig = map<string, seq<int>>

  predicate Distinct(s: seq<int>) {
    forall i, j :: 0 <= i < j < |s| ==> s[i] != s[j]
  }

  predicate DistinctNames(t: Table) {
    forall i, j :: 0 <= i < j < |t| ==> t[i].name != t[j].name
  }

  /** A usable table: field names are distinct, and every field offers at
      least one value, with no value listed twice. */
  predicate WellFormed(t: Table) {
    && DistinctNames(t)
    && forall i :: 0 <= i < |t| ==> |t[i].values| > 0 && Distinct(t[i].values)
  }

  function Names(t: Table): (ns: set<string>)
    ensures forall i :: 0 <= i < |t| ==> t[i].name in ns
  {
    if t == [] then {} else {t[0].name} + Names(t[1..])
  }

  /** Number of vector positions the table occupies. */
  function VectorLength(t: Table): nat {
    if t == [] then 0 else t[0].count + VectorLength(t[1..])
  }

  /** First vector position of field i. */
  function Offset(t: Table, i: nat): nat
    requires i <= |t|
  {
    VectorLength(t[..i])
  }

  function Repeat(w: nat, n: nat): (s: seq<nat>)
    ensures |s| == n && forall j :: 0 <= j < n ==> s[j] == w
  {
    seq(n, _ => w)
  }

  /** The cardinality in force at each vector position. */
  function Dims(t: Table): (d: seq<nat>) {
    if t == [] then [] else Repeat(|t[0].values|, t[0].count) + Dims(t[1..])
  }

  function Sum(s: seq<nat>): nat {
    if s == [] then 0 else s[0] + Sum(s[1..])
  }

  /** Length of the one-hot encoding: for every field, its position count
      times its number of allowed values. */
  function OneHotLength(t: Table): nat {
    if t == [] then 0 else t[0].count * |t[0].values| + OneHotLength(t[1..])
  }

  /** Every coordinate indexes its position's allowed values. */
  predicate InRange(dims: seq<nat>, v: Vector) {
    |v| == |dims| && forall i :: 0 <= i < |v| ==> 0 <= v[i] < dims[i]
  }

  predicate ValidVector(t: Table, v: Vector) {
    InRange(Dims(t), v)
  }

  /** A field's list in an architecture dictionary: one allowed value per
      position of the field. */
  predicate ValidField(f: Field, xs: seq<int>) {
    |xs| == f.count && forall j :: 0 <= j < |xs| ==> xs[j] in f.values
  }

  /** Every field of the table is present with a valid list (other keys
      are ignored). */
  predicate ValidConfig(t: Table, c: ArchConfig) {
    forall i :: 0 <= i < |t| ==> t[i].name in c && ValidField(t[i], c[t[i].name])
  }

  lemma WellFormedTail(t: Table)
    requires WellFormed(t) && t != []
    ensures WellFormed(t[1..])
    ensures forall i :: 1 <= i < |t| ==> t[0].name != t[i].name
  {
    forall i | 0 <= i < |t[1..]| ensures |t[1..][i].values| > 0 && Distinct(t[1..][i].values) {
      assert t[1..][i] == t[i + 1];
    }
  }

  lemma {:induction false} DimsLength(t: Table)
    ensures |Dims(t)| == VectorLength(t)
  {
    if t != [] {
      DimsLength(t[1..]);
    }
  }

  lemma {:induction false} DimsPositive(t: Table)
    requires WellFormed(t)
    ensures forall k :: 0 <= k < |Dims(t)| ==> Dims(t)[k] > 0
  {
    if t != [] {
      WellFormedTail(t);
      DimsPositive(t[1..]);
    }
  }

  lemma {:induction false} SumRepeat(w: nat, n: nat)
    ensures Sum(Repeat(w, n)) == n * w
  {
    if n > 0 {
      assert Repeat(w, n)[1..] == Repeat(w, n - 1);
      SumRepeat(w, n - 1);
    }
  }

  lemma {:induction false} SumAppend(a: seq<nat>, b: seq<nat>)
    ensures Sum(a + b) == Sum(a) + Sum(b)
  {
    if a == [] {
      assert a + b == b;
    } else {
      assert (a + b)[1..] == a[1..] + b;
      SumAppend(a[1..], b);
    }
  }

  /** The one-hot length is the sum, over all vector positions, of the
      cardinality in force at that position. */
  lemma {:induction false} OneHotLengthIsSumOfDims(t: Table)
    ensures Sum(Dims(t)) == OneHotLength(t)
  {
    if t != [] {
      SumAppend(Repeat(|t[0].values|, t[0].count), Dims(t[1..]));
      SumRepeat(|t[0].values|, t[0].count);
      OneHotLengthIsSumOfDims(t[1..]);
    }
  }

  /** A valid vector splits into the first field's run and a valid vector
      for the remaining fields. */
  lemma ValidVectorSplit(t: Table, v: Vector)
    requires t != [] && ValidVector(t, v)
    ensures t[0].count <= |v|
    ensures forall j :: 0 <= j < t[0].count ==> 0 <= v[j] < |t[0].values|
    ensures ValidVector(t[1..], v[t[0].count..])
  {
    var n := t[0].count;
    assert Dims(t) == Repeat(|t[0].values|, n) + Dims(t[1..]);
    forall j | 0 <= j < n ensures 0 <= v[j] < |t[0].values| {
      assert Dims(t)[j] == |t[0].values|;
    }
    forall j | 0 <= j < |v| - n ensures 0 <= v[n..][j] < Dims(t[1..])[j] {
      assert Dims(t)[n + j] == Dims(t[1..])[j];
    }
  }

  lemma ValidConfigTail(t: Table, c: ArchConfig)
    requires t != [] && ValidConfig(t, c)
    ensures ValidConfig(t[1..], c)
  {
    forall i | 0 <= i < |t[1..]| ensures t[1..][i].name in c && ValidField(t[1..][i], c[t[1..][i].name]) {
      assert t[1..][i] == t[i + 1];
    }
  }

  /** Field i starts where fields 0 .. i-1 end, and every position of its
      run carries the field's cardinality. */
  lemma {:induction false} DimsAt(t: Table, i: nat, j: nat)
    requires i < |t| && j < t[i].count
    ensures Offset(t, i) + j < |Dims(t)|
    ensures Dims(t)[Offset(t, i) + j] == |t[i].values|
  {
    var n := t[0].count;
    assert Dims(t) == Repeat(|t[0].values|, n) + Dims(t[1..]);
    if i == 0 {
      assert t[..0] == [];
      DimsLength(t[1..]);
    } else {
      assert t[..i][1..] == t[1..][..i - 1];
      assert t[1..][i - 1] == t[i];
      DimsAt(t[1..], i - 1, j);
      assert Offset(t, i) == n + Offset(t[1..], i - 1);
    }
  }

  /** The cardinalities of two tables one after the other. */
  lemma {:induction false} DimsAppend(t1: Table, t2: Table)
    ensures Dims(t1 + t2) == Dims(t1) + Dims(t2)
  {
    if t1 == [] {
      assert t1 + t2 == t2;
    } else {
      assert (t1 + t2)[1..] == t1[1..] + t2;
      DimsAppend(t1[1..], t2);
    }
  }

  /** Positions, one-hot length and names of two tables one after the
      other. */
  lemma {:induction false} TableAppend(t1: Table, t2: Table)
    ensures VectorLength(t1 + t2) == VectorLength(t1) + VectorLength(t2)
    ensures OneHotLength(t1 + t2) == OneHotLength(t1) + OneHotLength(t2)
    ensures Names(t1 + t2) == Names(t1) + Names(t2)
  {
    if t1 == [] {
      assert t1 + t2 == t2;
    } else {
      assert (t1 + t2)[1..] == t1[1..] + t2;
      TableAppend(t1[1..], t2);
    }
  }

  /** Positions, one-hot length and names of a table of three fields. */
  lemma TableOfThree(f0: Field, f1: Field, f2: Field)
    ensures VectorLength([f0, f1, f2]) == f0.count + f1.count + f2.count
    ensures OneHotLength([f0, f1, f2]) == f0.count * |f0.values| + f1.count * |f1.values| + f2.count * |f2.values|
    ensures Names([f0, f1, f2]) == {f0.name, f1.name, f2.name}
  {
    var g, h, k := [f0, f1, f2], [f1, f2], [f2];
    assert g[1..] == h && h[1..] == k && k[1..] == [];
    assert VectorLength(k) == f2.count && OneHotLength(k) == f2.count * |f2.values| && Names(k) == {f2.name};
    assert VectorLength(h) == f1.count + VectorLength(k);
    assert OneHotLength(h) == f1.count * |f1.values| + OneHotLength(k);
    assert Names(h) == {f1.name} + Names(k);
  }

  /** A dictionary is valid for two tables one after the other exactly when
      it is valid for each. */
  lemma ValidConfigAppend(t1: Table, t2: Table, c: ArchConfig)
    ensures ValidConfig(t1 + t2, c) <==> ValidConfig(t1, c) && ValidConfig(t2, c)
  {
    if ValidConfig(t1 + t2, c) {
      forall i | 0 <= i < |t1| ensures t1[i].name in c && ValidField(t1[i], c[t1[i].name]) {
        assert (t1 + t2)[i] == t1[i];
      }
      forall i | 0 <= i < |t2| ensures t2[i].name in c && ValidField(t2[i], c[t2[i].name]) {
        assert (t1 + t2)[|t1| + i] == t2[i];
      }
    }
  }

  /** In-range runs one after the other are in range for the cardinalities
      one after the other. */
  lemma InRangeAppend(d1: seq<nat>, v1: Vector, d2: seq<nat>, v2: Vector)
    requires InRange(d1, v1) && InRange(d2, v2)
    ensures InRange(d1 + d2, v1 + v2)
  {
    forall i | 0 <= i < |v1 + v2| ensures 0 <= (v1 + v2)[i] < (d1 + d2)[i] {
      if i >= |v1| {
        assert (v1 + v2)[i] == v2[i - |v1|] && (d1 + d2)[i] == d2[i - |v1|];
      }
    }
  }
}

/**
 * translate2param / translate2pymoo of the dynas parameter manager: a
 * positional index lookup from the integer vector to the architecture
 * dictionary, and the reverse index search.
 */
module ParameterCodec {
  import opened SearchSpace

  /** Position of the first occurrence of x in s, as Python's list.index. */
  function IndexOf(s: seq<int>, x: int): (k: nat)
    requires x in s
    ensures k < |s| && s[k] == x
    ensures forall j :: 0 <= j < k ==> s[j] != x
  {
    if s[0] == x then 0 else 1 + IndexOf(s[1..], x)
  }

  /** In a list without repetitions, the index search finds the one index
      holding the value. */
  lemma IndexOfDistinct(s: seq<int>, k: nat)
    requires Distinct(s) && k < |s|
    ensures IndexOf(s, s[k]) == k
  {
  }

  /** Looking a run of indices up and searching the values back gives the
      run again, when the value list has no repetitions. */
  lemma EncodeDecodeField(values: seq<int>, idx: Vector)
    requires Distinct(values)
    requires forall j :: 0 <= j < |idx| ==> 0 <= idx[j] < |values|
    ensures EncodeField(values, DecodeField(values, idx)) == idx
  {
    var x := DecodeField(values, idx);
    forall j | 0 <= j < |idx| ensures EncodeField(values, x)[j] == idx[j] {
      IndexOfDistinct(values, idx[j]);
    }
  }

  /** One field's run of indices, looked up in its ordered value list. */
  function DecodeField(values: seq<int>, idx: Vector): (xs: seq<int>)
    requires forall j :: 0 <= j < |idx| ==> 0 <= idx[j] < |values|
    ensures |xs| == |idx|
    ensures forall j :: 0 <= j < |idx| ==> xs[j] == values[idx[j]]
  {
    seq(|idx|, j requires 0 <= j < |idx| => values[idx[j]])
  }

  /** One field's list of values, each replaced by its index. */
  function EncodeField(values: seq<int>, xs: seq<int>): (idx: Vector)
    requires forall j :: 0 <= j < |xs| ==> xs[j] in values
    ensures |idx| == |xs|
    ensures forall j :: 0 <= j < |xs| ==> 0 <= idx[j] < |values| && values[idx[j]] == xs[j]
  {
    seq(|xs|, j requires 0 <= j < |xs| => IndexOf(values, xs[j]))
  }

  /** translate2param: each field takes its run of positions, in table
      order, and every position is looked up in the field's value list. */
  function Decode(t: Table, v: Vector): (c: ArchConfig)
    requires WellFormed(t) && ValidVector(t, v)
    ensures c.Keys == Names(t)
    ensures ValidConfig(t, c)
  {
    if t == [] then map[]
    else
      var f := t[0];
      WellFormedTail(t);
      ValidVectorSplit(t, v);
      var rest := Decode(t[1..], v[f.count..]);
      var c := rest[f.name := DecodeField(f.values, v[..f.count])];
      assert ValidConfig(t, c) by {
        forall i | 1 <= i < |t| ensures t[i].name in c && ValidField(t[i], c[t[i].name]) {
          assert t[1..][i - 1] == t[i];
        }
      }
      c
  }

  /** translate2pymoo: the fields' lists, in table order, each value
      replaced by its index in the field's value list. */
  function Encode(t: Table, c: ArchConfig): (v: Vector)
    requires ValidConfig(t, c)
    ensures ValidVector(t, v)
  {
    if t == [] then []
    else
      var f := t[0];
      ValidConfigTail(t, c);
      var head := EncodeField(f.values, c[f.name]);
      var tail := Encode(t[1..], c);
      assert Dims(t) == Repeat(|f.values|, f.count) + Dims(t[1..]);
      assert forall k :: f.count <= k < |head + tail| ==> (head + tail)[k] == tail[k - f.count];
      head + tail
  }

  /** translate2pymoo emits the first field's indices, then the encoding
      of the remaining fields. */
  lemma EncodeFirstField(t: Table, c: ArchConfig)
    requires t != [] && ValidConfig(t, c)
    ensures ValidConfig(t[1..], c)
    ensures Encode(t, c) == EncodeField(t[0].values, c[t[0].name]) + Encode(t[1..], c)
  {
    ValidConfigTail(t, c);
  }

  /** Entry j of field i in the decoded dictionary is the vector entry at
      field i's offset plus j, looked up in field i's value list. */
  lemma {:induction false} DecodeAt(t: Table, v: Vector, i: nat, j: nat)
    requires WellFormed(t) && ValidVector(t, v) && i < |t| && j < t[i].count
    ensures Offset(t, i) + j < |v| && 0 <= v[Offset(t, i) + j] < |t[i].values|
    ensures Decode(t, v)[t[i].name][j] == t[i].values[v[Offset(t, i) + j]]
  {
    DecodeEntry(t, v, i);
    var n := t[0].count;
    if i == 0 {
      assert t[..0] == [];
    } else {
      OffsetTail(t, i);
      var w := v[n..];
      DecodeAt(t[1..], w, i - 1, j);
      assert v[Offset(t, i) + j] == w[Offset(t[1..], i - 1) + j];
    }
  }

  /** Field i's entry of the decoded dictionary: the first field's run
      looked up, or else the entry of the remaining fields' dictionary. */
  lemma DecodeEntry(t: Table, v: Vector, i: nat)
    requires WellFormed(t) && ValidVector(t, v) && i < |t|
    ensures t[0].count <= |v| && WellFormed(t[1..]) && ValidVector(t[1..], v[t[0].count..])
    ensures forall j :: 0 <= j < t[0].count ==> 0 <= v[..t[0].count][j] < |t[0].values|
    ensures i == 0 ==> Decode(t, v)[t[i].name] == DecodeField(t[0].values, v[..t[0].count])
    ensures i > 0 ==> t[1..][i - 1] == t[i] && Decode(t, v)[t[i].name] == Decode(t[1..], v[t[0].count..])[t[i].name]
  {
    DecodeFirstField(t, v);
    WellFormedTail(t);
    if i > 0 {
      assert t[1..][i - 1] == t[i];
    }
  }

  /** Field i of a table starts the first field's count after field i-1
      of the remaining fields. */
  lemma OffsetTail(t: Table, i: nat)
    requires 0 < i <= |t|
    ensures Offset(t, i) == t[0].count + Offset(t[1..], i - 1)
  {
    assert t[..i][1..] == t[1..][..i - 1];
  }

  /** Encoding only reads the entries named by the table. */
  lemma {:induction false} EncodeFrame(t: Table, c1: ArchConfig, c2: ArchConfig)
    requires ValidConfig(t, c1) && ValidConfig(t, c2)
    requires forall i :: 0 <= i < |t| ==> c1[t[i].name] == c2[t[i].name]
    ensures Encode(t, c1) == Encode(t, c2)
  {
    if t != [] {
      ValidConfigTail(t, c1);
      ValidConfigTail(t, c2);
      forall i | 0 <= i < |t[1..]| ensures c1[t[1..][i].name] == c2[t[1..][i].name] {
        assert t[1..][i] == t[i + 1];
      }
      EncodeFrame(t[1..], c1, c2);
    }
  }

  /** The dictionary restricted to the table's field names. */
  function Restrict(c: ArchConfig, names: set<string>): (r: ArchConfig)
    ensures r.Keys == c.Keys * names
    ensures forall n :: n in r ==> r[n] == c[n]
  {
    map n | n in c && n in names :: c[n]
  }

  /** translate2param undoes translate2pymoo on the fields the table names;
      other keys of the dictionary are dropped. */
  lemma {:induction false} DecodeEncodeRestrict(t: Table, c: ArchConfig)
    requires WellFormed(t) && ValidConfig(t, c)
    ensures Decode(t, Encode(t, c)) == Restrict(c, Names(t))
  {
    if t != [] {
      var f := t[0];
      WellFormedTail(t);
      ValidConfigTail(t, c);
      var head := EncodeField(f.values, c[f.name]);
      var tail := Encode(t[1..], c);
      var v := head + tail;
      assert v == Encode(t, c);
      ValidVectorSplit(t, v);
      assert v[..f.count] == head && v[f.count..] == tail;
      DecodeEncodeRestrict(t[1..], c);
      var x := DecodeField(f.values, head);
      assert x == c[f.name];
      assert Decode(t, v) == Restrict(c, Names(t[1..]))[f.name := x];
    }
  }

  /** Round trip: on a dictionary holding exactly the table's fields, each
      with a valid list, translate2param(translate2pymoo(c)) == c. */
  lemma DecodeEncode(t: Table, c: ArchConfig)
    requires WellFormed(t) && ValidConfig(t, c) && c.Keys == Names(t)
    ensures Decode(t, Encode(t, c)) == c
  {
    DecodeEncodeRestrict(t, c);
    assert Restrict(c, Names(t)) == c;
  }

  /** translate2param fills the first field from the first run and the
      remaining fields from the rest of the vector. */
  lemma DecodeFirstField(t: Table, v: Vector)
    requires WellFormed(t) && ValidVector(t, v) && t != []
    ensures t[0].count <= |v| && WellFormed(t[1..]) && ValidVector(t[1..], v[t[0].count..])
    ensures forall j :: 0 <= j < t[0].count ==> 0 <= v[..t[0].count][j] < |t[0].values|
    ensures Decode(t, v) == Decode(t[1..], v[t[0].count..])[t[0].name := DecodeField(t[0].values, v[..t[0].count])]
  {
    WellFormedTail(t);
    ValidVectorSplit(t, v);
  }

  /** Encoding the remaining fields reads only their entries, which the
      first field's entry does not disturb. */
  lemma EncodeTailOfDecode(t: Table, v: Vector)
    requires WellFormed(t) && ValidVector(t, v) && t != []
    ensures t[0].count <= |v| && WellFormed(t[1..]) && ValidVector(t[1..], v[t[0].count..])
    ensures ValidConfig(t[1..], Decode(t, v))
    ensures Encode(t[1..], Decode(t, v)) == Encode(t[1..], Decode(t[1..], v[t[0].count..]))
  {
    DecodeFirstField(t, v);
    WellFormedTail(t);
    var d, rest := Decode(t, v), Decode(t[1..], v[t[0].count..]);
    ValidConfigTail(t, d);
    forall i | 0 <= i < |t[1..]| ensures d[t[1..][i].name] == rest[t[1..][i].name] {
      assert t[1..][i] == t[i + 1];
    }
    EncodeFrame(t[1..], d, rest);
  }

  /** The first field's entry of the decoded dictionary encodes back to
      the first run of the vector. */
  lemma EncodeHeadOfDecode(t: Table, v: Vector)
    requires WellFormed(t) && ValidVector(t, v) && t != []
    ensures t[0].count <= |v| && t[0].name in Decode(t, v)
    ensures ValidField(t[0], Decode(t, v)[t[0].name])
    ensures EncodeField(t[0].values, Decode(t, v)[t[0].name]) == v[..t[0].count]
  {
    DecodeFirstField(t, v);
    EncodeDecodeField(t[0].values, v[..t[0].count]);
  }

  /** Round trip: on a valid vector,
      translate2pymoo(translate2param(v)) == v. This needs every value
      list to be free of repetitions. */
  lemma {:induction false} EncodeDecode(t: Table, v: Vector)
    requires WellFormed(t) && ValidVector(t, v)
    ensures Encode(t, Decode(t, v)) == v
  {
    if t != [] {
      var n := t[0].count;
      EncodeHeadOfDecode(t, v);
      EncodeTailOfDecode(t, v);
      EncodeDecode(t[1..], v[n..]);
      EncodeSplitsAt(t, Decode(t, v), v);
    }
  }

  /** A dictionary whose first field encodes to the first run of v and
      whose remaining fields encode to the rest of v encodes to v. */
  lemma EncodeSplitsAt(t: Table, c: ArchConfig, v: Vector)
    requires t != [] && ValidConfig(t, c) && t[0].count <= |v|
    requires EncodeField(t[0].values, c[t[0].name]) == v[..t[0].count]
    requires ValidConfig(t[1..], c) && Encode(t[1..], c) == v[t[0].count..]
    ensures Encode(t, c) == v
  {
    EncodeFirstField(t, c);
    assert v[..t[0].count] + v[t[0].count..] == v;
  }

  /** Two valid vectors with the same decoded dictionary are equal: no two
      vectors name the same architecture. */
  lemma DecodeInjective(t: Table, v1: Vector, v2: Vector)
    requires WellFormed(t) && ValidVector(t, v1) && ValidVector(t, v2)
    requires Decode(t, v1) == Decode(t, v2)
    ensures v1 == v2
  {
    EncodeDecode(t, v1);
    EncodeDecode(t, v2);
  }

  /** translate2pymoo of two tables one after the other is the two
      vectors one after the other. */
  lemma {:induction false} EncodeAppend(t1: Table, t2: Table, c: ArchConfig)
    requires ValidConfig(t1, c) && ValidConfig(t2, c) && ValidConfig(t1 + t2, c)
    ensures Encode(t1 + t2, c) == Encode(t1, c) + Encode(t2, c)
  {
    if t1 == [] {
      assert t1 + t2 == t2;
    } else {
      EncodeAppendStep(t1, t2, c);
      EncodeAppend(t1[1..], t2, c);
      ConcatJoin(Encode(t1 + t2, c), Encode(t1[1..] + t2, c), Encode(t1, c),
        EncodeField(t1[0].values, c[t1[0].name]), Encode(t1[1..], c), Encode(t2, c));
    }
  }

  /** Regrouping a concatenation: if x is h followed by y, y is a followed
      by b, and z is h followed by a, then x is z followed by b. */
  lemma ConcatJoin(x: Vector, y: Vector, z: Vector, h: Vector, a: Vector, b: Vector)
    requires x == h + y && y == a + b && z == h + a
    ensures x == z + b
  {
    assert h + (a + b) == (h + a) + b;
  }

  /** Both encodings in EncodeAppend start with the first field of t1. */
  lemma EncodeAppendStep(t1: Table, t2: Table, c: ArchConfig)
    requires t1 != [] && ValidConfig(t1, c) && ValidConfig(t1 + t2, c)
    ensures ValidConfig(t1[1..], c) && ValidConfig(t1[1..] + t2, c)
    ensures Encode(t1, c) == EncodeField(t1[0].values, c[t1[0].name]) + Encode(t1[1..], c)
    ensures Encode(t1 + t2, c) == EncodeField(t1[0].values, c[t1[0].name]) + Encode(t1[1..] + t2, c)
  {
    var t := t1 + t2;
    assert t[0] == t1[0] && t[1..] == t1[1..] + t2;
    EncodeFirstField(t, c);
    EncodeFirstField(t1, c);
  }

  /** Three fields: translate2pymoo is their three index runs. */
  lemma EncodeThreeFields(f0: Field, f1: Field, f2: Field, c: ArchConfig)
    requires f0.name in c && ValidField(f0, c[f0.name])
    requires f1.name in c && ValidField(f1, c[f1.name])
    requires f2.name in c && ValidField(f2, c[f2.name])
    ensures Encode([f0, f1, f2], c) ==
      EncodeField(f0.values, c[f0.name]) + EncodeField(f1.values, c[f1.name]) + EncodeField(f2.values, c[f2.name])
  {
    var t := [f0, f1, f2];
    assert ValidConfig(t, c);
    EncodeFirstField(t, c);
    EncodeFirstField(t[1..], c);
    EncodeFirstField(t[1..][1..], c);
    assert t[1..][1..][1..] == [];
  }

  /** translate2pymoo of three tables one after the other. */
  lemma EncodeThreeTables(g0: Table, g1: Table, g2: Table, c: ArchConfig)
    requires ValidConfig(g0 + g1 + g2, c)
    ensures ValidConfig(g0, c) && ValidConfig(g1, c) && ValidConfig(g2, c)
      && Encode(g0 + g1 + g2, c) == Encode(g0, c) + Encode(g1, c) + Encode(g2, c)
  {
    ValidConfigAppend(g0 + g1, g2, c);
    ValidConfigAppend(g0, g1, c);
    EncodeAppend(g0 + g1, g2, c);
    EncodeAppend(g0, g1, c);
  }

  /** The ways a translation can fail. */
  datatype CodecError =
    | InvalidVector   // a coordinate outside its position's range, or a vector of the wrong length
    | MissingField    // a field of the table absent from the dictionary
    | UnknownValue    // a list of the wrong length, or holding a value the field does not allow

  datatype Result<T> = Ok(value: T) | Err(error: CodecError)

  /** translate2param with its failure: a vector is rejected exactly when
      it has the wrong length or some coordinate does not index its
      position's values; an accepted vector decodes to a dictionary of the
      table's fields that translate2pymoo maps back to the same vector. */
  function Translate2Param(t: Table, v: Vector): (r: Result<ArchConfig>)
    requires WellFormed(t)
    ensures r.Ok? <==> ValidVector(t, v)
    ensures r.Err? ==> r.error == InvalidVector
    ensures r.Ok? ==> r.value.Keys == Names(t) && ValidConfig(t, r.value) && Encode(t, r.value) == v
  {
    if ValidVector(t, v) then
      EncodeDecode(t, v);
      Ok(Decode(t, v))
    else
      Err(InvalidVector)
  }

  /** translate2pymoo with its failures: a dictionary is rejected exactly
      when a field is missing or one of its lists is not a list of allowed
      values of the right length; an accepted dictionary encodes to a valid
      vector that translate2param maps back to the dictionary's entries for
      the table's fields. */
  function Translate2Pymoo(t: Table, c: ArchConfig): (r: Result<Vector>)
    requires WellFormed(t)
    ensures r.Ok? <==> ValidConfig(t, c)
    ensures r.Err? ==> (r.error == MissingField <==> exists i :: 0 <= i < |t| && t[i].name !in c)
    ensures r.Err? ==> r.error in {MissingField, UnknownValue}
    ensures r.Ok? ==> ValidVector(t, r.value) && Decode(t, r.value) == Restrict(c, Names(t))
  {
    if exists i :: 0 <= i < |t| && t[i].name !in c then
      Err(MissingField)
    else if !ValidConfig(t, c) then
      Err(UnknownValue)
    else
      DecodeEncodeRestrict(t, c);
      Ok(Encode(t, c))
  }

  /** A vector translate2param accepts comes back unchanged through
      translate2pymoo; a dictionary translate2pymoo accepts comes back
      unchanged when its keys are exactly the table's field names (other
      keys are dropped). */
  lemma TranslateRoundTrips(t: Table, v: Vector, c: ArchConfig)
    requires WellFormed(t)
    ensures Translate2Param(t, v).Ok? ==> Translate2Pymoo(t, Translate2Param(t, v).value) == Ok(v)
    ensures Translate2Pymoo(t, c).Ok? && c.Keys == Names(t) ==>
      Translate2Param(t, Translate2Pymoo(t, c).value) == Ok(c)
  {
    if Translate2Pymoo(t, c).Ok? && c.Keys == Names(t) {
      DecodeEncode(t, c);
    }
  }
}

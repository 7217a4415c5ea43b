/**
 * random_samples of the dynas parameter manager: n vectors, each
 * coordinate drawn from its position's cardinality. The random source is a
 * parameter here: one raw draw per coordinate, reduced modulo the
 * cardinality in force at that position.
 */
module RandomSampling {
  import opened SearchSpace

  /** One vector from one raw draw per position. */
  function Sample(t: Table, draw: seq<nat>): (v: Vector)
    requires WellFormed(t) && |draw| == VectorLength(t)
    ensures ValidVector(t, v)
  {
    DimsLength(t);
    DimsPositive(t);
    seq(|draw|, i requires 0 <= i < |draw| => draw[i] % Dims(t)[i])
  }

  /** random_samples(n): n vectors, every one of them a valid input of
      translate2param. */
  function RandomSamples(t: Table, n: nat, draws: seq<seq<nat>>): (samples: seq<Vector>)
    requires WellFormed(t) && |draws| == n
    requires forall k :: 0 <= k < n ==> |draws[k]| == VectorLength(t)
    ensures |samples| == n
    ensures forall k :: 0 <= k < n ==> ValidVector(t, samples[k])
  {
    seq(n, k requires 0 <= k < n => Sample(t, draws[k]))
  }

  /** Every valid vector is drawn by some choice of raw draws: sampling
      covers the whole search space. */
  lemma SampleReachesEveryVector(t: Table, v: Vector)
    requires WellFormed(t) && ValidVector(t, v)
    ensures exists draw :: |draw| == VectorLength(t) && Sample(t, draw) == v
  {
    DimsLength(t);
    var draw: seq<nat> := seq(|v|, i requires 0 <= i < |v| => v[i] as nat);
    assert Sample(t, draw) == v;
  }
}

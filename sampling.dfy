/** The numpy draws the generator makes (car001.py:48-61, 151), with the random
    stream abstracted: every draw is a parameter holding the raw value the
    generator produced, and these functions map it into the requested range the
    way numpy does. The seed and the generator's bit stream are not modelled. */
module Sampling {
  import opened Common

  /** `np.random.randint(low, high)`: a value in [low, high), or numpy's
      ValueError when the range is empty. The raw draw `u` picks the value as
      `low + u mod (high - low)`. */
  function RandInt(low: int, high: int, u: nat): (r: Result<int>)
    ensures r.Ok? <==> low < high
    ensures r.Err? ==> r.error == EmptyRange(low, high)
    ensures r.Ok? ==> low <= r.value < high
  {
    if low < high then Ok(low + u % (high - low)) else Err(EmptyRange(low, high))
  }

  /** Every value of a non-empty range is reachable: the draw is not biased
      away from any part of [low, high). */
  lemma RandIntReaches(low: int, high: int, v: int)
    requires low <= v < high
    ensures RandInt(low, high, (v - low) as nat) == Ok(v)
  {
  }

  /** A draw of numpy's `random()`, in [0, 1). */
  predicate IsUnit(u: real) { 0.0 <= u < 1.0 }

  /** `np.random.uniform(low, high)` computed from a unit draw, as numpy does:
      `low + (high - low) * u`. */
  function Uniform(low: real, high: real, u: real): (r: real)
    requires low <= high && IsUnit(u)
    ensures low <= r <= high
    ensures low < high ==> r < high
  {
    var w := high - low;
    assert 0.0 <= w * u by {
      assert 0.0 <= w && 0.0 <= u;
    }
    assert w * u <= w && (0.0 < w ==> w * u < w) by {
      assert w - w * u == w * (1.0 - u);
      assert 0.0 <= w * (1.0 - u);
      assert 0.0 < w ==> 0.0 < w * (1.0 - u);
    }
    low + w * u
  }

  function Sum(p: seq<real>): real {
    if |p| == 0 then 0.0 else p[0] + Sum(p[1..])
  }

  /** The cumulative weight of the first k entries. */
  function Cumulative(p: seq<real>, k: nat): real
    requires k <= |p|
  {
    Sum(p[..k])
  }

  predicate NonNegative(p: seq<real>) {
    forall i :: 0 <= i < |p| ==> p[i] >= 0.0
  }

  /** What numpy checks of `p` before a weighted choice: non-empty,
      non-negative and summing to 1. */
  predicate IsDistribution(p: seq<real>) {
    |p| > 0 && NonNegative(p) && Sum(p) == 1.0
  }

  /** The index `np.random.choice(a, p=p)` returns for a unit draw: numpy
      searches the cumulative weights for the draw (searchsorted, right side),
      which is the first index whose cumulative weight exceeds the draw. */
  function WeightedIndex(p: seq<real>, u: real): (r: nat)
    requires |p| > 0
    ensures r < |p|
  {
    if |p| == 1 || u < p[0] then 0 else 1 + WeightedIndex(p[1..], u - p[0])
  }

  lemma {:induction false} SumNonNegative(p: seq<real>)
    requires NonNegative(p)
    ensures Sum(p) >= 0.0
  {
    if |p| > 0 {
      SumNonNegative(p[1..]);
    }
  }

  lemma CumulativeShift(p: seq<real>, k: nat)
    requires 1 <= k <= |p|
    ensures Cumulative(p, k) == p[0] + Cumulative(p[1..], k - 1)
  {
    assert p[..k][1..] == p[1..][..k - 1];
  }

  /** Each entry adds exactly its own weight to the cumulative weight. */
  lemma {:induction false} CumulativeStep(p: seq<real>, i: nat)
    requires i < |p|
    ensures Cumulative(p, i + 1) == Cumulative(p, i) + p[i]
  {
    if i == 0 {
      assert p[..1] == [p[0]] && p[..0] == [];
      assert p[..1][1..] == [];
    } else {
      CumulativeShift(p, i);
      CumulativeShift(p, i + 1);
      CumulativeStep(p[1..], i - 1);
    }
  }

  /** The weighted choice lands on index i exactly when the draw falls in
      [Cumulative(p, i), Cumulative(p, i) + p[i]): each index is chosen with its
      own weight. */
  lemma {:induction false} WeightedIndexInterval(p: seq<real>, u: real, i: nat)
    requires |p| > 0 && NonNegative(p) && 0.0 <= u < Sum(p) && i < |p|
    ensures WeightedIndex(p, u) == i <==> Cumulative(p, i) <= u < Cumulative(p, i) + p[i]
  {
    CumulativeStep(p, i);
    assert p[..0] == [];
    assert p[..|p|] == p;
    if i > 0 {
      CumulativeShift(p, i);
    }
    CumulativeShift(p, i + 1);
    if |p| > 1 {
      assert NonNegative(p[1..]);
      if i > 0 {
        SumNonNegative(p[1..][..i - 1]);
      }
      if u >= p[0] && i > 0 {
        WeightedIndexInterval(p[1..], u - p[0], i - 1);
      }
    }
  }

  /** The condition weights of the generator, best condition first. */
  const ConditionWeights: seq<real> := [0.1, 0.2, 0.4, 0.2, 0.1]

  /** The owner-type weights of the generator, first owner first. */
  const OwnerWeights: seq<real> := [0.4, 0.3, 0.2, 0.1]

  /** Both weight vectors pass numpy's checks, so the weighted draws never
      raise. */
  lemma WeightsAreDistributions()
    ensures IsDistribution(ConditionWeights) && |ConditionWeights| == 5
    ensures IsDistribution(OwnerWeights) && |OwnerWeights| == 4
  {
  }

  /** The "Good" condition (index 2) is drawn exactly for draws in [0.3, 0.7),
      which is where its weight 0.4 puts it. */
  lemma GoodConditionBand(u: real)
    requires IsUnit(u)
    ensures WeightedIndex(ConditionWeights, u) == 2 <==> 0.3 <= u < 0.7
  {
    WeightsAreDistributions();
    WeightedIndexInterval(ConditionWeights, u, 2);
    assert ConditionWeights[..2] == [0.1, 0.2];
  }

  /** The "First" owner type (index 0) is drawn exactly for draws in [0, 0.4),
      the largest share of the four. */
  lemma FirstOwnerBand(u: real)
    requires IsUnit(u)
    ensures WeightedIndex(OwnerWeights, u) == 0 <==> u < 0.4
  {
    WeightsAreDistributions();
    WeightedIndexInterval(OwnerWeights, u, 0);
    assert OwnerWeights[..0] == [];
  }
}

/** The solution codec: `decode_solution`, which turns a position of the search space into
    the decision-tree hyperparameters it stands for. */
module Codec {
  import opened Numeric

  datatype Criterion = Gini | Entropy

  /** The hyperparameter dictionary `decode_solution` returns. */
  datatype TreeConfig = TreeConfig(criterion: Criterion, maxDepth: int, minSamplesSplit: int, minSamplesLeaf: int)

  /** The ranges the codec clips into: depth and split size in [2,10], leaf size in [1,10]. */
  predicate InRange(c: TreeConfig) {
    && 2 <= c.maxDepth <= 10
    && 2 <= c.minSamplesSplit <= 10
    && 1 <= c.minSamplesLeaf <= 10
  }

  /** `decode_solution(wolf)`: round every component; component 0 picks the criterion
      (0 is Gini, any other integer is Entropy), the other three are clipped into their ranges.
      Components after the fourth are ignored. */
  function Decode(wolf: seq<real>): (c: TreeConfig)
    requires |wolf| >= 4
    ensures InRange(c)
    ensures c.criterion == Gini <==> -0.5 <= wolf[0] <= 0.5
  {
    var criterionCode := RoundHalfEven(wolf[0]);
    CriterionCodeZero(wolf[0]);
    TreeConfig(
      if criterionCode == 0 then Gini else Entropy,
      ClipInt(RoundHalfEven(wolf[1]), 2, 10),
      ClipInt(RoundHalfEven(wolf[2]), 2, 10),
      ClipInt(RoundHalfEven(wolf[3]), 1, 10))
  }

  /** Under ties-to-even, `round(x) == 0` holds exactly on the closed interval [-0.5, 0.5]. */
  lemma CriterionCodeZero(x: real)
    ensures RoundHalfEven(x) == 0 <==> -0.5 <= x <= 0.5
  {
    if -0.5 <= x <= 0.5 {
      RoundHalfEvenUnique(x, 0);
    }
  }

  /** A configuration written back as a position: the criterion as 0 or 1, the integers as reals. */
  function Encode(c: TreeConfig): (w: seq<real>)
    ensures |w| == 4
    ensures w[0] == 0.0 || w[0] == 1.0
  {
    [if c.criterion == Gini then 0.0 else 1.0, c.maxDepth as real, c.minSamplesSplit as real, c.minSamplesLeaf as real]
  }

  /** Decoding a position whose components are already in-range integers, with component 0
      in {0, 1}, returns exactly those integers and that criterion. */
  lemma {:induction false} DecodeEncode(c: TreeConfig)
    requires InRange(c)
    ensures Decode(Encode(c)) == c
  {
    RoundOfInteger(if c.criterion == Gini then 0 else 1);
    RoundOfInteger(c.maxDepth);
    RoundOfInteger(c.minSamplesSplit);
    RoundOfInteger(c.minSamplesLeaf);
  }

  /** Decoding is a projection: re-encoding a decoded configuration and decoding again is stable. */
  lemma {:induction false} DecodeCanonical(wolf: seq<real>)
    requires |wolf| >= 4
    ensures Decode(Encode(Decode(wolf))) == Decode(wolf)
  {
    DecodeEncode(Decode(wolf));
  }
}

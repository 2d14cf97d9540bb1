/** Leader selection: `np.argmax` and the reversed `np.argsort` over the fitness list. */
module Ranking {

  /** `np.argmax(s)`: the first index holding the largest value. */
  function ArgMax(s: seq<real>): (k: nat)
    requires |s| > 0
    ensures k < |s|
    ensures forall j :: 0 <= j < |s| ==> s[j] <= s[k]
    ensures forall j :: 0 <= j < k ==> s[j] < s[k]
  {
    if |s| == 1 then 0
    else
      var k := ArgMax(s[..|s| - 1]);
      if s[|s| - 1] > s[k] then |s| - 1 else k
  }

  /** `order` is a possible value of `np.argsort(fs)[::-1]`: a permutation of the indices of `fs`
      along which the values do not increase. NumPy's default sort is not stable, so nothing is
      said about the order of equal values. */
  predicate IsDescendingRanking(order: seq<int>, fs: seq<real>) {
    && |order| == |fs|
    && (forall p :: 0 <= p < |order| ==> 0 <= order[p] < |fs|)
    && (forall p, q :: 0 <= p < q < |order| ==> order[p] != order[q])
    && (forall j :: 0 <= j < |fs| ==> j in order)
    && (forall p, q :: 0 <= p <= q < |order| ==> fs[order[p]] >= fs[order[q]])
  }

  /** How many entries of `fs` are strictly above `v`. */
  function CountAbove(fs: seq<real>, v: real): nat {
    |set j | 0 <= j < |fs| && fs[j] > v|
  }

  /** How many entries of `fs` are at least `v`. */
  function CountAtLeast(fs: seq<real>, v: real): nat {
    |set j | 0 <= j < |fs| && fs[j] >= v|
  }

  /** The `k`-th largest value of `fs`, counted with multiplicity from 0: at most `k` entries exceed
      it and at least `k + 1` reach it. */
  predicate IsKthLargest(fs: seq<real>, k: nat, v: real) {
    CountAbove(fs, v) <= k && CountAtLeast(fs, v) >= k + 1
  }

  lemma {:induction false} PrefixImageSize(order: seq<int>, k: nat)
    requires k <= |order|
    requires forall p, q :: 0 <= p < q < |order| ==> order[p] != order[q]
    ensures |set p | 0 <= p < k :: order[p]| == k
  {
    if k > 0 {
      PrefixImageSize(order, k - 1);
      var before := set p | 0 <= p < k - 1 :: order[p];
      var upTo := set p | 0 <= p < k :: order[p];
      assert upTo == before + {order[k - 1]};
      assert order[k - 1] !in before;
    }
  }

  lemma SubsetSize(a: set<int>, b: set<int>)
    requires a <= b
    ensures |a| <= |b|
  {
    assert b == a + (b - a);
  }

  /** Position `k` of a descending ranking holds the `k`-th largest value. */
  lemma {:induction false} RankedValueIsKthLargest(fs: seq<real>, order: seq<int>, k: nat)
    requires IsDescendingRanking(order, fs) && k < |fs|
    ensures IsKthLargest(fs, k, fs[order[k]])
  {
    var v := fs[order[k]];
    var above := set j | 0 <= j < |fs| && fs[j] > v;
    var before := set p | 0 <= p < k :: order[p];
    forall j | j in above
      ensures j in before
    {
      assert j in order;
      var p :| 0 <= p < |order| && order[p] == j;
      assert p < k;
    }
    PrefixImageSize(order, k);
    SubsetSize(above, before);
    var upTo := set p | 0 <= p < k + 1 :: order[p];
    var reaching := set j | 0 <= j < |fs| && fs[j] >= v;
    PrefixImageSize(order, k + 1);
    SubsetSize(upTo, reaching);
    assert CountAbove(fs, v) == |above| && CountAtLeast(fs, v) == |reaching|;
  }

  /** The `k`-th largest value is unique. */
  lemma KthLargestUnique(fs: seq<real>, k: nat, v: real, w: real)
    requires IsKthLargest(fs, k, v) && IsKthLargest(fs, k, w)
    ensures v == w
  {
    if v < w {
      SubsetSize(set j | 0 <= j < |fs| && fs[j] >= w, set j | 0 <= j < |fs| && fs[j] > v);
      assert false;
    } else if w < v {
      SubsetSize(set j | 0 <= j < |fs| && fs[j] >= v, set j | 0 <= j < |fs| && fs[j] > w);
      assert false;
    }
  }

  /** Whatever tie-break the sort uses, the value at each position of the ranking is the same. */
  lemma {:induction false} RankedValueIndependentOfTieBreak(fs: seq<real>, order1: seq<int>, order2: seq<int>, k: nat)
    requires IsDescendingRanking(order1, fs) && IsDescendingRanking(order2, fs) && k < |fs|
    ensures fs[order1[k]] == fs[order2[k]]
  {
    RankedValueIsKthLargest(fs, order1, k);
    RankedValueIsKthLargest(fs, order2, k);
    KthLargestUnique(fs, k, fs[order1[k]], fs[order2[k]]);
  }

  /** The three leaders: alpha from `argmax`, beta and delta from positions 1 and 2 of the ranking.
      Each holds the wolf's index, a snapshot of its position and its fitness at selection time. */
  datatype Leaders = Leaders(
    alphaIdx: nat, alpha: seq<real>, alphaFitness: real,
    betaIdx: nat, beta: seq<real>, betaFitness: real,
    deltaIdx: nat, delta: seq<real>, deltaFitness: real)

  /** What the indexing `sorted_indices[1]` and `sorted_indices[2]` needs of the ranking. */
  predicate PicksInRange(order: seq<int>, n: nat) {
    |order| >= 3 && 0 <= order[1] < n && 0 <= order[2] < n
  }

  /** Leader selection in `advanced_gwo`, given the ranking `np.argsort(fitness)[::-1]` returned. */
  function SelectLeaders(wolves: seq<seq<real>>, fitness: seq<real>, order: seq<int>): (l: Leaders)
    requires |wolves| == |fitness| >= 3
    requires PicksInRange(order, |fitness|)
    ensures l.alphaIdx < |fitness| && l.alpha == wolves[l.alphaIdx] && l.alphaFitness == fitness[l.alphaIdx]
    ensures l.betaIdx == order[1] && l.beta == wolves[l.betaIdx] && l.betaFitness == fitness[l.betaIdx]
    ensures l.deltaIdx == order[2] && l.delta == wolves[l.deltaIdx] && l.deltaFitness == fitness[l.deltaIdx]
    ensures forall j :: 0 <= j < |fitness| ==> fitness[j] <= l.alphaFitness
    ensures forall j :: 0 <= j < l.alphaIdx ==> fitness[j] < l.alphaFitness
  {
    var alphaIdx := ArgMax(fitness);
    Leaders(alphaIdx, wolves[alphaIdx], fitness[alphaIdx],
            order[1], wolves[order[1]], fitness[order[1]],
            order[2], wolves[order[2]], fitness[order[2]])
  }

  /** Over a descending ranking, beta's fitness is the second largest value of the fitness list
      and delta's the third, counted with multiplicity: a tie at the top makes beta's fitness equal
      alpha's, and beta may then be the same wolf as alpha. Beta and delta are never the same wolf. */
  lemma {:induction false} LeaderFitnessRanks(wolves: seq<seq<real>>, fitness: seq<real>, order: seq<int>)
    requires |wolves| == |fitness| >= 3
    requires IsDescendingRanking(order, fitness)
    ensures var l := SelectLeaders(wolves, fitness, order);
            IsKthLargest(fitness, 0, l.alphaFitness)
            && IsKthLargest(fitness, 1, l.betaFitness)
            && IsKthLargest(fitness, 2, l.deltaFitness)
            && l.alphaFitness >= l.betaFitness >= l.deltaFitness && l.betaIdx != l.deltaIdx
  {
    var l := SelectLeaders(wolves, fitness, order);
    assert l.alphaIdx in order;
    RankedValueIsKthLargest(fitness, order, 0);
    RankedValueIsKthLargest(fitness, order, 1);
    RankedValueIsKthLargest(fitness, order, 2);
  }

  /** The leaders' fitness values, and alpha itself, do not depend on how the sort breaks ties. */
  lemma {:induction false} LeaderFitnessIndependentOfTieBreak(wolves: seq<seq<real>>, fitness: seq<real>,
                                                            order1: seq<int>, order2: seq<int>)
    requires |wolves| == |fitness| >= 3
    requires IsDescendingRanking(order1, fitness) && IsDescendingRanking(order2, fitness)
    ensures var l1, l2 := SelectLeaders(wolves, fitness, order1), SelectLeaders(wolves, fitness, order2);
            l1.alphaIdx == l2.alphaIdx && l1.alpha == l2.alpha && l1.alphaFitness == l2.alphaFitness
            && l1.betaFitness == l2.betaFitness && l1.deltaFitness == l2.deltaFitness
  {
    RankedValueIndependentOfTieBreak(fitness, order1, order2, 1);
    RankedValueIndependentOfTieBreak(fitness, order1, order2, 2);
  }

  /** A fitness list with a tie at the top, `[0.5, 0.9, 0.7, 0.9, 0.3]`: whichever descending ranking
      the sort returns, alpha is the first 0.9 (index 1), beta's fitness is 0.9 and delta's 0.7. */
  lemma {:induction false} TiedTopSelection(wolves: seq<seq<real>>, order: seq<int>)
    requires |wolves| == 5
    requires IsDescendingRanking(order, [0.5, 0.9, 0.7, 0.9, 0.3])
    ensures var l := SelectLeaders(wolves, [0.5, 0.9, 0.7, 0.9, 0.3], order);
            l.alphaIdx == 1 && l.betaFitness == 0.9 && l.deltaFitness == 0.7
  {
    var fs := [0.5, 0.9, 0.7, 0.9, 0.3];
    assert 1 in order && 2 in order && 3 in order;
    var p1 :| 0 <= p1 < 5 && order[p1] == 1;
    var p2 :| 0 <= p2 < 5 && order[p2] == 2;
    var p3 :| 0 <= p3 < 5 && order[p3] == 3;
    var q := if p1 != 0 then p1 else p3;
    assert fs[order[1]] >= fs[order[q]] == 0.9;
    var q2 := if p1 >= 2 then p1 else if p3 >= 2 then p3 else p2;
    assert fs[order[2]] >= fs[order[q2]] >= 0.7;
    assert fs[order[0]] >= fs[order[1]];
  }

  /** The ranking a stable sort gives for that list, reversed, is `[3, 1, 2, 0, 4]`: its position 1
      is index 1, so beta is then the very wolf that is alpha. */
  lemma BetaMayBeAlpha(wolves: seq<seq<real>>)
    requires |wolves| == 5
    ensures IsDescendingRanking([3, 1, 2, 0, 4], [0.5, 0.9, 0.7, 0.9, 0.3])
    ensures var l := SelectLeaders(wolves, [0.5, 0.9, 0.7, 0.9, 0.3], [3, 1, 2, 0, 4]);
            l.betaIdx == l.alphaIdx == 1 && l.beta == l.alpha
  {
  }
}

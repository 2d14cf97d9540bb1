/** The optimization driver: `fitness_function` and `advanced_gwo` with its `fitness_history`. */
module Driver {
  import opened Numeric
  import opened Codec
  import opened Population
  import opened Update
  import opened Ranking

  /** The search space `advanced_gwo` fixes: criterion, max_depth, min_samples_split, min_samples_leaf. */
  const Dim: nat := 4
  const Bounds: seq<Bound> := [Bound(0.0, 1.0), Bound(2.0, 10.0), Bound(2.0, 10.0), Bound(1.0, 10.0)]

  lemma BoundsValid()
    ensures |Bounds| == Dim && ValidBounds(Bounds)
  {
  }

  /** `fitness_function(wolf, X, y)`: the mean cross-validated accuracy of the tree the wolf decodes to.
      `score` stands for building the tree (fixed seed) and running the cross-validation on the fixed
      training data, so it is a function of the decoded configuration alone. */
  function Fitness(score: TreeConfig -> real, wolf: seq<real>): real
    requires |wolf| >= 4
  {
    score(Decode(wolf))
  }

  /** Two positions that decode to the same configuration get the same fitness. */
  lemma FitnessSeesOnlyConfig(score: TreeConfig -> real, w1: seq<real>, w2: seq<real>)
    requires |w1| >= 4 && |w2| >= 4 && Decode(w1) == Decode(w2)
    ensures Fitness(score, w1) == Fitness(score, w2)
  {
  }

  predicate Positions(wolves: seq<seq<real>>) {
    forall i :: 0 <= i < |wolves| ==> |wolves[i]| == Dim
  }

  /** `[fitness_function(w, X, y) for w in wolves]`, a helper of `Initial` and `Step`. */
  function Evaluate(score: TreeConfig -> real, wolves: seq<seq<real>>): seq<real>
    requires Positions(wolves)
  {
    seq(|wolves|, i requires 0 <= i < |wolves| => Fitness(score, wolves[i]))
  }

  /** `rank` stands for `np.argsort(fitness)[::-1]`; all that is known of it is that it returns a
      descending ranking. */
  ghost predicate RanksDescending(rank: seq<real> -> seq<int>) {
    forall fs {:trigger rank(fs)} :: IsDescendingRanking(rank(fs), fs)
  }

  /** All that the leader selection itself needs of `rank`: positions 1 and 2 exist and are indices. */
  ghost predicate RanksPickable(rank: seq<real> -> seq<int>) {
    forall fs {:trigger rank(fs)} :: |fs| >= 3 ==> PicksInRange(rank(fs), |fs|)
  }

  lemma DescendingRanksArePickable(rank: seq<real> -> seq<int>)
    requires RanksDescending(rank)
    ensures RanksPickable(rank)
  {
  }

  /** What `advanced_gwo` holds between iterations: the positions, the fitness list and the leaders. */
  datatype State = State(wolves: seq<seq<real>>, fitness: seq<real>, leaders: Leaders)

  predicate WellFormed(s: State) {
    && |s.wolves| == |s.fitness| >= 3
    && Positions(s.wolves)
    && |s.leaders.alpha| == Dim && |s.leaders.beta| == Dim && |s.leaders.delta| == Dim
  }

  /** The state after the initial evaluation and leader selection. */
  function Initial(score: TreeConfig -> real, rank: seq<real> -> seq<int>, pop: seq<seq<real>>): (s: State)
    requires |pop| >= 3 && Positions(pop) && RanksPickable(rank)
    ensures WellFormed(s) && s.wolves == pop
  {
    var fit := Evaluate(score, pop);
    State(pop, fit, SelectLeaders(pop, fit, rank(fit)))
  }

  /** `a = 2 - iteration*(2/max_iter)`, the exploration coefficient of one iteration. */
  function Coefficient(iteration: nat, maxIter: nat): (a: real)
    requires iteration < maxIter
    ensures 0.0 < a <= 2.0
  {
    var step := 2.0 / maxIter as real;
    assert (iteration as real) * step < (maxIter as real) * step;
    2.0 - (iteration as real) * step
  }

  /** The coefficient starts at 2 and strictly decreases from one iteration to the next. */
  lemma CoefficientDecreases(s: nat, t: nat, maxIter: nat)
    requires s < t < maxIter
    ensures Coefficient(0, maxIter) == 2.0
    ensures Coefficient(t, maxIter) < Coefficient(s, maxIter)
  {
    var step := 2.0 / maxIter as real;
    assert (s as real) * step < (t as real) * step;
  }

  /** The draws of a whole run: for each iteration, for each wolf, one `Draws` per dimension. */
  predicate IterDrawsShape(draws: seq<seq<seq<Draws>>>, maxIter: nat, popSize: nat) {
    && |draws| == maxIter
    && forall t :: 0 <= t < maxIter ==>
         |draws[t]| == popSize && forall i :: 0 <= i < popSize ==> |draws[t][i]| == Dim
  }

  /** The inner loop's positions: every wolf moved against the same leader snapshot. */
  function MoveSwarm(wolves: seq<seq<real>>, l: Leaders, a: real, draws: seq<seq<Draws>>): seq<seq<real>>
    requires Positions(wolves) && |draws| == |wolves|
    requires forall i :: 0 <= i < |draws| ==> |draws[i]| == Dim
    requires |l.alpha| == Dim && |l.beta| == Dim && |l.delta| == Dim
  {
    seq(|wolves|, i requires 0 <= i < |wolves| =>
      UpdatedPosition(wolves[i], l.alpha, l.beta, l.delta, a, Dim, Bounds, draws[i]))
  }

  /** One iteration of `advanced_gwo`: move and rescore every wolf, then select new leaders. */
  function Step(score: TreeConfig -> real, rank: seq<real> -> seq<int>, s: State, a: real, draws: seq<seq<Draws>>): (s': State)
    requires WellFormed(s) && RanksPickable(rank)
    requires |draws| == |s.wolves| && forall i :: 0 <= i < |draws| ==> |draws[i]| == Dim
    ensures WellFormed(s') && |s'.wolves| == |s.wolves|
  {
    var moved := MoveSwarm(s.wolves, s.leaders, a, draws);
    var fit := Evaluate(score, moved);
    State(moved, fit, SelectLeaders(moved, fit, rank(fit)))
  }

  /** Everything that fixes one run of `advanced_gwo`: the fitness function, the ranking `np.argsort`
      returns, the initial population, `max_iter`, and the draws of every iteration. */
  datatype Inputs = Inputs(score: TreeConfig -> real, rank: seq<real> -> seq<int>,
                           pop: seq<seq<real>>, maxIter: nat, draws: seq<seq<seq<Draws>>>)

  ghost predicate ValidInputs(r: Inputs) {
    && |r.pop| >= 3 && Positions(r.pop) && RanksPickable(r.rank)
    && IterDrawsShape(r.draws, r.maxIter, |r.pop|)
  }

  /** The state after `k` of the `maxIter` iterations. */
  function After(r: Inputs, k: nat): (s: State)
    requires ValidInputs(r) && k <= r.maxIter
    ensures WellFormed(s) && |s.wolves| == |r.pop|
    decreases k
  {
    if k == 0 then Initial(r.score, r.rank, r.pop)
    else Step(r.score, r.rank, After(r, k - 1), Coefficient(k - 1, r.maxIter), r.draws[k - 1])
  }

  /** The entries the first `k` iterations append to `fitness_history`. */
  function AlphaHistory(r: Inputs, k: nat): (h: seq<real>)
    requires ValidInputs(r) && k <= r.maxIter
    ensures |h| == k
    decreases k
  {
    if k == 0 then [] else AlphaHistory(r, k - 1) + [After(r, k).leaders.alphaFitness]
  }

  lemma AppendOne(a: seq<real>, b: seq<real>, x: real)
    ensures a + (b + [x]) == (a + b) + [x]
  {
  }

  /** The history after `k` iterations is the first `k` entries of the history after any later
      number of iterations: entries are only ever appended. */
  lemma HistoryPrefix(r: Inputs, k: nat, m: nat)
    requires ValidInputs(r) && k <= m <= r.maxIter
    ensures AlphaHistory(r, m)[..k] == AlphaHistory(r, k)
    ensures forall j :: 0 <= j < k ==> AlphaHistory(r, m)[j] == AlphaHistory(r, k)[j]
  {
    HistoriesChain(r);
    ExtensionsArePrefixes(Histories(r), k, m);
  }

  /** The histories after 0, 1, ..., `maxIter` iterations. */
  function Histories(r: Inputs): (hs: seq<seq<real>>)
    requires ValidInputs(r)
  {
    seq(r.maxIter + 1, n requires 0 <= n <= r.maxIter => AlphaHistory(r, n))
  }

  lemma HistoriesChain(r: Inputs)
    requires ValidInputs(r)
    ensures var hs := Histories(r);
            && |hs| == r.maxIter + 1 && |hs[0]| == 0
            && forall n :: 0 < n < |hs| ==> |hs[n]| == n && hs[n][..n - 1] == hs[n - 1]
  {
    var hs := Histories(r);
    forall n | 0 < n < |hs|
      ensures |hs[n]| == n && hs[n][..n - 1] == hs[n - 1]
    {
      HistoryExtends(r, n);
    }
  }

  /** One iteration keeps the history so far as the prefix of the new one. */
  lemma HistoryExtends(r: Inputs, m: nat)
    requires ValidInputs(r) && 0 < m <= r.maxIter
    ensures AlphaHistory(r, m)[..m - 1] == AlphaHistory(r, m - 1)
  {
    var earlier := AlphaHistory(r, m - 1);
    assert AlphaHistory(r, m) == earlier + [After(r, m).leaders.alphaFitness];
  }

  /** In a chain of sequences each of which extends the one before by one entry, every sequence is
      a prefix of every later one. */
  lemma {:induction false} ExtensionsArePrefixes(hs: seq<seq<real>>, k: nat, m: nat)
    requires k <= m < |hs|
    requires forall n :: 0 < n < |hs| ==> |hs[n]| == n && hs[n][..n - 1] == hs[n - 1]
    requires |hs[0]| == 0
    ensures hs[m][..k] == hs[k]
    ensures forall j :: 0 <= j < k ==> hs[m][j] == hs[k][j]
    decreases m
  {
    if m == k {
      assert hs[m][..k] == hs[m];
    } else {
      ExtensionsArePrefixes(hs, k, m - 1);
      assert hs[m][..k] == hs[m][..m - 1][..k];
    }
    forall j | 0 <= j < k
      ensures hs[m][j] == hs[k][j]
    {
      assert hs[m][..k][j] == hs[m][j];
    }
  }

  /** In every state, the fitness list is aligned with the positions and holds their scores, and
      the leaders are a selection over that state's swarm. */
  lemma StateConsistent(r: Inputs, k: nat)
    requires ValidInputs(r) && k <= r.maxIter
    ensures var s := After(r, k);
            && |s.wolves| == |s.fitness| == |r.pop|
            && (forall i :: 0 <= i < |r.pop| ==> s.fitness[i] == Fitness(r.score, s.wolves[i]))
            && s.leaders == SelectLeaders(s.wolves, s.fitness, r.rank(s.fitness))
  {
  }

  /** In every state, alpha is a wolf of the swarm, and its fitness is the largest of the fitness list. */
  lemma AlphaIsMaximum(r: Inputs, k: nat)
    requires ValidInputs(r) && k <= r.maxIter
    ensures var s := After(r, k);
            && s.leaders.alphaIdx < |s.wolves| && s.leaders.alpha == s.wolves[s.leaders.alphaIdx]
            && s.fitness[s.leaders.alphaIdx] == s.leaders.alphaFitness
            && forall i :: 0 <= i < |s.fitness| ==> s.fitness[i] <= s.leaders.alphaFitness
  {
    StateConsistent(r, k);
  }

  /** The entry iteration `k` appends to the history is the largest fitness of the population
      after that iteration, and it is alpha's own fitness. */
  lemma HistoryIsPopulationMaximum(r: Inputs, k: nat)
    requires ValidInputs(r) && 0 < k <= r.maxIter
    ensures var h := AlphaHistory(r, k);
            var s := After(r, k);
            && |h| == k
            && (forall i :: 0 <= i < |s.fitness| ==> s.fitness[i] <= h[k - 1])
            && s.fitness[s.leaders.alphaIdx] == h[k - 1]
            && s.leaders.alpha == s.wolves[s.leaders.alphaIdx]
  {
    var earlier := AlphaHistory(r, k - 1);
    var last := After(r, k).leaders.alphaFitness;
    assert AlphaHistory(r, k) == earlier + [last];
    assert (earlier + [last])[k - 1] == last;
    AlphaIsMaximum(r, k);
  }

  /** Every entry of the final history is the largest fitness of the population after the
      iteration that appended it: entry `k - 1` after iteration `k`, and it is the fitness of that
      state's alpha, a wolf of the swarm. */
  lemma EveryEntryIsMaximum(r: Inputs, k: nat)
    requires ValidInputs(r) && 0 < k <= r.maxIter
    ensures var h := AlphaHistory(r, r.maxIter);
            var s := After(r, k);
            && |h| == r.maxIter
            && (forall i :: 0 <= i < |s.fitness| ==> s.fitness[i] <= h[k - 1])
            && s.fitness[s.leaders.alphaIdx] == h[k - 1]
            && s.leaders.alpha == s.wolves[s.leaders.alphaIdx]
  {
    HistoryPrefix(r, k, r.maxIter);
    HistoryIsPopulationMaximum(r, k);
  }

  /** In every state, two wolves that decode to the same tree configuration hold the same fitness. */
  lemma SameConfigSameFitness(r: Inputs, k: nat, i: nat, j: nat)
    requires ValidInputs(r) && k <= r.maxIter && i < |r.pop| && j < |r.pop|
    requires Decode(After(r, k).wolves[i]) == Decode(After(r, k).wolves[j])
    ensures After(r, k).fitness[i] == After(r, k).fitness[j]
  {
    StateConsistent(r, k);
    FitnessSeesOnlyConfig(r.score, After(r, k).wolves[i], After(r, k).wolves[j]);
  }

  /** When `rank` is a genuine descending ranking, the leaders of every state hold the three largest
      fitness values of that state's swarm, counted with multiplicity, and beta and delta are two
      different wolves. */
  lemma LeadersAreTopThree(r: Inputs, k: nat)
    requires ValidInputs(r) && RanksDescending(r.rank) && k <= r.maxIter
    ensures var s := After(r, k);
            && IsKthLargest(s.fitness, 0, s.leaders.alphaFitness)
            && IsKthLargest(s.fitness, 1, s.leaders.betaFitness)
            && IsKthLargest(s.fitness, 2, s.leaders.deltaFitness)
            && s.leaders.betaIdx != s.leaders.deltaIdx
  {
    var s := After(r, k);
    StateConsistent(r, k);
    LeaderFitnessRanks(s.wolves, s.fitness, r.rank(s.fitness));
  }

  /** Starting from `initialize_population` with genuine `random.random()` draws, every wolf of
      every state lies inside `Bounds`; after the first iteration this holds whatever the draws. */
  lemma {:induction false} RunStaysInBounds(r: Inputs, initDraws: seq<seq<real>>, k: nat)
    requires ValidInputs(r) && DrawsShape(initDraws, |r.pop|, Dim)
    requires r.pop == InitialPopulation(|r.pop|, Dim, Bounds, initDraws)
    requires k <= r.maxIter && (k == 0 ==> UnitDraws(initDraws))
    ensures forall i :: 0 <= i < |r.pop| ==> WithinBounds(After(r, k).wolves[i], Dim, Bounds)
  {
    BoundsValid();
  }

  /** The inner loop of one iteration, `for i in range(pop_size)`: every slot of `wolves` is
      overwritten with the moved wolf and the matching slot of `fitness` with its score, all
      against the same leader snapshot `l`. */
  method MoveAndScore(score: TreeConfig -> real, wolves: array<seq<real>>, fitness: array<real>,
                      l: Leaders, a: real, draws: seq<seq<Draws>>)
    requires wolves.Length == fitness.Length == |draws|
    requires Positions(wolves[..]) && forall i :: 0 <= i < |draws| ==> |draws[i]| == Dim
    requires |l.alpha| == Dim && |l.beta| == Dim && |l.delta| == Dim
    modifies wolves, fitness
    ensures wolves[..] == MoveSwarm(old(wolves[..]), l, a, draws)
    ensures fitness[..] == Evaluate(score, wolves[..])
  {
    ghost var start := wolves[..];
    ghost var moved := MoveSwarm(start, l, a, draws);
    for i := 0 to wolves.Length
      invariant forall j :: 0 <= j < i ==> wolves[j] == moved[j] && fitness[j] == Fitness(score, moved[j])
      invariant forall j :: i <= j < wolves.Length ==> wolves[j] == start[j]
    {
      var newWolf := UpdatePosition(wolves[i], l.alpha, l.beta, l.delta, a, Dim, Bounds, draws[i]);
      wolves[i] := newWolf;
      fitness[i] := Fitness(score, newWolf);
    }
    assert wolves[..] == moved;
  }

  /** The set-up of `advanced_gwo` on a given population: the arrays of positions and scores,
      and the first leader selection. */
  method Start(score: TreeConfig -> real, rank: seq<real> -> seq<int>, population: seq<seq<real>>)
    returns (wolves: array<seq<real>>, fitness: array<real>, leaders: Leaders)
    requires |population| >= 3 && Positions(population) && RanksPickable(rank)
    ensures fresh(wolves) && fresh(fitness)
    ensures State(wolves[..], fitness[..], leaders) == Initial(score, rank, population)
  {
    wolves := new seq<real>[|population|](i requires 0 <= i < |population| => population[i]);
    fitness := new real[|population|](i requires 0 <= i < |population| => Fitness(score, population[i]));
    assert wolves[..] == population;
    assert fitness[..] == Evaluate(score, population);
    leaders := SelectLeaders(wolves[..], fitness[..], rank(fitness[..]));
  }

  /** One iteration of the main loop on the arrays: move and rescore every wolf, then select the
      new leaders from the rescored swarm. */
  method Advance(score: TreeConfig -> real, rank: seq<real> -> seq<int>, wolves: array<seq<real>>,
                 fitness: array<real>, leaders: Leaders, a: real, draws: seq<seq<Draws>>)
    returns (next: Leaders)
    requires WellFormed(State(wolves[..], fitness[..], leaders)) && RanksPickable(rank)
    requires |draws| == wolves.Length && forall i :: 0 <= i < |draws| ==> |draws[i]| == Dim
    modifies wolves, fitness
    ensures State(wolves[..], fitness[..], next)
            == Step(score, rank, old(State(wolves[..], fitness[..], leaders)), a, draws)
  {
    MoveAndScore(score, wolves, fitness, leaders, a, draws);
    next := SelectLeaders(wolves[..], fitness[..], rank(fitness[..]));
  }

  /** The module-level state of the program: `fitness_history`. */
  class Optimizer {
    var history: seq<real>

    /** `fitness_history = []`. */
    constructor ()
      ensures history == []
    {
      history := [];
    }

    /** `fitness_history.clear()`, which the caller does before every run. */
    method ClearHistory()
      modifies this
      ensures history == []
    {
      history := [];
    }

    /** `advanced_gwo(X, y, pop_size, max_iter)`. The scorer of a tree configuration, the ranking
        that `np.argsort` returns and every random draw are parameters. Returns `alpha_wolf` and its
        fitness after the last iteration (the initial alpha when `max_iter` is 0), and leaves
        `history` extended by one entry per iteration; clearing it first is the caller's step
        (`ClearHistory`). */
    method Run(score: TreeConfig -> real, rank: seq<real> -> seq<int>, popSize: nat, maxIter: nat,
               initDraws: seq<seq<real>>, iterDraws: seq<seq<seq<Draws>>>)
      returns (alpha: seq<real>, alphaFitness: real)
      requires popSize >= 3 && RanksPickable(rank)
      requires DrawsShape(initDraws, popSize, Dim) && IterDrawsShape(iterDraws, maxIter, popSize)
      modifies this
      ensures var r := Inputs(score, rank, InitialPopulation(popSize, Dim, Bounds, initDraws), maxIter, iterDraws);
              && alpha == After(r, maxIter).leaders.alpha && alphaFitness == After(r, maxIter).leaders.alphaFitness
              && history == old(history) + AlphaHistory(r, maxIter)
      ensures |history| == |old(history)| + maxIter
      ensures maxIter == 0 ==>
                && history == old(history)
                && alpha == Initial(score, rank, InitialPopulation(popSize, Dim, Bounds, initDraws)).leaders.alpha
    {
      var population := InitializePopulation(popSize, Dim, Bounds, initDraws);
      var r := Inputs(score, rank, population, maxIter, iterDraws);
      var wolves, fitness, leaders := Start(score, rank, population);
      leaders := MainLoop(r, wolves, fitness, leaders);
      alpha, alphaFitness := leaders.alpha, leaders.alphaFitness;
    }

    /** `for iteration in range(max_iter)`: the arrays move from the initial state through every
        iteration, and `history` gains alpha's fitness after each one. */
    method MainLoop(r: Inputs, wolves: array<seq<real>>, fitness: array<real>, leaders: Leaders)
      returns (final: Leaders)
      requires ValidInputs(r)
      requires State(wolves[..], fitness[..], leaders) == After(r, 0)
      modifies this, wolves, fitness
      ensures State(wolves[..], fitness[..], final) == After(r, r.maxIter)
      ensures history == old(history) + AlphaHistory(r, r.maxIter)
    {
      final := leaders;
      ghost var h0 := history;
      for iteration := 0 to r.maxIter
        invariant State(wolves[..], fitness[..], final) == After(r, iteration)
        invariant history == h0 + AlphaHistory(r, iteration)
      {
        final := Iteration(r, iteration, wolves, fitness, final, h0);
      }
    }

    /** The body of the main loop: the coefficient `a`, the in-place move and rescore of every
        wolf against the leaders selected before the iteration began, the new leaders, and
        `fitness_history.append(alpha_fitness)`. */
    method Iteration(r: Inputs, k: nat, wolves: array<seq<real>>, fitness: array<real>, leaders: Leaders, ghost h0: seq<real>)
      returns (next: Leaders)
      requires ValidInputs(r) && k < r.maxIter
      requires State(wolves[..], fitness[..], leaders) == After(r, k) && history == h0 + AlphaHistory(r, k)
      modifies this, wolves, fitness
      ensures State(wolves[..], fitness[..], next) == After(r, k + 1) && history == h0 + AlphaHistory(r, k + 1)
    {
      var a := Coefficient(k, r.maxIter);
      next := Advance(r.score, r.rank, wolves, fitness, leaders, a, r.draws[k]);
      AppendOne(h0, AlphaHistory(r, k), next.alphaFitness);
      history := history + [next.alphaFitness];
    }
  }
}

/** The population manager: `initialize_population`. */
module Population {
  import opened Numeric

  /** The draws one call consumes: for every wolf, one `random.random()` value per dimension. */
  predicate DrawsShape(draws: seq<seq<real>>, popSize: nat, dim: nat) {
    |draws| == popSize && forall k :: 0 <= k < |draws| ==> |draws[k]| == dim
  }

  /** Every draw is a value `random.random()` can return. */
  predicate UnitDraws(draws: seq<seq<real>>) {
    forall k, i :: 0 <= k < |draws| && 0 <= i < |draws[k]| ==> 0.0 <= draws[k][i] < 1.0
  }

  predicate ValidBounds(bounds: seq<Bound>) {
    forall i :: 0 <= i < |bounds| ==> bounds[i].lo <= bounds[i].hi
  }

  /** Component `i` of a position lies in `bounds[i]`, for every `i < dim`. */
  predicate WithinBounds(wolf: seq<real>, dim: nat, bounds: seq<Bound>)
    requires dim <= |wolf| && dim <= |bounds|
  {
    forall i :: 0 <= i < dim ==> InBound(wolf[i], bounds[i])
  }

  /** One new wolf: `np.array([random.uniform(bounds[i][0], bounds[i][1]) for i in range(dim)])`. */
  function RandomWolf(dim: nat, bounds: seq<Bound>, u: seq<real>): (w: seq<real>)
    requires dim <= |bounds| && dim <= |u|
  {
    seq(dim, i requires 0 <= i < dim => Uniform(bounds[i].lo, bounds[i].hi, u[i]))
  }

  /** The population `initialize_population` builds from the given draws. */
  function InitialPopulation(popSize: nat, dim: nat, bounds: seq<Bound>, draws: seq<seq<real>>): (pop: seq<seq<real>>)
    requires dim <= |bounds| && DrawsShape(draws, popSize, dim)
    ensures |pop| == popSize
    ensures forall k :: 0 <= k < popSize ==> |pop[k]| == dim
    ensures ValidBounds(bounds) && UnitDraws(draws) ==>
              forall k :: 0 <= k < popSize ==> WithinBounds(pop[k], dim, bounds)
  {
    seq(popSize, k requires 0 <= k < popSize => RandomWolf(dim, bounds, draws[k]))
  }

  /** `initialize_population(pop_size, dim, bounds)`: appends `pop_size` fresh wolves to an empty list. */
  method InitializePopulation(popSize: nat, dim: nat, bounds: seq<Bound>, draws: seq<seq<real>>)
    returns (population: seq<seq<real>>)
    requires dim <= |bounds| && DrawsShape(draws, popSize, dim)
    ensures population == InitialPopulation(popSize, dim, bounds, draws)
  {
    population := [];
    for k := 0 to popSize
      invariant |population| == k
      invariant forall j :: 0 <= j < k ==> population[j] == RandomWolf(dim, bounds, draws[j])
    {
      var wolf := RandomWolf(dim, bounds, draws[k]);
      population := population + [wolf];
    }
  }
}

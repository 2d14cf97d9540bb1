/** The update engine: `update_position`, the Grey Wolf move rule. */
module Update {
  import opened Numeric

  /** The six `random.random()` values one dimension consumes, in the order they are drawn:
      `r1`, `r2` for the pull toward alpha, then beta, then delta. */
  datatype Draws = Draws(r1Alpha: real, r2Alpha: real, r1Beta: real, r2Beta: real, r1Delta: real, r2Delta: real)

  /** The pull of one leader coordinate `l` on the wolf coordinate `w`:
      `A = 2*a*r1 - a`, `C = 2*r2`, `X = l - A*|C*l - w|`. */
  function Pull(l: real, w: real, a: real, r1: real, r2: real): real {
    var coeffA := 2.0 * a * r1 - a;
    var coeffC := 2.0 * r2;
    l - coeffA * Abs(coeffC * l - w)
  }

  /** With `a = 0` both coefficients `A` vanish and the pull lands on the leader itself. */
  lemma PullWithoutExploration(l: real, w: real, r1: real, r2: real)
    ensures Pull(l, w, 0.0, r1, r2) == l
  {
  }

  /** One component of the new position: the mean of the three pulls, clipped into `b`. */
  function MovedComponent(w: real, alpha: real, beta: real, delta: real, a: real, b: Bound, d: Draws): real {
    var x1 := Pull(alpha, w, a, d.r1Alpha, d.r2Alpha);
    var x2 := Pull(beta, w, a, d.r1Beta, d.r2Beta);
    var x3 := Pull(delta, w, a, d.r1Delta, d.r2Delta);
    Clip((x1 + x2 + x3) / 3.0, b.lo, b.hi)
  }

  /** The argument shapes `update_position` indexes without error: the first `dim` components. */
  predicate UpdateArgs(wolf: seq<real>, alpha: seq<real>, beta: seq<real>, delta: seq<real>, dim: nat,
                       bounds: seq<Bound>, draws: seq<Draws>) {
    dim <= |wolf| && dim <= |alpha| && dim <= |beta| && dim <= |delta| && dim <= |bounds| && dim <= |draws|
  }

  /** The position `update_position` returns: a copy of `wolf` whose first `dim` components are
      moved; it lies in the bounds whatever the wolf, the leaders, `a` and the draws are. */
  function UpdatedPosition(wolf: seq<real>, alpha: seq<real>, beta: seq<real>, delta: seq<real>, a: real,
                           dim: nat, bounds: seq<Bound>, draws: seq<Draws>): (r: seq<real>)
    requires UpdateArgs(wolf, alpha, beta, delta, dim, bounds, draws)
    ensures |r| == |wolf|
    ensures forall i :: 0 <= i < dim ==> r[i] <= bounds[i].hi
    ensures forall i :: 0 <= i < dim && bounds[i].lo <= bounds[i].hi ==> bounds[i].lo <= r[i]
    ensures forall i :: dim <= i < |wolf| ==> r[i] == wolf[i]
  {
    seq(|wolf|, i requires 0 <= i < |wolf| =>
      if i < dim then MovedComponent(wolf[i], alpha[i], beta[i], delta[i], a, bounds[i], draws[i]) else wolf[i])
  }

  /** At `a = 0` the new position is the clipped centroid of the three leaders, independent of
      the wolf itself and of the random draws. */
  lemma {:induction false} UpdateWithoutExploration(wolf: seq<real>, alpha: seq<real>, beta: seq<real>, delta: seq<real>,
                                                  dim: nat, bounds: seq<Bound>, draws: seq<Draws>, i: nat)
    requires UpdateArgs(wolf, alpha, beta, delta, dim, bounds, draws) && i < dim
    ensures UpdatedPosition(wolf, alpha, beta, delta, 0.0, dim, bounds, draws)[i]
            == Clip((alpha[i] + beta[i] + delta[i]) / 3.0, bounds[i].lo, bounds[i].hi)
  {
    var d := draws[i];
    PullWithoutExploration(alpha[i], wolf[i], d.r1Alpha, d.r2Alpha);
    PullWithoutExploration(beta[i], wolf[i], d.r1Beta, d.r2Beta);
    PullWithoutExploration(delta[i], wolf[i], d.r1Delta, d.r2Delta);
  }

  /** `update_position(wolf, alpha, beta, delta, a, dim, bounds)`: copies the wolf into a fresh
      buffer and overwrites its first `dim` entries one by one; the caller's wolf is a value and
      stays as it was. */
  method UpdatePosition(wolf: seq<real>, alpha: seq<real>, beta: seq<real>, delta: seq<real>, a: real,
                        dim: nat, bounds: seq<Bound>, draws: seq<Draws>) returns (newWolf: seq<real>)
    requires UpdateArgs(wolf, alpha, beta, delta, dim, bounds, draws)
    ensures newWolf == UpdatedPosition(wolf, alpha, beta, delta, a, dim, bounds, draws)
  {
    var buffer := new real[|wolf|](j requires 0 <= j < |wolf| => wolf[j]);
    for i := 0 to dim
      invariant forall j :: 0 <= j < i ==>
                  buffer[j] == MovedComponent(wolf[j], alpha[j], beta[j], delta[j], a, bounds[j], draws[j])
      invariant forall j :: i <= j < |wolf| ==> buffer[j] == wolf[j]
    {
      var d := draws[i];
      var x1 := Pull(alpha[i], wolf[i], a, d.r1Alpha, d.r2Alpha);
      var x2 := Pull(beta[i], wolf[i], a, d.r1Beta, d.r2Beta);
      var x3 := Pull(delta[i], wolf[i], a, d.r1Delta, d.r2Delta);
      buffer[i] := (x1 + x2 + x3) / 3.0;
      buffer[i] := Clip(buffer[i], bounds[i].lo, bounds[i].hi);
    }
    newWolf := buffer[..];
  }
}

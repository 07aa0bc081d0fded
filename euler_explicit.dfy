/**
 * Explicit Euler (EulerExplicitIterator): one stage evaluated where the
 * entry already stands, weighted by the whole step.
 */
module EulerExplicitIterator {
  import opened Integration

  /** method_order */
  function MethodOrder(): (n: nat)
    ensures n == 1
  {
    1
  }

  /**
   * What calculate_delta(variable, rhs, t, dt) does to the entry: the
   * derivative is taken once, at (t, current), and dt times it is added to
   * delta.  previous and current are untouched.
   */
  function Advanced(f: (real, real) -> real, s: ScalarState, t: real, dt: real): (r: ScalarState)
    ensures r.delta == s.delta + dt * f(t, s.current)
    ensures r.previous == s.previous && r.current == s.current
    ensures r.rhs == f(t, s.current)
  {
    RhsAdded(Evaluated(s, f, t), dt)
  }

  /** The requests calculate_delta makes of the right-hand side, in order. */
  function Calls(t: real): seq<RhsCall> {
    [PreIteration(t), PreSubIteration(t), RhsEvaluated(t)]
  }

  method CalculateDelta(v: VariableScalar, rhs: RhsScalar, t: real, dt: real)
    requires rhs.scalar == v
    modifies v, rhs
    ensures v.State() == Advanced(rhs.f, old(v.State()), t, dt)
    ensures rhs.calls == old(rhs.calls) + Calls(t)
  {
    rhs.PreIterationJob(t);
    rhs.PreSubIterationJob(t);
    rhs.CalculateRhs(t);
    v.AddRhsToDelta(dt);
  }

  /**
   * From a cleared entry, one Euler delta followed by step gives the
   * textbook update previous + dt * f(t, previous).
   */
  lemma StepFromCleared(f: (real, real) -> real, s: ScalarState, t: real, dt: real)
    ensures Stepped(Advanced(f, Cleared(s), t, dt)).previous == s.previous + dt * f(t, s.previous)
    ensures IsCleared(Stepped(Advanced(f, Cleared(s), t, dt)))
  {
  }

  /** A zero step leaves delta where it was. */
  lemma ZeroStepKeepsDelta(f: (real, real) -> real, s: ScalarState, t: real)
    ensures Advanced(f, s, t, 0.0).delta == s.delta
  {
  }
}

/**
 * Classical four-stage Runge-Kutta (RungeKuttaIterator).  Each stage after
 * the first positions current at previous + offset * (latest slope), asks
 * for the derivative there and adds it, weighted, to delta.
 */
module RungeKuttaIterator {
  import opened Integration

  /** method_order */
  function MethodOrder(): (n: nat)
    ensures n == 4
  {
    4
  }

  /**
   * One stage that is not the first: make_sub_iteration(offset),
   * calculate_rhs(time), add_rhs_to_delta(weight).
   */
  function Stage(f: (real, real) -> real, s: ScalarState, offset: real, time: real, weight: real): (r: ScalarState)
    ensures r.current == Positioned(s.previous, s.rhs, offset)
    ensures r.rhs == f(time, Positioned(s.previous, s.rhs, offset))
    ensures r.delta == s.delta + r.rhs * weight && r.previous == s.previous
  {
    RhsAdded(Evaluated(SubIterated(s, offset), f, time), weight)
  }

  /** What calculate_delta(variable, rhs, t, dt) does to the entry, stage by stage. */
  function Advanced(f: (real, real) -> real, s: ScalarState, t: real, dt: real): ScalarState {
    var s1 := RhsAdded(Evaluated(s, f, t), dt / 6.0);
    var s2 := Stage(f, s1, dt / 2.0, t + dt / 2.0, dt / 3.0);
    var s3 := Stage(f, s2, dt / 2.0, t + dt / 2.0, dt / 3.0);
    Stage(f, s3, dt, t + dt, dt / 6.0)
  }

  /** The requests calculate_delta makes of the right-hand side, in order. */
  function Calls(t: real, dt: real): seq<RhsCall> {
    [PreIteration(t),
     PreSubIteration(t), RhsEvaluated(t),
     PreSubIteration(t + dt / 2.0), RhsEvaluated(t + dt / 2.0),
     PreSubIteration(t + dt / 2.0), RhsEvaluated(t + dt / 2.0),
     PreSubIteration(t + dt), RhsEvaluated(t + dt)]
  }

  method CalculateDelta(v: VariableScalar, rhs: RhsScalar, t: real, dt: real)
    requires rhs.scalar == v
    modifies v, rhs
    ensures v.State() == Advanced(rhs.f, old(v.State()), t, dt)
    ensures rhs.calls == old(rhs.calls) + Calls(t, dt)
  {
    rhs.PreIterationJob(t);

    // k1 = f(t, x)
    rhs.PreSubIterationJob(t);
    rhs.CalculateRhs(t);
    v.AddRhsToDelta(dt / 6.0);

    // k2 = f(t + dt/2, x + dt/2 * k1)
    RunStage(v, rhs, dt / 2.0, t + dt / 2.0, dt / 3.0);
    // k3 = f(t + dt/2, x + dt/2 * k2)
    RunStage(v, rhs, dt / 2.0, t + dt / 2.0, dt / 3.0);
    // k4 = f(t + dt, x + dt * k3)
    RunStage(v, rhs, dt, t + dt, dt / 6.0);
  }

  /** The calls of one stage after the first, in the order the source makes them. */
  method RunStage(v: VariableScalar, rhs: RhsScalar, offset: real, time: real, weight: real)
    requires rhs.scalar == v
    modifies v, rhs
    ensures v.State() == Stage(rhs.f, old(v.State()), offset, time, weight)
    ensures rhs.calls == old(rhs.calls) + [PreSubIteration(time), RhsEvaluated(time)]
  {
    v.MakeSubIteration(offset);
    rhs.PreSubIterationJob(time);
    rhs.CalculateRhs(time);
    v.AddRhsToDelta(weight);
  }

  // ---------------------------------------------------------------------
  // The textbook method, stated independently

  datatype Slopes = Slopes(k1: real, k2: real, k3: real, k4: real)

  /**
   * The four slopes of classical RK4 for an entry whose first stage is
   * evaluated at `x1` and whose later stages are offset from `x`.
   */
  function ClassicalSlopes(f: (real, real) -> real, x: real, x1: real, t: real, dt: real): Slopes {
    var k1 := f(t, x1);
    var k2 := f(t + dt / 2.0, Positioned(x, k1, dt / 2.0));
    var k3 := f(t + dt / 2.0, Positioned(x, k2, dt / 2.0));
    var k4 := f(t + dt, Positioned(x, k3, dt));
    Slopes(k1, k2, k3, k4)
  }

  /** The classical weighted increment dt/6 * (k1 + 2 k2 + 2 k3 + k4). */
  function Increment(k: Slopes, dt: real): real {
    dt / 6.0 * (k.k1 + 2.0 * k.k2 + 2.0 * k.k3 + k.k4)
  }

  /**
   * The stage-by-stage computation adds exactly the classical increment to
   * delta, never moves previous, and leaves current at the fourth stage's
   * point and rhs at k4.
   */
  lemma AdvancedIsClassical(f: (real, real) -> real, s: ScalarState, t: real, dt: real)
    ensures var k := ClassicalSlopes(f, s.previous, s.current, t, dt);
      && Advanced(f, s, t, dt).delta == s.delta + Increment(k, dt)
      && Advanced(f, s, t, dt).previous == s.previous
      && Advanced(f, s, t, dt).current == Positioned(s.previous, k.k3, dt)
      && Advanced(f, s, t, dt).rhs == k.k4
  {
    var k := ClassicalSlopes(f, s.previous, s.current, t, dt);
    var s1 := RhsAdded(Evaluated(s, f, t), dt / 6.0);
    assert s1.rhs == k.k1 && s1.delta == s.delta + dt / 6.0 * k.k1;
    var s2 := Stage(f, s1, dt / 2.0, t + dt / 2.0, dt / 3.0);
    assert s2.rhs == k.k2;
    var s3 := Stage(f, s2, dt / 2.0, t + dt / 2.0, dt / 3.0);
    assert s3.rhs == k.k3;
    var s4 := Stage(f, s3, dt, t + dt, dt / 6.0);
    assert s4.rhs == k.k4;
    assert s4.delta == s.delta + dt / 6.0 * k.k1 + dt / 3.0 * k.k2 + dt / 3.0 * k.k3 + dt / 6.0 * k.k4;
  }

  /**
   * From a cleared entry, one RK4 delta followed by step gives the textbook
   * update previous + dt/6 * (k1 + 2 k2 + 2 k3 + k4), all slopes taken from
   * previous.
   */
  lemma StepFromCleared(f: (real, real) -> real, s: ScalarState, t: real, dt: real)
    ensures Stepped(Advanced(f, Cleared(s), t, dt)).previous
         == s.previous + Increment(ClassicalSlopes(f, s.previous, s.previous, t, dt), dt)
  {
    AdvancedIsClassical(f, Cleared(s), t, dt);
  }

  /**
   * The weights dt/6, dt/3, dt/3, dt/6 sum to dt: a constant derivative c
   * adds exactly c * dt to delta.
   */
  lemma ConstantRhs(f: (real, real) -> real, c: real, s: ScalarState, t: real, dt: real)
    requires forall time, x :: f(time, x) == c
    ensures Advanced(f, s, t, dt).delta == s.delta + c * dt
  {
    AdvancedIsClassical(f, s, t, dt);
    var k := ClassicalSlopes(f, s.previous, s.current, t, dt);
    assert k == Slopes(c, c, c, c);
  }
}

/**
 * The four-argument integrator interface the engine calls:
 * calculate_delta(variable, rhs, t, dt) and method_order(), over the two
 * fixed-weight methods the library ships.
 */
module Integrator {
  import opened Integration
  import EulerExplicitIterator
  import RungeKuttaIterator

  datatype IntegrationMethod = EulerExplicit | RungeKutta

  /** method_order of the chosen method. */
  function MethodOrder(m: IntegrationMethod): (n: nat)
    ensures m.EulerExplicit? ==> n == 1
    ensures m.RungeKutta? ==> n == 4
  {
    match m
    case EulerExplicit => EulerExplicitIterator.MethodOrder()
    case RungeKutta => RungeKuttaIterator.MethodOrder()
  }

  /** What calculate_delta(variable, rhs, t, dt) does to the entry. */
  function Advanced(m: IntegrationMethod, f: (real, real) -> real, s: ScalarState, t: real, dt: real): ScalarState {
    match m
    case EulerExplicit => EulerExplicitIterator.Advanced(f, s, t, dt)
    case RungeKutta => RungeKuttaIterator.Advanced(f, s, t, dt)
  }

  /** The requests calculate_delta makes of the right-hand side, in order. */
  function Calls(m: IntegrationMethod, t: real, dt: real): seq<RhsCall> {
    match m
    case EulerExplicit => EulerExplicitIterator.Calls(t)
    case RungeKutta => RungeKuttaIterator.Calls(t, dt)
  }

  method CalculateDelta(m: IntegrationMethod, v: VariableScalar, rhs: RhsScalar, t: real, dt: real)
    requires rhs.scalar == v
    modifies v, rhs
    ensures v.State() == Advanced(m, rhs.f, old(v.State()), t, dt)
    ensures rhs.calls == old(rhs.calls) + Calls(m, t, dt)
  {
    match m
    case EulerExplicit => EulerExplicitIterator.CalculateDelta(v, rhs, t, dt);
    case RungeKutta => RungeKuttaIterator.CalculateDelta(v, rhs, t, dt);
  }

  /**
   * Neither method moves previous, and both overwrite the cached derivative
   * before reading it, so the result does not depend on the incoming rhs.
   */
  lemma AdvancedKeepsPrevious(m: IntegrationMethod, f: (real, real) -> real, s: ScalarState, rhs0: real, t: real, dt: real)
    ensures Advanced(m, f, s, t, dt).previous == s.previous
    ensures Advanced(m, f, s.(rhs := rhs0), t, dt) == Advanced(m, f, s, t, dt)
  {
    if m.RungeKutta? {
      RungeKuttaIterator.AdvancedIsClassical(f, s, t, dt);
    }
  }

  /** Every call starts with exactly one pre-iteration job, at t, before any stage. */
  lemma PreIterationFirst(m: IntegrationMethod, t: real, dt: real)
    ensures |Calls(m, t, dt)| >= 3 && Calls(m, t, dt)[0] == PreIteration(t)
    ensures forall i :: 1 <= i < |Calls(m, t, dt)| ==> !Calls(m, t, dt)[i].PreIteration?
  {
  }
}

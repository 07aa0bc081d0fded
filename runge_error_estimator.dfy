/**
 * The step-doubling (Runge) error estimator.  It snapshots the entry, runs
 * two half steps (committing the first), restores the snapshot, runs one
 * full step, and folds the per-component absolute and relative
 * differences into their maxima.
 *
 * The relative error divides by |value| + |full-step delta| without a
 * guard.  The model follows IEEE double arithmetic for that quotient: a
 * zero denominator gives NaN when the numerator is zero too, and +infinity
 * otherwise.  NaN never beats the running maximum (every comparison with it
 * is false), +infinity does, and no finite bound is above +infinity.
 */
module ErrorEstimation {
  import opened Integration
  import opened Integrator

  datatype Option<T> = None | Some(value: T)

  /** The IEEE quotient of two non-negative doubles. */
  datatype Ratio = Finite(value: real) | Infinite | Undefined

  function Abs(x: real): (r: real)
    ensures r >= 0.0 && (r == x || r == -x)
  {
    if x < 0.0 then -x else x
  }

  function Quotient(a: real, b: real): (q: Ratio)
    requires a >= 0.0 && b >= 0.0
    ensures b > 0.0 ==> q.Finite? && q.value * b == a
    ensures b == 0.0 ==> (q.Undefined? <==> a == 0.0) && (q.Infinite? <==> a > 0.0)
  {
    if b > 0.0 then Finite(a / b) else if a == 0.0 then Undefined else Infinite
  }

  /** IEEE `q > m` for a quotient q and a running maximum m. */
  predicate Exceeds(q: Ratio, m: Ratio) {
    match (q, m)
    case (Finite(x), Finite(y)) => x > y
    case (Infinite, Finite(_)) => true
    case _ => false
  }

  /** IEEE `q < x` for a quotient q and a finite bound x. */
  predicate Below(q: Ratio, x: real) {
    q.Finite? && q.value < x
  }

  /** IntegrationError: the two maxima of the most recent estimate. */
  datatype IntegrationError = IntegrationError(maxAbsError: real, maxRelError: Ratio)

  const NoError := IntegrationError(0.0, Finite(0.0))

  function Pow2(n: nat): (p: nat)
    ensures p >= 1
  {
    if n == 0 then 1 else 2 * Pow2(n - 1)
  }

  /** 1 / (2^order - 1): Richardson's factor for the method's order. */
  function ErrorMultiplier(m: IntegrationMethod): (r: real)
    ensures r > 0.0
    ensures m.EulerExplicit? ==> r == 1.0
    ensures m.RungeKutta? ==> r == 1.0 / 15.0
  {
    1.0 / ((Pow2(MethodOrder(m)) - 1) as real)
  }

  /** abs_error of one component. */
  function AbsError(full: real, half1: real, half2: real, mult: real): real {
    Abs(full - (half1 + half2)) * mult
  }

  /** rel_error of one component, from its snapshot value and its abs_error. */
  function RelError(value: real, full: real, absError: real): Ratio
    requires absError >= 0.0
  {
    Quotient(absError, Abs(value) + Abs(full))
  }

  /** The buffers hold at least n components and the multiplier is not negative. */
  predicate Covers(values: seq<real>, full: seq<real>, half1: seq<real>, half2: seq<real>, mult: real, n: nat) {
    n <= |values| && n <= |full| && n <= |half1| && n <= |half2| && mult >= 0.0
  }

  /**
   * The error after the first n passes of estimate_error's loop: both
   * maxima start at 0 and are replaced whenever a component is strictly
   * greater.
   */
  function Folded(values: seq<real>, full: seq<real>, half1: seq<real>, half2: seq<real>, mult: real, n: nat): (e: IntegrationError)
    requires Covers(values, full, half1, half2, mult, n)
    ensures e.maxAbsError >= 0.0
    ensures !e.maxRelError.Undefined?
    ensures e.maxRelError.Finite? ==> e.maxRelError.value >= 0.0
  {
    if n == 0 then NoError
    else
      var e := Folded(values, full, half1, half2, mult, n - 1);
      var i := n - 1;
      var a := AbsError(full[i], half1[i], half2[i], mult);
      var r := RelError(values[i], full[i], a);
      IntegrationError(
        if a > e.maxAbsError then a else e.maxAbsError,
        if Exceeds(r, e.maxRelError) then r else e.maxRelError)
  }

  /**
   * The fold computes the maxima: each is an upper bound of its component
   * errors (NaN components excepted, which no comparison favours) and is
   * either one of them or the starting 0.
   */
  lemma {:induction false} FoldedIsMaximum(values: seq<real>, full: seq<real>, half1: seq<real>, half2: seq<real>, mult: real, n: nat)
    requires Covers(values, full, half1, half2, mult, n)
    ensures var e := Folded(values, full, half1, half2, mult, n);
      && (forall i :: 0 <= i < n ==> AbsError(full[i], half1[i], half2[i], mult) <= e.maxAbsError)
      && (e.maxAbsError == 0.0 ||
          (exists i :: 0 <= i < n && e.maxAbsError == AbsError(full[i], half1[i], half2[i], mult)))
      && (forall i :: 0 <= i < n ==>
            !Exceeds(RelError(values[i], full[i], AbsError(full[i], half1[i], half2[i], mult)), e.maxRelError))
      && (e.maxRelError == Finite(0.0) ||
          (exists i :: 0 <= i < n &&
            e.maxRelError == RelError(values[i], full[i], AbsError(full[i], half1[i], half2[i], mult))))
  {
    if n > 0 {
      FoldedIsMaximum(values, full, half1, half2, mult, n - 1);
    }
  }

  /**
   * estimate_error's loop over the components, proved to compute the fold.
   * The source reads the three delta buffers at every index of the values
   * buffer, so they must be at least as long.
   */
  method MaximumErrors(values: seq<real>, full: seq<real>, half1: seq<real>, half2: seq<real>, mult: real)
    returns (e: IntegrationError)
    requires Covers(values, full, half1, half2, mult, |values|)
    ensures e == Folded(values, full, half1, half2, mult, |values|)
  {
    e := NoError;
    var i := 0;
    while i < |values|
      invariant i <= |values|
      invariant e == Folded(values, full, half1, half2, mult, i)
    {
      var absError := AbsError(full[i], half1[i], half2[i], mult);
      var relError := RelError(values[i], full[i], absError);
      if Exceeds(relError, e.maxRelError) {
        e := e.(maxRelError := relError);
      }
      if absError > e.maxAbsError {
        e := e.(maxAbsError := absError);
      }
      i := i + 1;
    }
  }

  /**
   * With a positive multiplier, the absolute error is zero exactly when the
   * full step equals the sum of the two half steps in every component.
   */
  lemma {:induction false} NoAbsErrorIffHalvesAgree(values: seq<real>, full: seq<real>, half1: seq<real>, half2: seq<real>, mult: real, n: nat)
    requires Covers(values, full, half1, half2, mult, n) && mult > 0.0
    ensures Folded(values, full, half1, half2, mult, n).maxAbsError == 0.0
        <==> forall i :: 0 <= i < n ==> full[i] == half1[i] + half2[i]
  {
    var e := Folded(values, full, half1, half2, mult, n);
    FoldedIsMaximum(values, full, half1, half2, mult, n);
    if e.maxAbsError == 0.0 {
      forall i | 0 <= i < n
        ensures full[i] == half1[i] + half2[i]
      {
        assert AbsError(full[i], half1[i], half2[i], mult) <= 0.0;
        assert Abs(full[i] - (half1[i] + half2[i])) * mult <= 0.0;
      }
    } else {
      var i :| 0 <= i < n && e.maxAbsError == AbsError(full[i], half1[i], half2[i], mult);
      assert full[i] != half1[i] + half2[i];
    }
  }

  // ---------------------------------------------------------------------
  // The trial steps, as values

  /** What make_test_steps records, and the entry it leaves behind. */
  datatype TestRun = TestRun(value: real, half1: real, half2: real, full: real, final: ScalarState)

  /**
   * make_test_steps on an entry s: snapshot, half step at t, commit, half
   * step at t + dt/2, restore the snapshot, full step at t.
   */
  function TestSteps(m: IntegrationMethod, f: (real, real) -> real, s: ScalarState, t: real, dt: real): TestRun {
    var s1 := Advanced(m, f, s, t, dt / 2.0);
    var s2 := Stepped(s1);
    var s3 := Advanced(m, f, s2, t + dt / 2.0, dt / 2.0);
    var s4 := ValueSet(s3, s.current);
    var s5 := Advanced(m, f, s4, t, dt);
    TestRun(s.current, s1.delta, s3.delta, s5.delta, s5)
  }

  /** The right-hand-side requests of the three trial steps, in the order they run. */
  function TestCalls(m: IntegrationMethod, t: real, dt: real): seq<RhsCall> {
    Calls(m, t, dt / 2.0) + Calls(m, t + dt / 2.0, dt / 2.0) + Calls(m, t, dt)
  }

  /**
   * The speculative half steps leave no trace: on an entry whose current
   * value is its previous one, previous is restored to the entry value and
   * the pending delta is the full-step delta that was recorded, whatever
   * delta the entry carried in (set_values discards it).  On an entry with
   * nothing pending at all, the state after the trial steps is exactly the
   * state one full calculate_delta would leave.
   */
  lemma SpeculationLeavesNoTrace(m: IntegrationMethod, f: (real, real) -> real, s: ScalarState, t: real, dt: real)
    requires s.current == s.previous
    ensures TestSteps(m, f, s, t, dt).final.previous == s.previous
    ensures TestSteps(m, f, s, t, dt).final.delta == TestSteps(m, f, s, t, dt).full
    ensures IsCleared(s) ==> TestSteps(m, f, s, t, dt).final == Advanced(m, f, s, t, dt)
  {
    var s3 := Advanced(m, f, Stepped(Advanced(m, f, s, t, dt / 2.0)), t + dt / 2.0, dt / 2.0);
    var s4 := ValueSet(s3, s.current);
    AdvancedKeepsPrevious(m, f, s4, s3.rhs, t, dt);
    if IsCleared(s) {
      assert s4 == s.(rhs := s3.rhs);
      AdvancedKeepsPrevious(m, f, s, s3.rhs, t, dt);
    }
  }

  /**
   * On a cleared entry the recorded trial depends on previous alone: the
   * cached derivative the entry carries in is never read.
   */
  lemma TrialDependsOnPreviousOnly(m: IntegrationMethod, f: (real, real) -> real, s: ScalarState, t: real, dt: real)
    requires IsCleared(s)
    ensures var r := TestSteps(m, f, s, t, dt);
            var q := TestSteps(m, f, ScalarState(s.previous, s.previous, 0.0, 0.0), t, dt);
            r.value == q.value && r.half1 == q.half1 && r.half2 == q.half2 && r.full == q.full
  {
    var z := ScalarState(s.previous, s.previous, 0.0, 0.0);
    assert s == z.(rhs := s.rhs);
    AdvancedKeepsPrevious(m, f, z, s.rhs, t, dt / 2.0);
    AdvancedKeepsPrevious(m, f, z, s.rhs, t, dt);
    SpeculationLeavesNoTrace(m, f, s, t, dt);
    SpeculationLeavesNoTrace(m, f, z, t, dt);
  }

  /** The error the estimator reports for a step dt at t from a cleared entry holding x. */
  function TrialError(m: IntegrationMethod, f: (real, real) -> real, x: real, t: real, dt: real): IntegrationError {
    var r := TestSteps(m, f, ScalarState(x, x, 0.0, 0.0), t, dt);
    Folded([r.value], [r.full], [r.half1], [r.half2], ErrorMultiplier(m), 1)
  }

  /**
   * The two speculative half steps of make_test_steps: half step at t,
   * commit, half step at t + dt/2; each delta is recorded before the next
   * operation.
   */
  method HalfSteps(m: IntegrationMethod, v: VariableScalar, rhs: RhsScalar, t: real, dt: real)
    returns (half1: real, half2: real)
    requires rhs.scalar == v
    modifies v, rhs
    ensures var s1 := Advanced(m, rhs.f, old(v.State()), t, dt / 2.0);
      var s3 := Advanced(m, rhs.f, Stepped(s1), t + dt / 2.0, dt / 2.0);
      && half1 == s1.delta && half2 == s3.delta && v.State() == s3
    ensures rhs.calls == old(rhs.calls) + Calls(m, t, dt / 2.0) + Calls(m, t + dt / 2.0, dt / 2.0)
  {
    CalculateDelta(m, v, rhs, t, dt / 2.0);
    var d := v.CollectDeltas([]);
    half1 := d[0];
    v.Step();
    CalculateDelta(m, v, rhs, t + dt / 2.0, dt / 2.0);
    d := v.CollectDeltas([]);
    half2 := d[0];
  }

  /**
   * The last part of make_test_steps: restore the snapshot with set_values
   * and take the full step at t, recording its delta.
   */
  method RestoredFullStep(m: IntegrationMethod, v: VariableScalar, rhs: RhsScalar, values: seq<real>, t: real, dt: real)
    returns (full: real)
    requires rhs.scalar == v && |values| == 1
    modifies v, rhs
    ensures v.State() == Advanced(m, rhs.f, ValueSet(old(v.State()), values[0]), t, dt)
    ensures full == v.delta
    ensures rhs.calls == old(rhs.calls) + Calls(m, t, dt)
  {
    var next := v.SetValues(values, 0);
    CalculateDelta(m, v, rhs, t, dt);
    var d := v.CollectDeltas([]);
    full := d[0];
  }

  /**
   * The operations make_test_steps performs on the entry and the
   * right-hand side, with what it records of them.
   */
  method TrialSteps(m: IntegrationMethod, v: VariableScalar, rhs: RhsScalar, t: real, dt: real) returns (r: TestRun)
    requires rhs.scalar == v
    modifies v, rhs
    ensures r == TestSteps(m, rhs.f, old(v.State()), t, dt) && v.State() == r.final
    ensures rhs.calls == old(rhs.calls) + TestCalls(m, t, dt)
  {
    var values := v.CollectValues([]);
    var half1, half2 := HalfSteps(m, v, rhs, t, dt);
    var full := RestoredFullStep(m, v, rhs, values, t, dt);
    r := TestRun(values[0], half1, half2, full, v.State());
  }

  // ---------------------------------------------------------------------
  // The estimator object

  class RungeErrorEstimator {
    var integrator: Option<IntegrationMethod>
    var errorMultiplier: real
    var values: seq<real>
    var deltasH: seq<real>
    var deltasHalf1: seq<real>
    var deltasHalf2: seq<real>
    var error: IntegrationError

    /** The buffers hold one entry per scalar each, and the multiplier matches the integrator. */
    ghost predicate Valid()
      reads this
    {
      && |deltasH| == |values| && |deltasHalf1| == |values| && |deltasHalf2| == |values|
      && errorMultiplier >= 0.0
      && (integrator.Some? ==> errorMultiplier == ErrorMultiplier(integrator.value))
    }

    /**
     * The source computes the multiplier in the constructor from an
     * integrator that is not attached yet; here it is computed when one is
     * attached, and no integrator means no multiplier.
     */
    constructor ()
      ensures Valid() && integrator == None
      ensures values == [] && deltasH == [] && deltasHalf1 == [] && deltasHalf2 == []
      ensures error == NoError
    {
      integrator := None;
      errorMultiplier := 0.0;
      values, deltasH, deltasHalf1, deltasHalf2 := [], [], [], [];
      error := NoError;
    }

    method SetIntegrator(m: IntegrationMethod)
      requires Valid()
      modifies this
      ensures Valid() && integrator == Some(m) && errorMultiplier == ErrorMultiplier(m)
      ensures values == old(values) && deltasH == old(deltasH)
      ensures deltasHalf1 == old(deltasHalf1) && deltasHalf2 == old(deltasHalf2)
      ensures error == old(error)
    {
      integrator := Some(m);
      errorMultiplier := ErrorMultiplier(m);
    }

    /** get_error */
    function GetError(): (e: IntegrationError)
      reads this
      ensures e == error
    {
      error
    }

    /**
     * make_test_steps: every buffer is emptied first, so what is recorded
     * depends only on the entry, the right-hand side, t and dt.
     */
    method MakeTestSteps(v: VariableScalar, rhs: RhsScalar, t: real, dt: real)
      requires Valid() && integrator.Some? && rhs.scalar == v
      modifies this, v, rhs
      ensures Valid() && integrator == old(integrator) && errorMultiplier == old(errorMultiplier)
      ensures error == old(error)
      ensures var r := TestSteps(integrator.value, rhs.f, old(v.State()), t, dt);
        && values == [r.value] && deltasHalf1 == [r.half1] && deltasHalf2 == [r.half2]
        && deltasH == [r.full] && v.State() == r.final
      ensures rhs.calls == old(rhs.calls) + TestCalls(integrator.value, t, dt)
    {
      values, deltasH, deltasHalf1, deltasHalf2 := [], [], [], [];
      var r := TrialSteps(integrator.value, v, rhs, t, dt);
      values := [r.value];
      deltasHalf1 := [r.half1];
      deltasHalf2 := [r.half2];
      deltasH := [r.full];
    }

    /** estimate_error: both maxima restart from 0 and fold over the buffers. */
    method EstimateError()
      requires Valid()
      modifies this
      ensures Valid()
      ensures error == Folded(values, deltasH, deltasHalf1, deltasHalf2, errorMultiplier, |values|)
      ensures integrator == old(integrator) && errorMultiplier == old(errorMultiplier)
      ensures values == old(values) && deltasH == old(deltasH)
      ensures deltasHalf1 == old(deltasHalf1) && deltasHalf2 == old(deltasHalf2)
    {
      error := MaximumErrors(values, deltasH, deltasHalf1, deltasHalf2, errorMultiplier);
    }

    /**
     * calculate_delta_and_estimate: the trial steps and then the estimate.
     * Every call refills the buffers with the one entry's trial and reports
     * the error of that trial alone.  On a cleared entry the entry ends
     * holding the pending full-step delta over its unchanged previous value.
     */
    method CalculateDeltaAndEstimate(v: VariableScalar, rhs: RhsScalar, t: real, dt: real)
      requires Valid() && integrator.Some? && rhs.scalar == v
      modifies this, v, rhs
      ensures Valid() && integrator == old(integrator) && errorMultiplier == old(errorMultiplier)
      ensures v.State() == TestSteps(integrator.value, rhs.f, old(v.State()), t, dt).final
      ensures var r := TestSteps(integrator.value, rhs.f, old(v.State()), t, dt);
        && values == [r.value] && deltasH == [r.full] && deltasHalf1 == [r.half1] && deltasHalf2 == [r.half2]
        && error == Folded(values, deltasH, deltasHalf1, deltasHalf2, errorMultiplier, 1)
      ensures IsCleared(old(v.State())) ==> error == TrialError(integrator.value, rhs.f, old(v.previous), t, dt)
      ensures rhs.calls == old(rhs.calls) + TestCalls(integrator.value, t, dt)
    {
      MakeTestSteps(v, rhs, t, dt);
      EstimateError();
      if IsCleared(old(v.State())) {
        TrialDependsOnPreviousOnly(integrator.value, rhs.f, old(v.State()), t, dt);
      }
    }
  }
}

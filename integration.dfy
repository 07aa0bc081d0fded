/**
 * The state entry of the engine (VariableScalar) and the scalar right-hand
 * side (RHSScalar).
 *
 * A scalar entry keeps the last committed value (previous), a scratch value
 * used while the stages of one step are evaluated (current), the weighted
 * sum of stage derivatives for the step in progress (delta) and the most
 * recently evaluated derivative (rhs).  `ScalarState` is the value view of
 * an entry; the functions below it specify the in-place operations of the
 * class `VariableScalar`.
 */
module Integration {

  datatype ScalarState = ScalarState(previous: real, current: real, delta: real, rhs: real)

  /** The entry has no pending sub-iteration: `current == previous` and `delta == 0`. */
  predicate IsCleared(s: ScalarState) {
    s.current == s.previous && s.delta == 0.0
  }

  // ---------------------------------------------------------------------
  // Value-level specification of the IVariable operations

  /** clear_subiteration: drop the pending delta and put current back on previous. */
  function Cleared(s: ScalarState): (r: ScalarState)
    ensures IsCleared(r)
    ensures r.previous == s.previous && r.rhs == s.rhs
  {
    s.(current := s.previous, delta := 0.0)
  }

  /** add_rhs_to_delta(m): delta grows by rhs * m. */
  function RhsAdded(s: ScalarState, m: real): (r: ScalarState)
    ensures r.delta - s.delta == s.rhs * m
    ensures r.previous == s.previous && r.current == s.current && r.rhs == s.rhs
  {
    s.(delta := s.delta + s.rhs * m)
  }

  /** The point x + slope * h at which a later stage evaluates the derivative. */
  function Positioned(x: real, slope: real, h: real): real {
    x + slope * h
  }

  /** make_sub_iteration(dt): position current at previous + rhs * dt. */
  function SubIterated(s: ScalarState, dt: real): (r: ScalarState)
    ensures r.current - r.previous == s.rhs * dt
    ensures r.previous == s.previous && r.delta == s.delta && r.rhs == s.rhs
  {
    s.(current := Positioned(s.previous, s.rhs, dt))
  }

  /** step: commit the pending delta into previous and current. */
  function Stepped(s: ScalarState): (r: ScalarState)
    ensures IsCleared(r)
    ensures r.previous - s.previous == s.delta && r.rhs == s.rhs
  {
    var p := s.previous + s.delta;
    s.(previous := p, current := p, delta := 0.0)
  }

  /** set_values with the element x: previous becomes x, then the sub-iteration is cleared. */
  function ValueSet(s: ScalarState, x: real): (r: ScalarState)
    ensures IsCleared(r) && r.previous == x && r.rhs == s.rhs
  {
    Cleared(s.(previous := x))
  }

  /** calculate_rhs(t) of an RHSScalar with derivative f: rhs becomes f(t, current). */
  function Evaluated(s: ScalarState, f: (real, real) -> real, t: real): (r: ScalarState)
    ensures r.rhs == f(t, s.current)
    ensures r.previous == s.previous && r.current == s.current && r.delta == s.delta
  {
    s.(rhs := f(t, s.current))
  }

  // ---------------------------------------------------------------------
  // Properties of the operations

  /** Clearing twice is clearing once, and clearing never touches previous. */
  lemma ClearIdempotent(s: ScalarState)
    ensures Cleared(Cleared(s)) == Cleared(s)
    ensures Cleared(s).previous == s.previous
  {
  }

  /**
   * make_sub_iteration reads previous, not current: a second positioning
   * replaces the first instead of compounding it.
   */
  lemma SubIterationDoesNotCompound(s: ScalarState, a: real, b: real)
    ensures SubIterated(SubIterated(s, a), b) == SubIterated(s, b)
  {
  }

  /** A step right after a step changes nothing. */
  lemma StepIdempotent(s: ScalarState)
    ensures Stepped(Stepped(s)) == Stepped(s)
  {
  }

  /**
   * Snapshot and restore: on an entry with current == previous,
   * collect_values captures previous, and set_values with that element
   * restores previous and drops whatever delta is pending.
   */
  lemma CollectThenSetRestores(s: ScalarState, later: ScalarState)
    requires s.current == s.previous
    ensures ValueSet(later, s.current).previous == s.previous
    ensures IsCleared(ValueSet(later, s.current))
  {
  }

  // ---------------------------------------------------------------------
  // The entry itself

  class VariableScalar {
    var previous: real
    var current: real
    var delta: real
    var rhs: real

    /** The value view of the entry. */
    function State(): ScalarState
      reads this
    {
      ScalarState(previous, current, delta, rhs)
    }

    /**
     * VariableScalar(value): previous == current == value and delta == 0.
     * The source leaves the cached derivative uninitialised; here it starts at 0.
     */
    constructor (value: real)
      ensures previous == value && current == value && delta == 0.0
      ensures IsCleared(State())
    {
      previous := value;
      current := value;
      delta := 0.0;
      rhs := 0.0;
    }

    method ClearSubiteration()
      modifies this
      ensures State() == Cleared(old(State()))
    {
      current := previous;
      delta := 0.0;
    }

    method AddRhsToDelta(m: real)
      modifies this
      ensures State() == RhsAdded(old(State()), m)
    {
      delta := delta + rhs * m;
    }

    method MakeSubIteration(dt: real)
      modifies this
      ensures State() == SubIterated(old(State()), dt)
    {
      current := previous + rhs * dt;
    }

    method Step()
      modifies this
      ensures State() == Stepped(old(State()))
    {
      previous := previous + delta;
      current := previous;
      delta := 0.0;
    }

    /**
     * collect_values: append the current value to the caller's buffer; what
     * the buffer already held is kept and the entry is not modified.
     */
    method CollectValues(values: seq<real>) returns (r: seq<real>)
      ensures |r| == |values| + 1
      ensures r[..|values|] == values && r[|values|] == current
    {
      r := values + [current];
    }

    /** collect_deltas: append the pending delta to the caller's buffer. */
    method CollectDeltas(deltas: seq<real>) returns (r: seq<real>)
      ensures |r| == |deltas| + 1
      ensures r[..|deltas|] == deltas && r[|deltas|] == delta
    {
      r := deltas + [delta];
    }

    /**
     * set_values: read the element at the iterator position `pos`, advance
     * the iterator by one, make it the previous value and clear the
     * sub-iteration.  Reading past the end is undefined in the source, so
     * the position must be inside the buffer.
     */
    method SetValues(values: seq<real>, pos: nat) returns (next: nat)
      requires pos < |values|
      modifies this
      ensures next == pos + 1
      ensures State() == ValueSet(old(State()), values[pos])
    {
      previous := values[pos];
      next := pos + 1;
      ClearSubiteration();
    }

    /** current_value */
    function CurrentValue(): (x: real)
      reads this
      ensures x == State().current
    {
      current
    }

    /** set_rhs: only the cached derivative changes. */
    method SetRhs(value: real)
      modifies this
      ensures State() == old(State()).(rhs := value)
    {
      rhs := value;
    }
  }

  // ---------------------------------------------------------------------
  // The right-hand side

  /** What a right-hand side is asked to do, in the order it is asked. */
  datatype RhsCall =
    | PreIteration(time: real)
    | PreSubIteration(time: real)
    | RhsEvaluated(time: real)

  /**
   * RHSScalar: evaluates a user derivative f(t, x) at the current value of
   * its scalar.  The user function is the abstract `f`; the two pre-jobs are
   * the interface's default no-ops and leave only a record in `calls`.
   */
  class RhsScalar {
    const scalar: VariableScalar
    const f: (real, real) -> real
    var calls: seq<RhsCall>

    constructor (scalar: VariableScalar, f: (real, real) -> real)
      ensures this.scalar == scalar && this.f == f && calls == []
    {
      this.scalar := scalar;
      this.f := f;
      calls := [];
    }

    /** pre_iteration_job: no effect on any state entry. */
    method PreIterationJob(time: real)
      modifies this
      ensures calls == old(calls) + [PreIteration(time)]
    {
      calls := calls + [PreIteration(time)];
    }

    /** pre_sub_iteration_job: no effect on any state entry. */
    method PreSubIterationJob(time: real)
      modifies this
      ensures calls == old(calls) + [PreSubIteration(time)]
    {
      calls := calls + [PreSubIteration(time)];
    }

    /** calculate_rhs(t): rhs = f(t, current) and nothing else of the entry changes. */
    method CalculateRhs(time: real)
      modifies this, scalar
      ensures scalar.State() == Evaluated(old(scalar.State()), f, time)
      ensures calls == old(calls) + [RhsEvaluated(time)]
    {
      var x := scalar.CurrentValue();
      scalar.SetRhs(f(time, x));
      calls := calls + [RhsEvaluated(time)];
    }
  }
}

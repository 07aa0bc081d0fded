/**
 * The time iterator (TimeIterator).  Once per iteration it checks its
 * collaborators, fires the periodic hooks that are due, integrates one step
 * (a fixed step, or one adjusted by the step-doubling error estimate), runs
 * the bifurcator when it is due, logs the step and advances model time.
 *
 * User code the iterator calls (hook bodies, the bifurcator) is recorded
 * as events; the one hook body the engine defines, PeriodicStopHook's, asks
 * the iterator to stop.
 */
module TimeIteration {
  import opened Integration
  import opened Integrator
  import opened ErrorEstimation
  import opened StepAdjustment
  import opened TimeHooks

  /** IteratingMetrics: the steps taken, in order, and the ceiling and floor counters. */
  datatype IteratingMetrics = IteratingMetrics(timeStepsLog: seq<real>, maxStepLimitations: nat, minStepLimitations: nat)

  /** A new, or reset, metrics record. */
  const NewMetrics := IteratingMetrics([], 0, 0)

  /** What the iterator asks of the user code attached to it, in order. */
  datatype Event =
    | HookRan(hook: nat, realTime: real, wantedTime: real)
    | BifurcationPrepared(time: real, dt: real)
    | BifurcationDone(time: real, dt: real)

  /** The exceptions iterate throws. */
  datatype Failure = VariableNotSet | RhsNotSet | IntegratorNotSet | EstimatorNotSet

  datatype Outcome = Completed | Thrown(failure: Failure)

  // ---------------------------------------------------------------------
  // One integration step, as values

  /** The delta calculate_delta computes on a cleared entry holding x. */
  function StepDelta(m: IntegrationMethod, f: (real, real) -> real, x: real, t: real, dt: real): real {
    Advanced(m, f, ScalarState(x, x, 0.0, 0.0), t, dt).delta
  }

  /** On a cleared entry calculate_delta keeps previous and computes StepDelta, whatever rhs was cached. */
  lemma ClearedAdvance(m: IntegrationMethod, f: (real, real) -> real, s: ScalarState, t: real, dt: real)
    requires IsCleared(s)
    ensures Advanced(m, f, s, t, dt).previous == s.previous
    ensures Advanced(m, f, s, t, dt).delta == StepDelta(m, f, s.previous, t, dt)
  {
    var z := ScalarState(s.previous, s.previous, 0.0, 0.0);
    assert s == z.(rhs := s.rhs);
    AdvancedKeepsPrevious(m, f, z, s.rhs, t, dt);
  }

  /** On a cleared entry the trial steps leave previous as it was and the full-step delta pending. */
  lemma ClearedTrial(m: IntegrationMethod, f: (real, real) -> real, s: ScalarState, t: real, dt: real)
    requires IsCleared(s)
    ensures TestSteps(m, f, s, t, dt).final.previous == s.previous
    ensures TestSteps(m, f, s, t, dt).final.delta == StepDelta(m, f, s.previous, t, dt)
  {
    SpeculationLeavesNoTrace(m, f, s, t, dt);
    ClearedAdvance(m, f, s, t, dt);
  }

  /**
   * errAt and deltaAt are the estimator's errors and the integrator's
   * deltas for an entry holding x at time t, by step.  Stated pointwise, so
   * that a proof about the adaptive loop or the driver sees the two only
   * where it needs them.
   */
  ghost predicate Measures(errAt: real -> IntegrationError, deltaAt: real -> real,
                           m: IntegrationMethod, f: (real, real) -> real, x: real, t: real) {
    && (forall d {:trigger TrialError(m, f, x, t, d)} :: errAt(d) == TrialError(m, f, x, t, d))
    && (forall d {:trigger StepDelta(m, f, x, t, d)} :: deltaAt(d) == StepDelta(m, f, x, t, d))
  }

  /** The errors the estimator reports for the trial steps of an entry holding x at time t, by step. */
  ghost function ErrorsAt(m: IntegrationMethod, f: (real, real) -> real, x: real, t: real): (errAt: real -> IntegrationError)
    ensures forall d {:trigger TrialError(m, f, x, t, d)} :: errAt(d) == TrialError(m, f, x, t, d)
  {
    var e: real -> IntegrationError := d => TrialError(m, f, x, t, d);
    assert forall d :: e(d) == TrialError(m, f, x, t, d);
    var g: real -> IntegrationError :| forall d {:trigger TrialError(m, f, x, t, d)} :: g(d) == TrialError(m, f, x, t, d);
    g
  }

  /** The deltas calculate_delta computes for an entry holding x at time t, by step. */
  ghost function DeltasAt(m: IntegrationMethod, f: (real, real) -> real, x: real, t: real): (deltaAt: real -> real)
    ensures forall d {:trigger StepDelta(m, f, x, t, d)} :: deltaAt(d) == StepDelta(m, f, x, t, d)
  {
    var e: real -> real := d => StepDelta(m, f, x, t, d);
    assert forall d :: e(d) == StepDelta(m, f, x, t, d);
    var g: real -> real :| forall d {:trigger StepDelta(m, f, x, t, d)} :: g(d) == StepDelta(m, f, x, t, d);
    g
  }

  /** What one integrate_iteration amounts to: the step taken, the step proposed, the new value, the counters. */
  datatype Advance = Advance(used: real, next: real, value: real, minHits: nat, maxHits: nat)

  /**
   * integrate_iteration on an entry holding x with step dt, given the error
   * the estimator reports and the delta the integrator computes for each
   * step: a fixed step keeps dt for the next iteration; an adjusted one
   * takes the outcome of the adaptive loop and commits nothing when it was
   * clamped to the floor.
   */
  ghost function Integrated(p: StepAdjustmentParameters, errAt: real -> IntegrationError, deltaAt: real -> real,
                            x: real, dt: real, minHits: nat, maxHits: nat): Advance
    requires p.autoStepAdjustment ==> Terminates(p, dt)
  {
    if !p.autoStepAdjustment then
      Advance(dt, dt, x + deltaAt(dt), minHits, maxHits)
    else
      var s := Adapted(p, errAt, Start(dt, minHits, maxHits));
      Advance(s.dt, s.next, if s.floored then x else x + deltaAt(s.dt), s.minHits, s.maxHits)
  }

  /**
   * With adjustment off the step is the method's textbook update with the
   * given dt, kept for the next iteration, and no counter moves.
   */
  lemma FixedStepIntegrated(p: StepAdjustmentParameters, m: IntegrationMethod, f: (real, real) -> real,
                            x: real, t: real, dt: real, minHits: nat, maxHits: nat)
    requires !p.autoStepAdjustment
    ensures var a := Integrated(p, ErrorsAt(m, f, x, t), DeltasAt(m, f, x, t), x, dt, minHits, maxHits);
      && a.used == dt && a.next == dt && a.minHits == minHits && a.maxHits == maxHits
      && (m.EulerExplicit? ==> a.value == x + dt * f(t, x))
      && (m.RungeKutta? ==> a.value == x + RungeKuttaIterator.Increment(RungeKuttaIterator.ClassicalSlopes(f, x, x, t, dt), dt))
  {
    assert DeltasAt(m, f, x, t)(dt) == StepDelta(m, f, x, t, dt);
    if m.RungeKutta? {
      RungeKuttaIterator.AdvancedIsClassical(f, ScalarState(x, x, 0.0, 0.0), t, dt);
    }
  }

  /**
   * With adjustment on, either the step was clamped to the floor (the
   * value does not move, both steps are the floor, the floor counter goes
   * up by one) or the step taken passed the error test and its delta is
   * committed; the ceiling counter never goes down.
   */
  lemma AdaptiveStepIntegrated(p: StepAdjustmentParameters, errAt: real -> IntegrationError, deltaAt: real -> real,
                               x: real, dt: real, minHits: nat, maxHits: nat)
    requires p.autoStepAdjustment && Terminates(p, dt)
    ensures var a := Integrated(p, errAt, deltaAt, x, dt, minHits, maxHits);
      && a.maxHits >= maxHits
      && (a.minHits == minHits + 1 ==> a.value == x && a.used == p.minStepLimit && a.next == p.minStepLimit)
      && (a.minHits == minHits ==> Below(errAt(a.used).maxRelError, p.speedMax * a.used) && a.value == x + deltaAt(a.used))
      && (a.minHits == minHits || a.minHits == minHits + 1)
  {
    AdaptedOutcome(p, errAt, Start(dt, minHits, maxHits));
  }

  /** What the driver needs to make progress: a positive step, and with adjustment on a loop that exits and steps that stay positive. */
  predicate CanProgress(p: StepAdjustmentParameters, dt: real) {
    && dt > 0.0
    && (p.autoStepAdjustment ==>
          Terminates(p, dt) && p.refiningFactor >= 0.0 && p.coarseningFactor >= 1.0 && p.maxStepLimit > 0.0)
  }

  /**
   * A lower bound lo on the step that holds for the current step, the
   * floor and the ceiling holds for the step taken and the step proposed,
   * which keeps the driver able to progress.
   */
  lemma IntegratedProgress(p: StepAdjustmentParameters, errAt: real -> IntegrationError, deltaAt: real -> real,
                           x: real, dt: real, minHits: nat, maxHits: nat, lo: real)
    requires CanProgress(p, dt) && 0.0 < lo <= dt
    requires p.autoStepAdjustment ==> lo <= p.minStepLimit && lo <= p.maxStepLimit
    ensures var a := Integrated(p, errAt, deltaAt, x, dt, minHits, maxHits);
      a.used >= lo && a.next >= lo && CanProgress(p, a.next)
  {
    if p.autoStepAdjustment {
      AdaptedNextBounds(p, errAt, Start(dt, minHits, maxHits));
    }
  }

  /** The span n steps of length lo cover. */
  function Span(n: int, lo: real): real
    decreases n
  {
    if n <= 0 then 0.0 else Span(n - 1, lo) + lo
  }

  lemma {:induction false} SpanIsProduct(n: nat, lo: real)
    ensures Span(n, lo) == (n as real) * lo
  {
    if n > 0 {
      var k: nat := n - 1;
      SpanIsProduct(k, lo);
      assert (k as real) * lo + lo == (n as real) * lo;
    }
  }

  /** Some number of steps of length lo covers any gap. */
  lemma EnoughSteps(lo: real, gap: real) returns (n: nat)
    requires lo > 0.0 && gap >= 0.0
    ensures gap <= Span(n, lo)
  {
    n := (gap / lo).Floor + 1;
    BoundCovers(lo, gap, n);
    SpanIsProduct(n, lo);
  }

  /** A step of at least lo out of a gap that n steps of lo cover leaves a gap that n - 1 of them cover. */
  lemma BudgetShrinks(lo: real, gap: real, n: int, used: real)
    requires 0.0 < lo <= used && 0.0 < gap <= Span(n, lo)
    ensures n >= 1 && gap - used <= Span(n - 1, lo)
  {
  }

  // ---------------------------------------------------------------------
  // Hooks and bifurcation, as values

  /** The hook events call_hook records for the firing order, at model time now. */
  function HookEvents(order: seq<Due>, now: real): (r: seq<Event>)
    ensures |r| == |order|
    ensures forall k :: 0 <= k < |order| ==> r[k] == HookRan(order[k].index, now, order[k].time)
  {
    if order == [] then []
    else HookEvents(order[..|order| - 1], now) + [HookRan(order[|order| - 1].index, now, order[|order| - 1].time)]
  }

  /** A hook after call_hook at model time now: run once if it was due, untouched otherwise. */
  function Fired(h: HookState, now: real): HookState {
    if h.nextRun <= now then Ran(h, now) else h
  }

  /** The list positions in a firing order. */
  function Positions(order: seq<Due>): set<nat> {
    set d | d in order :: d.index
  }

  predicate HooksDistinct(hooks: seq<TimeHookPeriodic>) {
    forall i, j :: 0 <= i < j < |hooks| ==> hooks[i] != hooks[j]
  }

  /** The hook states after running the hooks of the order in turn, at model time now. */
  function RunInOrder(states: seq<HookState>, order: seq<Due>, now: real): (r: seq<HookState>)
    ensures |r| == |states|
  {
    if order == [] then states
    else
      var r := RunInOrder(states, order[..|order| - 1], now);
      var i := order[|order| - 1].index;
      if i < |r| then r[i := Ran(r[i], now)] else r
  }

  /** A hook that is not in the order has not run. */
  lemma {:induction false} RunInOrderSkips(states: seq<HookState>, order: seq<Due>, now: real, i: nat)
    requires i < |states| && forall k :: 0 <= k < |order| ==> order[k].index != i
    ensures RunInOrder(states, order, now)[i] == states[i]
  {
    if order != [] {
      RunInOrderSkips(states, order[..|order| - 1], now, i);
    }
  }

  /** With distinct positions, each hook of the order runs exactly once and every other hook keeps its state. */
  lemma {:induction false} RunInOrderOnce(states: seq<HookState>, order: seq<Due>, now: real)
    requires DistinctIndices(order)
    ensures forall i :: 0 <= i < |states| ==>
      RunInOrder(states, order, now)[i] == if i in Positions(order) then Ran(states[i], now) else states[i]
  {
    if order != [] {
      var p := order[..|order| - 1];
      var d := order[|order| - 1];
      assert order == p + [d];
      assert Positions(order) == Positions(p) + {d.index};
      RunInOrderOnce(states, p, now);
    }
  }

  /** Whether a stop hook is in the order. */
  predicate AnyStops(hooks: seq<TimeHookPeriodic>, order: seq<Due>) {
    if order == [] then false
    else
      var i := order[|order| - 1].index;
      AnyStops(hooks, order[..|order| - 1]) || (i < |hooks| && hooks[i].stopsIterator)
  }

  lemma {:induction false} AnyStopsExactly(hooks: seq<TimeHookPeriodic>, order: seq<Due>)
    ensures AnyStops(hooks, order) <==>
      exists k :: 0 <= k < |order| && order[k].index < |hooks| && hooks[order[k].index].stopsIterator
  {
    if order != [] {
      var p := order[..|order| - 1];
      AnyStopsExactly(hooks, p);
      if AnyStops(hooks, p) {
        var k :| 0 <= k < |p| && p[k].index < |hooks| && hooks[p[k].index].stopsIterator;
        assert order[k] == p[k];
      }
    }
  }

  /** Taking one more entry of a firing order adds its run, its event and its stop request. */
  lemma OrderGrows(hooks: seq<TimeHookPeriodic>, states: seq<HookState>, order: seq<Due>, k: nat, now: real)
    requires k < |order|
    ensures var d, r := order[k], RunInOrder(states, order[..k], now);
      && AnyStops(hooks, order[..k + 1]) == (AnyStops(hooks, order[..k]) || (d.index < |hooks| && hooks[d.index].stopsIterator))
      && HookEvents(order[..k + 1], now) == HookEvents(order[..k], now) + [HookRan(d.index, now, d.time)]
      && RunInOrder(states, order[..k + 1], now) == if d.index < |r| then r[d.index := Ran(r[d.index], now)] else r
  {
    assert order[..k + 1][..k] == order[..k];
  }

  /** A stop hook is among those whose next run time is at or before now. */
  predicate StopDue(hooks: seq<TimeHookPeriodic>, times: seq<real>, now: real)
    requires |times| == |hooks|
  {
    exists i :: 0 <= i < |hooks| && hooks[i].stopsIterator && times[i] <= now
  }

  /** Running the firing order fires every hook that is due once and leaves the others alone. */
  lemma FiredInOrder(states: seq<HookState>, times: seq<real>, now: real)
    requires |times| == |states| && forall i :: 0 <= i < |states| ==> times[i] == states[i].nextRun
    ensures forall i :: 0 <= i < |states| ==> RunInOrder(states, FiringOrder(times, now), now)[i] == Fired(states[i], now)
  {
    var order := FiringOrder(times, now);
    FiringOrderCorrect(times, now);
    RunInOrderOnce(states, order, now);
    forall i | 0 <= i < |states|
      ensures i in Positions(order) <==> times[i] <= now
    {
      if times[i] <= now {
        assert Due(times[i], i) in order;
      }
    }
  }

  /** Each hook in the firing order is named once, by a valid position, with its next run time. */
  lemma FiringOrderNamesDueHooks(times: seq<real>, now: real)
    ensures var o := FiringOrder(times, now);
      DistinctIndices(o) && forall d | d in o :: d.index < |times| && times[d.index] == d.time
  {
    FiringOrderCorrect(times, now);
  }

  /** A stop hook fires exactly when one is due. */
  lemma StopsInOrder(hooks: seq<TimeHookPeriodic>, times: seq<real>, now: real)
    requires |times| == |hooks|
    ensures AnyStops(hooks, FiringOrder(times, now)) <==> StopDue(hooks, times, now)
  {
    var order := FiringOrder(times, now);
    FiringOrderCorrect(times, now);
    AnyStopsExactly(hooks, order);
    if StopDue(hooks, times, now) {
      var i :| 0 <= i < |hooks| && hooks[i].stopsIterator && times[i] <= now;
      assert Due(times[i], i) in order;
      var k :| 0 <= k < |order| && order[k] == Due(times[i], i);
    }
  }

  /** The running minimum of find_next_hook: the first position holding the earliest time. */
  method Earliest(times: seq<real>) returns (index: nat, time: real)
    requires |times| > 0
    ensures index < |times| && time == times[index]
    ensures forall i :: 0 <= i < |times| ==> time <= times[i]
    ensures forall i :: 0 <= i < index ==> time < times[i]
  {
    time := times[0];
    index := 0;
    var i := 1;
    while i < |times|
      invariant 1 <= i <= |times| && index < i && time == times[index]
      invariant forall j :: 0 <= j < i ==> time <= times[j]
      invariant forall j :: 0 <= j < index ==> time < times[j]
    {
      var candidate := times[i];
      if candidate < time {
        index := i;
        time := candidate;
      }
      i := i + 1;
    }
  }

  /** The sum of the steps in a log. */
  function Sum(steps: seq<real>): real {
    if steps == [] then 0.0 else Sum(steps[..|steps| - 1]) + steps[|steps| - 1]
  }

  /** Every step in a log is positive. */
  predicate Positive(steps: seq<real>) {
    steps == [] || (Positive(steps[..|steps| - 1]) && steps[|steps| - 1] > 0.0)
  }

  lemma PositiveAppend(steps: seq<real>, d: real)
    requires Positive(steps) && d > 0.0
    ensures Positive(steps + [d])
  {
    assert (steps + [d])[..|steps|] == steps;
  }

  lemma {:induction false} PositiveAll(steps: seq<real>)
    requires Positive(steps)
    ensures forall k :: 0 <= k < |steps| ==> steps[k] > 0.0
  {
    if steps != [] {
      PositiveAll(steps[..|steps| - 1]);
    }
  }

  lemma SumAppend(steps: seq<real>, d: real)
    ensures Sum(steps + [d]) == Sum(steps) + d
  {
    assert (steps + [d])[..|steps|] == steps;
  }

  // ---------------------------------------------------------------------
  // The iterator

  /** The value view of the iterator's own fields. */
  datatype IteratorState = IteratorState(
    time: real, stopTime: real, dt: real, bifurcationPeriod: real, lastBifurcationTime: real,
    nextHookTime: real, nextHook: nat, needStop: bool, pars: StepAdjustmentParameters,
    variable: Option<VariableScalar>, rhs: Option<RhsScalar>, integrator: Option<IntegrationMethod>,
    estimator: Option<RungeErrorEstimator>, hasBifurcator: bool, hooks: seq<TimeHookPeriodic>,
    metrics: IteratingMetrics, events: seq<Event>)

  /** call_hook: the stop flag is raised if a stop hook fired, and the hook events are recorded. */
  function HooksCalled(s: IteratorState, order: seq<Due>, stop: bool): IteratorState {
    s.(needStop := s.needStop || stop, events := s.events + HookEvents(order, s.time))
  }

  /** bifurcate_iteration fires when a bifurcator is set and the period is 0 or has elapsed since the last run. */
  predicate BifurcationDue(s: IteratorState) {
    (s.bifurcationPeriod == 0.0 || s.time - s.lastBifurcationTime >= s.bifurcationPeriod) && s.hasBifurcator
  }

  /** bifurcate_iteration: prepare, then do, both at (time, time - last); then last = time. */
  function Bifurcated(s: IteratorState): IteratorState {
    if BifurcationDue(s) then
      var gap := s.time - s.lastBifurcationTime;
      s.(lastBifurcationTime := s.time,
         events := s.events + [BifurcationPrepared(s.time, gap), BifurcationDone(s.time, gap)])
    else s
  }

  /**
   * The iterator's fields after a completed iterate: hooks, the step a,
   * bifurcation, then the step taken is logged, time advances by it and the
   * proposed step becomes current.
   */
  function AfterIteration(s: IteratorState, order: seq<Due>, stop: bool, a: Advance): IteratorState {
    Proceeded(HooksCalled(s, order, stop), a)
  }

  /** What follows call_hook in iterate: the step a is taken, bifurcation runs, the step is logged and time moves on. */
  function Proceeded(s: IteratorState, a: Advance): IteratorState {
    Bifurcated(s).(
      metrics := IteratingMetrics(s.metrics.timeStepsLog + [a.used], a.maxHits, a.minHits),
      time := s.time + a.used,
      dt := a.next)
  }

  /**
   * Each completed iteration logs exactly one step, advances time by
   * exactly that step, and keeps the stop time, the parameters and the
   * collaborators; a bifurcation leaves the last-bifurcation time at the
   * time the iteration started.
   */
  lemma IterationBookkeeping(s: IteratorState, order: seq<Due>, stop: bool, a: Advance)
    ensures var r := AfterIteration(s, order, stop, a);
      && r.metrics.timeStepsLog == s.metrics.timeStepsLog + [a.used]
      && r.time - s.time == r.metrics.timeStepsLog[|r.metrics.timeStepsLog| - 1]
      && Sum(r.metrics.timeStepsLog) - Sum(s.metrics.timeStepsLog) == r.time - s.time
      && r.dt == a.next && r.needStop == (s.needStop || stop)
      && r.stopTime == s.stopTime && r.pars == s.pars && r.hooks == s.hooks
      && r.variable == s.variable && r.rhs == s.rhs && r.integrator == s.integrator && r.estimator == s.estimator
      && (BifurcationDue(s) <==> r.lastBifurcationTime == s.time && |r.events| == |s.events| + |order| + 2)
      && (!BifurcationDue(s) ==> r.lastBifurcationTime == s.lastBifurcationTime && |r.events| == |s.events| + |order|)
  {
    var log := s.metrics.timeStepsLog + [a.used];
    assert log[..|log| - 1] == s.metrics.timeStepsLog;
  }

  /**
   * From s to r the iterator logged one step of at least lo and moved time
   * on by that step, and can go on with a next step of at least lo.
   */
  predicate Progressed(s: IteratorState, r: IteratorState, lo: real) {
    && r.pars == s.pars && CanProgress(r.pars, r.dt) && lo <= r.dt && r.time - s.time >= lo
    && r.metrics.timeStepsLog == s.metrics.timeStepsLog + [r.time - s.time]
  }

  /** A completed iteration makes progress in run's sense. */
  lemma IterationMakesProgress(s: IteratorState, x: real, order: seq<Due>, stop: bool, r: IteratorState, lo: real)
    requires CanStep(s) && CanProgress(s.pars, s.dt) && 0.0 < lo <= s.dt
    requires s.pars.autoStepAdjustment ==> lo <= s.pars.minStepLimit && lo <= s.pars.maxStepLimit
    requires r == AfterIteration(s, order, stop, IterationStep(s, x))
    ensures Progressed(s, r, lo)
  {
    IterationProgress(s, x, lo);
  }

  /** The collaborators integrate_iteration needs are set, and the adaptive loop, if on, ends. */
  predicate CanStep(s: IteratorState) {
    s.rhs.Some? && s.integrator.Some? && (s.pars.autoStepAdjustment ==> Terminates(s.pars, s.dt))
  }

  /** What the step of an iteration depends on. */
  datatype StepInput = StepInput(pars: StepAdjustmentParameters, integrator: IntegrationMethod, f: (real, real) -> real,
                                 x: real, time: real, dt: real, minHits: nat, maxHits: nat)
  {
    /** With adjustment on, the adaptive loop ends. */
    predicate Ends() {
      pars.autoStepAdjustment ==> Terminates(pars, dt)
    }
  }

  /**
   * The step integrate_iteration takes: the estimator's errors and the
   * integrator's deltas for the chosen method and right-hand side on an
   * entry holding x at the given time.
   */
  ghost function StepFrom(i: StepInput): Advance
    requires i.Ends()
  {
    Integrated(i.pars, ErrorsAt(i.integrator, i.f, i.x, i.time), DeltasAt(i.integrator, i.f, i.x, i.time), i.x, i.dt, i.minHits, i.maxHits)
  }

  /** StepFrom as a function value, for every input (a placeholder step where it is not defined). */
  ghost function Steps(): (step: StepInput -> Advance)
    ensures forall i: StepInput {:trigger StepFrom(i)} :: i.Ends() ==> step(i) == StepFrom(i)
  {
    var e: StepInput -> Advance := (i: StepInput) => if i.Ends() then StepFrom(i) else Advance(i.dt, i.dt, i.x, 0, 0);
    assert forall i: StepInput :: i.Ends() ==> e(i) == StepFrom(i);
    var g: StepInput -> Advance :| forall i: StepInput {:trigger StepFrom(i)} :: i.Ends() ==> g(i) == StepFrom(i);
    g
  }

  /** The inputs of the step from state s on an entry holding x. */
  function InputOf(s: IteratorState, x: real): StepInput
    requires CanStep(s)
  {
    StepInput(s.pars, s.integrator.value, s.rhs.value.f, x, s.time, s.dt, s.metrics.minStepLimitations, s.metrics.maxStepLimitations)
  }

  /**
   * The step of an iteration from state s on an entry holding x, as the
   * iterator's contracts name it.  It is StepFrom (IterationStepIs),
   * reached through a function value so that the proofs which only pass a
   * step along do not unfold the adaptive loop.
   */
  ghost function IterationStep(s: IteratorState, x: real): Advance
    requires CanStep(s)
  {
    Steps()(InputOf(s, x))
  }

  lemma IterationStepIs(s: IteratorState, x: real)
    requires CanStep(s)
    ensures IterationStep(s, x) == StepFrom(InputOf(s, x))
  {
  }

  /** IntegratedProgress for the step of an iteration. */
  lemma IterationProgress(s: IteratorState, x: real, lo: real)
    requires CanStep(s) && CanProgress(s.pars, s.dt) && 0.0 < lo <= s.dt
    requires s.pars.autoStepAdjustment ==> lo <= s.pars.minStepLimit && lo <= s.pars.maxStepLimit
    ensures var a := IterationStep(s, x);
      a.used >= lo && a.next >= lo && CanProgress(s.pars, a.next)
  {
    var m, f := s.integrator.value, s.rhs.value.f;
    IterationStepIs(s, x);
    IntegratedProgress(s.pars, ErrorsAt(m, f, x, s.time), DeltasAt(m, f, x, s.time), x, s.dt,
                       s.metrics.minStepLimitations, s.metrics.maxStepLimitations, lo);
  }

  /** The step depends on the parameters, the collaborators, the time, the step and the counters only. */
  lemma IterationStepFrame(s: IteratorState, r: IteratorState, x: real)
    requires CanStep(s)
    requires r == s.(needStop := r.needStop, events := r.events)
    ensures CanStep(r) && IterationStep(r, x) == IterationStep(s, x)
  {
    IterationStepIs(s, x);
    IterationStepIs(r, x);
  }

  /**
   * Taking the step (the current step and the counters), then bifurcating,
   * logging the step and moving time on, is Proceeded.
   */
  lemma ProceededComposes(s: IteratorState, a: Advance, b: IteratorState)
    requires b == s.(dt := a.used, metrics := s.metrics.(minStepLimitations := a.minHits, maxStepLimitations := a.maxHits))
    ensures Bifurcated(b).(metrics := b.metrics.(timeStepsLog := b.metrics.timeStepsLog + [b.dt]), time := b.time + b.dt, dt := a.next)
         == Proceeded(s, a)
  {
  }

  // ---------------------------------------------------------------------
  // What run does, iteration by iteration

  /** The next run times of the given hook states, in list order. */
  function Times(hooks: seq<HookState>): (times: seq<real>)
    ensures |times| == |hooks| && forall i :: 0 <= i < |hooks| ==> times[i] == hooks[i].nextRun
  {
    seq(|hooks|, i requires 0 <= i < |hooks| => hooks[i].nextRun)
  }

  /** What run's loop sees between two iterations: the model time, the stop flag and the hooks' states. */
  datatype RunPoint = RunPoint(time: real, needStop: bool, hooks: seq<HookState>)

  /**
   * One iteration of run's loop, over the given hooks and stop time, took
   * p to q: it began before the stop time with no stop requested, fired
   * the hooks due then, raised the stop flag exactly when a stop hook was
   * among them, and moved time on.
   */
  ghost predicate RunIteration(hooks: seq<TimeHookPeriodic>, stopTime: real, p: RunPoint, q: RunPoint) {
    && p.time < stopTime && !p.needStop
    && |p.hooks| == |hooks| && |q.hooks| == |hooks|
    && (forall i :: 0 <= i < |hooks| ==> q.hooks[i] == Fired(p.hooks[i], p.time))
    && q.needStop == StopDue(hooks, Times(p.hooks), p.time)
    && q.time > p.time
  }

  /** Each point of a trace follows from the one before it by one iteration of run's loop. */
  ghost predicate Chained(hooks: seq<TimeHookPeriodic>, stopTime: real, trace: seq<RunPoint>) {
    |trace| <= 1 || (Chained(hooks, stopTime, trace[..|trace| - 1]) && RunIteration(hooks, stopTime, trace[|trace| - 2], trace[|trace| - 1]))
  }

  lemma {:induction false} ChainedAll(hooks: seq<TimeHookPeriodic>, stopTime: real, trace: seq<RunPoint>)
    requires Chained(hooks, stopTime, trace)
    ensures forall k :: 0 <= k < |trace| - 1 ==> RunIteration(hooks, stopTime, trace[k], trace[k + 1])
  {
    if |trace| > 1 {
      var init := trace[..|trace| - 1];
      ChainedAll(hooks, stopTime, init);
      forall k | 0 <= k < |trace| - 2
        ensures RunIteration(hooks, stopTime, trace[k], trace[k + 1])
      {
        assert trace[k] == init[k] && trace[k + 1] == init[k + 1];
      }
    }
  }

  lemma ChainedAppend(hooks: seq<TimeHookPeriodic>, stopTime: real, trace: seq<RunPoint>, q: RunPoint)
    requires Chained(hooks, stopTime, trace) && |trace| > 0 && RunIteration(hooks, stopTime, trace[|trace| - 1], q)
    ensures var t := trace + [q]; Chained(hooks, stopTime, t) && |t| == |trace| + 1 && t[0] == trace[0] && t[|t| - 1] == q
  {
    assert (trace + [q])[..|trace|] == trace;
  }

  /**
   * Within a run, every iteration but the last ends before the stop time
   * and finds no stop hook due: once one is due, the stop flag is up and
   * no further iteration starts.
   */
  lemma OnlyLastIterationStops(hooks: seq<TimeHookPeriodic>, stopTime: real, trace: seq<RunPoint>, k: nat)
    requires forall j :: 0 <= j < |trace| - 1 ==> RunIteration(hooks, stopTime, trace[j], trace[j + 1])
    requires k + 2 < |trace|
    ensures |trace[k].hooks| == |hooks| && !StopDue(hooks, Times(trace[k].hooks), trace[k].time)
    ensures trace[k + 1].time < stopTime
  {
    assert RunIteration(hooks, stopTime, trace[k], trace[k + 1]);
    assert RunIteration(hooks, stopTime, trace[k + 1], trace[k + 2]);
  }

  class TimeIterator {
    var time: real
    var stopTime: real
    var dt: real
    var bifurcationPeriod: real
    var lastBifurcationTime: real
    var nextHookTime: real
    var nextHook: nat
    var needStop: bool
    var pars: StepAdjustmentParameters
    var variable: Option<VariableScalar>
    var rhs: Option<RhsScalar>
    var integrator: Option<IntegrationMethod>
    var estimator: Option<RungeErrorEstimator>
    /** Whether a bifurcator is set; its two calls are recorded as events. */
    var hasBifurcator: bool
    var hooks: seq<TimeHookPeriodic>
    var metrics: IteratingMetrics
    var events: seq<Event>

    function State(): IteratorState
      reads this
    {
      IteratorState(time, stopTime, dt, bifurcationPeriod, lastBifurcationTime, nextHookTime, nextHook, needStop,
                    pars, variable, rhs, integrator, estimator, hasBifurcator, hooks, metrics, events)
    }

    function EstimatorObjects(): set<object>
      reads this`estimator
    {
      if estimator.Some? then {estimator.value} else {}
    }

    /** Everything an iteration may change besides the iterator itself. */
    function Objects(): set<object>
      reads this`variable, this`rhs, this`estimator, this`hooks
    {
      (if variable.Some? then {variable.value} else {})
      + (if rhs.Some? then {rhs.value} else {})
      + EstimatorObjects()
      + set h | h in hooks
    }

    /** The estimator is well formed and each hook is registered once. */
    ghost predicate Valid()
      reads this`estimator, this`hooks, EstimatorObjects()
    {
      && (estimator.Some? ==> estimator.value.Valid())
      && HooksDistinct(hooks)
    }

    /** The right-hand side computes the derivative of the variable the iterator steps. */
    predicate Wired()
      reads this`variable, this`rhs
    {
      variable.Some? && rhs.Some? ==> rhs.value.scalar == variable.value
    }

    /** The next run times of the hooks, in list order. */
    function NextTimes(): (times: seq<real>)
      reads this, set h | h in hooks
      ensures |times| == |hooks|
      ensures forall i :: 0 <= i < |hooks| ==> times[i] == hooks[i].nextRun
    {
      var hs := hooks;
      seq(|hs|, i requires 0 <= i < |hs| reads hs => hs[i].nextRun)
    }

    /** The iterator as run's loop sees it between iterations. */
    function Point(): RunPoint
      reads this`time, this`needStop, this`hooks, set h | h in hooks
    {
      RunPoint(time, needStop, HookStates())
    }

    /** A PeriodicStopHook is among the hooks due at the current time. */
    predicate StopHookDue()
      reads this, set h | h in hooks
    {
      StopDue(hooks, NextTimes(), time)
    }

    /** The default member initialisers: time 0, stop time 1, step 0.01, bifurcation every iteration, nothing attached. */
    constructor ()
      ensures State() == IteratorState(0.0, 1.0, 0.01, 0.0, 0.0, 0.0, 0, false, DefaultParameters,
                                       None, None, None, None, false, [], NewMetrics, [])
      ensures Valid() && Wired()
    {
      time, stopTime, dt := 0.0, 1.0, 0.01;
      bifurcationPeriod, lastBifurcationTime := 0.0, 0.0;
      nextHookTime, nextHook, needStop := 0.0, 0, false;
      pars := DefaultParameters;
      variable, rhs, integrator, estimator, hasBifurcator := None, None, None, None, false;
      hooks, metrics, events := [], NewMetrics, [];
    }

    method SetVariable(v: VariableScalar)
      modifies this
      ensures State() == old(State()).(variable := Some(v))
    {
      variable := Some(v);
    }

    method SetRhs(r: RhsScalar)
      modifies this
      ensures State() == old(State()).(rhs := Some(r))
    {
      rhs := Some(r);
    }

    /** set_continious_iterator */
    method SetIntegrator(m: IntegrationMethod)
      modifies this
      ensures State() == old(State()).(integrator := Some(m))
    {
      integrator := Some(m);
    }

    method SetErrorEstimator(e: RungeErrorEstimator)
      requires e.Valid()
      modifies this
      ensures State() == old(State()).(estimator := Some(e))
      ensures Valid() <==> HooksDistinct(hooks)
    {
      estimator := Some(e);
    }

    method SetBifurcator(present: bool)
      modifies this
      ensures State() == old(State()).(hasBifurcator := present)
    {
      hasBifurcator := present;
    }

    /** The writes a caller makes through the reference step_adj_pars() returns. */
    method SetStepAdjustmentParameters(p: StepAdjustmentParameters)
      modifies this
      ensures State() == old(State()).(pars := p)
    {
      pars := p;
    }

    /** set_time: only the last-bifurcation time is set; model time does not move. */
    method SetTime(t: real)
      modifies this
      ensures State() == old(State()).(lastBifurcationTime := t)
    {
      lastBifurcationTime := t;
    }

    method SetBifurcationRunPeriod(period: real)
      modifies this
      ensures State() == old(State()).(bifurcationPeriod := period)
    {
      bifurcationPeriod := period;
    }

    method SetStopTime(t: real)
      modifies this
      ensures State() == old(State()).(stopTime := t)
    {
      stopTime := t;
    }

    method SetStep(step: real)
      modifies this
      ensures State() == old(State()).(dt := step)
    {
      dt := step;
    }

    /** is_done: model time has reached the stop time. */
    predicate IsDone()
      reads this`time, this`stopTime
    {
      time >= stopTime
    }

    /** stop: the current iteration is finished, then run returns. */
    method Stop()
      modifies this`needStop
      ensures State() == old(State()).(needStop := true)
    {
      needStop := true;
    }

    /** reset_metrics: an empty log and both counters at zero. */
    method ResetMetrics()
      modifies this
      ensures State() == old(State()).(metrics := NewMetrics)
      ensures metrics.timeStepsLog == [] && metrics.maxStepLimitations == 0 && metrics.minStepLimitations == 0
    {
      metrics := NewMetrics;
    }

    /** assert_pointers_are_set: the exception thrown, checking the variable, the RHS and the integrator in that order. */
    function MissingPointer(): (r: Option<Failure>)
      reads this`variable, this`rhs, this`integrator
      ensures r.None? <==> variable.Some? && rhs.Some? && integrator.Some?
      ensures r == Some(VariableNotSet) <==> variable.None?
      ensures r == Some(RhsNotSet) <==> variable.Some? && rhs.None?
      ensures r == Some(IntegratorNotSet) <==> variable.Some? && rhs.Some? && integrator.None?
    {
      if variable.None? then Some(VariableNotSet)
      else if rhs.None? then Some(RhsNotSet)
      else if integrator.None? then Some(IntegratorNotSet)
      else None
    }

    /**
     * find_next_hook: with no hooks nothing changes; otherwise the first
     * hook with the earliest next run time is selected.
     */
    method FindNextHook()
      modifies this
      ensures hooks == [] ==> State() == old(State())
      ensures hooks != [] ==> State() == old(State()).(nextHook := nextHook, nextHookTime := nextHookTime)
      ensures hooks != [] ==>
        && nextHook < |hooks| && nextHookTime == hooks[nextHook].nextRun
        && (forall i :: 0 <= i < |hooks| ==> nextHookTime <= hooks[i].nextRun)
        && (forall i :: 0 <= i < nextHook ==> nextHookTime < hooks[i].nextRun)
    {
      if hooks == [] {
        return;
      }
      nextHook, nextHookTime := Earliest(NextTimes());
    }

    /** add_hook: append the hook and select the next one. */
    method AddHook(h: TimeHookPeriodic)
      requires Valid() && h !in hooks
      modifies this
      ensures Valid() && hooks == old(hooks) + [h]
      ensures State() == old(State()).(hooks := hooks, nextHook := nextHook, nextHookTime := nextHookTime)
      ensures nextHook < |hooks| && nextHookTime == hooks[nextHook].nextRun
      ensures forall i :: 0 <= i < |hooks| ==> nextHookTime <= hooks[i].nextRun
      ensures forall i :: 0 <= i < nextHook ==> nextHookTime < hooks[i].nextRun
    {
      hooks := hooks + [h];
      FindNextHook();
    }

    /** The first loop of call_hook: the hooks due now, with their next run times, in list order. */
    method CollectDue() returns (due: seq<Due>)
      ensures due == DueAmong(NextTimes(), time, |hooks|)
    {
      due := [];
      var i := 0;
      while i < |hooks|
        invariant 0 <= i <= |hooks|
        invariant due == DueAmong(NextTimes(), time, i)
      {
        var t := hooks[i].GetNextTime();
        if t <= time {
          due := due + [Due(t, i)];
        }
        i := i + 1;
      }
    }

    /** The hooks' own states, in list order. */
    function HookStates(): (r: seq<HookState>)
      reads this`hooks, set h | h in hooks
      ensures |r| == |hooks|
      ensures forall i :: 0 <= i < |hooks| ==> r[i] == hooks[i].State()
    {
      var hs := hooks;
      seq(|hs|, i requires 0 <= i < |hs| reads hs => hs[i].State())
    }

    /** One pass of the last loop of call_hook: the hook at d.index runs, and a stop hook stops the iterator. */
    method FireOne(d: Due)
      requires d.index < |hooks| && HooksDistinct(hooks)
      modifies this`needStop, this`events, hooks[d.index]
      ensures needStop == (old(needStop) || hooks[d.index].stopsIterator)
      ensures events == old(events) + [HookRan(d.index, time, old(hooks[d.index].nextRun))]
      ensures HookStates() == old(HookStates())[d.index := Ran(old(hooks[d.index].State()), time)]
    {
      var h := hooks[d.index];
      var wanted := h.RunHook(time);
      events := events + [HookRan(d.index, time, wanted)];
      if h.stopsIterator {
        Stop();
      }
    }

    /**
     * The last loop of call_hook: run each hook of the order once, at the
     * current time, handing it the time it was due.
     */
    method FireAll(order: seq<Due>, ghost times: seq<real>)
      requires HooksDistinct(hooks) && DistinctIndices(order) && times == NextTimes()
      requires forall d | d in order :: d.index < |times| && times[d.index] == d.time
      modifies this`needStop, this`events, set h | h in hooks
      ensures needStop == (old(needStop) || AnyStops(hooks, order))
      ensures events == old(events) + HookEvents(order, time)
      ensures HookStates() == RunInOrder(old(HookStates()), order, time)
    {
      ghost var states := HookStates();
      assert forall d | d in order :: d.index < |states| && states[d.index].nextRun == d.time;
      assert order[..0] == [];
      var k := 0;
      while k < |order|
        invariant FiredUpTo(states, order, k, old(needStop), old(events))
      {
        FireNext(states, order, k, old(needStop), old(events));
        k := k + 1;
      }
      assert order[..k] == order;
    }

    /** After the first k hooks of the order have fired, starting from the given stop flag, events and hook states. */
    ghost predicate FiredUpTo(states: seq<HookState>, order: seq<Due>, k: nat, stop0: bool, events0: seq<Event>)
      reads this`needStop, this`events, this`hooks, this`time, set h | h in hooks
    {
      && k <= |order| && |states| == |hooks|
      && needStop == (stop0 || AnyStops(hooks, order[..k]))
      && events == events0 + HookEvents(order[..k], time)
      && HookStates() == RunInOrder(states, order[..k], time)
    }

    /** One pass of the last loop of call_hook, as that loop sees it. */
    method FireNext(ghost states: seq<HookState>, order: seq<Due>, k: nat, ghost stop0: bool, ghost events0: seq<Event>)
      requires HooksDistinct(hooks) && DistinctIndices(order) && k < |order|
      requires forall d | d in order :: d.index < |states| && states[d.index].nextRun == d.time
      requires FiredUpTo(states, order, k, stop0, events0)
      modifies this`needStop, this`events, hooks[order[k].index]
      ensures FiredUpTo(states, order, k + 1, stop0, events0)
    {
      var d := order[k];
      RunInOrderSkips(states, order[..k], time, d.index);
      FireOne(d);
      OrderGrows(hooks, states, order, k, time);
    }

    /**
     * call_hook: the hooks due at the current time, each once, in
     * non-decreasing order of the time they were due; each runs with the
     * current time and then moves on by one period.
     */
    method CallHook()
      requires HooksDistinct(hooks)
      modifies this`needStop, this`events, set h | h in hooks
      ensures needStop == (old(needStop) || old(StopHookDue()))
      ensures events == old(events) + HookEvents(FiringOrder(old(NextTimes()), time), time)
      ensures forall i {:trigger hooks[i].State()} :: 0 <= i < |hooks| ==> hooks[i].State() == Fired(old(hooks[i].State()), time)
    {
      ghost var states := HookStates();
      ghost var times := NextTimes();
      var due := CollectDue();
      var order := SortByTime(due);
      assert order == FiringOrder(times, time);
      FiringOrderNamesDueHooks(times, time);
      FireAll(order, times);
      FiredInOrder(states, times, time);
      StopsInOrder(hooks, times, time);
      assert old(StopHookDue()) == StopDue(hooks, times, time);
      forall i | 0 <= i < |hooks|
        ensures hooks[i].State() == Fired(old(hooks[i].State()), time)
      {
        assert hooks[i].State() == HookStates()[i] && old(hooks[i].State()) == states[i];
      }
    }

    /**
     * integrate_iteration, adaptive part: the do-while loop of trial steps,
     * proved to compute the outcome of the adaptive loop.
     */
    method AdaptiveLoop(est: RungeErrorEstimator, v: VariableScalar, r: RhsScalar, m: IntegrationMethod,
                        ghost errAt: real -> IntegrationError, ghost deltaAt: real -> real)
      returns (next: real, ghost s: Trial)
      requires est.Valid() && est.integrator == Some(m) && r.scalar == v && IsCleared(v.State())
      requires Terminates(pars, dt) && Measures(errAt, deltaAt, m, r.f, v.previous, time)
      modifies this`dt, this`metrics, est, v, r
      ensures s == Adapted(old(pars), errAt, Start(old(dt), old(metrics.minStepLimitations), old(metrics.maxStepLimitations)))
      ensures dt == s.dt && next == s.next
      ensures metrics == old(metrics).(minStepLimitations := s.minHits, maxStepLimitations := s.maxHits)
      ensures est.Valid() && est.integrator == Some(m)
      ensures v.previous == old(v.previous)
      ensures v.delta == if s.floored then 0.0 else deltaAt(s.dt)
    {
      var t := TrialLoop(pars, est, v, r, m, time, dt, metrics.minStepLimitations, metrics.maxStepLimitations, errAt, deltaAt);
      s, next := t, t.next;
      dt := t.dt;
      metrics := metrics.(minStepLimitations := t.minHits, maxStepLimitations := t.maxHits);
    }

    /**
     * integrate_iteration: throws when adjustment is on without an
     * estimator; otherwise clears the sub-iteration, computes the delta with
     * the fixed step or through the adaptive loop, commits it, and returns
     * the step proposed for the next iteration.
     */
    method IntegrateIteration() returns (next: real, o: Outcome)
      requires Valid() && Wired() && variable.Some? && rhs.Some? && integrator.Some?
      requires pars.autoStepAdjustment ==> Terminates(pars, dt)
      modifies this`dt, this`metrics, variable.value, rhs.value, EstimatorObjects()
      ensures Valid()
      ensures o.Thrown? <==> pars.autoStepAdjustment && estimator.None?
      ensures o.Thrown? ==> o.failure == EstimatorNotSet && dt == old(dt) && metrics == old(metrics)
                            && variable.value.State() == old(variable.value.State())
                            && rhs.value.calls == old(rhs.value.calls)
      ensures o.Completed? ==>
        var a := IterationStep(old(State()), old(variable.value.previous));
        && dt == a.used && next == a.next
        && metrics == old(metrics).(minStepLimitations := a.minHits, maxStepLimitations := a.maxHits)
        && variable.value.previous == a.value && IsCleared(variable.value.State())
      ensures o.Completed? && !pars.autoStepAdjustment ==>
        rhs.value.calls == old(rhs.value.calls) + Calls(integrator.value, time, old(dt))
    {
      if pars.autoStepAdjustment && estimator.None? {
        return dt, Thrown(EstimatorNotSet);
      }
      IterationStepIs(State(), variable.value.previous);
      o := Completed;
      next := dt;
      var v, r, m := variable.value, rhs.value, integrator.value;
      v.ClearSubiteration();
      if pars.autoStepAdjustment {
        var est := estimator.value;
        est.SetIntegrator(m);
        ghost var s;
        next, s := AdaptiveLoop(est, v, r, m, ErrorsAt(m, r.f, v.previous, time), DeltasAt(m, r.f, v.previous, time));
        v.Step();
      } else {
        CalculateDelta(m, v, r, time, dt);
        ClearedAdvance(m, r.f, Cleared(old(v.State())), time, dt);
        v.Step();
      }
    }

    /** bifurcate_iteration */
    method BifurcateIteration()
      modifies this`events, this`lastBifurcationTime
      ensures State() == Bifurcated(old(State()))
    {
      if (bifurcationPeriod == 0.0 || time - lastBifurcationTime >= bifurcationPeriod) && hasBifurcator {
        var gap := time - lastBifurcationTime;
        events := events + [BifurcationPrepared(time, gap)];
        events := events + [BifurcationDone(time, gap)];
        lastBifurcationTime := time;
      }
    }

    /**
     * iterate.  A missing collaborator throws before anything happens; a
     * missing estimator with adjustment on throws after the due hooks have
     * fired; otherwise the iteration completes as AfterIteration says.
     */
    method Iterate() returns (o: Outcome)
      requires Valid() && Wired()
      requires pars.autoStepAdjustment ==> Terminates(pars, dt)
      modifies this`needStop, this`events, this`dt, this`metrics, this`lastBifurcationTime, this`time, Objects()
      ensures Valid()
      ensures old(MissingPointer()).Some? ==>
        && o == Thrown(old(MissingPointer()).value) && State() == old(State())
        && forall i {:trigger hooks[i].State()} :: 0 <= i < |hooks| ==> hooks[i].State() == old(hooks[i].State())
      ensures old(MissingPointer()).None? ==>
        forall i {:trigger hooks[i].State()} :: 0 <= i < |hooks| ==> hooks[i].State() == Fired(old(hooks[i].State()), old(time))
      ensures old(MissingPointer()).None? && pars.autoStepAdjustment && estimator.None? ==>
        && o == Thrown(EstimatorNotSet)
        && State() == HooksCalled(old(State()), FiringOrder(old(NextTimes()), old(time)), old(StopHookDue()))
      ensures o.Completed? <==> old(MissingPointer()).None? && !(pars.autoStepAdjustment && estimator.None?)
      ensures o.Completed? ==>
        var a := IterationStep(old(State()), old(variable.value.previous));
        && State() == AfterIteration(old(State()), FiringOrder(old(NextTimes()), old(time)), old(StopHookDue()), a)
        && variable.value.previous == a.value && IsCleared(variable.value.State())
    {
      var missing := MissingPointer();
      if missing.Some? {
        return Thrown(missing.value);
      }
      ghost var s0, x := State(), variable.value.previous;
      CallHook();
      IterationStepFrame(s0, State(), x);
      o := StepIteration();
    }

    /** The part of iterate after call_hook: integrate_iteration, bifurcate_iteration, then the log and the clock. */
    method StepIteration() returns (o: Outcome)
      requires Valid() && Wired() && MissingPointer().None?
      requires pars.autoStepAdjustment ==> Terminates(pars, dt)
      modifies this`events, this`dt, this`metrics, this`lastBifurcationTime, this`time, variable.value, rhs.value, EstimatorObjects()
      ensures Valid()
      ensures o.Thrown? <==> pars.autoStepAdjustment && estimator.None?
      ensures o.Thrown? ==> o == Thrown(EstimatorNotSet) && State() == old(State())
      ensures o.Completed? ==>
        var a := IterationStep(old(State()), old(variable.value.previous));
        && State() == Proceeded(old(State()), a)
        && variable.value.previous == a.value && IsCleared(variable.value.State())
    {
      ghost var s0, x := State(), variable.value.previous;
      var next;
      next, o := IntegrateIteration();
      if o.Thrown? {
        return;
      }
      ProceededComposes(s0, IterationStep(s0, x), State());
      FinishIteration(next);
    }

    /** The end of iterate: bifurcate_iteration, then the step is logged, time moves on and the next step is taken up. */
    method FinishIteration(next: real)
      modifies this`events, this`lastBifurcationTime, this`metrics, this`time, this`dt
      ensures var b := old(State());
        State() == Bifurcated(b).(metrics := b.metrics.(timeStepsLog := b.metrics.timeStepsLog + [b.dt]), time := b.time + b.dt, dt := next)
    {
      BifurcateIteration();
      metrics := metrics.(timeStepsLog := metrics.timeStepsLog + [dt]);
      time := time + dt;
      dt := next;
    }

    /**
     * What run's loop keeps: the iterator is well formed and can make
     * progress with steps of at least lo, and since the run started the log
     * has gained the positive steps taken, which add up to the time that
     * has passed.
     */
    ghost predicate Running(lo: real, log0: seq<real>, t0: real, steps: seq<real>)
      reads this`pars, this`dt, this`metrics, this`time, this`estimator, this`hooks, EstimatorObjects()
    {
      && Valid() && CanProgress(pars, dt) && 0.0 < lo <= dt
      && (pars.autoStepAdjustment ==> lo <= pars.minStepLimit && lo <= pars.maxStepLimit)
      && metrics.timeStepsLog == log0 + steps
      && time == t0 + Sum(steps)
      && Positive(steps)
    }

    /**
     * run: the stop flag is cleared, so a stop requested before the run
     * does not end it, then iterations run until the stop time is reached
     * or a stop is requested; an exception ends the run.  The log gains
     * the steps taken, each positive, and time has advanced by exactly
     * their sum; a run that starts before the stop time and completes takes
     * at least one step.  trace holds the time, the stop flag and the hook
     * states before each iteration and after the last: every iteration
     * began before the stop time with no stop requested, and the stop flag
     * it left is raised exactly when a stop hook was due at its start.
     */
    method Run() returns (o: Outcome, ghost steps: seq<real>, ghost trace: seq<RunPoint>)
      requires Valid() && Wired() && CanProgress(pars, dt)
      modifies this`needStop, this`events, this`dt, this`metrics, this`lastBifurcationTime, this`time, Objects()
      ensures Valid() && CanProgress(pars, dt)
      ensures o.Completed? ==> IsDone() || needStop
      ensures metrics.timeStepsLog == old(metrics.timeStepsLog) + steps
      ensures time == old(time) + Sum(steps)
      ensures forall k :: 0 <= k < |steps| ==> steps[k] > 0.0
      ensures o.Completed? && old(time) < old(stopTime) ==> |steps| > 0
      ensures |trace| == |steps| + 1 && trace[0] == old(Point()).(needStop := false)
      ensures forall k :: 0 <= k < |steps| ==> RunIteration(hooks, stopTime, trace[k], trace[k + 1])
      ensures o.Completed? ==> trace[|steps|] == Point()
      ensures o.Thrown? ==> trace[|steps|].time < stopTime && !trace[|steps|].needStop
    {
      needStop := false;
      assert Point() == old(Point()).(needStop := false);
      o, steps, trace := RunLoop();
    }

    /** The loop of run, entered with no stop requested. */
    method RunLoop() returns (o: Outcome, ghost steps: seq<real>, ghost trace: seq<RunPoint>)
      requires Valid() && Wired() && CanProgress(pars, dt) && !needStop
      modifies this`needStop, this`events, this`dt, this`metrics, this`lastBifurcationTime, this`time, Objects()
      ensures Valid() && CanProgress(pars, dt)
      ensures o.Completed? ==> IsDone() || needStop
      ensures metrics.timeStepsLog == old(metrics.timeStepsLog) + steps
      ensures time == old(time) + Sum(steps)
      ensures forall k :: 0 <= k < |steps| ==> steps[k] > 0.0
      ensures o.Completed? && old(time) < stopTime ==> |steps| > 0
      ensures |trace| == |steps| + 1 && trace[0] == old(Point())
      ensures forall k :: 0 <= k < |steps| ==> RunIteration(hooks, stopTime, trace[k], trace[k + 1])
      ensures o.Completed? ==> trace[|steps|] == Point()
      ensures o.Thrown? ==> trace[|steps|].time < stopTime && !trace[|steps|].needStop
    {
      o := Completed;
      steps := [];
      ghost var start := Point();
      trace := [start];
      ghost var log0, t0 := metrics.timeStepsLog, time;
      ghost var lo := if pars.autoStepAdjustment then Min(Min(dt, pars.minStepLimit), pars.maxStepLimit) else dt;
      ghost var budget: nat := 0;
      if time < stopTime {
        budget := EnoughSteps(lo, stopTime - time);
      }
      assert log0 + steps == log0;
      assert this !in Objects();
      while !IsDone() && !needStop
        invariant Running(lo, log0, t0, steps)
        invariant Traced(start, trace) && |trace| == |steps| + 1
        invariant o.Completed?
        invariant time < stopTime ==> stopTime - time <= Span(budget, lo)
        invariant t0 < stopTime && (IsDone() || needStop) ==> |steps| > 0
        decreases budget
      {
        ghost var left;
        o, steps, trace, left := RunStep(lo, log0, t0, steps, start, trace, budget);
        if o.Thrown? {
          break;
        }
        budget := left;
      }
      PositiveAll(steps);
      ChainedAll(hooks, stopTime, trace);
    }

    /** trace records run so far: it begins at start, each point follows from the one before, and it ends at the iterator now. */
    ghost predicate Traced(start: RunPoint, trace: seq<RunPoint>)
      reads this`time, this`needStop, this`hooks, this`stopTime, set h | h in hooks
    {
      |trace| > 0 && trace[0] == start && Chained(hooks, stopTime, trace) && trace[|trace| - 1] == Point()
    }

    /**
     * One pass of run's loop, as the loop sees it: a completed iteration
     * adds one step, of at least lo, to those taken so far; an exception
     * takes none and leaves the clock where it was.
     */
    method RunStep(ghost lo: real, ghost log0: seq<real>, ghost t0: real, ghost steps: seq<real>,
                   ghost start: RunPoint, ghost trace: seq<RunPoint>, ghost budget: nat)
      returns (o: Outcome, ghost taken: seq<real>, ghost traced: seq<RunPoint>, ghost left: nat)
      requires Wired() && Running(lo, log0, t0, steps)
      requires Traced(start, trace) && |trace| == |steps| + 1
      requires !needStop && time < stopTime && stopTime - time <= Span(budget, lo)
      modifies this`needStop, this`events, this`dt, this`metrics, this`lastBifurcationTime, this`time, Objects()
      ensures Running(lo, log0, t0, taken)
      ensures |traced| == |taken| + 1 && traced[0] == start && Chained(hooks, stopTime, traced)
      ensures o.Completed? ==> traced[|traced| - 1] == Point()
      ensures o.Thrown? ==> traced == trace && traced[|traced| - 1].time < stopTime && !traced[|traced| - 1].needStop
      ensures time < stopTime ==> stopTime - time <= Span(left, lo)
      ensures o.Completed? ==> |taken| > 0 && left < budget
    {
      o := IterateInRun(lo);
      if o.Thrown? {
        taken, traced, left := steps, trace, budget;
        return;
      }
      ghost var d := time - old(time);
      BudgetShrinks(lo, stopTime - old(time), budget, d);
      left := budget - 1;
      SumAppend(steps, d);
      PositiveAppend(steps, d);
      taken := steps + [d];
      assert log0 + taken == (log0 + steps) + [d];
      ghost var q := Point();
      ChainedAppend(hooks, stopTime, trace, q);
      traced := trace + [q];
    }

    /**
     * One pass of run's loop, with what the loop relies on: a completed
     * iteration logs one more step, of at least lo, and moves time on by
     * it; an exception changes neither the clock nor the log.
     */
    method IterateInRun(ghost lo: real) returns (o: Outcome)
      requires Valid() && Wired() && CanProgress(pars, dt) && 0.0 < lo <= dt
      requires pars.autoStepAdjustment ==> lo <= pars.minStepLimit && lo <= pars.maxStepLimit
      requires !needStop && time < stopTime
      modifies this`needStop, this`events, this`dt, this`metrics, this`lastBifurcationTime, this`time, Objects()
      ensures Valid()
      ensures o.Thrown? ==> dt == old(dt) && time == old(time) && metrics == old(metrics)
      ensures o.Completed? ==> Progressed(old(State()), State(), lo) && RunIteration(hooks, stopTime, old(Point()), Point())
    {
      ghost var p := Point();
      ghost var s, x := State(), if variable.Some? then variable.value.previous else 0.0;
      assert Times(p.hooks) == NextTimes();
      ghost var order, stop := FiringOrder(NextTimes(), time), StopHookDue();
      o := Iterate();
      if o.Thrown? {
        return;
      }
      IterationMakesProgress(s, x, order, stop, State(), lo);
    }
  }

  /**
   * The step arithmetic of one pass of integrate_iteration's do-while loop,
   * given the error reported for the current step dt0: an accepted trial
   * runs the growth test; a rejected one shrinks the step, and under the
   * floor clamps both steps to it, counts and leaves the loop at once.
   */
  method AdjustStep(p: StepAdjustmentParameters, error: IntegrationError, dt0: real, next0: real, minHits0: nat, maxHits0: nat)
    returns (ok: bool, dt: real, next: real, minHits: nat, maxHits: nat, floored: bool)
    ensures ok == Below(error.maxRelError, p.speedMax * dt0) && !(ok && floored)
    ensures Trial(dt, next, minHits, maxHits, ok || floored, floored)
         == Round(p, error, Trial(dt0, next0, minHits0, maxHits0, false, false))
  {
    ok := Below(error.maxRelError, p.speedMax * dt0);
    dt, next, minHits, maxHits, floored := dt0, next0, minHits0, maxHits0, false;
    if !ok {
      dt := dt * p.refiningFactor;
      next := dt;
      if dt < p.minStepLimit {
        // throttling at the floor
        dt := p.minStepLimit;
        next := dt;
        minHits := minHits + 1;
        floored := true;
        return;
      }
    }
    next, maxHits := GrowStep(p, error.maxRelError, dt, next, maxHits);
  }

  /** The growth test at the end of the do-while body: a small enough error lets the next step grow, up to the ceiling. */
  method GrowStep(p: StepAdjustmentParameters, err: Ratio, dt: real, next0: real, maxHits0: nat)
    returns (next: real, maxHits: nat)
    ensures forall s: Trial :: s.dt == dt && s.next == next0 && s.maxHits == maxHits0 ==>
              Grown(p, err, s) == s.(next := next, maxHits := maxHits)
  {
    next, maxHits := next0, maxHits0;
    if Below(err, p.speedMin * dt) {
      next := dt * p.coarseningFactor;
      if next > p.maxStepLimit {
        next := p.maxStepLimit;
        maxHits := maxHits + 1;
      }
    }
  }

  /**
   * The do-while loop of trial steps of integrate_iteration, from the step
   * dt0 and the given counters, to the outcome of the adaptive loop.
   */
  method TrialLoop(p: StepAdjustmentParameters, est: RungeErrorEstimator, v: VariableScalar, r: RhsScalar, m: IntegrationMethod,
                   t: real, dt0: real, minHits0: nat, maxHits0: nat, ghost errAt: real -> IntegrationError, ghost deltaAt: real -> real)
    returns (s: Trial)
    requires est.Valid() && est.integrator == Some(m) && r.scalar == v && IsCleared(v.State())
    requires Terminates(p, dt0) && Measures(errAt, deltaAt, m, r.f, v.previous, t)
    modifies est, v, r
    ensures s == Adapted(p, errAt, Start(dt0, minHits0, maxHits0))
    ensures est.Valid() && est.integrator == Some(m)
    ensures v.previous == old(v.previous)
    ensures v.delta == if s.floored then 0.0 else deltaAt(s.dt)
  {
    ghost var x := v.previous;
    ghost var s0 := Start(dt0, minHits0, maxHits0);
    s := Start(dt0, minHits0, maxHits0);
    ghost var k: nat := 0;
    while !s.finished
      invariant est.Valid() && est.integrator == Some(m) && v.previous == x
      invariant s == Rounds(p, errAt, s0, k)
      invariant s.floored ==> s.finished
      invariant !s.finished || s.floored ==> IsCleared(v.State())
      invariant s.finished && !s.floored ==> v.delta == deltaAt(s.dt)
      decreases ExitCount(p, errAt, s0) - k
    {
      BeforeExit(p, errAt, s0, k);
      RoundsNext(p, errAt, s0, k, errAt(s.dt));
      s := TrialRound(p, est, v, r, m, t, errAt, deltaAt, s);
      k := k + 1;
    }
    AdaptedAtAnyExit(p, errAt, s0, k);
  }

  /** One pass of that loop: estimate the error of the trial step, then adjust the step. */
  method TrialRound(p: StepAdjustmentParameters, est: RungeErrorEstimator, v: VariableScalar, r: RhsScalar, m: IntegrationMethod,
                    t: real, ghost errAt: real -> IntegrationError, ghost deltaAt: real -> real, cur: Trial)
    returns (next: Trial)
    requires est.Valid() && est.integrator == Some(m) && r.scalar == v && IsCleared(v.State())
    requires Measures(errAt, deltaAt, m, r.f, v.previous, t) && !cur.finished && !cur.floored
    modifies est, v, r
    ensures next == Round(p, errAt(cur.dt), cur)
    ensures est.Valid() && est.integrator == Some(m) && v.previous == old(v.previous)
    ensures next.floored ==> next.finished
    ensures !next.finished || next.floored ==> IsCleared(v.State())
    ensures next.finished && !next.floored ==> v.delta == deltaAt(next.dt)
  {
    var error := EstimateTrial(est, v, r, t, cur.dt, errAt, deltaAt);
    var ok, dt, step, minHits, maxHits, floored := AdjustStep(p, error, cur.dt, cur.next, cur.minHits, cur.maxHits);
    if !ok {
      v.ClearSubiteration();
    }
    next := Trial(dt, step, minHits, maxHits, ok || floored, floored);
  }

  /**
   * One pass's estimate: calculate_delta_and_estimate on a cleared entry,
   * then get_error.  The entry keeps its value and holds the full-step delta.
   */
  method EstimateTrial(est: RungeErrorEstimator, v: VariableScalar, r: RhsScalar, t: real, dt: real,
                       ghost errAt: real -> IntegrationError, ghost deltaAt: real -> real)
    returns (error: IntegrationError)
    requires est.Valid() && est.integrator.Some? && r.scalar == v && IsCleared(v.State())
    requires Measures(errAt, deltaAt, est.integrator.value, r.f, v.previous, t)
    modifies est, v, r
    ensures est.Valid() && est.integrator == old(est.integrator)
    ensures error == errAt(dt)
    ensures v.previous == old(v.previous)
    ensures v.delta == deltaAt(dt)
  {
    est.CalculateDeltaAndEstimate(v, r, t, dt);
    error := est.GetError();
    ClearedTrial(est.integrator.value, r.f, old(v.State()), t, dt);
  }
}

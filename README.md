# dsiterpp time-integration engine, modelled in Dafny

This project models the `lib/` engine of dsiterpp (namespace `dsiterpp`). It
integrates one scalar ordinary differential equation x' = f(t, x) with a
fixed-weight explicit method, optionally with step-size control, and drives
the integration in time.

The engine has four parts:

- **The state entry** (`VariableScalar`) keeps the committed value
  (`previous`), a scratch value for the stages of a step (`current`), the
  pending weighted sum of stage derivatives (`delta`) and the last evaluated
  derivative (`rhs`). **The scalar right-hand side** (`RHSScalar`) evaluates a
  user function `f(t, x)` at `current`.
- **Two integrators.** Explicit Euler has order 1. Classical four-stage
  Runge-Kutta has order 4. Each is a fixed sequence of operations on the
  entry and requests to the right-hand side.
- **The step-doubling (Runge) error estimator.** It snapshots the entry and
  takes two half steps, committing the first. It then restores the snapshot,
  takes one full step, and folds the absolute and relative differences into
  their maxima.
- **The time iterator** (`TimeIterator`). Each iteration does the following:
  - It checks its collaborators.
  - It fires the periodic hooks that are due, in time order.
  - It integrates one step. The step is either fixed, or chosen by a
    shrink/grow loop with a floor and a ceiling, each with a counter.
  - It runs the bifurcator when due, logs the step and advances model time.
  - `run` repeats iterations until the stop time or a stop request.

Files and modules:

| file | module | contents |
|---|---|---|
| `integration.dfy` | `Integration` | `ScalarState`, the value view of an entry; the functions that specify each entry operation; the classes `VariableScalar` and `RhsScalar` |
| `euler_explicit.dfy` | `EulerExplicitIterator` | the Euler step, as a function and as a method on the entry |
| `runge_kutta.dfy` | `RungeKuttaIterator` | the four stages, and an independent textbook definition of RK4 |
| `integrator.dfy` | `Integrator` | the closed choice of integration method, and dispatch to it |
| `runge_error_estimator.dfy` | `ErrorEstimation` | the trial steps, the fold of the maxima, and the class `RungeErrorEstimator` |
| `adaptation.dfy` | `StepAdjustment` | the adjustment parameters and their consistency check; the adaptive loop as a function of the errors reported per trial step, with its termination, bookkeeping and bounds |
| `hooks.dfy` | `TimeHooks` | the class `TimeHookPeriodic`; which hooks are due, and the order they fire in |
| `time_iterator.dfy` | `TimeIteration` | the class `TimeIterator`, and the value-level account of one iteration and of a run |

Where a class method updates fields in place, it is proved against a function
of the old state. Examples: `VariableScalar.Step` against `Stepped`, and
`TimeIterator.Iterate` against `AfterIteration`. The properties are then
proved as lemmas about those functions.

The adaptive do-while loop is stated as `Adapted`. This is the state after a
number of rounds at which the loop has exited. `LoopExits` proves such a
number exists, and the loop method `TrialLoop` is proved to compute it.

`run` is stated through a ghost trace of the points between its iterations
(`RunPoint`: model time, stop flag and hook states). Each step of the trace
is a `RunIteration`: it starts before the stop time with no stop requested,
fires the due hooks, and raises the stop flag exactly when a stop hook was
among them.

Where the system's documented intent and its code disagree, the model
follows the code:

- **Tie order in `call_hook`.** Hooks due at the same time fire in
  registration order in the model. The code uses `std::sort`, which is not
  stable, so this is one of the orders it may produce. It is also the order
  the documented intent describes.
- **Zero denominator in the relative error.** It is not guarded in
  `runge-error-estimator.cpp:49`. The model gives it the IEEE meaning:
  - 0/0 is NaN, and NaN never replaces the running maximum;
  - x/0 with x > 0 is +infinity, which does replace it and which no finite
    bound is above.
- **Missing estimator.** `iterate` throws this only after the due hooks have
  already fired (`time-iter.cpp:170` then `:183-184`). The other three
  collaborator checks come before anything happens.
- **`set_time`.** It sets only the last-bifurcation time
  (`time-iter.cpp:121-124`); model time does not move.

## Model

| member | source | states |
|---|---|---|
| Integration.Cleared | cpp-sources/lib/src/integration.cpp:14-17 | after clear_subiteration no sub-iteration is pending (current = previous, delta = 0); previous and rhs are kept |
| Integration.RhsAdded | cpp-sources/lib/src/integration.cpp:19-22 | add_rhs_to_delta(m) grows delta by exactly rhs * m and changes no other field |
| Integration.SubIterated | cpp-sources/lib/src/integration.cpp:24-27 | make_sub_iteration(dt) puts current at rhs * dt away from previous and changes no other field |
| Integration.Stepped | cpp-sources/lib/src/integration.cpp:29-33 | step moves previous by exactly the pending delta and leaves the entry cleared |
| Integration.ValueSet | cpp-sources/lib/src/integration.cpp:45-48 | set_values makes the element read the new previous value and clears the entry |
| Integration.Evaluated | cpp-sources/lib/src/integration.cpp:74-78 | calculate_rhs(t) sets rhs to f(t, current) and changes nothing else |
| Integration.ClearIdempotent | cpp-sources/lib/src/integration.cpp:14-17 | clearing twice is clearing once, and clearing never moves previous |
| Integration.SubIterationDoesNotCompound | cpp-sources/lib/src/integration.cpp:24-27 | positioning reads previous, so a second positioning replaces the first |
| Integration.StepIdempotent | cpp-sources/lib/src/integration.cpp:29-33 | a step right after a step changes nothing |
| Integration.CollectThenSetRestores | cpp-sources/lib/src/integration.cpp:35-48 | on an entry with current = previous, set_values with the collected element restores previous and drops the pending delta |
| Integration.VariableScalar.constructor | cpp-sources/lib/src/integration.cpp:8-12 | a new entry has previous = current = value and delta = 0 |
| Integration.VariableScalar.ClearSubiteration | cpp-sources/lib/src/integration.cpp:14-17 | the entry becomes Cleared of its old state |
| Integration.VariableScalar.AddRhsToDelta | cpp-sources/lib/src/integration.cpp:19-22 | the entry becomes RhsAdded of its old state |
| Integration.VariableScalar.MakeSubIteration | cpp-sources/lib/src/integration.cpp:24-27 | the entry becomes SubIterated of its old state |
| Integration.VariableScalar.Step | cpp-sources/lib/src/integration.cpp:29-33 | the entry becomes Stepped of its old state |
| Integration.VariableScalar.CollectValues | cpp-sources/lib/src/integration.cpp:35-38 | the caller's buffer keeps its contents and gains exactly one element, current (not previous); the entry is not modified |
| Integration.VariableScalar.CollectDeltas | cpp-sources/lib/src/integration.cpp:40-43 | the caller's buffer keeps its contents and gains exactly one element, delta; the entry is not modified |
| Integration.VariableScalar.SetValues | cpp-sources/lib/src/integration.cpp:45-48 | reads the element at the position, advances the position by exactly one, and the entry becomes ValueSet of it |
| Integration.VariableScalar.CurrentValue | cpp-sources/lib/src/integration.cpp:50-53 | returns current |
| Integration.VariableScalar.SetRhs | cpp-sources/lib/src/integration.cpp:55-58 | only the cached derivative changes |
| Integration.RhsScalar.constructor | cpp-sources/lib/src/integration.cpp:69-72 | binds the scalar and the user function; nothing has been requested yet |
| Integration.RhsScalar.PreIterationJob | cpp-sources/lib/dsiterpp/integration.hpp:60-63 | the default job has no effect on any entry; the request is recorded |
| Integration.RhsScalar.PreSubIterationJob | cpp-sources/lib/dsiterpp/integration.hpp:65-68 | the default job has no effect on any entry; the request is recorded |
| Integration.RhsScalar.CalculateRhs | cpp-sources/lib/src/integration.cpp:74-78 | the scalar becomes Evaluated at the time (rhs = f(t, current), nothing else) |
| EulerExplicitIterator.MethodOrder | cpp-sources/lib/src/euler-explicit.cpp:14-17 | the order is 1 |
| EulerExplicitIterator.Advanced | cpp-sources/lib/src/euler-explicit.cpp:5-12 | delta grows by exactly dt * f(t, current); previous and current are untouched |
| EulerExplicitIterator.Calls | cpp-sources/lib/src/euler-explicit.cpp:7-10 | pre_iteration_job(t), pre_sub_iteration_job(t), calculate_rhs(t) |
| EulerExplicitIterator.CalculateDelta | cpp-sources/lib/src/euler-explicit.cpp:5-12 | the entry becomes Advanced; the right-hand side is asked for pre_iteration_job(t), pre_sub_iteration_job(t), calculate_rhs(t), once each and in that order |
| EulerExplicitIterator.StepFromCleared | cpp-sources/lib/src/euler-explicit.cpp:5-12 | from a cleared entry, the delta followed by step gives previous + dt * f(t, previous) |
| EulerExplicitIterator.ZeroStepKeepsDelta | cpp-sources/lib/src/euler-explicit.cpp:11 | with dt = 0, delta is unchanged |
| RungeKuttaIterator.MethodOrder | cpp-sources/lib/src/runge-kutta.cpp:43-46 | the order is 4 |
| RungeKuttaIterator.Stage | cpp-sources/lib/src/runge-kutta.cpp:24-28 | a later stage positions current at previous + offset * latest slope, evaluates f there at the stage time, and adds the weighted slope to delta; previous is kept |
| RungeKuttaIterator.Advanced | cpp-sources/lib/src/runge-kutta.cpp:14-41 | the four stages in order from the entry; equal to the textbook increment by AdvancedIsClassical |
| RungeKuttaIterator.Calls | cpp-sources/lib/src/runge-kutta.cpp:16-39 | pre_iteration_job(t), then a pre_sub_iteration_job/calculate_rhs pair at t, t + dt/2, t + dt/2, t + dt |
| RungeKuttaIterator.CalculateDelta | cpp-sources/lib/src/runge-kutta.cpp:14-41 | the entry becomes Advanced; the requests are pre_iteration_job(t), then one pre_sub_iteration_job/calculate_rhs pair per stage at t, t + dt/2, t + dt/2, t + dt |
| RungeKuttaIterator.RunStage | cpp-sources/lib/src/runge-kutta.cpp:24-28 | one later stage, in the source's call order, is Stage |
| RungeKuttaIterator.AdvancedIsClassical | cpp-sources/lib/src/runge-kutta.cpp:14-41 | the stage-by-stage computation adds exactly dt/6 (k1 + 2 k2 + 2 k3 + k4) to delta, as defined independently by ClassicalSlopes; previous is never moved |
| RungeKuttaIterator.StepFromCleared | cpp-sources/lib/src/runge-kutta.cpp:14-41 | from a cleared entry, the delta followed by step is the textbook RK4 update, all slopes taken from previous |
| RungeKuttaIterator.ConstantRhs | cpp-sources/lib/src/runge-kutta.cpp:18-40 | the weights sum to dt: a constant derivative c adds exactly c * dt |
| Integrator.MethodOrder | cpp-sources/lib/src/euler-explicit.cpp:14-17 | method_order of the chosen method: 1 for Euler, 4 for RK4 |
| Integrator.CalculateDelta | cpp-sources/lib/src/time-iter.cpp:229 | calculate_delta of the chosen method: the entry and the requests are those of that method |
| Integrator.AdvancedKeepsPrevious | cpp-sources/lib/src/runge-kutta.cpp:14-41 | neither method moves previous, and neither depends on the incoming cached derivative |
| Integrator.PreIterationFirst | cpp-sources/lib/src/runge-kutta.cpp:16 | each call starts with exactly one pre_iteration_job, at t, and has none after it |
| ErrorEstimation.Abs | cpp-sources/lib/src/runge-error-estimator.cpp:47-48 | fabs: non-negative and equal to x or -x |
| ErrorEstimation.Quotient | cpp-sources/lib/src/runge-error-estimator.cpp:49 | the IEEE quotient of non-negative numbers: exact for a positive denominator; NaN for 0/0; +infinity for x/0 with x > 0 |
| ErrorEstimation.Pow2 | cpp-sources/lib/src/runge-error-estimator.cpp:10 | 2^n is at least 1 |
| ErrorEstimation.ErrorMultiplier | cpp-sources/lib/src/runge-error-estimator.cpp:10 | 1 / (2^order - 1) is positive: 1 for Euler, 1/15 for RK4 |
| ErrorEstimation.Folded | cpp-sources/lib/src/runge-error-estimator.cpp:40-57 | both maxima start at 0 and stay non-negative; the relative maximum is never NaN |
| ErrorEstimation.FoldedIsMaximum | cpp-sources/lib/src/runge-error-estimator.cpp:40-57 | each maximum bounds every component (NaN components excepted) and is one of them or the starting 0 |
| ErrorEstimation.MaximumErrors | cpp-sources/lib/src/runge-error-estimator.cpp:45-56 | the loop over the components computes Folded |
| ErrorEstimation.NoAbsErrorIffHalvesAgree | cpp-sources/lib/src/runge-error-estimator.cpp:47 | the absolute error is 0 exactly when the full step equals the sum of the two half steps in every component |
| ErrorEstimation.SpeculationLeavesNoTrace | cpp-sources/lib/src/runge-error-estimator.cpp:19-38 | on an entry with current = previous the trial steps restore previous and leave the recorded full-step delta pending, whatever delta the entry carried in; on a cleared entry they leave exactly what one full calculate_delta leaves |
| ErrorEstimation.TestSteps | cpp-sources/lib/src/runge-error-estimator.cpp:19-38 | make_test_steps as values: half step, commit, half step, restore, full step, with the entry value and the three deltas recorded |
| ErrorEstimation.TrialError | cpp-sources/lib/src/runge-error-estimator.cpp:40-57 | the fold of the one trial from a cleared entry holding x; TrialDependsOnPreviousOnly shows any cleared entry with that previous gives it |
| ErrorEstimation.TrialDependsOnPreviousOnly | cpp-sources/lib/src/runge-error-estimator.cpp:19-38 | on a cleared entry what is recorded depends on previous only, not on the incoming cached derivative |
| ErrorEstimation.HalfSteps | cpp-sources/lib/src/runge-error-estimator.cpp:28-32 | half step at t, commit, half step at t + dt/2, each delta recorded before the next operation |
| ErrorEstimation.RestoredFullStep | cpp-sources/lib/src/runge-error-estimator.cpp:33-37 | restore the snapshot, take the full step at t, and record its delta |
| ErrorEstimation.TrialSteps | cpp-sources/lib/src/runge-error-estimator.cpp:26-37 | the operations of make_test_steps compute TestSteps, and make the requests of the three trial steps in order |
| ErrorEstimation.RungeErrorEstimator.constructor | cpp-sources/lib/src/runge-error-estimator.cpp:8-11 | a new estimator has empty buffers, zero errors and no integrator |
| ErrorEstimation.RungeErrorEstimator.SetIntegrator | cpp-sources/lib/src/error-estimator.cpp:5-8 | attaches the integrator and sets the multiplier for its order; buffers and error are kept |
| ErrorEstimation.RungeErrorEstimator.GetError | cpp-sources/lib/src/error-estimator.cpp:10-13 | returns the last estimate |
| ErrorEstimation.RungeErrorEstimator.MakeTestSteps | cpp-sources/lib/src/runge-error-estimator.cpp:19-38 | all four buffers are emptied first, then hold one entry each from the trial steps; the entry ends as TestSteps leaves it |
| ErrorEstimation.RungeErrorEstimator.EstimateError | cpp-sources/lib/src/runge-error-estimator.cpp:40-57 | the error restarts from 0 and is the fold of the buffers; nothing else changes |
| ErrorEstimation.RungeErrorEstimator.CalculateDeltaAndEstimate | cpp-sources/lib/src/runge-error-estimator.cpp:13-17 | every call empties and refills the four buffers with this entry's trial (TestSteps) and reports the fold of that one trial, whatever earlier calls left; the entry ends as the trial steps leave it; on a cleared entry the error is TrialError of previous |
| StepAdjustment.SelfConsistencyCharacterised | cpp-sources/lib/src/time-iter.cpp:13-31 | with the speeds in order: true with adjustment off; with it on, false exactly when refining > 1, max * refining < min or min * coarsening > max |
| StepAdjustment.IsSelfConsistent | cpp-sources/lib/src/time-iter.cpp:13-31 | is_self_consistent, branch for branch, including the early true for inverted speeds; characterised by SelfConsistencyCharacterised |
| StepAdjustment.InvertedSpeedsAcceptedAsWritten | cpp-sources/lib/src/time-iter.cpp:15-16 | as written, speeds in the wrong order make a parameter set with refining 2 consistent |
| StepAdjustment.CorrectedRejectsInvertedSpeeds | cpp-sources/lib/src/time-iter.cpp:13-31 | the corrected check refuses inverted speeds and otherwise agrees with the check as written |
| StepAdjustment.SetupRelativeDeconvergenceSpeed | cpp-sources/lib/src/time-iter.cpp:33-37 | the maximum speed becomes the rate and the minimum a thousandth of it; nothing else changes |
| StepAdjustment.SetupOrdersSpeeds | cpp-sources/lib/src/time-iter.cpp:33-37 | after the setup with a non-negative rate, the speeds are in order and both checks reduce to the limit conditions |
| StepAdjustment.DefaultsAreConsistent | cpp-sources/lib/dsiterpp/time-iter.hpp:25-32 | the defaults pass the check with adjustment on, also after the setup of the adaptive unit test (cpp-sources/unit-tests/auto-step-adj.cpp:19-23) |
| StepAdjustment.Start | cpp-sources/lib/src/time-iter.cpp:186 | the loop starts with next_dt = m_dt, not exited |
| StepAdjustment.Grown | cpp-sources/lib/src/time-iter.cpp:217-224 | the growth test: under speedMin * dt the proposal becomes dt * coarsening, clamped to the ceiling with the ceiling counter; its frame is GrownFrame |
| StepAdjustment.Round | cpp-sources/lib/src/time-iter.cpp:199-224 | one pass of the do-while body: accept and grow, or shrink, clamp to the floor and leave, or shrink and grow; its cases are RoundAccepted, RoundFloored and RoundRejected |
| StepAdjustment.Rounds | cpp-sources/lib/src/time-iter.cpp:195-226 | the loop after k passes, each with the error for its step; passes stop once the loop has exited (RoundsStayFinished) |
| StepAdjustment.Adapted | cpp-sources/lib/src/time-iter.cpp:195-226 | the state in which the do-while loop exits; it exists (LoopExits) and its outcome and bounds are AdaptedOutcome and AdaptedNextBounds |
| StepAdjustment.RoundsNext | cpp-sources/lib/src/time-iter.cpp:195-226 | a round from a state that has not exited is one pass of the loop body with the error reported for its step |
| StepAdjustment.RoundsStayFinished | cpp-sources/lib/src/time-iter.cpp:226 | once the loop has exited, further rounds change nothing |
| StepAdjustment.RoundAccepted | cpp-sources/lib/src/time-iter.cpp:199-225 | an error under speedMax * dt accepts the step, then the growth test runs |
| StepAdjustment.RoundFloored | cpp-sources/lib/src/time-iter.cpp:200-212 | a rejection under the floor clamps both steps to the floor, counts once and exits at once |
| StepAdjustment.RoundRejected | cpp-sources/lib/src/time-iter.cpp:200-224 | a rejection at or above the floor shrinks both steps by the refining factor, then the growth test runs with the stale error |
| StepAdjustment.GrownFrame | cpp-sources/lib/src/time-iter.cpp:217-224 | the growth test only moves the proposed step and the ceiling counter, and that counter only up |
| StepAdjustment.RoundContinues | cpp-sources/lib/src/time-iter.cpp:199-214 | a pass that does not exit has shrunk the step by the refining factor and stays at or above the floor |
| StepAdjustment.LoopExits | cpp-sources/lib/src/time-iter.cpp:195-226 | with refining < 1, floor > 0 and dt > 0 the do-while exits within PassBound passes |
| StepAdjustment.ExitCount | cpp-sources/lib/src/time-iter.cpp:195-226 | a number of passes at which the loop has exited |
| StepAdjustment.AdaptedAtAnyExit | cpp-sources/lib/src/time-iter.cpp:195-226 | the loop's outcome is the state after any number of passes at which it has exited |
| StepAdjustment.BeforeExit | cpp-sources/lib/src/time-iter.cpp:195-226 | a state that has not exited comes before the exit count |
| StepAdjustment.RoundsBookkeeping | cpp-sources/lib/src/time-iter.cpp:195-226 | after any number of passes: the floor counter moved exactly when the loop exited through the floor; the ceiling counter never went down; a floored exit has both steps at the floor; any other exit is an accepted trial |
| StepAdjustment.RoundBookkeeping | cpp-sources/lib/src/time-iter.cpp:199-225 | the same bookkeeping across one pass |
| StepAdjustment.RoundsStepBounds | cpp-sources/lib/src/time-iter.cpp:195-226 | the step stays positive; it never exceeds where it started unless floored; it never goes under the smaller of its start and the floor; the proposal lies between the step and the ceiling |
| StepAdjustment.AdaptedOutcome | cpp-sources/lib/src/time-iter.cpp:195-226 | the loop exits either through the floor (both steps at the floor, floor counter up by one) or on an accepted trial (floor counter unchanged); the ceiling counter never goes down |
| StepAdjustment.AdaptedNextBounds | cpp-sources/lib/src/time-iter.cpp:195-226 | the step taken is positive and at least the smaller of the first step and the floor; the proposal lies between the smallest of first step, floor and ceiling and the larger of step taken and ceiling |
| StepAdjustment.OrderedSpeedsNeverGrowRejected | cpp-sources/lib/src/time-iter.cpp:199-224 | with the speeds in order, a rejected trial that is not floored proposes exactly the shrunk step and leaves the ceiling counter alone |
| StepAdjustment.StaleGrowthFails | cpp-sources/lib/src/time-iter.cpp:217 | with the speeds in order, the stale error of a rejected step fails the growth test on the shrunk step |
| StepAdjustment.RoundCountsCeilingOnce | cpp-sources/lib/src/time-iter.cpp:199-224 | with the speeds in order and a non-negative error, one pass counts the ceiling at most once, and not at all when the loop goes on |
| StepAdjustment.RoundsCountCeilingOnce | cpp-sources/lib/src/time-iter.cpp:195-226 | with the speeds in order, after any number of passes the ceiling counter has risen by at most one, and not at all while the loop goes on |
| StepAdjustment.OrderedSpeedsCountCeilingOnce | cpp-sources/lib/src/time-iter.cpp:195-226 | with the speeds in order and the non-negative errors the estimator reports, one run of the adaptive loop adds at most one to the ceiling counter |
| StepAdjustment.StaleGrowthAsWritten | cpp-sources/lib/src/time-iter.cpp:195-226 | with the inverted speeds the check accepts and a relative error of 1.5 dt², a first step of 0.01 is rejected and shrunk to 0.005, yet that pass counts the ceiling (its proposal 0.001 is intermediate and the next pass sets it again); the loop then accepts 0.005 and exits with the ceiling counted twice |
| TimeHooks.RunsAdvance | cpp-sources/lib/src/time-iter.cpp:49-54 | every run moves the next run on by exactly one period and keeps the period; the last run is the time of the last call |
| TimeHooks.Ran | cpp-sources/lib/src/time-iter.cpp:49-54 | run_hook: the last run becomes the time, the next run moves on by one period; iterated by RunsAdvance |
| TimeHooks.PeriodSet | cpp-sources/lib/src/time-iter.cpp:61-65 | set_period: the period and the next run both become the period; the schedule after it is PeriodicSchedule |
| TimeHooks.PeriodicSchedule | cpp-sources/lib/src/time-iter.cpp:61-65 | a new hook is due at 0 and then every unit of time; after set_period(p) and k runs it is next due at (k + 1) p |
| TimeHooks.DueExactly | cpp-sources/lib/src/time-iter.cpp:256-265 | the collected list holds exactly the hooks whose next run is at or before now, with their own times, in list order |
| TimeHooks.DueAmong | cpp-sources/lib/src/time-iter.cpp:256-265 | the hooks with next run at or before now, in list order; characterised by DueExactly |
| TimeHooks.InsertPermutes | cpp-sources/lib/src/time-iter.cpp:267-275 | inserting adds the element and loses nothing |
| TimeHooks.InsertOrdered | cpp-sources/lib/src/time-iter.cpp:267-275 | inserting into an ordered list keeps it ordered |
| TimeHooks.SortPermutes | cpp-sources/lib/src/time-iter.cpp:267-275 | sorting the due hooks is a permutation |
| TimeHooks.SortOrdered | cpp-sources/lib/src/time-iter.cpp:267-275 | the sorted hooks are in order of time, ties in list order |
| TimeHooks.SortByTime | cpp-sources/lib/src/time-iter.cpp:267-275 | the sort by time, as an insertion sort keeping list order for ties; a permutation (SortPermutes) in order (SortOrdered) |
| TimeHooks.FiringOrder | cpp-sources/lib/src/time-iter.cpp:256-281 | the due hooks sorted by time; characterised by FiringOrderCorrect |
| TimeHooks.FiringOrderCorrect | cpp-sources/lib/src/time-iter.cpp:249-282 | call_hook fires exactly the due hooks, each once, with the time it was due, in non-decreasing time |
| TimeHooks.TimeHookPeriodic.constructor | cpp-sources/lib/dsiterpp/time-iter.hpp:69-75 | a new hook has next run 0, period 1 and last run 0 |
| TimeHooks.TimeHookPeriodic.RunHook | cpp-sources/lib/src/time-iter.cpp:49-54 | the body is handed the old next run as the wanted time; the hook becomes Ran at the time given |
| TimeHooks.TimeHookPeriodic.GetNextTime | cpp-sources/lib/src/time-iter.cpp:56-59 | returns the next run time |
| TimeHooks.TimeHookPeriodic.SetPeriod | cpp-sources/lib/src/time-iter.cpp:61-65 | the period is set and the next run becomes that period |
| TimeHooks.TimeHookPeriodic.GetPeriod | cpp-sources/lib/src/time-iter.cpp:67-70 | returns the period |
| TimeIteration.ClearedAdvance | cpp-sources/lib/src/time-iter.cpp:189-230 | on a cleared entry calculate_delta keeps previous, and its delta depends on previous only |
| TimeIteration.ClearedTrial | cpp-sources/lib/src/time-iter.cpp:196 | on a cleared entry the trial steps keep previous and leave the full-step delta pending |
| TimeIteration.FixedStepIntegrated | cpp-sources/lib/src/time-iter.cpp:228-231 | with adjustment off the step taken is dt and is kept for the next iteration; no counter moves; the value is the textbook Euler or RK4 update |
| TimeIteration.AdaptiveStepIntegrated | cpp-sources/lib/src/time-iter.cpp:191-227 | with adjustment on: a floored step leaves the value where it was (the delta was cleared); otherwise the step passed the error test and its delta is committed; counters as in AdaptedOutcome |
| TimeIteration.IntegratedProgress | cpp-sources/lib/src/time-iter.cpp:186-232 | a lower bound on the current step, the floor and the ceiling also bounds the step taken and the step proposed |
| TimeIteration.HookEvents | cpp-sources/lib/src/time-iter.cpp:278-281 | one hook event per hook fired, in firing order, with the current time and the time it was due |
| TimeIteration.HooksCalled | cpp-sources/lib/src/time-iter.cpp:249-282 | call_hook on the iterator's fields: the stop flag raised if a stop hook fired, one event per hook fired |
| TimeIteration.BifurcationDue | cpp-sources/lib/src/time-iter.cpp:237-240 | a bifurcator is set and the period is 0 or has elapsed since the last run |
| TimeIteration.Bifurcated | cpp-sources/lib/src/time-iter.cpp:235-247 | when due: prepare then do at (time, time - last), then last = time; otherwise nothing |
| TimeIteration.Proceeded | cpp-sources/lib/src/time-iter.cpp:171-177 | integrate, bifurcate, log the step, advance time, take up the next step; composed by ProceededComposes |
| TimeIteration.AfterIteration | cpp-sources/lib/src/time-iter.cpp:167-178 | call_hook then Proceeded; its bookkeeping is IterationBookkeeping |
| TimeIteration.RunInOrderSkips | cpp-sources/lib/src/time-iter.cpp:278-281 | a hook that is not in the order keeps its state |
| TimeIteration.RunInOrderOnce | cpp-sources/lib/src/time-iter.cpp:278-281 | each hook of the order runs exactly once; every other hook keeps its state |
| TimeIteration.AnyStopsExactly | cpp-sources/lib/src/time-iter.cpp:338-341 | the stop flag is raised exactly when a PeriodicStopHook is in the order |
| TimeIteration.OrderGrows | cpp-sources/lib/src/time-iter.cpp:278-281 | one more hook fired adds its run, its event and its stop request |
| TimeIteration.FiredInOrder | cpp-sources/lib/src/time-iter.cpp:249-282 | after call_hook every due hook has run once at the current time and every other hook is untouched |
| TimeIteration.FiringOrderNamesDueHooks | cpp-sources/lib/src/time-iter.cpp:256-275 | each hook in the firing order is named once, by a valid position, with its next run time |
| TimeIteration.StopsInOrder | cpp-sources/lib/src/time-iter.cpp:249-282 | a stop hook fires in call_hook exactly when one is due |
| TimeIteration.Earliest | cpp-sources/lib/src/time-iter.cpp:288-297 | the running minimum finds the first position holding the earliest time |
| TimeIteration.IterationBookkeeping | cpp-sources/lib/src/time-iter.cpp:167-178 | each completed iteration logs exactly one step, advances time by exactly that step (the log's sum grows by the time passed), takes up the proposed step, keeps the stop time, parameters and collaborators; the bifurcation fires exactly when due |
| TimeIteration.IterationMakesProgress | cpp-sources/lib/src/time-iter.cpp:167-178 | a completed iteration logs one step of at least the lower bound and can go on |
| TimeIteration.IterationProgress | cpp-sources/lib/src/time-iter.cpp:186-232 | IntegratedProgress for the step of an iteration |
| TimeIteration.IterationStepFrame | cpp-sources/lib/src/time-iter.cpp:170-171 | what call_hook changes (stop flag, events) does not change the step integrate_iteration takes |
| TimeIteration.ProceededComposes | cpp-sources/lib/src/time-iter.cpp:171-177 | the integration step, bifurcation, log and clock compose to Proceeded |
| TimeIteration.TimeIterator.NextTimes | cpp-sources/lib/src/time-iter.cpp:258-260 | the next run times of the hooks, in list order |
| TimeIteration.TimeIterator.constructor | cpp-sources/lib/dsiterpp/time-iter.hpp:137-157 | time 0, stop time 1, step 0.01, bifurcation period 0, no stop requested, default parameters, no collaborator, no hook, empty metrics |
| TimeIteration.TimeIterator.SetVariable | cpp-sources/lib/src/time-iter.cpp:91-94 | only the variable changes |
| TimeIteration.TimeIterator.SetRhs | cpp-sources/lib/src/time-iter.cpp:96-99 | only the right-hand side changes |
| TimeIteration.TimeIterator.SetIntegrator | cpp-sources/lib/src/time-iter.cpp:101-104 | only the integrator changes |
| TimeIteration.TimeIterator.SetErrorEstimator | cpp-sources/lib/src/time-iter.cpp:106-109 | only the estimator changes |
| TimeIteration.TimeIterator.SetBifurcator | cpp-sources/lib/src/time-iter.cpp:111-114 | only whether a bifurcator is set changes |
| TimeIteration.TimeIterator.SetStepAdjustmentParameters | cpp-sources/lib/src/time-iter.cpp:116-119 | only the parameters change |
| TimeIteration.TimeIterator.SetTime | cpp-sources/lib/src/time-iter.cpp:121-124 | only the last-bifurcation time changes; model time does not move |
| TimeIteration.TimeIterator.SetBifurcationRunPeriod | cpp-sources/lib/src/time-iter.cpp:126-129 | only the bifurcation period changes |
| TimeIteration.TimeIterator.SetStopTime | cpp-sources/lib/src/time-iter.cpp:131-134 | only the stop time changes |
| TimeIteration.TimeIterator.SetStep | cpp-sources/lib/src/time-iter.cpp:142-145 | only the step changes |
| TimeIteration.TimeIterator.Stop | cpp-sources/lib/src/time-iter.cpp:328-331 | only the stop flag changes, to true |
| TimeIteration.TimeIterator.ResetMetrics | cpp-sources/lib/src/time-iter.cpp:322-325 | the log is empty and both counters are 0; nothing else changes |
| TimeIteration.TimeIterator.MissingPointer | cpp-sources/lib/src/time-iter.cpp:300-308 | no exception exactly when variable, RHS and integrator are all set; otherwise the first missing one, in that order, names it |
| TimeIteration.TimeIterator.FindNextHook | cpp-sources/lib/src/time-iter.cpp:284-298 | with no hooks nothing changes; otherwise the lowest position with the minimal next time is selected, and nothing else changes |
| TimeIteration.TimeIterator.AddHook | cpp-sources/lib/src/time-iter.cpp:136-140 | the hook is appended and the next hook is selected as by FindNextHook |
| TimeIteration.TimeIterator.CollectDue | cpp-sources/lib/src/time-iter.cpp:256-265 | the loop collects DueAmong of the hooks' next times |
| TimeIteration.TimeIterator.FireOne | cpp-sources/lib/src/time-iter.cpp:280 | one hook runs at the current time; its event is recorded with the time it was due; a stop hook raises the stop flag |
| TimeIteration.TimeIterator.FireAll | cpp-sources/lib/src/time-iter.cpp:277-281 | the last loop runs the hooks of the order in turn: the hook states, events and stop flag are those of the order |
| TimeIteration.TimeIterator.FireNext | cpp-sources/lib/src/time-iter.cpp:278-281 | one pass of that loop keeps its invariant one hook further |
| TimeIteration.TimeIterator.CallHook | cpp-sources/lib/src/time-iter.cpp:249-282 | every due hook runs once at the current time and every other hook is untouched; the events follow the firing order; the stop flag is raised exactly when a stop hook was due |
| TimeIteration.TimeIterator.AdaptiveLoop | cpp-sources/lib/src/time-iter.cpp:193-226 | the do-while computes Adapted: the step taken, the step proposed and the counters are its outcome; previous is kept and the delta pending is the accepted step's (0 when floored) |
| TimeIteration.TimeIterator.IntegrateIteration | cpp-sources/lib/src/time-iter.cpp:181-233 | throws exactly when adjustment is on without an estimator, changing nothing; otherwise the step, the proposal, the counters and the new value are IterationStep's and the entry is left cleared |
| TimeIteration.TimeIterator.BifurcateIteration | cpp-sources/lib/src/time-iter.cpp:235-247 | fires exactly when due: prepare then do, both at (time, time - last); then last = time |
| TimeIteration.TimeIterator.Iterate | cpp-sources/lib/src/time-iter.cpp:167-178 | a missing collaborator throws before anything happens; a missing estimator throws after the hooks have fired; otherwise the new state is AfterIteration |
| TimeIteration.TimeIterator.StepIteration | cpp-sources/lib/src/time-iter.cpp:171-177 | after call_hook: a throw changes nothing, otherwise the new state is Proceeded |
| TimeIteration.TimeIterator.FinishIteration | cpp-sources/lib/src/time-iter.cpp:172-177 | bifurcation, then the step is logged, time advances by it and the next step is taken up |
| TimeIteration.TimeIterator.Run | cpp-sources/lib/src/time-iter.cpp:310-315 | the stop flag is cleared first, so a stop requested before the run does not end it; the trace of the run shows every iteration starting before the stop time with no stop requested, and the stop flag it leaves raised exactly when a stop hook was due at its start; a completed run ends done or stopped at the trace's last point; the log gains the steps taken, each positive, and time advances by their sum; a run starting before the stop time takes at least one step |
| TimeIteration.TimeIterator.RunLoop | cpp-sources/lib/src/time-iter.cpp:313-314 | the loop, entered with no stop requested: it ends; each iteration it runs is a RunIteration from the point where the previous one ended; a completed loop ends done or stopped |
| TimeIteration.TimeIterator.RunStep | cpp-sources/lib/src/time-iter.cpp:313-314 | one pass of run's loop adds one positive step to the steps taken and one RunIteration to the trace, and shrinks the bound on the passes left; a throw adds neither |
| TimeIteration.TimeIterator.IterateInRun | cpp-sources/lib/src/time-iter.cpp:313-314 | a completed iterate started before the stop time with no stop requested is a RunIteration: due hooks fired, stop flag raised exactly when a stop hook was due, time moved on; it logs one step of at least the lower bound; a throw changes neither clock nor log |
| TimeIteration.OnlyLastIterationStops | cpp-sources/lib/src/time-iter.cpp:310-315 | in a run, every iteration but the last ends before the stop time and finds no stop hook due |
| TimeIteration.AdjustStep | cpp-sources/lib/src/time-iter.cpp:199-224 | the step arithmetic of one pass is Round: accepted when the error is under speedMax * dt; a floored pass is never accepted |
| TimeIteration.GrowStep | cpp-sources/lib/src/time-iter.cpp:217-224 | the growth test is Grown |
| TimeIteration.TrialLoop | cpp-sources/lib/src/time-iter.cpp:195-226 | the do-while loop computes Adapted; previous is kept; the pending delta is the accepted step's, or 0 when floored |
| TimeIteration.TrialRound | cpp-sources/lib/src/time-iter.cpp:196-225 | one pass of the loop body is one Round with the error for the current step; a rejected pass leaves the entry cleared |
| TimeIteration.EstimateTrial | cpp-sources/lib/src/time-iter.cpp:196-197 | the estimate reported is the error for the step; the entry keeps previous and holds the full-step delta |

## Left out

- `VariablesGroup` is declared in `cpp-sources/lib/dsiterpp/integration.hpp:102-116` with no implementation. VariablesGroup is not part of this model; only one scalar entry is modelled.
- The older trees (`cpp-sources/ode-cpp-lite/*`, `cpp-sources/dsiterpp/include/*`) do not agree with each other or with `lib/`. They are not part of this model.
- The two-argument stateful `IIntegrator` of `cpp-sources/lib/dsiterpp/integration.hpp:132-158` is not called by the engine. It is not modelled.
- User code is abstract:
  - the right-hand side is a function `f(t, x)`;
  - hook bodies and the two bifurcator calls are recorded as events;
  - the body of `PeriodicStopHook` is modelled, since the engine defines it.
- Floating point: all numbers are `real`. Rounding, overflow and accuracy against `exp(3)` are not modelled. The one IEEE behaviour kept is division by zero in the relative error.
- Concurrency: `stop()` is documented as callable from another thread, but it is a plain flag. It is modelled as a sequential flag, set by `Stop` or by a stop hook.
- The getters `get_step`, `get_time`, `get_stop_time` and `metrics()` are reads of the fields `dt`, `time`, `stopTime` and `metrics`. They have no members of their own. `is_done` is the predicate `IsDone`.
- TimeHooks.SortByTime: `std::sort` is not stable, so hooks with equal times may fire in any order. The model fixes one of those orders, registration order.
- TimeIteration.TimeIterator.AddHook: requires that the hook is not registered already. Registering one hook twice, which the source allows, is not modelled.
- TimeIteration.TimeIterator.Run: requires `CanProgress`: dt > 0, and with adjustment on also refining factor in [0, 1), floor > 0, coarsening factor >= 1 and ceiling > 0. Only some of these are needed for the source's loops to end: dt > 0 without adjustment; with it, refining factor < 1 and floor > 0 for the do-while loop, and coarsening factor >= 1 for the run. The others (refining factor >= 0, ceiling > 0, dt > 0 with adjustment on) are there so that the proof can use one lower bound on every step; without them the do-while loop still exits on the floor at its first rejection, and the run moves on by at least the floor. A run that does not end is not modelled. `is_self_consistent` accepts a refining factor of exactly 1.
- TimeIteration.TimeIterator.Iterate: with adjustment on, requires refining factor < 1, floor > 0 and dt > 0, so that the do-while loop exits. Of these, dt > 0 is for the proof only: a step of 0 or less is never accepted and is clamped to the floor at the first rejection.
- TimeIteration.TimeIterator.IntegrateIteration: the requests to the right-hand side are stated for a fixed step only. With adjustment on they are those of every trial step, and the contract does not list them.
- The iterator's methods require `Wired`: the right-hand side evaluates the variable the iterator steps. That is how `RHSScalar` is built.
- A stop hook (`stopsIterator`) stops the iterator whose hook list holds it. The source's `PeriodicStopHook` stops the iterator given to its constructor (`time-iter.cpp:333-341`); the model assumes this is the iterator the hook is registered with, and does not model a hook that stops another iterator.
- ErrorEstimation.RungeErrorEstimator.SetIntegrator: `RungeErrorEstimator` overrides `set_integrator` (`runge-error-estimator.hpp:14`), but the body of the override is not in the sources. The model follows the base class (`error-estimator.cpp:5-8`) and also sets the multiplier there, as the constructor line below explains.
- Integration.VariableScalar.SetValues: requires the position to be inside the buffer. Reading past the end is undefined behaviour in the source.
- Integration.VariableScalar.constructor: the source leaves the cached derivative uninitialised; the model starts it at 0.
- ErrorEstimation.RungeErrorEstimator.constructor: the source computes the multiplier here, through the integrator pointer, which is still null. The model computes it when an integrator is attached (`SetIntegrator`).
- ErrorEstimation.MaximumErrors: requires the three delta buffers to be at least as long as the values buffer. The source reads them at every index of the values buffer.

## Findings

| source | as written | input that shows it | evidently intended | confidence | as-written member | corrected member |
|---|---|---|---|---|---|---|
| cpp-sources/lib/src/time-iter.cpp:15-16 | `is_self_consistent` returns true when the minimum speed exceeds the maximum, skipping every other check | defaults with adjustment on, speed min 0.02 (> max 0.01) and refining factor 2: accepted | inverted speeds are inconsistent (return false) | high; not executed | StepAdjustment.InvertedSpeedsAcceptedAsWritten | StepAdjustment.CorrectedRejectsInvertedSpeeds |
| cpp-sources/lib/src/time-iter.cpp:217-224 | after a rejection the growth test runs with the stale error on the shrunk step; with the inverted speeds that the check accepts it can pass, so `max_step_limitations` is counted on a pass that rejects the step, and one `integrate_iteration` can count the ceiling more than once | defaults with adjustment on and speed min 0.05, relative error 1.5 dt², first step 0.01: rejected, shrunk to 0.005 and the ceiling counted; 0.005 accepted and the ceiling counted again, so the counter rises by 2 | one run of the loop counts the ceiling at most once, which holds once inverted speeds are refused | medium; not executed | StepAdjustment.StaleGrowthAsWritten | StepAdjustment.OrderedSpeedsCountCeilingOnce |

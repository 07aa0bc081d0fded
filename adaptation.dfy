/**
 * Step-size control of the time iterator: the adjustment parameters, their
 * consistency check, and the adaptive shrink/grow loop of
 * integrate_iteration, stated as a function of the errors the estimator
 * reports for each trial step.
 */
module StepAdjustment {
  import opened ErrorEstimation

  /**
   * StepAdjustmentParameters.  speedMin and speedMax are the
   * relative_deconvergence_speed_min/_max of the source: the relative error
   * allowed per unit of model time.
   */
  datatype StepAdjustmentParameters = StepAdjustmentParameters(
    autoStepAdjustment: bool,
    maxStepLimit: real,
    minStepLimit: real,
    speedMin: real,
    speedMax: real,
    refiningFactor: real,
    coarseningFactor: real)

  /** The default member initialisers. */
  const DefaultParameters := StepAdjustmentParameters(false, 0.001, 0.00001, 0.001, 0.01, 0.5, 1.5)

  // ---------------------------------------------------------------------
  // Consistency of the parameters

  /** is_self_consistent, branch for branch as the code reads. */
  predicate IsSelfConsistent(p: StepAdjustmentParameters) {
    if p.speedMin > p.speedMax then true
    else if !p.autoStepAdjustment then true
    else if p.refiningFactor > 1.0 then false
    else if p.maxStepLimit * p.refiningFactor < p.minStepLimit then false
    else if p.minStepLimit * p.coarseningFactor > p.maxStepLimit then false
    else true
  }

  /** The three conditions on the step limits and the factors. */
  predicate LimitsAgree(p: StepAdjustmentParameters) {
    && p.refiningFactor <= 1.0
    && p.maxStepLimit * p.refiningFactor >= p.minStepLimit
    && p.minStepLimit * p.coarseningFactor <= p.maxStepLimit
  }

  /** The check as evidently intended: speeds in the wrong order are inconsistent. */
  predicate IsSelfConsistentCorrected(p: StepAdjustmentParameters) {
    if p.speedMin > p.speedMax then false
    else if !p.autoStepAdjustment then true
    else LimitsAgree(p)
  }

  /**
   * With the speeds in order, is_self_consistent accepts everything when
   * auto-adjustment is off, and otherwise fails exactly when one of the
   * three limit conditions fails.
   */
  lemma SelfConsistencyCharacterised(p: StepAdjustmentParameters)
    requires p.speedMin <= p.speedMax
    ensures !p.autoStepAdjustment ==> IsSelfConsistent(p)
    ensures p.autoStepAdjustment ==> (IsSelfConsistent(p) <==> LimitsAgree(p))
  {
  }

  /**
   * As written, speeds in the wrong order make every parameter set
   * consistent: here auto-adjustment is on and the refining factor 2
   * would otherwise be refused.
   */
  lemma InvertedSpeedsAcceptedAsWritten()
    ensures var p := DefaultParameters.(autoStepAdjustment := true, speedMin := 0.02, refiningFactor := 2.0);
      && p.speedMin > p.speedMax && !LimitsAgree(p) && IsSelfConsistent(p)
  {
  }

  /**
   * The corrected check refuses speeds in the wrong order and otherwise
   * agrees with the check as written.
   */
  lemma CorrectedRejectsInvertedSpeeds(p: StepAdjustmentParameters)
    ensures IsSelfConsistentCorrected(p) ==> p.speedMin <= p.speedMax
    ensures IsSelfConsistentCorrected(p) && p.autoStepAdjustment ==> LimitsAgree(p)
    ensures p.speedMin <= p.speedMax ==> (IsSelfConsistentCorrected(p) <==> IsSelfConsistent(p))
  {
  }

  /** setup_relative_deconvergence_speed(rate): the maximum becomes rate and the minimum a thousandth of it. */
  function SetupRelativeDeconvergenceSpeed(p: StepAdjustmentParameters, rate: real): (r: StepAdjustmentParameters)
    ensures r.speedMax == rate && r.speedMin * 1000.0 == rate
    ensures r.(speedMin := p.speedMin, speedMax := p.speedMax) == p
  {
    p.(speedMax := rate, speedMin := rate * 0.001)
  }

  /**
   * After the setup with a non-negative rate the speeds are in order, so
   * both checks reduce to the limit conditions.
   */
  lemma SetupOrdersSpeeds(p: StepAdjustmentParameters, rate: real)
    requires rate >= 0.0
    ensures var q := SetupRelativeDeconvergenceSpeed(p, rate);
      && q.speedMin <= q.speedMax
      && (IsSelfConsistent(q) <==> IsSelfConsistentCorrected(q))
      && (IsSelfConsistentCorrected(q) <==> (!p.autoStepAdjustment || LimitsAgree(p)))
  {
  }

  /**
   * The defaults agree with each other even with auto-adjustment switched
   * on, also after the setup the adaptive unit test makes.
   */
  lemma DefaultsAreConsistent()
    ensures LimitsAgree(DefaultParameters)
    ensures IsSelfConsistentCorrected(DefaultParameters.(autoStepAdjustment := true))
    ensures IsSelfConsistent(SetupRelativeDeconvergenceSpeed(DefaultParameters.(autoStepAdjustment := true), 0.01 / 3.0))
  {
  }

  // ---------------------------------------------------------------------
  // The adaptive loop of integrate_iteration, as values

  /**
   * The loop state: the step under trial (m_dt), the step proposed for the
   * next iteration (next_dt), the floor and ceiling counters, whether the
   * loop has exited, and whether it exited through the floor.
   */
  datatype Trial = Trial(dt: real, next: real, minHits: nat, maxHits: nat, finished: bool, floored: bool)

  /** The state on entry: next_dt starts as m_dt. */
  function Start(dt: real, minHits: nat, maxHits: nat): (s: Trial)
    ensures s.next == s.dt && !s.finished && !s.floored
  {
    Trial(dt, dt, minHits, maxHits, false, false)
  }

  function Min(a: real, b: real): real {
    if a <= b then a else b
  }

  function Max(a: real, b: real): real {
    if a <= b then b else a
  }

  /**
   * The growth test closing every pass that does not break: a relative
   * error under speedMin * dt proposes dt * coarsening for the next
   * iteration, clamped to the ceiling, which is counted.
   */
  function Grown(p: StepAdjustmentParameters, err: Ratio, s: Trial): Trial {
    if Below(err, p.speedMin * s.dt) then
      var g := s.dt * p.coarseningFactor;
      if g > p.maxStepLimit then s.(next := p.maxStepLimit, maxHits := s.maxHits + 1)
      else s.(next := g)
    else s
  }

  /**
   * One pass of the do-while body, given the error reported for s.dt.  An
   * accepted trial exits after the growth test.  A rejected one shrinks
   * the step; under the floor the step is clamped, counted and the loop
   * exits at once, otherwise the growth test runs with the stale error and
   * the shrunk step.
   */
  function Round(p: StepAdjustmentParameters, e: IntegrationError, s: Trial): Trial {
    if Below(e.maxRelError, p.speedMax * s.dt) then
      Grown(p, e.maxRelError, s.(finished := true))
    else
      var dt := s.dt * p.refiningFactor;
      if dt < p.minStepLimit then
        s.(dt := p.minStepLimit, next := p.minStepLimit, minHits := s.minHits + 1, finished := true, floored := true)
      else
        Grown(p, e.maxRelError, s.(dt := dt, next := dt))
  }

  /** The loop state after k passes; a loop that has exited makes no more. */
  function Rounds(p: StepAdjustmentParameters, errAt: real -> IntegrationError, s0: Trial, k: nat): Trial {
    if k == 0 then s0
    else
      var s := Rounds(p, errAt, s0, k - 1);
      if s.finished then s else Round(p, errAt(s.dt), s)
  }

  /** A pass from a state in which the loop has not exited is one Round with the error reported for its step. */
  lemma RoundsNext(p: StepAdjustmentParameters, errAt: real -> IntegrationError, s0: Trial, k: nat, e: IntegrationError)
    requires !Rounds(p, errAt, s0, k).finished && e == errAt(Rounds(p, errAt, s0, k).dt)
    ensures Rounds(p, errAt, s0, k + 1) == Round(p, e, Rounds(p, errAt, s0, k))
  {
  }

  /** Once the loop has exited, further passes change nothing. */
  lemma {:induction false} RoundsStayFinished(p: StepAdjustmentParameters, errAt: real -> IntegrationError, s0: Trial, j: nat, k: nat)
    requires j <= k && Rounds(p, errAt, s0, j).finished
    ensures Rounds(p, errAt, s0, k) == Rounds(p, errAt, s0, j)
    decreases k
  {
    if j < k {
      RoundsStayFinished(p, errAt, s0, j, k - 1);
    }
  }

  /** What the loop needs to exit: a refining factor under 1, a positive floor and a positive first step. */
  predicate Terminates(p: StepAdjustmentParameters, dt: real) {
    p.refiningFactor < 1.0 && p.minStepLimit > 0.0 && dt > 0.0
  }

  // Helpers: facts of real arithmetic that ShrinkBy and BoundCovers rest on.
  // They model nothing in the source.

  /** The product of two non-negative numbers is not negative. */
  lemma NonNegProduct(a: real, b: real)
    requires a >= 0.0 && b >= 0.0
    ensures a * b >= 0.0
  {
  }

  /** Multiplying both sides by a non-negative factor keeps an inequality. */
  lemma ScaleMonotone(a: real, x: real, y: real)
    requires a >= 0.0 && x <= y
    ensures a * x <= a * y
  {
    NonNegProduct(a, y - x);
    assert a * (y - x) == a * y - a * x;
  }

  /** A factor of at least one does not shrink a non-negative number. */
  lemma AtLeastItself(x: real, f: real)
    requires x >= 0.0 && f >= 1.0
    ensures x * f >= x
  {
    NonNegProduct(x, f - 1.0);
    assert x * (f - 1.0) == x * f - x;
  }

  /** A factor of at most one does not grow a non-negative number. */
  lemma AtMostItself(x: real, f: real)
    requires x >= 0.0 && f <= 1.0
    ensures x * f <= x
  {
    NonNegProduct(x, 1.0 - f);
    assert x * (1.0 - f) == x - x * f;
  }

  /**
   * A rejection to dt r that stays at or above the floor m takes at least
   * d = (1 - r) m off the step, so a bound dt + (k-1) d <= dt0 becomes
   * dt r + k d <= dt0.
   */
  lemma ShrinkBy(dt: real, r: real, m: real, d: real, k: nat, dt0: real)
    requires r < 1.0 && dt > 0.0 && dt * r >= m > 0.0 && d == (1.0 - r) * m
    requires k >= 1 && dt + (k - 1) as real * d <= dt0
    ensures dt * r + k as real * d <= dt0
  {
    AtMostItself(dt, r);
    NonNegProduct(1.0 - r, dt - m);
    assert (1.0 - r) * (dt - m) == dt - dt * r - d;
    var a := (k - 1) as real;
    assert k as real == a + 1.0;
    assert (a + 1.0) * d == a * d + d;
  }

  /** PassBound rejections of d each add up to at least the first step x. */
  lemma BoundCovers(d: real, x: real, n: nat)
    requires d > 0.0 && x >= 0.0 && n == (x / d).Floor + 1
    ensures x <= n as real * d
  {
    var q := x / d;
    assert q * d == x;
    assert q <= n as real;
    ScaleMonotone(d, q, n as real);
  }

  // The three ways a pass can end, each stated on its own.

  /** A pass whose error is under speedMax * dt accepts the step and runs the growth test. */
  lemma RoundAccepted(p: StepAdjustmentParameters, e: IntegrationError, s: Trial)
    requires Below(e.maxRelError, p.speedMax * s.dt)
    ensures Round(p, e, s) == Grown(p, e.maxRelError, s.(finished := true))
  {
  }

  /** A rejected pass whose shrunk step is under the floor clamps both steps to the floor, counts and exits. */
  lemma RoundFloored(p: StepAdjustmentParameters, e: IntegrationError, s: Trial)
    requires !Below(e.maxRelError, p.speedMax * s.dt) && s.dt * p.refiningFactor < p.minStepLimit
    ensures Round(p, e, s)
         == s.(dt := p.minStepLimit, next := p.minStepLimit, minHits := s.minHits + 1, finished := true, floored := true)
  {
  }

  /** A rejected pass whose shrunk step stays at or above the floor runs the growth test on it. */
  lemma RoundRejected(p: StepAdjustmentParameters, e: IntegrationError, s: Trial)
    requires !Below(e.maxRelError, p.speedMax * s.dt) && s.dt * p.refiningFactor >= p.minStepLimit
    ensures Round(p, e, s) == Grown(p, e.maxRelError, s.(dt := s.dt * p.refiningFactor, next := s.dt * p.refiningFactor))
  {
  }

  /** The growth test only moves the proposal and the ceiling counter, and that one only up. */
  lemma GrownFrame(p: StepAdjustmentParameters, err: Ratio, s: Trial)
    ensures var g := Grown(p, err, s);
      g == s.(next := g.next, maxHits := g.maxHits) && g.maxHits >= s.maxHits
  {
  }

  /** A pass that does not exit shrinks the step by the refining factor and stays at or above the floor. */
  lemma RoundContinues(p: StepAdjustmentParameters, e: IntegrationError, s: Trial)
    ensures !Round(p, e, s).finished ==>
      Round(p, e, s).dt == s.dt * p.refiningFactor >= p.minStepLimit && Round(p, e, s).floored == s.floored
  {
    if Below(e.maxRelError, p.speedMax * s.dt) {
      RoundAccepted(p, e, s);
      GrownFrame(p, e.maxRelError, s.(finished := true));
    } else if s.dt * p.refiningFactor < p.minStepLimit {
      RoundFloored(p, e, s);
    } else {
      RoundRejected(p, e, s);
      GrownFrame(p, e.maxRelError, s.(dt := s.dt * p.refiningFactor, next := s.dt * p.refiningFactor));
    }
  }

  /** What each rejection that does not exit takes off the step at least. */
  function Decrement(p: StepAdjustmentParameters): (d: real)
    requires p.refiningFactor < 1.0 && p.minStepLimit > 0.0
    ensures d > 0.0
  {
    ScaleMonotone(p.minStepLimit, 0.0, 1.0 - p.refiningFactor);
    (1.0 - p.refiningFactor) * p.minStepLimit
  }

  /**
   * While the loop goes on, the step after k passes is still positive and
   * has lost at least k times (1 - refining) * floor.
   */
  lemma {:induction false} RejectionsShrink(p: StepAdjustmentParameters, errAt: real -> IntegrationError, s0: Trial, k: nat)
    requires Terminates(p, s0.dt) && !s0.finished
    ensures Shrinking(p, s0.dt, k, Rounds(p, errAt, s0, k))
  {
    if k > 0 {
      RejectionsShrink(p, errAt, s0, k - 1);
      var s := Rounds(p, errAt, s0, k - 1);
      if !s.finished {
        RejectionShrinks(p, errAt(s.dt), s, k, s0.dt);
      }
    }
  }

  /** While the loop goes on after k passes, the step is positive and at least k decrements under dt0. */
  predicate Shrinking(p: StepAdjustmentParameters, dt0: real, k: nat, s: Trial)
    requires p.refiningFactor < 1.0 && p.minStepLimit > 0.0
  {
    !s.finished ==> s.dt > 0.0 && s.dt + k as real * Decrement(p) <= dt0
  }

  /** The step of RejectionsShrink across one pass. */
  lemma RejectionShrinks(p: StepAdjustmentParameters, e: IntegrationError, s: Trial, k: nat, dt0: real)
    requires Terminates(p, s.dt) && k >= 1 && Shrinking(p, dt0, k - 1, s) && !s.finished
    ensures Shrinking(p, dt0, k, Round(p, e, s))
  {
    RoundContinues(p, e, s);
    if !Round(p, e, s).finished {
      ShrinkTrial(p, s, Round(p, e, s), k, dt0);
    }
  }

  /** One rejection that does not exit, in terms of the loop states before and after. */
  lemma ShrinkTrial(p: StepAdjustmentParameters, s: Trial, t: Trial, k: nat, dt0: real)
    requires p.refiningFactor < 1.0 && p.minStepLimit > 0.0 && s.dt > 0.0
    requires t.dt == s.dt * p.refiningFactor >= p.minStepLimit
    requires k >= 1 && s.dt + (k - 1) as real * Decrement(p) <= dt0
    ensures t.dt > 0.0 && t.dt + k as real * Decrement(p) <= dt0
  {
    ShrinkBy(s.dt, p.refiningFactor, p.minStepLimit, Decrement(p), k, dt0);
  }

  /** A number of passes after which the loop has certainly exited. */
  function PassBound(p: StepAdjustmentParameters, dt: real): nat
    requires Terminates(p, dt)
  {
    (dt / Decrement(p)).Floor as nat + 1
  }

  /** The do-while loop exits: after PassBound passes it has finished. */
  lemma LoopExits(p: StepAdjustmentParameters, errAt: real -> IntegrationError, s0: Trial)
    requires Terminates(p, s0.dt) && !s0.finished
    ensures Rounds(p, errAt, s0, PassBound(p, s0.dt)).finished
  {
    var n := PassBound(p, s0.dt);
    BoundCovers(Decrement(p), s0.dt, n);
    RejectionsShrink(p, errAt, s0, n);
  }

  /** A number of passes at which the loop has exited. */
  ghost function ExitCount(p: StepAdjustmentParameters, errAt: real -> IntegrationError, s0: Trial): (n: nat)
    requires Terminates(p, s0.dt) && !s0.finished
    ensures Rounds(p, errAt, s0, n).finished
  {
    LoopExits(p, errAt, s0);
    var n: nat :| Rounds(p, errAt, s0, n).finished;
    n
  }

  /**
   * The outcome of the adaptive loop that starts at s0: the state after a
   * number of passes at which the loop has exited.  Which such number is
   * taken does not matter (AdaptedAtAnyExit).
   */
  ghost function Adapted(p: StepAdjustmentParameters, errAt: real -> IntegrationError, s0: Trial): Trial
    requires Terminates(p, s0.dt) && !s0.finished
  {
    Rounds(p, errAt, s0, ExitCount(p, errAt, s0))
  }

  /** The outcome is the state after any number of passes at which the loop has exited. */
  lemma AdaptedAtAnyExit(p: StepAdjustmentParameters, errAt: real -> IntegrationError, s0: Trial, k: nat)
    requires Terminates(p, s0.dt) && !s0.finished && Rounds(p, errAt, s0, k).finished
    ensures Adapted(p, errAt, s0) == Rounds(p, errAt, s0, k)
  {
    var n := ExitCount(p, errAt, s0);
    if n <= k {
      RoundsStayFinished(p, errAt, s0, n, k);
    } else {
      RoundsStayFinished(p, errAt, s0, k, n);
    }
  }

  /** A loop state that has not exited is reached before the exit count. */
  lemma BeforeExit(p: StepAdjustmentParameters, errAt: real -> IntegrationError, s0: Trial, k: nat)
    requires Terminates(p, s0.dt) && !s0.finished && !Rounds(p, errAt, s0, k).finished
    ensures k < ExitCount(p, errAt, s0)
  {
    var n := ExitCount(p, errAt, s0);
    if n <= k {
      RoundsStayFinished(p, errAt, s0, n, k);
    }
  }

  /**
   * The bookkeeping of the loop: the floor counter has moved exactly when
   * the loop exited through the floor, the ceiling counter has not gone
   * down, a floored exit leaves both steps at the floor, and any other exit
   * is an accepted trial.
   */
  predicate Booked(p: StepAdjustmentParameters, errAt: real -> IntegrationError, s0: Trial, s: Trial) {
    && s.minHits == s0.minHits + (if s.floored then 1 else 0)
    && s.maxHits >= s0.maxHits
    && (s.floored ==> s.finished && s.dt == p.minStepLimit && s.next == p.minStepLimit)
    && (s.finished && !s.floored ==> Below(errAt(s.dt).maxRelError, p.speedMax * s.dt))
  }

  /** The bookkeeping holds after any number of passes. */
  lemma {:induction false} RoundsBookkeeping(p: StepAdjustmentParameters, errAt: real -> IntegrationError, s0: Trial, k: nat)
    requires !s0.finished && !s0.floored
    ensures Booked(p, errAt, s0, Rounds(p, errAt, s0, k))
  {
    if k > 0 {
      RoundsBookkeeping(p, errAt, s0, k - 1);
      var s := Rounds(p, errAt, s0, k - 1);
      if !s.finished {
        RoundBooked(p, errAt, s0, s);
      }
    }
  }

  /** One pass from a state that has not exited keeps the bookkeeping. */
  lemma RoundBooked(p: StepAdjustmentParameters, errAt: real -> IntegrationError, s0: Trial, s: Trial)
    requires Booked(p, errAt, s0, s) && !s.finished
    ensures Booked(p, errAt, s0, Round(p, errAt(s.dt), s))
  {
    RoundBookkeeping(p, errAt(s.dt), s);
  }

  /** The bookkeeping of RoundsBookkeeping across one pass. */
  lemma RoundBookkeeping(p: StepAdjustmentParameters, e: IntegrationError, s: Trial)
    requires !s.finished && !s.floored
    ensures var t := Round(p, e, s);
      && t.minHits == s.minHits + (if t.floored then 1 else 0)
      && t.maxHits >= s.maxHits
      && (t.floored ==> t.finished && t.dt == p.minStepLimit && t.next == p.minStepLimit)
      && (t.finished && !t.floored ==> Below(e.maxRelError, p.speedMax * t.dt))
  {
    if Below(e.maxRelError, p.speedMax * s.dt) {
      RoundAccepted(p, e, s);
      GrownFrame(p, e.maxRelError, s.(finished := true));
    } else if s.dt * p.refiningFactor < p.minStepLimit {
      RoundFloored(p, e, s);
    } else {
      RoundRejected(p, e, s);
      GrownFrame(p, e.maxRelError, s.(dt := s.dt * p.refiningFactor, next := s.dt * p.refiningFactor));
    }
  }

  /** The bounds of RoundStepBounds on one loop state. */
  predicate StepBounds(p: StepAdjustmentParameters, t: Trial, dt0: real) {
    && t.dt > 0.0
    && (!t.floored ==> t.dt <= dt0)
    && (t.dt >= dt0 || t.dt >= p.minStepLimit)
    && (t.next >= t.dt || t.next >= p.maxStepLimit)
    && (t.next <= t.dt || t.next <= p.maxStepLimit)
  }

  /** The growth test keeps the step and keeps the bounds. */
  lemma GrownBounds(p: StepAdjustmentParameters, err: Ratio, s: Trial, dt0: real)
    requires p.coarseningFactor >= 1.0 && StepBounds(p, s, dt0)
    ensures StepBounds(p, Grown(p, err, s), dt0)
    ensures Grown(p, err, s).dt == s.dt && Grown(p, err, s).floored == s.floored
  {
    AtLeastItself(s.dt, p.coarseningFactor);
  }

  /** A rejected pass that shrinks the step to dt, at or above the floor, keeps the bounds. */
  lemma ShrunkStepBounds(p: StepAdjustmentParameters, err: Ratio, s: Trial, dt: real, dt0: real)
    requires p.minStepLimit > 0.0 && p.coarseningFactor >= 1.0
    requires StepBounds(p, s, dt0) && !s.floored && p.minStepLimit <= dt <= s.dt
    ensures StepBounds(p, Grown(p, err, s.(dt := dt, next := dt)), dt0)
  {
    GrownBounds(p, err, s.(dt := dt, next := dt), dt0);
  }

  /** One pass keeps the step bounds of RoundsStepBounds. */
  lemma RoundStepBounds(p: StepAdjustmentParameters, e: IntegrationError, s: Trial, dt0: real)
    requires p.minStepLimit > 0.0 && 0.0 <= p.refiningFactor <= 1.0 && p.coarseningFactor >= 1.0
    requires !s.finished && !s.floored && StepBounds(p, s, dt0)
    ensures StepBounds(p, Round(p, e, s), dt0)
  {
    if Below(e.maxRelError, p.speedMax * s.dt) {
      AcceptedStepBounds(p, e, s, dt0);
    } else if s.dt * p.refiningFactor >= p.minStepLimit {
      RejectedStepBounds(p, e, s, dt0);
    } else {
      FlooredStepBounds(p, e, s, dt0);
    }
  }

  /** An accepted pass keeps the step bounds. */
  lemma AcceptedStepBounds(p: StepAdjustmentParameters, e: IntegrationError, s: Trial, dt0: real)
    requires p.coarseningFactor >= 1.0 && StepBounds(p, s, dt0)
    requires Below(e.maxRelError, p.speedMax * s.dt)
    ensures StepBounds(p, Round(p, e, s), dt0)
  {
    RoundAccepted(p, e, s);
    GrownBounds(p, e.maxRelError, s.(finished := true), dt0);
  }

  /** A rejected pass that stays at or above the floor keeps the step bounds. */
  lemma RejectedStepBounds(p: StepAdjustmentParameters, e: IntegrationError, s: Trial, dt0: real)
    requires p.minStepLimit > 0.0 && p.refiningFactor <= 1.0 && p.coarseningFactor >= 1.0
    requires !s.floored && StepBounds(p, s, dt0)
    requires !Below(e.maxRelError, p.speedMax * s.dt) && s.dt * p.refiningFactor >= p.minStepLimit
    ensures StepBounds(p, Round(p, e, s), dt0)
  {
    RejectedGrownBounds(p, e.maxRelError, s, dt0);
    RoundRejected(p, e, s);
  }

  /** The growth test on a shrunk step at or above the floor keeps the step bounds. */
  lemma RejectedGrownBounds(p: StepAdjustmentParameters, err: Ratio, s: Trial, dt0: real)
    requires p.minStepLimit > 0.0 && p.refiningFactor <= 1.0 && p.coarseningFactor >= 1.0
    requires !s.floored && StepBounds(p, s, dt0) && s.dt * p.refiningFactor >= p.minStepLimit
    ensures StepBounds(p, Grown(p, err, s.(dt := s.dt * p.refiningFactor, next := s.dt * p.refiningFactor)), dt0)
  {
    ShrunkInRange(p, s, dt0);
    ShrunkStepBounds(p, err, s, s.dt * p.refiningFactor, dt0);
  }

  /** A shrunk step at or above the floor lies between the floor and the step it came from. */
  lemma ShrunkInRange(p: StepAdjustmentParameters, s: Trial, dt0: real)
    requires p.refiningFactor <= 1.0 && StepBounds(p, s, dt0) && s.dt * p.refiningFactor >= p.minStepLimit
    ensures p.minStepLimit <= s.dt * p.refiningFactor <= s.dt
  {
    AtMostItself(s.dt, p.refiningFactor);
  }

  /** A pass clamped to the floor keeps the step bounds. */
  lemma FlooredStepBounds(p: StepAdjustmentParameters, e: IntegrationError, s: Trial, dt0: real)
    requires p.minStepLimit > 0.0
    requires !Below(e.maxRelError, p.speedMax * s.dt) && s.dt * p.refiningFactor < p.minStepLimit
    ensures StepBounds(p, Round(p, e, s), dt0)
  {
    RoundFloored(p, e, s);
  }

  /**
   * The bounds on the steps after any number of passes: the step stays
   * positive, never goes above where it started unless clamped to the
   * floor, never under the smaller of its start and the floor, and the
   * proposal for the next iteration lies between the smaller and the
   * larger of the step and the ceiling.
   */
  lemma {:induction false} RoundsStepBounds(p: StepAdjustmentParameters, errAt: real -> IntegrationError, s0: Trial, k: nat)
    requires p.minStepLimit > 0.0 && 0.0 <= p.refiningFactor <= 1.0 && p.coarseningFactor >= 1.0
    requires s0.dt > 0.0 && s0.next == s0.dt && !s0.finished && !s0.floored
    ensures var s := Rounds(p, errAt, s0, k);
      StepBounds(p, s, s0.dt) && (s.floored ==> s.finished)
  {
    if k > 0 {
      RoundsStepBounds(p, errAt, s0, k - 1);
      var s := Rounds(p, errAt, s0, k - 1);
      if !s.finished {
        RoundStepBounds(p, errAt(s.dt), s, s0.dt);
      }
    }
  }

  /**
   * The loop's outcome: it has exited; through the floor with both steps
   * at the floor and the floor counter up by one, or on an accepted trial
   * with the floor counter unchanged; and the ceiling counter has not gone
   * down.
   */
  lemma AdaptedOutcome(p: StepAdjustmentParameters, errAt: real -> IntegrationError, s0: Trial)
    requires Terminates(p, s0.dt) && s0 == Start(s0.dt, s0.minHits, s0.maxHits)
    ensures var s := Adapted(p, errAt, s0);
      && s.finished
      && (s.floored ==> s.dt == p.minStepLimit && s.next == p.minStepLimit && s.minHits == s0.minHits + 1)
      && (!s.floored ==> Below(errAt(s.dt).maxRelError, p.speedMax * s.dt) && s.minHits == s0.minHits)
      && s.maxHits >= s0.maxHits
  {
    RoundsBookkeeping(p, errAt, s0, ExitCount(p, errAt, s0));
    ExitOutcome(p, errAt, s0, Adapted(p, errAt, s0));
  }

  /** What the bookkeeping says about a state in which the loop has exited. */
  lemma ExitOutcome(p: StepAdjustmentParameters, errAt: real -> IntegrationError, s0: Trial, s: Trial)
    requires s.finished && Booked(p, errAt, s0, s)
    ensures s.floored ==> s.dt == p.minStepLimit && s.next == p.minStepLimit && s.minHits == s0.minHits + 1
    ensures !s.floored ==> Below(errAt(s.dt).maxRelError, p.speedMax * s.dt) && s.minHits == s0.minHits
    ensures s.maxHits >= s0.maxHits
  {
  }

  /**
   * With a positive ceiling and a growth factor of at least one, the step
   * taken is at least the smaller of the first step and the floor, and the
   * step the loop proposes for the next iteration is bounded below by the
   * smallest of the first step, the floor and the ceiling, and above by
   * the largest of the accepted step and the ceiling.
   */
  lemma AdaptedNextBounds(p: StepAdjustmentParameters, errAt: real -> IntegrationError, s0: Trial)
    requires Terminates(p, s0.dt) && s0 == Start(s0.dt, s0.minHits, s0.maxHits)
    requires p.refiningFactor >= 0.0 && p.coarseningFactor >= 1.0 && p.maxStepLimit > 0.0
    ensures var s := Adapted(p, errAt, s0);
      && s.dt > 0.0 && (s.dt >= s0.dt || s.dt >= p.minStepLimit)
      && Min(Min(s0.dt, p.minStepLimit), p.maxStepLimit) <= s.next <= Max(s.dt, p.maxStepLimit)
  {
    RoundsStepBounds(p, errAt, s0, ExitCount(p, errAt, s0));
  }

  /**
   * With the speeds in order (as the corrected check demands), a rejected
   * trial never proposes a larger step: the growth test that follows a
   * rejection cannot pass, since the error is at least speedMax * dt and
   * the shrunk bound speedMin * dt * refining is not above it.
   */
  lemma OrderedSpeedsNeverGrowRejected(p: StepAdjustmentParameters, e: IntegrationError, s: Trial)
    requires p.speedMin <= p.speedMax && 0.0 < p.refiningFactor <= 1.0
    requires s.dt > 0.0 && (e.maxRelError.Finite? ==> e.maxRelError.value >= 0.0)
    requires !Below(e.maxRelError, p.speedMax * s.dt)
    ensures var t := Round(p, e, s);
      && !t.floored ==> t.next == t.dt && t.dt == s.dt * p.refiningFactor && t.maxHits == s.maxHits
  {
    if s.dt * p.refiningFactor < p.minStepLimit {
      RoundFloored(p, e, s);
    } else {
      RoundRejected(p, e, s);
      StaleGrowthFails(p, e.maxRelError, s);
      GrownUnchanged(p, e.maxRelError, s, s.dt * p.refiningFactor);
    }
  }

  /** With the speeds in order, the stale error of a rejected step fails the growth test on the shrunk step. */
  lemma StaleGrowthFails(p: StepAdjustmentParameters, err: Ratio, s: Trial)
    requires p.speedMin <= p.speedMax && 0.0 < p.refiningFactor <= 1.0 && s.dt > 0.0
    requires (err.Finite? ==> err.value >= 0.0) && !Below(err, p.speedMax * s.dt)
    ensures !Below(err, p.speedMin * (s.dt * p.refiningFactor))
  {
    if err.Finite? {
      StaleErrorTooLarge(err.value, p.speedMin, p.speedMax, s.dt, p.refiningFactor);
    }
  }

  /** A failed growth test on a shrunk step dt leaves both steps at dt. */
  lemma GrownUnchanged(p: StepAdjustmentParameters, err: Ratio, s: Trial, dt: real)
    requires !Below(err, p.speedMin * dt)
    ensures Grown(p, err, s.(dt := dt, next := dt)) == s.(dt := dt, next := dt)
  {
  }

  /**
   * An error v >= speedMax dt is not under speedMin (dt r) when
   * speedMin <= speedMax, 0 < r <= 1, dt > 0 and v >= 0.
   */
  lemma StaleErrorTooLarge(v: real, speedMin: real, speedMax: real, dt: real, r: real)
    requires speedMin <= speedMax && 0.0 < r <= 1.0 && dt > 0.0 && v >= 0.0 && v >= speedMax * dt
    ensures !(v < speedMin * (dt * r))
  {
    NonNegProduct(dt, r);
    if speedMin > 0.0 {
      ScaleMonotone(dt * r, speedMin, speedMax);
      AtMostItself(dt, r);
      ScaleMonotone(speedMax, dt * r, dt);
    } else {
      ScaleMonotone(dt * r, speedMin, 0.0);
    }
  }

  /**
   * With the speeds in order, one pass counts the ceiling at most once, and
   * a pass after which the loop goes on does not count it at all.
   */
  lemma RoundCountsCeilingOnce(p: StepAdjustmentParameters, e: IntegrationError, s: Trial)
    requires p.speedMin <= p.speedMax && 0.0 < p.refiningFactor <= 1.0
    requires s.dt > 0.0 && (e.maxRelError.Finite? ==> e.maxRelError.value >= 0.0)
    ensures var t := Round(p, e, s);
      && t.maxHits <= s.maxHits + 1
      && (!t.finished ==> t.maxHits == s.maxHits)
  {
    if Below(e.maxRelError, p.speedMax * s.dt) {
      RoundAccepted(p, e, s);
      GrownFrame(p, e.maxRelError, s.(finished := true));
    } else if s.dt * p.refiningFactor < p.minStepLimit {
      RoundFloored(p, e, s);
    } else {
      RoundRejected(p, e, s);
      StaleGrowthFails(p, e.maxRelError, s);
      GrownUnchanged(p, e.maxRelError, s, s.dt * p.refiningFactor);
    }
  }

  /** The counting of RoundCountsCeilingOnce after any number of passes. */
  lemma {:induction false} RoundsCountCeilingOnce(p: StepAdjustmentParameters, errAt: real -> IntegrationError, s0: Trial, k: nat)
    requires p.speedMin <= p.speedMax && 0.0 < p.refiningFactor
    requires forall d :: errAt(d).maxRelError.Finite? ==> errAt(d).maxRelError.value >= 0.0
    requires Terminates(p, s0.dt) && !s0.finished
    ensures var s := Rounds(p, errAt, s0, k);
      && s.maxHits <= s0.maxHits + 1
      && (!s.finished ==> s.maxHits == s0.maxHits)
  {
    if k > 0 {
      RoundsCountCeilingOnce(p, errAt, s0, k - 1);
      var s := Rounds(p, errAt, s0, k - 1);
      if !s.finished {
        RejectionsShrink(p, errAt, s0, k - 1);
        RoundCountsCeilingOnce(p, errAt(s.dt), s);
      }
    }
  }

  /**
   * With the speeds in order (as the corrected check demands) and the
   * non-negative relative errors the estimator reports, one run of the
   * adaptive loop adds at most one to the ceiling counter.
   */
  lemma OrderedSpeedsCountCeilingOnce(p: StepAdjustmentParameters, errAt: real -> IntegrationError, s0: Trial)
    requires p.speedMin <= p.speedMax && 0.0 < p.refiningFactor
    requires forall d :: errAt(d).maxRelError.Finite? ==> errAt(d).maxRelError.value >= 0.0
    requires Terminates(p, s0.dt) && !s0.finished
    ensures Adapted(p, errAt, s0).maxHits <= s0.maxHits + 1
  {
    RoundsCountCeilingOnce(p, errAt, s0, ExitCount(p, errAt, s0));
  }

  /**
   * As written the consistency check lets the speeds be inverted, and then
   * the growth test that follows a rejection can pass on the stale error
   * and count the ceiling although the loop goes on.  With a relative
   * error of 1.5 dt^2 and a first step of 0.01: the step is rejected and
   * shrunk to 0.005, the stale error 0.00015 passes the growth test and the
   * ceiling is counted; its proposal 0.001 is only intermediate.  The step
   * 0.005 is then accepted, grows into the ceiling again, and one run of
   * the loop has counted the ceiling twice.
   */
  lemma StaleGrowthAsWritten()
    ensures var p := DefaultParameters.(autoStepAdjustment := true, speedMin := 0.05);
      var errAt := (d: real) => IntegrationError(0.0, Finite(1.5 * d * d));
      var s0 := Start(0.01, 0, 0);
      var t := Round(p, errAt(0.01), s0);
      && IsSelfConsistent(p) && !IsSelfConsistentCorrected(p) && Terminates(p, s0.dt)
      && !t.finished && t.dt == 0.005 && t.next == 0.001 && t.maxHits == 1
      && Adapted(p, errAt, s0) == Trial(0.005, 0.001, 0, 2, true, false)
  {
    var p := DefaultParameters.(autoStepAdjustment := true, speedMin := 0.05);
    var errAt := (d: real) => IntegrationError(0.0, Finite(1.5 * d * d));
    var s0 := Start(0.01, 0, 0);
    var t := Round(p, errAt(0.01), s0);
    assert Rounds(p, errAt, s0, 1) == t;
    assert Rounds(p, errAt, s0, 2) == Round(p, errAt(0.005), t);
    AdaptedAtAnyExit(p, errAt, s0, 2);
  }
}

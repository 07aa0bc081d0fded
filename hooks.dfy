/**
 * Periodic time hooks (TimeHookPeriodic and its two subclasses,
 * TimeHookPeriodicFunc and PeriodicStopHook) and the order in which the
 * time iterator fires the hooks that are due.
 *
 * A hook keeps the model time it next wants to run at, its period and the
 * time it last ran.  The body of a hook is user code; the iterator records
 * that it ran (see TimeIteration), and a stop hook's body is the one thing
 * the engine itself defines: it asks the iterator to stop.
 */
module TimeHooks {

  /** The value view of a periodic hook. */
  datatype HookState = HookState(nextRun: real, period: real, lastRun: real)

  /** The default member initialisers. */
  const NewHook := HookState(0.0, 1.0, 0.0)

  /** run_hook(time): remember the time, then move the next run on by one period. */
  function Ran(h: HookState, time: real): HookState {
    h.(lastRun := time, nextRun := h.nextRun + h.period)
  }

  /** set_period(period): the next run is one period after time 0. */
  function PeriodSet(h: HookState, period: real): HookState {
    h.(period := period, nextRun := period)
  }

  /** The hook after running at each of the given times in turn. */
  function RunAt(h: HookState, times: seq<real>): HookState
    decreases |times|
  {
    if times == [] then h else RunAt(Ran(h, times[0]), times[1..])
  }

  /**
   * Every run moves the next run on by exactly one period and keeps the
   * period; the last run is the last time it ran at.
   */
  lemma {:induction false} RunsAdvance(h: HookState, times: seq<real>)
    ensures RunAt(h, times).nextRun == h.nextRun + |times| as real * h.period
    ensures RunAt(h, times).period == h.period
    ensures times == [] ==> RunAt(h, times) == h
    ensures times != [] ==> RunAt(h, times).lastRun == times[|times| - 1]
    decreases |times|
  {
    if times != [] {
      RunsAdvance(Ran(h, times[0]), times[1..]);
    }
  }

  /**
   * A new hook is due at time 0 and then every unit of time; after
   * set_period(period) and k runs it is next due at (k + 1) * period,
   * whenever the runs happened.
   */
  lemma PeriodicSchedule(h: HookState, period: real, times: seq<real>)
    ensures NewHook.nextRun == 0.0 && RunAt(NewHook, times).nextRun == |times| as real
    ensures RunAt(PeriodSet(h, period), times).nextRun == (|times| + 1) as real * period
  {
    RunsAdvance(NewHook, times);
    RunsAdvance(PeriodSet(h, period), times);
  }

  class TimeHookPeriodic {
    var nextRun: real
    var period: real
    var lastRun: real
    /** True for a PeriodicStopHook, false for a TimeHookPeriodicFunc. */
    const stopsIterator: bool

    function State(): HookState
      reads this
    {
      HookState(nextRun, period, lastRun)
    }

    constructor (stopsIterator: bool)
      ensures State() == NewHook && this.stopsIterator == stopsIterator
    {
      nextRun := 0.0;
      period := 1.0;
      lastRun := 0.0;
      this.stopsIterator := stopsIterator;
    }

    /**
     * run_hook(time).  The hook body runs between the two updates and is
     * handed the time it was planned for, which is returned here.
     */
    method RunHook(time: real) returns (wanted: real)
      modifies this
      ensures wanted == old(nextRun)
      ensures State() == Ran(old(State()), time)
    {
      lastRun := time;
      wanted := nextRun;
      nextRun := nextRun + period;
    }

    /** get_next_time */
    function GetNextTime(): (t: real)
      reads this
      ensures t == State().nextRun
    {
      nextRun
    }

    method SetPeriod(period: real)
      modifies this
      ensures State() == PeriodSet(old(State()), period)
    {
      this.period := period;
      nextRun := period;
    }

    /** get_period */
    function GetPeriod(): (p: real)
      reads this
      ensures p == State().period
    {
      period
    }
  }

  // ---------------------------------------------------------------------
  // Which hooks are due, and in what order they fire

  /** A hook that is due: its next run time and its position in the iterator's list. */
  datatype Due = Due(time: real, index: nat)

  /** The hooks among the first n whose next run is at or before now, in list order. */
  function DueAmong(times: seq<real>, now: real, n: nat): seq<Due>
    requires n <= |times|
  {
    if n == 0 then []
    else DueAmong(times, now, n - 1) + (if times[n - 1] <= now then [Due(times[n - 1], n - 1)] else [])
  }

  /**
   * The due list holds exactly the hooks whose next run is at or before
   * now, each with its own next run time, in increasing list position.
   */
  lemma {:induction false} DueExactly(times: seq<real>, now: real, n: nat)
    requires n <= |times|
    ensures forall d :: d in DueAmong(times, now, n) <==> d.index < n && times[d.index] == d.time && d.time <= now
    ensures forall i, j :: 0 <= i < j < |DueAmong(times, now, n)| ==>
              DueAmong(times, now, n)[i].index < DueAmong(times, now, n)[j].index
  {
    if n > 0 {
      DueExactly(times, now, n - 1);
    }
  }

  /** Earlier time first; equal times in list order. */
  predicate Precedes(a: Due, b: Due) {
    a.time < b.time || (a.time == b.time && a.index < b.index)
  }

  predicate Ordered(s: seq<Due>) {
    forall i, j :: 0 <= i < j < |s| ==> Precedes(s[i], s[j])
  }

  predicate DistinctIndices(s: seq<Due>) {
    forall i, j :: 0 <= i < j < |s| ==> s[i].index != s[j].index
  }

  function Insert(x: Due, s: seq<Due>): seq<Due> {
    if s == [] || Precedes(x, s[0]) then [x] + s else [s[0]] + Insert(x, s[1..])
  }

  /**
   * The std::sort of call_hook by time.  std::sort is not stable, so the
   * order of hooks with equal times is up to the library; the model takes
   * list order for them.
   */
  function SortByTime(s: seq<Due>): seq<Due> {
    if s == [] then [] else Insert(s[0], SortByTime(s[1..]))
  }

  lemma {:induction false} InsertPermutes(x: Due, s: seq<Due>)
    ensures multiset(Insert(x, s)) == multiset(s) + multiset{x}
  {
    if s != [] && !Precedes(x, s[0]) {
      InsertPermutes(x, s[1..]);
      assert s == [s[0]] + s[1..];
    }
  }

  lemma {:induction false} InsertOrdered(x: Due, s: seq<Due>)
    requires Ordered(s) && forall y | y in s :: y.index != x.index
    ensures Ordered(Insert(x, s))
  {
    if s != [] && !Precedes(x, s[0]) {
      var t := s[1..];
      assert forall y | y in t :: y in s;
      InsertOrdered(x, t);
      InsertPermutes(x, t);
      var r := Insert(x, t);
      forall j | 0 <= j < |r|
        ensures Precedes(s[0], r[j])
      {
        assert r[j] in multiset(t) + multiset{x};
        if r[j] != x {
          var k :| 0 <= k < |t| && t[k] == r[j];
          assert s[k + 1] == r[j];
        }
      }
    }
  }

  /** Sorting changes the order of the due hooks and nothing else. */
  lemma {:induction false} SortPermutes(s: seq<Due>)
    ensures multiset(SortByTime(s)) == multiset(s)
  {
    if s != [] {
      SortPermutes(s[1..]);
      InsertPermutes(s[0], SortByTime(s[1..]));
      assert s == [s[0]] + s[1..];
    }
  }

  /** With distinct list positions the sorted hooks are in Precedes order. */
  lemma {:induction false} SortOrdered(s: seq<Due>)
    requires DistinctIndices(s)
    ensures Ordered(SortByTime(s))
  {
    if s != [] {
      var t := s[1..];
      assert DistinctIndices(t) by {
        forall i, j | 0 <= i < j < |t| ensures t[i].index != t[j].index {
          assert t[i] == s[i + 1] && t[j] == s[j + 1];
        }
      }
      SortOrdered(t);
      SortPermutes(t);
      forall y | y in SortByTime(t)
        ensures y.index != s[0].index
      {
        assert y in multiset(t);
        var k :| 0 <= k < |t| && t[k] == y;
        assert s[k + 1] == y;
      }
      InsertOrdered(s[0], SortByTime(t));
    }
  }

  /** The order in which call_hook fires the hooks, given their next run times. */
  function FiringOrder(times: seq<real>, now: real): seq<Due> {
    SortByTime(DueAmong(times, now, |times|))
  }

  /**
   * call_hook fires exactly the hooks whose next run is at or before now,
   * each once (the list positions are distinct), with the time it was due,
   * in non-decreasing time.
   */
  lemma FiringOrderCorrect(times: seq<real>, now: real)
    ensures var o := FiringOrder(times, now);
      && (forall d :: d in o <==> d.index < |times| && times[d.index] == d.time && d.time <= now)
      && DistinctIndices(o)
      && (forall i, j :: 0 <= i < j < |o| ==> o[i].time <= o[j].time)
  {
    var due := DueAmong(times, now, |times|);
    DueExactly(times, now, |times|);
    SortPermutes(due);
    SortOrdered(due);
    var o := FiringOrder(times, now);
    forall d
      ensures d in o <==> d in due
    {
      assert d in o <==> d in multiset(o);
    }
  }
}

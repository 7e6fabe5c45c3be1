/** What the retry intervals amount to as waits, and when waits never shrink. */
module Delays {
  import opened Json
  import opened Handlers
  import opened Lifecycle
  import opened Convergence

  /** time.ParseDuration, and the wait until an absolute timestamp, as seen from now. */
  datatype Clock = Clock(parse: string -> Option<int>, until: string -> int)

  /** AfterTimestamp, as a wait: an interval that is no duration is no wait at all. */
  function Wait(clock: Clock, after: string): int
  {
    if after == "" then 0
    else if 'T' in after then clock.until(after)
    else match clock.parse(after)
         case None => 0
         case Some(d) => d
  }

  function WaitAt(clock: Clock, intervals: seq<string>, count: nat): int
    requires intervals != []
  {
    Wait(clock, Interval(count, intervals).value)
  }

  predicate NeverShrinks(clock: Clock, intervals: seq<string>)
  {
    forall i, j :: 0 <= i < j < |intervals| ==> Wait(clock, intervals[i]) <= Wait(clock, intervals[j])
  }

  /** A larger count never waits less exactly when the schedule's own waits are sorted, those
      of the intervals that are no duration counting as none. */
  lemma {:induction false} WaitsGrowIff(clock: Clock, intervals: seq<string>)
    requires intervals != []
    ensures (forall m: nat, n: nat :: m <= n ==> WaitAt(clock, intervals, m) <= WaitAt(clock, intervals, n))
            <==> NeverShrinks(clock, intervals)
  {
    hide Wait;
    if NeverShrinks(clock, intervals) {
      forall m: nat, n: nat | m <= n ensures WaitAt(clock, intervals, m) <= WaitAt(clock, intervals, n) {
      }
    } else {
      var i, j :| 0 <= i < j < |intervals| && Wait(clock, intervals[i]) > Wait(clock, intervals[j]);
      assert WaitAt(clock, intervals, i) > WaitAt(clock, intervals, j);
    }
  }

  /** The tenth retry of the default schedule waits for "1d", which is no duration. */
  lemma DefaultScheduleShrinks(clock: Clock)
    requires clock.parse("1d").None? && clock.parse("16h").Some? && clock.parse("16h").value > 0
    ensures WaitAt(clock, DEFAULT_RETRY_INTERVALS, 9) == 0 < WaitAt(clock, DEFAULT_RETRY_INTERVALS, 8)
  {
  }

  const DEFAULT_RETRY_INTERVALS := ["1m", "5m", "10m", "30m", "1h", "2h", "4h", "8h", "16h", "1d"]

  // ----- over a life

  /** How long the i-th attempt has Anarchy wait before the next run. */
  ghost function WaitBehind(clock: Clock, t: Tally, attempts: seq<Attempt>, i: nat): int
    requires i < |attempts|
  {
    var o := RunOfStart(TallyOf(t, attempts[..i]).held, attempts[i]);
    match o.run.result.cont
    case None => 0
    case Some(next) => Wait(clock, next.after)
  }

  lemma {:induction false} Beginning(merge: bool, t: Tally, attempts: seq<Attempt>, n: nat)
    requires n <= |attempts| && Unfinished(t, attempts) && Undisturbed(merge, t, attempts)
    ensures Unfinished(t, attempts[..n]) && Undisturbed(merge, t, attempts[..n])
  {
    hide Wanted, Completes, Faulted, TallyOf, VarsOf;
    var front := attempts[..n];
    forall i | 0 <= i < n ensures front[..i] == attempts[..i] && front[i] == attempts[i] {}
  }

  lemma {:induction false} FailuresGrow(attempts: seq<Attempt>, n: nat)
    requires n <= |attempts|
    ensures Failures(attempts[..n]) <= Failures(attempts)
    decreases |attempts|
  {
    if n < |attempts| {
      var front := attempts[..|attempts| - 1];
      FailuresGrow(front, n);
      assert front[..n] == attempts[..n];
    } else {
      assert attempts[..n] == attempts;
    }
  }

  lemma {:induction false} WaitOfFailure(clock: Clock, merge: bool, t: Tally, attempts: seq<Attempt>, i: nat)
    requires RecordsOk(t.subject) && t.failedJobs == 0 && t.polls == 0 && t.faults == 0
    requires Unfinished(t, attempts) && Undisturbed(merge, t, attempts)
    requires i < |attempts| && Fails(attempts[i]) && attempts[i].c.cfg.retryIntervals != []
    ensures WaitBehind(clock, t, attempts, i)
            == WaitAt(clock, attempts[i].c.cfg.retryIntervals, if merge then Failures(attempts[..i]) else 0)
  {
    hide RunOfStart, Fails, Unfinished, Undisturbed, Failures, TallyOf, Wait;
    Beginning(merge, t, attempts, i + 1);
    assert attempts[..i + 1][..i] == attempts[..i];
    RetryDelay(merge, t, attempts[..i + 1]);
  }

  /** In a life without faults and with a sorted schedule, no retry waits less than an earlier one. */
  lemma {:induction false} RetriesNeverHasten(clock: Clock, merge: bool, t: Tally, attempts: seq<Attempt>,
                                              intervals: seq<string>, i: nat, j: nat)
    requires RecordsOk(t.subject) && t.failedJobs == 0 && t.polls == 0 && t.faults == 0
    requires Unfinished(t, attempts) && Undisturbed(merge, t, attempts)
    requires intervals != [] && NeverShrinks(clock, intervals)
    requires i < j < |attempts| && Fails(attempts[i]) && Fails(attempts[j])
    requires attempts[i].c.cfg.retryIntervals == attempts[j].c.cfg.retryIntervals == intervals
    ensures WaitBehind(clock, t, attempts, i) <= WaitBehind(clock, t, attempts, j)
  {
    hide WaitBehind, Unfinished, Undisturbed, Fails, Wait, RecordsOk, Failures, WaitAt, NeverShrinks;
    WaitOfFailure(clock, merge, t, attempts, i);
    WaitOfFailure(clock, merge, t, attempts, j);
    FailuresGrow(attempts[..j], i);
    assert attempts[..j][..i] == attempts[..i];
    WaitsGrowIff(clock, intervals);
  }
}

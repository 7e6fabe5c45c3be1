/** A stopped subject that is wanted started gets started, in a number of runs bounded by what
    goes wrong. */
module Convergence {
  import opened Json
  import opened Subjects
  import opened Handlers
  import opened Lifecycle
  import opened Lives

  /** A run of the start action on the subject as others have left it; posted: its result reached
      Anarchy. A run that failed, or whose result did not arrive, is dispatched again. */
  datatype Attempt = Attempt(c: Context, snapshot: Subject, posted: bool)

  /** The subject, and how much of each kind of trouble there was. */
  datatype Tally = Tally(subject: Subject, held: set<string>, failedJobs: nat, polls: nat, faults: nat)

  function RunOfStart(held: set<string>, a: Attempt): Out
  {
    Handled(a.c, Fresh(a.snapshot, held), Act(Start))
  }

  /** The action is over: the run finished it as successful and Anarchy knows. */
  predicate Completes(held: set<string>, a: Attempt)
  {
    var o := RunOfStart(held, a);
    !o.err && a.posted && o.run.result.finish == Some(Complete)
  }

  /** A handler error or panic, or a lost result. */
  predicate Faulted(held: set<string>, a: Attempt)
  {
    RunOfStart(held, a).err || !a.posted
  }

  ghost function Tallied(t: Tally, a: Attempt): Tally
  {
    var o := RunOfStart(t.held, a);
    var polled := a.snapshot.current == Running(Start) && !Faulted(t.held, a);
    var poll := a.c.world.poll;
    Tally(o.run.subject, o.run.held,
          t.failedJobs + (if polled && poll.JobEnded? && poll.outcome.Fail? then 1 else 0),
          t.polls + (if polled && !poll.JobEnded? then 1 else 0),
          t.faults + (if Faulted(t.held, a) then 1 else 0))
  }

  /** Others keep out of the states, and the subject stays wanted. */
  predicate Wanted(before: Subject, a: Attempt)
  {
    && Allowed(before, a.snapshot)
    && a.snapshot.desired == ToBeStarted && !a.snapshot.deleting
    && !a.c.cfg.disabled(Start)
  }

  ghost function TallyOf(t: Tally, attempts: seq<Attempt>): Tally
  {
    if attempts == [] then t else Tallied(TallyOf(t, attempts[..|attempts| - 1]), attempts[|attempts| - 1])
  }

  /** All the attempts are made on a wanted subject and none of them completes the action. */
  ghost predicate Unfinished(t: Tally, attempts: seq<Attempt>)
  {
    forall i :: 0 <= i < |attempts| ==>
      && Wanted(TallyOf(t, attempts[..i]).subject, attempts[i])
      && !Completes(TallyOf(t, attempts[..i]).held, attempts[i])
  }

  /** The action variable that counts retries. */
  const RETRIES := "action_retry_count"

  function Phase(s: Subject): nat
  {
    if s.current == Running(Start) then 0 else 1
  }

  lemma {:induction false} LaunchMovesOn(c: Context, r: Run)
    requires !LaunchedAndPolled(c, r, Start).err
    ensures LaunchedAndPolled(c, r, Start).run.subject.current == Running(Start)
    ensures LaunchedAndPolled(c, r, Start).run.result.cont.Some?
    ensures LaunchedAndPolled(c, r, Start).run.result.cont.value.vars == map[]
    ensures LaunchedAndPolled(c, r, Start).run.result.finish == r.result.finish
  {
  }

  /** Without a fault a run that does not poll launches, and the action goes on. */
  lemma {:induction false} LaunchingRun(held: set<string>, a: Attempt)
    requires !a.c.cfg.disabled(Start) && a.snapshot.current != Running(Start)
    requires !RunOfStart(held, a).err
    ensures var o := RunOfStart(held, a);
            && o.run.subject.current == Running(Start) && o.run.result.cont.Some? && o.run.result.finish.None?
            && o.run.result.cont.value.vars == map[]
  {
    hide LookedUp, PlacementActed, LaunchedAndPolled;
    var r := Fresh(a.snapshot, held);
    var q := Begun(a.c, r, Start).run;
    PlacementActedQuiet(a.c, q, Start);
    var z := if a.c.cfg.sandboxInUse && a.c.cfg.sandboxAction(Start) then PlacementActed(a.c, q, Start).run else q;
    LookedUpQuiet(a.c, z, Start);
    LaunchMovesOn(a.c, LookedUp(a.c, z, Start));
  }

  lemma {:induction false} FailedJobHandled(c: Context, r: Run, f: Failure)
    requires r.result == NO_DIRECTIVE && r.payload.desired == ToBeStarted && !r.payload.deleting
    requires !JobEndHandled(c, r, Start, Fail(f)).err
    ensures var q := JobEndHandled(c, r, Start, Fail(f)).run;
            && q.subject.current == Ended(Start, f) && q.result.cont.Some? && q.result.finish.None?
            && q.result.cont.value.vars == (if f.Canceled? then map[] else map[RETRIES := Count(c.vars, RETRIES) + 1])
            && (!f.Canceled? ==> Interval(Count(c.vars, RETRIES), c.cfg.retryIntervals) == Some(q.result.cont.value.after))
  {
  }

  lemma {:induction false} StartedJobHandled(c: Context, r: Run)
    requires !JobEndHandled(c, r, Start, Complete).err
    ensures var q := JobEndHandled(c, r, Start, Complete).run;
            q.subject.current == Started && q.result.finish == Some(Complete)
  {
  }

  /** Without a fault a poll either leaves the state, or finds the job failed and has it launched
      again, or completes the action with the subject started. */
  lemma {:induction false} PollingRun(held: set<string>, a: Attempt)
    requires !a.c.cfg.disabled(Start) && a.snapshot.current == Running(Start) && RecordsOk(a.snapshot)
    requires a.snapshot.desired == ToBeStarted && !a.snapshot.deleting
    requires !RunOfStart(held, a).err
    ensures var q := RunOfStart(held, a).run;
            match a.c.world.poll
            case JobEnded(Complete) => q.subject.current == Started && q.result.finish == Some(Complete)
            case JobEnded(Fail(f)) =>
              && q.subject.current == Ended(Start, f) && q.result.cont.Some? && q.result.finish.None?
              && q.result.cont.value.vars == (if f.Canceled? then map[] else map[RETRIES := Count(a.c.vars, RETRIES) + 1])
              && (!f.Canceled? ==> Interval(Count(a.c.vars, RETRIES), a.c.cfg.retryIntervals) == Some(q.result.cont.value.after))
            case _ =>
              && q.subject.current == Running(Start) && q.result.cont.Some? && q.result.finish.None?
              && RETRIES !in q.result.cont.value.vars
  {
    hide JobEndHandled;
    var r := Fresh(a.snapshot, held);
    match a.c.world.poll
    case JobEnded(Complete) => StartedJobHandled(a.c, r);
    case JobEnded(Fail(f)) => FailedJobHandled(a.c, r, f);
    case _ =>
  }

  /** An attempt without a fault that does not complete leaves a continue directive; one that
      completes leaves the subject started. */
  lemma {:induction false} AttemptOutcome(held: set<string>, before: Subject, a: Attempt)
    requires RecordsOk(before) && Wanted(before, a)
    ensures Completes(held, a) ==> RunOfStart(held, a).run.subject.current == Started
    ensures !Completes(held, a) && !Faulted(held, a) ==> RunOfStart(held, a).run.result.cont.Some?
  {
    hide Handled;
    if !RunOfStart(held, a).err {
      if a.snapshot.current == Running(Start) {
        PollingRun(held, a);
      } else {
        LaunchingRun(held, a);
      }
    }
  }

  /** The termination measure. Every attempt that does not complete pays for itself: with trouble,
      or by moving from launching to polling. */
  lemma {:induction false} AttemptPays(t: Tally, a: Attempt)
    requires RecordsOk(t.subject) && Wanted(t.subject, a) && !Completes(t.held, a)
    ensures RecordsOk(Tallied(t, a).subject)
    ensures var u := Tallied(t, a);
            2 * u.failedJobs + u.polls + 2 * u.faults - Phase(u.subject)
            >= 2 * t.failedJobs + t.polls + 2 * t.faults - Phase(t.subject) + 1
  {
    hide Handled;
    HandledSound(a.c, Fresh(a.snapshot, t.held), Act(Start));
    if !RunOfStart(t.held, a).err {
      if a.snapshot.current == Running(Start) {
        PollingRun(t.held, a);
      } else {
        LaunchingRun(t.held, a);
      }
    }
  }

  lemma {:induction false} UnfinishedFront(t: Tally, attempts: seq<Attempt>)
    requires attempts != [] && Unfinished(t, attempts)
    ensures var front, last := attempts[..|attempts| - 1], attempts[|attempts| - 1];
            && Unfinished(t, front)
            && Wanted(TallyOf(t, front).subject, last) && !Completes(TallyOf(t, front).held, last)
  {
    hide Wanted, Completes, TallyOf;
    var front := attempts[..|attempts| - 1];
    forall i | 0 <= i < |front| ensures front[..i] == attempts[..i] && front[i] == attempts[i] {}
  }

  lemma {:induction false} UnfinishedIsPaidFor(t: Tally, attempts: seq<Attempt>)
    requires RecordsOk(t.subject) && t.failedJobs == 0 && t.polls == 0 && t.faults == 0
    requires Unfinished(t, attempts)
    ensures RecordsOk(TallyOf(t, attempts).subject)
    ensures var u := TallyOf(t, attempts);
            |attempts| <= 2 * u.failedJobs + u.polls + 2 * u.faults - Phase(u.subject) + Phase(t.subject)
    decreases |attempts|
  {
    hide Tallied, Unfinished, Wanted, Completes, RecordsOk;
    if attempts != [] {
      var front, last := attempts[..|attempts| - 1], attempts[|attempts| - 1];
      UnfinishedFront(t, attempts);
      UnfinishedIsPaidFor(t, front);
      AttemptPays(TallyOf(t, front), last);
    }
  }

  /** The update event of a subject that is stopped and wanted started. */
  lemma {:induction false} UpdateEventSchedulesStart(c: Context, s: Subject, held: set<string>)
    requires s.current == Stopped && s.desired == ToBeStarted && Offered(c, Start)
    requires s.previousJobVars.Some? ==> s.previousJobVars.value == s.jobVars
    requires forall n :: c.world.patches(n).Applied? && c.world.schedules(n).Applied?
    ensures var o := Handled(c, Fresh(s, held), Updated);
            !o.err && o.run.subject.current == Pending(Start) && Start in o.run.scheduled
  {
  }

  /** The update event, then attempts at the start action: as long as the action is not completed
      there were at most 2F + P + 2E + 2 runs, where F job failures, P inconclusive polls and E
      faults happened in them. So it completes at the latest with run 3 + 2F + P + 2E, and then
      the subject is started. */
  lemma {:induction false} StartConverges(c: Context, s: Subject, held: set<string>, attempts: seq<Attempt>, final: Attempt)
    requires RecordsOk(s) && s.current == Stopped && s.desired == ToBeStarted && Offered(c, Start)
    requires s.previousJobVars.Some? ==> s.previousJobVars.value == s.jobVars
    requires forall n :: c.world.patches(n).Applied? && c.world.schedules(n).Applied?
    requires var q := Handled(c, Fresh(s, held), Updated).run; Unfinished(Tally(q.subject, q.held, 0, 0, 0), attempts)
    ensures var q := Handled(c, Fresh(s, held), Updated).run;
            var u := TallyOf(Tally(q.subject, q.held, 0, 0, 0), attempts);
            && 1 + |attempts| <= 2 + 2 * u.failedJobs + u.polls + 2 * u.faults
            && (Wanted(u.subject, final) && Completes(u.held, final) ==>
                  && 1 + |attempts + [final]| <= 3 + 2 * u.failedJobs + u.polls + 2 * u.faults
                  && RunOfStart(u.held, final).run.subject.current == Started)
  {
    hide Handled;
    UpdateEventSchedulesStart(c, s, held);
    HandledSound(c, Fresh(s, held), Updated);
    var q := Handled(c, Fresh(s, held), Updated).run;
    var t := Tally(q.subject, q.held, 0, 0, 0);
    UnfinishedIsPaidFor(t, attempts);
    var u := TallyOf(t, attempts);
    if Wanted(u.subject, final) {
      AttemptOutcome(u.held, u.subject, final);
    }
  }

  // ----- the retry schedule

  /** The action variables of the next run. Whether Anarchy merges the variables of a continue
      directive into the old ones or puts them in their place is a parameter. */
  function NextVars(merge: bool, vars: ActionVars, o: Out): ActionVars
  {
    match o.run.result.cont
    case None => vars
    case Some(next) => if merge then vars + next.vars else next.vars
  }

  ghost function VarsOf(merge: bool, t: Tally, attempts: seq<Attempt>): ActionVars
  {
    if attempts == [] then map[]
    else
      var front := attempts[..|attempts| - 1];
      NextVars(merge, VarsOf(merge, t, front), RunOfStart(TallyOf(t, front).held, attempts[|attempts| - 1]))
  }

  /** The attempts run with the variables that Anarchy hands on, and without faults. */
  ghost predicate Undisturbed(merge: bool, t: Tally, attempts: seq<Attempt>)
  {
    forall i :: 0 <= i < |attempts| ==>
      && attempts[i].c.vars == VarsOf(merge, t, attempts[..i])
      && !Faulted(TallyOf(t, attempts[..i]).held, attempts[i])
  }

  /** A poll that finds the job in error or failed. */
  predicate Fails(a: Attempt)
  {
    && a.snapshot.current == Running(Start)
    && (a.c.world.poll == JobEnded(Fail(Error)) || a.c.world.poll == JobEnded(Fail(Failed)))
  }

  function Failures(attempts: seq<Attempt>): nat
  {
    if attempts == [] then 0
    else Failures(attempts[..|attempts| - 1]) + (if Fails(attempts[|attempts| - 1]) then 1 else 0)
  }

  /** The continue directive waits for the interval at count. */
  predicate WaitsFor(o: Out, count: int, intervals: seq<string>)
  {
    o.run.result.cont.Some? && Interval(count, intervals) == Some(o.run.result.cont.value.after)
  }

  /** What is known of all attempts is known of the front and of the last one. */
  lemma {:induction false} FrontAndLast(merge: bool, t: Tally, attempts: seq<Attempt>)
    requires attempts != [] && Unfinished(t, attempts) && Undisturbed(merge, t, attempts)
    ensures var front, last := attempts[..|attempts| - 1], attempts[|attempts| - 1];
            && Unfinished(t, front) && Undisturbed(merge, t, front)
            && Wanted(TallyOf(t, front).subject, last) && !Completes(TallyOf(t, front).held, last)
            && !Faulted(TallyOf(t, front).held, last) && last.c.vars == VarsOf(merge, t, front)
  {
    hide Wanted, Completes, Faulted, TallyOf, VarsOf;
    var front := attempts[..|attempts| - 1];
    forall i | 0 <= i < |front| ensures front[..i] == attempts[..i] && front[i] == attempts[i] {}
  }

  lemma {:induction false} AttemptVars(held: set<string>, before: Subject, a: Attempt, merge: bool)
    requires RecordsOk(before) && Wanted(before, a) && !Completes(held, a) && !Faulted(held, a)
    ensures var next := NextVars(merge, a.c.vars, RunOfStart(held, a));
            Count(next, RETRIES) == if Fails(a) then Count(a.c.vars, RETRIES) + 1
                                    else if merge then Count(a.c.vars, RETRIES) else 0
    ensures Fails(a) ==> RunOfStart(held, a).run.subject.current != Running(Start)
    ensures Fails(a) ==> WaitsFor(RunOfStart(held, a), Count(a.c.vars, RETRIES), a.c.cfg.retryIntervals)
  {
    hide Handled, Interval;
    if a.snapshot.current == Running(Start) {
      PollingRun(held, a);
    } else {
      LaunchingRun(held, a);
    }
  }

  lemma {:induction false} RetryCount(merge: bool, t: Tally, attempts: seq<Attempt>)
    requires RecordsOk(t.subject) && t.failedJobs == 0 && t.polls == 0 && t.faults == 0
    requires Unfinished(t, attempts) && Undisturbed(merge, t, attempts)
    ensures merge ==> Count(VarsOf(merge, t, attempts), RETRIES) == Failures(attempts)
    ensures !merge && TallyOf(t, attempts).subject.current == Running(Start) ==> Count(VarsOf(merge, t, attempts), RETRIES) == 0
    decreases |attempts|
  {
    hide RunOfStart, Completes, Faulted, Unfinished, Undisturbed, Wanted, Fails;
    if attempts != [] {
      var front, last := attempts[..|attempts| - 1], attempts[|attempts| - 1];
      FrontAndLast(merge, t, attempts);
      RetryCount(merge, t, front);
      UnfinishedIsPaidFor(t, front);
      var u := TallyOf(t, front);
      AttemptVars(u.held, u.subject, last, merge);
      assert VarsOf(merge, t, attempts) == NextVars(merge, VarsOf(merge, t, front), RunOfStart(u.held, last));
      assert TallyOf(t, attempts).subject == RunOfStart(u.held, last).run.subject;
    }
  }

  /** The wait behind a failed start job, in a life without faults: with merged variables the n-th
      failure waits for the n-th interval of the schedule, the last one beyond it; with replaced
      ones every failure waits for the first, because the run that launches the next job
      continues without variables. */
  lemma {:induction false} RetryDelay(merge: bool, t: Tally, attempts: seq<Attempt>)
    requires RecordsOk(t.subject) && t.failedJobs == 0 && t.polls == 0 && t.faults == 0
    requires attempts != [] && Unfinished(t, attempts) && Undisturbed(merge, t, attempts)
    requires Fails(attempts[|attempts| - 1])
    ensures var front := attempts[..|attempts| - 1];
            WaitsFor(RunOfStart(TallyOf(t, front).held, attempts[|attempts| - 1]),
                     if merge then Failures(front) else 0, attempts[|attempts| - 1].c.cfg.retryIntervals)
  {
    hide RunOfStart, Completes, Faulted, Unfinished, Undisturbed, Wanted, WaitsFor;
    var front, last := attempts[..|attempts| - 1], attempts[|attempts| - 1];
    FrontAndLast(merge, t, attempts);
    RetryCount(merge, t, front);
    UnfinishedIsPaidFor(t, front);
    var u := TallyOf(t, front);
    PollsWhenRunning(u.subject, last);
    AttemptVars(u.held, u.subject, last, merge);
  }

  lemma {:induction false} PollsWhenRunning(before: Subject, a: Attempt)
    requires Wanted(before, a)
    ensures a.snapshot.current == before.current
  {
  }
}

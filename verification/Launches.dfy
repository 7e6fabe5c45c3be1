/** Which Tower jobs a run launches, when a provision job is launched without a trace, and which
    runs delete. */
module Launches {
  import opened Json
  import opened Subjects
  import opened Handlers
  import opened Lifecycle

  lemma {:induction false} JobEndLaunchesNothing(c: Context, r: Run, a: Action, outcome: Outcome)
    ensures JobEndHandled(c, r, a, outcome).run.launched == r.launched
    ensures !(a.Destroy? && outcome.Complete?) ==> JobEndHandled(c, r, a, outcome).run.result.delete == r.result.delete
  {
    hide PlacementActed, EndRecorded;
    var q := EndPrelude(c, r, a, outcome).run;
    PlacementActedQuiet(c, r, Stop);
    PlacementActedQuiet(c, Patched(c, r, NOTHING.(job := Some(JobEntry(Stop, End(Some(Complete)))))).run, Stop);
    EndRecordedLaunchesNothing(c, q, a, outcome);
  }

  lemma {:induction false} EndRecordedLaunchesNothing(c: Context, r: Run, a: Action, outcome: Outcome)
    ensures EndRecorded(c, r, a, outcome).run.launched == r.launched
    ensures !(a.Destroy? && outcome.Complete?) ==> EndRecorded(c, r, a, outcome).run.result.delete == r.result.delete
  {
    hide FinalPatch;
  }

  lemma {:induction false} PolledLaunchesNothing(c: Context, r: Run, a: Action)
    ensures Polled(c, r, a).run.launched == r.launched
    ensures !a.Destroy? ==> Polled(c, r, a).run.result.delete == r.result.delete
  {
    hide JobEndHandled;
    if c.world.poll.JobEnded? {
      JobEndLaunchesNothing(c, r, a, c.world.poll.outcome);
    }
  }

  /** At most one job, of this action. */
  predicate LaunchesAtMost(before: seq<Action>, after: seq<Action>, a: Action)
  {
    after == before || after == before + [a]
  }

  lemma {:induction false} LookedUpLaunchLaunches(c: Context, r: Run, a: Action)
    requires !a.Provision?
    ensures LaunchesAtMost(r.launched, LaunchedAndPolled(c, LookedUp(c, r, a), a).run.launched, a)
    ensures LaunchedAndPolled(c, LookedUp(c, r, a), a).run.result.delete == r.result.delete
  {
    hide LookedUp;
    LookedUpQuiet(c, r, a);
  }

  lemma {:induction false} DestroyLaunches(c: Context, r: Run)
    ensures LaunchesAtMost(r.launched, DestroyHandled(c, r).run.launched, Destroy)
  {
    hide LookedUp, LaunchedAndPolled, Polled;
    var q := Begun(c, r, Destroy).run;
    LookedUpLaunchLaunches(c, r, Destroy);
    LookedUpLaunchLaunches(c, q, Destroy);
    PolledLaunchesNothing(c, r, Destroy);
    PolledLaunchesNothing(c, q, Destroy);
  }

  lemma {:induction false} StartLaunches(c: Context, r: Run)
    ensures LaunchesAtMost(r.launched, StartHandled(c, r).run.launched, Start)
    ensures StartHandled(c, r).run.result.delete == r.result.delete
  {
    hide LookedUp, LaunchedAndPolled, Polled, PlacementActed;
    var q := Begun(c, r, Start).run;
    PlacementActedQuiet(c, q, Start);
    LookedUpLaunchLaunches(c, q, Start);
    LookedUpLaunchLaunches(c, PlacementActed(c, q, Start).run, Start);
    PolledLaunchesNothing(c, r, Start);
  }

  lemma {:induction false} StopLaunches(c: Context, r: Run)
    ensures LaunchesAtMost(r.launched, StopHandled(c, r).run.launched, Stop)
    ensures StopHandled(c, r).run.result.delete == r.result.delete
  {
    hide LookedUp, LaunchedAndPolled, Polled, PlacementActed;
    var q := Begun(c, r, Stop).run;
    PlacementActedQuiet(c, q, Stop);
    LookedUpLaunchLaunches(c, q, Stop);
    PolledLaunchesNothing(c, r, Stop);
  }

  lemma {:induction false} StatusLaunches(c: Context, r: Run)
    ensures LaunchesAtMost(r.launched, StatusHandled(c, r).run.launched, Status)
    ensures StatusHandled(c, r).run.result.delete == r.result.delete
  {
    hide LookedUp, LaunchedAndPolled, Polled;
    LookedUpLaunchLaunches(c, Begun(c, r, Status).run, Status);
    PolledLaunchesNothing(c, r, Status);
  }

  lemma {:induction false} UpdateLaunches(c: Context, r: Run)
    ensures LaunchesAtMost(r.launched, UpdateHandled(c, r).run.launched, Update)
    ensures UpdateHandled(c, r).run.result.delete == r.result.delete
  {
    hide LookedUp, LaunchedAndPolled, Polled;
    LookedUpLaunchLaunches(c, r, Update);
    PolledLaunchesNothing(c, r, Update);
  }

  // ----- provision

  /** The last patch was rejected, and when Tower had answered the launch, the one before it too:
      neither the post-launch patch nor the error patch took. */
  ghost predicate Unrecorded(c: Context, q: Run)
  {
    && q.patches >= 1 && c.world.patches(q.patches - 1).Rejected?
    && (c.world.launch.Launched? ==> q.patches >= 2 && c.world.patches(q.patches - 2).Rejected?)
  }

  /** At most one provision job, and no delete; the job leaves the subject in an early state exactly when unrecorded. */
  ghost predicate LaunchRecorded(c: Context, r: Run, q: Run)
  {
    && LaunchesAtMost(r.launched, q.launched, Provision)
    && (q.launched != r.launched ==> (Early(q.subject.current) <==> Unrecorded(c, q)))
    && q.result.delete == r.result.delete
  }

  lemma {:induction false} ProvisionErrorPatch(c: Context, r: Run)
    ensures var q := ProvisionError(c, r).run;
            && q.patches == r.patches + 1 && q.launched == r.launched && q.result.delete == r.result.delete
            && q.subject.current == if c.world.patches(r.patches).Rejected? then r.subject.current else Ended(Provision, Error)
  {
  }

  lemma {:induction false} ProvisionLaunchedRecorded(c: Context, r: Run)
    requires Early(r.subject.current)
    ensures LaunchRecorded(c, r, ProvisionLaunched(c, r).run)
  {
    hide ProvisionError, CompletedWithoutJob;
    ProvisionErrorPatch(c, LaunchedJob(c, r, Provision, LaunchState(Provision), LaunchCheck(Provision)).run);
    CompletedLaunchesNothing(c, r, StateAndLabel(Started).(healthy := Some(true)));
  }

  lemma {:induction false} CompletedLaunchesNothing(c: Context, r: Run, p: Patch)
    ensures CompletedWithoutJob(c, r, p).run.launched == r.launched
    ensures CompletedWithoutJob(c, r, p).run.result.delete == r.result.delete
  {
  }

  lemma {:induction false} ProvisionBookedRecorded(c: Context, r: Run)
    requires Early(r.subject.current)
    ensures LaunchRecorded(c, r, ProvisionBooked(c, r).run)
  {
    hide SandboxGet, ProvisionError, ProvisionLaunched;
    GetOrBookQuiet(c, r, Provision);
    var got := SandboxGet(c, r, Provision, true);
    ProvisionErrorPatch(c, got.run);
    if !got.booking.Invalid? {
      ProvisionLaunchedRecorded(c, got.run);
    }
  }

  lemma {:induction false} ProvisionRunRecorded(c: Context, r: Run)
    requires Early(r.subject.current)
    ensures LaunchRecorded(c, r, ProvisionRun(c, r).run)
  {
    hide ProvisionBooked, ProvisionLaunched;
    var q := if Provision in r.payload.begun then r else Begun(c, r, Provision).run;
    ProvisionBookedRecorded(c, q);
    ProvisionLaunchedRecorded(c, q);
  }

  lemma {:induction false} QueueCheckedRecorded(c: Context, r: Run)
    requires Early(r.subject.current)
    ensures LaunchRecorded(c, r, QueueChecked(c, r).run)
  {
    hide ProvisionError, Dequeued;
    var q := r.(gets := r.gets + 1);
    ProvisionErrorPatch(c, r);
    ProvisionErrorPatch(c, q);
    if c.world.gets(r.gets).Found? {
      DequeuedRecorded(c, q, c.world.gets(r.gets).vars);
    }
  }

  lemma {:induction false} DequeuedRecorded(c: Context, r: Run, vars: Vars)
    requires Early(r.subject.current)
    ensures LaunchRecorded(c, r, Dequeued(c, r, vars).run)
  {
    hide ProvisionRun, WithVars;
    WithVarsSubject(r, vars);
    var q := WithVars(r, vars);
    var p := StateAndLabel(Pending(Provision)).(jobVars := if vars == map[] then None else Some(q.payload.jobVars));
    ProvisionRunRecorded(c, Patched(c, q, p).run);
  }

  lemma {:induction false} WithVarsSubject(r: Run, vars: Vars)
    ensures WithVars(r, vars).subject == r.subject && WithVars(r, vars).launched == r.launched
    ensures WithVars(r, vars).patches == r.patches && WithVars(r, vars).result == r.result
  {
  }

  lemma {:induction false} ProvisionHandledRecorded(c: Context, r: Run)
    requires r.payload.current == r.subject.current
    ensures LaunchRecorded(c, r, ProvisionHandled(c, r).run)
  {
    hide ProvisionRun, QueueChecked, Polled;
    PolledLaunchesNothing(c, r, Provision);
    if r.payload.current == Pending(Provision) {
      ProvisionRunRecorded(c, r);
    } else if r.payload.current == Queued {
      QueueCheckedRecorded(c, r);
    }
  }

  /** A run on a fresh snapshot launches at most one Tower job, of its own action; events and
      callbacks launch none. A provision job that it launches leaves the subject waiting for
      another one exactly when neither patch behind the launch took. */
  lemma {:induction false} LaunchesOfRun(c: Context, s: Subject, held: set<string>, t: Trigger)
    ensures var q := Handled(c, Fresh(s, held), t).run;
            && (q.launched == [] || (t.Act? && q.launched == [t.action]))
            && (q.launched == [Provision] ==> (Early(q.subject.current) <==> Unrecorded(c, q)))
  {
    hide ProvisionHandled, DestroyHandled, StartHandled, StopHandled, StatusHandled, UpdateHandled, JobEndHandled;
    var r := Fresh(s, held);
    ProvisionHandledRecorded(c, r);
    DestroyLaunches(c, r);
    StartLaunches(c, r);
    StopLaunches(c, r);
    StatusLaunches(c, r);
    UpdateLaunches(c, r);
    if t.Callback? {
      JobEndLaunchesNothing(c, r, t.action, t.outcome);
    }
  }

  /** A launch without an error leaves the record that the job is polled with. */
  lemma LaunchedIsRecorded(c: Context, r: Run, a: Action, newState: Option<State>, check: Option<Check>)
    ensures LaunchesAtMost(r.launched, LaunchedJob(c, r, a, newState, check).run.launched, a)
    ensures !LaunchedJob(c, r, a, newState, check).err ==>
      JobRecorded(LaunchedJob(c, r, a, newState, check).run.subject, a)
  {
  }

  // ----- deletes

  /** Only a delete event, a destroy job that completes and the destroy action delete. */
  lemma {:induction false} DeletersOnly(c: Context, s: Subject, held: set<string>, t: Trigger)
    requires Handled(c, Fresh(s, held), t).run.result.delete
    ensures t.ToDelete? || t == Act(Destroy) || t == Callback(Destroy, Complete)
  {
    hide ProvisionHandled, DestroyHandled, StartHandled, StopHandled, StatusHandled, UpdateHandled, JobEndHandled;
    var r := Fresh(s, held);
    if t.Callback? {
      JobEndLaunchesNothing(c, r, t.action, t.outcome);
    } else if t.Act? && s.current == r.payload.current {
      ProvisionHandledRecorded(c, r);
      StartLaunches(c, r);
      StopLaunches(c, r);
      StatusLaunches(c, r);
      UpdateLaunches(c, r);
    }
  }

  /** The placements that are left when a cleanup is done. */
  function Released(c: Context, r: Run): set<string>
  {
    if c.cfg.sandboxInUse && c.cfg.hasToken then r.held - {Uuid(r.payload)} else r.held
  }

  lemma {:induction false} CompletedDestroyHeld(c: Context, r: Run)
    requires !r.result.delete && JobEndHandled(c, r, Destroy, Complete).run.result.delete
    ensures JobEndHandled(c, r, Destroy, Complete).run.held == Released(c, r)
  {
  }

  lemma {:induction false} DestroyHeld(c: Context, r: Run)
    requires !r.result.delete && DestroyHandled(c, r).run.result.delete
    ensures DestroyHandled(c, r).run.held == Released(c, r)
  {
    hide LookedUp, LaunchedAndPolled, JobEndHandled;
    var q := Begun(c, r, Destroy).run;
    LookedUpLaunchLaunches(c, r, Destroy);
    LookedUpLaunchLaunches(c, q, Destroy);
    if JobEndHandled(c, r, Destroy, Complete).run.result.delete { CompletedDestroyHeld(c, r); }
    if JobEndHandled(c, q, Destroy, Complete).run.result.delete { CompletedDestroyHeld(c, q); }
    if c.world.poll.JobEnded? {
      JobEndLaunchesNothing(c, r, Destroy, c.world.poll.outcome);
      JobEndLaunchesNothing(c, q, Destroy, c.world.poll.outcome);
    }
  }

  lemma {:induction false} DeleteEventHeld(c: Context, r: Run)
    requires !r.result.delete && DeleteHandled(c, r).run.result.delete
    ensures DeleteHandled(c, r).run.held == if Cleans(c, r.payload) then Released(c, r) else r.held
  {
  }
}

/** The handlers as they are written: methods that patch the subject and set directives in
    sequence. Each is proved to do what the functions of Handlers.dfy say. */
module RunContexts {
  import opened Json
  import opened DeepMerge
  import opened Subjects
  import opened Handlers
  import opened Lifecycle
  import opened Launches
  import Lives

  class RunContext {
    const c: Context
    var payload: Subject
    /** What Anarchy holds now, and the uuids with a placement. */
    var subject: Subject
    var held: set<string>
    var patches: nat
    var gets: nat
    var scheduled: seq<Action>
    var launched: seq<Action>
    var released: seq<string>
    var finish: Option<Outcome>
    var delete: bool
    var cont: Option<Continue>

    constructor (c: Context, payload: Subject, held: set<string>)
      ensures this.c == c && Now() == Fresh(payload, held)
    {
      this.c := c;
      this.payload, this.subject, this.held := payload, payload, held;
      patches, gets, scheduled, launched, released := 0, 0, [], [], [];
      finish, delete, cont := None, false, None;
    }

    ghost function Now(): Run
      reads this
    {
      Run(payload, subject, held, patches, gets, scheduled, launched, released, Directives(finish, delete, cont))
    }

    // ----- directives

    method FinishAction(state: Outcome)
      modifies this`finish
      ensures Now() == Finished(old(Now()), state)
    {
      finish := Some(state);
    }

    method DeleteSubject()
      modifies this`delete
      ensures Now() == Deleted(old(Now()))
    {
      delete := true;
    }

    method ContinueAction(after: string)
      modifies this`cont
      ensures Now() == Continued(old(Now()), after, map[])
    {
      cont := Some(Continue(after, map[]));
    }

    method ContinueActionWithVars(after: string, vars: ActionVars)
      modifies this`cont
      ensures Now() == Continued(old(Now()), after, vars)
    {
      cont := Some(Continue(after, vars));
    }

    // ----- Anarchy

    method SubjectUpdate(patch: Patch) returns (err: bool)
      modifies this`subject, this`patches
      ensures Out(Now(), err) == Patched(c, old(Now()), patch)
    {
      var answer := c.world.patches(patches);
      patches := patches + 1;
      if !answer.Rejected? {
        subject := Apply(subject, patch);
      }
      err := !answer.Applied?;
    }

    method ScheduleAction(action: Action) returns (err: bool)
      modifies this`scheduled
      ensures Out(Now(), err) == Scheduled(c, old(Now()), action)
    {
      var answer := c.world.schedules(|scheduled|);
      scheduled := scheduled + [action];
      err := !answer.Applied?;
    }

    // ----- intervals

    /** actionRetryInterval and towerPollInterval; no result is a panic. */
    method IntervalAt(count: int, intervals: seq<string>) returns (after: Option<string>)
      ensures after == Interval(count, intervals)
    {
      if count < |intervals| {
        if count < 0 {
          return None;
        }
        return Some(intervals[count]);
      }
      if |intervals| == 0 {
        return None;
      }
      return Some(intervals[|intervals| - 1]);
    }

    method ContinueWithRetry() returns (err: bool)
      modifies this`cont
      ensures Out(Now(), err) == ContinuedWithRetry(c, old(Now()))
    {
      var count := Count(c.vars, "action_retry_count");
      var interval := IntervalAt(count, c.cfg.retryIntervals);
      if interval.None? {
        return true;
      }
      ContinueActionWithVars(interval.value, map["action_retry_count" := count + 1]);
      return false;
    }

    method ContinueWithTowerPoll() returns (err: bool)
      modifies this`cont
      ensures Out(Now(), err) == ContinuedWithPoll(c, old(Now()))
    {
      var count := Count(c.vars, "tower_poll_count");
      var interval := IntervalAt(count, c.cfg.pollIntervals);
      if interval.None? {
        return true;
      }
      ContinueActionWithVars(interval.value, map["tower_poll_count" := count + 1]);
      return false;
    }

    // ----- sandbox

    method SandboxGet(action: Action, allowBook: bool) returns (booking: Booking)
      modifies this
      ensures Got(Now(), booking) == Handlers.SandboxGet(c, old(Now()), action, allowBook)
      ensures if booking.Invalid? then action.Provision? && finish == Some(Fail(Failed)) else Quiet(c, old(Now()), Now())
      decreases allowBook
    {
      hide Handlers.SandboxBook, Extracted;
      GetQuiet(c, Now(), action);
      GetOrBookQuiet(c, Now(), action);
      if Uuid(payload) == "" {
        return Broken;
      }
      if !c.cfg.hasToken {
        return Broken;
      }
      var answer := c.world.gets(gets);
      gets := gets + 1;
      if answer.GetFailed? {
        return Broken;
      }
      if answer.NotFound? {
        if allowBook && action == Provision && c.cfg.hasToken {
          booking := SandboxBook();
        } else {
          booking := Missing;
        }
        return;
      }
      if answer.placement == Faulty {
        return InError;
      }
      if answer.placement != Ready {
        return Waiting;
      }
      var err := UpdateSubjectSandboxVars(answer.vars, answer.labelled);
      return if err then Broken else Usable;
    }

    method UpdateSubjectSandboxVars(subjectVars: Vars, labelled: bool) returns (err: bool)
      modifies this
      ensures Got(Now(), if err then Broken else Usable) == Extracted(c, old(Now()), subjectVars, labelled)
      ensures "uuid" !in subjectVars ==> Quiet(c, old(Now()), Now())
    {
      if "uuid" !in subjectVars { ExtractedQuiet(c, Now(), subjectVars, labelled); }
      if subjectVars == map[] && !labelled {
        return false;
      }
      var patch := NOTHING;
      if subjectVars != map[] {
        MergeIntoJobVars(subjectVars);
        patch := patch.(jobVars := Some(payload.jobVars));
      }
      err := SubjectUpdate(patch);
    }

    method MergeIntoJobVars(vars: Vars)
      modifies this`payload
      ensures Now() == old(Now()).(payload := old(payload).(jobVars := Merge(old(payload).jobVars, vars)))
    {
      payload := payload.(jobVars := Merge(payload.jobVars, vars));
    }

    method SandboxBook() returns (booking: Booking)
      modifies this
      ensures Got(Now(), booking) == Handlers.SandboxBook(c, old(Now()))
      ensures booking.Invalid? <==> !c.world.requestValid
      ensures !booking.Invalid? && Uuid(old(payload)) != "" ==> Quiet(c, old(Now()), Now())
      decreases true, 0
    {
      if !c.world.requestValid { InvalidRequest(c, Now()); } else if Uuid(payload) != "" { BookQuiet(c, Now()); }
      if !c.world.requestValid {
        FinishAction(Fail(Failed));
        return Invalid;
      }
      if c.world.book.created {
        held := held + {Uuid(payload)};
      }
      if !c.world.book.accepted {
        return Broken;
      }
      match c.world.book.placement {
        case Ready => return Usable;
        case InQueue => return Waiting;
        case _ =>
          booking := SandboxGet(Provision, false);
      }
    }

    method SandboxCleanup() returns (err: bool)
      modifies this
      ensures Out(Now(), err) == CleanedUp(c, old(Now()))
      ensures Keeps(c, old(Now()), Now()) && (!err ==> Freed(c, Now()))
    {
      CleanedKeeps(c, Now());
      var uuid := Uuid(payload);
      if uuid == "" {
        return true;
      }
      if Guid(payload) == "" {
        return true;
      }
      if !c.cfg.hasToken {
        return false;
      }
      if !c.world.released {
        return true;
      }
      released := released + [uuid];
      held := held - {uuid};
      return false;
    }

    method SandboxStart() returns (err: bool)
      modifies this
      ensures Out(Now(), err) == PlacementActed(c, old(Now()), Start)
    {
      if Uuid(payload) == "" || !c.cfg.hasToken {
        return true;
      }
      if !c.world.placementAction {
        return true;
      }
      err := SubjectUpdate(NOTHING.(stateLabel := Some(Running(Start))));
      if err {
        return;
      }
      return !c.world.requestDone;
    }

    method SandboxStop() returns (err: bool)
      modifies this
      ensures Out(Now(), err) == PlacementActed(c, old(Now()), Stop)
    {
      if Uuid(payload) == "" || !c.cfg.hasToken {
        return true;
      }
      if !c.world.placementAction {
        return true;
      }
      err := SubjectUpdate(NOTHING.(stateLabel := Some(Running(Stop))));
      if err {
        return;
      }
      return !c.world.requestDone;
    }

    // ----- Tower

    method LaunchTowerJob(action: Action, newState: Option<State>, check: Option<Check>) returns (err: bool)
      modifies this
      ensures Out(Now(), err) == LaunchedJob(c, old(Now()), action, newState, check)
      ensures LaunchesAtMost(old(launched), launched, action) && (!err ==> JobRecorded(subject, action))
      ensures newState == LaunchState(action) && check == LaunchCheck(action) && (action.Provision? ==> Early(old(payload).current)) ==>
                Keeps(c, old(Now()), Now())
    {
      LaunchedIsRecorded(c, Now(), action, newState, check);
      if action.Provision? ==> Early(payload.current) { LaunchedKeeps(c, Now(), action); }
      var hostname := c.world.controller;
      if hostname == "" {
        return true;
      }
      match c.world.launch {
        case NotLaunched => return true;
        case LaunchedButLost =>
          launched := launched + [action];
          return true;
        case Launched(jobID) =>
          launched := launched + [action];
          var patch := NOTHING.(job := Some(JobEntry(action, Launch(jobID, hostname))));
          if newState.Some? {
            patch := patch.(stateLabel := newState, current := newState);
          }
          if check.Some? {
            patch := patch.(check := check);
          }
          err := SubjectUpdate(patch);
      }
    }

    /** The tail that the launching handlers share. */
    method LaunchAndPoll(action: Action, newState: Option<State>, check: Option<Check>) returns (err: bool)
      requires newState == LaunchState(action) && check == LaunchCheck(action)
      modifies this
      ensures Out(Now(), err) == LaunchedAndPolled(c, old(Now()), action)
      ensures !err ==> JobRecorded(subject, action) && cont.Some?
    {
      err := LaunchTowerJob(action, newState, check);
      if err {
        return;
      }
      if |c.cfg.pollIntervals| == 0 {
        return true;
      }
      ContinueAction(c.cfg.pollIntervals[0]);
    }

    method CheckDeployerJob(action: Action) returns (err: bool)
      modifies this
      ensures Out(Now(), err) == Polled(c, old(Now()), action)
    {
      hide JobEndHandled;
      if action !in payload.jobs {
        ContinueAction("5m");
        return false;
      }
      var job := payload.jobs[action];
      if job.id.None? {
        ContinueAction("5m");
        return false;
      }
      if job.host == "" {
        ContinueAction("5m");
        return false;
      }
      match c.world.poll {
        case Inconclusive =>
          ContinueAction("5m");
          return false;
        case StillRunning =>
          err := ContinueWithTowerPoll();
        case JobEnded(outcome) =>
          if outcome.Complete? {
            err := HandleDeployerJobSuccess(action);
          } else {
            err := HandleDeployerJobFailure(action, outcome.failure);
          }
      }
    }

    method HandleDeployerJobSuccess(action: Action) returns (err: bool)
      modifies this
      ensures Out(Now(), err) == JobEndHandled(c, old(Now()), action, Complete)
    {
      match action {
        case Provision => err := HandleProvisionComplete();
        case Destroy => err := HandleDestroyComplete();
        case Start => err := HandleStartComplete();
        case Stop => err := HandleStopComplete();
        case Status => err := HandleStatusComplete();
        case Update => err := HandleUpdateComplete();
      }
    }

    method HandleDeployerJobFailure(action: Action, status: Failure) returns (err: bool)
      modifies this
      ensures Out(Now(), err) == JobEndHandled(c, old(Now()), action, Fail(status))
    {
      match action {
        case Provision =>
          match status {
            case Canceled => err := HandleProvisionCanceled();
            case Failed => err := HandleProvisionFailed();
            case Error => err := HandleProvisionError();
          }
        case Destroy => err := HandleDestroyFailure(status);
        case Start => err := HandleStartFailure(status);
        case Stop => err := HandleStopFailure(status);
        case Status => err := HandleStatusFailure(status);
        case Update => err := HandleUpdateFailure(status);
      }
    }

    method HandleDestroyFailure(status: Failure) returns (err: bool)
      modifies this
      ensures Out(Now(), err) == JobEndHandled(c, old(Now()), Destroy, Fail(status))
    {
      var state := Ended(Destroy, status);
      var patch := NOTHING.(current := Some(state), stateLabel := Some(state),
                            job := Some(JobEntry(Destroy, End(Some(Fail(status))))));
      if status != Canceled {
        patch := patch.(healthy := Some(false));
      }
      err := SubjectUpdate(patch);
      if err {
        return;
      }
      if status == Canceled {
        ContinueAction("1m");
        return false;
      }
      err := ContinueWithRetry();
    }

    method HandleStartFailure(status: Failure) returns (err: bool)
      modifies this
      ensures Out(Now(), err) == JobEndHandled(c, old(Now()), Start, Fail(status))
    {
      var state := Ended(Start, status);
      var patch := NOTHING.(current := Some(state), stateLabel := Some(state), healthy := Some(false),
                            job := Some(JobEntry(Start, End(Some(Fail(status))))));
      if status == Failed {
        patch := patch.(jobVars := Some(payload.jobVars["agnosticd_collect_forensics" := Bool(true)]));
      }
      err := SubjectUpdate(patch);
      if err {
        return;
      }
      if payload.desired == ToBeStarted && !payload.deleting {
        if status == Canceled {
          ContinueAction("1m");
          return false;
        }
        err := ContinueWithRetry();
        return;
      }
      if payload.desired == ToBeStopped && !payload.deleting {
        err := ScheduleAction(Stop);
        return;
      }
      FinishAction(Fail(status));
    }

    method HandleStopFailure(status: Failure) returns (err: bool)
      modifies this
      ensures Out(Now(), err) == JobEndHandled(c, old(Now()), Stop, Fail(status))
    {
      if status != Canceled && c.cfg.sandboxInUse {
        if c.cfg.sandboxAction(Stop) {
          var ignored := SandboxStop();
        }
      }
      err := RecordStopFailure(status);
    }

    /** The rest of handleStopFailure. */
    method RecordStopFailure(status: Failure) returns (err: bool)
      modifies this
      ensures Out(Now(), err) == EndRecorded(c, old(Now()), Stop, Fail(status))
    {
      var state := Ended(Stop, status);
      var patch := NOTHING.(current := Some(state), stateLabel := Some(state), healthy := Some(false),
                            job := Some(JobEntry(Stop, End(Some(Fail(status))))));
      if status == Failed {
        patch := patch.(jobVars := Some(payload.jobVars["agnosticd_collect_forensics" := Bool(true)]));
      }
      err := SubjectUpdate(patch);
      if err {
        return;
      }
      if payload.desired == ToBeStopped && !payload.deleting {
        if status == Canceled {
          ContinueAction("1m");
          return false;
        }
        err := ContinueWithRetry();
        return;
      }
      if payload.desired == ToBeStarted && !payload.deleting {
        err := ScheduleAction(Start);
        return;
      }
      FinishAction(Fail(status));
    }

    method HandleStatusFailure(status: Failure) returns (err: bool)
      modifies this
      ensures Out(Now(), err) == JobEndHandled(c, old(Now()), Status, Fail(status))
    {
      err := SubjectUpdate(NOTHING.(check := Some(CheckEnded(Fail(status))),
                                    job := Some(JobEntry(Status, End(Some(Fail(status)))))));
      if err {
        return;
      }
      var finishStatus := status;
      if status == Canceled {
        finishStatus := Failed;
      }
      FinishAction(Fail(finishStatus));
    }

    method HandleUpdateFailure(status: Failure) returns (err: bool)
      modifies this
      ensures Out(Now(), err) == JobEndHandled(c, old(Now()), Update, Fail(status))
    {
      var state := Ended(Update, status);
      err := SubjectUpdate(NOTHING.(current := Some(state), stateLabel := Some(state), healthy := Some(false),
                                    job := Some(JobEntry(Update, End(Some(Fail(status)))))));
      if err {
        return;
      }
      if !payload.deleting {
        if status == Canceled {
          ContinueAction("1m");
          return false;
        }
        var interval := IntervalAt(Count(c.vars, "action_retry_count"), c.cfg.retryIntervals);
        if interval.None? {
          return true;
        }
        ContinueAction(interval.value);
        return false;
      }
      FinishAction(Fail(status));
    }

    method HandleStatusComplete() returns (err: bool)
      modifies this
      ensures Out(Now(), err) == JobEndHandled(c, old(Now()), Status, Complete)
    {
      err := SubjectUpdate(NOTHING.(check := Some(CheckEnded(Complete)), job := Some(JobEntry(Status, End(Some(Complete))))));
      if err {
        return;
      }
      FinishAction(Complete);
    }

    method HandleUpdateComplete() returns (err: bool)
      modifies this
      ensures Out(Now(), err) == JobEndHandled(c, old(Now()), Update, Complete)
    {
      err := SubjectUpdate(NOTHING.(stateLabel := Some(Started), current := Some(Started),
                                    job := Some(JobEntry(Update, End(Some(Complete))))));
      if err {
        return;
      }
      FinishAction(Complete);
    }

    // ----- provision

    method HandleProvision() returns (err: bool)
      modifies this
      ensures Out(Now(), err) == ProvisionHandled(c, old(Now()))
      ensures old(Now()).result == NO_DIRECTIVE ==> Sound(c, old(Now()), Out(Now(), err))
    {
      if Now().result == NO_DIRECTIVE { ProvisionHandledSound(c, Now()); }
      match payload.current {
        case Pending(a) =>
          if a == Provision {
            err := RunProvision();
            return;
          }
        case Queued =>
          err := CheckProvisionQueue();
          return;
        case Running(a) =>
          if a == Provision && !c.cfg.disabled(Provision) {
            err := CheckDeployerJob(Provision);
            return;
          }
        case _ =>
      }
      return false;
    }

    method TransitionToQueued() returns (err: bool)
      modifies this
      ensures Out(Now(), err) == ToQueued(c, old(Now()))
      ensures old(Now()).result == NO_DIRECTIVE && Early(old(payload).current) ==> Sound(c, old(Now()), Out(Now(), err))
      ensures !err ==> subject.current == Queued && cont.Some?
    {
      if Now().result == NO_DIRECTIVE && Early(payload.current) { ToQueuedSound(c, Now()); }
      err := SubjectUpdate(NOTHING.(stateLabel := Some(Queued), current := Some(Queued)));
      if err {
        return;
      }
      ContinueAction(c.cfg.queueCheck);
    }

    method CompleteProvisionNoDeployer() returns (err: bool)
      modifies this
      ensures Out(Now(), err) == CompletedWithoutJob(c, old(Now()), StateAndLabel(Started).(healthy := Some(true)))
      ensures old(Now()).result == NO_DIRECTIVE ==> Sound(c, old(Now()), Out(Now(), err))
      ensures !err ==> subject.current == Started && finish == Some(Complete) && subject.jobs == old(subject).jobs
    {
      if Now().result == NO_DIRECTIVE { CompletedSound(c, Now(), StateAndLabel(Started).(healthy := Some(true))); }
      err := SubjectUpdate(NOTHING.(stateLabel := Some(Started), current := Some(Started), healthy := Some(true)));
      if err {
        return;
      }
      FinishAction(Complete);
    }

    method RunProvision() returns (err: bool)
      modifies this
      ensures Out(Now(), err) == ProvisionRun(c, old(Now()))
      ensures old(Now()).result == NO_DIRECTIVE && Early(old(payload).current) ==> Sound(c, old(Now()), Out(Now(), err))
    {
      if Now().result == NO_DIRECTIVE && Early(payload.current) { ProvisionRunSound(c, Now()); }
      if Provision !in payload.begun {
        err := SubjectUpdate(NOTHING.(begun := Some(Provision)));
        if err {
          return;
        }
      }
      if c.cfg.sandboxInUse {
        err := BookAndLaunch();
        return;
      }
      err := LaunchOrCompleteProvision();
    }

    /** The sandbox part of runProvision. */
    method BookAndLaunch() returns (err: bool)
      modifies this
      ensures Out(Now(), err) == ProvisionBooked(c, old(Now()))
    {
      var booking := SandboxGet(Provision, true);
      match booking {
        case Broken =>
          err := HandleProvisionError();
          return;
        case InError =>
          err := HandleProvisionError();
          return;
        case Invalid => return false;
        case Waiting =>
          err := TransitionToQueued();
          return;
        case _ =>
      }
      err := LaunchOrCompleteProvision();
    }

    /** The second half of runProvision. */
    method LaunchOrCompleteProvision() returns (err: bool)
      modifies this
      ensures Out(Now(), err) == ProvisionLaunched(c, old(Now()))
    {
      if !c.cfg.disabled(Provision) {
        err := LaunchTowerJob(Provision, Some(Running(Provision)), None);
        if err {
          err := HandleProvisionError();
          return;
        }
        if |c.cfg.pollIntervals| == 0 {
          return true;
        }
        ContinueAction(c.cfg.pollIntervals[0]);
        return false;
      }
      if c.cfg.sandboxInUse {
        err := CompleteProvisionNoDeployer();
        return;
      }
      return false;
    }

    method HandleProvisionComplete() returns (err: bool)
      modifies this
      ensures Out(Now(), err) == JobEndHandled(c, old(Now()), Provision, Complete)
    {
      err := SubjectUpdate(NOTHING.(stateLabel := Some(Started), current := Some(Started), healthy := Some(true),
                                    job := Some(JobEntry(Provision, End(Some(Complete))))));
      if err {
        return;
      }
      FinishAction(Complete);
    }

    method HandleProvisionError() returns (err: bool)
      modifies this
      ensures Out(Now(), err) == ProvisionError(c, old(Now()))
    {
      var state := Ended(Provision, Error);
      err := SubjectUpdate(NOTHING.(stateLabel := Some(state), current := Some(state), healthy := Some(false),
                                    job := Some(JobEntry(Provision, End(None)))));
      if err {
        return;
      }
      FinishAction(Fail(Error));
    }

    method HandleProvisionFailed() returns (err: bool)
      modifies this
      ensures Out(Now(), err) == JobEndHandled(c, old(Now()), Provision, Fail(Failed))
    {
      var state := Ended(Provision, Failed);
      MergeIntoEmpty(payload.jobVars);
      var jv := Merge(map[], payload.jobVars)["agnosticd_collect_forensics" := Bool(true)];
      err := SubjectUpdate(NOTHING.(stateLabel := Some(state), current := Some(state), healthy := Some(false),
                                    jobVars := Some(jv), job := Some(JobEntry(Provision, End(None)))));
      if err {
        return;
      }
      FinishAction(Fail(Failed));
    }

    method HandleProvisionCanceled() returns (err: bool)
      modifies this
      ensures Out(Now(), err) == JobEndHandled(c, old(Now()), Provision, Fail(Canceled))
    {
      var state := Ended(Provision, Canceled);
      err := SubjectUpdate(NOTHING.(stateLabel := Some(state), current := Some(state), healthy := Some(false),
                                    job := Some(JobEntry(Provision, End(Some(Fail(Canceled)))))));
      if err {
        return;
      }
      FinishAction(Fail(Canceled));
    }

    method CheckProvisionQueue() returns (err: bool)
      modifies this
      ensures Out(Now(), err) == QueueChecked(c, old(Now()))
      ensures old(Now()).result == NO_DIRECTIVE && Early(old(payload).current) ==> Sound(c, old(Now()), Out(Now(), err))
    {
      hide PlacementRouted, ProvisionError;
      if Now().result == NO_DIRECTIVE && Early(payload.current) { QueueCheckedSound(c, Now()); }
      if Uuid(payload) == "" {
        err := HandleProvisionError();
        return;
      }
      if !c.cfg.hasToken {
        err := HandleProvisionError();
        return;
      }
      var answer := c.world.gets(gets);
      gets := gets + 1;
      assert Now() == old(Now()).(gets := old(gets) + 1);
      err := RoutePlacement(answer);
    }

    /** checkProvisionQueue once the GET is answered. */
    method RoutePlacement(answer: GetAnswer) returns (err: bool)
      modifies this
      ensures Out(Now(), err) == PlacementRouted(c, old(Now()), answer)
    {
      if answer.GetFailed? {
        err := HandleProvisionError();
        return;
      }
      if answer.NotFound? {
        err := HandleProvisionError();
        return;
      }
      match answer.placement {
        case Faulty =>
          err := HandleProvisionError();
        case InQueue =>
          err := SubjectUpdate(NOTHING);
          if err {
            return;
          }
          ContinueAction(c.cfg.queueCheck);
        case _ =>
          err := Dequeue(answer.vars);
      }
    }

    /** The default case of checkProvisionQueue. */
    method Dequeue(dynamicVars: Vars) returns (err: bool)
      modifies this
      ensures Out(Now(), err) == Dequeued(c, old(Now()), dynamicVars)
    {
      var patch := BuildDequeuedPatch(dynamicVars);
      err := SubjectUpdate(patch);
      if err {
        return;
      }
      err := RunProvision();
    }

    method BuildDequeuedPatch(dynamicVars: Vars) returns (patch: Patch)
      modifies this`payload
      ensures Now() == WithVars(old(Now()), dynamicVars)
      ensures patch == StateAndLabel(Pending(Provision)).(jobVars := if dynamicVars == map[] then None else Some(payload.jobVars))
    {
      patch := NOTHING.(stateLabel := Some(Pending(Provision)), current := Some(Pending(Provision)));
      if dynamicVars != map[] {
        MergeIntoJobVars(dynamicVars);
        patch := patch.(jobVars := Some(payload.jobVars));
      }
    }

    // ----- destroy

    method HandleDestroy() returns (err: bool)
      modifies this
      ensures Out(Now(), err) == DestroyHandled(c, old(Now()))
    {
      hide CaughtAll, LookedUp, LaunchedAndPolled, Polled;
      var currentState := payload.current;
      if Destroy !in payload.begun && currentState == Pending(Destroy) {
        err := SubjectUpdate(NOTHING.(begun := Some(Destroy)));
        if err {
          return;
        }
      }
      if c.cfg.sandboxInUse && c.cfg.catchAll {
        assert currentState.Ended? ==> currentState.failure.Error? || currentState.failure.Failed? || currentState.failure.Canceled?;
        var inErrorState := currentState == Ended(Destroy, Error) || currentState == Ended(Destroy, Failed)
                            || currentState == Ended(Destroy, Canceled);
        if inErrorState || c.cfg.disabled(Destroy) {
          err := HandleDestroyCatchAll();
          return;
        }
      }
      if currentState != Running(Destroy) && !c.cfg.disabled(Destroy) {
        err := RunDestroy();
        return;
      }
      if currentState == Running(Destroy) && !c.cfg.disabled(Destroy) {
        err := CheckDeployerJob(Destroy);
        return;
      }
      return false;
    }

    method HandleDestroyCatchAll() returns (err: bool)
      modifies this
      ensures Out(Now(), err) == CaughtAll(c, old(Now()))
      ensures old(Now()).result == NO_DIRECTIVE ==> Sound(c, old(Now()), Out(Now(), err))
      ensures !err ==> delete && subject == old(subject)
    {
      if Now().result == NO_DIRECTIVE { CaughtAllSound(c, Now()); }
      err := SandboxCleanup();
      if err {
        return;
      }
      DeleteSubject();
      FinishAction(Complete);
    }

    method RunDestroy() returns (err: bool)
      modifies this
      ensures Out(Now(), err) == LaunchedAndPolled(c, LookedUp(c, old(Now()), Destroy), Destroy)
      ensures old(Now()).result == NO_DIRECTIVE ==> Sound(c, old(Now()), Out(Now(), err))
      ensures LaunchesAtMost(old(launched), launched, Destroy) && delete == old(delete)
    {
      LookedUpLaunchLaunches(c, Now(), Destroy);
      if Now().result == NO_DIRECTIVE { LookedUpLaunchSound(c, Now(), Destroy); }
      if c.cfg.sandboxInUse {
        var ignored := SandboxGet(Destroy, true);
      }
      err := LaunchAndPoll(Destroy, Some(Running(Destroy)), None);
    }

    method HandleDestroyComplete() returns (err: bool)
      modifies this
      ensures Out(Now(), err) == JobEndHandled(c, old(Now()), Destroy, Complete)
    {
      if c.cfg.sandboxInUse {
        err := SandboxCleanup();
        if err {
          return;
        }
      }
      err := SubjectUpdate(NOTHING.(stateLabel := Some(DestroyComplete), current := Some(DestroyComplete),
                                    job := Some(JobEntry(Destroy, End(Some(Complete))))));
      if err {
        return;
      }
      DeleteSubject();
      FinishAction(Complete);
    }

    // ----- start

    method HandleStart() returns (err: bool)
      modifies this
      ensures Out(Now(), err) == StartHandled(c, old(Now()))
      ensures old(Now()).result == NO_DIRECTIVE ==> Sound(c, old(Now()), Out(Now(), err))
      ensures LaunchesAtMost(old(launched), launched, Start) && delete == old(delete)
    {
      StartLaunches(c, Now());
      if Now().result == NO_DIRECTIVE { StartHandledSound(c, Now()); }
      if payload.current != Running(Start) {
        err := RunStart();
        return;
      }
      if !c.cfg.disabled(Start) {
        err := CheckDeployerJob(Start);
        return;
      }
      return false;
    }

    method RunStart() returns (err: bool)
      modifies this
      ensures Out(Now(), err) == Handlers.StartRun(c, old(Now()))
    {
      err := SubjectUpdate(NOTHING.(begun := Some(Start)));
      if err {
        return;
      }
      if c.cfg.sandboxInUse && c.cfg.sandboxAction(Start) {
        var failed := SandboxStart();
        if failed && c.cfg.disabled(Start) {
          FinishAction(Fail(Error));
          return false;
        }
        if c.cfg.disabled(Start) {
          err := CompleteNoDeployer(Started);
          return;
        }
      }
      if !c.cfg.disabled(Start) {
        if c.cfg.sandboxInUse {
          var ignored := SandboxGet(Start, true);
        }
        err := LaunchAndPoll(Start, Some(Running(Start)), None);
        return;
      }
      return false;
    }

    /** completeStartNoDeployer and the end of completeStopNoDeployer. */
    method CompleteNoDeployer(state: State) returns (err: bool)
      modifies this
      ensures Out(Now(), err) == CompletedWithoutJob(c, old(Now()), StateAndLabel(state))
    {
      err := SubjectUpdate(NOTHING.(stateLabel := Some(state), current := Some(state)));
      if err {
        return;
      }
      FinishAction(Complete);
    }

    method HandleStartComplete() returns (err: bool)
      modifies this
      ensures Out(Now(), err) == JobEndHandled(c, old(Now()), Start, Complete)
    {
      err := SubjectUpdate(NOTHING.(stateLabel := Some(Started), current := Some(Started),
                                    job := Some(JobEntry(Start, End(Some(Complete))))));
      if err {
        return;
      }
      FinishAction(Complete);
    }

    // ----- stop

    method HandleStop() returns (err: bool)
      modifies this
      ensures Out(Now(), err) == StopHandled(c, old(Now()))
      ensures old(Now()).result == NO_DIRECTIVE ==> Sound(c, old(Now()), Out(Now(), err))
      ensures LaunchesAtMost(old(launched), launched, Stop) && delete == old(delete)
    {
      StopLaunches(c, Now());
      if Now().result == NO_DIRECTIVE { StopHandledSound(c, Now()); }
      if payload.current != Running(Stop) {
        err := RunStop();
        return;
      }
      if !c.cfg.disabled(Stop) {
        err := CheckDeployerJob(Stop);
        return;
      }
      return false;
    }

    method RunStop() returns (err: bool)
      modifies this
      ensures Out(Now(), err) == Handlers.StopRun(c, old(Now()))
      ensures old(Now()).result == NO_DIRECTIVE ==> Sound(c, old(Now()), Out(Now(), err))
      ensures LaunchesAtMost(old(launched), launched, Stop) && delete == old(delete)
    {
      if Now().result == NO_DIRECTIVE { StopRunSound(c, Now()); }
      err := SubjectUpdate(NOTHING.(begun := Some(Stop)));
      if err {
        return;
      }
      if !c.cfg.disabled(Stop) {
        if c.cfg.sandboxInUse {
          var ignored := SandboxGet(Stop, true);
        }
        err := LaunchAndPoll(Stop, Some(Running(Stop)), None);
        return;
      }
      if c.cfg.sandboxInUse && c.cfg.sandboxAction(Stop) {
        var failed := SandboxStop();
        if failed {
          FinishAction(Fail(Error));
          return false;
        }
        err := CompleteNoDeployer(Stopped);
        return;
      }
      return false;
    }

    method HandleStopComplete() returns (err: bool)
      modifies this
      ensures Out(Now(), err) == JobEndHandled(c, old(Now()), Stop, Complete)
    {
      err := SubjectUpdate(NOTHING.(job := Some(JobEntry(Stop, End(Some(Complete))))));
      if err {
        return;
      }
      if c.cfg.sandboxInUse && c.cfg.sandboxAction(Stop) {
        var ignored := SandboxStop();
      }
      err := SubjectUpdate(NOTHING.(stateLabel := Some(Stopped), current := Some(Stopped)));
      if err {
        return;
      }
      FinishAction(Complete);
    }

    // ----- status

    method HandleStatus() returns (err: bool)
      modifies this
      ensures Out(Now(), err) == StatusHandled(c, old(Now()))
      ensures old(Now()).result == NO_DIRECTIVE ==> Sound(c, old(Now()), Out(Now(), err))
      ensures LaunchesAtMost(old(launched), launched, Status) && delete == old(delete)
    {
      StatusLaunches(c, Now());
      if Now().result == NO_DIRECTIVE { StatusHandledSound(c, Now()); }
      if payload.check == CheckPending {
        err := RunStatus();
        return;
      }
      if payload.check == CheckRunning {
        if !c.cfg.disabled(Status) {
          err := CheckDeployerJob(Status);
          return;
        }
        err := SubjectUpdate(NOTHING.(check := Some(CheckEnded(Complete))));
        if err {
          return;
        }
        FinishAction(Complete);
        return;
      }
      return false;
    }

    method RunStatus() returns (err: bool)
      modifies this
      ensures Out(Now(), err) == Handlers.StatusRun(c, old(Now()))
      ensures subject.current == old(subject).current
      ensures !err && c.cfg.disabled(Status) ==> subject.check == CheckEnded(Complete) && finish == Some(Complete)
      ensures !err && !c.cfg.disabled(Status) ==> subject.check == CheckRunning && JobRecorded(subject, Status) && cont.Some?
    {
      err := SubjectUpdate(NOTHING.(begun := Some(Status)));
      if err {
        return;
      }
      if !c.cfg.disabled(Status) {
        if c.cfg.sandboxInUse {
          var ignored := SandboxGet(Status, true);
        }
        err := LaunchAndPoll(Status, None, Some(CheckRunning));
        return;
      }
      err := SubjectUpdate(NOTHING.(check := Some(CheckEnded(Complete))));
      if err {
        return;
      }
      FinishAction(Complete);
    }

    // ----- update

    method HandleUpdate() returns (err: bool)
      modifies this
      ensures Out(Now(), err) == UpdateHandled(c, old(Now()))
      ensures old(Now()).result == NO_DIRECTIVE ==> Sound(c, old(Now()), Out(Now(), err))
      ensures LaunchesAtMost(old(launched), launched, Update) && delete == old(delete)
    {
      UpdateLaunches(c, Now());
      if Now().result == NO_DIRECTIVE { UpdateHandledSound(c, Now()); }
      if payload.current != Running(Update) {
        if c.cfg.sandboxInUse {
          var ignored := SandboxGet(Update, true);
        }
        err := LaunchAndPoll(Update, Some(Running(Update)), None);
        return;
      }
      err := CheckDeployerJob(Update);
    }

    // ----- events

    method HandleEventCreate() returns (err: bool)
      modifies this
      ensures Out(Now(), err) == CreateHandled(c, old(Now()))
      ensures old(Now()).result == NO_DIRECTIVE ==> Sound(c, old(Now()), Out(Now(), err))
      ensures !err && old(payload).current == Empty ==> subject.current == Pending(Provision)
    {
      if Now().result == NO_DIRECTIVE { CreateHandledSound(c, Now()); }
      if payload.current == Empty {
        var jobVarsPatch := BuildInitialJobVars();
        err := SubjectUpdate(NOTHING.(stateLabel := Some(Pending(Provision)), current := Some(Pending(Provision)),
                                      jobVars := Some(jobVarsPatch)));
        if err {
          return;
        }
      }
      err := ScheduleAction(Provision);
    }

    method BuildInitialJobVars() returns (vars: Vars)
      ensures vars == InitialJobVars(c, payload.jobVars)
    {
      var subjectUUID := c.world.newUuid;
      if StringAt(payload.jobVars, "uuid") != "" {
        subjectUUID := StringAt(payload.jobVars, "uuid");
      }
      vars := map["cloud_provider" := Str(c.cfg.cloudProvider), "platform" := Str(c.cfg.platform), "uuid" := Str(subjectUUID)];
      if !("guid" in payload.jobVars && payload.jobVars["guid"].Str?) {
        vars := vars["guid" := Str(subjectUUID)];
      }
    }

    method ScheduleUpdateAction(action: Action) returns (err: bool)
      modifies this
      ensures Out(Now(), err) == PatchedAndScheduled(c, old(Now()), StateAndLabel(Pending(action)), action)
      ensures old(Now()).result == NO_DIRECTIVE && !action.Provision? ==> Sound(c, old(Now()), Out(Now(), err))
      ensures Now().result == old(Now()).result && launched == old(launched)
    {
      if Now().result == NO_DIRECTIVE && !action.Provision? { PatchedAndScheduledSound(c, Now(), StateAndLabel(Pending(action)), action); }
      var pendingState := Pending(action);
      err := SubjectUpdate(NOTHING.(stateLabel := Some(pendingState), current := Some(pendingState)));
      if err {
        return;
      }
      err := ScheduleAction(action);
    }

    method HandleEventUpdate() returns (err: bool)
      modifies this
      ensures Out(Now(), err) == UpdateEventHandled(c, old(Now()))
    {
      var action := UpdateAction(payload);
      if action.Some? && c.cfg.actions.Some? && action.value in c.cfg.actions.value {
        err := ScheduleUpdateAction(action.value);
        if err {
          return;
        }
      }
      if c.cfg.actions.None? || Status !in c.cfg.actions.value {
        return false;
      }
      if StatusDue(payload) {
        err := SubjectUpdate(NOTHING.(check := Some(CheckPending)));
        if err {
          return;
        }
        err := ScheduleAction(Status);
        return;
      }
      return false;
    }

    method HandleEventDelete() returns (err: bool)
      modifies this
      ensures Out(Now(), err) == DeleteHandled(c, old(Now()))
      ensures old(Now()).result == NO_DIRECTIVE ==> Orderly(c, old(Now()), Out(Now(), err))
      ensures old(Now()).result == NO_DIRECTIVE && old(released) == [] && delete ==>
                !DeletesWithDestroy(c, old(payload)) && (c.cfg.sandboxInUse && c.cfg.hasToken ==> (Freed(c, Now()) <==> Cleans(c, old(payload))))
    {
      if Now().result == NO_DIRECTIVE {
        DeleteHandledOrderly(c, Now());
        if released == [] && DeleteHandled(c, Now()).run.result.delete { DeleteEventFrees(c, Now()); }
      }
      var hasProvisionJob := Provision in payload.jobs && payload.jobs[Provision].id.Some?;
      var hasDestroyAction := c.cfg.actions.Some? && Destroy in c.cfg.actions.value;
      var deployerEnabled := !c.cfg.disabled(Destroy);
      if hasProvisionJob && hasDestroyAction && deployerEnabled {
        err := ScheduleAction(Destroy);
        if err {
          return;
        }
        err := SubjectUpdate(NOTHING.(current := Some(Pending(Destroy)), desired := Some(ToBeDestroyed)));
        return;
      }
      err := HandleEventDeleteWithoutDestroy();
    }

    method HandleEventDeleteWithoutDestroy() returns (err: bool)
      modifies this
      ensures Out(Now(), err) == DeletedWithoutDestroy(c, old(Now()))
      ensures !err ==> delete && finish == Some(Complete) && subject.current == DestroyComplete && subject.desired == ToBeDestroyed
    {
      if c.cfg.sandboxInUse && c.cfg.catchAll && Uuid(payload) != "" {
        err := SandboxCleanup();
        if err {
          return;
        }
      }
      err := SubjectUpdate(NOTHING.(current := Some(DestroyComplete), desired := Some(ToBeDestroyed)));
      if err {
        return;
      }
      DeleteSubject();
      FinishAction(Complete);
    }

    // ----- dispatch

    method Dispatch(t: Trigger) returns (err: bool)
      modifies this
      ensures Out(Now(), err) == Handled(c, old(Now()), t)
      ensures old(Now()).result == NO_DIRECTIVE ==> Orderly(c, old(Now()), Out(Now(), err)) && (!t.ToDelete? ==> Sound(c, old(Now()), Out(Now(), err)))
    {
      if Now().result == NO_DIRECTIVE { HandledSound(c, Now(), t); }
      match t {
        case Created => err := HandleEventCreate();
        case Updated => err := HandleEventUpdate();
        case ToDelete => err := HandleEventDelete();
        case Act(a) =>
          match a {
            case Provision => err := HandleProvision();
            case Destroy => err := HandleDestroy();
            case Start => err := HandleStart();
            case Stop => err := HandleStop();
            case Status => err := HandleStatus();
            case Update => err := HandleUpdate();
          }
        case Callback(a, outcome) =>
          if outcome.Complete? {
            err := HandleDeployerJobSuccess(a);
          } else {
            err := HandleDeployerJobFailure(a, outcome.failure);
          }
        case Unknown => return true;
      }
    }
  }

  /** One run: dispatch on a fresh snapshot; an error or a panic makes it failed. */
  method PollOnce(c: Context, payload: Subject, held: set<string>, t: Trigger)
    returns (failed: bool, result: Directives, subject: Subject, placements: set<string>)
    ensures Lives.PostedBy(Handled(c, Fresh(payload, held), t)) == Lives.Posted(failed, result)
    ensures subject == Handled(c, Fresh(payload, held), t).run.subject
    ensures placements == Handled(c, Fresh(payload, held), t).run.held
    ensures failed ==> result == NO_DIRECTIVE
    ensures !(result.finish.Some? && result.cont.Some?)
    ensures result.delete ==> result.finish == Some(Complete) && result.cont.None? && !failed
  {
    hide Handled;
    var rc := new RunContext(c, payload, held);
    failed := rc.Dispatch(t);
    Lives.DirectivesOfRun(c, payload, held, t);
    result := Directives(rc.finish, rc.delete, rc.cont);
    subject, placements := rc.subject, rc.held;
  }
}

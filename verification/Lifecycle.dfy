/** What every run keeps, whatever Anarchy, Tower and the sandbox API answer. */
module Lifecycle {
  import opened Json
  import opened DeepMerge
  import opened Subjects
  import opened Handlers

  // ----- the invariants

  /** A subject in a running state has the record that its job can be polled with. */
  ghost predicate RecordsOk(s: Subject)
  {
    && (s.current.Running? ==> JobRecorded(s, s.current.action))
    && (s.check.CheckRunning? ==> JobRecorded(s, Status))
  }

  /** The states in front of the provision job. */
  predicate Early(s: State)
  {
    s == Empty || s == Pending(Provision) || s == Queued
  }

  /** No placement names the subject's uuid among its variables. */
  ghost predicate StableVars(c: Context)
  {
    forall n :: c.world.gets(n).Found? ==> "uuid" !in c.world.gets(n).vars
  }

  // ----- the parts of a run that set no directive and leave the state alone

  /** From r to q only job_vars, the label, startTimestamps, placements and counters moved. */
  ghost predicate Quiet(c: Context, r: Run, q: Run)
  {
    && q == r.(payload := r.payload.(jobVars := q.payload.jobVars),
               subject := r.subject.(jobVars := q.subject.jobVars, stateLabel := q.subject.stateLabel, begun := q.subject.begun),
               held := q.held, patches := q.patches, gets := q.gets)
    && r.patches <= q.patches
    && (StableVars(c) ==> OwnPlacement(r, q))
  }

  /** The uuid of the snapshot stays, and that of the subject when it was the same; placements
      come into being under it, and without a uuid none does. */
  ghost predicate OwnPlacement(r: Run, q: Run)
  {
    && Uuid(q.payload) == Uuid(r.payload)
    && (Uuid(r.payload) != "" && Uuid(r.subject) == Uuid(r.payload) ==> Uuid(q.subject) == Uuid(r.payload))
    && q.held <= r.held + (if Uuid(r.payload) == "" then {} else {Uuid(r.payload)})
  }

  lemma {:induction false} WithVarsQuiet(c: Context, r: Run, vars: Vars)
    requires StableVars(c) ==> "uuid" !in vars
    ensures Quiet(c, r, WithVars(r, vars))
  {
  }

  lemma {:induction false} MergedUuid(a: Vars, b: Vars)
    ensures StringAt(b, "uuid") != "" ==> StringAt(Merge(a, b), "uuid") == StringAt(b, "uuid")
    ensures "uuid" !in b ==> StringAt(Merge(a, b), "uuid") == StringAt(a, "uuid")
    ensures StringAt(a, "uuid") == StringAt(b, "uuid") ==> StringAt(Merge(a, b), "uuid") == StringAt(a, "uuid")
  {
  }

  lemma {:induction false} ExtractedQuiet(c: Context, r: Run, vars: Vars, labelled: bool)
    requires StableVars(c) ==> "uuid" !in vars
    ensures Quiet(c, r, Extracted(c, r, vars, labelled).run)
    ensures !Extracted(c, r, vars, labelled).booking.Invalid?
  {
    if vars != map[] {
      WithVarsQuiet(c, r, vars);
      MergedUuid(r.subject.jobVars, WithVars(r, vars).payload.jobVars);
    }
  }

  lemma {:induction false} GetQuiet(c: Context, r: Run, a: Action)
    ensures Quiet(c, r, SandboxGet(c, r, a, false).run)
    ensures !SandboxGet(c, r, a, false).booking.Invalid?
  {
    hide Extracted;
    match c.world.gets(r.gets)
    case Found(placement, vars, labelled) => ExtractedQuiet(c, r.(gets := r.gets + 1), vars, labelled);
    case _ =>
  }

  lemma {:induction false} BookQuiet(c: Context, r: Run)
    requires c.world.requestValid && Uuid(r.payload) != ""
    ensures Quiet(c, r, SandboxBook(c, r).run) && !SandboxBook(c, r).booking.Invalid?
  {
    hide SandboxGet, Extracted;
    var r1 := if c.world.book.created then r.(held := r.held + {Uuid(r.payload)}) else r;
    GetQuiet(c, r1, Provision);
  }

  predicate Books(c: Context, r: Run, a: Action)
  {
    a.Provision? && Uuid(r.payload) != "" && c.cfg.hasToken && c.world.gets(r.gets).NotFound?
  }

  lemma {:induction false} GetOrBook(c: Context, r: Run, a: Action)
    ensures SandboxGet(c, r, a, true) ==
            if Books(c, r, a) then SandboxBook(c, r.(gets := r.gets + 1)) else SandboxGet(c, r, a, false)
  {
    hide Extracted, SandboxBook;
  }

  /** Only an invalid request leaves a directive behind. */
  lemma {:induction false} GetOrBookQuiet(c: Context, r: Run, a: Action)
    ensures var got := SandboxGet(c, r, a, true);
            if got.booking.Invalid? then a.Provision? && got.run == Finished(r.(gets := r.gets + 1), Fail(Failed))
            else Quiet(c, r, got.run)
  {
    hide SandboxGet, SandboxBook;
    GetOrBook(c, r, a);
    if !Books(c, r, a) {
      GetQuiet(c, r, a);
    } else if c.world.requestValid {
      BookQuiet(c, r.(gets := r.gets + 1));
    } else {
      InvalidRequest(c, r.(gets := r.gets + 1));
    }
  }

  lemma {:induction false} InvalidRequest(c: Context, r: Run)
    requires !c.world.requestValid
    ensures SandboxBook(c, r) == Got(Finished(r, Fail(Failed)), Invalid)
  {
  }

  lemma {:induction false} LookedUpQuiet(c: Context, r: Run, a: Action)
    requires !a.Provision?
    ensures Quiet(c, r, LookedUp(c, r, a))
  {
    hide SandboxGet;
    GetOrBookQuiet(c, r, a);
  }

  lemma {:induction false} BegunQuiet(c: Context, r: Run, a: Action)
    ensures Quiet(c, r, Begun(c, r, a).run)
  {
  }

  lemma {:induction false} PlacementActedQuiet(c: Context, r: Run, a: Action)
    ensures Quiet(c, r, PlacementActed(c, r, a).run)
  {
  }

  // ----- what every handler keeps

  /** No finish together with continue, and a delete only together with a successful finish. */
  predicate Directed(d: Directives)
  {
    && !(d.finish.Some? && d.cont.Some?)
    && (d.delete ==> d.finish == Some(Complete))
  }

  /** With the sandbox API in use and a token, the last release was that of the own uuid, it
      was accepted, and no placement is held under it. */
  ghost predicate Freed(c: Context, q: Run)
  {
    c.cfg.sandboxInUse && c.cfg.hasToken ==>
      && Uuid(q.payload) != "" && Uuid(q.payload) !in q.held
      && q.released != [] && q.released[|q.released| - 1] == Uuid(q.payload)
  }

  /** A handler's work from r to o, up to what a delete needs. */
  ghost predicate Orderly(c: Context, r: Run, o: Out)
  {
    && Directed(o.run.result) && (o.err ==> o.run.result == NO_DIRECTIVE)
    && Keeps(c, r, o.run)
  }

  ghost predicate Sound(c: Context, r: Run, o: Out)
  {
    Orderly(c, r, o) && (o.run.result.delete ==> Freed(c, o.run))
  }

  ghost predicate Keeps(c: Context, r: Run, q: Run)
  {
    && q.payload == r.payload.(jobVars := q.payload.jobVars)
    && (RecordsOk(r.subject) ==> RecordsOk(q.subject))
    && (!Early(r.subject.current) && !Early(r.payload.current) ==> !Early(q.subject.current))
    && (Provision in q.launched ==> Provision in r.launched || Early(r.payload.current))
    && (StableVars(c) ==> OwnPlacement(r, q))
  }

  lemma {:induction false} QuietKeeps(c: Context, r: Run, q: Run)
    requires Quiet(c, r, q)
    ensures Keeps(c, r, q)
  {
    assert forall a :: JobRecorded(q.subject, a) == JobRecorded(r.subject, a);
  }

  lemma {:induction false} KeepsThen(c: Context, r: Run, q: Run, z: Run)
    requires Keeps(c, r, q) && Keeps(c, q, z)
    ensures Keeps(c, r, z)
  {
  }

  /** A patch that moves into no running and no early state. */
  predicate Settling(p: Patch)
  {
    && (p.current.Some? ==> !p.current.value.Running? && !Early(p.current.value))
    && p.check != Some(CheckRunning)
  }

  lemma {:induction false} JobsStayRecorded(s: Subject, p: Patch, a: Action)
    requires JobRecorded(s, a)
    requires p.job.Some? && p.job.value.change.Launch? ==> p.job.value.change.host != ""
    ensures JobRecorded(Apply(s, p), a)
  {
  }

  lemma {:induction false} SettledKeeps(c: Context, r: Run, p: Patch)
    requires Settling(p)
    requires p.job.Some? ==> p.job.value.change.End?
    requires p.jobVars.Some? ==> StringAt(p.jobVars.value, "uuid") == Uuid(r.payload)
    ensures Keeps(c, r, Patched(c, r, p).run)
  {
    forall a | JobRecorded(r.subject, a) ensures JobRecorded(Apply(r.subject, p), a) {
      JobsStayRecorded(r.subject, p, a);
    }
    if p.jobVars.Some? {
      MergedUuid(r.subject.jobVars, p.jobVars.value);
    }
  }

  lemma {:induction false} LaunchedKeeps(c: Context, r: Run, a: Action)
    requires a.Provision? ==> Early(r.payload.current)
    ensures Keeps(c, r, LaunchedJob(c, r, a, LaunchState(a), LaunchCheck(a)).run)
  {
    if c.world.controller != "" && c.world.launch.Launched? {
      var p := LaunchPatch(a, LaunchState(a), LaunchCheck(a), c.world.launch.id, c.world.controller);
      forall b | JobRecorded(r.subject, b) ensures JobRecorded(Apply(r.subject, p), b) {
        JobsStayRecorded(r.subject, p, b);
      }
      assert JobRecorded(Apply(r.subject, p), a);
    }
  }

  lemma {:induction false} CleanedKeeps(c: Context, r: Run)
    ensures Keeps(c, r, CleanedUp(c, r).run) && CleanedUp(c, r).run.result == r.result
    ensures !CleanedUp(c, r).err ==> Freed(c, CleanedUp(c, r).run)
  {
  }

  lemma {:induction false} SoundThen(c: Context, r: Run, q: Run, o: Out)
    requires Keeps(c, r, q) && Sound(c, q, o)
    ensures Sound(c, r, o)
  {
    KeepsThen(c, r, q, o.run);
  }

  /** Setting directives and sending schedule requests touch nothing else. */
  lemma {:induction false} SameKeeps(c: Context, r: Run, result: Directives, scheduled: seq<Action>)
    ensures Keeps(c, r, r.(result := result, scheduled := scheduled))
  {
  }

  lemma {:induction false} EndDirectiveSound(c: Context, r: Run, a: Action, outcome: Outcome)
    requires r.result == NO_DIRECTIVE
    requires a.Destroy? && outcome.Complete? ==> Freed(c, r)
    ensures Sound(c, r, EndDirective(c, r, a, outcome))
  {
    hide Keeps;
    var o := EndDirective(c, r, a, outcome);
    SameKeeps(c, r, o.run.result, o.run.scheduled);
    assert o.run == r.(result := o.run.result, scheduled := o.run.scheduled);
  }

  lemma {:induction false} FinalPatchSettles(r: Run, a: Action, outcome: Outcome)
    ensures var p := FinalPatch(a, outcome, r.payload.jobVars);
            && Settling(p) && (p.job.Some? ==> p.job.value.change.End?)
            && (p.jobVars.Some? ==> StringAt(p.jobVars.value, "uuid") == Uuid(r.payload))
  {
  }

  lemma {:induction false} EndRecordedSound(c: Context, r: Run, a: Action, outcome: Outcome)
    requires r.result == NO_DIRECTIVE
    requires a.Destroy? && outcome.Complete? ==> Freed(c, r)
    ensures Sound(c, r, EndRecorded(c, r, a, outcome))
  {
    hide Keeps, FinalPatch, EndDirective;
    var o := Patched(c, r, FinalPatch(a, outcome, r.payload.jobVars));
    FinalPatchSettles(r, a, outcome);
    SettledKeeps(c, r, FinalPatch(a, outcome, r.payload.jobVars));
    if !o.err {
      EndDirectiveSound(c, o.run, a, outcome);
      SoundThen(c, r, o.run, EndDirective(c, o.run, a, outcome));
    }
  }

  lemma {:induction false} EndPreludeKeeps(c: Context, r: Run, a: Action, outcome: Outcome)
    ensures Keeps(c, r, EndPrelude(c, r, a, outcome).run)
    ensures EndPrelude(c, r, a, outcome).run.result == r.result
    ensures a.Destroy? && outcome.Complete? && !EndPrelude(c, r, a, outcome).err ==> Freed(c, EndPrelude(c, r, a, outcome).run)
  {
    hide Keeps, PlacementActed, CleanedUp;
    CleanedKeeps(c, r);
    SameKeeps(c, r, r.result, r.scheduled);
    PlacementActedQuiet(c, r, Stop);
    QuietKeeps(c, r, PlacementActed(c, r, Stop).run);
    var p := NOTHING.(job := Some(JobEntry(Stop, End(Some(Complete)))));
    SettledKeeps(c, r, p);
    var q := Patched(c, r, p).run;
    PlacementActedQuiet(c, q, Stop);
    QuietKeeps(c, q, PlacementActed(c, q, Stop).run);
    KeepsThen(c, r, q, PlacementActed(c, q, Stop).run);
  }

  lemma {:induction false} JobEndSound(c: Context, r: Run, a: Action, outcome: Outcome)
    requires r.result == NO_DIRECTIVE
    ensures Sound(c, r, JobEndHandled(c, r, a, outcome))
  {
    hide Keeps, EndPrelude, EndRecorded;
    var o := EndPrelude(c, r, a, outcome);
    EndPreludeKeeps(c, r, a, outcome);
    if !o.err {
      EndRecordedSound(c, o.run, a, outcome);
      SoundThen(c, r, o.run, EndRecorded(c, o.run, a, outcome));
    }
  }

  lemma {:induction false} PolledSound(c: Context, r: Run, a: Action)
    requires r.result == NO_DIRECTIVE
    ensures Sound(c, r, Polled(c, r, a))
  {
    hide Keeps, JobEndHandled;
    SameKeeps(c, r, Polled(c, r, a).run.result, r.scheduled);
    if c.world.poll.JobEnded? {
      JobEndSound(c, r, a, c.world.poll.outcome);
    }
  }

  lemma {:induction false} LaunchedAndPolledSound(c: Context, r: Run, a: Action)
    requires r.result == NO_DIRECTIVE
    requires a.Provision? ==> Early(r.payload.current)
    ensures Sound(c, r, LaunchedAndPolled(c, r, a))
  {
    hide Keeps, LaunchedJob;
    var q := LaunchedJob(c, r, a, LaunchState(a), LaunchCheck(a)).run;
    LaunchedKeeps(c, r, a);
    var o := LaunchedAndPolled(c, r, a);
    LaunchResult(c, r, a, LaunchState(a), LaunchCheck(a));
    SameKeeps(c, q, o.run.result, q.scheduled);
    KeepsThen(c, r, q, o.run);
  }

  lemma {:induction false} LaunchResult(c: Context, r: Run, a: Action, newState: Option<State>, check: Option<Check>)
    ensures LaunchedJob(c, r, a, newState, check).run.result == r.result
  {
  }

  lemma {:induction false} CompletedSound(c: Context, r: Run, p: Patch)
    requires r.result == NO_DIRECTIVE
    requires Settling(p) && p.job.None? && p.jobVars.None?
    ensures Sound(c, r, CompletedWithoutJob(c, r, p))
  {
    hide Keeps;
    SettledKeeps(c, r, p);
    var q := Patched(c, r, p).run;
    SameKeeps(c, q, CompletedWithoutJob(c, r, p).run.result, q.scheduled);
    KeepsThen(c, r, q, CompletedWithoutJob(c, r, p).run);
  }

  // ----- provision

  lemma {:induction false} ProvisionLaunchedSound(c: Context, r: Run)
    requires r.result == NO_DIRECTIVE && Early(r.payload.current)
    ensures Sound(c, r, ProvisionLaunched(c, r))
  {
    hide Keeps, LaunchedJob, ProvisionError, CompletedWithoutJob;
    var o := LaunchedJob(c, r, Provision, LaunchState(Provision), LaunchCheck(Provision));
    LaunchedKeeps(c, r, Provision);
    LaunchResult(c, r, Provision, LaunchState(Provision), LaunchCheck(Provision));
    ProvisionErrorSound(c, o.run);
    SoundThen(c, r, o.run, ProvisionError(c, o.run));
    CompletedSound(c, r, StateAndLabel(Started).(healthy := Some(true)));
    SameKeeps(c, r, r.result, r.scheduled);
    if |c.cfg.pollIntervals| > 0 {
      var continued := Continued(o.run, c.cfg.pollIntervals[0], map[]);
      SameKeeps(c, o.run, continued.result, o.run.scheduled);
      KeepsThen(c, r, o.run, continued);
    }
  }

  lemma {:induction false} ProvisionErrorSound(c: Context, r: Run)
    requires r.result == NO_DIRECTIVE
    ensures Sound(c, r, ProvisionError(c, r))
  {
    hide Keeps, JobEndHandled;
    JobEndSound(c, r, Provision, Fail(Error));
  }

  /** A patch into an early state, from an early state. */
  lemma {:induction false} EarlyPatchKeeps(c: Context, r: Run, p: Patch)
    requires Early(r.payload.current) && p.current.Some? && Early(p.current.value)
    requires p.check.None? && p.job.None?
    requires p.jobVars.Some? ==> StringAt(p.jobVars.value, "uuid") == Uuid(r.payload)
    ensures Keeps(c, r, Patched(c, r, p).run)
  {
    if p.jobVars.Some? {
      MergedUuid(r.subject.jobVars, p.jobVars.value);
    }
  }

  lemma {:induction false} ToQueuedSound(c: Context, r: Run)
    requires r.result == NO_DIRECTIVE && Early(r.payload.current)
    ensures Sound(c, r, ToQueued(c, r))
  {
    hide Keeps;
    EarlyPatchKeeps(c, r, StateAndLabel(Queued));
    var q := Patched(c, r, StateAndLabel(Queued)).run;
    SameKeeps(c, q, ToQueued(c, r).run.result, q.scheduled);
    KeepsThen(c, r, q, ToQueued(c, r).run);
  }

  lemma {:induction false} ProvisionBookedSound(c: Context, r: Run)
    requires r.result == NO_DIRECTIVE && Early(r.payload.current)
    ensures Sound(c, r, ProvisionBooked(c, r))
  {
    hide Keeps, SandboxGet, ProvisionError, ProvisionLaunched, ToQueued;
    var got := SandboxGet(c, r, Provision, true);
    GetOrBookQuiet(c, r, Provision);
    if got.booking.Invalid? {
      SameKeeps(c, r.(gets := r.gets + 1), got.run.result, r.scheduled);
      QuietKeeps(c, r, r.(gets := r.gets + 1));
      KeepsThen(c, r, r.(gets := r.gets + 1), got.run);
    } else {
      QuietKeeps(c, r, got.run);
      ProvisionErrorSound(c, got.run);
      ProvisionLaunchedSound(c, got.run);
      ToQueuedSound(c, got.run);
      SoundThen(c, r, got.run, ProvisionBooked(c, r));
    }
  }

  lemma {:induction false} ProvisionRunSound(c: Context, r: Run)
    requires r.result == NO_DIRECTIVE && Early(r.payload.current)
    ensures Sound(c, r, ProvisionRun(c, r))
  {
    hide Keeps, ProvisionBooked, ProvisionLaunched, Begun;
    var begun := if Provision in r.payload.begun then Out(r, false) else Begun(c, r, Provision);
    BegunQuiet(c, r, Provision);
    SameKeeps(c, r, r.result, r.scheduled);
    QuietKeeps(c, r, begun.run);
    if !begun.err {
      ProvisionBookedSound(c, begun.run);
      ProvisionLaunchedSound(c, begun.run);
      SoundThen(c, r, begun.run, ProvisionRun(c, r));
    }
  }

  lemma {:induction false} DequeuedSound(c: Context, r: Run, vars: Vars)
    requires r.result == NO_DIRECTIVE && Early(r.payload.current)
    requires StableVars(c) ==> "uuid" !in vars
    ensures Sound(c, r, Dequeued(c, r, vars))
  {
    hide Keeps, ProvisionRun, WithVars, Quiet;
    var q := WithVars(r, vars);
    WithVarsQuiet(c, r, vars);
    QuietKeeps(c, r, q);
    QuietPayload(c, r, q);
    var p := StateAndLabel(Pending(Provision)).(jobVars := if vars == map[] then None else Some(q.payload.jobVars));
    EarlyPatchKeeps(c, q, p);
    KeepsThen(c, r, q, Patched(c, q, p).run);
    if !Patched(c, q, p).err {
      ProvisionRunSound(c, Patched(c, q, p).run);
      SoundThen(c, r, Patched(c, q, p).run, Dequeued(c, r, vars));
    }
  }

  lemma {:induction false} QuietPayload(c: Context, r: Run, q: Run)
    requires Quiet(c, r, q)
    ensures q.payload.current == r.payload.current && q.result == r.result
  {
  }

  lemma {:induction false} StillQueuedSound(c: Context, r: Run)
    requires r.result == NO_DIRECTIVE
    ensures Sound(c, r, StillQueued(c, r))
  {
    hide Keeps;
    SettledKeeps(c, r, NOTHING);
    var q := Patched(c, r, NOTHING).run;
    SameKeeps(c, q, StillQueued(c, r).run.result, q.scheduled);
    KeepsThen(c, r, q, StillQueued(c, r).run);
  }

  lemma {:induction false} QueueCheckedSound(c: Context, r: Run)
    requires r.result == NO_DIRECTIVE && Early(r.payload.current)
    ensures Sound(c, r, QueueChecked(c, r))
  {
    hide Keeps, ProvisionError, StillQueued, Dequeued;
    var q := r.(gets := r.gets + 1);
    QuietKeeps(c, r, q);
    ProvisionErrorSound(c, r);
    ProvisionErrorSound(c, q);
    StillQueuedSound(c, q);
    var answer := c.world.gets(r.gets);
    if answer.Found? {
      DequeuedSound(c, q, answer.vars);
    }
    SoundThen(c, r, q, PlacementRouted(c, q, answer));
  }

  lemma {:induction false} NothingSound(c: Context, r: Run, err: bool)
    requires r.result == NO_DIRECTIVE
    ensures Sound(c, r, Out(r, err))
  {
  }

  lemma {:induction false} ProvisionHandledSound(c: Context, r: Run)
    requires r.result == NO_DIRECTIVE
    ensures Sound(c, r, ProvisionHandled(c, r))
  {
    hide Sound, ProvisionRun, QueueChecked, Polled;
    NothingSound(c, r, false);
    PolledSound(c, r, Provision);
    if r.payload.current == Pending(Provision) {
      ProvisionRunSound(c, r);
    } else if r.payload.current == Queued {
      QueueCheckedSound(c, r);
    }
  }

  // ----- the other handlers

  lemma {:induction false} CaughtAllSound(c: Context, r: Run)
    requires r.result == NO_DIRECTIVE
    ensures Sound(c, r, CaughtAll(c, r))
  {
    hide Keeps, CleanedUp;
    CleanedKeeps(c, r);
    var q := CleanedUp(c, r).run;
    SameKeeps(c, q, CaughtAll(c, r).run.result, q.scheduled);
    KeepsThen(c, r, q, CaughtAll(c, r).run);
  }

  /** A launch behind the look-up of the placement. */
  lemma {:induction false} LookedUpLaunchSound(c: Context, r: Run, a: Action)
    requires r.result == NO_DIRECTIVE && !a.Provision?
    ensures Sound(c, r, LaunchedAndPolled(c, LookedUp(c, r, a), a))
  {
    hide Keeps, LookedUp, LaunchedAndPolled, Quiet;
    var q := LookedUp(c, r, a);
    LookedUpQuiet(c, r, a);
    QuietKeeps(c, r, q);
    QuietPayload(c, r, q);
    LaunchedAndPolledSound(c, q, a);
    SoundThen(c, r, q, LaunchedAndPolled(c, q, a));
  }

  lemma {:induction false} BegunThen(c: Context, r: Run, a: Action, o: Out)
    requires Sound(c, Begun(c, r, a).run, o)
    ensures Sound(c, r, o)
  {
    hide Keeps, Begun, Quiet;
    BegunQuiet(c, r, a);
    QuietKeeps(c, r, Begun(c, r, a).run);
    SoundThen(c, r, Begun(c, r, a).run, o);
  }

  lemma {:induction false} DestroyHandledSound(c: Context, r: Run)
    requires r.result == NO_DIRECTIVE
    ensures Sound(c, r, DestroyHandled(c, r))
  {
    hide Sound, CaughtAll, Polled, LaunchedAndPolled, LookedUp;
    var begins := Destroy !in r.payload.begun && r.payload.current == Pending(Destroy);
    var q := if begins then Begun(c, r, Destroy).run else r;
    NothingSound(c, q, false);
    NothingSound(c, q, true);
    CaughtAllSound(c, q);
    PolledSound(c, q, Destroy);
    LookedUpLaunchSound(c, q, Destroy);
    if begins {
      BegunThen(c, r, Destroy, DestroyHandled(c, r));
    }
  }

  lemma {:induction false} StartHandledSound(c: Context, r: Run)
    requires r.result == NO_DIRECTIVE
    ensures Sound(c, r, StartHandled(c, r))
  {
    hide Sound, Polled, StartRun;
    NothingSound(c, r, false);
    PolledSound(c, r, Start);
    StartRunSound(c, r);
  }

  lemma {:induction false} StartRunSound(c: Context, r: Run)
    requires r.result == NO_DIRECTIVE
    ensures Sound(c, r, StartRun(c, r))
  {
    hide Sound, PlacementActed, LaunchedAndPolled, LookedUp, CompletedWithoutJob;
    var q := Begun(c, r, Start).run;
    var z := if c.cfg.sandboxInUse && c.cfg.sandboxAction(Start) then PlacementActed(c, q, Start).run else q;
    ActedResult(c, q, Start);
    NothingSound(c, q, true);
    NothingSound(c, z, false);
    ActedThen(c, q, Start, Out(Finished(PlacementActed(c, q, Start).run, Fail(Error)), false));
    LookedUpLaunchSound(c, z, Start);
    CompletedSound(c, z, StateAndLabel(Started));
    FinishedSound(c, z, Fail(Error));
    if c.cfg.sandboxInUse && c.cfg.sandboxAction(Start) {
      ActedThen(c, q, Start, LaunchedAndPolled(c, LookedUp(c, z, Start), Start));
      ActedThen(c, q, Start, CompletedWithoutJob(c, z, StateAndLabel(Started)));
    }
    BegunThen(c, r, Start, StartRun(c, r));
  }

  lemma {:induction false} ActedResult(c: Context, r: Run, a: Action)
    ensures PlacementActed(c, r, a).run.result == r.result
  {
  }

  lemma {:induction false} FinishedSound(c: Context, r: Run, outcome: Outcome)
    requires r.result == NO_DIRECTIVE
    ensures Sound(c, r, Out(Finished(r, outcome), false))
  {
    hide Keeps;
    SameKeeps(c, r, Finished(r, outcome).result, r.scheduled);
  }

  lemma {:induction false} ActedThen(c: Context, r: Run, a: Action, o: Out)
    ensures Sound(c, PlacementActed(c, r, a).run, o) ==> Sound(c, r, o)
  {
    hide Keeps, PlacementActed, Quiet;
    PlacementActedQuiet(c, r, a);
    var q := PlacementActed(c, r, a).run;
    QuietKeeps(c, r, q);
    if Sound(c, q, o) {
      SoundThen(c, r, q, o);
    }
  }

  lemma {:induction false} StopRunSound(c: Context, r: Run)
    requires r.result == NO_DIRECTIVE
    ensures Sound(c, r, StopRun(c, r))
  {
    hide Sound, PlacementActed, LaunchedAndPolled, LookedUp, CompletedWithoutJob;
    var q := Begun(c, r, Stop).run;
    var z := PlacementActed(c, q, Stop).run;
    NothingSound(c, q, true);
    NothingSound(c, q, false);
    LookedUpLaunchSound(c, q, Stop);
    ActedResult(c, q, Stop);
    FinishedSound(c, z, Fail(Error));
    CompletedSound(c, z, StateAndLabel(Stopped));
    ActedThen(c, q, Stop, Out(Finished(z, Fail(Error)), false));
    ActedThen(c, q, Stop, CompletedWithoutJob(c, z, StateAndLabel(Stopped)));
    BegunThen(c, r, Stop, StopRun(c, r));
  }

  lemma {:induction false} StopHandledSound(c: Context, r: Run)
    requires r.result == NO_DIRECTIVE
    ensures Sound(c, r, StopHandled(c, r))
  {
    hide Sound, Polled, StopRun;
    NothingSound(c, r, false);
    PolledSound(c, r, Stop);
    StopRunSound(c, r);
  }

  lemma {:induction false} StatusHandledSound(c: Context, r: Run)
    requires r.result == NO_DIRECTIVE
    ensures Sound(c, r, StatusHandled(c, r))
  {
    hide Sound, Polled, LaunchedAndPolled, LookedUp, CompletedWithoutJob;
    NothingSound(c, r, false);
    PolledSound(c, r, Status);
    CompletedSound(c, r, CHECKED);
    var q := Begun(c, r, Status).run;
    NothingSound(c, q, true);
    CompletedSound(c, q, CHECKED);
    LookedUpLaunchSound(c, q, Status);
    if r.payload.check.CheckPending? {
      BegunThen(c, r, Status, StatusHandled(c, r));
    }
  }

  lemma {:induction false} UpdateHandledSound(c: Context, r: Run)
    requires r.result == NO_DIRECTIVE
    ensures Sound(c, r, UpdateHandled(c, r))
  {
    hide Sound, Polled, LaunchedAndPolled, LookedUp;
    PolledSound(c, r, Update);
    LookedUpLaunchSound(c, r, Update);
  }

  // ----- events

  lemma {:induction false} ScheduledSound(c: Context, r: Run, q: Run, a: Action)
    requires Keeps(c, r, q) && q.result == NO_DIRECTIVE
    ensures Sound(c, r, Scheduled(c, q, a))
  {
    hide Keeps;
    SameKeeps(c, q, q.result, q.scheduled + [a]);
    KeepsThen(c, r, q, Scheduled(c, q, a).run);
  }

  /** The one patch that may give the subject a uuid. */
  lemma {:induction false} CreatePatchKeeps(c: Context, r: Run)
    requires r.payload.current.Empty?
    ensures Keeps(c, r, Patched(c, r, CreatePatch(c, r.payload.jobVars)).run)
  {
    var vars := InitialJobVars(c, r.payload.jobVars);
    MergedUuid(r.subject.jobVars, vars);
    assert "uuid" != "guid" && "uuid" != "platform" && "uuid" != "cloud_provider";
    assert Uuid(r.payload) != "" ==> StringAt(vars, "uuid") == Uuid(r.payload);
  }

  lemma {:induction false} CreateHandledSound(c: Context, r: Run)
    requires r.result == NO_DIRECTIVE
    ensures Sound(c, r, CreateHandled(c, r))
  {
    hide Keeps, CreatePatch;
    SameKeeps(c, r, r.result, r.scheduled);
    ScheduledSound(c, r, r, Provision);
    if r.payload.current.Empty? {
      CreatePatchKeeps(c, r);
      ScheduledSound(c, r, Patched(c, r, CreatePatch(c, r.payload.jobVars)).run, Provision);
    }
  }

  lemma {:induction false} PatchedAndScheduledSound(c: Context, r: Run, p: Patch, a: Action)
    requires r.result == NO_DIRECTIVE && Settling(p) && p.job.None? && p.jobVars.None?
    ensures Sound(c, r, PatchedAndScheduled(c, r, p, a))
    ensures PatchedAndScheduled(c, r, p, a).run.result == NO_DIRECTIVE
  {
    hide Keeps;
    SettledKeeps(c, r, p);
    ScheduledSound(c, r, Patched(c, r, p).run, a);
  }

  lemma {:induction false} UpdateEventSound(c: Context, r: Run)
    requires r.result == NO_DIRECTIVE
    ensures Sound(c, r, UpdateEventHandled(c, r))
  {
    hide Sound, PatchedAndScheduled;
    NothingSound(c, r, false);
    var checking := NOTHING.(check := Some(CheckPending));
    var action := UpdateAction(r.payload);
    if action.Some? && Offered(c, action.value) {
      PatchedAndScheduledSound(c, r, StateAndLabel(Pending(action.value)), action.value);
      var q := PatchedAndScheduled(c, r, StateAndLabel(Pending(action.value)), action.value).run;
      PatchedAndScheduledSound(c, q, checking, Status);
      SoundKeeps(c, r, PatchedAndScheduled(c, r, StateAndLabel(Pending(action.value)), action.value));
      SoundThen(c, r, q, PatchedAndScheduled(c, q, checking, Status));
    } else {
      PatchedAndScheduledSound(c, r, checking, Status);
    }
  }

  lemma {:induction false} SoundKeeps(c: Context, r: Run, o: Out)
    requires Sound(c, r, o)
    ensures Keeps(c, r, o.run)
  {
  }

  lemma {:induction false} DeleteHandledOrderly(c: Context, r: Run)
    requires r.result == NO_DIRECTIVE
    ensures Orderly(c, r, DeleteHandled(c, r))
  {
    hide Keeps, CleanedUp;
    SameKeeps(c, r, r.result, r.scheduled);
    if DeletesWithDestroy(c, r.payload) {
      var q := Scheduled(c, r, Destroy).run;
      SameKeeps(c, r, r.result, r.scheduled + [Destroy]);
      var p := NOTHING.(current := Some(Pending(Destroy)), desired := Some(ToBeDestroyed));
      SettledKeeps(c, q, p);
      KeepsThen(c, r, q, Patched(c, q, p).run);
    } else {
      CleanedKeeps(c, r);
      var q := if Cleans(c, r.payload) then CleanedUp(c, r).run else r;
      var p := NOTHING.(current := Some(DestroyComplete), desired := Some(ToBeDestroyed));
      SettledKeeps(c, q, p);
      var z := Patched(c, q, p).run;
      KeepsThen(c, r, q, z);
      SameKeeps(c, z, DeletedWithoutDestroy(c, r).run.result, z.scheduled);
      KeepsThen(c, r, z, z.(result := DeletedWithoutDestroy(c, r).run.result));
    }
  }

  /** A delete without a destroy job cleans up only then. */
  predicate Cleans(c: Context, s: Subject)
  {
    c.cfg.sandboxInUse && c.cfg.catchAll && Uuid(s) != ""
  }

  /** A delete event's own deletion frees the placement exactly when it cleans up. */
  lemma {:induction false} DeleteEventFrees(c: Context, r: Run)
    requires r.result == NO_DIRECTIVE && r.released == []
    requires DeleteHandled(c, r).run.result.delete
    ensures !DeletesWithDestroy(c, r.payload)
    ensures c.cfg.sandboxInUse && c.cfg.hasToken ==> (Freed(c, DeleteHandled(c, r).run) <==> Cleans(c, r.payload))
  {
  }

  /** Every handler, on every trigger, in every world. */
  lemma {:induction false} HandledSound(c: Context, r: Run, t: Trigger)
    requires r.result == NO_DIRECTIVE
    ensures Orderly(c, r, Handled(c, r, t))
    ensures !t.ToDelete? ==> Sound(c, r, Handled(c, r, t))
  {
    hide Orderly, ProvisionHandled, DestroyHandled, StartHandled, StopHandled, StatusHandled, UpdateHandled,
         CreateHandled, UpdateEventHandled, DeleteHandled, JobEndHandled;
    match t
    case Created => CreateHandledSound(c, r);
    case Updated => UpdateEventSound(c, r);
    case ToDelete => DeleteHandledOrderly(c, r);
    case Callback(a, outcome) => JobEndSound(c, r, a, outcome);
    case Unknown => NothingSound(c, r, true);
    case Act(a) =>
      ProvisionHandledSound(c, r);
      DestroyHandledSound(c, r);
      StartHandledSound(c, r);
      StopHandledSound(c, r);
      StatusHandledSound(c, r);
      UpdateHandledSound(c, r);
  }
}

/** The state label beside current_state: which runs may part the two. */
module StateLabel {
  import opened Json
  import opened DeepMerge
  import opened Subjects
  import opened Handlers
  import opened Lifecycle

  predicate Labelled(s: Subject)
  {
    s.stateLabel == s.current
  }

  /** A sandbox action can get as far as setting the label. */
  predicate CanAct(c: Context, s: Subject, a: Action)
  {
    c.cfg.sandboxInUse && c.cfg.sandboxAction(a) && Uuid(s) != "" && c.cfg.hasToken
  }

  /** The label may be left behind, or set alone: a delete event that moves the state, a start
      or stop that acts on the placement, or the end of a stop job, reported by a callback, of a
      subject that is not stopping. It takes the configuration, the subject and the trigger. */
  predicate MayPart(c: Context, s: Subject, t: Trigger)
  {
    match t
    case ToDelete =>
      if DeletesWithDestroy(c, s) then s.current != Pending(Destroy)
      else s.current != DestroyComplete && !(Cleans(c, s) && Guid(s) == "")
    case Act(a) =>
      || (a.Start? && s.current != Running(Start) && CanAct(c, s, Start))
      || (a.Stop? && s.current != Running(Stop) && CanAct(c, s, Stop) && c.cfg.disabled(Stop))
    case Callback(a, outcome) =>
      a.Stop? && outcome != Fail(Canceled) && s.current != Running(Stop) && CanAct(c, s, Stop)
    case _ => false
  }

  // ----- the runs that keep it

  /** Looking up or booking a placement leaves the label alone. */
  lemma {:induction false} GetLabel(c: Context, r: Run, a: Action)
    ensures SandboxGet(c, r, a, false).run.subject.stateLabel == r.subject.stateLabel
  {
    hide Extracted;
    if c.world.gets(r.gets).Found? {
      ExtractedLabel(c, r.(gets := r.gets + 1), c.world.gets(r.gets).vars, c.world.gets(r.gets).labelled);
    }
  }

  lemma ExtractedLabel(c: Context, r: Run, vars: Vars, labelled: bool)
    ensures Extracted(c, r, vars, labelled).run.subject.stateLabel == r.subject.stateLabel
  {
  }

  lemma {:induction false} BookLabel(c: Context, r: Run)
    ensures SandboxBook(c, r).run.subject.stateLabel == r.subject.stateLabel
  {
    hide SandboxGet;
    GetLabel(c, if c.world.book.created then r.(held := r.held + {Uuid(r.payload)}) else r, Provision);
  }

  /** Neither does it touch current_state. */
  lemma {:induction false} GetOrBookLabel(c: Context, r: Run, a: Action)
    requires Labelled(r.subject)
    ensures Labelled(SandboxGet(c, r, a, true).run.subject)
  {
    hide SandboxGet, SandboxBook;
    GetOrBook(c, r, a);
    GetOrBookQuiet(c, r, a);
    GetLabel(c, r, a);
    BookLabel(c, r.(gets := r.gets + 1));
  }

  /** The sandbox action's label is the state of a subject that is starting or stopping. */
  lemma {:induction false} ActedLabel(c: Context, r: Run, a: Action)
    requires Labelled(r.subject)
    requires r.subject.current == Running(a) || Uuid(r.payload) == "" || !c.cfg.hasToken
    ensures Labelled(PlacementActed(c, r, a).run.subject)
  {
  }

  lemma {:induction false} EndLabel(c: Context, r: Run, a: Action, outcome: Outcome)
    requires Labelled(r.subject)
    requires a.Stop? && outcome != Fail(Canceled) ==> r.subject.current == Running(Stop) || !CanAct(c, r.payload, Stop)
    ensures Labelled(JobEndHandled(c, r, a, outcome).run.subject)
  {
    hide EndPrelude, EndRecorded;
    PreludeLabel(c, r, a, outcome);
    RecordedLabel(c, EndPrelude(c, r, a, outcome).run, a, outcome);
  }

  lemma {:induction false} PreludeLabel(c: Context, r: Run, a: Action, outcome: Outcome)
    requires Labelled(r.subject)
    requires a.Stop? && outcome != Fail(Canceled) ==> r.subject.current == Running(Stop) || !CanAct(c, r.payload, Stop)
    ensures Labelled(EndPrelude(c, r, a, outcome).run.subject)
  {
    hide PlacementActed;
    var q := Patched(c, r, NOTHING.(job := Some(JobEntry(Stop, End(Some(Complete)))))).run;
    if a.Stop? && outcome != Fail(Canceled) && c.cfg.sandboxInUse && c.cfg.sandboxAction(Stop) {
      ActedLabel(c, r, Stop);
      ActedLabel(c, q, Stop);
    }
  }

  lemma {:induction false} RecordedLabel(c: Context, r: Run, a: Action, outcome: Outcome)
    requires Labelled(r.subject)
    ensures Labelled(EndRecorded(c, r, a, outcome).run.subject)
  {
  }

  lemma {:induction false} PolledLabel(c: Context, r: Run, a: Action)
    requires Labelled(r.subject) && (a.Stop? ==> r.subject.current == Running(Stop))
    ensures Labelled(Polled(c, r, a).run.subject)
  {
    hide JobEndHandled;
    if c.world.poll.JobEnded? {
      EndLabel(c, r, a, c.world.poll.outcome);
    }
  }

  lemma {:induction false} LaunchedLabel(c: Context, r: Run, a: Action)
    requires Labelled(r.subject)
    ensures Labelled(LaunchedJob(c, r, a, LaunchState(a), LaunchCheck(a)).run.subject)
  {
  }

  lemma {:induction false} LookedUpLaunchLabel(c: Context, r: Run, a: Action)
    requires Labelled(r.subject)
    ensures Labelled(LaunchedAndPolled(c, LookedUp(c, r, a), a).run.subject)
  {
    hide SandboxGet, LaunchedJob;
    GetOrBookLabel(c, r, a);
    LaunchedLabel(c, LookedUp(c, r, a), a);
  }

  lemma {:induction false} BegunLabel(c: Context, r: Run, a: Action)
    requires Labelled(r.subject)
    ensures Labelled(Begun(c, r, a).run.subject) && Begun(c, r, a).run.payload == r.payload
    ensures Begun(c, r, a).run.subject.current == r.subject.current
  {
  }

  lemma {:induction false} ErrorLabel(c: Context, r: Run)
    requires Labelled(r.subject)
    ensures Labelled(ProvisionError(c, r).run.subject)
  {
    hide JobEndHandled;
    EndLabel(c, r, Provision, Fail(Error));
  }

  lemma {:induction false} ProvisionLaunchedLabel(c: Context, r: Run)
    requires Labelled(r.subject)
    ensures Labelled(ProvisionLaunched(c, r).run.subject)
  {
    hide LaunchedJob, ProvisionError;
    var q := LaunchedJob(c, r, Provision, LaunchState(Provision), LaunchCheck(Provision)).run;
    LaunchedLabel(c, r, Provision);
    ErrorLabel(c, q);
  }

  lemma {:induction false} ProvisionRunLabel(c: Context, r: Run)
    requires Labelled(r.subject)
    ensures Labelled(ProvisionRun(c, r).run.subject)
  {
    hide SandboxGet, ProvisionError, ProvisionLaunched;
    var q := if Provision in r.payload.begun then r else Begun(c, r, Provision).run;
    var z := SandboxGet(c, q, Provision, true).run;
    GetOrBookLabel(c, q, Provision);
    ProvisionLaunchedLabel(c, q);
    ProvisionLaunchedLabel(c, z);
    ErrorLabel(c, z);
  }

  lemma {:induction false} QueueLabel(c: Context, r: Run)
    requires Labelled(r.subject)
    ensures Labelled(QueueChecked(c, r).run.subject)
  {
    hide ProvisionError, ProvisionRun;
    var q := r.(gets := r.gets + 1);
    ErrorLabel(c, r);
    ErrorLabel(c, q);
    var answer := c.world.gets(r.gets);
    if answer.Found? {
      var z := WithVars(q, answer.vars);
      var p := StateAndLabel(Pending(Provision)).(jobVars := if answer.vars == map[] then None else Some(z.payload.jobVars));
      ProvisionRunLabel(c, Patched(c, z, p).run);
    }
  }

  lemma {:induction false} ProvisionLabel(c: Context, r: Run)
    requires Labelled(r.subject)
    ensures Labelled(ProvisionHandled(c, r).run.subject)
  {
    hide ProvisionRun, QueueChecked, Polled;
    ProvisionRunLabel(c, r);
    QueueLabel(c, r);
    PolledLabel(c, r, Provision);
  }

  lemma {:induction false} DestroyLabel(c: Context, r: Run)
    requires Labelled(r.subject)
    ensures Labelled(DestroyHandled(c, r).run.subject)
  {
    hide Polled, LaunchedAndPolled, LookedUp, Begun;
    var q := Begun(c, r, Destroy).run;
    BegunLabel(c, r, Destroy);
    PolledLabel(c, r, Destroy);
    PolledLabel(c, q, Destroy);
    LookedUpLaunchLabel(c, r, Destroy);
    LookedUpLaunchLabel(c, q, Destroy);
  }

  lemma {:induction false} StartLabel(c: Context, r: Run)
    requires Labelled(r.subject) && r.payload.current == r.subject.current
    requires r.payload.current == Running(Start) || !CanAct(c, r.payload, Start)
    ensures Labelled(StartHandled(c, r).run.subject)
  {
    hide Polled, LaunchedAndPolled, LookedUp, Begun, PlacementActed;
    var q := Begun(c, r, Start).run;
    BegunLabel(c, r, Start);
    PolledLabel(c, r, Start);
    var sandbox := c.cfg.sandboxInUse && c.cfg.sandboxAction(Start);
    if sandbox && r.payload.current != Running(Start) { ActedLabel(c, q, Start); }
    var z := if sandbox then PlacementActed(c, q, Start).run else q;
    if r.payload.current != Running(Start) { LookedUpLaunchLabel(c, z, Start); }
  }

  lemma {:induction false} StopLabel(c: Context, r: Run)
    requires Labelled(r.subject) && r.payload.current == r.subject.current
    requires r.payload.current == Running(Stop) || !CanAct(c, r.payload, Stop) || !c.cfg.disabled(Stop)
    ensures Labelled(StopHandled(c, r).run.subject)
  {
    hide Polled, LaunchedAndPolled, LookedUp, Begun, PlacementActed;
    var q := Begun(c, r, Stop).run;
    BegunLabel(c, r, Stop);
    LookedUpLaunchLabel(c, q, Stop);
    if r.payload.current == Running(Stop) {
      PolledLabel(c, r, Stop);
    } else if c.cfg.disabled(Stop) && c.cfg.sandboxInUse && c.cfg.sandboxAction(Stop) {
      ActedLabel(c, q, Stop);
    }
  }

  lemma {:induction false} OtherActionsLabel(c: Context, r: Run)
    requires Labelled(r.subject)
    ensures Labelled(StatusHandled(c, r).run.subject) && Labelled(UpdateHandled(c, r).run.subject)
  {
    hide Polled, LaunchedAndPolled, LookedUp, Begun;
    BegunLabel(c, r, Status);
    PolledLabel(c, r, Status);
    LookedUpLaunchLabel(c, Begun(c, r, Status).run, Status);
    PolledLabel(c, r, Update);
    LookedUpLaunchLabel(c, r, Update);
  }

  lemma {:induction false} EventsLabel(c: Context, r: Run)
    requires Labelled(r.subject)
    ensures Labelled(CreateHandled(c, r).run.subject) && Labelled(UpdateEventHandled(c, r).run.subject)
  {
    hide InitialJobVars, UpdateAction, StatusDue;
  }

  lemma {:induction false} DeleteLabel(c: Context, r: Run)
    requires Labelled(r.subject) && r.payload == r.subject && !MayPart(c, r.payload, ToDelete)
    ensures Labelled(DeleteHandled(c, r).run.subject)
  {
  }

  lemma {:induction false} KeptUnlessMayPart(c: Context, s: Subject, held: set<string>, t: Trigger)
    requires Labelled(s) && !MayPart(c, s, t)
    ensures Labelled(Handled(c, Fresh(s, held), t).run.subject)
  {
    hide ProvisionHandled, DestroyHandled, StartHandled, StopHandled, StatusHandled, UpdateHandled, CreateHandled,
         UpdateEventHandled, DeleteHandled, JobEndHandled, CanAct, Cleans, DeletesWithDestroy;
    var r := Fresh(s, held);
    match t
    case Act(a) =>
      match a {
        case Provision => ProvisionLabel(c, r);
        case Destroy => DestroyLabel(c, r);
        case Start => StartLabel(c, r);
        case Stop => StopLabel(c, r);
        case _ => OtherActionsLabel(c, r);
      }
    case Callback(a, outcome) => EndLabel(c, r, a, outcome);
    case ToDelete => DeleteLabel(c, r);
    case _ => EventsLabel(c, r);
  }

  // ----- the worlds that part them

  /** All goes well but the placement action's request, the launch and one patch. */
  function PartingWorld(rejected: int): World
  {
    World((n: nat) => if n == rejected then Rejected else Applied, (n: nat) => Applied, (n: nat) => GetFailed,
          true, BookAnswer(false, false, Ready), true, true, false, "", NotLaunched, Inconclusive, "")
  }

  /** The end of a stop job is recorded last: that is the patch to reject. */
  function LastPatch(t: Trigger): int
  {
    match t
    case Callback(a, outcome) => if outcome.Complete? then 2 else 1
    case _ => -1
  }

  lemma {:induction false} StartParts(c: Context, r: Run)
    requires r.payload.current != Running(Start) && CanAct(c, r.payload, Start)
    requires c.world == PartingWorld(-1)
    ensures StartHandled(c, r).run.subject.stateLabel == Running(Start)
    ensures StartHandled(c, r).run.subject.current == r.subject.current
  {
    hide SandboxGet;
    var q := PlacementActed(c, Begun(c, r, Start).run, Start).run;
    GetOrBook(c, q, Start);
    FailedGet(c, q, Start);
  }

  lemma FailedGet(c: Context, r: Run, a: Action)
    requires c.world.gets(r.gets).GetFailed?
    ensures SandboxGet(c, r, a, false).run.subject == r.subject
  {
  }

  lemma {:induction false} StopParts(c: Context, r: Run)
    requires r.payload.current != Running(Stop) && CanAct(c, r.payload, Stop) && c.cfg.disabled(Stop)
    requires c.world == PartingWorld(-1)
    ensures StopHandled(c, r).run.subject.stateLabel == Running(Stop)
    ensures StopHandled(c, r).run.subject.current == r.subject.current
  {
  }

  lemma {:induction false} StopCallbackParts(c: Context, r: Run, outcome: Outcome)
    requires outcome != Fail(Canceled) && CanAct(c, r.payload, Stop) && r.patches == 0
    requires c.world == PartingWorld(LastPatch(Callback(Stop, outcome)))
    ensures JobEndHandled(c, r, Stop, outcome).run.subject.stateLabel == Running(Stop)
    ensures JobEndHandled(c, r, Stop, outcome).run.subject.current == r.subject.current
  {
  }

  lemma {:induction false} DeleteParts(c: Context, r: Run)
    requires MayPart(c, r.payload, ToDelete) && Labelled(r.subject) && r.payload == r.subject
    requires c.world == PartingWorld(-1)
    ensures !Labelled(DeleteHandled(c, r).run.subject)
  {
  }

  lemma {:induction false} MayPartParts(c: Context, s: Subject, held: set<string>, t: Trigger)
    requires Labelled(s) && MayPart(c, s, t) && c.world == PartingWorld(LastPatch(t))
    ensures !Labelled(Handled(c, Fresh(s, held), t).run.subject)
  {
    hide StartHandled, StopHandled, DeleteHandled, JobEndHandled, CanAct, Cleans, DeletesWithDestroy, PartingWorld;
    var r := Fresh(s, held);
    match t
    case ToDelete => DeleteParts(c, r);
    case Act(a) => if a.Start? { StartParts(c, r); } else { StopParts(c, r); }
    case Callback(a, outcome) => StopCallbackParts(c, r, outcome);
  }

  /** A run keeps the label equal to current_state, whatever the world answers, exactly when it
      is none of those. */
  lemma {:induction false} LabelKeptIff(c: Context, s: Subject, held: set<string>, t: Trigger)
    requires Labelled(s)
    ensures (forall w: World :: Labelled(Handled(c.(world := w), Fresh(s, held), t).run.subject)) <==> !MayPart(c, s, t)
  {
    hide Handled, PartingWorld, CanAct, Cleans, DeletesWithDestroy;
    if MayPart(c, s, t) {
      var w := PartingWorld(LastPatch(t));
      SameCondition(c, w, s, t);
      MayPartParts(c.(world := w), s, held, t);
    } else {
      forall w: World ensures Labelled(Handled(c.(world := w), Fresh(s, held), t).run.subject) {
        SameCondition(c, w, s, t);
        KeptUnlessMayPart(c.(world := w), s, held, t);
      }
    }
  }

  /** The condition does not look at the world. */
  lemma SameCondition(c: Context, w: World, s: Subject, t: Trigger)
    ensures MayPart(c.(world := w), s, t) == MayPart(c, s, t)
  {
  }

  /** The sandbox start is accepted and there is no controller: the label says starting, the
      subject is still where it was. */
  lemma {:induction false} StartLeavesLabelAhead(c: Context, s: Subject, held: set<string>)
    requires s.current == Pending(Start) && CanAct(c, s, Start) && c.world == PartingWorld(-1)
    ensures var q := Handled(c, Fresh(s, held), Act(Start)).run;
            q.subject.stateLabel == Running(Start) && q.subject.current == Pending(Start)
  {
    hide StartHandled, PartingWorld;
    StartParts(c, Fresh(s, held));
  }
}

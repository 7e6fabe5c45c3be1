/** What a run does, as functions on the run's state. The end of a Tower job is one table for
    all actions here; RunContext.dfy holds the handlers as they are written. */
module Handlers {
  import opened Json
  import opened DeepMerge
  import opened Subjects

  // ----- what a run is given

  /** The governor and the runner's configuration. */
  datatype Config = Config(
    sandboxInUse: bool,
    // sandbox_api_login_token is not empty
    hasToken: bool,
    catchAll: bool,
    disabled: Action -> bool,
    sandboxAction: Action -> bool,
    // the keys of governor.spec.actions, when there
    actions: Option<set<Action>>,
    cloudProvider: string,
    platform: string,
    retryIntervals: seq<string>,
    pollIntervals: seq<string>,
    queueCheck: string)

  /** An answer of Anarchy after its own retries. */
  datatype Answer = Applied | Rejected | AppliedButLost

  datatype Placement = Ready | Faulty | InQueue | Unsettled

  /** vars and labelled are what extraction takes from the placement: without credentials, and
      whether there is any label. */
  datatype GetAnswer = GetFailed | NotFound | Found(placement: Placement, vars: Vars, labelled: bool)

  /** created: a placement came into being; accepted: the status was 200 or 202. */
  datatype BookAnswer = BookAnswer(created: bool, accepted: bool, placement: Placement)

  datatype LaunchAnswer = NotLaunched | LaunchedButLost | Launched(id: int)

  /** Inconclusive: no client, no token, no status, or a status that is not a string. */
  datatype PollAnswer = Inconclusive | StillRunning | JobEnded(outcome: Outcome)

  /** What the world answers in this run: the n-th patch, schedule request and GET of a
      placement, and at most one of everything else. */
  datatype World = World(
    patches: nat -> Answer,
    schedules: nat -> Answer,
    gets: nat -> GetAnswer,
    requestValid: bool,
    book: BookAnswer,
    released: bool,
    placementAction: bool,
    requestDone: bool,
    controller: string,
    launch: LaunchAnswer,
    poll: PollAnswer,
    newUuid: string)

  /** action.spec.vars, the numbers in it. */
  type ActionVars = map<string, int>

  datatype Context = Context(cfg: Config, world: World, vars: ActionVars)

  // ----- what a run produces

  datatype Continue = Continue(after: string, vars: ActionVars)

  datatype Directives = Directives(finish: Option<Outcome>, delete: bool, cont: Option<Continue>)

  const NO_DIRECTIVE := Directives(None, false, None)

  /** payload is the snapshot handed to the run, whose job_vars the sandbox handlers also
      change; subject is what Anarchy holds; held are the uuids with a placement. */
  datatype Run = Run(
    payload: Subject,
    subject: Subject,
    held: set<string>,
    patches: nat,
    gets: nat,
    scheduled: seq<Action>,
    launched: seq<Action>,
    released: seq<string>,
    result: Directives)

  /** err: the handler returned an error or panicked. */
  datatype Out = Out(run: Run, err: bool)

  function Fresh(s: Subject, held: set<string>): Run
  {
    Run(s, s, held, 0, 0, [], [], [], NO_DIRECTIVE)
  }

  function Finished(r: Run, outcome: Outcome): Run
  {
    r.(result := r.result.(finish := Some(outcome)))
  }

  function Deleted(r: Run): Run
  {
    r.(result := r.result.(delete := true))
  }

  function Continued(r: Run, after: string, vars: ActionVars): Run
  {
    r.(result := r.result.(cont := Some(Continue(after, vars))))
  }

  // ----- calls to Anarchy

  function Patched(c: Context, r: Run, p: Patch): Out
  {
    var answer := c.world.patches(r.patches);
    Out(r.(patches := r.patches + 1, subject := if answer.Rejected? then r.subject else Apply(r.subject, p)),
        !answer.Applied?)
  }

  function Scheduled(c: Context, r: Run, a: Action): Out
  {
    Out(r.(scheduled := r.scheduled + [a]), !c.world.schedules(|r.scheduled|).Applied?)
  }

  // ----- intervals

  /** The entry at count, the last one beyond them. None is an index out of range: an empty
      list or a negative count. */
  function Interval(count: int, intervals: seq<string>): Option<string>
  {
    if count < |intervals| then (if count < 0 then None else Some(intervals[count]))
    else if |intervals| == 0 then None
    else Some(intervals[|intervals| - 1])
  }

  function Count(vars: ActionVars, k: string): int
  {
    if k in vars then vars[k] else 0
  }

  function ContinuedWithRetry(c: Context, r: Run): Out
  {
    var count := Count(c.vars, "action_retry_count");
    match Interval(count, c.cfg.retryIntervals)
    case None => Out(r, true)
    case Some(after) => Out(Continued(r, after, map["action_retry_count" := count + 1]), false)
  }

  function ContinuedWithPoll(c: Context, r: Run): Out
  {
    var count := Count(c.vars, "tower_poll_count");
    match Interval(count, c.cfg.pollIntervals)
    case None => Out(r, true)
    case Some(after) => Out(Continued(r, after, map["tower_poll_count" := count + 1]), false)
  }

  // ----- the sandbox API

  datatype Booking = Broken | InError | Invalid | Waiting | Missing | Usable

  datatype Got = Got(run: Run, booking: Booking)

  function SandboxGet(c: Context, r: Run, a: Action, allowBook: bool): Got
    decreases allowBook
  {
    if Uuid(r.payload) == "" || !c.cfg.hasToken then Got(r, Broken)
    else
      var r1 := r.(gets := r.gets + 1);
      match c.world.gets(r.gets)
      case GetFailed => Got(r1, Broken)
      case NotFound => if allowBook && a.Provision? then SandboxBook(c, r1) else Got(r1, Missing)
      case Found(placement, vars, labelled) =>
        match placement
        case Ready => Extracted(c, r1, vars, labelled)
        case Faulty => Got(r1, InError)
        case _ => Got(r1, Waiting)
  }

  /** updateSubjectSandboxVars: the variables go into the snapshot's job_vars, and from there
      into the patch. */
  function Extracted(c: Context, r: Run, vars: Vars, labelled: bool): Got
  {
    if vars == map[] && !labelled then Got(r, Usable)
    else
      var r1 := WithVars(r, vars);
      var o := Patched(c, r1, NOTHING.(jobVars := if vars == map[] then None else Some(r1.payload.jobVars)));
      Got(o.run, if o.err then Broken else Usable)
  }

  function WithVars(r: Run, vars: Vars): Run
  {
    if vars == map[] then r else r.(payload := r.payload.(jobVars := Merge(r.payload.jobVars, vars)))
  }

  function SandboxBook(c: Context, r: Run): Got
    decreases true, 0
  {
    if !c.world.requestValid then Got(Finished(r, Fail(Failed)), Invalid)
    else
      var r1 := if c.world.book.created then r.(held := r.held + {Uuid(r.payload)}) else r;
      if !c.world.book.accepted then Got(r1, Broken)
      else
        match c.world.book.placement
        case Ready => Got(r1, Usable)
        case InQueue => Got(r1, Waiting)
        case _ => SandboxGet(c, r1, Provision, false)
  }

  /** sandboxCleanup. */
  function CleanedUp(c: Context, r: Run): Out
  {
    if Uuid(r.payload) == "" || Guid(r.payload) == "" then Out(r, true)
    else if !c.cfg.hasToken then Out(r, false)
    else if !c.world.released then Out(r, true)
    else Out(r.(released := r.released + [Uuid(r.payload)], held := r.held - {Uuid(r.payload)}), false)
  }

  /** sandboxStart and sandboxStop; they set the label, not current_state. */
  function PlacementActed(c: Context, r: Run, a: Action): Out
  {
    if Uuid(r.payload) == "" || !c.cfg.hasToken || !c.world.placementAction then Out(r, true)
    else
      var o := Patched(c, r, NOTHING.(stateLabel := Some(Running(a))));
      Out(o.run, o.err || !c.world.requestDone)
  }

  // ----- Tower

  function LaunchPatch(a: Action, newState: Option<State>, check: Option<Check>, id: int, host: string): Patch
  {
    NOTHING.(job := Some(JobEntry(a, Launch(id, host))), current := newState, stateLabel := newState, check := check)
  }

  /** launchTowerJob: the state and the job record in one patch. */
  function LaunchedJob(c: Context, r: Run, a: Action, newState: Option<State>, check: Option<Check>): Out
  {
    if c.world.controller == "" then Out(r, true)
    else
      match c.world.launch
      case NotLaunched => Out(r, true)
      case LaunchedButLost => Out(r.(launched := r.launched + [a]), true)
      case Launched(id) =>
        Patched(c, r.(launched := r.launched + [a]), LaunchPatch(a, newState, check, id, c.world.controller))
  }

  /** What a launch sets: a status check has a state of its own. */
  function LaunchState(a: Action): Option<State>
  {
    if a.Status? then None else Some(Running(a))
  }

  function LaunchCheck(a: Action): Option<Check>
  {
    if a.Status? then Some(CheckRunning) else None
  }

  /** A launch that succeeds is polled for after the first interval. */
  function LaunchedAndPolled(c: Context, r: Run, a: Action): Out
  {
    var o := LaunchedJob(c, r, a, LaunchState(a), LaunchCheck(a));
    if o.err || |c.cfg.pollIntervals| == 0 then Out(o.run, true)
    else Out(Continued(o.run, c.cfg.pollIntervals[0], map[]), false)
  }

  // ----- how a job ends: one table for callbacks and polls of every action

  function EndState(a: Action, outcome: Outcome): State
  {
    match outcome
    case Fail(f) => Ended(a, f)
    case Complete => if a.Destroy? then DestroyComplete else if a.Stop? then Stopped else Started
  }

  function Forensics(vars: Vars): Vars
  {
    vars["agnosticd_collect_forensics" := Bool(true)]
  }

  /** The patch that records the end; error and failed provisions leave jobStatus alone. */
  function EndPatch(a: Action, outcome: Outcome, jobVars: Vars): Patch
  {
    var status := if a.Provision? && (outcome == Fail(Error) || outcome == Fail(Failed)) then None else Some(outcome);
    var p := NOTHING.(job := Some(JobEntry(a, End(status))));
    if a.Status? then p.(check := Some(CheckEnded(outcome)))
    else
      p.(current := Some(EndState(a, outcome)),
         stateLabel := Some(EndState(a, outcome)),
         healthy := if outcome.Complete? then (if a.Provision? then Some(true) else None)
                    else if a.Destroy? && outcome == Fail(Canceled) then None
                    else Some(false),
         jobVars := if outcome == Fail(Failed) && (a.Provision? || a.Start? || a.Stop?) then Some(Forensics(jobVars))
                    else None)
  }

  function Retried(c: Context, r: Run, f: Failure): Out
  {
    if f.Canceled? then Out(Continued(r, "1m", map[]), false) else ContinuedWithRetry(c, r)
  }

  /** What follows the record: the directive, or a request for the opposite action. */
  function EndDirective(c: Context, r: Run, a: Action, outcome: Outcome): Out
  {
    match outcome
    case Complete => Out(Finished(if a.Destroy? then Deleted(r) else r, Complete), false)
    case Fail(f) =>
      var wanted, other := if a.Start? then ToBeStarted else ToBeStopped, if a.Start? then ToBeStopped else ToBeStarted;
      match a
      case Provision => Out(Finished(r, outcome), false)
      case Destroy => Retried(c, r, f)
      case Status => Out(Finished(r, if f.Canceled? then Fail(Failed) else outcome), false)
      case Update =>
        if r.payload.deleting then Out(Finished(r, outcome), false)
        else if f.Canceled? then Out(Continued(r, "1m", map[]), false)
        else
          (match Interval(Count(c.vars, "action_retry_count"), c.cfg.retryIntervals)
           case None => Out(r, true)
           case Some(after) => Out(Continued(r, after, map[]), false))
      case _ =>
        if r.payload.deleting then Out(Finished(r, outcome), false)
        else if r.payload.desired == wanted then Retried(c, r, f)
        else if r.payload.desired == other then Scheduled(c, r, if a.Start? then Stop else Start)
        else Out(Finished(r, outcome), false)
  }

  /** The sandbox is stopped after a stop job, unless it was canceled, and errors of that are ignored. */
  function SandboxStoppedToo(c: Context, r: Run): Run
  {
    if c.cfg.sandboxInUse && c.cfg.sandboxAction(Stop) then PlacementActed(c, r, Stop).run else r
  }

  /** What is done before the final record of the end. */
  function EndPrelude(c: Context, r: Run, a: Action, outcome: Outcome): Out
  {
    if a.Destroy? && outcome.Complete? && c.cfg.sandboxInUse then CleanedUp(c, r)
    else if a.Stop? && outcome.Complete? then
      var o := Patched(c, r, NOTHING.(job := Some(JobEntry(Stop, End(Some(Complete))))));
      if o.err then o else Out(SandboxStoppedToo(c, o.run), false)
    else if a.Stop? && outcome != Fail(Canceled) then Out(SandboxStoppedToo(c, r), false)
    else Out(r, false)
  }

  /** A stop that completes has recorded its job already. */
  function FinalPatch(a: Action, outcome: Outcome, jobVars: Vars): Patch
  {
    if a.Stop? && outcome.Complete? then EndPatch(a, outcome, jobVars).(job := None)
    else EndPatch(a, outcome, jobVars)
  }

  function EndRecorded(c: Context, r: Run, a: Action, outcome: Outcome): Out
  {
    var o := Patched(c, r, FinalPatch(a, outcome, r.payload.jobVars));
    if o.err then o else EndDirective(c, o.run, a, outcome)
  }

  function JobEndHandled(c: Context, r: Run, a: Action, outcome: Outcome): Out
  {
    var before := EndPrelude(c, r, a, outcome);
    if before.err then before else EndRecorded(c, before.run, a, outcome)
  }

  function ProvisionError(c: Context, r: Run): Out
  {
    JobEndHandled(c, r, Provision, Fail(Error))
  }

  /** The record that a poll can be made with. */
  predicate JobRecorded(s: Subject, a: Action)
  {
    a in s.jobs && s.jobs[a].id.Some? && s.jobs[a].host != ""
  }

  /** checkDeployerJob. */
  function Polled(c: Context, r: Run, a: Action): Out
  {
    if !JobRecorded(r.payload, a) then Out(Continued(r, "5m", map[]), false)
    else
      match c.world.poll
      case Inconclusive => Out(Continued(r, "5m", map[]), false)
      case StillRunning => ContinuedWithPoll(c, r)
      case JobEnded(outcome) => JobEndHandled(c, r, a, outcome)
  }

  // ----- provision

  function StateAndLabel(s: State): Patch
  {
    NOTHING.(current := Some(s), stateLabel := Some(s))
  }

  function Begun(c: Context, r: Run, a: Action): Out
  {
    Patched(c, r, NOTHING.(begun := Some(a)))
  }

  function ToQueued(c: Context, r: Run): Out
  {
    var o := Patched(c, r, StateAndLabel(Queued));
    if o.err then o else Out(Continued(o.run, c.cfg.queueCheck, map[]), false)
  }

  /** Complete without a deployer: nothing is recorded under towerJobs. */
  function CompletedWithoutJob(c: Context, r: Run, p: Patch): Out
  {
    var o := Patched(c, r, p);
    if o.err then o else Out(Finished(o.run, Complete), false)
  }

  function ProvisionLaunched(c: Context, r: Run): Out
  {
    if !c.cfg.disabled(Provision) then
      var o := LaunchedJob(c, r, Provision, LaunchState(Provision), LaunchCheck(Provision));
      if o.err then ProvisionError(c, o.run)
      else if |c.cfg.pollIntervals| == 0 then Out(o.run, true)
      else Out(Continued(o.run, c.cfg.pollIntervals[0], map[]), false)
    else if c.cfg.sandboxInUse then
      CompletedWithoutJob(c, r, StateAndLabel(Started).(healthy := Some(true)))
    else Out(r, false)
  }

  function ProvisionRun(c: Context, r: Run): Out
  {
    var begun := if Provision in r.payload.begun then Out(r, false) else Begun(c, r, Provision);
    if begun.err then begun
    else if c.cfg.sandboxInUse then ProvisionBooked(c, begun.run)
    else ProvisionLaunched(c, begun.run)
  }

  /** With the sandbox API: a placement first. A missing one is no obstacle. */
  function ProvisionBooked(c: Context, r: Run): Out
  {
    var got := SandboxGet(c, r, Provision, true);
    match got.booking
    case Broken => ProvisionError(c, got.run)
    case InError => ProvisionError(c, got.run)
    case Invalid => Out(got.run, false)
    case Waiting => ToQueued(c, got.run)
    case Missing => ProvisionLaunched(c, got.run)
    case Usable => ProvisionLaunched(c, got.run)
  }

  function QueueChecked(c: Context, r: Run): Out
  {
    if Uuid(r.payload) == "" || !c.cfg.hasToken then ProvisionError(c, r)
    else PlacementRouted(c, r.(gets := r.gets + 1), c.world.gets(r.gets))
  }

  function PlacementRouted(c: Context, r: Run, answer: GetAnswer): Out
  {
    if !answer.Found? || answer.placement.Faulty? then ProvisionError(c, r)
    else if answer.placement.InQueue? then StillQueued(c, r)
    else Dequeued(c, r, answer.vars)
  }

  function StillQueued(c: Context, r: Run): Out
  {
    var o := Patched(c, r, NOTHING);
    if o.err then o else Out(Continued(o.run, c.cfg.queueCheck, map[]), false)
  }

  function Dequeued(c: Context, r: Run, vars: Vars): Out
  {
    var r1 := WithVars(r, vars);
    var p := StateAndLabel(Pending(Provision)).(jobVars := if vars == map[] then None else Some(r1.payload.jobVars));
    var o := Patched(c, r1, p);
    if o.err then o else ProvisionRun(c, o.run)
  }

  function ProvisionHandled(c: Context, r: Run): Out
  {
    match r.payload.current
    case Pending(a) => if a.Provision? then ProvisionRun(c, r) else Out(r, false)
    case Queued => QueueChecked(c, r)
    case Running(a) => if a.Provision? && !c.cfg.disabled(Provision) then Polled(c, r, Provision) else Out(r, false)
    case _ => Out(r, false)
  }

  // ----- destroy

  /** The placement is looked up for its variables; what comes back does not matter here. */
  function LookedUp(c: Context, r: Run, a: Action): Run
  {
    if c.cfg.sandboxInUse then SandboxGet(c, r, a, true).run else r
  }

  function CaughtAll(c: Context, r: Run): Out
  {
    var o := CleanedUp(c, r);
    if o.err then o else Out(Finished(Deleted(o.run), Complete), false)
  }

  function DestroyHandled(c: Context, r: Run): Out
  {
    var current := r.payload.current;
    var begun := if Destroy !in r.payload.begun && current == Pending(Destroy) then Begun(c, r, Destroy) else Out(r, false);
    if begun.err then begun
    else if c.cfg.sandboxInUse && c.cfg.catchAll && ((current.Ended? && current.action.Destroy?) || c.cfg.disabled(Destroy)) then
      CaughtAll(c, begun.run)
    else if c.cfg.disabled(Destroy) then Out(begun.run, false)
    else if current == Running(Destroy) then Polled(c, begun.run, Destroy)
    else LaunchedAndPolled(c, LookedUp(c, begun.run, Destroy), Destroy)
  }

  // ----- start, stop, status, update

  function StartHandled(c: Context, r: Run): Out
  {
    if r.payload.current == Running(Start) then
      (if c.cfg.disabled(Start) then Out(r, false) else Polled(c, r, Start))
    else StartRun(c, r)
  }

  function StartRun(c: Context, r: Run): Out
  {
    var begun := Begun(c, r, Start);
    if begun.err then begun
    else
      var sandbox := c.cfg.sandboxInUse && c.cfg.sandboxAction(Start);
      var acted := if sandbox then PlacementActed(c, begun.run, Start) else Out(begun.run, false);
      if !c.cfg.disabled(Start) then LaunchedAndPolled(c, LookedUp(c, acted.run, Start), Start)
      else if !sandbox then Out(acted.run, false)
      else if acted.err then Out(Finished(acted.run, Fail(Error)), false)
      else CompletedWithoutJob(c, acted.run, StateAndLabel(Started))
  }

  function StopHandled(c: Context, r: Run): Out
  {
    if r.payload.current == Running(Stop) then
      (if c.cfg.disabled(Stop) then Out(r, false) else Polled(c, r, Stop))
    else StopRun(c, r)
  }

  function StopRun(c: Context, r: Run): Out
  {
    var begun := Begun(c, r, Stop);
    if begun.err then begun
    else if !c.cfg.disabled(Stop) then LaunchedAndPolled(c, LookedUp(c, begun.run, Stop), Stop)
    else if !(c.cfg.sandboxInUse && c.cfg.sandboxAction(Stop)) then Out(begun.run, false)
    else
      var acted := PlacementActed(c, begun.run, Stop);
      if acted.err then Out(Finished(acted.run, Fail(Error)), false)
      else CompletedWithoutJob(c, acted.run, StateAndLabel(Stopped))
  }

  const CHECKED := NOTHING.(check := Some(CheckEnded(Complete)))

  function StatusHandled(c: Context, r: Run): Out
  {
    match r.payload.check
    case CheckRunning => if c.cfg.disabled(Status) then CompletedWithoutJob(c, r, CHECKED) else Polled(c, r, Status)
    case CheckPending => StatusRun(c, r)
    case _ => Out(r, false)
  }

  function StatusRun(c: Context, r: Run): Out
  {
    var begun := Begun(c, r, Status);
    if begun.err then begun
    else if c.cfg.disabled(Status) then CompletedWithoutJob(c, begun.run, CHECKED)
    else LaunchedAndPolled(c, LookedUp(c, begun.run, Status), Status)
  }

  function UpdateHandled(c: Context, r: Run): Out
  {
    if r.payload.current == Running(Update) then Polled(c, r, Update)
    else LaunchedAndPolled(c, LookedUp(c, r, Update), Update)
  }

  // ----- events

  function InitialJobVars(c: Context, sjv: Vars): Vars
  {
    var uuid := if StringAt(sjv, "uuid") != "" then StringAt(sjv, "uuid") else c.world.newUuid;
    var vars := map["cloud_provider" := Str(c.cfg.cloudProvider), "platform" := Str(c.cfg.platform), "uuid" := Str(uuid)];
    if "guid" in sjv && sjv["guid"].Str? then vars else vars["guid" := Str(uuid)]
  }

  function CreateHandled(c: Context, r: Run): Out
  {
    var o := if r.payload.current.Empty? then Patched(c, r, CreatePatch(c, r.payload.jobVars)) else Out(r, false);
    if o.err then o else Scheduled(c, o.run, Provision)
  }

  function CreatePatch(c: Context, sjv: Vars): Patch
  {
    StateAndLabel(Pending(Provision)).(jobVars := Some(InitialJobVars(c, sjv)))
  }

  /** determineUpdateAction. */
  function UpdateAction(s: Subject): Option<Action>
  {
    if s.previousJobVars.Some? && s.previousJobVars.value != s.jobVars then Some(Update)
    else if s.desired == ToBeStarted && s.current == Stopped then Some(Start)
    else if s.desired == ToBeStopped && s.current == Started then Some(Stop)
    else None
  }

  /** shouldScheduleStatus. */
  predicate StatusDue(s: Subject)
  {
    || (s.check == CheckPending && s.checkRequest == "")
    || (s.checkRequest != "" && s.checkRequest != s.previousCheckRequest
        && (s.check == Unchecked || s.check == CheckEnded(Complete)))
  }

  predicate Offered(c: Context, a: Action)
  {
    c.cfg.actions.Some? && a in c.cfg.actions.value
  }

  function PatchedAndScheduled(c: Context, r: Run, p: Patch, a: Action): Out
  {
    var o := Patched(c, r, p);
    if o.err then o else Scheduled(c, o.run, a)
  }

  function UpdateEventHandled(c: Context, r: Run): Out
  {
    var action := UpdateAction(r.payload);
    var o := if action.Some? && Offered(c, action.value)
             then PatchedAndScheduled(c, r, StateAndLabel(Pending(action.value)), action.value)
             else Out(r, false);
    if o.err then o
    else if Offered(c, Status) && StatusDue(r.payload)
    then PatchedAndScheduled(c, o.run, NOTHING.(check := Some(CheckPending)), Status)
    else o
  }

  /** Whether a delete event goes through a destroy job. */
  predicate DeletesWithDestroy(c: Context, s: Subject)
  {
    Provision in s.jobs && s.jobs[Provision].id.Some? && Offered(c, Destroy) && !c.cfg.disabled(Destroy)
  }

  function DeleteHandled(c: Context, r: Run): Out
  {
    if DeletesWithDestroy(c, r.payload) then
      var o := Scheduled(c, r, Destroy);
      if o.err then o
      else Patched(c, o.run, NOTHING.(current := Some(Pending(Destroy)), desired := Some(ToBeDestroyed)))
    else DeletedWithoutDestroy(c, r)
  }

  function DeletedWithoutDestroy(c: Context, r: Run): Out
  {
    var cleaned := if c.cfg.sandboxInUse && c.cfg.catchAll && Uuid(r.payload) != "" then CleanedUp(c, r) else Out(r, false);
    if cleaned.err then cleaned
    else
      var o := Patched(c, cleaned.run, NOTHING.(current := Some(DestroyComplete), desired := Some(ToBeDestroyed)));
      if o.err then o else Out(Finished(Deleted(o.run), Complete), false)
  }

  // ----- dispatch

  /** Unknown: a handler type or name that is not registered. */
  datatype Trigger =
    | Created
    | Updated
    | ToDelete
    | Act(action: Action)
    | Callback(action: Action, outcome: Outcome)
    | Unknown

  function Handled(c: Context, r: Run, t: Trigger): Out
  {
    match t
    case Created => CreateHandled(c, r)
    case Updated => UpdateEventHandled(c, r)
    case ToDelete => DeleteHandled(c, r)
    case Callback(a, outcome) => JobEndHandled(c, r, a, outcome)
    case Unknown => Out(r, true)
    case Act(a) =>
      match a
      case Provision => ProvisionHandled(c, r)
      case Destroy => DestroyHandled(c, r)
      case Start => StartHandled(c, r)
      case Stop => StopHandled(c, r)
      case Status => StatusHandled(c, r)
      case Update => UpdateHandled(c, r)
  }
}

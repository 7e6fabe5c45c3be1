/** The subject as Anarchy stores it, and the patches that handlers send. */
module Subjects {
  import opened Json
  import opened DeepMerge

  datatype Action = Provision | Destroy | Start | Stop | Status | Update

  datatype Failure = Canceled | Error | Failed

  /** How a Tower job or an action ends. */
  datatype Outcome = Complete | Fail(failure: Failure)

  /** current_state, and the state label. Pending(Start) is start-pending, Running(Start) is
      starting, Ended(Start, Failed) is start-failed, and so on; Empty is the empty string. */
  datatype State =
    | Empty
    | Pending(action: Action)
    | Queued
    | Running(action: Action)
    | Started
    | Stopped
    | Ended(action: Action, failure: Failure)
    | DestroyComplete

  datatype Desired = Undesired | ToBeStarted | ToBeStopped | ToBeDestroyed

  /** check_status_state; CheckEnded(Complete) is "successful". */
  datatype Check = Unchecked | CheckPending | CheckRunning | CheckEnded(outcome: Outcome)

  /** An entry of status.towerJobs: deployerJob when it is a number, towerHost, whether
      completeTimestamp is set, and jobStatus. */
  datatype Job = Job(id: Option<int>, host: string, complete: bool, status: Option<Outcome>)

  datatype Subject = Subject(
    current: State,
    stateLabel: State,
    desired: Desired,
    check: Check,
    healthy: Option<bool>,
    jobVars: Vars,
    jobs: map<Action, Job>,
    // the actions whose startTimestamp is recorded
    begun: set<Action>,
    // status.previousState.job_vars, when there
    previousJobVars: Option<Vars>,
    checkRequest: string,
    previousCheckRequest: string,
    // the deletionTimestamp is set
    deleting: bool)

  function Uuid(s: Subject): string
  {
    StringAt(s.jobVars, "uuid")
  }

  function Guid(s: Subject): string
  {
    StringAt(s.jobVars, "guid")
  }

  // ----- patches

  /** What a patch writes under status.towerJobs for one action. */
  datatype JobChange = Launch(id: int, host: string) | End(status: Option<Outcome>)

  datatype JobEntry = JobEntry(action: Action, change: JobChange)

  /** A patch, by the modelled fields it sets. */
  datatype Patch = Patch(
    current: Option<State>,
    stateLabel: Option<State>,
    desired: Option<Desired>,
    check: Option<Check>,
    healthy: Option<bool>,
    jobVars: Option<Vars>,
    job: Option<JobEntry>,
    begun: Option<Action>)

  const NOTHING := Patch(None, None, None, None, None, None, None, None)

  function Or<T>(change: Option<T>, current: T): T
  {
    if change.Some? then change.value else current
  }

  function Changed(before: Option<Job>, change: JobChange): Job
  {
    match change
    case Launch(id, host) => Job(Some(id), host, false, if before.Some? then before.value.status else None)
    case End(status) =>
      if before.Some? then before.value.(complete := true, status := if status.Some? then status else before.value.status)
      else Job(None, "", true, status)
  }

  function JobOf(s: Subject, a: Action): Option<Job>
  {
    if a in s.jobs then Some(s.jobs[a]) else None
  }

  /** Anarchy applies a patch as a whole, merging maps. */
  function Apply(s: Subject, p: Patch): Subject
  {
    s.(current := Or(p.current, s.current),
       stateLabel := Or(p.stateLabel, s.stateLabel),
       desired := Or(p.desired, s.desired),
       check := Or(p.check, s.check),
       healthy := if p.healthy.Some? then p.healthy else s.healthy,
       jobVars := if p.jobVars.Some? then Merge(s.jobVars, p.jobVars.value) else s.jobVars,
       jobs := if p.job.Some? then s.jobs[p.job.value.action := Changed(JobOf(s, p.job.value.action), p.job.value.change)]
               else s.jobs,
       begun := if p.begun.Some? then s.begun + {p.begun.value} else s.begun)
  }

  /** Sending a patch again changes nothing. */
  lemma ApplyIdempotent(s: Subject, p: Patch)
    ensures Apply(Apply(s, p), p) == Apply(s, p)
  {
    if p.jobVars.Some? {
      MergeIdempotent(s.jobVars, p.jobVars.value);
    }
  }
}

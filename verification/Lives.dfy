/** Whole lives of a subject: any sequence of runs, each on a fresh snapshot and in a world of
    its own, with edits by others in between. */
module Lives {
  import opened Json
  import opened Subjects
  import opened Handlers
  import opened Lifecycle
  import opened Launches

  datatype Event = RunOf(c: Context, t: Trigger) | EditedTo(subject: Subject)

  /** The subject, the uuids with a placement, the provision jobs launched so far, and the runs
      that launched one without a trace. */
  datatype Life = Life(subject: Subject, held: set<string>, provisionJobs: nat, lostRuns: nat)

  function RunAt(l: Life, c: Context, t: Trigger): Out
  {
    Handled(c, Fresh(l.subject, l.held), t)
  }

  ghost function After(l: Life, e: Event): Life
  {
    match e
    case EditedTo(s) => l.(subject := s)
    case RunOf(c, t) =>
      var q := RunAt(l, c, t).run;
      Life(q.subject, q.held,
           l.provisionJobs + (if q.launched == [Provision] then 1 else 0),
           l.lostRuns + (if q.launched == [Provision] && Unrecorded(c, q) then 1 else 0))
  }

  ghost function Play(l: Life, events: seq<Event>): Life
  {
    if events == [] then l else After(Play(l, events[..|events| - 1]), events[|events| - 1])
  }

  /** Others write neither current_state nor towerJobs, and never set a status check running. */
  predicate Allowed(before: Subject, after: Subject)
  {
    && after.current == before.current && after.jobs == before.jobs
    && (after.check == before.check || !after.check.CheckRunning?)
  }

  ghost predicate Legal(l: Life, events: seq<Event>)
  {
    forall i :: 0 <= i < |events| && events[i].EditedTo? ==> Allowed(Play(l, events[..i]).subject, events[i].subject)
  }

  /** A subject before its create event. */
  predicate Newborn(l: Life)
  {
    l.subject.current.Empty? && !l.subject.check.CheckRunning? && l.held == {} && l.provisionJobs == 0 && l.lostRuns == 0
  }

  // ----- records and launches

  ghost predicate LifeOk(l: Life)
  {
    && RecordsOk(l.subject)
    && l.provisionJobs <= l.lostRuns + (if Early(l.subject.current) then 0 else 1)
  }

  lemma {:induction false} AfterOk(l: Life, e: Event)
    requires LifeOk(l) && (e.EditedTo? ==> Allowed(l.subject, e.subject))
    ensures LifeOk(After(l, e))
    ensures !Early(l.subject.current) ==> !Early(After(l, e).subject.current) && After(l, e).provisionJobs == l.provisionJobs
  {
    hide Handled, Unrecorded;
    if e.RunOf? {
      HandledSound(e.c, Fresh(l.subject, l.held), e.t);
      LaunchesOfRun(e.c, l.subject, l.held, e.t);
    }
  }

  lemma {:induction false} PlayOk(l: Life, events: seq<Event>)
    requires LifeOk(l) && Legal(l, events)
    ensures LifeOk(Play(l, events))
    ensures !Early(l.subject.current) ==>
              !Early(Play(l, events).subject.current) && Play(l, events).provisionJobs == l.provisionJobs
    decreases |events|
  {
    if events != [] {
      var last := |events| - 1;
      var front := events[..last];
      assert forall i :: 0 <= i < last ==> front[..i] == events[..i];
      PlayOk(l, front);
      AfterOk(Play(l, front), events[last]);
    }
  }

  /** In every reachable state a running action, or a running status check, has the record its
      job is polled with: the three fallbacks of checkDeployerJob are never taken. */
  lemma {:induction false} RunningJobsAreRecorded(l: Life, events: seq<Event>)
    requires Newborn(l) && Legal(l, events)
    ensures var s := Play(l, events).subject;
            && (s.current.Running? ==> JobRecorded(s, s.current.action))
            && (s.check.CheckRunning? ==> JobRecorded(s, Status))
  {
    PlayOk(l, events);
  }

  /** Provision jobs: one, plus one for every run that launched one and got neither the record
      nor the error onto the subject. */
  lemma {:induction false} ProvisionJobsBounded(l: Life, events: seq<Event>)
    requires Newborn(l) && Legal(l, events)
    ensures Play(l, events).provisionJobs <= 1 + Play(l, events).lostRuns
  {
    PlayOk(l, events);
  }

  lemma {:induction false} PlayAppend(l: Life, first: seq<Event>, more: seq<Event>)
    ensures Play(l, first + more) == Play(Play(l, first), more)
    decreases |more|
  {
    hide After;
    if more == [] {
      assert first + more == first;
    } else {
      var last := |more| - 1;
      assert (first + more)[..|first| + last] == first + more[..last];
      PlayAppend(l, first, more[..last]);
    }
  }

  /** Once the subject has left the states in front of the provision job it never comes back,
      and no further provision job is launched, whatever follows. */
  lemma {:induction false} EarlyIsNeverReentered(l: Life, first: seq<Event>, more: seq<Event>)
    requires Newborn(l) && Legal(l, first + more)
    requires !Early(Play(l, first).subject.current)
    ensures !Early(Play(l, first + more).subject.current)
    ensures Play(l, first + more).provisionJobs == Play(l, first).provisionJobs
  {
    PlayAppend(l, first, more);
    forall i | 0 <= i < |first| ensures (first + more)[..i] == first[..i] && (first + more)[i] == first[i] {}
    PlayOk(l, first);
    forall i | 0 <= i < |more| && more[i].EditedTo?
      ensures Allowed(Play(Play(l, first), more[..i]).subject, more[i].subject)
    {
      assert (first + more)[|first| + i] == more[i] && (first + more)[..|first| + i] == first + more[..i];
      PlayAppend(l, first, more[..i]);
    }
    PlayOk(Play(l, first), more);
  }

  // ----- placements

  /** The worlds and edits under which the uuid of a subject stays what it is. */
  ghost predicate StableUuid(l: Life, events: seq<Event>)
  {
    forall i :: 0 <= i < |events| ==>
      match events[i]
      case RunOf(c, t) => StableVars(c)
      case EditedTo(s) => Uuid(s) == Uuid(Play(l, events[..i]).subject)
  }

  /** Whatever is held is held under the subject's uuid. */
  predicate OwnOnly(l: Life)
  {
    forall u :: u in l.held ==> u == Uuid(l.subject) && u != ""
  }

  lemma {:induction false} AfterOwn(l: Life, e: Event)
    requires OwnOnly(l)
    requires if e.RunOf? then StableVars(e.c) else Uuid(e.subject) == Uuid(l.subject)
    ensures OwnOnly(After(l, e))
  {
    hide Handled, Unrecorded;
    if e.RunOf? {
      HandledSound(e.c, Fresh(l.subject, l.held), e.t);
    }
  }

  lemma {:induction false} PlayOwn(l: Life, events: seq<Event>)
    requires OwnOnly(l) && StableUuid(l, events)
    ensures OwnOnly(Play(l, events))
    decreases |events|
  {
    if events != [] {
      var last := |events| - 1;
      var front := events[..last];
      assert forall i :: 0 <= i < last ==> front[..i] == events[..i] && front[i] == events[i];
      PlayOwn(l, front);
      AfterOwn(Play(l, front), events[last]);
    }
  }

  /** The runs that may delete a subject without a release: a delete event that goes through no
      destroy job and finds catch_all off or no uuid. */
  predicate DeletesUnreleased(c: Context, s: Subject, t: Trigger)
  {
    t.ToDelete? && !Cleans(c, s) && !DeletesWithDestroy(c, s)
  }

  /** A run that sets the delete directive, with the sandbox API in use and a token, has had a
      release accepted in that same run and leaves nothing held under its uuid; with one exception,
      and then exactly. */
  lemma {:induction false} DeleteMeansReleased(c: Context, s: Subject, held: set<string>, t: Trigger)
    ensures var q := Handled(c, Fresh(s, held), t).run;
            c.cfg.sandboxInUse && c.cfg.hasToken && q.result.delete ==> (Freed(c, q) <==> !DeletesUnreleased(c, s, t))
  {
    hide Orderly, DeleteHandled, DestroyHandled, StartHandled, StopHandled, StatusHandled, UpdateHandled,
         ProvisionHandled, JobEndHandled, CreateHandled, UpdateEventHandled;
    HandledSound(c, Fresh(s, held), t);
    if t.ToDelete? && DeleteHandled(c, Fresh(s, held)).run.result.delete {
      DeleteEventFrees(c, Fresh(s, held));
    }
  }

  /** What is held behind a run that deletes, exactly: all but the placement under the subject's
      uuid when it was released, and everything otherwise. */
  lemma {:induction false} DeletedHeld(c: Context, s: Subject, held: set<string>, t: Trigger)
    requires Handled(c, Fresh(s, held), t).run.result.delete
    ensures Handled(c, Fresh(s, held), t).run.held ==
            if c.cfg.sandboxInUse && c.cfg.hasToken && !DeletesUnreleased(c, s, t) then held - {Uuid(s)} else held
  {
    hide DeleteHandled, DestroyHandled, StartHandled, StopHandled, StatusHandled, UpdateHandled, ProvisionHandled,
         JobEndHandled, CreateHandled, UpdateEventHandled;
    var r := Fresh(s, held);
    DeletersOnly(c, s, held, t);
    if t.ToDelete? {
      DeleteEventHeld(c, r);
      DeletesDirectly(c, r);
    } else if t.Act? {
      DestroyHeld(c, r);
    } else {
      CompletedDestroyHeld(c, r);
    }
  }

  lemma DeletesDirectly(c: Context, r: Run)
    requires !r.result.delete && DeleteHandled(c, r).run.result.delete
    ensures !DeletesWithDestroy(c, r.payload)
  {
  }

  /** Whether a deleted subject still holds a placement, in any life: exactly when one is held
      under another uuid than the subject's own, or nothing was released. */
  lemma {:induction false} DeletedHoldsNothingIff(l: Life, c: Context, t: Trigger)
    requires RunAt(l, c, t).run.result.delete
    ensures After(l, RunOf(c, t)).held == {} <==>
            if c.cfg.sandboxInUse && c.cfg.hasToken && !DeletesUnreleased(c, l.subject, t)
            then l.held <= {Uuid(l.subject)} else l.held == {}
  {
    hide Handled, Unrecorded;
    DeletedHeld(c, l.subject, l.held, t);
  }

  /** So no deleted subject holds a placement in a life in which nobody changes the uuid. */
  lemma {:induction false} DeletedHoldsNothing(l: Life, events: seq<Event>, c: Context, t: Trigger)
    requires Newborn(l) && StableUuid(l, events)
    requires c.cfg.sandboxInUse && c.cfg.hasToken
    requires RunAt(Play(l, events), c, t).run.result.delete
    requires !DeletesUnreleased(c, Play(l, events).subject, t)
    ensures After(Play(l, events), RunOf(c, t)).held == {}
  {
    hide Handled, Unrecorded;
    PlayOwn(l, events);
    DeletedHoldsNothingIff(Play(l, events), c, t);
  }

  // ----- directives

  /** What is posted: failed on an error or a panic. */
  datatype Posted = Posted(failed: bool, directives: Directives)

  function PostedBy(o: Out): Posted
  {
    Posted(o.err, o.run.result)
  }

  /** No run both finishes and continues, a delete is a successful finish of a run that did not
      fail, and a failed run carries no directive. */
  lemma {:induction false} DirectivesOfRun(c: Context, s: Subject, held: set<string>, t: Trigger)
    ensures var p := PostedBy(Handled(c, Fresh(s, held), t));
            && !(p.directives.finish.Some? && p.directives.cont.Some?)
            && (p.directives.delete ==> p.directives.finish == Some(Complete) && p.directives.cont.None? && !p.failed)
            && (p.failed ==> p.directives == NO_DIRECTIVE)
  {
    hide Handled;
    HandledSound(c, Fresh(s, held), t);
  }
}

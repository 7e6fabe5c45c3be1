/** Where the natural statement is false, and what holds instead. */
module Traps {
  import opened Json
  import opened DeepMerge
  import opened Subjects
  import opened Handlers
  import opened Lifecycle
  import opened Lives

  // ----- an update event that fails between its patch and its request

  /** The update event finds an action to request, and the patch or the request fails, or their
      answer is lost. */
  ghost predicate FirstHalfFails(c: Context, s: Subject, a: Action)
  {
    && UpdateAction(s) == Some(a) && Offered(c, a)
    && !(c.world.patches(0).Applied? && c.world.schedules(0).Applied?)
  }

  /** Anarchy has taken a request for the action. */
  ghost predicate Asked(c: Context, q: Run, a: Action)
  {
    exists i :: 0 <= i < |q.scheduled| && q.scheduled[i] == a && !c.world.schedules(i).Rejected?
  }

  /** The event failed, so it is run again. It requests the action again exactly when its first
      patch was rejected or the action is an update: start and stop are found done. */
  lemma {:induction false} CompletedByRerunIff(c: Context, s: Subject, held: set<string>, a: Action, again: Context)
    requires FirstHalfFails(c, s, a) && Offered(again, a)
    requires forall n :: again.world.patches(n).Applied? && again.world.schedules(n).Applied?
    ensures var o := Handled(c, Fresh(s, held), Updated);
            && o.err
            && o.run.subject.current == (if c.world.patches(0).Rejected? then s.current else Pending(a))
            && var next := Handled(again, Fresh(o.run.subject, held), Updated).run;
            && next.subject.current == Pending(a)
            && (a in next.scheduled <==> c.world.patches(0).Rejected? || a.Update?)
  {
    hide Handled;
    FirstHalf(c, s, held, a);
    Rerun(again, s, held, a, c.world.patches(0).Rejected?);
  }

  lemma {:induction false} FirstHalf(c: Context, s: Subject, held: set<string>, a: Action)
    requires FirstHalfFails(c, s, a)
    ensures var o := Handled(c, Fresh(s, held), Updated);
            && o.err
            && o.run.subject == if c.world.patches(0).Rejected? then s else s.(current := Pending(a), stateLabel := Pending(a))
  {
  }

  lemma {:induction false} Rerun(c: Context, s: Subject, held: set<string>, a: Action, rejected: bool)
    requires UpdateAction(s) == Some(a) && Offered(c, a)
    requires forall n :: c.world.patches(n).Applied? && c.world.schedules(n).Applied?
    ensures var now := if rejected then s else s.(current := Pending(a), stateLabel := Pending(a));
            var next := Handled(c, Fresh(now, held), Updated).run;
            && next.subject.current == Pending(a)
            && (a in next.scheduled <==> rejected || a.Update?)
  {
  }

  /** So the subject is stranded, in a-pending with the action requested by neither run, exactly
      when a start or stop was patched and then not asked for: because the patch's answer was
      lost, or because the request was refused. */
  lemma {:induction false} StrandedIff(c: Context, s: Subject, held: set<string>, a: Action, again: Context)
    requires FirstHalfFails(c, s, a) && Offered(again, a)
    requires forall n :: again.world.patches(n).Applied? && again.world.schedules(n).Applied?
    ensures var o := Handled(c, Fresh(s, held), Updated);
            var next := Handled(again, Fresh(o.run.subject, held), Updated).run;
            (!Asked(c, o.run, a) && !Asked(again, next, a)) <==>
              && (a.Start? || a.Stop?)
              && (c.world.patches(0).AppliedButLost? || (c.world.patches(0).Applied? && c.world.schedules(0).Rejected?))
  {
    hide Handled;
    CompletedByRerunIff(c, s, held, a, again);
    FirstHalfRequests(c, s, held, a);
    var o := Handled(c, Fresh(s, held), Updated);
    var next := Handled(again, Fresh(o.run.subject, held), Updated).run;
    if a in next.scheduled {
      var i :| 0 <= i < |next.scheduled| && next.scheduled[i] == a;
      assert Asked(again, next, a);
    }
  }

  lemma {:induction false} FirstHalfRequests(c: Context, s: Subject, held: set<string>, a: Action)
    requires FirstHalfFails(c, s, a)
    ensures var q := Handled(c, Fresh(s, held), Updated).run;
            && q.scheduled == (if c.world.patches(0).Applied? then [a] else [])
            && (Asked(c, q, a) <==> c.world.patches(0).Applied? && c.world.schedules(0).AppliedButLost?)
            && (a.Start? || a.Stop? || a.Update?)
  {
    var q := Handled(c, Fresh(s, held), Updated).run;
    if c.world.patches(0).Applied? && c.world.schedules(0).AppliedButLost? {
      assert q.scheduled[0] == a && !c.world.schedules(0).Rejected?;
    }
  }

  // ----- a late callback

  /** The states of a subject on its way out. */
  predicate Leaving(s: State)
  {
    s == Pending(Destroy) || s == Running(Destroy) || s == DestroyComplete || (s.Ended? && s.action.Destroy?)
  }

  /** Destroy is not absorbing: a callback that arrives late, and is recorded, takes the subject
      back exactly when it is not that of the destroy job or of a status check. */
  lemma {:induction false} LateCallback(c: Context, s: Subject, held: set<string>, a: Action, outcome: Outcome)
    requires Leaving(s.current) && !Handled(c, Fresh(s, held), Callback(a, outcome)).err
    ensures Leaving(Handled(c, Fresh(s, held), Callback(a, outcome)).run.subject.current) <==> a.Destroy? || a.Status?
  {
    hide EndPrelude, EndDirective;
    var r := Fresh(s, held);
    var q := EndPrelude(c, r, a, outcome).run;
    PreludeKeepsState(c, r, a, outcome);
    if !Patched(c, q, FinalPatch(a, outcome, q.payload.jobVars)).err {
      DirectiveKeepsSubject(c, Patched(c, q, FinalPatch(a, outcome, q.payload.jobVars)).run, a, outcome);
    }
  }

  lemma PreludeKeepsState(c: Context, r: Run, a: Action, outcome: Outcome)
    ensures EndPrelude(c, r, a, outcome).run.subject.current == r.subject.current
  {
  }

  lemma DirectiveKeepsSubject(c: Context, r: Run, a: Action, outcome: Outcome)
    ensures EndDirective(c, r, a, outcome).run.subject == r.subject
  {
  }

  // ----- a missing placement

  /** A provision run goes on to Tower without a placement in exactly this case: the GET and the
      follow-up GET say not found, and the booking between them was accepted in a state that is
      neither ready nor queued. */
  lemma {:induction false} MissingIff(c: Context, r: Run)
    ensures SandboxGet(c, r, Provision, true).booking.Missing? <==>
              && Uuid(r.payload) != "" && c.cfg.hasToken
              && c.world.gets(r.gets).NotFound? && c.world.gets(r.gets + 1).NotFound?
              && c.world.requestValid && c.world.book.accepted
              && (c.world.book.placement.Faulty? || c.world.book.placement.Unsettled?)
  {
    hide Extracted;
    GetOrBook(c, r, Provision);
    var r1 := r.(gets := r.gets + 1);
    if Books(c, r, Provision) && c.world.requestValid {
      var r2 := if c.world.book.created then r1.(held := r1.held + {Uuid(r.payload)}) else r1;
      FollowUp(c, r2);
      assert r2.gets == r.gets + 1;
    } else if !Books(c, r, Provision) {
      FollowUpNotBooking(c, r);
    }
    ExtractedNotMissing(c, r1);
  }

  lemma {:induction false} ExtractedNotMissing(c: Context, r: Run)
    ensures forall vars, labelled :: !Extracted(c, r, vars, labelled).booking.Missing?
  {
  }

  lemma {:induction false} FollowUp(c: Context, r: Run)
    requires Uuid(r.payload) != "" && c.cfg.hasToken
    ensures SandboxGet(c, r, Provision, false).booking.Missing? <==> c.world.gets(r.gets).NotFound?
  {
    hide Extracted;
    ExtractedNotMissing(c, r.(gets := r.gets + 1));
  }

  lemma {:induction false} FollowUpNotBooking(c: Context, r: Run)
    requires !Books(c, r, Provision)
    ensures !SandboxGet(c, r, Provision, false).booking.Missing?
  {
    hide Extracted;
    ExtractedNotMissing(c, r.(gets := r.gets + 1));
  }

  /** And then the job is launched, when Tower takes it. */
  lemma {:induction false} MissingStillLaunches(c: Context, r: Run)
    requires SandboxGet(c, r, Provision, true).booking.Missing?
    requires !c.cfg.disabled(Provision) && c.world.controller != "" && c.world.launch.Launched?
    ensures ProvisionBooked(c, r).run.launched == r.launched + [Provision]
  {
    hide SandboxGet, ProvisionError;
    GetOrBookQuiet(c, r, Provision);
    var q := SandboxGet(c, r, Provision, true).run;
    ProvisionErrorLaunches(c, LaunchedJob(c, q, Provision, LaunchState(Provision), LaunchCheck(Provision)).run);
  }

  lemma {:induction false} ProvisionErrorLaunches(c: Context, r: Run)
    ensures ProvisionError(c, r).run.launched == r.launched
  {
  }

  // ----- a placement that outlives its subject

  /** A world in which a booking is followed by a GET whose variables name another uuid, and in
      which no Tower job is launched; everything else goes well. */
  function OrphaningWorld(one: string, two: string): World
  {
    World((n: nat) => Applied, (n: nat) => Applied,
          (n: nat) => if n == 0 then NotFound else Found(Ready, map["uuid" := Str(two)], false),
          true, BookAnswer(true, true, Unsettled), true, true, true, "", NotLaunched, Inconclusive, one)
  }

  function OrphaningContext(one: string, two: string): Context
  {
    Context(Config(true, true, true, (a: Action) => false, (a: Action) => true, None, "none", "RHPDS", ["1m"], ["20s"], "30s"),
            OrphaningWorld(one, two), map[])
  }

  const UNBORN := Subject(Empty, Empty, ToBeStarted, Unchecked, None, map[], map[], {}, None, "", "", false)

  lemma {:induction false} CreateStep(one: string, two: string)
    requires one != ""
    ensures var q := Handled(OrphaningContext(one, two), Fresh(UNBORN, {}), Created).run;
            && q.subject.current == Pending(Provision) && Uuid(q.subject) == one && Guid(q.subject) == one
            && q.held == {} && q.launched == [] && Provision !in q.subject.begun
  {
    hide Merge;
    var c := OrphaningContext(one, two);
    var vars := InitialJobVars(c, map[]);
    assert vars == map["cloud_provider" := Str("none"), "platform" := Str("RHPDS"), "uuid" := Str(one), "guid" := Str(one)];
    MergeIntoEmpty(vars);
    assert StringAt(vars, "uuid") == one && StringAt(vars, "guid") == one;
  }

  lemma {:induction false} ProvisionStep(one: string, two: string, s: Subject)
    requires one != "" && s.current == Pending(Provision) && Uuid(s) == one && Provision !in s.begun
    ensures var q := Handled(OrphaningContext(one, two), Fresh(s, {}), Act(Provision)).run;
            && q.held == {one} && q.launched == [] && Uuid(q.subject) == two && Guid(q.subject) == Guid(s)
            && Provision in q.subject.jobs && (Provision !in s.jobs ==> q.subject.jobs[Provision].id.None?)
  {
    hide SandboxGet, ProvisionError, Merge;
    var c := OrphaningContext(one, two);
    var r := Begun(c, Fresh(s, {}), Provision).run;
    var vars: Vars := map["uuid" := Str(two)];
    assert "uuid" in vars && vars["uuid"] == Str(two);
    BookThenReady(c, r, vars);
    var q := SandboxGet(c, r, Provision, true).run;
    ErrorKeepsVars(c, q);
    MergedKeepsUuid(s.jobVars, vars);
    assert "guid" !in vars by { assert "guid" != "uuid"; }
    MergedKeepsOthers(s.jobVars, vars, "guid");
  }

  lemma BookThenReady(c: Context, r: Run, vars: Vars)
    requires Uuid(r.payload) != "" && c.cfg.hasToken && vars != map[] && c.world.requestValid
    requires c.world.gets(r.gets).NotFound? && c.world.gets(r.gets + 1) == Found(Ready, vars, false)
    requires c.world.book == BookAnswer(true, true, Unsettled) && c.world.patches(r.patches).Applied?
    ensures var got := SandboxGet(c, r, Provision, true);
            && got.booking.Usable? && got.run.held == r.held + {Uuid(r.payload)}
            && got.run.subject == r.subject.(jobVars := Merge(r.subject.jobVars, Merge(r.payload.jobVars, vars)))
            && got.run.launched == r.launched
  {
    hide Merge;
    GetOrBook(c, r, Provision);
    var r1 := r.(gets := r.gets + 1);
    var r2 := r1.(held := r1.held + {Uuid(r.payload)});
    assert SandboxBook(c, r1) == SandboxGet(c, r2, Provision, false);
  }

  lemma ErrorKeepsVars(c: Context, r: Run)
    ensures var q := ProvisionError(c, r).run;
            && q.subject.jobVars == r.subject.jobVars && q.held == r.held && q.launched == r.launched
            && (!c.world.patches(r.patches).Rejected? ==>
                  && Provision in q.subject.jobs
                  && (Provision !in r.subject.jobs ==> q.subject.jobs[Provision].id.None?))
  {
  }

  lemma MergedKeepsUuid(a: Vars, vars: Vars)
    requires "uuid" in vars && vars["uuid"].Str?
    ensures StringAt(Merge(a, Merge(a, vars)), "uuid") == vars["uuid"].s
  {
  }

  lemma MergedKeepsOthers(a: Vars, vars: Vars, k: string)
    requires k !in vars
    ensures StringAt(Merge(a, Merge(a, vars)), k) == StringAt(a, k)
  {
    if k in a && a[k].Obj? { MergeSelf(a[k].m); }
  }

  lemma {:induction false} DeleteStep(one: string, two: string, s: Subject)
    requires two != "" && Uuid(s) == two && Guid(s) != ""
    ensures var o := Handled(OrphaningContext(one, two), Fresh(s, {one}), ToDelete);
            o.run.result.delete && o.run.held == {one} - {two}
  {
  }

  /** A life that ends deleted with a placement still held: a booking, variables that name another
      uuid, and a delete event that releases under that one. Nobody else takes part. */
  lemma {:induction false} PlacementOutlivesSubject(one: string, two: string) returns (l: Life, events: seq<Event>, c: Context)
    requires one != "" && two != "" && one != two
    ensures Newborn(l) && Legal(l, events)
    ensures c.cfg.sandboxInUse && c.cfg.hasToken && !DeletesUnreleased(c, Play(l, events).subject, ToDelete)
    ensures RunAt(Play(l, events), c, ToDelete).run.result.delete
    ensures After(Play(l, events), RunOf(c, ToDelete)).held == {one} && Uuid(Play(l, events).subject) == two
  {
    hide Handled;
    c := OrphaningContext(one, two);
    l := Life(UNBORN, {}, 0, 0);
    events := [RunOf(c, Created), RunOf(c, Act(Provision))];
    CreateStep(one, two);
    var first := After(l, RunOf(c, Created));
    ProvisionStep(one, two, first.subject);
    var second := After(first, RunOf(c, Act(Provision)));
    assert events[..1] == [RunOf(c, Created)] && [RunOf(c, Created)][..0] == [];
    assert Play(l, [RunOf(c, Created)]) == first;
    assert Play(l, events) == second;
    DeleteStep(one, two, second.subject);
  }
}

/** The end of a provision job reaches the subject by callbacks and by polls, any number of times
    and in any order; the result is the same. */
module Confluence {
  import opened Json
  import opened DeepMerge
  import opened Subjects
  import opened Handlers
  import opened Lifecycle
  import opened Lives

  /** A run that may bring the outcome: its callback, or a poll that finds it or nothing yet. */
  predicate Delivers(e: Event, outcome: Outcome)
  {
    e.RunOf? &&
      (e.t == Callback(Provision, outcome)
       || (e.t == Act(Provision) && (e.c.world.poll.JobEnded? ==> e.c.world.poll.outcome == outcome)))
  }

  /** The run sends the outcome, and its patch takes. */
  predicate Takes(e: Event)
  {
    && e.RunOf? && !e.c.world.patches(0).Rejected?
    && (e.t.Act? ==> !e.c.cfg.disabled(Provision) && e.c.world.poll.JobEnded?)
  }

  /** The subject with the outcome on it. */
  function Delivered(s: Subject, outcome: Outcome): Subject
  {
    Apply(s, EndPatch(Provision, outcome, s.jobVars))
  }

  lemma {:induction false} ForensicsOverItself(v: Vars)
    ensures Merge(v, Forensics(v)) == Forensics(v)
    ensures Forensics(Forensics(v)) == Forensics(v)
  {
    forall k | k in v && v[k].Obj? && k != "agnosticd_collect_forensics" ensures Merge(v[k].m, Forensics(v)[k].m) == v[k].m {
      MergeSelf(v[k].m);
    }
  }

  /** The patch is made from the snapshot's own job_vars, and still a second one changes nothing. */
  lemma {:induction false} DeliveredOnce(s: Subject, outcome: Outcome)
    ensures Delivered(Delivered(s, outcome), outcome) == Delivered(s, outcome)
  {
    if outcome == Fail(Failed) {
      ForensicsOverItself(s.jobVars);
      ForensicsOverItself(Forensics(s.jobVars));
      assert Delivered(s, outcome).jobVars == Forensics(s.jobVars);
    }
    ApplyIdempotent(s, EndPatch(Provision, outcome, s.jobVars));
  }

  lemma {:induction false} ProvisionEndRun(c: Context, s: Subject, held: set<string>, outcome: Outcome)
    ensures var q := JobEndHandled(c, Fresh(s, held), Provision, outcome).run;
            && q.subject == (if c.world.patches(0).Rejected? then s else Delivered(s, outcome))
            && q.held == held && q.launched == []
  {
  }

  lemma {:induction false} PollRun(c: Context, s: Subject, held: set<string>)
    requires s.current == Running(Provision) && JobRecorded(s, Provision) && !c.cfg.disabled(Provision)
    ensures c.world.poll.JobEnded? ==>
              Handled(c, Fresh(s, held), Act(Provision)) == JobEndHandled(c, Fresh(s, held), Provision, c.world.poll.outcome)
    ensures !c.world.poll.JobEnded? ==>
              var q := Handled(c, Fresh(s, held), Act(Provision)).run; q.subject == s && q.held == held && q.launched == []
  {
    hide JobEndHandled;
  }

  lemma {:induction false} IdleRun(c: Context, s: Subject, held: set<string>)
    requires s.current == Running(Provision) ==> c.cfg.disabled(Provision)
    requires !Early(s.current)
    ensures Handled(c, Fresh(s, held), Act(Provision)) == Out(Fresh(s, held), false)
  {
    hide Polled;
  }

  lemma {:induction false} FirstDelivery(l: Life, e: Event, outcome: Outcome)
    requires l.subject.current == Running(Provision) && JobRecorded(l.subject, Provision) && Delivers(e, outcome)
    ensures After(l, e) == l.(subject := if Takes(e) then Delivered(l.subject, outcome) else l.subject)
  {
    hide Handled, JobEndHandled, Delivered;
    var s := l.subject;
    ProvisionEndRun(e.c, s, l.held, outcome);
    if e.t.Callback? {
      CallbackRun(e.c, s, l.held, outcome);
    } else if e.c.cfg.disabled(Provision) {
      IdleRun(e.c, s, l.held);
    } else {
      PollRun(e.c, s, l.held);
    }
  }

  lemma {:induction false} CallbackRun(c: Context, s: Subject, held: set<string>, outcome: Outcome)
    ensures Handled(c, Fresh(s, held), Callback(Provision, outcome)) == JobEndHandled(c, Fresh(s, held), Provision, outcome)
  {
    hide JobEndHandled;
  }

  lemma {:induction false} LaterDelivery(l: Life, e: Event, s: Subject, outcome: Outcome)
    requires l.subject == Delivered(s, outcome) && Delivers(e, outcome)
    ensures After(l, e) == l
  {
    hide Handled, JobEndHandled;
    DeliveredOnce(s, outcome);
    DeliveredState(s, outcome);
    if e.t.Callback? {
      ProvisionEndRun(e.c, l.subject, l.held, outcome);
      CallbackRun(e.c, l.subject, l.held, outcome);
    } else {
      IdleRun(e.c, l.subject, l.held);
    }
  }

  lemma {:induction false} DeliveredState(s: Subject, outcome: Outcome)
    ensures Delivered(s, outcome).current == EndState(Provision, outcome)
  {
  }

  /** From a subject that is provisioning, any sequence of deliveries of one outcome ends with the
      whole modelled subject as one delivery leaves it, as soon as one patch took; nothing is
      launched and no placement is touched. */
  lemma {:induction false} ProvisionOutcomesConfluent(l: Life, events: seq<Event>, outcome: Outcome)
    requires l.subject.current == Running(Provision) && JobRecorded(l.subject, Provision)
    requires forall i :: 0 <= i < |events| ==> Delivers(events[i], outcome)
    ensures Play(l, events) ==
            l.(subject := if exists i :: 0 <= i < |events| && Takes(events[i]) then Delivered(l.subject, outcome) else l.subject)
    decreases |events|
  {
    hide Takes, Delivers, Delivered, After;
    if events != [] {
      var last := |events| - 1;
      var front := events[..last];
      ProvisionOutcomesConfluent(l, front, outcome);
      if i :| 0 <= i < |front| && Takes(front[i]) {
        assert Takes(events[i]);
        LaterDelivery(Play(l, front), events[last], l.subject, outcome);
      } else {
        FirstDelivery(l, events[last], outcome);
        assert forall i :: 0 <= i < last ==> front[i] == events[i];
      }
    }
  }

  /** Leaving the queue and then reading the placement again, in one run, merges the same
      variables twice into job_vars and patches twice: it is as if it were done once. */
  lemma {:induction false} DequeueThenGet(c: Context, r: Run, vars: Vars, labelled: bool)
    requires r.payload.jobVars == r.subject.jobVars && vars != map[]
    requires forall n :: c.world.patches(n).Applied?
    ensures var p := StateAndLabel(Pending(Provision)).(jobVars := Some(WithVars(r, vars).payload.jobVars));
            var dequeued := Patched(c, WithVars(r, vars), p).run;
            var got := Extracted(c, dequeued, vars, labelled).run;
            && got.payload.jobVars == dequeued.payload.jobVars == Merge(r.payload.jobVars, vars)
            && got.subject.jobVars == dequeued.subject.jobVars == Merge(r.payload.jobVars, vars)
  {
    hide Merge;
    var jv := r.payload.jobVars;
    MergeIdempotent(jv, vars);
    MergeAbsorbs(jv, vars);
    MergeSelf(Merge(jv, vars));
  }

  /** Made a second time, the first job_vars change nothing, whatever uuid is drawn then. */
  lemma {:induction false} CreateTwice(c: Context, again: Context, vars: Vars)
    requires c.world.newUuid != "" && again.cfg == c.cfg
    ensures var once := Merge(vars, InitialJobVars(c, vars));
            Merge(once, InitialJobVars(again, once)) == once
  {
    var once := Merge(vars, InitialJobVars(c, vars));
    assert StringAt(once, "uuid") != "" && once["uuid"] == Str(StringAt(once, "uuid"));
    assert "guid" in once && once["guid"].Str?;
  }
}

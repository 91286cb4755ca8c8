/** Every vetted call, and so every start, goes back to one check event of its own run. */
module RunSystemChecks {
  import opened Base
  import opened ToolCalls
  import opened RunSystem
  import opened RunSystemLaws
  import Grants

  /** Event k of the execution checked exactly this call of run r: the registry named this tool, and the
      authority resolved the caller's own grant to this grant at that moment. */
  ghost predicate CheckedAt(cfg: Config, s0: System, events: seq<Event>, k: nat,
                            r: nat, c: Caller, i: Intent, v: Vetted, step: nat)
  {
    && k < |events| && events[k].Act? && events[k].run == r && events[k].action.Check?
    && var (s, a) := (RunAll(cfg, s0, events[..k]), events[k].action);
       && s.clock == step && r < |s.runs| && Enabled(s.runs[r], a)
       && CallerOf(s.runs[r].request) == c && s.runs[r].phase.jobs[a.job].intent == i
       && a.registered == Some(v.tool) && a.now == v.at && a.valid && a.authorization == v.authorization
       && Grants.Resolve(s.forest, c.grantId, a.now) == Some(v.grant)
  }

  lemma {:induction false} RunAllSnoc(cfg: Config, s: System, events: seq<Event>)
    requires events != []
    ensures RunAll(cfg, s, events) == Step(cfg, RunAll(cfg, s, Front(events)), Last(events))
    decreases |events|
  {
    if |events| > 1 {
      assert Front(events)[1..] == Front(events[1..]);
      RunAllSnoc(cfg, Step(cfg, s, events[0]), events[1..]);
    }
  }

  lemma {:induction false} CheckedEarlier(cfg: Config, s0: System, events: seq<Event>, k: nat,
                                          r: nat, c: Caller, i: Intent, v: Vetted, step: nat)
    requires events != [] && CheckedAt(cfg, s0, Front(events), k, r, c, i, v, step)
    ensures CheckedAt(cfg, s0, events, k, r, c, i, v, step)
  {
    assert Front(events)[..k] == events[..k];
  }

  // ----- Where a call of the batch comes from -----

  /** A job left after one was dropped was there before. */
  lemma {:induction false} DropOrigin(jobs: seq<Job>, k: nat, j: nat) returns (b: nat)
    requires k < |jobs| && j < |Without(jobs, k)|
    ensures b < |jobs| && Without(jobs, k)[j] == jobs[b]
  {
    WithoutAt(jobs, k);
    b := if j < k then j else j + 1;
  }

  lemma {:induction false} CheckOrigin(cfg: Config, s: System, run: Run, a: Action, j: nat) returns (b: nat)
    requires Enabled(run, a) && a.Check? && j < |JobsOf(MoveOf(cfg, s, run, a).run)|
    ensures var job := JobsOf(MoveOf(cfg, s, run, a).run)[j];
            b < |JobsOf(run)| && (job == JobsOf(run)[b] || VettedNow(cfg, s, run, a, b, job))
  {
    var (job, c, k) := (run.phase.jobs[a.job], CallerOf(run.request), a.job);
    var grant := Grants.Resolve(s.forest, run.request.grantId, a.now);
    var answers := Answers(a.registered, grant, a.now, a.valid, a.authorization);
    if Vet(cfg.policy, c, job.intent, job.duplicate, answers).Err? {
      b := DropOrigin(run.phase.jobs, k, j);
    } else {
      VettingSettles(cfg.policy, c, job.intent, job.duplicate, answers);
      b := j;
    }
  }

  /** A job after a run's step was there before, or was vetted by this very step. */
  lemma {:induction false} JobOrigin(cfg: Config, s: System, run: Run, a: Action, j: nat) returns (b: nat)
    requires Enabled(run, a)
    requires var m := MoveOf(cfg, s, run, a); j < |JobsOf(m.run)| && JobsOf(m.run)[j].vetted.Some?
    ensures var job := JobsOf(MoveOf(cfg, s, run, a).run)[j];
            && b < |JobsOf(run)|
            && (job == JobsOf(run)[b] || VettedNow(cfg, s, run, a, b, job))
  {
    b := j;
    match a
    case Check(_, _, _, _, _) => b := CheckOrigin(cfg, s, run, a, j);
    case Launch(k, consent) => b := DropOrigin(run.phase.jobs, k, j);
    case _ =>
  }

  /** The step is the check that gave this job its verdict. */
  ghost predicate VettedNow(cfg: Config, s: System, run: Run, a: Action, b: nat, job: Job)
    requires Enabled(run, a)
  {
    && a.Check? && a.job == b && job.vetted.Some? && job.vettedStep == s.clock
    && job.intent == run.phase.jobs[b].intent
    && var v := job.vetted.value;
       && a.registered == Some(v.tool) && a.now == v.at && a.valid && a.authorization == v.authorization
       && Grants.Resolve(s.forest, run.request.grantId, a.now) == Some(v.grant)
  }

  /** A vetted call after an event was there before it, or is the one this event checked. */
  lemma {:induction false} StepOrigin(cfg: Config, s: System, e: Event, r: nat, j: nat) returns (b: nat)
    requires var s' := Step(cfg, s, e);
             r < |s'.runs| && j < |JobsOf(s'.runs[r])| && JobsOf(s'.runs[r])[j].vetted.Some?
    ensures var run' := Step(cfg, s, e).runs[r];
            && r < |s.runs| && s.runs[r].request == run'.request && b < |JobsOf(s.runs[r])|
            && (|| JobsOf(run')[j] == JobsOf(s.runs[r])[b]
                || (e.Act? && e.run == r && Enabled(s.runs[r], e.action)
                    && VettedNow(cfg, s, s.runs[r], e.action, b, JobsOf(run')[j])))
  {
    if e.Act? && e.run == r && r < |s.runs| && Enabled(s.runs[r], e.action) {
      MoveCaller(cfg, s, s.runs[r], e.action);
      b := JobOrigin(cfg, s, s.runs[r], e.action, j);
    } else {
      b := j;
    }
  }

  /** A start an event adds is a launch of a vetted call. */
  lemma {:induction false} StartOrigin(cfg: Config, s: System, e: Event, i: nat)
    requires i < |Step(cfg, s, e).starts|
    ensures i < |s.starts| ==> Step(cfg, s, e).starts[i] == s.starts[i]
    ensures i >= |s.starts| ==>
      && e.Act? && e.action.Launch? && e.run < |s.runs| && e.action.job < |JobsOf(s.runs[e.run])|
      && var (run, l) := (s.runs[e.run], Step(cfg, s, e).starts[i]);
         var job := JobsOf(run)[e.action.job];
         && job.vetted == Some(l.start.vetted) && job.vettedStep == l.vettedStep && job.intent == l.start.intent
         && l.run == e.run && l.start.caller == CallerOf(run.request)
  {
  }

  /** The check a vetted call of the current state goes back to. */
  lemma {:induction false} JobWasChecked(cfg: Config, s0: System, events: seq<Event>, r: nat, j: nat) returns (k: nat)
    requires s0.runs == []
    requires var s := RunAll(cfg, s0, events);
             r < |s.runs| && j < |JobsOf(s.runs[r])| && JobsOf(s.runs[r])[j].vetted.Some?
    ensures var run := RunAll(cfg, s0, events).runs[r];
            var job := JobsOf(run)[j];
            CheckedAt(cfg, s0, events, k, r, CallerOf(run.request), job.intent, job.vetted.value, job.vettedStep)
    decreases |events|
  {
    RunAllSnoc(cfg, s0, events);
    var f := Front(events);
    var s := RunAll(cfg, s0, f);
    var run := RunAll(cfg, s0, events).runs[r];
    var job := JobsOf(run)[j];
    var b := StepOrigin(cfg, s, Last(events), r, j);
    if job == JobsOf(s.runs[r])[b] {
      k := JobWasChecked(cfg, s0, f, r, b);
      CheckedEarlier(cfg, s0, events, k, r, CallerOf(run.request), job.intent, job.vetted.value, job.vettedStep);
    } else {
      k := |f|;
      assert events[..k] == f;
    }
  }

  /** The check a start goes back to. */
  lemma {:induction false} StartWasChecked(cfg: Config, s0: System, events: seq<Event>, i: nat) returns (k: nat)
    requires s0.runs == [] && s0.starts == [] && i < |RunAll(cfg, s0, events).starts|
    ensures var l := RunAll(cfg, s0, events).starts[i];
            CheckedAt(cfg, s0, events, k, l.run, l.start.caller, l.start.intent, l.start.vetted, l.vettedStep)
    decreases |events|
  {
    RunAllSnoc(cfg, s0, events);
    var f, e := Front(events), Last(events);
    var s := RunAll(cfg, s0, f);
    var l := RunAll(cfg, s0, events).starts[i];
    StartOrigin(cfg, s, e, i);
    if i < |s.starts| {
      k := StartWasChecked(cfg, s0, f, i);
    } else {
      k := JobWasChecked(cfg, s0, f, e.run, e.action.job);
    }
    CheckedEarlier(cfg, s0, events, k, l.run, l.start.caller, l.start.intent, l.start.vetted, l.vettedStep);
  }
}

/** What each event of the run system does, on the records before and after: the counterpart of the
    safety laws, which a system that never did anything would keep as well. */
module RunSystemExact {
  import opened Base
  import opened Approvals
  import opened ToolCalls
  import opened RunBudget
  import opened RunLoop
  import opened RunSystem
  import Grants

  /** Only this run changes, and the clock moves on. */
  ghost predicate OnlyRun(s: System, r: nat, s': System) {
    && |s'.runs| == |s.runs| && (forall i :: 0 <= i < |s.runs| && i != r ==> s'.runs[i] == s.runs[i])
    && s'.forest == s.forest && s'.tokens == s.tokens && s'.grants == s.grants && s'.clock == s.clock + 1
  }

  // ----- Admission and charging -----

  /** A run without a checkpoint is ready at once. A resumed one takes over the counters and call ids of a
      valid checkpoint and still has its iterations to pay for; an invalid one stops it. */
  lemma {:induction false} AdmitsExactly(cfg: Config, s: System, r: nat)
    requires r < |s.runs| && s.runs[r].phase.New?
    ensures var s' := Step(cfg, s, Act(r, Admit));
            && OnlyRun(s, r, s') && s'.pool == s.pool && s'.pending == s.pending && s'.starts == s.starts
            && match s.runs[r].request.resume
               case None => s'.runs[r] == s.runs[r].(phase := Ready)
               case Some(c) =>
                 if !ValidResume(cfg.host, s.runs[r].request, c) then s'.runs[r] == s.runs[r].(phase := Stopped)
                 else && s'.runs[r] == s.runs[r].(phase := Charging(c.iterations), iterations := c.iterations,
                                                  toolCalls := c.toolCalls, callIds := s'.runs[r].callIds)
                      && forall id :: id in s'.runs[r].callIds <==> id in c.callIds
  {
  }

  /** Inherited iterations are paid one by one, then the inherited tool calls all at once; the run is ready
      exactly when the pool gave everything. */
  lemma {:induction false} ChargesExactly(cfg: Config, s: System, r: nat, open: bool)
    requires r < |s.runs| && s.runs[r].phase.Charging? && s.pool.Valid()
    ensures var (s', p, run) := (Step(cfg, s, Act(r, Charge(open))), s.pool, s.runs[r]);
            var left := if open then p.maxToolCalls - p.toolCallsUsed else 0;
            && OnlyRun(s, r, s') && s'.pending == s.pending && s'.starts == s.starts
            && if run.phase.left > 0 then
                 if open && p.iterationsUsed < p.maxIterations then
                   && s'.pool == p.(iterationsUsed := p.iterationsUsed + 1)
                   && s'.runs[r] == run.(phase := Charging(run.phase.left - 1),
                                         iterationCharges := run.iterationCharges + 1)
                 else s'.pool == p && s'.runs[r] == run.(phase := Stopped)
               else
                 var n := if run.toolCalls <= left then run.toolCalls else left;
                 && s'.pool == p.(toolCallsUsed := p.toolCallsUsed + n)
                 && s'.runs[r] == run.(phase := if run.toolCalls <= left then Ready else Stopped,
                                       slotCharges := run.slotCharges + n)
  {
  }

  /** A ready run goes on exactly when time is left, and its own budget and the pool have an iteration. */
  lemma {:induction false} IteratesExactly(cfg: Config, s: System, r: nat, open: bool)
    requires r < |s.runs| && s.runs[r].phase.Ready?
    ensures var (s', p, run) := (Step(cfg, s, Act(r, RunSystem.Iterate(open))), s.pool, s.runs[r]);
            && OnlyRun(s, r, s') && s'.pending == s.pending && s'.starts == s.starts
            && if open && run.iterations < run.request.maxIterations && p.iterationsUsed < p.maxIterations then
                 && s'.pool == p.(iterationsUsed := p.iterationsUsed + 1)
                 && s'.runs[r] == run.(phase := Thinking, iterations := run.iterations + 1,
                                       iterationCharges := run.iterationCharges + 1,
                                       workflowSteps := run.workflowSteps + 1)
               else s'.pool == p && s'.runs[r] == run.(phase := Stopped)
  {
  }

  // ----- A batch -----

  /** As many calls of a decision as the batch, the run and, while time is left, the pool allow. */
  ghost predicate MostTaken(p: Pool, run: Run, calls: nat, open: bool, n: nat) {
    && n <= calls && (n > 0 ==> open)
    && (n > 0 ==> run.toolCalls + n <= run.request.maxToolCalls && p.toolCallsUsed + n <= p.maxToolCalls)
    && (|| n == calls || !open || run.toolCalls + n >= run.request.maxToolCalls
        || p.toolCallsUsed + n >= p.maxToolCalls)
  }

  /** Each call becomes a job, flagged if its id is one of the run's or of an earlier call. */
  ghost predicate JobsOf(used: set<string>, calls: seq<Intent>, jobs: seq<Job>) {
    && |jobs| <= |calls|
    && forall k :: 0 <= k < |jobs| ==>
         && jobs[k].intent == calls[k] && jobs[k].vetted == None
         && (jobs[k].duplicate <==>
               calls[k].callId in used || exists i :: 0 <= i < k && calls[i].callId == calls[k].callId)
  }

  lemma {:induction false} FlaggedExactly(used: set<string>, calls: seq<Intent>, n: nat, k: nat)
    requires k < n <= |calls|
    ensures Flag(used, calls[..n], k) <==>
            calls[k].callId in used || exists i :: 0 <= i < k && calls[i].callId == calls[k].callId
  {
    assert calls[..n][..k] == calls[..k];
    forall i | 0 <= i < k && calls[i].callId == calls[k].callId ensures calls[k].callId in IdsOf(calls[..k]) {
      assert calls[..k][i] in calls[..k];
    }
    if calls[k].callId in IdsOf(calls[..k]) {
      var x :| x in calls[..k] && x.callId == calls[k].callId;
      var i :| 0 <= i < k && calls[..k][i] == x;
      assert calls[i].callId == calls[k].callId;
    }
  }

  lemma {:induction false} JobsExactly(used: set<string>, calls: seq<Intent>, n: nat)
    requires n <= |calls|
    ensures JobsOf(used, calls, Jobs(used, calls[..n]))
  {
    forall k | 0 <= k < n
      ensures Flag(used, calls[..n], k) <==>
              calls[k].callId in used || exists i :: 0 <= i < k && calls[i].callId == calls[k].callId
    {
      FlaggedExactly(used, calls, n, k);
    }
  }

  lemma {:induction false} TakenIsMost(p: Pool, run: Run, calls: seq<Intent>, open: bool)
    requires p.Valid()
    ensures MostTaken(p, run, |calls|, open, Slots(p, open, Asked(run, calls)))
  {
  }

  lemma {:induction false} IdsExactly(used: set<string>, calls: seq<Intent>, n: nat)
    requires n <= |calls|
    ensures forall id :: id in used + IdsOf(calls[..n]) <==>
                         id in used || exists k :: 0 <= k < n && calls[k].callId == id
  {
    forall id | exists k :: 0 <= k < n && calls[k].callId == id ensures id in IdsOf(calls[..n]) {
      var k :| 0 <= k < n && calls[k].callId == id;
      assert calls[..n][k] in calls[..n];
    }
    forall id | id in IdsOf(calls[..n]) ensures exists k :: 0 <= k < n && calls[k].callId == id {
      var x :| x in calls[..n] && x.callId == id;
      var k :| 0 <= k < n && calls[..n][k] == x;
    }
  }

  /** A decision turns as many of its calls as are allowed into jobs, charges run and pool for them, and
      records their ids. */
  lemma {:induction false} DecidesExactly(cfg: Config, s: System, r: nat, calls: seq<Intent>, open: bool)
    requires r < |s.runs| && s.runs[r].phase.Thinking? && s.pool.Valid()
    ensures var (s', p, run) := (Step(cfg, s, Act(r, Decide(calls, open))), s.pool, s.runs[r]);
            var run' := s'.runs[r];
            && OnlyRun(s, r, s') && s'.pending == s.pending && s'.starts == s.starts
            && run'.phase.Executing?
            && var n := |run'.phase.jobs|;
               && MostTaken(p, run, |calls|, open, n) && JobsOf(run.callIds, calls, run'.phase.jobs)
               && (run'.phase.over <==> n < |calls|)
               && s'.pool == p.(toolCallsUsed := p.toolCallsUsed + n)
               && run' == run.(phase := run'.phase, toolCalls := run.toolCalls + n, callIds := run'.callIds,
                               slotCharges := run.slotCharges + n)
               && (forall id :: id in run'.callIds <==>
                     id in run.callIds || exists k :: 0 <= k < n && calls[k].callId == id)
  {
    var (p, run) := (s.pool, s.runs[r]);
    var n := Slots(p, open, Asked(run, calls));
    TakenIsMost(p, run, calls, open);
    JobsExactly(run.callIds, calls, n);
    IdsExactly(run.callIds, calls, n);
  }

  // ----- One call -----

  /** The jobs without the k-th. */
  ghost predicate Dropped(jobs: seq<Job>, k: nat, jobs': seq<Job>)
    requires k < |jobs|
  {
    && |jobs'| == |jobs| - 1
    && forall i :: 0 <= i < |jobs'| ==> jobs'[i] == jobs[if i < k then i else i + 1]
  }

  lemma {:induction false} WithoutDrops(jobs: seq<Job>, k: nat)
    requires k < |jobs|
    ensures Dropped(jobs, k, Without(jobs, k))
  {
  }

  /** A call passes its checks exactly when it is no duplicate, valid, not denied, and the run's own grant,
      as the authority resolves it now, permits its registered tool; otherwise the job is dropped.
      Nothing else changes. */
  lemma {:induction false} ChecksExactly(cfg: Config, s: System, r: nat, k: nat, registered: Option<Tool>, now: int,
                                         valid: bool, authorization: Authorization)
    requires r < |s.runs| && s.runs[r].phase.Executing? && k < |s.runs[r].phase.jobs|
    requires s.runs[r].phase.jobs[k].vetted.None?
    ensures var s' := Step(cfg, s, Act(r, Check(k, registered, now, valid, authorization)));
            var (run, job) := (s.runs[r], s.runs[r].phase.jobs[k]);
            var g := Grants.Resolve(s.forest, run.request.grantId, now);
            && OnlyRun(s, r, s') && s'.pool == s.pool && s'.pending == s.pending && s'.starts == s.starts
            && s'.runs[r].phase.Executing? && s'.runs[r] == run.(phase := s'.runs[r].phase)
            && s'.runs[r].phase.over == run.phase.over
            && var jobs' := s'.runs[r].phase.jobs;
               if && !job.duplicate && valid && authorization != Deny && registered.Some? && g.Some?
                  && Permitted(cfg.policy, CallerOf(run.request), job.intent,
                               Vetted(registered.value, g.value, now, authorization, false))
               then && |jobs'| == |run.phase.jobs|
                    && (forall i :: 0 <= i < |jobs'| && i != k ==> jobs'[i] == run.phase.jobs[i])
                    && jobs'[k].vetted.Some? && jobs'[k] == job.(vetted := jobs'[k].vetted, vettedStep := s.clock)
                    && var v := jobs'[k].vetted.value;
                       && v.tool == registered.value && v.grant == g.value && v.at == now
                       && v.authorization == authorization
                       && VettedFor(cfg.policy, CallerOf(run.request), job.intent, v)
               else Dropped(run.phase.jobs, k, jobs')
  {
    var (run, job) := (s.runs[r], s.runs[r].phase.jobs[k]);
    var g := Grants.Resolve(s.forest, run.request.grantId, now);
    var a := Answers(registered, g, now, valid, authorization);
    if Vet(cfg.policy, CallerOf(run.request), job.intent, job.duplicate, a).Ok? {
      VettingSettles(cfg.policy, CallerOf(run.request), job.intent, job.duplicate, a);
    }
    WithoutDrops(run.phase.jobs, k);
  }

  /** A checked call starts its handler exactly when it needs no approval or a matching one is in hand. Its
      job goes either way, and of the store only the token it showed may go. */
  lemma {:induction false} LaunchesExactly(cfg: Config, s: System, r: nat, k: nat, consent: Consent)
    requires r < |s.runs| && s.runs[r].phase.Executing? && k < |s.runs[r].phase.jobs|
    requires s.runs[r].phase.jobs[k].vetted.Some?
    ensures var (s', run) := (Step(cfg, s, Act(r, RunSystem.Launch(k, consent))), s.runs[r]);
            var (c, job) := (CallerOf(run.request), run.phase.jobs[k]);
            var starts := job.vetted.value.needsApproval ==>
              exists b :: InHand(s.pending, job.intent, consent, b)
                          && ApprovedFor(c, job.intent, job.vetted.value.tool.identity, b, consent.now);
            && OnlyRun(s, r, s') && s'.pool == s.pool
            && s'.runs[r].phase.Executing? && s'.runs[r].phase.over == run.phase.over
            && Dropped(run.phase.jobs, k, s'.runs[r].phase.jobs)
            && s'.runs[r] == run.(phase := s'.runs[r].phase,
                                  started := if starts then run.started + {job.intent.callId} else run.started)
            && |s'.starts| == |s.starts| + (if starts then 1 else 0) && s.starts <= s'.starts
            && (starts ==>
                  && s'.starts[|s.starts|].run == r && s'.starts[|s.starts|].vettedStep == job.vettedStep
                  && var start := s'.starts[|s.starts|].start;
                     start.caller == c && start.intent == job.intent && start.vetted == job.vetted.value
                     && (start.approval.Some? <==> job.vetted.value.needsApproval))
            && (forall t :: Some(t) != job.intent.token ==>
                  (t in s'.pending <==> t in s.pending) && (t in s.pending ==> s'.pending[t] == s.pending[t]))
  {
    var (run, job) := (s.runs[r], s.runs[r].phase.jobs[k]);
    var (c, v) := (CallerOf(run.request), job.vetted.value);
    WithoutDrops(run.phase.jobs, k);
    LaunchedExactly(s.pending, c, job.intent, v, consent);
  }

  lemma {:induction false} LaunchedExactly(pending: Pending, c: Caller, i: Intent, v: Vetted, k: Consent)
    ensures ToolCalls.Launch(pending, c, i, v, k).Ok? <==>
            (v.needsApproval ==>
               exists b :: InHand(pending, i, k, b) && ApprovedFor(c, i, v.tool.identity, b, k.now))
  {
    if v.needsApproval {
      var b := BindingFor(pending, c, i, v.tool, k);
      assert b.Some? ==> InHand(pending, i, k, b.value);
    }
  }

  /** A batch that is done makes the run ready again, or stops it if it asked for too much. */
  lemma {:induction false} SettlesExactly(cfg: Config, s: System, r: nat)
    requires r < |s.runs| && s.runs[r].phase.Executing?
    ensures var s' := Step(cfg, s, Act(r, Settle));
            if s.runs[r].phase.jobs != [] then s' == s
            else && OnlyRun(s, r, s') && s'.pool == s.pool && s'.pending == s.pending && s'.starts == s.starts
                 && s'.runs[r] == s.runs[r].(phase := if s.runs[r].phase.over then Stopped else Ready)
  {
  }
}

/** What every interleaving of runs keeps: budgets, one handler per call, lawful starts, one-shot tokens. */
module RunSystemLaws {
  import opened Base
  import opened Approvals
  import opened ToolCalls
  import opened RunBudget
  import opened RunLoop
  import opened RunSystem
  import Grants

  // ----- One run -----

  function JobsOf(run: Run): seq<Job> {
    if run.phase.Executing? then run.phase.jobs else []
  }

  function InheritedIterations(req: Request): nat {
    if req.resume.Some? then req.resume.value.iterations else 0
  }

  function InheritedCalls(req: Request): nat {
    if req.resume.Some? then req.resume.value.toolCalls else 0
  }

  function InheritedIds(req: Request): set<string> {
    if req.resume.Some? then ToSet(req.resume.value.callIds) else {}
  }

  predicate Underway(p: Phase) { p.Ready? || p.Thinking? || p.Executing? }

  /** Charges agree with the counters, and own work plus inherited work stays within the run's budget. */
  ghost predicate Accounts(run: Run) {
    var req := run.request;
    && run.iterationCharges <= run.iterations <= req.maxIterations
    && run.slotCharges <= run.toolCalls <= req.maxToolCalls
    && run.workflowSteps <= run.iterationCharges
    && |run.started| + |JobsOf(run)| <= run.slotCharges
    && (run.phase.New? ==> run.iterations == 0 && run.toolCalls == 0)
    && (run.phase.Charging? ==>
          run.slotCharges == 0 && run.workflowSteps == 0 && run.iterationCharges + run.phase.left == run.iterations)
    && (Underway(run.phase) ==> run.iterationCharges == run.iterations && run.slotCharges == run.toolCalls)
    && (run.phase.Charging? || Underway(run.phase) ==>
          && run.iterations == run.workflowSteps + InheritedIterations(req)
          && run.toolCalls >= |run.started| + |JobsOf(run)| + InheritedCalls(req))
    && (run.workflowSteps > 0 ==> run.workflowSteps + InheritedIterations(req) <= req.maxIterations)
    && (run.started != {} ==> |run.started| + InheritedCalls(req) <= req.maxToolCalls)
  }

  /** No two unflagged calls of a batch share an id, and none reuses an id the run has seen. */
  ghost predicate FreshJobs(jobs: seq<Job>, started: set<string>, inherited: set<string>, callIds: set<string>) {
    && (forall k :: 0 <= k < |jobs| && !jobs[k].duplicate ==>
          jobs[k].intent.callId in callIds - started - inherited)
    && (forall i, j :: 0 <= i < j < |jobs| && !jobs[i].duplicate && !jobs[j].duplicate ==>
          jobs[i].intent.callId != jobs[j].intent.callId)
  }

  ghost predicate Calls(run: Run) {
    && run.started <= run.callIds
    && run.started !! InheritedIds(run.request)
    && (run.phase.New? ==> run.started == {})
    && (run.phase.Charging? || Underway(run.phase) ==> InheritedIds(run.request) <= run.callIds)
    && FreshJobs(JobsOf(run), run.started, InheritedIds(run.request), run.callIds)
  }

  ghost predicate VettedJobs(policy: Policy, c: Caller, jobs: seq<Job>) {
    forall k :: 0 <= k < |jobs| && jobs[k].vetted.Some? ==>
      !jobs[k].duplicate && VettedFor(policy, c, jobs[k].intent, jobs[k].vetted.value)
  }

  ghost predicate RunInv(cfg: Config, run: Run) {
    Accounts(run) && Calls(run) && VettedJobs(cfg.policy, CallerOf(run.request), JobsOf(run))
  }

  /** A run's step as the rest of the system sees it. */
  ghost predicate MoveOk(cfg: Config, s: System, run: Run, m: Move) {
    && RunInv(cfg, m.run) && m.run.request == run.request
    && m.pool.Valid() && m.pool.SameLimits(s.pool)
    && m.pool.iterationsUsed - s.pool.iterationsUsed == m.run.iterationCharges - run.iterationCharges
    && m.pool.toolCallsUsed - s.pool.toolCallsUsed == m.run.slotCharges - run.slotCharges
    && m.pending.Keys <= s.pending.Keys
    && match m.start
       case None => m.run.started == run.started
       case Some(start) =>
         && start.intent.callId !in run.started
         && m.run.started == run.started + {start.intent.callId}
         && start.caller == CallerOf(run.request)
         && Lawful(cfg.policy, start)
         && (start.token.Some? ==> start.token.value in s.pending && start.token.value !in m.pending)
  }

  lemma {:induction false} MoveCaller(cfg: Config, s: System, run: Run, a: Action)
    requires Enabled(run, a)
    ensures var m := MoveOf(cfg, s, run, a);
            && m.run.request == run.request
            && (m.start.Some? ==> m.start.value.caller == CallerOf(run.request))
  {
  }

  lemma {:induction false} NewJobsAreFresh(used: set<string>, calls: seq<Intent>, started: set<string>,
                                           inherited: set<string>)
    requires started <= used && inherited <= used
    ensures FreshJobs(Jobs(used, calls), started, inherited, used + IdsOf(calls))
  {
    var jobs := Jobs(used, calls);
    forall i, j | 0 <= i < j < |jobs| && !jobs[i].duplicate && !jobs[j].duplicate
      ensures jobs[i].intent.callId != jobs[j].intent.callId
    {
      assert calls[i] in calls[..j];
    }
  }

  lemma {:induction false} WithoutAt<T>(s: seq<T>, k: nat)
    requires k < |s|
    ensures |Without(s, k)| == |s| - 1
    ensures forall i :: 0 <= i < |s| - 1 ==> Without(s, k)[i] == s[if i < k then i else i + 1]
  {
  }

  /** Dropping a call from the batch, after starting it or not, leaves the others fresh. */
  lemma {:induction false} DropKeepsFresh(jobs: seq<Job>, k: nat, started: set<string>, inherited: set<string>,
                                          callIds: set<string>, add: set<string>)
    requires FreshJobs(jobs, started, inherited, callIds) && k < |jobs|
    requires add == {} || (add == {jobs[k].intent.callId} && !jobs[k].duplicate)
    ensures FreshJobs(Without(jobs, k), started + add, inherited, callIds)
  {
    WithoutAt(jobs, k);
  }

  lemma {:induction false} DropKeepsVetted(policy: Policy, c: Caller, jobs: seq<Job>, k: nat)
    requires VettedJobs(policy, c, jobs) && k < |jobs|
    ensures VettedJobs(policy, c, Without(jobs, k))
  {
    WithoutAt(jobs, k);
  }

  lemma {:induction false} AdmitKeeps(cfg: Config, run: Run)
    requires RunInv(cfg, run) && run.phase.New?
    ensures RunInv(cfg, AdmitRun(cfg, run))
  {
  }

  lemma {:induction false} ChargeKeeps(cfg: Config, s: System, run: Run, open: bool)
    requires RunInv(cfg, run) && s.pool.Valid() && run.phase.Charging?
    ensures MoveOk(cfg, s, run, MoveOf(cfg, s, run, Charge(open)))
  {
  }

  lemma {:induction false} IterateKeeps(cfg: Config, s: System, run: Run, open: bool)
    requires RunInv(cfg, run) && s.pool.Valid() && run.phase.Ready?
    ensures MoveOk(cfg, s, run, MoveOf(cfg, s, run, Action.Iterate(open)))
  {
  }

  lemma {:induction false} DecideKeeps(cfg: Config, s: System, run: Run, calls: seq<Intent>, open: bool)
    requires RunInv(cfg, run) && s.pool.Valid() && run.phase.Thinking?
    ensures MoveOk(cfg, s, run, MoveOf(cfg, s, run, Decide(calls, open)))
  {
    var n := Slots(s.pool, open, Asked(run, calls));
    NewJobsAreFresh(run.callIds, calls[..n], run.started, InheritedIds(run.request));
  }

  /** A call leaves the batch, started (add holds its id) or refused. */
  lemma {:induction false} DropKeeps(cfg: Config, run: Run, k: nat, add: set<string>)
    requires RunInv(cfg, run) && run.phase.Executing? && k < |run.phase.jobs|
    requires add == {} || (add == {run.phase.jobs[k].intent.callId} && !run.phase.jobs[k].duplicate)
    ensures RunInv(cfg, DropJob(run, k).(started := run.started + add))
  {
    var jobs := run.phase.jobs;
    WithoutAt(jobs, k);
    DropKeepsFresh(jobs, k, run.started, InheritedIds(run.request), run.callIds, add);
    DropKeepsVetted(cfg.policy, CallerOf(run.request), jobs, k);
    assert |run.started + add| <= |run.started| + 1;
  }

  lemma {:induction false} RefuseKeeps(cfg: Config, run: Run, k: nat)
    requires RunInv(cfg, run) && run.phase.Executing? && k < |run.phase.jobs|
    ensures RunInv(cfg, DropJob(run, k))
  {
    DropKeeps(cfg, run, k, {});
    assert run.started + {} == run.started;
    assert DropJob(run, k).(started := run.started) == DropJob(run, k);
  }

  lemma {:induction false} CheckKeeps(cfg: Config, run: Run, k: nat, a: Answers, clock: nat)
    requires RunInv(cfg, run) && run.phase.Executing? && k < |run.phase.jobs|
    ensures RunInv(cfg, CheckRun(cfg, run, k, a, clock))
  {
    var (job, c) := (run.phase.jobs[k], CallerOf(run.request));
    if Vet(cfg.policy, c, job.intent, job.duplicate, a).Ok? {
      VettingSettles(cfg.policy, c, job.intent, job.duplicate, a);
    } else {
      RefuseKeeps(cfg, run, k);
    }
  }

  /** What a launch tells the rest of the system about the handler it starts. */
  lemma {:induction false} LaunchStarts(cfg: Config, run: Run, k: nat, pending: Pending, consent: Consent)
    requires RunInv(cfg, run) && Enabled(run, Action.Launch(k, consent)) && LaunchRun(run, k, pending, consent).2.Some?
    ensures var (run', pending', start) := LaunchRun(run, k, pending, consent);
            && run' == DropJob(run, k).(started := run.started + {start.value.intent.callId})
            && start.value.intent.callId == run.phase.jobs[k].intent.callId
            && start.value.intent.callId !in run.started
            && start.value.caller == CallerOf(run.request) && Lawful(cfg.policy, start.value)
            && (start.value.token.Some? ==> start.value.token.value in pending && start.value.token.value !in pending')
  {
    var (job, c) := (run.phase.jobs[k], CallerOf(run.request));
    assert !job.duplicate && VettedFor(cfg.policy, c, job.intent, job.vetted.value);
    LaunchIsLawful(cfg.policy, pending, c, job.intent, job.vetted.value, consent);
  }

  lemma {:induction false} LaunchKeeps(cfg: Config, s: System, run: Run, k: nat, consent: Consent)
    requires RunInv(cfg, run) && s.pool.Valid() && Enabled(run, Action.Launch(k, consent))
    ensures MoveOk(cfg, s, run, MoveOf(cfg, s, run, Action.Launch(k, consent)))
  {
    var (run', pending', start) := LaunchRun(run, k, s.pending, consent);
    if start.Some? {
      LaunchStarts(cfg, run, k, s.pending, consent);
      DropKeeps(cfg, run, k, {run.phase.jobs[k].intent.callId});
    } else {
      RefuseKeeps(cfg, run, k);
    }
  }

  lemma {:induction false} PhaseKeeps(cfg: Config, run: Run, p: Phase)
    requires RunInv(cfg, run)
    requires p.Stopped? || (p.Ready? && run.phase.Executing?)
    ensures RunInv(cfg, run.(phase := p))
  {
  }

  lemma {:induction false} MoveKeeps(cfg: Config, s: System, run: Run, a: Action)
    requires RunInv(cfg, run) && s.pool.Valid() && Enabled(run, a)
    ensures MoveOk(cfg, s, run, MoveOf(cfg, s, run, a))
  {
    match a
    case Admit => AdmitKeeps(cfg, run);
    case Charge(open) => ChargeKeeps(cfg, s, run, open);
    case Iterate(open) => IterateKeeps(cfg, s, run, open);
    case Decide(calls, open) => DecideKeeps(cfg, s, run, calls, open);
    case Check(k, registered, now, valid, authorization) =>
      CheckKeeps(cfg, run, k,
        Answers(registered, Grants.Resolve(s.forest, run.request.grantId, now), now, valid, authorization), s.clock);
    case Launch(k, consent) => LaunchKeeps(cfg, s, run, k, consent);
    case Settle => PhaseKeeps(cfg, run, if run.phase.over then Stopped else Ready);
    case Stop => PhaseKeeps(cfg, run, Stopped);
  }

  lemma {:induction false} SlotsAreAllotted(run: Run, pool: Pool, t: Turn, open: bool)
    requires t.slots == Slots(pool, open, Asked(run, t.intents))
    ensures t.slots == Allotted(run.request.maxToolCalls, run.toolCalls, t)
  {
  }

  /** The interleaved run and the single loop account for a batch alike, whatever the pool grants. */
  lemma {:induction false} BatchesAgree(h: Host, run: Run, pool: Pool, t: Turn, open: bool)
    requires t.Answered() && t.slots == Slots(pool, open, Asked(run, t.intents))
    ensures var run' := DecideRun(run, pool, t.intents, open).0;
            var start := Done(run.toolCalls, [], run.callIds, true, false);
            var d := RunBatch(h, run.request.resume.Some?, run.request.maxToolCalls, start, t);
            && run'.toolCalls == d.toolCalls && run'.callIds == d.callIds && run'.phase.over == d.over
            && run'.toolCalls - run.toolCalls == |run'.phase.jobs| == run'.slotCharges - run.slotCharges
            && forall k :: 0 <= k < |run'.phase.jobs| ==>
                 var job := run'.phase.jobs[k];
                 d.observations[k] ==
                 Observe(job.intent, job.duplicate || Barred(h, run.request.resume.Some?, job.intent), t.answers[k])
  {
    SlotsAreAllotted(run, pool, t, open);
    var n, start := t.slots, Done(run.toolCalls, [], run.callIds, true, false);
    var d := RunBatch(h, run.request.resume.Some?, run.request.maxToolCalls, start, t);
    var os := Batch(h, run.request.resume.Some?, run.callIds, t.intents[..n], t.answers);
    assert d.observations == [] + os + Overflows(t.intents[n..]);
    assert d.observations[..n] == os;
  }
}

/** Safety of whole executions: every interleaving of runs, approvals and authority changes. */
module RunSystemRuns {
  import opened Base
  import opened Approvals
  import opened ToolCalls
  import opened RunBudget
  import opened RunSystem
  import opened RunSystemLaws
  import opened RunSystemChecks
  import RunLoop
  import Grants

  // ----- Sums over runs -----

  function Total(runs: seq<Run>, f: Run -> nat): nat
    decreases |runs|
  {
    if runs == [] then 0 else f(runs[0]) + Total(runs[1..], f)
  }

  function IterationCharges(run: Run): nat { run.iterationCharges }
  function SlotCharges(run: Run): nat { run.slotCharges }
  function WorkflowSteps(run: Run): nat { run.workflowSteps }
  function HandlerStarts(run: Run): nat { |run.started| }

  lemma {:induction false} TotalUpdate(runs: seq<Run>, r: nat, run: Run, f: Run -> nat)
    requires r < |runs|
    ensures Total(runs[r := run], f) + f(runs[r]) == Total(runs, f) + f(run)
    decreases |runs|
  {
    if r == 0 {
      assert runs[r := run][1..] == runs[1..];
    } else {
      assert runs[r := run][1..] == runs[1..][r - 1 := run];
      TotalUpdate(runs[1..], r - 1, run, f);
    }
  }

  lemma {:induction false} TotalAppend(runs: seq<Run>, run: Run, f: Run -> nat)
    ensures Total(runs + [run], f) == Total(runs, f) + f(run)
    decreases |runs|
  {
    if runs == [] {
      assert (runs + [run])[1..] == [];
    } else {
      assert (runs + [run])[1..] == runs[1..] + [run];
      TotalAppend(runs[1..], run, f);
    }
  }

  lemma {:induction false} TotalAtMost(runs: seq<Run>, f: Run -> nat, g: Run -> nat)
    requires forall k :: 0 <= k < |runs| ==> f(runs[k]) <= g(runs[k])
    ensures Total(runs, f) <= Total(runs, g)
    decreases |runs|
  {
    if runs != [] {
      TotalAtMost(runs[1..], f, g);
    }
  }

  // ----- The invariant -----

  ghost predicate Balanced(s: System) {
    && s.pool.Valid()
    && Total(s.runs, IterationCharges) == s.pool.iterationsUsed
    && Total(s.runs, SlotCharges) == s.pool.toolCallsUsed
    && Total(s.runs, HandlerStarts) == |s.starts|
  }

  ghost predicate RunsOk(cfg: Config, runs: seq<Run>) {
    forall r :: 0 <= r < |runs| ==> RunInv(cfg, runs[r])
  }

  ghost predicate LoggedOk(cfg: Config, runs: seq<Run>, l: LoggedStart) {
    && l.run < |runs|
    && l.start.intent.callId in runs[l.run].started
    && l.start.caller == CallerOf(runs[l.run].request)
    && Lawful(cfg.policy, l.start)
  }

  ghost predicate StartsOk(cfg: Config, runs: seq<Run>, starts: seq<LoggedStart>) {
    forall i :: 0 <= i < |starts| ==> LoggedOk(cfg, runs, starts[i])
  }

  ghost predicate OncePerCall(starts: seq<LoggedStart>) {
    forall i, j :: 0 <= i < j < |starts| && starts[i].run == starts[j].run ==>
      starts[i].start.intent.callId != starts[j].start.intent.callId
  }

  ghost predicate OncePerToken(starts: seq<LoggedStart>) {
    forall i, j :: 0 <= i < j < |starts| && starts[i].start.token.Some? ==>
      starts[i].start.token != starts[j].start.token
  }

  /** Pending and spent tokens were both issued, and are disjoint. */
  ghost predicate TokensOk(pending: Pending, tokens: set<Token>, starts: seq<LoggedStart>) {
    && pending.Keys <= tokens
    && OncePerToken(starts)
    && forall i :: 0 <= i < |starts| && starts[i].start.token.Some? ==>
         starts[i].start.token.value in tokens && starts[i].start.token.value !in pending
  }

  /** What holds however tokens and grant ids are drawn. */
  ghost predicate Core(cfg: Config, s: System) {
    && Balanced(s)
    && RunsOk(cfg, s.runs)
    && StartsOk(cfg, s.runs, s.starts)
    && OncePerCall(s.starts)
    && Grants.Inv(s.forest)
  }

  ghost predicate Inv(cfg: Config, s: System) {
    && Core(cfg, s)
    && TokensOk(s.pending, s.tokens, s.starts)
    && s.forest.grants.Keys <= s.grants
  }

  // ----- A run's step keeps each part -----

  lemma {:induction false} MoveBalances(cfg: Config, s: System, r: nat, m: Move)
    requires Balanced(s) && r < |s.runs| && MoveOk(cfg, s, s.runs[r], m)
    ensures Balanced(Applied(s, r, m))
  {
    TotalUpdate(s.runs, r, m.run, IterationCharges);
    TotalUpdate(s.runs, r, m.run, SlotCharges);
    TotalUpdate(s.runs, r, m.run, HandlerStarts);
  }

  lemma {:induction false} MoveLogs(cfg: Config, s: System, r: nat, m: Move)
    requires StartsOk(cfg, s.runs, s.starts) && OncePerCall(s.starts)
    requires r < |s.runs| && MoveOk(cfg, s, s.runs[r], m)
    ensures StartsOk(cfg, Applied(s, r, m).runs, Applied(s, r, m).starts) && OncePerCall(Applied(s, r, m).starts)
  {
    var s' := Applied(s, r, m);
    forall i | 0 <= i < |s.starts| ensures LoggedOk(cfg, s'.runs, s.starts[i]) {
      assert LoggedOk(cfg, s.runs, s.starts[i]);
    }
    forall i, j | 0 <= i < j < |s'.starts| && s'.starts[i].run == s'.starts[j].run
      ensures s'.starts[i].start.intent.callId != s'.starts[j].start.intent.callId
    {
      assert LoggedOk(cfg, s.runs, s.starts[i]);
    }
  }

  lemma {:induction false} MoveSpends(cfg: Config, s: System, r: nat, m: Move)
    requires TokensOk(s.pending, s.tokens, s.starts) && r < |s.runs| && MoveOk(cfg, s, s.runs[r], m)
    ensures TokensOk(m.pending, s.tokens, Applied(s, r, m).starts)
  {
    var starts' := Applied(s, r, m).starts;
    forall i, j | 0 <= i < j < |starts'| && starts'[i].start.token.Some?
      ensures starts'[i].start.token != starts'[j].start.token
    {
    }
  }

  lemma {:induction false} SubmitKeeps(cfg: Config, s: System, req: RunLoop.Request)
    requires Core(cfg, s)
    ensures Core(cfg, Step(cfg, s, Submit(req)))
  {
    var s' := Step(cfg, s, Submit(req));
    TotalAppend(s.runs, Submitted(req), IterationCharges);
    TotalAppend(s.runs, Submitted(req), SlotCharges);
    TotalAppend(s.runs, Submitted(req), HandlerStarts);
    assert RunInv(cfg, Submitted(req));
    forall i | 0 <= i < |s.starts| ensures LoggedOk(cfg, s'.runs, s.starts[i]) {
      assert LoggedOk(cfg, s.runs, s.starts[i]);
    }
  }

  lemma {:induction false} ActKeeps(cfg: Config, s: System, r: nat, a: Action)
    requires Core(cfg, s) && r < |s.runs| && Enabled(s.runs[r], a)
    ensures var s' := Applied(s, r, MoveOf(cfg, s, s.runs[r], a)); Core(cfg, s') && s'.pool.SameLimits(s.pool)
  {
    var m := MoveOf(cfg, s, s.runs[r], a);
    MoveKeeps(cfg, s, s.runs[r], a);
    MoveBalances(cfg, s, r, m);
    MoveLogs(cfg, s, r, m);
  }

  lemma {:induction false} StepKeepsCore(cfg: Config, s: System, e: Event)
    requires Core(cfg, s)
    ensures Core(cfg, Step(cfg, s, e)) && Step(cfg, s, e).pool.SameLimits(s.pool)
  {
    match e
    case Submit(req) => SubmitKeeps(cfg, s, req);
    case Act(r, a) =>
      if r < |s.runs| && Enabled(s.runs[r], a) {
        ActKeeps(cfg, s, r, a);
      }
    case Approve(op) =>
    case Authorize(op) => Grants.StepKeepsInv(s.forest, op);
  }

  lemma {:induction false} RunKeepsCore(cfg: Config, s: System, events: seq<Event>)
    requires Core(cfg, s)
    ensures Core(cfg, RunAll(cfg, s, events)) && RunAll(cfg, s, events).pool.SameLimits(s.pool)
    decreases |events|
  {
    if events != [] {
      StepKeepsCore(cfg, s, events[0]);
      RunKeepsCore(cfg, Step(cfg, s, events[0]), events[1..]);
    }
  }

  lemma {:induction false} ApproveKeeps(pending: Pending, tokens: set<Token>, starts: seq<LoggedStart>,
                                        op: Approvals.Op)
    requires TokensOk(pending, tokens, starts) && (op.Issue? ==> op.token !in tokens)
    ensures TokensOk(Approvals.Apply(pending, op), if op.Issue? then tokens + {op.token} else tokens, starts)
  {
  }

  lemma {:induction false} AuthorizeKeeps(f: Grants.Forest, known: set<Grants.Id>, op: Grants.Op)
    requires f.grants.Keys <= known
    ensures Grants.Apply(f, op).grants.Keys <= known + Grants.Introduced(op)
  {
  }

  lemma {:induction false} StepKeeps(cfg: Config, s: System, e: Event)
    requires Inv(cfg, s) && Fair(s, e)
    ensures Inv(cfg, Step(cfg, s, e))
  {
    StepKeepsCore(cfg, s, e);
    match e
    case Submit(_) =>
    case Act(r, a) =>
      if r < |s.runs| && Enabled(s.runs[r], a) {
        MoveKeeps(cfg, s, s.runs[r], a);
        MoveSpends(cfg, s, r, MoveOf(cfg, s, s.runs[r], a));
      }
    case Approve(op) => ApproveKeeps(s.pending, s.tokens, s.starts, op);
    case Authorize(op) => AuthorizeKeeps(s.forest, s.grants, op);
  }

  lemma {:induction false} RunKeeps(cfg: Config, s: System, events: seq<Event>)
    requires Inv(cfg, s) && FairRun(cfg, s, events)
    ensures Inv(cfg, RunAll(cfg, s, events))
    decreases |events|
  {
    if events != [] {
      StepKeeps(cfg, s, events[0]);
      RunKeeps(cfg, Step(cfg, s, events[0]), events[1..]);
    }
  }

  lemma {:induction false} InitialHolds(cfg: Config, maxIterations: nat, maxToolCalls: nat, maxChildren: nat)
    ensures Inv(cfg, Initial(maxIterations, maxToolCalls, maxChildren))
  {
    assert Grants.Climbs(map[], map[]);
  }

  // ----- The main results -----

  /** Under any interleaving the pool's usage is exactly what the runs were charged; all workflow
      steps together and all handler starts together stay within the pool; and no run exceeds its
      own budget, counting what it inherited from the run it resumes. */
  lemma {:induction false} BudgetsHold(cfg: Config, maxIterations: nat, maxToolCalls: nat, maxChildren: nat,
                                       events: seq<Event>)
    ensures var s := RunAll(cfg, Initial(maxIterations, maxToolCalls, maxChildren), events);
            && Total(s.runs, IterationCharges) == s.pool.iterationsUsed
            && Total(s.runs, SlotCharges) == s.pool.toolCallsUsed
            && Total(s.runs, WorkflowSteps) <= s.pool.iterationsUsed <= maxIterations
            && |s.starts| <= s.pool.toolCallsUsed <= maxToolCalls
            && forall r :: 0 <= r < |s.runs| ==>
                 var (run, req) := (s.runs[r], s.runs[r].request);
                 && run.iterationCharges <= req.maxIterations && run.slotCharges <= req.maxToolCalls
                 && (run.workflowSteps > 0 ==> run.workflowSteps + InheritedIterations(req) <= req.maxIterations)
                 && (run.started != {} ==> |run.started| + InheritedCalls(req) <= req.maxToolCalls)
  {
    var s0 := Initial(maxIterations, maxToolCalls, maxChildren);
    var s := RunAll(cfg, s0, events);
    InitialHolds(cfg, maxIterations, maxToolCalls, maxChildren);
    RunKeepsCore(cfg, s0, events);
    forall r | 0 <= r < |s.runs|
      ensures WorkflowSteps(s.runs[r]) <= IterationCharges(s.runs[r])
      ensures HandlerStarts(s.runs[r]) <= SlotCharges(s.runs[r])
    {
      assert RunInv(cfg, s.runs[r]);
    }
    TotalAtMost(s.runs, WorkflowSteps, IterationCharges);
    TotalAtMost(s.runs, HandlerStarts, SlotCharges);
    forall r | 0 <= r < |s.runs| ensures Accounts(s.runs[r]) {
      assert RunInv(cfg, s.runs[r]);
    }
  }

  lemma {:induction false} CheckedGrantIsOwn(cfg: Config, s0: System, events: seq<Event>, k: nat,
                                             r: nat, c: Caller, i: Intent, v: Vetted, step: nat)
    requires Core(cfg, s0) && CheckedAt(cfg, s0, events, k, r, c, i, v, step)
    ensures v.grant.id == c.grantId
  {
    RunKeepsCore(cfg, s0, events[..k]);
    Grants.ResolveExactly(RunAll(cfg, s0, events[..k]).forest, c.grantId, events[k].action.now);
  }

  /** Each call id of a run starts at most one handler, and none that the run inherited is started
      again. Every start was lawful for its own run's caller, and goes back to one check of that very
      call, at which the authority resolved the run's own grant to the grant it was permitted by. */
  lemma {:induction false} StartsAreLawfulAndUnique(cfg: Config, maxIterations: nat, maxToolCalls: nat,
                                                    maxChildren: nat, events: seq<Event>)
    ensures var s0 := Initial(maxIterations, maxToolCalls, maxChildren);
            var s := RunAll(cfg, s0, events);
            && OncePerCall(s.starts)
            && forall i :: 0 <= i < |s.starts| ==>
                 var l := s.starts[i];
                 && l.run < |s.runs|
                 && l.start.caller == CallerOf(s.runs[l.run].request)
                 && l.start.intent.callId !in InheritedIds(s.runs[l.run].request)
                 && Lawful(cfg.policy, l.start)
                 && (l.start.approval.Some? <==>
                       || Destructive in l.start.vetted.tool.effects
                       || l.start.vetted.authorization == RequireApproval
                       || (l.start.vetted.authorization == Default
                           && exists e :: e in l.start.vetted.tool.effects && e in cfg.policy.approvalEffects))
                 && l.start.vetted.grant.id == l.start.caller.grantId
                 && exists k ::
                      CheckedAt(cfg, s0, events, k, l.run, l.start.caller, l.start.intent, l.start.vetted, l.vettedStep)
  {
    var s0 := Initial(maxIterations, maxToolCalls, maxChildren);
    var s := RunAll(cfg, s0, events);
    InitialHolds(cfg, maxIterations, maxToolCalls, maxChildren);
    RunKeepsCore(cfg, s0, events);
    forall i | 0 <= i < |s.starts|
      ensures var l := s.starts[i];
              && LoggedOk(cfg, s.runs, l) && RunInv(cfg, s.runs[l.run])
              && l.start.vetted.grant.id == l.start.caller.grantId
              && exists k ::
                   CheckedAt(cfg, s0, events, k, l.run, l.start.caller, l.start.intent, l.start.vetted, l.vettedStep)
    {
      var l := s.starts[i];
      assert LoggedOk(cfg, s.runs, l);
      var k := StartWasChecked(cfg, s0, events, i);
      CheckedGrantIsOwn(cfg, s0, events, k, l.run, l.start.caller, l.start.intent, l.start.vetted, l.vettedStep);
    }
  }

  /** Across all runs, a stored token pays for at most one start, and then is gone from the store. */
  lemma {:induction false} TokensPayOnce(cfg: Config, maxIterations: nat, maxToolCalls: nat, maxChildren: nat,
                                         events: seq<Event>)
    requires FairRun(cfg, Initial(maxIterations, maxToolCalls, maxChildren), events)
    ensures var s := RunAll(cfg, Initial(maxIterations, maxToolCalls, maxChildren), events);
            && OncePerToken(s.starts)
            && forall i :: 0 <= i < |s.starts| && s.starts[i].start.token.Some? ==>
                 s.starts[i].start.token.value !in s.pending
  {
    InitialHolds(cfg, maxIterations, maxToolCalls, maxChildren);
    RunKeeps(cfg, Initial(maxIterations, maxToolCalls, maxChildren), events);
  }

  // ----- Revocation reaches running runs -----

  /** Whatever passed its checks did so before step n. */
  ghost predicate VettedBefore(jobs: seq<Job>, n: nat) {
    forall k :: 0 <= k < |jobs| && jobs[k].vetted.Some? ==> jobs[k].vettedStep < n
  }

  ghost predicate Dated(s: System) {
    && (forall r :: 0 <= r < |s.runs| ==> VettedBefore(JobsOf(s.runs[r]), s.clock))
    && (forall i :: 0 <= i < |s.starts| ==> s.starts[i].vettedStep < s.clock)
  }

  /** The grant is gone for good, and no call holding it passed its checks at step n or later. */
  ghost predicate CutOff(s: System, g: Grants.Id, n: nat) {
    && g in s.grants && g !in s.forest.grants
    && (forall r :: 0 <= r < |s.runs| && s.runs[r].request.grantId == g ==> VettedBefore(JobsOf(s.runs[r]), n))
    && (forall i :: 0 <= i < |s.starts| && s.starts[i].start.caller.grantId == g ==> s.starts[i].vettedStep < n)
  }

  lemma {:induction false} DropDates(jobs: seq<Job>, k: nat, n: nat)
    requires VettedBefore(jobs, n) && k < |jobs|
    ensures VettedBefore(Without(jobs, k), n)
  {
    WithoutAt(jobs, k);
  }

  lemma {:induction false} CheckDates(cfg: Config, run: Run, k: nat, a: Answers, clock: nat, n: nat)
    requires run.phase.Executing? && k < |run.phase.jobs| && VettedBefore(run.phase.jobs, n)
    ensures n <= clock ==> VettedBefore(JobsOf(CheckRun(cfg, run, k, a, clock)), clock + 1)
    ensures a.grant.None? ==> VettedBefore(JobsOf(CheckRun(cfg, run, k, a, clock)), n)
  {
    DropDates(run.phase.jobs, k, n);
  }

  /** A step leaves the dates of a run's calls alone, except for a check that succeeds now. */
  lemma {:induction false} MoveDates(cfg: Config, s: System, run: Run, a: Action, n: nat)
    requires Enabled(run, a) && VettedBefore(JobsOf(run), n)
    ensures var m := MoveOf(cfg, s, run, a);
            && (n <= s.clock ==> VettedBefore(JobsOf(m.run), s.clock + 1))
            && (run.request.grantId !in s.forest.grants ==> VettedBefore(JobsOf(m.run), n))
            && (m.start.Some? ==> m.vettedStep < n)
  {
    match a
    case Check(k, registered, now, valid, authorization) =>
      var answers := Answers(registered, Grants.Resolve(s.forest, run.request.grantId, now), now, valid, authorization);
      CheckDates(cfg, run, k, answers, s.clock, n);
    case Launch(k, consent) =>
      DropDates(run.phase.jobs, k, n);
    case _ =>
  }

  lemma {:induction false} StepDates(cfg: Config, s: System, e: Event)
    requires Dated(s)
    ensures Dated(Step(cfg, s, e))
  {
    if e.Act? && e.run < |s.runs| && Enabled(s.runs[e.run], e.action) {
      MoveDates(cfg, s, s.runs[e.run], e.action, s.clock);
    }
  }

  lemma {:induction false} RunDates(cfg: Config, s: System, events: seq<Event>)
    requires Dated(s)
    ensures Dated(RunAll(cfg, s, events))
    decreases |events|
  {
    if events != [] {
      StepDates(cfg, s, events[0]);
      RunDates(cfg, Step(cfg, s, events[0]), events[1..]);
    }
  }

  lemma {:induction false} MoveKeepsCut(s: System, r: nat, m: Move, g: Grants.Id, n: nat)
    requires CutOff(s, g, n) && r < |s.runs| && m.run.request == s.runs[r].request
    requires m.start.Some? ==> m.start.value.caller == CallerOf(m.run.request)
    requires m.run.request.grantId == g ==> VettedBefore(JobsOf(m.run), n) && (m.start.Some? ==> m.vettedStep < n)
    ensures CutOff(Applied(s, r, m), g, n)
  {
  }

  lemma {:induction false} ActKeepsCut(cfg: Config, s: System, r: nat, a: Action, g: Grants.Id, n: nat)
    requires CutOff(s, g, n) && r < |s.runs| && Enabled(s.runs[r], a)
    ensures CutOff(Applied(s, r, MoveOf(cfg, s, s.runs[r], a)), g, n)
  {
    MoveCaller(cfg, s, s.runs[r], a);
    if s.runs[r].request.grantId == g {
      MoveDates(cfg, s, s.runs[r], a, n);
    }
    MoveKeepsCut(s, r, MoveOf(cfg, s, s.runs[r], a), g, n);
  }

  lemma {:induction false} StaysRemoved(f: Grants.Forest, op: Grants.Op, g: Grants.Id)
    requires g !in f.grants && g !in Grants.Introduced(op)
    ensures g !in Grants.Apply(f, op).grants
  {
  }

  lemma {:induction false} StepKeepsCut(cfg: Config, s: System, e: Event, g: Grants.Id, n: nat)
    requires CutOff(s, g, n) && Fair(s, e)
    ensures CutOff(Step(cfg, s, e), g, n)
  {
    match e
    case Submit(req) =>
    case Act(r, a) =>
      if r < |s.runs| && Enabled(s.runs[r], a) {
        ActKeepsCut(cfg, s, r, a, g, n);
      }
    case Approve(op) =>
    case Authorize(op) => StaysRemoved(s.forest, op, g);
  }

  lemma {:induction false} RunKeepsCut(cfg: Config, s: System, events: seq<Event>, g: Grants.Id, n: nat)
    requires CutOff(s, g, n) && FairRun(cfg, s, events)
    ensures CutOff(RunAll(cfg, s, events), g, n)
    decreases |events|
  {
    if events != [] {
      StepKeepsCut(cfg, s, events[0], g, n);
      RunKeepsCut(cfg, Step(cfg, s, events[0]), events[1..], g, n);
    }
  }

  /** Revoking a grant cuts off every run that holds it or anything delegated from it: whatever the
      runs do afterwards, a handler of theirs starts only if its call had passed all checks before. */
  lemma {:induction false} RevocationReachesRuns(cfg: Config, maxIterations: nat, maxToolCalls: nat, maxChildren: nat,
                                                 before: seq<Event>, root: Grants.Id, after: seq<Event>, g: Grants.Id)
    requires var s0 := Initial(maxIterations, maxToolCalls, maxChildren);
             var s := RunAll(cfg, s0, before);
             && FairRun(cfg, s0, before)
             && FairRun(cfg, Step(cfg, s, Authorize(Grants.Revoke(root))), after)
             && root in s.forest.grants && g in Grants.Subtree(s.forest, root)
    ensures var s := RunAll(cfg, Initial(maxIterations, maxToolCalls, maxChildren), before);
            var s' := RunAll(cfg, Step(cfg, s, Authorize(Grants.Revoke(root))), after);
            && (forall now :: Grants.Resolve(s'.forest, g, now) == None)
            && forall i :: 0 <= i < |s'.starts| && s'.starts[i].start.caller.grantId == g ==>
                 s'.starts[i].vettedStep < s.clock
  {
    var s0 := Initial(maxIterations, maxToolCalls, maxChildren);
    var s := RunAll(cfg, s0, before);
    InitialHolds(cfg, maxIterations, maxToolCalls, maxChildren);
    RunKeeps(cfg, s0, before);
    RunDates(cfg, s0, before);
    var cut := Step(cfg, s, Authorize(Grants.Revoke(root)));
    assert CutOff(cut, g, s.clock);
    RunKeepsCut(cfg, cut, after, g, s.clock);
  }
}

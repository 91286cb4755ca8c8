/** Any number of runs, interleaved step by step, on one pool, one approval store and one authority. */
module RunSystem {
  import opened Base
  import opened Approvals
  import opened ToolCalls
  import opened RunBudget
  import opened RunLoop
  import Grants

  /** A call of the current batch; `vettedStep` is when it passed its checks. */
  datatype Job = Job(intent: Intent, duplicate: bool, vetted: Option<Vetted>, vettedStep: nat)

  datatype Phase =
    | New
    | Charging(left: nat)  // inherited iterations still to be charged to the pool
    | Ready
    | Thinking
    | Executing(jobs: seq<Job>, over: bool)
    | Stopped

  /** A run, with a record of what the pool charged it and of what it did. */
  datatype Run = Run(
    request: Request, phase: Phase, iterations: nat, toolCalls: nat, callIds: set<string>,
    iterationCharges: nat, slotCharges: nat, workflowSteps: nat, started: set<string>)

  datatype Config = Config(host: Host, policy: Policy)

  datatype LoggedStart = LoggedStart(run: nat, start: Start, vettedStep: nat)

  /** `tokens` and `grants` remember every token issued and every grant id introduced so far. */
  datatype System = System(
    pool: Pool, forest: Grants.Forest, pending: Pending, runs: seq<Run>, starts: seq<LoggedStart>,
    tokens: set<Token>, grants: set<Grants.Id>, clock: nat)

  function CallerOf(req: Request): Caller {
    Caller(req.runId, req.grantId, req.scope, req.principal, req.readOnly, req.resume.Some?)
  }

  function Submitted(req: Request): Run {
    Run(req, New, 0, 0, {}, 0, 0, 0, {})
  }

  // ----- One run's next step; the rest of the system may act before and after it -----

  datatype Action =
    | Admit
    | Charge(open: bool)
    | Iterate(open: bool)
    | Decide(calls: seq<Intent>, open: bool)
    | Check(job: nat, registered: Option<Tool>, now: int, valid: bool, authorization: Authorization)
    | Launch(job: nat, consent: Consent)
    | Settle
    | Stop

  /** What a run's step does: to itself, to the pool, to the approvals, and the handler it starts. */
  datatype Move = Move(run: Run, pool: Pool, pending: Pending, start: Option<Start>, vettedStep: nat)

  function Jobs(used: set<string>, calls: seq<Intent>): (jobs: seq<Job>)
    ensures |jobs| == |calls|
    ensures forall k :: 0 <= k < |calls| ==> jobs[k] == Job(calls[k], Flag(used, calls, k), None, 0)
  {
    seq(|calls|, k requires 0 <= k < |calls| => Job(calls[k], Flag(used, calls, k), None, 0))
  }

  function Without<T>(s: seq<T>, k: nat): seq<T>
    requires k < |s|
  {
    s[..k] + s[k + 1..]
  }

  function AdmitRun(cfg: Config, run: Run): Run {
    if run.request.resume.None? then run.(phase := Ready)
    else
      var c := run.request.resume.value;
      if !ValidResume(cfg.host, run.request, c) then run.(phase := Stopped)
      else run.(phase := Charging(c.iterations), iterations := c.iterations, toolCalls := c.toolCalls,
                callIds := ToSet(c.callIds))
  }

  function ChargeRun(run: Run, pool: Pool, open: bool): (Run, Pool)
    requires run.phase.Charging?
  {
    if run.phase.left > 0 then
      if IterationOpen(pool, open)
      then (run.(phase := Charging(run.phase.left - 1), iterationCharges := run.iterationCharges + 1),
        TakeIteration(pool, open))
      else (run.(phase := Stopped), pool)
    else
      var n := Slots(pool, open, run.toolCalls);
      (run.(phase := if n == run.toolCalls then Ready else Stopped, slotCharges := run.slotCharges + n),
       TakeToolSlots(pool, open, run.toolCalls))
  }

  function IterateRun(run: Run, pool: Pool, open: bool): (Run, Pool) {
    if run.iterations < run.request.maxIterations && IterationOpen(pool, open)
    then (run.(phase := Thinking, iterations := run.iterations + 1, iterationCharges := run.iterationCharges + 1,
               workflowSteps := run.workflowSteps + 1), TakeIteration(pool, open))
    else (run.(phase := Stopped), pool)
  }

  function Asked(run: Run, calls: seq<Intent>): nat {
    Min(if run.toolCalls <= run.request.maxToolCalls then run.request.maxToolCalls - run.toolCalls else 0, |calls|)
  }

  function DecideRun(run: Run, pool: Pool, calls: seq<Intent>, open: bool): (Run, Pool) {
    var n := Slots(pool, open, Asked(run, calls));
    (run.(phase := Executing(Jobs(run.callIds, calls[..n]), n < |calls|), toolCalls := run.toolCalls + n,
          callIds := run.callIds + IdsOf(calls[..n]), slotCharges := run.slotCharges + n),
     TakeToolSlots(pool, open, Asked(run, calls)))
  }

  function SetJob(run: Run, k: nat, job: Job): Run
    requires run.phase.Executing? && k < |run.phase.jobs|
  {
    run.(phase := run.phase.(jobs := run.phase.jobs[k := job]))
  }

  function DropJob(run: Run, k: nat): Run
    requires run.phase.Executing? && k < |run.phase.jobs|
  {
    run.(phase := run.phase.(jobs := Without(run.phase.jobs, k)))
  }

  function CheckRun(cfg: Config, run: Run, k: nat, a: Answers, clock: nat): Run
    requires run.phase.Executing? && k < |run.phase.jobs|
  {
    var job := run.phase.jobs[k];
    var v := Vet(cfg.policy, CallerOf(run.request), job.intent, job.duplicate, a);
    if v.Ok? then SetJob(run, k, job.(vetted := Some(v.value), vettedStep := clock)) else DropJob(run, k)
  }

  function LaunchRun(run: Run, k: nat, pending: Pending, consent: Consent): (Run, Pending, Option<Start>)
    requires run.phase.Executing? && k < |run.phase.jobs| && run.phase.jobs[k].vetted.Some?
  {
    var job := run.phase.jobs[k];
    var c := CallerOf(run.request);
    var l := ToolCalls.Launch(pending, c, job.intent, job.vetted.value, consent);
    var pending' := AfterLaunch(pending, c, job.intent, job.vetted.value, consent);
    if l.Ok? then (DropJob(run, k).(started := run.started + {job.intent.callId}), pending', Some(l.value))
    else (DropJob(run, k), pending', None)
  }

  predicate Enabled(run: Run, a: Action) {
    match a
    case Admit => run.phase.New?
    case Charge(_) => run.phase.Charging?
    case Iterate(_) => run.phase.Ready?
    case Decide(_, _) => run.phase.Thinking?
    case Check(k, _, _, _, _) => run.phase.Executing? && k < |run.phase.jobs| && run.phase.jobs[k].vetted.None?
    case Launch(k, _) => run.phase.Executing? && k < |run.phase.jobs| && run.phase.jobs[k].vetted.Some?
    case Settle => run.phase.Executing? && run.phase.jobs == []
    case Stop => true
  }

  ghost function MoveOf(cfg: Config, s: System, run: Run, a: Action): Move
    requires Enabled(run, a)
  {
    match a
    case Admit => Move(AdmitRun(cfg, run), s.pool, s.pending, None, 0)
    case Charge(open) =>
      var (run', pool') := ChargeRun(run, s.pool, open);
      Move(run', pool', s.pending, None, 0)
    case Iterate(open) =>
      var (run', pool') := IterateRun(run, s.pool, open);
      Move(run', pool', s.pending, None, 0)
    case Decide(calls, open) =>
      var (run', pool') := DecideRun(run, s.pool, calls, open);
      Move(run', pool', s.pending, None, 0)
    case Check(k, registered, now, valid, authorization) =>
      var answers := Answers(registered, Grants.Resolve(s.forest, run.request.grantId, now), now, valid, authorization);
      Move(CheckRun(cfg, run, k, answers, s.clock), s.pool, s.pending, None, 0)
    case Launch(k, consent) =>
      var (run', pending', start) := LaunchRun(run, k, s.pending, consent);
      Move(run', s.pool, pending', start, run.phase.jobs[k].vettedStep)
    case Settle => Move(run.(phase := if run.phase.over then Stopped else Ready), s.pool, s.pending, None, 0)
    case Stop => Move(run.(phase := Stopped), s.pool, s.pending, None, 0)
  }

  // ----- The whole system -----

  datatype Event =
    | Submit(request: Request)
    | Act(run: nat, action: Action)
    | Approve(op: Approvals.Op)
    | Authorize(change: Grants.Op)

  function Applied(s: System, r: nat, m: Move): System
    requires r < |s.runs|
  {
    s.(runs := s.runs[r := m.run], pool := m.pool, pending := m.pending, clock := s.clock + 1,
       starts := if m.start.Some? then s.starts + [LoggedStart(r, m.start.value, m.vettedStep)] else s.starts)
  }

  ghost function Step(cfg: Config, s: System, e: Event): System {
    match e
    case Submit(req) => s.(runs := s.runs + [Submitted(req)], clock := s.clock + 1)
    case Act(r, a) =>
      if r < |s.runs| && Enabled(s.runs[r], a) then Applied(s, r, MoveOf(cfg, s, s.runs[r], a)) else s
    case Approve(op) =>
      s.(pending := Approvals.Apply(s.pending, op), clock := s.clock + 1,
         tokens := if op.Issue? then s.tokens + {op.token} else s.tokens)
    case Authorize(op) =>
      s.(forest := Grants.Apply(s.forest, op), clock := s.clock + 1, grants := s.grants + Grants.Introduced(op))
  }

  /** Random tokens and grant ids never repeat. */
  predicate Fair(s: System, e: Event) {
    && (e.Approve? && e.op.Issue? ==> e.op.token !in s.tokens)
    && (e.Authorize? ==> Grants.Introduced(e.change) !! s.grants)
  }

  ghost predicate FairRun(cfg: Config, s: System, events: seq<Event>)
    decreases |events|
  {
    events == [] || (Fair(s, events[0]) && FairRun(cfg, Step(cfg, s, events[0]), events[1..]))
  }

  ghost function RunAll(cfg: Config, s: System, events: seq<Event>): System
    decreases |events|
  {
    if events == [] then s else RunAll(cfg, Step(cfg, s, events[0]), events[1..])
  }

  function Initial(maxIterations: nat, maxToolCalls: nat, maxChildren: nat): System {
    System(Pool(maxIterations, maxToolCalls, maxChildren, 0, 0, {}, 0), Grants.EMPTY, map[], [], [], {}, {}, 0)
  }
}

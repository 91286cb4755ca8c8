/** One run of the workflow loop: batches of tool calls, checkpoints, and resuming from one. */
module RunLoop {
  import opened Base
  import opened Orders
  import opened ToolCalls
  import Approvals

  datatype Status = Succeeded | Denied | Failed | OverBudget

  /** `clean`: neither the result nor the kept arguments hold run-scoped credentials. */
  datatype Observation = Observation(
    callId: string, tool: string, identity: Option<string>, status: Status, clean: bool)

  datatype Workflow = Null | Value(text: string, credentials: bool)

  datatype Resume = Resume(
    sourceRun: string, workflow: Workflow, observations: seq<Observation>,
    iterations: nat, toolCalls: nat, callIds: seq<string>, prompt: string, route: string)

  datatype Request = Request(
    runId: string, grantId: string, scope: Approvals.Scope, principal: string, readOnly: bool,
    maxIterations: nat, maxToolCalls: nat, resume: Option<Resume>)

  /** The process around the loop: tool registry, checkpoint size limit, the size of a serialised
      checkpoint, and whether today's grant, policy and clock still allow an old observation. */
  datatype Host = Host(
    registry: map<string, Tool>, limit: nat, size: Resume -> nat, stillAllowed: Observation -> bool)

  // ----- Which checkpoints may be resumed -----

  predicate SafeObservation(h: Host, o: Observation) {
    && o.status == Succeeded
    && o.tool in h.registry && h.registry[o.tool].resumable
    && o.identity == Some(h.registry[o.tool].identity)
    && o.clean
  }

  function CallIds(os: seq<Observation>): set<string> { set o | o in os :: o.callId }

  predicate HasCredentials(w: Workflow) { w.Value? && w.credentials }

  predicate Structural(h: Host, req: Request, c: Resume) {
    && req.readOnly && req.runId != c.sourceRun
    && c.iterations < req.maxIterations
    && c.toolCalls <= req.maxToolCalls
    && h.size(c) <= h.limit
    && !HasCredentials(c.workflow)
    && c.toolCalls == |c.observations|
    && |c.callIds| == |ToSet(c.callIds)|
    && ToSet(c.callIds) == CallIds(c.observations)
    && |c.callIds| == |c.observations|
    && !(c.observations != [] && (c.iterations == 0 || c.workflow == Null))
  }

  predicate ValidResume(h: Host, req: Request, c: Resume) {
    && Structural(h, req, c)
    && forall o :: o in c.observations ==> SafeObservation(h, o) && h.stillAllowed(o)
  }

  // ----- The loop's state and what one iteration does to it -----

  datatype Loop = Loop(
    iterations: nat, toolCalls: nat, observations: seq<Observation>, callIds: set<string>,
    workflow: Workflow, safe: bool, pending: Option<nat>, stopped: bool)

  function Begin(req: Request): Loop {
    if req.resume.None? then Loop(0, 0, [], {}, Null, true, None, false)
    else
      var c := req.resume.value;
      Loop(c.iterations, c.toolCalls, c.observations, ToSet(c.callIds), c.workflow, true, None, false)
  }

  /** What a handler or a denial reported for one call. */
  datatype Answer = Answer(identity: Option<string>, status: Status, clean: bool)

  /** How an iteration goes on: no frame (the grant or the prompt failed), an end after the frame (a
      final decision, or the workflow or its review failed), or a batch of calls. */
  datatype Course = NoFrame | Ends | Calls

  /** The environment's part in one iteration. `granted` and `slots` are the shared pool's answers;
      `overhead` is the size of what is stored around the checkpoint. */
  datatype Turn = Turn(
    granted: bool, course: Course, prompt: string, route: Option<string>, overhead: nat,
    workflow: Workflow, intents: seq<Intent>, slots: nat, answers: seq<Answer>)
  {
    ghost predicate Answered() { |answers| == |intents| }
  }

  function FirstIteration(req: Request): nat { Begin(req).iterations + 1 }

  /** A resumed run stops unless its first frame has the route and the prompt it was saved with. */
  predicate FrameAccepted(req: Request, iteration: nat, t: Turn) {
    !t.course.NoFrame? && (req.resume.Some? && iteration == FirstIteration(req) ==>
      t.route == Some(req.resume.value.route) && t.prompt == req.resume.value.prompt)
  }

  /** The iteration count a checkpoint at this frame is saved with, if one is due. */
  function Due(req: Request, l: Loop, iteration: nat, t: Turn): Option<nat> {
    if t.route.None? then None
    else if iteration == 1 && req.resume.None? then Some(0)
    else l.pending
  }

  function Saved(req: Request, l: Loop, iterations: nat, t: Turn, ids: seq<string>): Resume
    requires t.route.Some?
  {
    Resume(req.runId, l.workflow, l.observations, iterations, l.toolCalls, ids, t.prompt, t.route.value)
  }

  predicate Fits(h: Host, l: Loop, t: Turn, c: Resume) {
    && |l.observations| <= 1024 && |l.callIds| <= 1024
    && !HasCredentials(l.workflow)
    && h.size(c) + t.overhead <= h.limit
  }

  /** The state is published as checkpoint c when this iteration's frame is ready. */
  ghost predicate Publishes(h: Host, req: Request, l: Loop, t: Turn, c: Resume) {
    && t.granted && FrameAccepted(req, l.iterations + 1, t)
    && Due(req, l, l.iterations + 1, t).Some?
    && Ascending(c.callIds) && ToSet(c.callIds) == l.callIds
    && c == Saved(req, l, Due(req, l, l.iterations + 1, t).value, t, c.callIds)
    && Fits(h, l, t, c)
  }

  /** How many calls of the batch run: within the run's own budget and what the pool gave. */
  function Allotted(budget: nat, used: nat, t: Turn): (n: nat)
    ensures n <= |t.intents|
    ensures used <= budget ==> used + n <= budget
  {
    var remaining := if used <= budget then budget - used else 0;
    var asked := if remaining < |t.intents| then remaining else |t.intents|;
    if t.slots < asked then t.slots else asked
  }

  function IdsOf(calls: seq<Intent>): set<string> { set i | i in calls :: i.callId }

  /** A call is flagged when its id was used before, in this run or earlier in the batch. */
  function Flag(used: set<string>, calls: seq<Intent>, k: nat): bool
    requires k < |calls|
  {
    calls[k].callId in used + IdsOf(calls[..k])
  }

  /** A resumed run lets only the trusted read tools through. */
  predicate Barred(h: Host, resumed: bool, i: Intent) {
    resumed && !(i.tool in h.registry && h.registry[i.tool].resumable)
  }

  predicate Refused(h: Host, resumed: bool, used: set<string>, calls: seq<Intent>, k: nat)
    requires k < |calls|
  {
    Flag(used, calls, k) || Barred(h, resumed, calls[k])
  }

  /** Refused calls never reach a handler: the runner answers them itself. */
  function Observe(i: Intent, refused: bool, a: Answer): Observation {
    Observation(i.callId, i.tool, a.identity, if refused && a.status == Succeeded then Denied else a.status, a.clean)
  }

  function Batch(h: Host, resumed: bool, used: set<string>, calls: seq<Intent>,
                 answers: seq<Answer>): (os: seq<Observation>)
    requires |calls| <= |answers|
    ensures |os| == |calls|
    ensures forall k :: 0 <= k < |calls| ==> os[k] == Observe(calls[k], Refused(h, resumed, used, calls, k), answers[k])
  {
    seq(|calls|, k requires 0 <= k < |calls| => Observe(calls[k], Refused(h, resumed, used, calls, k), answers[k]))
  }

  function Overflow(i: Intent): Observation {
    Observation(i.callId, i.tool, None, OverBudget, true)
  }

  function Overflows(calls: seq<Intent>): (os: seq<Observation>) {
    seq(|calls|, k requires 0 <= k < |calls| => Overflow(calls[k]))
  }

  predicate CleanIntent(i: Intent) { i.token.None? && !i.credentials }

  /** The state fields a batch updates, whether it leaves the run fit for a checkpoint, and whether
      it asked for more than was left. */
  datatype Done = Done(toolCalls: nat, observations: seq<Observation>, callIds: set<string>, safe: bool, over: bool)

  function RunBatch(h: Host, resumed: bool, budget: nat, d: Done, t: Turn): Done
    requires t.Answered()
  {
    var n := Allotted(budget, d.toolCalls, t);
    var (calls, rest) := (t.intents[..n], t.intents[n..]);
    var os := Batch(h, resumed, d.callIds, calls, t.answers);
    Done(d.toolCalls + n, d.observations + os + Overflows(rest), d.callIds + IdsOf(calls),
         d.safe && rest == [] && (forall o :: o in os ==> SafeObservation(h, o))
         && (forall i :: i in calls ==> CleanIntent(i)),
         rest != [])
  }

  function Iterate(h: Host, req: Request, l: Loop, t: Turn): Loop
    requires t.Answered()
  {
    if !t.granted then l.(stopped := true)
    else if !FrameAccepted(req, l.iterations + 1, t) then
      l.(iterations := l.iterations + 1, stopped := true)
    else if t.course.Ends? then
      l.(iterations := l.iterations + 1, pending := None, stopped := true)
    else
      var d := RunBatch(h, req.resume.Some?, req.maxToolCalls,
          Done(l.toolCalls, l.observations, l.callIds, l.safe, false), t);
      Loop(l.iterations + 1, d.toolCalls, d.observations, d.callIds, t.workflow, d.safe,
           if d.safe then Some(l.iterations + 1) else None, d.over)
  }

  predicate Continues(req: Request, l: Loop) {
    !l.stopped && l.iterations < req.maxIterations
  }

  ghost predicate AllAnswered(turns: seq<Turn>) {
    forall k :: 0 <= k < |turns| ==> turns[k].Answered()
  }

  /** The state after a run has gone through these iterations (it may have ended earlier). */
  function After(h: Host, req: Request, l: Loop, turns: seq<Turn>): Loop
    requires AllAnswered(turns)
    decreases |turns|
  {
    if turns == [] || !Continues(req, l) then l
    else After(h, req, Iterate(h, req, l, turns[0]), turns[1..])
  }
}

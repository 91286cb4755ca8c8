/** What an iteration of the loop does, stated on the turn and the state it leaves, and what that
    means for whole runs: which frames are accepted, what is recorded, and when a checkpoint is due. */
module RunLoopLaws {
  import opened Base
  import opened Orders
  import opened ToolCalls
  import opened RunLoop
  import opened RunCheckpoints

  function StartCount(req: Request): nat {
    if req.resume.None? then 0 else req.resume.value.iterations
  }

  /** The turn gets as far as the workflow: the pool granted it, a frame was built and, if it is the
      first of a resumed run, it has the saved route and prompt. */
  ghost predicate Proceeds(req: Request, l: Loop, t: Turn) {
    && t.granted && t.course != NoFrame
    && (req.resume.Some? && l.iterations == req.resume.value.iterations ==>
          t.route == Some(req.resume.value.route) && t.prompt == req.resume.value.prompt)
  }

  // ----- What a batch records -----

  /** Call k repeats an id of the run or of an earlier call in the batch. */
  ghost predicate Repeats(used: set<string>, calls: seq<Intent>, k: nat)
    requires k < |calls|
  {
    calls[k].callId in used || exists j :: 0 <= j < k && calls[j].callId == calls[k].callId
  }

  ghost predicate Trusted(h: Host, tool: string) {
    tool in h.registry && h.registry[tool].resumable
  }

  /** The observation of the k-th call, of which n were let through. */
  ghost predicate Reports(h: Host, resumed: bool, used: set<string>, t: Turn, n: nat, k: nat, o: Observation)
    requires t.Answered() && k < |t.intents|
  {
    && o.callId == t.intents[k].callId && o.tool == t.intents[k].tool
    && if k >= n then o.status == OverBudget && o.identity == None && o.clean
       else && o.identity == t.answers[k].identity && o.clean == t.answers[k].clean
            && (o.status == Succeeded <==>
                  && t.answers[k].status == Succeeded && !Repeats(used, t.intents, k)
                  && (resumed ==> Trusted(h, t.intents[k].tool)))
            && (t.answers[k].status != Succeeded ==> o.status == t.answers[k].status)
            && (o.status != t.answers[k].status ==> o.status == Denied)
  }

  /** Nothing about the k-th call stands in the way of a checkpoint. */
  ghost predicate Harmless(h: Host, i: Intent, o: Observation) {
    && o.status == Succeeded && o.clean && Trusted(h, o.tool)
    && o.identity == Some(h.registry[o.tool].identity)
    && i.token == None && !i.credentials
  }

  /** n is the most that the batch, the pool and the run's own budget allow. */
  ghost predicate MostAllowed(req: Request, used: nat, t: Turn, n: nat) {
    && n <= |t.intents| && n <= t.slots && (used + n <= req.maxToolCalls || n == 0)
    && (n == |t.intents| || n == t.slots || used + n >= req.maxToolCalls)
  }

  /** The batch's observations, one per call and in order. */
  ghost predicate AllReported(h: Host, resumed: bool, used: set<string>, t: Turn, n: nat, os: seq<Observation>)
    requires t.Answered()
  {
    |os| == |t.intents| && forall k :: 0 <= k < |os| ==> Reports(h, resumed, used, t, n, k, os[k])
  }

  ghost predicate AllHarmless(h: Host, calls: seq<Intent>, os: seq<Observation>) {
    |calls| == |os| && forall k :: 0 <= k < |calls| ==> Harmless(h, calls[k], os[k])
  }

  ghost predicate IdsAdded(used: set<string>, calls: seq<Intent>, used': set<string>) {
    forall id :: id in used' <==> id in used || exists k :: 0 <= k < |calls| && calls[k].callId == id
  }

  /** The state after a batch: n calls let through, all reported, and whether it is fit for a checkpoint. */
  ghost predicate Recorded(h: Host, req: Request, l: Loop, t: Turn, l': Loop)
    requires t.Answered()
  {
    && l.toolCalls <= l'.toolCalls && l.observations <= l'.observations
    && var (n, os) := (l'.toolCalls - l.toolCalls, l'.observations[|l.observations|..]);
       && MostAllowed(req, l.toolCalls, t, n)
       && AllReported(h, req.resume.Some?, l.callIds, t, n, os)
       && IdsAdded(l.callIds, t.intents[..n], l'.callIds)
       && l'.iterations == l.iterations + 1 && l'.workflow == t.workflow
       && (l'.stopped <==> n < |t.intents|)
       && (l'.safe <==> l.safe && n == |t.intents| && AllHarmless(h, t.intents, os))
       && l'.pending == if l'.safe then Some(l'.iterations) else None
  }

  lemma {:induction false} BatchReports(h: Host, resumed: bool, used: set<string>, t: Turn, n: nat, k: nat)
    requires t.Answered() && k < n <= |t.intents|
    ensures Reports(h, resumed, used, t, n, k, Batch(h, resumed, used, t.intents[..n], t.answers)[k])
  {
    var calls := t.intents[..n];
    assert calls[..k] == t.intents[..k];
    assert Flag(used, calls, k) <==> Repeats(used, t.intents, k) by {
      if Repeats(used, t.intents, k) && calls[k].callId !in used {
        var j :| 0 <= j < k && t.intents[j].callId == t.intents[k].callId;
        assert calls[..k][j] in calls[..k];
      }
    }
  }

  lemma {:induction false} IdsAddedBy(used: set<string>, calls: seq<Intent>)
    ensures IdsAdded(used, calls, used + IdsOf(calls))
  {
    forall id | exists k :: 0 <= k < |calls| && calls[k].callId == id ensures id in IdsOf(calls) {
      var k :| 0 <= k < |calls| && calls[k].callId == id;
      assert calls[k] in calls;
    }
  }

  lemma {:induction false} HarmlessBatch(h: Host, calls: seq<Intent>, os: seq<Observation>)
    requires |calls| == |os|
    ensures (forall o :: o in os ==> SafeObservation(h, o)) && (forall i :: i in calls ==> CleanIntent(i)) <==>
            AllHarmless(h, calls, os)
  {
    if (forall o :: o in os ==> SafeObservation(h, o)) && (forall i :: i in calls ==> CleanIntent(i)) {
      forall k | 0 <= k < |calls| ensures Harmless(h, calls[k], os[k]) {
        assert os[k] in os && calls[k] in calls;
      }
    }
    if AllHarmless(h, calls, os) {
      forall o | o in os ensures SafeObservation(h, o) {
        var k :| 0 <= k < |os| && os[k] == o;
        assert Harmless(h, calls[k], os[k]);
      }
      forall i | i in calls ensures CleanIntent(i) {
        var k :| 0 <= k < |calls| && calls[k] == i;
        assert Harmless(h, calls[k], os[k]);
      }
    }
  }

  lemma {:induction false} BatchAllReported(h: Host, resumed: bool, used: set<string>, t: Turn, n: nat)
    requires t.Answered() && n <= |t.intents|
    ensures AllReported(h, resumed, used, t, n,
                        Batch(h, resumed, used, t.intents[..n], t.answers) + Overflows(t.intents[n..]))
  {
    var (os, rest) := (Batch(h, resumed, used, t.intents[..n], t.answers), Overflows(t.intents[n..]));
    forall k | 0 <= k < |t.intents| ensures Reports(h, resumed, used, t, n, k, (os + rest)[k]) {
      if k < n {
        BatchReports(h, resumed, used, t, n, k);
      } else {
        assert (os + rest)[k] == rest[k - n];
      }
    }
  }

  /** A turn that runs its calls updates the state by the batch's result. */
  lemma {:induction false} IterateCalls(h: Host, req: Request, l: Loop, t: Turn, d: Done)
    requires t.Answered() && Proceeds(req, l, t) && t.course.Calls?
    requires d == RunBatch(h, req.resume.Some?, req.maxToolCalls,
                           Done(l.toolCalls, l.observations, l.callIds, l.safe, false), t)
    ensures Iterate(h, req, l, t) == Loop(l.iterations + 1, d.toolCalls, d.observations, d.callIds, t.workflow,
                                          d.safe, if d.safe then Some(l.iterations + 1) else None, d.over)
  {
  }

  lemma {:induction false} BatchSafe(h: Host, resumed: bool, budget: nat, d: Done, t: Turn, n: nat,
                                     os: seq<Observation>)
    requires t.Answered() && n == Allotted(budget, d.toolCalls, t)
    requires os == Batch(h, resumed, d.callIds, t.intents[..n], t.answers) + Overflows(t.intents[n..])
    ensures RunBatch(h, resumed, budget, d, t).safe <==>
            d.safe && n == |t.intents| && AllHarmless(h, t.intents, os)
  {
    var part := Batch(h, resumed, d.callIds, t.intents[..n], t.answers);
    HarmlessBatch(h, t.intents[..n], part);
    if n == |t.intents| {
      assert t.intents[..n] == t.intents && os == part;
    }
  }

  lemma {:induction false} Suffix(a: seq<Observation>, b: seq<Observation>, c: seq<Observation>)
    ensures a <= a + b + c && (a + b + c)[|a|..] == b + c
  {
  }

  lemma {:induction false} BatchRecorded(h: Host, req: Request, l: Loop, t: Turn)
    requires t.Answered() && Proceeds(req, l, t) && t.course.Calls?
    ensures Recorded(h, req, l, t, Iterate(h, req, l, t))
  {
    var before := Done(l.toolCalls, l.observations, l.callIds, l.safe, false);
    var d := RunBatch(h, req.resume.Some?, req.maxToolCalls, before, t);
    IterateCalls(h, req, l, t, d);
    var n := Allotted(req.maxToolCalls, l.toolCalls, t);
    var (part, rest) := (Batch(h, req.resume.Some?, l.callIds, t.intents[..n], t.answers), Overflows(t.intents[n..]));
    Suffix(l.observations, part, rest);
    BatchAllReported(h, req.resume.Some?, l.callIds, t, n);
    BatchSafe(h, req.resume.Some?, req.maxToolCalls, before, t, n, part + rest);
    IdsAddedBy(l.callIds, t.intents[..n]);
  }

  /** What one iteration does, for every turn the environment may answer with. */
  lemma {:induction false} IteratesExactly(h: Host, req: Request, l: Loop, t: Turn)
    requires t.Answered()
    ensures var l' := Iterate(h, req, l, t);
            && (!t.granted ==> l' == l.(stopped := true))
            && (t.granted && !Proceeds(req, l, t) ==> l' == l.(iterations := l.iterations + 1, stopped := true))
            && (Proceeds(req, l, t) && t.course.Ends? ==>
                  l' == l.(iterations := l.iterations + 1, pending := None, stopped := true))
            && (Proceeds(req, l, t) && t.course.Calls? ==> Recorded(h, req, l, t, l'))
  {
    if Proceeds(req, l, t) && t.course.Calls? {
      BatchRecorded(h, req, l, t);
    }
  }

  // ----- The first frame of a resumed run -----

  /** A resumed run whose first frame has another route or prompt ends there: nothing is called,
      recorded or published after what it inherited. With both equal it goes on. */
  lemma {:induction false} ResumedFirstFrame(h: Host, req: Request, c: Resume, turns: seq<Turn>)
    requires req.resume == Some(c) && c.iterations < req.maxIterations
    requires AllAnswered(turns) && turns != [] && turns[0].granted && turns[0].course != NoFrame
    ensures var t := turns[0];
            var l := After(h, req, Begin(req), turns);
            if t.route != Some(c.route) || t.prompt != c.prompt then
              && l == Begin(req).(iterations := c.iterations + 1, stopped := true)
              && l.toolCalls == c.toolCalls && l.observations == c.observations && l.workflow == c.workflow
              && l.callIds == ToSet(c.callIds)
              && forall p :: !Publishes(h, req, Begin(req), t, p)
            else if t.course.Ends? then
              l == Begin(req).(iterations := c.iterations + 1, stopped := true)
            else
              && Recorded(h, req, Begin(req), t, After(h, req, Begin(req), turns[..1]))
              && l == After(h, req, After(h, req, Begin(req), turns[..1]), turns[1..])
  {
    var (b, t) := (Begin(req), turns[0]);
    var l1 := Iterate(h, req, b, t);
    IteratesExactly(h, req, b, t);
    assert Continues(req, b);
    assert turns[..1][1..] == [] && After(h, req, l1, []) == l1;
    assert turns[..1][0] == t && After(h, req, b, turns[..1]) == l1;
    if !Proceeds(req, b, t) || t.course.Ends? {
      assert !Continues(req, l1) && After(h, req, l1, turns[1..]) == l1;
    }
  }

  // ----- Checkpoints are published exactly when due -----

  /** Between iterations, a checkpoint is pending exactly when this run has made a batch and every
      batch so far left it safe. */
  ghost predicate PendingIsSafe(req: Request, l: Loop) {
    && StartCount(req) <= l.iterations
    && (!l.stopped ==> l.pending == if l.safe && l.iterations > StartCount(req) then Some(l.iterations) else None)
  }

  lemma {:induction false} PendingKept(h: Host, req: Request, l: Loop, turns: seq<Turn>)
    requires AllAnswered(turns) && PendingIsSafe(req, l)
    ensures PendingIsSafe(req, After(h, req, l, turns))
    decreases |turns|
  {
    if turns != [] && Continues(req, l) {
      IteratesExactly(h, req, l, turns[0]);
      PendingKept(h, req, Iterate(h, req, l, turns[0]), turns[1..]);
    }
  }

  /** A run still going publishes its state, as it is, exactly when the frame is its very first or
      follows batches that were all safe, the workflow can be resumed there, and the checkpoint fits
      and holds no credentials. */
  lemma {:induction false} PublishesExactly(h: Host, req: Request, turns: seq<Turn>, t: Turn, c: Resume)
    requires AllAnswered(turns) && Continues(req, After(h, req, Begin(req), turns))
    ensures var l := After(h, req, Begin(req), turns);
            Publishes(h, req, l, t, c) <==>
            && Proceeds(req, l, t) && t.route == Some(c.route) && c.prompt == t.prompt
            && (if l.iterations == StartCount(req) then l.iterations == 0 && req.resume.None? else l.safe)
            && c.sourceRun == req.runId && c.workflow == l.workflow && c.observations == l.observations
            && c.iterations == l.iterations && c.toolCalls == l.toolCalls
            && Ascending(c.callIds) && (forall id :: id in c.callIds <==> id in l.callIds)
            && |c.observations| <= 1024 && |l.callIds| <= 1024
            && !(c.workflow.Value? && c.workflow.credentials)
            && h.size(c) + t.overhead <= h.limit
  {
    PendingKept(h, req, Begin(req), turns);
  }

  // ----- What a whole run records -----

  /** The calls a turn lets through, in order. */
  ghost function Passed(h: Host, req: Request, l: Loop, t: Turn): seq<Intent>
    requires t.Answered()
  {
    if Proceeds(req, l, t) && t.course.Calls? then
      BatchRecorded(h, req, l, t);
      t.intents[..Iterate(h, req, l, t).toolCalls - l.toolCalls]
    else []
  }

  ghost function CallsMade(h: Host, req: Request, l: Loop, turns: seq<Turn>): seq<Intent>
    requires AllAnswered(turns)
    decreases |turns|
  {
    if turns == [] || !Continues(req, l) then []
    else Passed(h, req, l, turns[0]) + CallsMade(h, req, Iterate(h, req, l, turns[0]), turns[1..])
  }

  /** The observations report these calls, one each and in order, before any refused for the budget. */
  ghost predicate Matches(calls: seq<Intent>, os: seq<Observation>) {
    |calls| <= |os| && forall k :: 0 <= k < |calls| ==> os[k].callId == calls[k].callId && os[k].tool == calls[k].tool
  }

  lemma {:induction false} MatchesJoin(h: Host, a: seq<Intent>, b: seq<Intent>, p: seq<Observation>,
                                       q: seq<Observation>)
    requires Matches(a, p) && Matches(b, q) && |a| == |p|
    ensures Matches(a + b, p + q)
    ensures AllHarmless(h, a + b, p + q) <==> AllHarmless(h, a, p) && AllHarmless(h, b, q)
  {
    if AllHarmless(h, a + b, p + q) {
      forall k | 0 <= k < |a| ensures Harmless(h, a[k], p[k]) {
        assert (a + b)[k] == a[k] && (p + q)[k] == p[k];
      }
      forall k | 0 <= k < |b| ensures Harmless(h, b[k], q[k]) {
        assert (a + b)[|a| + k] == b[k] && (p + q)[|a| + k] == q[k];
      }
    }
  }

  /** How a state has grown: by these calls and the observations after the ones it had. */
  ghost predicate Grown(h: Host, l: Loop, calls: seq<Intent>, l': Loop) {
    && l'.toolCalls == l.toolCalls + |calls|
    && l.observations <= l'.observations
    && var os := l'.observations[|l.observations|..];
       && Matches(calls, os)
       && (l'.safe <==> l.safe && AllHarmless(h, calls, os))
  }

  lemma {:induction false} BatchGrows(h: Host, req: Request, l: Loop, t: Turn, l': Loop)
    requires t.Answered() && Recorded(h, req, l, t, l')
    ensures Grown(h, l, t.intents[..l'.toolCalls - l.toolCalls], l')
  {
    var (n, os) := (l'.toolCalls - l.toolCalls, l'.observations[|l.observations|..]);
    forall k | 0 <= k < n ensures os[k].callId == t.intents[k].callId && os[k].tool == t.intents[k].tool {
      assert Reports(h, req.resume.Some?, l.callIds, t, n, k, os[k]);
    }
    if n == |t.intents| {
      assert t.intents[..n] == t.intents;
    }
  }

  lemma {:induction false} TurnGrows(h: Host, req: Request, l: Loop, t: Turn)
    requires t.Answered()
    ensures var l' := Iterate(h, req, l, t);
            && Grown(h, l, Passed(h, req, l, t), l')
            && (!l'.stopped ==> |l'.observations| == |l.observations| + |Passed(h, req, l, t)|)
  {
    IteratesExactly(h, req, l, t);
    if Proceeds(req, l, t) && t.course.Calls? {
      BatchGrows(h, req, l, t, Iterate(h, req, l, t));
    }
  }

  lemma {:induction false} GrownTwice(h: Host, l: Loop, a: seq<Intent>, m: Loop, b: seq<Intent>, l': Loop)
    requires Grown(h, l, a, m) && Grown(h, m, b, l') && |m.observations| == |l.observations| + |a|
    ensures Grown(h, l, a + b, l')
  {
    var p, q := m.observations[|l.observations|..], l'.observations[|m.observations|..];
    assert l'.observations[|l.observations|..] == p + q;
    MatchesJoin(h, a, b, p, q);
  }

  /** Over any run: each call let through is counted and reported once and in order after what was
      there before, and the run is fit for a checkpoint exactly when every one of its calls, and so
      far every earlier one, was a clean success of a trusted tool without credentials. */
  lemma {:induction false} RunRecords(h: Host, req: Request, l: Loop, turns: seq<Turn>)
    requires AllAnswered(turns)
    ensures Grown(h, l, CallsMade(h, req, l, turns), After(h, req, l, turns))
    decreases |turns|
  {
    if turns != [] && Continues(req, l) {
      var m := Iterate(h, req, l, turns[0]);
      TurnGrows(h, req, l, turns[0]);
      RunRecords(h, req, m, turns[1..]);
      if m.stopped {
        assert CallsMade(h, req, m, turns[1..]) == [];
      } else {
        GrownTwice(h, l, Passed(h, req, l, turns[0]), m, CallsMade(h, req, m, turns[1..]), After(h, req, l, turns));
      }
    }
  }

  /** The same for a whole run: what it inherited stays in front, each call it lets through follows, and it
      is fit for a checkpoint exactly while all of those were harmless. */
  lemma {:induction false} WholeRunRecords(h: Host, req: Request, turns: seq<Turn>)
    requires AllAnswered(turns)
    ensures var l := After(h, req, Begin(req), turns);
            var inherited := if req.resume.None? then [] else req.resume.value.observations;
            var used := if req.resume.None? then 0 else req.resume.value.toolCalls;
            var calls := CallsMade(h, req, Begin(req), turns);
            && l.toolCalls == used + |calls| && inherited <= l.observations
            && Matches(calls, l.observations[|inherited|..])
            && (l.safe <==> AllHarmless(h, calls, l.observations[|inherited|..]))
  {
    RunRecords(h, req, Begin(req), turns);
  }

  // ----- Which checkpoints a run may resume -----

  /** An observation of an earlier run that a resumed one may build on. */
  ghost predicate Reusable(h: Host, o: Observation) {
    && o.status == Succeeded && o.clean && Trusted(h, o.tool)
    && o.identity == Some(h.registry[o.tool].identity) && h.stillAllowed(o)
  }

  /** Each of these ids once, and no other. */
  ghost predicate Enumerates(ids: seq<string>, os: seq<Observation>) {
    Distinct(ids) && forall id :: id in ids <==> exists i :: 0 <= i < |os| && os[i].callId == id
  }

  ghost predicate MayResume(h: Host, req: Request, c: Resume) {
    && req.readOnly && req.runId != c.sourceRun
    && c.iterations < req.maxIterations && c.toolCalls == |c.observations| <= req.maxToolCalls
    && h.size(c) <= h.limit && !(c.workflow.Value? && c.workflow.credentials)
    && DistinctCalls(c.observations) && Enumerates(c.callIds, c.observations)
    && (c.observations != [] ==> c.iterations > 0 && c.workflow != Null)
    && forall i :: 0 <= i < |c.observations| ==> Reusable(h, c.observations[i])
  }

  lemma {:induction false} NamesDistinct(os: seq<Observation>)
    ensures Distinct(Names(os)) <==> DistinctCalls(os)
  {
    var names := Names(os);
    assert forall k :: 0 <= k < |os| ==> names[k] == os[k].callId;
    if Distinct(names) {
      forall i, j | 0 <= i < j < |os| ensures os[i].callId != os[j].callId {
        assert names[i] != names[j];
      }
    }
  }

  lemma {:induction false} IdIsObserved(os: seq<Observation>, id: string)
    ensures id in CallIds(os) <==> exists i :: 0 <= i < |os| && os[i].callId == id
  {
    if i :| 0 <= i < |os| && os[i].callId == id {
      assert os[i] in os;
    }
  }

  lemma {:induction false} SameIds(ids: seq<string>, os: seq<Observation>)
    ensures ToSet(ids) == CallIds(os) <==>
            forall id :: id in ids <==> exists i :: 0 <= i < |os| && os[i].callId == id
  {
    forall id ensures id in CallIds(os) <==> exists i :: 0 <= i < |os| && os[i].callId == id {
      IdIsObserved(os, id);
    }
    if ToSet(ids) == CallIds(os) {
      assert forall id :: id in ids <==> id in ToSet(ids);
    }
  }

  lemma {:induction false} EnumeratesExactly(ids: seq<string>, os: seq<Observation>)
    ensures (|ids| == |ToSet(ids)| && ToSet(ids) == CallIds(os) && |ids| == |os|) <==>
            (DistinctCalls(os) && Enumerates(ids, os))
  {
    NamesCover(os);
    NamesDistinct(os);
    SameIds(ids, os);
    if |ids| == |ToSet(ids)| {
      SizeDistinct(ids);
    }
    if Distinct(ids) {
      DistinctSize(ids);
    }
    if |os| == |CallIds(os)| {
      SizeDistinct(Names(os));
    }
    if DistinctCalls(os) {
      DistinctSize(Names(os));
    }
  }

  /** A checkpoint is resumed exactly when the run is a new read-only one with budget left, the checkpoint
      is small and holds no credentials, its observations have distinct call ids and those are the ids it
      lists, it left a workflow state if it observed anything, and every observation is reusable. */
  lemma {:induction false} ResumesExactly(h: Host, req: Request, c: Resume)
    ensures ValidResume(h, req, c) <==> MayResume(h, req, c)
  {
    EnumeratesExactly(c.callIds, c.observations);
    if MayResume(h, req, c) {
      forall o | o in c.observations ensures SafeObservation(h, o) && h.stillAllowed(o) {
        var i :| 0 <= i < |c.observations| && c.observations[i] == o;
        assert Reusable(h, c.observations[i]);
      }
    }
    if ValidResume(h, req, c) {
      forall i | 0 <= i < |c.observations| ensures Reusable(h, c.observations[i]) {
        assert c.observations[i] in c.observations;
      }
    }
  }
}

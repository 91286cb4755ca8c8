/** Every checkpoint the loop publishes can be resumed, and the resumed run continues the same run. */
module RunCheckpoints {
  import opened Base
  import opened Orders
  import opened ToolCalls
  import opened RunLoop

  // ----- What a run keeps -----

  ghost predicate DistinctCalls(os: seq<Observation>) {
    forall i, j :: 0 <= i < j < |os| ==> os[i].callId != os[j].callId
  }

  /** Nothing in the state stands in the way of a checkpoint. */
  ghost predicate Resumable(h: Host, l: Loop) {
    && l.toolCalls == |l.observations|
    && l.callIds == CallIds(l.observations)
    && DistinctCalls(l.observations)
    && (forall o :: o in l.observations ==> SafeObservation(h, o))
    && (l.observations != [] ==> l.iterations > 0)
  }

  ghost predicate Inv(h: Host, req: Request, l: Loop) {
    && l.iterations <= req.maxIterations
    && l.toolCalls <= req.maxToolCalls
    && (l.safe ==> Resumable(h, l))
    && (l.pending.Some? && !l.stopped ==> l.safe && l.pending.value == l.iterations)
    && (l.iterations == 0 ==> l.safe)
  }

  /** A request that the runner lets into the loop. */
  ghost predicate Admitted(h: Host, req: Request) {
    req.resume.Some? ==> ValidResume(h, req, req.resume.value)
  }

  function Names(os: seq<Observation>): (ids: seq<string>)
    ensures |ids| == |os| && forall k :: 0 <= k < |os| ==> ids[k] == os[k].callId
  {
    seq(|os|, k requires 0 <= k < |os| => os[k].callId)
  }

  lemma {:induction false} NamesCover(os: seq<Observation>)
    ensures ToSet(Names(os)) == CallIds(os)
  {
    forall x | x in CallIds(os) ensures x in ToSet(Names(os)) {
      var k :| 0 <= k < |os| && os[k].callId == x;
      assert Names(os)[k] == x;
    }
  }

  /** The counts in a valid checkpoint say that its observations have distinct call ids. */
  lemma {:induction false} ValidIsResumable(h: Host, req: Request)
    requires Admitted(h, req)
    ensures Inv(h, req, Begin(req))
  {
    if req.resume.Some? {
      var c := req.resume.value;
      NamesCover(c.observations);
      SizeDistinct(Names(c.observations));
      assert forall k :: 0 <= k < |c.observations| ==> Names(c.observations)[k] == c.observations[k].callId;
    }
  }

  lemma {:induction false} BatchIds(h: Host, resumed: bool, used: set<string>, calls: seq<Intent>,
                                    answers: seq<Answer>)
    requires |calls| <= |answers|
    ensures CallIds(Batch(h, resumed, used, calls, answers)) == IdsOf(calls)
  {
    var os := Batch(h, resumed, used, calls, answers);
    forall x | x in IdsOf(calls) ensures x in CallIds(os) {
      var k :| 0 <= k < |calls| && calls[k].callId == x;
      assert os[k].callId == x;
    }
    forall x | x in CallIds(os) ensures x in IdsOf(calls) {
      var k :| 0 <= k < |os| && os[k].callId == x;
      assert calls[k].callId == x;
    }
  }

  /** A safe batch had no flagged call, so its ids are new and distinct. */
  lemma {:induction false} SafeBatchIsNew(h: Host, resumed: bool, used: set<string>, calls: seq<Intent>,
                                          answers: seq<Answer>)
    requires |calls| <= |answers|
    requires forall o :: o in Batch(h, resumed, used, calls, answers) ==> SafeObservation(h, o)
    ensures DistinctCalls(Batch(h, resumed, used, calls, answers))
    ensures forall o :: o in Batch(h, resumed, used, calls, answers) ==> o.callId !in used
  {
    var os := Batch(h, resumed, used, calls, answers);
    forall k | 0 <= k < |calls| ensures !Refused(h, resumed, used, calls, k) && os[k].callId == calls[k].callId {
      assert os[k] in os;
    }
    forall i, j | 0 <= i < j < |os| ensures os[i].callId != os[j].callId {
      assert calls[i] in calls[..j];
      assert !Refused(h, resumed, used, calls, j);
    }
  }

  lemma {:induction false} JoinCalls(a: seq<Observation>, b: seq<Observation>)
    requires DistinctCalls(a) && DistinctCalls(b)
    requires forall o :: o in b ==> o.callId !in CallIds(a)
    ensures DistinctCalls(a + b)
  {
    forall i, j | 0 <= i < j < |a + b| ensures (a + b)[i].callId != (a + b)[j].callId {
      if i < |a| <= j {
        assert a[i] in a && b[j - |a|] in b;
        assert a[i].callId in CallIds(a);
      }
    }
  }

  lemma {:induction false} JoinIds(a: seq<Observation>, b: seq<Observation>)
    ensures CallIds(a + b) == CallIds(a) + CallIds(b)
  {
  }

  lemma {:induction false} IterateKeeps(h: Host, req: Request, l: Loop, t: Turn)
    requires Inv(h, req, l) && Continues(req, l) && t.Answered()
    ensures Inv(h, req, Iterate(h, req, l, t))
  {
    var l' := Iterate(h, req, l, t);
    if l'.safe && t.granted && FrameAccepted(req, l.iterations + 1, t) && t.course.Calls? {
      var n := Allotted(req.maxToolCalls, l.toolCalls, t);
      var calls := t.intents[..n];
      var os := Batch(h, req.resume.Some?, l.callIds, calls, t.answers);
      assert l'.observations == l.observations + os;
      SafeBatchIsNew(h, req.resume.Some?, l.callIds, calls, t.answers);
      BatchIds(h, req.resume.Some?, l.callIds, calls, t.answers);
      JoinCalls(l.observations, os);
      JoinIds(l.observations, os);
    }
  }

  lemma {:induction false} RunKeeps(h: Host, req: Request, l: Loop, turns: seq<Turn>)
    requires Inv(h, req, l) && AllAnswered(turns)
    ensures Inv(h, req, After(h, req, l, turns))
    decreases |turns|
  {
    if turns != [] && Continues(req, l) {
      IterateKeeps(h, req, l, turns[0]);
      RunKeeps(h, req, Iterate(h, req, l, turns[0]), turns[1..]);
    }
  }

  // ----- Checkpoints -----

  /** A new read-only run that picks up checkpoint c with no less budget than the interrupted one. */
  ghost predicate PicksUp(next: Request, req: Request, c: Resume) {
    && next.resume == Some(c)
    && next.readOnly && next.runId != req.runId
    && next.maxIterations >= req.maxIterations && next.maxToolCalls >= req.maxToolCalls
  }

  lemma {:induction false} PublishedIsStructural(h: Host, req: Request, l: Loop, t: Turn, c: Resume, next: Request)
    requires Inv(h, req, l) && Continues(req, l) && Publishes(h, req, l, t, c) && PicksUp(next, req, c)
    ensures l.safe && c.iterations == l.iterations
    ensures Structural(h, next, c) <==> c.observations == [] || c.workflow != Null
  {
    AscendingIsDistinct(c.callIds);
    DistinctSize(c.callIds);
    NamesCover(c.observations);
    assert Distinct(Names(c.observations));
    DistinctSize(Names(c.observations));
  }

  /** A published checkpoint is accepted by a new run exactly when its observations are still allowed
      and either there are none or the workflow left a state; the new run then starts where the
      interrupted one was. */
  lemma {:induction false} CheckpointResumes(h: Host, req: Request, turns: seq<Turn>, t: Turn, c: Resume,
                                             next: Request)
    requires Admitted(h, req) && AllAnswered(turns)
    requires var l := After(h, req, Begin(req), turns); Continues(req, l) && Publishes(h, req, l, t, c)
    requires PicksUp(next, req, c)
    ensures ValidResume(h, next, c) <==>
            && (c.observations == [] || c.workflow != Null)
            && (forall o :: o in c.observations ==> h.stillAllowed(o))
    ensures var (l, l') := (After(h, req, Begin(req), turns), Begin(next));
            && l'.iterations == l.iterations && l'.toolCalls == l.toolCalls
            && l'.observations == l.observations && l'.callIds == l.callIds
            && l'.workflow == l.workflow
            && t.route == Some(c.route) && t.prompt == c.prompt
  {
    var l := After(h, req, Begin(req), turns);
    ValidIsResumable(h, req);
    RunKeeps(h, req, Begin(req), turns);
    PublishedIsStructural(h, req, l, t, c, next);
  }

  lemma {:induction false} BarredMatters(h: Host, used: set<string>, calls: seq<Intent>, answers: seq<Answer>, k: nat)
    requires k < |calls| <= |answers|
    ensures Batch(h, true, used, calls, answers)[k] == Batch(h, false, used, calls, answers)[k] <==>
            Flag(used, calls, k) || !Barred(h, true, calls[k]) || answers[k].status != Succeeded
  {
  }

  /** Every call of the batch that is new and succeeds is to a tool that resumed runs may use. */
  ghost predicate ToleratedBatch(h: Host, used: set<string>, calls: seq<Intent>, answers: seq<Answer>)
    requires |calls| <= |answers|
  {
    forall k :: 0 <= k < |calls| ==>
      Flag(used, calls, k) || !Barred(h, true, calls[k]) || answers[k].status != Succeeded
  }

  /** Exactly when one batch goes alike in a run and in its resumption. */
  lemma {:induction false} BatchesAgreeExactly(h: Host, used: set<string>, calls: seq<Intent>, answers: seq<Answer>)
    requires |calls| <= |answers|
    ensures Batch(h, true, used, calls, answers) == Batch(h, false, used, calls, answers) <==>
            ToleratedBatch(h, used, calls, answers)
  {
    forall k | 0 <= k < |calls|
      ensures Batch(h, true, used, calls, answers)[k] == Batch(h, false, used, calls, answers)[k] <==>
              Flag(used, calls, k) || !Barred(h, true, calls[k]) || answers[k].status != Succeeded
    {
      BarredMatters(h, used, calls, answers, k);
    }
  }

  /** The batch that an iteration runs, if it runs one, is tolerated. */
  ghost predicate ToleratedTurn(h: Host, req: Request, l: Loop, t: Turn)
    requires t.Answered()
  {
    t.granted && FrameAccepted(req, l.iterations + 1, t) && t.course.Calls? ==>
      ToleratedBatch(h, l.callIds, t.intents[..Allotted(req.maxToolCalls, l.toolCalls, t)], t.answers)
  }

  /** Every batch the run goes through is tolerated. */
  ghost predicate Tolerated(h: Host, req: Request, l: Loop, turns: seq<Turn>)
    requires AllAnswered(turns)
    decreases |turns|
  {
    turns == [] || !Continues(req, l) ||
    (ToleratedTurn(h, req, l, turns[0]) && Tolerated(h, req, Iterate(h, req, l, turns[0]), turns[1..]))
  }

  // ----- Observations are only ever appended, so a difference once made stays -----

  lemma {:induction false} ObservationsGrow(h: Host, req: Request, l: Loop, turns: seq<Turn>)
    requires AllAnswered(turns)
    ensures l.observations <= After(h, req, l, turns).observations
    decreases |turns|
  {
    if turns != [] && Continues(req, l) {
      ObservationsGrow(h, req, Iterate(h, req, l, turns[0]), turns[1..]);
    }
  }

  lemma {:induction false} PrefixesAgree(a: seq<Observation>, b: seq<Observation>, all: seq<Observation>, k: nat)
    requires a <= all && b <= all && k < |a| && k < |b|
    ensures a[k] == b[k]
  {
    assert a[k] == all[k] && b[k] == all[k];
  }

  lemma {:induction false} MiddleDiffers(a: seq<Observation>, p: seq<Observation>, q: seq<Observation>,
                                         rest: seq<Observation>, k: nat)
    requires |p| == |q| && k < |p| && p[k] != q[k]
    ensures (a + p + rest)[|a| + k] != (a + q + rest)[|a| + k]
  {
    assert (a + p + rest)[|a| + k] == p[k];
    assert (a + q + rest)[|a| + k] == q[k];
  }

  /** One batch, in a run and in its resumption: alike if tolerated, and otherwise they part. */
  lemma {:induction false} ToleratedIsAlike(h: Host, budget: nat, d: Done, t: Turn)
    requires t.Answered()
    requires ToleratedBatch(h, d.callIds, t.intents[..Allotted(budget, d.toolCalls, t)], t.answers)
    ensures RunBatch(h, false, budget, d, t) == RunBatch(h, true, budget, d, t)
  {
    BatchesAgreeExactly(h, d.callIds, t.intents[..Allotted(budget, d.toolCalls, t)], t.answers);
  }

  lemma {:induction false} OthersPart(h: Host, budget: nat, d: Done, t: Turn) returns (at: nat)
    requires t.Answered()
    requires !ToleratedBatch(h, d.callIds, t.intents[..Allotted(budget, d.toolCalls, t)], t.answers)
    ensures var (x, y) := (RunBatch(h, false, budget, d, t).observations, RunBatch(h, true, budget, d, t).observations);
            at < |x| && at < |y| && x[at] != y[at]
  {
    var n := Allotted(budget, d.toolCalls, t);
    var calls := t.intents[..n];
    var p, q := Batch(h, false, d.callIds, calls, t.answers), Batch(h, true, d.callIds, calls, t.answers);
    BatchesAgreeExactly(h, d.callIds, calls, t.answers);
    var k :| 0 <= k < |p| && p[k] != q[k];
    MiddleDiffers(d.observations, p, q, Overflows(t.intents[n..]), k);
    at := |d.observations| + k;
  }

  /** The two states differ at one observation. */
  ghost predicate Parted(a: Loop, b: Loop) {
    exists k :: 0 <= k < |a.observations| && k < |b.observations| && a.observations[k] != b.observations[k]
  }

  lemma {:induction false} PartedForGood(h: Host, req: Request, next: Request, a: Loop, b: Loop, turns: seq<Turn>)
    requires AllAnswered(turns) && Parted(a, b)
    ensures After(h, req, a, turns) != After(h, next, b, turns)
  {
    var k :| 0 <= k < |a.observations| && k < |b.observations| && a.observations[k] != b.observations[k];
    ObservationsGrow(h, req, a, turns);
    ObservationsGrow(h, next, b, turns);
    if After(h, req, a, turns) == After(h, next, b, turns) {
      PrefixesAgree(a.observations, b.observations, After(h, req, a, turns).observations, k);
    }
  }

  /** One accepted frame, in a run and in its resumption; they may differ in what checkpoint was due. */
  lemma {:induction false} SameIteration(h: Host, req: Request, next: Request, l: Loop, b: Loop, t: Turn)
    requires t.Answered() && t.granted && next.resume.Some? && req.maxToolCalls == next.maxToolCalls
    requires l.(pending := None) == b.(pending := None)
    requires FrameAccepted(req, l.iterations + 1, t) && FrameAccepted(next, l.iterations + 1, t)
    ensures var (x, y) := (Iterate(h, req, l, t), Iterate(h, next, b, t));
            if req.resume.Some? || ToleratedTurn(h, req, l, t) then x == y else Parted(x, y)
  {
    if t.course.Calls? && req.resume.None? {
      var d := Done(l.toolCalls, l.observations, l.callIds, l.safe, false);
      if ToleratedTurn(h, req, l, t) {
        ToleratedIsAlike(h, req.maxToolCalls, d, t);
      } else {
        var at := OthersPart(h, req.maxToolCalls, d, t);
        assert Iterate(h, req, l, t).observations[at] != Iterate(h, next, b, t).observations[at];
      }
    }
  }

  lemma {:induction false} SameTurn(h: Host, req: Request, next: Request, l: Loop, t: Turn)
    requires t.Answered() && next.resume.Some? && req.maxToolCalls == next.maxToolCalls
    requires FirstIteration(req) <= l.iterations && FirstIteration(next) <= l.iterations
    ensures var (x, y) := (Iterate(h, req, l, t), Iterate(h, next, l, t));
            if req.resume.Some? || ToleratedTurn(h, req, l, t) then x == y else Parted(x, y)
  {
    if t.granted && !t.course.NoFrame? {
      SameIteration(h, req, next, l, l, t);
    }
  }

  /** From one frame on, a run and its resumption with the same budget end in the same state if and
      only if every batch the run goes through is tolerated. */
  lemma {:induction false} SameFuture(h: Host, req: Request, next: Request, l: Loop, turns: seq<Turn>)
    requires AllAnswered(turns) && next.resume.Some?
    requires req.maxIterations == next.maxIterations && req.maxToolCalls == next.maxToolCalls
    requires FirstIteration(req) <= l.iterations && FirstIteration(next) <= l.iterations
    ensures After(h, req, l, turns) == After(h, next, l, turns) <==> req.resume.Some? || Tolerated(h, req, l, turns)
    decreases |turns|, 1
  {
    if turns != [] && Continues(req, l) {
      SameTurn(h, req, next, l, turns[0]);
      SameRest(h, req, next, l, l, turns);
    }
  }

  lemma {:induction false} NeverBackwards(h: Host, req: Request, l: Loop, turns: seq<Turn>)
    requires AllAnswered(turns)
    ensures After(h, req, l, turns).iterations >= l.iterations
    decreases |turns|
  {
    if turns != [] && Continues(req, l) {
      NeverBackwards(h, req, Iterate(h, req, l, turns[0]), turns[1..]);
    }
  }

  /** The rest of two runs after their iterations went alike or parted. */
  lemma {:induction false} SameRest(h: Host, req: Request, next: Request, l: Loop, b: Loop, turns: seq<Turn>)
    requires AllAnswered(turns) && next.resume.Some? && turns != [] && Continues(req, l) && Continues(next, b)
    requires req.maxIterations == next.maxIterations && req.maxToolCalls == next.maxToolCalls
    requires Iterate(h, req, l, turns[0]).iterations >= FirstIteration(req)
             || Iterate(h, req, l, turns[0]).stopped
    requires Iterate(h, next, b, turns[0]).iterations >= FirstIteration(next)
             || Iterate(h, next, b, turns[0]).stopped
    requires var (x, y) := (Iterate(h, req, l, turns[0]), Iterate(h, next, b, turns[0]));
             if req.resume.Some? || ToleratedTurn(h, req, l, turns[0]) then x == y else Parted(x, y)
    ensures After(h, req, l, turns) == After(h, next, b, turns) <==> req.resume.Some? || Tolerated(h, req, l, turns)
    decreases |turns|, 0
  {
    var x, y := Iterate(h, req, l, turns[0]), Iterate(h, next, b, turns[0]);
    if x == y {
      if !x.stopped {
        SameFuture(h, req, next, x, turns[1..]);
      }
    } else {
      PartedForGood(h, req, next, x, y, turns[1..]);
    }
  }

  /** The resumed run is the interrupted run: given the same budget and the same environment from the
      saved frame on, both end in the same state if and only if the interrupted run was itself a
      resumption or no new call of a batch it goes through succeeds with a tool that resumed runs refuse. */
  lemma {:induction false} ResumedRunContinues(h: Host, req: Request, turns: seq<Turn>, c: Resume, next: Request,
                                               rest: seq<Turn>)
    requires Admitted(h, req) && AllAnswered(turns) && AllAnswered(rest) && rest != []
    requires var l := After(h, req, Begin(req), turns); Continues(req, l) && Publishes(h, req, l, rest[0], c)
    requires PicksUp(next, req, c)
    requires next.maxIterations == req.maxIterations && next.maxToolCalls == req.maxToolCalls
    ensures var l := After(h, req, Begin(req), turns);
            After(h, next, Begin(next), rest) == After(h, req, l, rest) <==>
            req.resume.Some? || Tolerated(h, req, l, rest)
  {
    var l := After(h, req, Begin(req), turns);
    ValidIsResumable(h, req);
    RunKeeps(h, req, Begin(req), turns);
    PublishedIsStructural(h, req, l, rest[0], c, next);
    NeverBackwards(h, req, Begin(req), turns);
    SameIteration(h, req, next, l, Begin(next), rest[0]);
    SameRest(h, req, next, l, Begin(next), rest);
  }
}

/** The runner's loop over a mutable run state, proved against the iteration function. */
module Runner {
  import opened Base
  import opened Orders
  import opened ToolCalls
  import opened RunLoop
  import RunCheckpoints

  lemma {:induction false} AfterSnoc(h: Host, req: Request, l: Loop, turns: seq<Turn>, t: Turn)
    requires AllAnswered(turns) && t.Answered() && AllAnswered(turns + [t])
    ensures var m := After(h, req, l, turns);
            After(h, req, l, turns + [t]) == if Continues(req, m) then Iterate(h, req, m, t) else m
    decreases |turns|
  {
    if turns == [] {
      assert (turns + [t])[1..] == [];
    } else if Continues(req, l) {
      assert (turns + [t])[1..] == turns[1..] + [t];
      AfterSnoc(h, req, Iterate(h, req, l, turns[0]), turns[1..], t);
    }
  }

  lemma {:induction false} AfterEnded(h: Host, req: Request, l: Loop, turns: seq<Turn>, k: nat)
    requires AllAnswered(turns) && k <= |turns| && !Continues(req, After(h, req, l, turns[..k]))
    ensures After(h, req, l, turns) == After(h, req, l, turns[..k])
    decreases |turns| - k
  {
    if k == |turns| {
      assert turns[..k] == turns;
    } else {
      TakeSnoc(turns, k);
      AfterSnoc(h, req, l, turns[..k], turns[k]);
      AfterEnded(h, req, l, turns, k + 1);
    }
  }

  lemma {:induction false} IdsSnoc(calls: seq<Intent>, k: nat)
    requires k < |calls|
    ensures IdsOf(calls[..k + 1]) == IdsOf(calls[..k]) + {calls[k].callId}
  {
    TakeSnoc(calls, k);
  }

  /** The frame published checkpoint p, or none because none was due or it did not fit. */
  ghost predicate Noted(h: Host, req: Request, l: Loop, t: Turn, p: Option<Resume>) {
    if p.Some? then Publishes(h, req, l, t, p.value)
    else
      var due := Due(req, l, l.iterations + 1, t);
      || !t.granted || !FrameAccepted(req, l.iterations + 1, t) || due.None?
      || exists ids :: Ascending(ids) && ToSet(ids) == l.callIds && !Fits(h, l, t, Saved(req, l, due.value, t, ids))
  }

  /** Each entry is what the run, still going, noted at its frame. */
  ghost predicate AllNoted(h: Host, req: Request, turns: seq<Turn>, published: seq<Option<Resume>>)
    requires AllAnswered(turns) && |published| <= |turns|
    decreases |published|
  {
    published == [] ||
    (&& AllNoted(h, req, turns, Front(published))
     && var k := |published| - 1;
        && Continues(req, After(h, req, Begin(req), turns[..k]))
        && Noted(h, req, After(h, req, Begin(req), turns[..k]), turns[k], published[k]))
  }

  lemma {:induction false} NotedSnoc(h: Host, req: Request, turns: seq<Turn>, published: seq<Option<Resume>>,
                                     p: Option<Resume>)
    requires AllAnswered(turns) && |published| < |turns| && AllNoted(h, req, turns, published)
    requires Continues(req, After(h, req, Begin(req), turns[..|published|]))
    requires Noted(h, req, After(h, req, Begin(req), turns[..|published|]), turns[|published|], p)
    ensures AllNoted(h, req, turns, published + [p])
  {
    assert Front(published + [p]) == published;
  }

  lemma {:induction false} NotedAt(h: Host, req: Request, turns: seq<Turn>, published: seq<Option<Resume>>, k: nat)
    requires AllAnswered(turns) && k < |published| <= |turns| && AllNoted(h, req, turns, published)
    ensures var l := After(h, req, Begin(req), turns[..k]);
            Continues(req, l) && Noted(h, req, l, turns[k], published[k])
    decreases |published|
  {
    if k < |published| - 1 {
      NotedAt(h, req, turns, Front(published), k);
    }
  }

  /** A frame notes checkpoint c exactly when c is the one it publishes; there is never another. */
  lemma {:induction false} NotedIsPublished(h: Host, req: Request, l: Loop, t: Turn, p: Option<Resume>, c: Resume)
    requires Noted(h, req, l, t, p)
    ensures Publishes(h, req, l, t, c) <==> p == Some(c)
  {
    if Publishes(h, req, l, t, c) {
      if p.Some? {
        AscendingIsUnique(p.value.callIds, c.callIds);
      } else {
        var due := Due(req, l, l.iterations + 1, t).value;
        var ids :| Ascending(ids) && ToSet(ids) == l.callIds && !Fits(h, l, t, Saved(req, l, due, t, ids));
        AscendingIsUnique(ids, c.callIds);
        assert false;
      }
    }
  }

  /** What the runner publishes can be resumed: at every iteration the run goes through, it publishes
      the checkpoint that is due and no other, and a new run accepts a published one exactly when its
      observations are still allowed and either there are none or the workflow left a state. */
  lemma {:induction false} PublishedResumes(h: Host, req: Request, turns: seq<Turn>, published: seq<Option<Resume>>,
                                            k: nat, c: Resume)
    requires RunCheckpoints.Admitted(h, req) && AllAnswered(turns)
    requires k < |published| <= |turns| && AllNoted(h, req, turns, published)
    ensures var l := After(h, req, Begin(req), turns[..k]);
            Continues(req, l) && (Publishes(h, req, l, turns[k], c) <==> published[k] == Some(c))
    ensures published[k] == Some(c) ==> forall next :: RunCheckpoints.PicksUp(next, req, c) ==>
              (ValidResume(h, next, c) <==>
               && (c.observations == [] || c.workflow != Null)
               && (forall o :: o in c.observations ==> h.stillAllowed(o)))
  {
    var l := After(h, req, Begin(req), turns[..k]);
    NotedAt(h, req, turns, published, k);
    NotedIsPublished(h, req, l, turns[k], published[k], c);
    if published[k] == Some(c) {
      forall next | RunCheckpoints.PicksUp(next, req, c)
        ensures ValidResume(h, next, c) <==>
                && (c.observations == [] || c.workflow != Null)
                && (forall o :: o in c.observations ==> h.stillAllowed(o))
      {
        RunCheckpoints.CheckpointResumes(h, req, turns[..k], turns[k], c, next);
      }
    }
  }

  /** The observations of one batch, in the order of its calls. */
  method Observed(h: Host, resumed: bool, calls: seq<Intent>, flags: seq<bool>, answers: seq<Answer>)
    returns (os: seq<Observation>)
    requires |flags| == |calls| <= |answers|
    ensures |os| == |calls|
    ensures forall k :: 0 <= k < |calls| ==>
        os[k] == Observe(calls[k], flags[k] || Barred(h, resumed, calls[k]), answers[k])
  {
    os := [];
    for k := 0 to |calls|
      invariant |os| == k
      invariant forall j :: 0 <= j < k ==>
          os[j] == Observe(calls[j], flags[j] || Barred(h, resumed, calls[j]), answers[j])
    {
      os := os + [Observe(calls[k], flags[k] || Barred(h, resumed, calls[k]), answers[k])];
    }
  }

  class RunState {
    var iterations: nat
    var toolCalls: nat
    var observations: seq<Observation>
    var callIds: set<string>

    constructor ()
      ensures iterations == 0 && toolCalls == 0 && observations == [] && callIds == {}
    {
      iterations, toolCalls, observations, callIds := 0, 0, [], {};
    }

    function View(workflow: Workflow, safe: bool, pending: Option<nat>, stopped: bool): Loop
      reads this
    {
      Loop(iterations, toolCalls, observations, callIds, workflow, safe, pending, stopped)
    }

    method FlagDuplicates(calls: seq<Intent>) returns (flags: seq<bool>)
      modifies this`callIds
      ensures |flags| == |calls|
      ensures forall k :: 0 <= k < |calls| ==> flags[k] == Flag(old(callIds), calls, k)
      ensures callIds == old(callIds) + IdsOf(calls)
    {
      flags := [];
      for k := 0 to |calls|
        invariant |flags| == k
        invariant forall j :: 0 <= j < k ==> flags[j] == Flag(old(callIds), calls, j)
        invariant callIds == old(callIds) + IdsOf(calls[..k])
      {
        flags := flags + [calls[k].callId in callIds];
        IdsSnoc(calls, k);
        callIds := callIds + {calls[k].callId};
      }
      assert calls[..|calls|] == calls;
    }

    /** Saves the state unless it is too large or holds credentials. */
    method Checkpoint(h: Host, req: Request, t: Turn, workflow: Workflow, saved: nat) returns (p: Option<Resume>)
      requires t.route.Some?
      ensures var l := View(workflow, true, None, false);
              if p.Some?
              then && Ascending(p.value.callIds) && ToSet(p.value.callIds) == callIds
                   && p.value == Saved(req, l, saved, t, p.value.callIds) && Fits(h, l, t, p.value)
              else exists ids :: Ascending(ids) && ToSet(ids) == callIds && !Fits(h, l, t, Saved(req, l, saved, t, ids))
    {
      var ids := Sorted(callIds);
      var c := Resume(req.runId, workflow, observations, saved, toolCalls, ids, t.prompt, t.route.value);
      ghost var l := View(workflow, true, None, false);
      assert c == Saved(req, l, saved, t, ids);
      if |observations| > 1024 || |callIds| > 1024 {
        return None;
      }
      if HasCredentials(workflow) {
        return None;
      }
      if h.size(c) + t.overhead <= h.limit {
        return Some(c);
      }
      return None;
    }

    /** The checkpoint step of one frame. */
    method FramePoint(h: Host, req: Request, t: Turn, iteration: nat, workflow: Workflow, safe: bool,
                      pending: Option<nat>,
                      ghost l: Loop)
      returns (p: Option<Resume>)
      requires t.granted && FrameAccepted(req, iteration, t)
      requires iteration == l.iterations + 1 && View(workflow, safe, pending, false) == l.(iterations := iteration)
      ensures Noted(h, req, l, t, p)
    {
      p := None;
      if iteration == 1 && req.resume.None? && t.route.Some? {
        p := Checkpoint(h, req, t, workflow, 0);
        SameSave(h, req, l, View(workflow, true, None, false), t, 0);
      } else if pending.Some? && t.route.Some? {
        p := Checkpoint(h, req, t, workflow, pending.value);
        SameSave(h, req, l, View(workflow, true, None, false), t, pending.value);
      }
    }

    /** Calls refused for want of budget are observed as such. */
    method ObserveOverflow(rest: seq<Intent>)
      modifies `observations
      ensures observations == old(observations) + Overflows(rest)
    {
      assert rest[..0] == [];
      for k := 0 to |rest|
        invariant observations == old(observations) + Overflows(rest[..k])
      {
        OverflowsSnoc(rest, k);
        observations := observations + [Overflow(rest[k])];
      }
      assert rest[..|rest|] == rest;
    }

    /** Runs one batch: slots, flags, observations and the verdict on the next checkpoint. */
    method ExecuteBatch(h: Host, resumed: bool, budget: nat, t: Turn, safe: bool) returns (safe': bool, over: bool)
      requires t.Answered()
      modifies `toolCalls, `observations, `callIds
      ensures Done(toolCalls, observations, callIds, safe', over)
              == RunBatch(h, resumed, budget, old(Done(toolCalls, observations, callIds, safe, false)), t)
    {
      var remaining := if toolCalls <= budget then budget - toolCalls else 0;
      var asked := if remaining < |t.intents| then remaining else |t.intents|;
      var n := if t.slots < asked then t.slots else asked;
      var calls, rest := t.intents[..n], t.intents[n..];
      toolCalls := toolCalls + |calls|;
      ghost var used := callIds;
      var flags := FlagDuplicates(calls);
      var os := Observed(h, resumed, calls, flags, t.answers);
      assert os == Batch(h, resumed, used, calls, t.answers);
      observations := observations + os;
      over := rest != [];
      safe' := safe && !over && (forall o :: o in os ==> SafeObservation(h, o))
               && (forall i :: i in calls ==> CleanIntent(i));
      ObserveOverflow(rest);
    }

    /** The part of an iteration after its frame is ready; l is the state the iteration began with. */
    method RunFrame(h: Host, req: Request, t: Turn, workflow: Workflow, safe: bool, pending: Option<nat>,
                    ghost l: Loop)
      returns (p: Option<Resume>, workflow': Workflow, safe': bool, pending': Option<nat>, stopped: bool)
      requires t.Answered() && t.granted && FrameAccepted(req, iterations, t)
      requires View(workflow, safe, pending, false) == l.(iterations := l.iterations + 1)
      modifies `toolCalls, `observations, `callIds
      ensures View(workflow', safe', pending', stopped) == Iterate(h, req, l, t)
      ensures Noted(h, req, l, t, p)
    {
      p := FramePoint(h, req, t, iterations, workflow, safe, pending, l);
      if t.course.Ends? {
        return p, workflow, safe, None, true;
      }
      workflow' := t.workflow;
      safe', stopped := ExecuteBatch(h, req.resume.Some?, req.maxToolCalls, t, safe);
      pending' := if safe' then Some(iterations) else None;
      Iterated(h, req, l, t, Done(toolCalls, observations, callIds, safe', stopped));
    }

    /** One pass through the loop body. */
    method RunTurn(h: Host, req: Request, t: Turn, workflow: Workflow, safe: bool, pending: Option<nat>,
                   ghost l: Loop)
      returns (p: Option<Resume>, workflow': Workflow, safe': bool, pending': Option<nat>, stopped: bool)
      requires t.Answered() && View(workflow, safe, pending, false) == l
      modifies this
      ensures View(workflow', safe', pending', stopped) == Iterate(h, req, l, t)
      ensures Noted(h, req, l, t, p)
    {
      p, workflow', safe', pending', stopped := None, workflow, safe, pending, true;
      if !t.granted {
        StoppedEarly(h, req, l, t);
        return;
      }
      iterations := iterations + 1;
      if !FrameAccepted(req, iterations, t) {
        StoppedEarly(h, req, l, t);
        return;
      }
      p, workflow', safe', pending', stopped := RunFrame(h, req, t, workflow, safe, pending, l);
    }

    /** The whole loop, with exactly one entry of `published` per iteration it goes through. */
    method RunTurns(h: Host, req: Request, turns: seq<Turn>)
      returns (published: seq<Option<Resume>>, workflow: Workflow, safe: bool, pending: Option<nat>, stopped: bool)
      requires AllAnswered(turns)
      requires iterations == 0 && toolCalls == 0 && observations == [] && callIds == {}
      modifies this
      ensures View(workflow, safe, pending, stopped) == After(h, req, Begin(req), turns)
      ensures |published| <= |turns| && AllNoted(h, req, turns, published)
      ensures |published| == |turns| || !Continues(req, After(h, req, Begin(req), turns[..|published|]))
    {
      published, workflow, safe, pending, stopped := [], Null, true, None, false;
      if req.resume.Some? {
        var c := req.resume.value;
        iterations, toolCalls, observations, callIds := c.iterations, c.toolCalls, c.observations, ToSet(c.callIds);
        workflow := c.workflow;
      }
      var k := 0;
      assert turns[..0] == [];
      while k < |turns| && !stopped && iterations + 1 <= req.maxIterations
        invariant 0 <= k <= |turns| && |published| == k
        invariant View(workflow, safe, pending, stopped) == After(h, req, Begin(req), turns[..k])
        invariant AllNoted(h, req, turns, published)
      {
        TakeSnoc(turns, k);
        AfterSnoc(h, req, Begin(req), turns[..k], turns[k]);
        var p;
        p, workflow, safe, pending, stopped :=
          RunTurn(h, req, turns[k], workflow, safe, pending, View(workflow, safe, pending, false));
        NotedSnoc(h, req, turns, published, p);
        published := published + [p];
        k := k + 1;
      }
      if k < |turns| {
        AfterEnded(h, req, Begin(req), turns, k);
      } else {
        assert turns[..k] == turns;
      }
    }
  }

  lemma {:induction false} StoppedEarly(h: Host, req: Request, l: Loop, t: Turn)
    requires t.Answered() && (!t.granted || !FrameAccepted(req, l.iterations + 1, t))
    ensures Iterate(h, req, l, t) ==
            l.(iterations := if t.granted then l.iterations + 1 else l.iterations, stopped := true)
    ensures Noted(h, req, l, t, None)
  {
  }

  lemma {:induction false} Iterated(h: Host, req: Request, l: Loop, t: Turn, d: Done)
    requires t.Answered() && t.granted && FrameAccepted(req, l.iterations + 1, t) && t.course.Calls?
    requires d == RunBatch(h, req.resume.Some?, req.maxToolCalls,
        Done(l.toolCalls, l.observations, l.callIds, l.safe, false), t)
    ensures Iterate(h, req, l, t) ==
            Loop(l.iterations + 1, d.toolCalls, d.observations, d.callIds, t.workflow, d.safe,
                 if d.safe then Some(l.iterations + 1) else None, d.over)
  {
  }

  lemma {:induction false} OverflowsSnoc(calls: seq<Intent>, k: nat)
    requires k < |calls|
    ensures Overflows(calls[..k + 1]) == Overflows(calls[..k]) + [Overflow(calls[k])]
  {
  }

  /** What is saved depends only on the state's contents. */
  lemma {:induction false} SameSave(h: Host, req: Request, l: Loop, m: Loop, t: Turn, saved: nat)
    requires t.route.Some?
    requires l.workflow == m.workflow && l.observations == m.observations
    requires l.toolCalls == m.toolCalls && l.callIds == m.callIds
    ensures forall ids :: Saved(req, l, saved, t, ids) == Saved(req, m, saved, t, ids)
    ensures forall c :: Fits(h, l, t, c) == Fits(h, m, t, c)
  {
  }
}

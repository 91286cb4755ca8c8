/** Preparing a request: the loops as the program runs them, and what preparation guarantees. */
module ContextManager {
  import opened Base
  import opened Context

  // ----- The loops -----

  /** The messages whose index was not removed. */
  function Without(messages: seq<Message>, removed: set<int>): seq<Message> {
    if messages == [] then []
    else Without(Front(messages), removed) + if |messages| - 1 in removed then [] else [Last(messages)]
  }

  /** The round, counted from 0, that a non-system message belongs to. */
  function RoundOf(messages: seq<Message>, i: nat): int
    requires i < |messages|
  {
    Scan(messages[..i + 1]).rounds - 1
  }

  ghost predicate GroupsRounds(messages: seq<Message>, n: nat, rounds: seq<seq<int>>)
    requires n <= |messages|
  {
    && |rounds| == Scan(messages[..n]).rounds
    && forall q, i :: 0 <= q < |rounds| ==>
         (i in rounds[q] <==> 0 <= i < n && !messages[i].role.System? && RoundOf(messages, i) == q)
  }

  method GroupRounds(messages: seq<Message>) returns (rounds: seq<seq<int>>)
    ensures GroupsRounds(messages, |messages|, rounds)
  {
    rounds := [];
    var answered := false;
    for i := 0 to |messages|
      invariant GroupsRounds(messages, i, rounds)
      invariant answered == Scan(messages[..i]).answered
    {
      FrontSnoc(messages, i);
      var x := messages[i];
      if x.role.System? {
        SkipSystem(messages, i, rounds);
        continue;
      }
      ghost var before := rounds;
      if rounds == [] || (x.role.User? && answered) {
        rounds := rounds + [[]];
        answered := false;
      }
      rounds := rounds[|rounds| - 1 := rounds[|rounds| - 1] + [i]];
      if x.role.Assistant? && x.calls == [] {
        answered := true;
      }
      JoinRound(messages, i, before, rounds);
    }
  }

  lemma {:induction false} SkipSystem(messages: seq<Message>, i: nat, rounds: seq<seq<int>>)
    requires i < |messages| && messages[i].role.System? && GroupsRounds(messages, i, rounds)
    ensures GroupsRounds(messages, i + 1, rounds)
  {
    FrontSnoc(messages, i);
  }

  /** A message joins the latest round, which may have just been opened for it. */
  lemma {:induction false} JoinRound(messages: seq<Message>, i: nat, before: seq<seq<int>>, after: seq<seq<int>>)
    requires i < |messages| && !messages[i].role.System? && GroupsRounds(messages, i, before)
    requires var n := Scan(messages[..i + 1]).rounds;
             && |after| == n && |before| <= n <= |before| + 1 && n > 0
             && (forall q :: 0 <= q < n - 1 ==> after[q] == before[q])
             && after[n - 1] == (if n == |before| then before[n - 1] else []) + [i]
    ensures GroupsRounds(messages, i + 1, after)
  {
    RoundsGrow(messages, i);
  }

  /** Round numbers never exceed the rounds opened so far. */
  lemma {:induction false} RoundsGrow(messages: seq<Message>, n: nat)
    requires n <= |messages|
    ensures forall i :: 0 <= i < n ==> RoundOf(messages, i) < Scan(messages[..n]).rounds
  {
    if n > 0 {
      RoundsGrow(messages, n - 1);
      FrontSnoc(messages, n - 1);
    }
  }

  lemma {:induction false} WithoutIsKept(messages: seq<Message>, removed: set<int>, k: nat)
    requires forall i :: 0 <= i < |messages| ==>
               (i in removed <==> !messages[i].role.System? && RoundOf(messages, i) < k)
    ensures Without(messages, removed) == Kept(messages, k)
  {
    if messages != [] {
      var f := Front(messages);
      forall i | 0 <= i < |f| ensures RoundOf(f, i) == RoundOf(messages, i) && f[i] == messages[i] {
        assert f[..i + 1] == messages[..i + 1];
      }
      WithoutIsKept(f, removed, k);
      assert messages[..|messages|] == messages;
    }
  }

  method TrimTools(m: Manager, messages: seq<Message>, perTool: int) returns (out: seq<Message>, truncated: nat)
    ensures out == Trim(m, messages, perTool) && truncated == TrimCount(m, messages, perTool)
  {
    out, truncated := [], 0;
    for i := 0 to |messages|
      invariant out == Trim(m, messages[..i], perTool) && truncated == TrimCount(m, messages[..i], perTool)
    {
      FrontSnoc(messages, i);
      var x := messages[i];
      if x.role.Tool? {
        var raw := RawText(x.content);
        if m.tokens(raw) > perTool {
          x := x.(content := [Text(m.compact(raw, perTool))]);
          truncated := truncated + 1;
        }
      }
      out := out + [x];
    }
    assert messages[..|messages|] == messages;
  }

  /** Drops the oldest round for as long as the request is too large and more than one is left. */
  method DropRounds(m: Manager, r: Request, budget: int) returns (current: Request, removedRounds: nat)
    ensures removedRounds == Fewest(m, r, r.messages, 0, budget)
    ensures current == r.(messages := Kept(r.messages, removedRounds))
  {
    var messages := r.messages;
    var rounds := GroupRounds(messages);
    assert messages[..|messages|] == messages;
    var removed: set<int> := {};
    removedRounds := 0;
    WithoutIsKept(messages, {}, 0);
    KeptAll(messages);
    current := r;
    while removedRounds < |rounds| - 1
      invariant removedRounds <= Droppable(messages)
      invariant forall i :: 0 <= i < |messages| ==>
        (i in removed <==> !messages[i].role.System? && RoundOf(messages, i) < removedRounds)
      invariant current == r.(messages := Kept(messages, removedRounds))
      invariant Fewest(m, r, messages, 0, budget) == Fewest(m, r, messages, removedRounds, budget)
    {
      var now := ComputeEstimate(m, current);
      if now <= budget { break; }
      removed := removed + (set i | i in rounds[removedRounds]);
      removedRounds := removedRounds + 1;
      WithoutIsKept(messages, removed, removedRounds);
      current := r.(messages := Without(messages, removed));
    }
  }

  /** Only the messages and the fixed parts of a request count for what fits. */
  lemma {:induction false} SameFewest(m: Manager, r: Request, messages: seq<Message>, k: nat, budget: int)
    requires k <= Droppable(messages)
    ensures Fewest(m, r.(messages := messages), messages, k, budget) == Fewest(m, r, messages, k, budget)
    decreases Droppable(messages) - k
  {
    assert forall j: nat ::
      r.(messages := messages).(messages := Kept(messages, j)) == r.(messages := Kept(messages, j));
    if k < Droppable(messages) {
      SameFewest(m, r, messages, k + 1, budget);
    }
  }

  /** Its second pairing check is kept; the contract shows it can never fail. */
  method PrepareContext(m: Manager, r: Request, window: int) returns (result: Outcome)
    ensures result == Prepare(m, r, window)
  {
    var ok := ValidatePairs(r.messages);
    if !ok { return PairingError; }
    var budget := Budget(r, window);
    if budget <= 0 { return CapacityError; }
    var first := ComputeEstimate(m, r);
    if first <= budget { return Prepared(r, first, 0, 0); }
    var perTool := PerTool(r.messages, budget);
    var messages, truncated := TrimTools(m, r.messages, perTool);
    var current, removedRounds := DropRounds(m, r.(messages := messages), budget);
    SameFewest(m, r, messages, 0, budget);
    var estimate := ComputeEstimate(m, current);
    if estimate > budget { return CapacityError; }
    ok := ValidatePairs(current.messages);
    PairingSurvives(m, r.messages, perTool, removedRounds);
    if !ok { return PairingError; }
    return Prepared(current, estimate, removedRounds, truncated);
  }

  // ----- Pairing survives dropping whole rounds -----

  /** Trimming changes neither the pairing nor the rounds. */
  lemma {:induction false} TrimKeepsStructure(m: Manager, messages: seq<Message>, perTool: int)
    ensures Pair(Trim(m, messages, perTool)) == Pair(messages)
    ensures Scan(Trim(m, messages, perTool)) == Scan(messages)
  {
    if messages != [] {
      TrimKeepsStructure(m, Front(messages), perTool);
      assert Front(Trim(m, messages, perTool)) == Trim(m, Front(messages), perTool);
    }
  }

  /** Fewer used ids never break a pairing. */
  lemma {:induction false} FewerUsed(p: Pairing, q: Pairing, calls: seq<Call>)
    requires p.Pairing? && q.Pairing? && p.pending == q.pending && q.used <= p.used && AddCalls(p, calls).Pairing?
    ensures var (a, b) := (AddCalls(p, calls), AddCalls(q, calls));
            b.Pairing? && a.pending == b.pending && b.used <= a.used
  {
    if calls != [] { FewerUsed(p, q, Front(calls)); }
  }

  /** Both are unbroken with the same calls pending, and q has seen no id that p has not. */
  predicate Shadows(q: Pairing, p: Pairing) {
    p.Pairing? && q.Pairing? && q.pending == p.pending && q.used <= p.used
  }

  lemma {:induction false} StepShadows(p: Pairing, q: Pairing, x: Message)
    requires Shadows(q, p) && PairStep(p, x).Pairing?
    ensures Shadows(PairStep(q, x), PairStep(p, x))
  {
    if !x.role.System? && !x.role.Tool? {
      FewerUsed(p, q, x.calls);
    }
  }

  /** A round opens only where no call is pending, so the kept messages pair up as they did. */
  lemma {:induction false} KeptPairs(messages: seq<Message>, k: nat)
    requires Pair(messages).Pairing?
    ensures Scan(messages).rounds == 0 ==> Pair(messages) == NOTHING
    ensures var (p, q) := (Pair(messages), Pair(Kept(messages, k)));
            if Scan(messages).rounds <= k then q == NOTHING else Shadows(q, p)
  {
    if messages != [] {
      var f, x := Front(messages), Last(messages);
      KeptPairs(f, k);
      if x.role.System? || Scan(messages).rounds > k {
        assert Kept(messages, k) == Kept(f, k) + [x];
        assert Front(Kept(messages, k)) == Kept(f, k);
        if !x.role.System? {
          StepShadows(Pair(f), Pair(Kept(f, k)), x);
        }
      } else {
        assert Kept(messages, k) == Kept(f, k);
      }
    }
  }

  /** The pairing check after compaction can never fail once the first one passed. */
  lemma {:induction false} PairingSurvives(m: Manager, messages: seq<Message>, perTool: int, k: nat)
    requires WellPaired(messages)
    ensures WellPaired(Kept(Trim(m, messages, perTool), k))
  {
    TrimKeepsStructure(m, messages, perTool);
    KeptPairs(Trim(m, messages, perTool), k);
  }

  // ----- What preparation guarantees -----

  function Systems(messages: seq<Message>): seq<Message> {
    if messages == [] then []
    else Systems(Front(messages)) + if Last(messages).role.System? then [Last(messages)] else []
  }

  function Turns(messages: seq<Message>): seq<Message> {
    if messages == [] then []
    else Turns(Front(messages)) + if Last(messages).role.System? then [] else [Last(messages)]
  }

  /** The non-system messages of the rounds after the k-th. */
  function LaterTurns(messages: seq<Message>, k: nat): seq<Message> {
    if messages == [] then []
    else LaterTurns(Front(messages), k) +
         if !Last(messages).role.System? && Scan(messages).rounds > k then [Last(messages)] else []
  }

  lemma {:induction false} KeptAll(messages: seq<Message>)
    ensures Kept(messages, 0) == messages
  {
    if messages != [] {
      KeptAll(Front(messages));
      assert Front(messages) + [Last(messages)] == messages;
    }
  }

  lemma {:induction false} KeptParts(messages: seq<Message>, k: nat)
    ensures Systems(Kept(messages, k)) == Systems(messages)
    ensures Turns(Kept(messages, k)) == LaterTurns(messages, k)
  {
    if messages != [] {
      KeptParts(Front(messages), k);
      if Last(messages).role.System? || Scan(messages).rounds > k {
        assert Front(Kept(messages, k)) == Kept(Front(messages), k);
      } else {
        assert Kept(messages, k) == Kept(Front(messages), k);
      }
    }
  }

  /** The places, in order, of all system messages and of the messages of all rounds but the k oldest. */
  ghost predicate Selects(at: seq<nat>, messages: seq<Message>, k: nat) {
    && (forall i, j :: 0 <= i < j < |at| ==> at[i] < at[j])
    && (forall i :: 0 <= i < |at| ==> at[i] < |messages|)
    && (forall j: nat :: j < |messages| ==>
          (j in at <==> messages[j].role.System? || RoundOf(messages, j) >= k))
  }

  function Picked(messages: seq<Message>, at: seq<nat>): (out: seq<Message>)
    requires forall i :: 0 <= i < |at| ==> at[i] < |messages|
    ensures |out| == |at|
  {
    seq(|at|, i requires 0 <= i < |at| => messages[at[i]])
  }

  lemma {:induction false} RoundsOfFront(messages: seq<Message>)
    requires messages != []
    ensures forall j: nat :: j < |messages| - 1 ==> RoundOf(Front(messages), j) == RoundOf(messages, j)
    ensures RoundOf(messages, |messages| - 1) == Scan(messages).rounds - 1
  {
    forall j: nat | j < |messages| - 1 ensures RoundOf(Front(messages), j) == RoundOf(messages, j) {
      assert Front(messages)[..j + 1] == messages[..j + 1];
    }
    assert messages[..|messages|] == messages;
  }

  lemma {:induction false} SelectsNext(at: seq<nat>, messages: seq<Message>, k: nat)
    requires messages != [] && Selects(at, Front(messages), k)
    ensures var kept := Last(messages).role.System? || Scan(messages).rounds > k;
            Selects(if kept then at + [|messages| - 1] else at, messages, k)
  {
    RoundsOfFront(messages);
  }

  lemma {:induction false} PickedNext(at: seq<nat>, messages: seq<Message>)
    requires messages != [] && forall i :: 0 <= i < |at| ==> at[i] < |messages| - 1
    ensures Picked(messages, at) == Picked(Front(messages), at)
    ensures Picked(messages, at + [|messages| - 1]) == Picked(messages, at) + [Last(messages)]
  {
  }

  /** What is kept is what stood at those places, in the same order. */
  lemma {:induction false} KeptAt(messages: seq<Message>, k: nat) returns (at: seq<nat>)
    ensures Selects(at, messages, k) && Kept(messages, k) == Picked(messages, at)
  {
    if messages == [] {
      at := [];
    } else {
      var before := KeptAt(Front(messages), k);
      SelectsNext(before, messages, k);
      PickedNext(before, messages);
      at := if Last(messages).role.System? || Scan(messages).rounds > k then before + [|messages| - 1] else before;
    }
  }

  /** Dropping rounds drops the oldest turns: what is left is a suffix. */
  lemma {:induction false} OldestGoFirst(messages: seq<Message>, k: nat, j: nat)
    requires k <= j
    ensures IsSuffix(LaterTurns(messages, j), LaterTurns(messages, k))
    ensures LaterTurns(messages, 0) == Turns(messages)
    ensures Scan(messages).rounds <= j ==> LaterTurns(messages, j) == []
  {
    if messages != [] {
      OldestGoFirst(Front(messages), k, j);
    }
  }

  /** Equal messages, except for the text of tool results. */
  predicate SameButToolText(a: seq<Message>, b: seq<Message>) {
    && |a| == |b|
    && forall i :: 0 <= i < |a| ==> a[i] == b[i] || (b[i].role.Tool? && a[i] == b[i].(content := a[i].content))
  }

  lemma {:induction false} TrimKeepsTurns(m: Manager, messages: seq<Message>, perTool: int, k: nat)
    ensures Systems(Trim(m, messages, perTool)) == Systems(messages)
    ensures SameButToolText(LaterTurns(Trim(m, messages, perTool), k), LaterTurns(messages, k))
  {
    if messages != [] {
      TrimKeepsTurns(m, Front(messages), perTool, k);
      TrimKeepsStructure(m, messages, perTool);
      assert Front(Trim(m, messages, perTool)) == Trim(m, Front(messages), perTool);
    }
  }

  function KeptCost(m: Manager, messages: seq<Message>, k: nat): nat {
    if messages == [] then 0
    else KeptCost(m, Front(messages), k) +
         if Last(messages).role.System? || Scan(messages).rounds > k then MessageCost(m, Last(messages)) else 0
  }

  lemma {:induction false} KeptCostIsCost(m: Manager, messages: seq<Message>, k: nat)
    ensures Cost(m, Kept(messages, k)) == KeptCost(m, messages, k)
  {
    if messages != [] {
      KeptCostIsCost(m, Front(messages), k);
      if Last(messages).role.System? || Scan(messages).rounds > k {
        assert Front(Kept(messages, k)) == Kept(Front(messages), k);
      } else {
        assert Kept(messages, k) == Kept(Front(messages), k);
      }
    }
  }

  lemma {:induction false} KeptCostFalls(m: Manager, messages: seq<Message>, k: nat)
    ensures KeptCost(m, messages, k + 1) <= KeptCost(m, messages, k)
    ensures Scan(messages).rounds > k ==> KeptCost(m, messages, k + 1) < KeptCost(m, messages, k)
  {
    if messages != [] {
      KeptCostFalls(m, Front(messages), k);
      assert MessageCost(m, Last(messages)) > 0;
    }
  }

  /** Every dropped round makes the request strictly cheaper. */
  lemma {:induction false} DroppingPays(m: Manager, messages: seq<Message>, k: nat)
    ensures Cost(m, Kept(messages, k + 1)) <= Cost(m, Kept(messages, k))
    ensures Scan(messages).rounds > k ==> Cost(m, Kept(messages, k + 1)) < Cost(m, Kept(messages, k))
  {
    KeptCostIsCost(m, messages, k);
    KeptCostIsCost(m, messages, k + 1);
    KeptCostFalls(m, messages, k);
  }

  lemma {:induction false} DroppingPaysAll(m: Manager, messages: seq<Message>, k: nat, j: nat)
    requires k <= j
    ensures Cost(m, Kept(messages, j)) <= Cost(m, Kept(messages, k))
    decreases j - k
  {
    if k < j {
      DroppingPays(m, messages, k);
      DroppingPaysAll(m, messages, k + 1, j);
    }
  }

  lemma {:induction false} TrimEach(m: Manager, messages: seq<Message>, perTool: int)
    ensures SameButToolText(Trim(m, messages, perTool), messages)
  {
    if messages != [] {
      TrimEach(m, Front(messages), perTool);
    }
  }

  lemma {:induction false} TrimOfPrefix(m: Manager, messages: seq<Message>, perTool: int, n: nat)
    requires n <= |messages|
    ensures Trim(m, messages, perTool)[..n] == Trim(m, messages[..n], perTool)
  {
    if n == |messages| {
      assert messages[..n] == messages;
    } else {
      TrimOfPrefix(m, Front(messages), perTool, n);
      assert Front(messages)[..n] == messages[..n];
      assert Front(Trim(m, messages, perTool)) == Trim(m, Front(messages), perTool);
    }
  }

  lemma {:induction false} TrimKeepsRound(m: Manager, messages: seq<Message>, perTool: int, j: nat)
    requires j < |messages|
    ensures RoundOf(Trim(m, messages, perTool), j) == RoundOf(messages, j)
  {
    TrimOfPrefix(m, messages, perTool, j + 1);
    TrimKeepsStructure(m, messages[..j + 1], perTool);
  }

  lemma {:induction false} SelectsAlike(at: seq<nat>, a: seq<Message>, b: seq<Message>, k: nat)
    requires SameButToolText(a, b) && Selects(at, a, k)
    requires forall j: nat :: j < |b| ==> RoundOf(a, j) == RoundOf(b, j)
    ensures Selects(at, b, k)
  {
    forall j: nat | j < |b| ensures j in at <==> b[j].role.System? || RoundOf(b, j) >= k {
      assert a[j].role == b[j].role && RoundOf(a, j) == RoundOf(b, j);
    }
  }

  lemma {:induction false} PickedAlike(at: seq<nat>, a: seq<Message>, b: seq<Message>)
    requires SameButToolText(a, b) && forall i :: 0 <= i < |at| ==> at[i] < |a|
    ensures SameButToolText(Picked(a, at), Picked(b, at))
  {
  }

  /** Trimming first changes neither the places nor, up to tool text, what stands there. */
  lemma {:induction false} TrimmedAt(m: Manager, messages: seq<Message>, perTool: int, k: nat) returns (at: seq<nat>)
    ensures Selects(at, messages, k)
    ensures SameButToolText(Kept(Trim(m, messages, perTool), k), Picked(messages, at))
  {
    var trimmed := Trim(m, messages, perTool);
    at := KeptAt(trimmed, k);
    TrimEach(m, messages, perTool);
    forall j: nat | j < |messages| ensures RoundOf(trimmed, j) == RoundOf(messages, j) {
      TrimKeepsRound(m, messages, perTool, j);
    }
    SelectsAlike(at, trimmed, messages, k);
    PickedAlike(at, trimmed, messages);
  }

  /** A prepared request is within budget and well paired. It holds, in their order, exactly the system
      messages and the messages of all but the fewest oldest rounds whose removal fits; in what is kept,
      only the text of tool results may differ. */
  lemma {:induction false} PreparedIsSound(m: Manager, r: Request, window: int)
    requires Prepare(m, r, window).Prepared?
    ensures var (p, budget) := (Prepare(m, r, window), Budget(r, window));
            && p.estimate == Estimate(m, p.request) <= budget
            && p.request == r.(messages := p.request.messages)
            && WellPaired(p.request.messages)
            && Systems(p.request.messages) == Systems(r.messages)
            && p.removedRounds <= Droppable(r.messages)
            && SameButToolText(Turns(p.request.messages), LaterTurns(r.messages, p.removedRounds))
            && (exists at :: Selects(at, r.messages, p.removedRounds)
                             && SameButToolText(p.request.messages, Picked(r.messages, at)))
            && (forall k: nat :: k < p.removedRounds ==>
                  !Fits(m, r, Trim(m, r.messages, PerTool(r.messages, budget)), k, budget))
  {
    var p, budget := Prepare(m, r, window), Budget(r, window);
    var perTool := PerTool(r.messages, budget);
    if Estimate(m, r) <= budget {
      OldestGoFirst(r.messages, 0, 0);
      var at := KeptAt(r.messages, 0);
      KeptAll(r.messages);
    } else {
      var trimmed := Trim(m, r.messages, perTool);
      PairingSurvives(m, r.messages, perTool, p.removedRounds);
      KeptParts(trimmed, p.removedRounds);
      TrimKeepsStructure(m, r.messages, perTool);
      TrimKeepsTurns(m, r.messages, perTool, p.removedRounds);
      var at := TrimmedAt(m, r.messages, perTool, p.removedRounds);
    }
  }

  /** If dropping any number of rounds fits, dropping all but the last does. */
  lemma {:induction false} FewestFitsExactly(m: Manager, r: Request, messages: seq<Message>, budget: int)
    ensures Fits(m, r, messages, Fewest(m, r, messages, 0, budget), budget) <==>
            Fits(m, r, messages, Droppable(messages), budget)
  {
    DroppingPaysAll(m, messages, Fewest(m, r, messages, 0, budget), Droppable(messages));
  }

  /** Preparation fails for pairing exactly when the input is ill paired, and for capacity exactly
      when neither the request as it is nor its last round alone fits. */
  lemma {:induction false} FailureIsExact(m: Manager, r: Request, window: int)
    ensures var (p, budget) := (Prepare(m, r, window), Budget(r, window));
            && (p.PairingError? <==> !WellPaired(r.messages))
            && (p.CapacityError? <==>
                  && WellPaired(r.messages)
                  && (budget <= 0 ||
                      (&& Estimate(m, r) > budget
                       && var trimmed := Trim(m, r.messages, PerTool(r.messages, budget));
                          !Fits(m, r, trimmed, Droppable(r.messages), budget))))
  {
    var budget := Budget(r, window);
    if WellPaired(r.messages) && budget > 0 && Estimate(m, r) > budget {
      var perTool := PerTool(r.messages, budget);
      var trimmed := Trim(m, r.messages, perTool);
      TrimKeepsStructure(m, r.messages, perTool);
      FewestFitsExactly(m, r, trimmed, budget);
    }
  }

  /** Preparing a prepared request again changes nothing. */
  lemma {:induction false} PrepareIsIdempotent(m: Manager, r: Request, window: int)
    requires Prepare(m, r, window).Prepared?
    ensures var p := Prepare(m, r, window);
            Prepare(m, p.request, window) == Prepared(p.request, p.estimate, 0, 0)
  {
    PreparedIsSound(m, r, window);
  }
}

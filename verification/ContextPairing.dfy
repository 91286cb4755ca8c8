/** What the one-pass pairing check means: it accepts exactly the matched transcripts. */
module ContextPairing {
  import opened Base
  import opened Context

  predicate IsTurn(x: Message) { x.role.User? || x.role.Assistant? }

  function Ids(calls: seq<Call>): seq<string> {
    if calls == [] then [] else Ids(Front(calls)) + [Last(calls).id]
  }

  /** The ids of all calls made, and of all results given, in order. */
  function CallIds(messages: seq<Message>): seq<string> {
    if messages == [] then []
    else CallIds(Front(messages)) + if IsTurn(Last(messages)) then Ids(Last(messages).calls) else []
  }

  function ResultIds(messages: seq<Message>): seq<Option<string>> {
    if messages == [] then []
    else ResultIds(Front(messages)) + if Last(messages).role.Tool? then [Last(messages).toolCallId] else []
  }

  /** Message i is a result for a call of turn j, with no other turn in between. */
  predicate Answers(messages: seq<Message>, j: int, i: int) {
    && 0 <= j < i < |messages|
    && IsTurn(messages[j]) && messages[i].role.Tool?
    && messages[i].toolCallId.Some? && messages[i].toolCallId.value in Ids(messages[j].calls)
    && forall x :: j < x < i ==> !IsTurn(messages[x])
  }

  /** Call ids are unique, every call has exactly one result, and each result directly follows its turn. */
  ghost predicate Matched(messages: seq<Message>) {
    && Distinct(CallIds(messages)) && Distinct(ResultIds(messages))
    && (forall id :: id in CallIds(messages) ==> Some(id) in ResultIds(messages))
    && AllAnswer(messages)
  }

  /** Every result answers some turn. */
  ghost predicate AllAnswer(messages: seq<Message>) {
    forall i :: 0 <= i < |messages| && messages[i].role.Tool? ==> exists j :: Answers(messages, j, i)
  }

  lemma {:induction false} DistinctConcat<T>(a: seq<T>, b: seq<T>)
    ensures Distinct(a + b) <==> Distinct(a) && Distinct(b) && forall x :: x in a ==> x !in b
  {
    if Distinct(a + b) {
      forall i, j | 0 <= i < j < |a| ensures a[i] != a[j] { assert (a + b)[i] != (a + b)[j]; }
      forall i, j | 0 <= i < j < |b| ensures b[i] != b[j] { assert (a + b)[|a| + i] != (a + b)[|a| + j]; }
      forall x | x in a ensures x !in b {
        var i :| 0 <= i < |a| && a[i] == x;
        forall j | 0 <= j < |b| ensures b[j] != x { assert (a + b)[i] != (a + b)[|a| + j]; }
      }
    } else if Distinct(a) && Distinct(b) && forall x :: x in a ==> x !in b {
      DistinctAppend(a, b);
    }
  }

  lemma {:induction false} AddCallsMeans(p: Pairing, calls: seq<Call>)
    requires p.Pairing?
    ensures var (q, ids) := (AddCalls(p, calls), Ids(calls));
            && (q.Pairing? <==> Distinct(ids) && forall id :: id in ids ==> id !in p.used)
            && (q.Pairing? ==> q == Pairing(p.pending + ToSet(ids), p.used + ToSet(ids)))
  {
    if calls == [] {
      assert ToSet(Ids(calls)) == {};
    } else {
      AddCallsMeans(p, Front(calls));
      var ids, id := Ids(Front(calls)), Last(calls).id;
      DistinctConcat(ids, [id]);
      assert ToSet(ids + [id]) == ToSet(ids) + {id};
    }
  }

  lemma {:induction false} CallIdAt(messages: seq<Message>, j: nat, id: string)
    requires j < |messages| && IsTurn(messages[j]) && id in Ids(messages[j].calls)
    ensures id in CallIds(messages)
  {
    if j < |messages| - 1 {
      assert Front(messages)[j] == messages[j];
      CallIdAt(Front(messages), j, id);
    }
  }

  lemma {:induction false} ResultIdAt(messages: seq<Message>, id: Option<string>) returns (i: nat)
    requires id in ResultIds(messages)
    ensures i < |messages| && messages[i].role.Tool? && messages[i].toolCallId == id
  {
    if id in ResultIds(Front(messages)) {
      i := ResultIdAt(Front(messages), id);
    } else {
      i := |messages| - 1;
    }
  }

  lemma {:induction false} ResultIdOf(messages: seq<Message>, i: nat)
    requires i < |messages| && messages[i].role.Tool?
    ensures messages[i].toolCallId in ResultIds(messages)
  {
    if i < |messages| - 1 {
      assert Front(messages)[i] == messages[i];
      ResultIdOf(Front(messages), i);
    }
  }

  lemma {:induction false} IdsOfPrefix(messages: seq<Message>, n: nat)
    requires n <= |messages|
    ensures CallIds(messages[..n]) <= CallIds(messages) && ResultIds(messages[..n]) <= ResultIds(messages)
  {
    if n < |messages| {
      assert Front(messages)[..n] == messages[..n];
      IdsOfPrefix(Front(messages), n);
    } else {
      assert messages[..n] == messages;
    }
  }

  /** Turn j made the call, and no later turn has begun. */
  ghost predicate LatestTurnCalls(messages: seq<Message>, j: int, id: string) {
    && 0 <= j < |messages| && IsTurn(messages[j]) && id in Ids(messages[j].calls)
    && forall x :: j < x < |messages| ==> !IsTurn(messages[x])
  }

  /** The state the check has reached, in terms of the messages it has read. */
  ghost predicate Reflects(p: Pairing, messages: seq<Message>)
    requires p.Pairing?
  {
    && p.used == ToSet(CallIds(messages))
    && (forall id :: id in p.pending <==> id in p.used && Some(id) !in ResultIds(messages))
    && Distinct(CallIds(messages)) && Distinct(ResultIds(messages))
    && (forall id :: id in p.pending ==> exists j :: LatestTurnCalls(messages, j, id))
    && AllAnswer(messages)
  }

  lemma {:induction false} CheckReflects(messages: seq<Message>)
    requires Pair(messages).Pairing?
    ensures Reflects(Pair(messages), messages)
  {
    if messages != [] {
      var f, x := Front(messages), Last(messages);
      CheckReflects(f);
      EarlierStays(messages);
      if x.role.Tool? {
        ResultReflects(messages);
      } else if IsTurn(x) {
        TurnReflects(messages);
      }
    }
  }

  lemma {:induction false} EarlierStays(messages: seq<Message>)
    requires messages != []
    ensures forall j, i :: Answers(Front(messages), j, i) ==> Answers(messages, j, i)
    ensures !IsTurn(Last(messages)) ==>
              forall j, id :: LatestTurnCalls(Front(messages), j, id) ==> LatestTurnCalls(messages, j, id)
  {
  }

  lemma {:induction false} ResultReflects(messages: seq<Message>)
    requires messages != [] && Last(messages).role.Tool? && Pair(messages).Pairing?
    requires Pair(Front(messages)).Pairing? && Reflects(Pair(Front(messages)), Front(messages))
    ensures Reflects(Pair(messages), messages)
  {
    var f, id := Front(messages), Last(messages).toolCallId;
    EarlierStays(messages);
    DistinctConcat(ResultIds(f), [id]);
    var j :| LatestTurnCalls(f, j, id.value);
    assert Answers(messages, j, |messages| - 1);
    forall i | 0 <= i < |messages| && messages[i].role.Tool? ensures exists j :: Answers(messages, j, i) {
      if i < |messages| - 1 {
        assert f[i].role.Tool?;
        var j :| Answers(f, j, i);
      }
    }
  }

  lemma {:induction false} AnswersCarry(messages: seq<Message>)
    requires messages != [] && !Last(messages).role.Tool? && AllAnswer(Front(messages))
    ensures AllAnswer(messages)
  {
    var f := Front(messages);
    EarlierStays(messages);
    forall i | 0 <= i < |messages| && messages[i].role.Tool? ensures exists j :: Answers(messages, j, i) {
      assert f[i].role.Tool?;
      var j :| Answers(f, j, i);
    }
  }

  /** A call not made yet has no result yet. */
  lemma {:induction false} NoEarlyResult(messages: seq<Message>, id: string)
    requires AllAnswer(messages) && id !in CallIds(messages)
    ensures Some(id) !in ResultIds(messages)
  {
    if Some(id) in ResultIds(messages) {
      var i := ResultIdAt(messages, Some(id));
      var j :| Answers(messages, j, i);
      CallIdAt(messages, j, id);
    }
  }

  /** What the check does at a turn it accepts. */
  lemma {:induction false} TurnStep(messages: seq<Message>)
    requires messages != [] && IsTurn(Last(messages)) && Pair(messages).Pairing?
    ensures var (p, ids) := (Pair(Front(messages)), Ids(Last(messages).calls));
            && p.Pairing? && p.pending == {}
            && Distinct(ids) && (forall id :: id in ids ==> id !in p.used)
            && Pair(messages) == Pairing(ToSet(ids), p.used + ToSet(ids))
  {
    var p, ids := Pair(Front(messages)), Ids(Last(messages).calls);
    AddCallsMeans(p, Last(messages).calls);
    assert {} + ToSet(ids) == ToSet(ids);
  }

  lemma {:induction false} UsedAfter(used: set<string>, before: seq<string>, ids: seq<string>)
    requires used == ToSet(before) && Distinct(before) && Distinct(ids) && forall id :: id in ids ==> id !in used
    ensures used + ToSet(ids) == ToSet(before + ids) && Distinct(before + ids)
  {
    DistinctConcat(before, ids);
  }

  lemma {:induction false} PendingAfter(used: set<string>, ids: seq<string>, results: seq<Option<string>>)
    requires forall id :: id in used ==> Some(id) in results
    requires forall id :: id in ids ==> Some(id) !in results
    ensures forall id :: id in ToSet(ids) <==> id in used + ToSet(ids) && Some(id) !in results
  {
  }

  /** The calls of the last turn are unanswered, and no turn follows it. */
  lemma {:induction false} NewCalls(messages: seq<Message>, used: set<string>)
    requires messages != [] && IsTurn(Last(messages)) && AllAnswer(Front(messages))
    requires used == ToSet(CallIds(Front(messages))) && forall id :: id in Ids(Last(messages).calls) ==> id !in used
    ensures forall id :: id in Ids(Last(messages).calls) ==> Some(id) !in ResultIds(Front(messages))
    ensures forall id :: id in Ids(Last(messages).calls) ==> exists j :: LatestTurnCalls(messages, j, id)
  {
    forall id | id in Ids(Last(messages).calls)
      ensures Some(id) !in ResultIds(Front(messages)) && exists j :: LatestTurnCalls(messages, j, id)
    {
      NoEarlyResult(Front(messages), id);
      assert LatestTurnCalls(messages, |messages| - 1, id);
    }
  }

  lemma {:induction false} TurnReflects(messages: seq<Message>)
    requires messages != [] && IsTurn(Last(messages)) && Pair(messages).Pairing?
    requires Pair(Front(messages)).Pairing? && Reflects(Pair(Front(messages)), Front(messages))
    ensures Reflects(Pair(messages), messages)
  {
    var f, ids := Front(messages), Ids(Last(messages).calls);
    var used := Pair(f).used;
    TurnStep(messages);
    AnswersCarry(messages);
    UsedAfter(used, CallIds(f), ids);
    NewCalls(messages, used);
    PendingAfter(used, ids, ResultIds(f));
  }

  lemma {:induction false} DistinctPrefix<T>(p: seq<T>, s: seq<T>)
    requires p <= s && Distinct(s)
    ensures Distinct(p)
  {
    DistinctConcat(p, s[|p|..]);
    assert p + s[|p|..] == s;
  }

  /** A call id is not used before the turn that makes the call. */
  lemma {:induction false} NoEarlierCall(messages: seq<Message>, n: nat, j: nat, id: string)
    requires Distinct(CallIds(messages)) && n <= j < |messages|
    requires IsTurn(messages[j]) && id in Ids(messages[j].calls)
    ensures id !in CallIds(messages[..n])
  {
    IdsOfPrefix(messages, j + 1);
    DistinctPrefix(CallIds(messages[..j + 1]), CallIds(messages));
    FrontSnoc(messages, j);
    DistinctConcat(CallIds(messages[..j]), Ids(messages[j].calls));
    assert messages[..j][..n] == messages[..n];
    IdsOfPrefix(messages[..j], n);
  }

  /** In a matched transcript no turn begins while a call is unanswered. */
  lemma {:induction false} NothingPendingAtTurn(messages: seq<Message>, n: nat, id: string)
    requires Matched(messages) && n < |messages| && IsTurn(messages[n])
    requires id in CallIds(messages[..n])
    ensures Some(id) in ResultIds(messages[..n])
  {
    IdsOfPrefix(messages, n);
    var i := ResultIdAt(messages, Some(id));
    var j :| Answers(messages, j, i);
    if n <= j {
      NoEarlierCall(messages, n, j, id);
      assert false;
    }
    assert i < n;
    assert messages[..n][i] == messages[i];
    ResultIdOf(messages[..n], i);
  }

  /** In a matched transcript a result answers a call that is still pending. */
  lemma {:induction false} ResultIsAwaited(messages: seq<Message>, n: nat)
    requires Matched(messages) && n < |messages| && messages[n].role.Tool?
    requires Pair(messages[..n]).Pairing? && Reflects(Pair(messages[..n]), messages[..n])
    ensures messages[n].toolCallId.Some? && messages[n].toolCallId.value in Pair(messages[..n]).pending
  {
    var f, id := messages[..n], messages[n].toolCallId;
    var j :| Answers(messages, j, n);
    assert f[j] == messages[j];
    CallIdAt(f, j, id.value);
    IdsOfPrefix(messages, n + 1);
    DistinctPrefix(ResultIds(messages[..n + 1]), ResultIds(messages));
    FrontSnoc(messages, n);
    DistinctConcat(ResultIds(f), [id]);
  }

  /** In a matched transcript a turn finds nothing pending and brings only new ids. */
  lemma {:induction false} TurnIsAccepted(messages: seq<Message>, n: nat)
    requires Matched(messages) && n < |messages| && IsTurn(messages[n])
    requires Pair(messages[..n]).Pairing? && Reflects(Pair(messages[..n]), messages[..n])
    ensures Pair(messages[..n]).pending == {} && AddCalls(Pair(messages[..n]), messages[n].calls).Pairing?
  {
    var f, ids := messages[..n], Ids(messages[n].calls);
    if id :| id in Pair(f).pending {
      NothingPendingAtTurn(messages, n, id);
      assert false;
    }
    IdsOfPrefix(messages, n + 1);
    DistinctPrefix(CallIds(messages[..n + 1]), CallIds(messages));
    FrontSnoc(messages, n);
    DistinctConcat(CallIds(f), ids);
    AddCallsMeans(Pair(f), messages[n].calls);
  }

  lemma {:induction false} MatchedIsAccepted(messages: seq<Message>, n: nat)
    requires Matched(messages) && n <= |messages|
    ensures Pair(messages[..n]).Pairing?
    decreases n
  {
    if n > 0 {
      MatchedIsAccepted(messages, n - 1);
      CheckReflects(messages[..n - 1]);
      FrontSnoc(messages, n - 1);
      if messages[n - 1].role.Tool? {
        ResultIsAwaited(messages, n - 1);
      } else if IsTurn(messages[n - 1]) {
        TurnIsAccepted(messages, n - 1);
      }
    }
  }

  /** The check accepts exactly the matched transcripts. */
  lemma {:induction false} WellPairedMeansMatched(messages: seq<Message>)
    ensures WellPaired(messages) <==> Matched(messages)
  {
    if WellPaired(messages) {
      CheckReflects(messages);
    }
    if Matched(messages) {
      MatchedIsAccepted(messages, |messages|);
      assert messages[..|messages|] == messages;
      CheckReflects(messages);
    }
  }
}

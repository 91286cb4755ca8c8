/** A concrete run on which a replayed withdrawal reports success and withdraws nothing. */
module SharingReplay {
  import opened Base
  import opened Sharing
  import opened SharingLaws
  import opened SharingRuns

  const OPEN_POLICY: Policy := Policy(true, false, {"age"}, {}, {"crm"}, {}, {}, {}, 1)

  const NOTE: PrivateClaim := PrivateClaim("n", "u", "age", "42", 1, true)

  function Asked(key: string, command: Command, profile: Option<PrivateClaim>, newId: Id): Call {
    Call("t", "shop", key, command, profile, newId, "d")
  }

  const OPENING: Call := Asked("0", Configure(OPEN_POLICY, 0, true), None, "a")
  const BINDING: Call := Asked("1", BindAlias("shop", "u", "e", 0), None, "b")
  const PROPOSING: Call := Asked("2", Propose("n"), Some(NOTE), "c")
  const ACCEPTING: Call := Asked("3", Curate("c", true, "ok", 0), None, "x")

  /** Calls under different keys do not replay each other. */
  ghost predicate OnlyKeys(s: State, keys: set<string>) {
    forall k :: k in s.remembered ==> k.3 in keys
  }

  lemma {:induction false} Opened()
    ensures var o := Step(EMPTY, OPENING);
            && o.reply.Ok? && o.state.core == EMPTY_CORE.(policies := map[("t", "shop") := OPEN_POLICY])
            && o.state.aliases == map[] && OnlyKeys(o.state, {"0"})
            && KeyOf(OPENING) in o.state.remembered && o.state.remembered[KeyOf(OPENING)].0 == OPENING.command
  {
    assert OPEN_POLICY.(revision := 0 + 1) == OPEN_POLICY;
    var k := Reconfigure(EMPTY_CORE, "t", "shop", OPEN_POLICY);
    assert k.candidates == map[];
    var hits := Hits(k.candidates, Target("t", "shop", None));
    assert hits == {} && Touched(k.claims, hits) == {};
    assert Withdraw(k, Target("t", "shop", None)) == k;
  }

  lemma {:induction false} AliasBound(s: State)
    requires s.core == EMPTY_CORE.(policies := map[("t", "shop") := OPEN_POLICY])
    requires s.aliases == map[] && OnlyKeys(s, {"0"})
    ensures var s' := Step(s, BINDING).state;
            && s'.core == s.core && s'.aliases == map[("t", "shop", "u") := Alias("e", 1)]
            && OnlyKeys(s', {"0", "1"}) &&
              (forall k :: k in s.remembered ==> k in s'.remembered && s'.remembered[k] == s.remembered[k])
  {
    assert KeyOf(BINDING).3 == "1";
  }

  lemma {:induction false} NoteProposed(s: State)
    requires s.core == EMPTY_CORE.(policies := map[("t", "shop") := OPEN_POLICY])
    requires s.aliases == map[("t", "shop", "u") := Alias("e", 1)] && OnlyKeys(s, {"0", "1"})
    ensures var s' := Step(s, PROPOSING).state;
            && s'.core.candidates.Keys == {"c"} && s'.core.claims == map[] && s'.core.policies == s.core.policies
            && s'.core.revisions == map[]
            && s'.core.candidates["c"] == Candidate("c", "t", "e", "shop", "n", 1, "age", "42", {"crm"}, 1, Pending)
            && OnlyKeys(s', {"0", "1", "2"}) &&
              (forall k :: k in s.remembered ==> k in s'.remembered && s'.remembered[k] == s.remembered[k])
  {
    assert KeyOf(PROPOSING).3 == "2";
    assert OPEN_POLICY.Audience("age") == {"crm"};
  }

  lemma {:induction false} NoteAccepted(s: State)
    requires s.core.candidates.Keys == {"c"} && s.core.claims == map[] && s.core.revisions == map[]
    requires s.core.policies == map[("t", "shop") := OPEN_POLICY] && OnlyKeys(s, {"0", "1", "2"})
    requires s.core.candidates["c"] == Candidate("c", "t", "e", "shop", "n", 1, "age", "42", {"crm"}, 1, Pending)
    ensures var s' := Step(s, ACCEPTING).state;
            && s'.core.candidates.Keys == {"c"} && s'.core.claims.Keys == {"x"}
            && s'.core.claims["x"].selected
            && s'.core.claims["x"].tenant == "t" && s'.core.claims["x"].product == "shop"
            && (forall k :: k in s.remembered ==> k in s'.remembered && s'.remembered[k] == s.remembered[k])
  {
    assert KeyOf(ACCEPTING).3 == "3";
    assert OPEN_POLICY.Audience("age") == {"crm"};
  }

  lemma {:induction false} ReplayIsIdle(s: State, c: Call)
    requires KeyOf(c) in s.remembered && s.remembered[KeyOf(c)].0 == c.command
    ensures Step(s, c).state == s && Step(s, c).reply.Ok?
  {
  }

  lemma {:induction false} NoteShared()
    ensures var calls := [OPENING, BINDING, PROPOSING, ACCEPTING];
            var s := Run(EMPTY, calls);
            && Fresh(EMPTY, calls) && s.core.claims.Keys == {"x"}
            && s.core.claims["x"].selected && s.core.claims["x"].tenant == "t" && s.core.claims["x"].product == "shop"
            && KeyOf(OPENING) in s.remembered && s.remembered[KeyOf(OPENING)].0 == OPENING.command
  {
    var s1 := Step(EMPTY, OPENING).state;
    Opened();
    var s2 := Step(s1, BINDING).state;
    AliasBound(s1);
    var s3 := Step(s2, PROPOSING).state;
    NoteProposed(s2);
    NoteAccepted(s3);
    RunOfFour(EMPTY, OPENING, BINDING, PROPOSING, ACCEPTING);
  }

  /** After sharing a claim, repeating the producer's first withdrawing update answers with success
      and leaves the claim shared. */
  lemma {:induction false} ReplayedWithdrawalWithdrawsNothing()
    ensures var calls := [OPENING, BINDING, PROPOSING, ACCEPTING];
            var s := Run(EMPTY, calls);
            && Fresh(EMPTY, calls) && WithdrawingUpdate(OPENING) && Step(s, OPENING).reply.Ok?
            && !NothingShared(Step(s, OPENING).state.core, "t", "shop")
  {
    var s := Run(EMPTY, [OPENING, BINDING, PROPOSING, ACCEPTING]);
    NoteShared();
    ReplayIsIdle(s, OPENING);
    assert "x" in s.core.claims;
  }

  lemma {:induction false} RunOfFour(s: State, a: Call, b: Call, c: Call, d: Call)
    ensures var (s1, s2) := (Step(s, a).state, Step(Step(s, a).state, b).state);
            var s3 := Step(s2, c).state;
            && Run(s, [a, b, c, d]) == Step(s3, d).state
            && (Fresh(s, [a, b, c, d]) <==> FreshFor(s, a) && FreshFor(s1, b) && FreshFor(s2, c) && FreshFor(s3, d))
  {
    var s1 := Step(s, a).state;
    var s2 := Step(s1, b).state;
    RunCons(s, a, [b, c, d]);
    RunCons(s1, b, [c, d]);
    RunCons(s2, c, [d]);
    RunCons(Step(s2, c).state, d, []);
    assert [a] + [b, c, d] == [a, b, c, d] && [b] + [c, d] == [b, c, d] && [c] + [d] == [c, d] && [d] + [] == [d];
  }

  lemma {:induction false} RunCons(s: State, a: Call, rest: seq<Call>)
    ensures Run(s, [a] + rest) == Run(Step(s, a).state, rest)
    ensures Fresh(s, [a] + rest) <==> FreshFor(s, a) && Fresh(Step(s, a).state, rest)
  {
    assert ([a] + rest)[1..] == rest;
  }
}

/** Laws of Customer360 over whole runs: selection, revisions, permission and replay. */
module SharingRuns {
  import opened Base
  import opened Sharing
  import opened SharingLaws

  ghost predicate Fresh(s: State, calls: seq<Call>)
    decreases |calls|
  {
    calls == [] || (FreshFor(s, calls[0]) && Fresh(Step(s, calls[0]).state, calls[1..]))
  }

  lemma {:induction false} StepKeeps(s: State, c: Call)
    requires Inv(s.core) && FreshFor(s, c)
    ensures Inv(Step(s, c).state.core)
  {
    StepHasEffect(s, c);
    EffectKeeps(s.core, EffectOf(s, c));
  }

  lemma {:induction false} RunKeeps(s: State, calls: seq<Call>)
    requires Inv(s.core) && Fresh(s, calls)
    ensures Inv(Run(s, calls).core)
    decreases |calls|
  {
    if calls != [] {
      StepKeeps(s, calls[0]);
      RunKeeps(Step(s, calls[0]).state, calls[1..]);
    }
  }

  lemma {:induction false} RunKeepsNaturals(s: State, calls: seq<Call>)
    requires Inv(s.core) && NaturalsLead(s.core.byNatural, s.core.candidates) && Fresh(s, calls)
    ensures NaturalsLead(Run(s, calls).core.byNatural, Run(s, calls).core.candidates)
    decreases |calls|
  {
    if calls != [] {
      StepKeeps(s, calls[0]);
      StepHasEffect(s, calls[0]);
      EffectKeepsNaturals(s.core, EffectOf(s, calls[0]));
      RunKeepsNaturals(Step(s, calls[0]).state, calls[1..]);
    }
  }

  /** In every reachable state there is at most one candidate per claim version and policy revision. */
  lemma {:induction false} OneCandidatePerVersion(calls: seq<Call>, a: Id, b: Id)
    requires Fresh(EMPTY, calls)
    ensures var k := Run(EMPTY, calls).core;
            a in k.candidates && b in k.candidates && NaturalOf(k.candidates[a]) == NaturalOf(k.candidates[b]) ==>
              a == b
  {
    RunKeepsNaturals(EMPTY, calls);
  }

  /** Proposing a version again, under any key, finds that candidate and adds none. */
  lemma {:induction false} ProposingAgainFinds(calls: seq<Call>, c: Call, id: Id)
    requires var s := Run(EMPTY, calls);
             && Fresh(EMPTY, calls) && c.command.Propose? && c.profile.Some? && KeyOf(c) !in s.remembered
             && id in s.core.candidates && Step(s, c).reply.Ok?
             && var p := PolicyOf(s.core.policies, c.tenant, c.product);
                NaturalOf(s.core.candidates[id]) ==
                (c.tenant, c.product, c.profile.value.id, c.profile.value.version, p.revision)
    ensures var s := Run(EMPTY, calls);
            Step(s, c).state.core == s.core && Step(s, c).reply == Ok(Proposed(s.core.candidates[id]))
  {
    RunKeepsNaturals(EMPTY, calls);
    assert Step(Run(EMPTY, calls), c) == DoPropose(Run(EMPTY, calls), c);
  }

  /** In every reachable state a claim is selected exactly when its candidate is accepted, and every
      accepted candidate has exactly one claim. */
  lemma {:induction false} SelectedMeansAccepted(calls: seq<Call>, x: Id, id: Id)
    requires Fresh(EMPTY, calls)
    ensures var k := Run(EMPTY, calls).core;
            && (x in k.claims ==>
                  && k.claims[x].candidate in k.candidates
                  && (k.claims[x].selected <==> k.candidates[k.claims[x].candidate].status == Accepted))
            && (id in k.candidates && k.candidates[id].status == Accepted ==>
                  exists y :: y in k.claims && k.claims[y].candidate == id && k.claims[y].selected
                              && forall z :: z in k.claims && k.claims[z].candidate == id ==> z == y)
  {
    RunKeeps(EMPTY, calls);
    var k := Run(EMPTY, calls).core;
    if id in k.candidates && k.candidates[id].status == Accepted {
      var y := k.claimOf[id];
      assert k.claims[y].candidate == id;
    }
  }

  // ----- Revisions -----

  lemma {:induction false} WithdrawRaises(k: Core, t: Target, key: EntityKey)
    ensures RevisionOf(Withdraw(k, t).revisions, key) >= RevisionOf(k.revisions, key)
    ensures Selected(Withdraw(k, t).claims, key) != Selected(k.claims, key) ==>
              RevisionOf(Withdraw(k, t).revisions, key) > RevisionOf(k.revisions, key)
  {
    var hits := Hits(k.candidates, t);
    if key !in Touched(k.claims, hits) { UntouchedView(k.claims, hits, key); }
  }

  lemma {:induction false} UntouchedView(claims: map<Id, Claim>, hits: set<Id>, key: EntityKey)
    requires key !in Touched(claims, hits)
    ensures Selected(Retract(claims, hits), key) == Selected(claims, key)
  {
    var r := Retract(claims, hits);
    forall x | x in claims && Entity(claims[x]) == key && claims[x].selected
      ensures r[x] == claims[x]
    {
      assert claims[x].candidate in hits ==> x in Retracts(claims, hits);
    }
  }

  lemma {:induction false} AcceptedElsewhere(claims: map<Id, Claim>, claim: Claim, key: EntityKey)
    requires claim.id !in claims && Entity(claim) != key
    ensures Selected(claims[claim.id := claim], key) == Selected(claims, key)
  {
  }

  /** Every effect that changes an entity's selected claims strictly raises its revision. */
  lemma {:induction false} EffectRaises(k: Core, e: Effect, key: EntityKey)
    requires Enabled(k, e)
    ensures RevisionOf(Apply(k, e).revisions, key) >= RevisionOf(k.revisions, key)
    ensures Selected(Apply(k, e).claims, key) != Selected(k.claims, key) ==>
              RevisionOf(Apply(k, e).revisions, key) > RevisionOf(k.revisions, key)
  {
    match e
    case Purged(t, p, policy) => WithdrawRaises(Reconfigure(k, t, p, policy), Target(t, p, None), key);
    case WithdrawnAt(t) => WithdrawRaises(k, t, key);
    case AcceptedInto(id, x) =>
      var claim := ClaimFrom(k.candidates[id], x);
      if Entity(claim) != key { AcceptedElsewhere(k.claims, claim, key); }
    case _ =>
  }

  lemma {:induction false} StepRaises(s: State, c: Call, key: EntityKey)
    requires FreshFor(s, c)
    ensures var k' := Step(s, c).state.core;
            && RevisionOf(k'.revisions, key) >= RevisionOf(s.core.revisions, key)
            && (Selected(k'.claims, key) != Selected(s.core.claims, key) ==>
                  RevisionOf(k'.revisions, key) > RevisionOf(s.core.revisions, key))
  {
    StepHasEffect(s, c);
    EffectRaises(s.core, EffectOf(s, c), key);
  }

  lemma {:induction false} RevisionsNeverFall(s: State, calls: seq<Call>, key: EntityKey)
    requires Fresh(s, calls)
    ensures RevisionOf(Run(s, calls).core.revisions, key) >= RevisionOf(s.core.revisions, key)
    decreases |calls|
  {
    if calls != [] {
      StepRaises(s, calls[0], key);
      RevisionsNeverFall(Step(s, calls[0]).state, calls[1..], key);
    }
  }

  /** Equal revisions, at two points of a run, mean an equal shared view. */
  lemma {:induction false} EqualRevisionsEqualView(s: State, calls: seq<Call>, key: EntityKey)
    requires Fresh(s, calls)
    requires RevisionOf(Run(s, calls).core.revisions, key) == RevisionOf(s.core.revisions, key)
    ensures Selected(Run(s, calls).core.claims, key) == Selected(s.core.claims, key)
    decreases |calls|
  {
    if calls != [] {
      var s1 := Step(s, calls[0]).state;
      StepRaises(s, calls[0], key);
      RevisionsNeverFall(s1, calls[1..], key);
      EqualRevisionsEqualView(s1, calls[1..], key);
    }
  }

  // ----- Permission -----

  /** The policy re-check on acceptance never fires: every pending candidate is permitted already. */
  lemma {:induction false} AcceptNeverDenied(calls: seq<Call>, c: Call)
    requires Fresh(EMPTY, calls) && c.command.Curate?
    ensures Step(Run(EMPTY, calls), c).reply != Err(PolicyDenied)
  {
    RunKeeps(EMPTY, calls);
  }

  lemma {:induction false} PurgeRetracts(before: map<Id, Candidate>, cands: map<Id, Candidate>,
                                         claims: map<Id, Claim>, claimOf: map<Id, Id>,
                      hits: set<Id>, tenant: string, product: string, x: Id)
    requires Linked(before, claims, claimOf) && Settled(before, claims, claimOf)
    requires cands.Keys == before.Keys && x in claims
    requires forall id :: id in cands ==> cands[id] == before[id] || (cands[id].(status := Pending) == before[id])
    requires hits == Hits(cands, Target(tenant, product, None))
    ensures claims[x].selected && (claims[x].tenant, claims[x].product) == (tenant, product) ==>
        claims[x].candidate in hits
    ensures (claims[x].tenant, claims[x].product) != (tenant, product) ==> claims[x].candidate !in hits
  {
    var id := claims[x].candidate;
    assert MadeFrom(claims[x], before[id], x);
  }

  /** What withdrawing a producer does to one claim, and to one of the producer's candidates. */
  lemma {:induction false} PurgeIsExact(k: Core, tenant: string, product: string, p: Policy, x: Id)
    requires Inv(k) && x in k.claims
    ensures var k' := Apply(k, Purged(tenant, product, p));
            && k'.claims.Keys == k.claims.Keys
            && k'.claims[x] == if (k.claims[x].tenant, k.claims[x].product) == (tenant, product)
                               then k.claims[x].(selected := false) else k.claims[x]
  {
    var cands := Invalidate(k.candidates, tenant, product, p);
    var hits := Hits(cands, Target(tenant, product, None));
    assert Apply(k, Purged(tenant, product, p)).claims == Retract(k.claims, hits);
    PurgeRetracts(k.candidates, cands, k.claims, k.claimOf, hits, tenant, product, x);
  }

  lemma {:induction false} PurgeCloses(k: Core, tenant: string, product: string, p: Policy, id: Id)
    requires id in k.candidates && (k.candidates[id].tenant, k.candidates[id].product) == (tenant, product)
    ensures var k' := Apply(k, Purged(tenant, product, p));
            id in k'.candidates && k'.candidates[id].status in {Rejected, Withdrawn}
  {
    var cands := Invalidate(k.candidates, tenant, product, p);
    var hits := Hits(cands, Target(tenant, product, None));
    assert Apply(k, Purged(tenant, product, p)).candidates == MarkWithdrawn(cands, hits);
    assert cands[id] == Invalidated(k.candidates[id], tenant, product, p);
  }

  /** No claim of the producer is shared. */
  ghost predicate NothingShared(k: Core, tenant: string, product: string) {
    forall x :: x in k.claims && (k.claims[x].tenant, k.claims[x].product) == (tenant, product) ==>
        !k.claims[x].selected
  }

  predicate WithdrawingUpdate(c: Call) { c.command.Configure? && c.command.withdraw }

  lemma {:induction false} WithdrawingEffect(s: State, c: Call)
    requires WithdrawingUpdate(c) && KeyOf(c) !in s.remembered && Step(s, c).reply.Ok?
    ensures Step(s, c).state.core ==
        Apply(s.core, Purged(c.tenant, c.product, c.command.policy.(revision := c.command.expected + 1)))
  {
    var p := c.command.policy.(revision := c.command.expected + 1);
    assert Step(s, c) == DoConfigure(s, c);
    InstallingIsEffect(s.core, c.tenant, c.product, p, true);
    assert Step(s, c).state.core == Installed(s.core, c.tenant, c.product, p, true);
  }

  lemma {:induction false} StepRetracts(s: State, c: Call, x: Id)
    requires Inv(s.core) && WithdrawingUpdate(c) && KeyOf(c) !in s.remembered && Step(s, c).reply.Ok?
    ensures var (k, k') := (s.core, Step(s, c).state.core);
            && (x in k'.claims <==> x in k.claims)
            && (x in k.claims ==>
                  k'.claims[x] == if (k.claims[x].tenant, k.claims[x].product) == (c.tenant, c.product)
                                  then k.claims[x].(selected := false) else k.claims[x])
  {
    WithdrawingEffect(s, c);
    if x in s.core.claims {
      PurgeIsExact(s.core, c.tenant, c.product, c.command.policy.(revision := c.command.expected + 1), x);
    }
  }

  /** A withdrawing policy update that is carried out, in any reachable state, retracts every claim of
      the producer and touches no other claim. */
  lemma {:induction false} WithdrawalRetractsAll(calls: seq<Call>, c: Call, x: Id)
    requires var s := Run(EMPTY, calls);
             && Fresh(EMPTY, calls) && WithdrawingUpdate(c)
             && KeyOf(c) !in s.remembered && Step(s, c).reply.Ok?
    ensures var (k, k') := (Run(EMPTY, calls).core, Step(Run(EMPTY, calls), c).state.core);
            && (x in k'.claims <==> x in k.claims)
            && (x in k.claims ==>
                  k'.claims[x] == if (k.claims[x].tenant, k.claims[x].product) == (c.tenant, c.product)
                                  then k.claims[x].(selected := false) else k.claims[x])
  {
    var s := Run(EMPTY, calls);
    RunKeeps(EMPTY, calls);
    StepRetracts(s, c, x);
  }

  /** It also leaves none of the producer's candidates open. */
  lemma {:induction false} WithdrawalClosesCandidates(calls: seq<Call>, c: Call, id: Id)
    requires var s := Run(EMPTY, calls);
             && WithdrawingUpdate(c) && KeyOf(c) !in s.remembered && Step(s, c).reply.Ok?
             && id in s.core.candidates
             && (s.core.candidates[id].tenant, s.core.candidates[id].product) == (c.tenant, c.product)
    ensures var k' := Step(Run(EMPTY, calls), c).state.core;
            id in k'.candidates && k'.candidates[id].status in {Rejected, Withdrawn}
  {
    var s := Run(EMPTY, calls);
    WithdrawingEffect(s, c);
    PurgeCloses(s.core, c.tenant, c.product, c.command.policy.(revision := c.command.expected + 1), id);
  }

  /** A withdrawing update that answers with success leaves nothing of the producer shared if and only
      if it was carried out now or nothing was shared anyway: a replay answers without withdrawing. */
  lemma {:induction false} WithdrawalIsEffectiveExactly(calls: seq<Call>, c: Call)
    requires var s := Run(EMPTY, calls);
             Fresh(EMPTY, calls) && WithdrawingUpdate(c) && Step(s, c).reply.Ok?
    ensures var s := Run(EMPTY, calls);
            NothingShared(Step(s, c).state.core, c.tenant, c.product) <==>
            KeyOf(c) !in s.remembered || NothingShared(s.core, c.tenant, c.product)
  {
    var s := Run(EMPTY, calls);
    if KeyOf(c) !in s.remembered {
      forall x | x in Step(s, c).state.core.claims
        ensures var claim := Step(s, c).state.core.claims[x];
                (claim.tenant, claim.product) == (c.tenant, c.product) ==> !claim.selected
      {
        WithdrawalRetractsAll(calls, c, x);
      }
    }
  }

  /** Call i of the run created claim x by accepting its candidate, under a producer policy that at
      that moment allowed the claim's whole audience. */
  ghost predicate AcceptedAt(s: State, calls: seq<Call>, i: nat, x: Id, claim: Claim) {
    && i < |calls| && calls[i].command.Curate? && calls[i].command.accept
    && calls[i].command.candidate == claim.candidate
    && x !in Run(s, calls[..i]).core.claims && x in Run(s, calls[..i + 1]).core.claims
    && claim.audience != {}
    && var policy := PolicyOf(Run(s, calls[..i]).core.policies, claim.tenant, claim.product);
       claim.audience <= policy.Audience(claim.property)
  }

  lemma {:induction false} ClaimsOnlyRetract(k: Core, e: Effect, x: Id)
    requires Enabled(k, e) && x in k.claims
    ensures x in Apply(k, e).claims && Apply(k, e).claims[x].(selected := k.claims[x].selected) == k.claims[x]
  {
  }

  lemma {:induction false} NewClaimIsAccepted(k: Core, e: Effect, x: Id)
    requires Linked(k.candidates, k.claims, k.claimOf) && Enabled(k, e) && x !in k.claims && x in Apply(k, e).claims
    ensures e.AcceptedInto? && Apply(k, e).claims[x].candidate == e.id
    ensures var claim := Apply(k, e).claims[x];
            && claim.audience != {}
            && claim.audience <= PolicyOf(k.policies, claim.tenant, claim.product).Audience(claim.property)
  {
  }

  lemma {:induction false} AcceptanceIsCurated(s: State, c: Call)
    requires EffectOf(s, c).AcceptedInto?
    ensures c.command.Curate? && c.command.accept && EffectOf(s, c).id == c.command.candidate
  {
  }

  lemma {:induction false} RunKeepsClaims(s: State, calls: seq<Call>, x: Id)
    requires Fresh(s, calls) && x in s.core.claims
    ensures x in Run(s, calls).core.claims
    ensures Run(s, calls).core.claims[x].(selected := s.core.claims[x].selected) == s.core.claims[x]
    decreases |calls|
  {
    if calls != [] {
      StepHasEffect(s, calls[0]);
      ClaimsOnlyRetract(s.core, EffectOf(s, calls[0]), x);
      RunKeepsClaims(Step(s, calls[0]).state, calls[1..], x);
    }
  }

  lemma {:induction false} RunOfOne(s: State, calls: seq<Call>)
    requires calls != []
    ensures Run(s, calls[..0]) == s && Run(s, calls[..1]) == Step(s, calls[0]).state
  {
    assert calls[..1][1..] == [];
  }

  lemma {:induction false} AcceptedLater(s: State, calls: seq<Call>, j: nat, x: Id, claim: Claim)
    requires calls != [] && AcceptedAt(Step(s, calls[0]).state, calls[1..], j, x, claim)
    ensures AcceptedAt(s, calls, j + 1, x, claim)
  {
    assert calls[..j + 1][1..] == calls[1..][..j];
    assert calls[..j + 2][1..] == calls[1..][..j + 1];
  }

  lemma {:induction false} EveryClaimWasAccepted(s: State, calls: seq<Call>, x: Id) returns (i: nat)
    requires Inv(s.core) && Fresh(s, calls) && x !in s.core.claims && x in Run(s, calls).core.claims
    ensures AcceptedAt(s, calls, i, x, Run(s, calls).core.claims[x])
    decreases |calls|
  {
    var s1 := Step(s, calls[0]).state;
    if x in s1.core.claims {
      StepHasEffect(s, calls[0]);
      NewClaimIsAccepted(s.core, EffectOf(s, calls[0]), x);
      AcceptanceIsCurated(s, calls[0]);
      RunKeepsClaims(s1, calls[1..], x);
      RunOfOne(s, calls);
      i := 0;
    } else {
      StepKeeps(s, calls[0]);
      var j := EveryClaimWasAccepted(s1, calls[1..], x);
      AcceptedLater(s, calls, j, x, Run(s, calls).core.claims[x]);
      i := j + 1;
    }
  }

  /** A reader sees a claim only if, when it was accepted, its producer's policy named the reader, and
      the reader's own policy allows the source now. */
  lemma {:induction false} VisibleWasAllowed(calls: seq<Call>, tenant: string, reader: string, entity: string, x: Id)
    returns (i: nat)
    requires Fresh(EMPTY, calls) && Visible(Run(EMPTY, calls).core, tenant, reader, entity, x)
    ensures var k := Run(EMPTY, calls).core;
            var claim := k.claims[x];
            && Entity(claim) == (tenant, entity)
            && AcceptedAt(EMPTY, calls, i, x, claim)
            && reader in PolicyOf(Run(EMPTY, calls[..i]).core.policies, tenant, claim.product).Audience(claim.property)
            && PolicyOf(k.policies, tenant, reader).CanConsume(claim.product, claim.property)
  {
    RunKeeps(EMPTY, calls);
    i := EveryClaimWasAccepted(EMPTY, calls, x);
  }

  // ----- Replay -----

  lemma {:induction false} PerformRemembers(s: State, c: Call)
    ensures var o := Perform(s, c);
            if o.reply.Ok? then o.state.remembered == s.remembered[KeyOf(c) := (c.command, o.reply.value)]
            else o.state == s
  {
  }

  lemma {:induction false} RememberedStays(s: State, calls: seq<Call>, key: IdemKey)
    requires key in s.remembered
    ensures key in Run(s, calls).remembered && Run(s, calls).remembered[key] == s.remembered[key]
    decreases |calls|
  {
    if calls != [] {
      PerformRemembers(s, calls[0]);
      RememberedStays(Step(s, calls[0]).state, calls[1..], key);
    }
  }

  /** Repeating a successful command, however much later, returns its original reply and changes nothing;
      reusing its key for another command is refused. */
  lemma {:induction false} ReplayIsStable(s: State, c: Call, calls: seq<Call>, again: Call)
    requires Step(s, c).reply.Ok? && KeyOf(again) == KeyOf(c)
    ensures var s' := Run(Step(s, c).state, calls);
            Step(s', again) ==
            Outcome(s', if again.command == c.command then Step(s, c).reply else Err(IdempotencyConflict))
  {
    PerformRemembers(s, c);
    RememberedStays(Step(s, c).state, calls, KeyOf(c));
  }
}

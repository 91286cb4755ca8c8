/** What each Customer360 command does in a reachable state, stated on the records before and after. */
module SharingExact {
  import opened Base
  import opened Sharing
  import opened SharingLaws
  import opened SharingRuns

  /** The command is carried out now, rather than answered from an earlier success. */
  ghost predicate CarriedOut(s: State, c: Call) {
    KeyOf(c) !in s.remembered && Step(s, c).reply.Ok?
  }

  // ----- Policies -----

  /** The producer lets this peer have this property: by a rule for the peer, or by both lists if
      there are no rules at all. */
  ghost predicate MayReceive(p: Policy, property: string, peer: string) {
    && p.publish
    && ((exists r :: r in p.publishRules && r.peer == peer && property in r.predicates)
        || (p.publishRules == {} && property in p.publishPredicates && peer in p.publishTo))
  }

  /** The reader takes this property from this producer, by a rule or by both lists. */
  ghost predicate MayRead(p: Policy, source: string, property: string) {
    && p.consume
    && ((exists r :: r in p.consumeRules && r.peer == source && property in r.predicates)
        || (p.consumeRules == {} && property in p.consumePredicates && source in p.consumeFrom))
  }

  lemma {:induction false} PoliciesExactly(p: Policy, property: string, peer: string)
    ensures peer in p.Audience(property) <==> MayReceive(p, property, peer)
    ensures p.CanConsume(peer, property) <==> MayRead(p, peer, property)
  {
  }

  lemma {:induction false} AllowedExactly(p: Policy, c: Candidate)
    ensures Allowed(p, c) <==> c.audience != {} && forall peer :: peer in c.audience ==> MayReceive(p, c.property, peer)
  {
    forall peer ensures peer in p.Audience(c.property) <==> MayReceive(p, c.property, peer) {
      PoliciesExactly(p, c.property, peer);
    }
  }

  // ----- Withdrawing one private claim -----

  predicate FromSource(c: Candidate, tenant: string, product: string, source: Id) {
    c.tenant == tenant && c.product == product && c.claim == source
  }

  /** The shared claim stems from this private claim of this product. */
  predicate Sourced(k: Core, claim: Claim, tenant: string, product: string, source: Id) {
    && claim.tenant == tenant && claim.product == product
    && claim.candidate in k.candidates && k.candidates[claim.candidate].claim == source
  }

  ghost function OpenFrom(k: Core, tenant: string, product: string, source: Id): set<Id> {
    set id | id in k.candidates && FromSource(k.candidates[id], tenant, product, source)
             && k.candidates[id].status !in {Rejected, Withdrawn}
  }

  ghost function SharedFrom(k: Core, tenant: string, product: string, source: Id): set<Id> {
    set x | x in k.claims && k.claims[x].selected && Sourced(k, k.claims[x], tenant, product, source)
  }

  lemma {:induction false} WithdrawingSource(s: State, c: Call)
    requires c.command.WithdrawSource? && CarriedOut(s, c)
    ensures var t := Target(c.tenant, c.product, Some(c.command.claim));
            var hits := OpenFrom(s.core, c.tenant, c.product, c.command.claim);
            && hits == Hits(s.core.candidates, t)
            && Step(s, c).state.core == Withdraw(s.core, t)
            && Step(s, c).reply.value.Receipt?
            && Step(s, c).reply.value.source == c.command.claim
            && Step(s, c).reply.value.withdrawn == |hits|
            && Step(s, c).reply.value.retracted == |Retracts(s.core.claims, hits)|
            && Step(s, c).reply.value.revisions ==
               (map key | key in Touched(s.core.claims, hits) :: RevisionOf(Withdraw(s.core, t).revisions, key))
  {
    var t := Target(c.tenant, c.product, Some(c.command.claim));
    assert Step(s, c) == DoWithdraw(s, c);
    assert OpenFrom(s.core, c.tenant, c.product, c.command.claim) == Hits(s.core.candidates, t);
  }

  /** A source can be withdrawn exactly when it is in the caller's own profile, in any state; otherwise
      nothing changes. */
  lemma {:induction false} WithdrawalErrors(s: State, c: Call)
    requires c.command.WithdrawSource? && KeyOf(c) !in s.remembered
    ensures var o := Step(s, c);
            if c.profile.None? then o == Outcome(s, Err(NotFound)) else o.reply.Ok? && o.reply.value.Receipt?
  {
    assert Step(s, c) == DoWithdraw(s, c);
  }

  /** A selected claim stems from the source exactly when its candidate is among those withdrawn. */
  lemma {:induction false} SharedIsOpen(k: Core, tenant: string, product: string, source: Id, x: Id)
    requires Inv(k) && x in k.claims
    ensures k.claims[x].candidate in OpenFrom(k, tenant, product, source) ==>
              Sourced(k, k.claims[x], tenant, product, source)
    ensures k.claims[x].selected && Sourced(k, k.claims[x], tenant, product, source) ==>
              k.claims[x].candidate in OpenFrom(k, tenant, product, source)
  {
    assert MadeFrom(k.claims[x], k.candidates[k.claims[x].candidate], x);
  }

  lemma {:induction false} SharedIsRetracted(k: Core, tenant: string, product: string, source: Id)
    requires Inv(k)
    ensures Retracts(k.claims, OpenFrom(k, tenant, product, source)) == SharedFrom(k, tenant, product, source)
  {
    var (a, b) := (Retracts(k.claims, OpenFrom(k, tenant, product, source)), SharedFrom(k, tenant, product, source));
    forall x ensures x in a <==> x in b {
      if x in k.claims { SharedIsOpen(k, tenant, product, source, x); }
    }
  }

  /** Withdrawing a source, in any reachable state, retracts exactly the shared claims that stem from it
      and withdraws exactly its candidates that were still open. */
  lemma {:induction false} SourceWithdrawalIsExact(calls: seq<Call>, c: Call, x: Id, id: Id)
    requires var s := Run(EMPTY, calls);
             Fresh(EMPTY, calls) && c.command.WithdrawSource? && CarriedOut(s, c)
    ensures var (k, k') := (Run(EMPTY, calls).core, Step(Run(EMPTY, calls), c).state.core);
            && (x in k'.claims <==> x in k.claims)
            && (x in k.claims ==>
                  k'.claims[x] == if Sourced(k, k.claims[x], c.tenant, c.product, c.command.claim)
                                  then k.claims[x].(selected := false) else k.claims[x])
            && (id in k'.candidates <==> id in k.candidates)
            && (id in k.candidates ==>
                  k'.candidates[id] == if FromSource(k.candidates[id], c.tenant, c.product, c.command.claim)
                                          && k.candidates[id].status !in {Rejected, Withdrawn}
                                       then k.candidates[id].(status := Withdrawn) else k.candidates[id])
  {
    var s := Run(EMPTY, calls);
    RunKeeps(EMPTY, calls);
    WithdrawingSource(s, c);
    if x in s.core.claims {
      SharedIsOpen(s.core, c.tenant, c.product, c.command.claim, x);
    }
  }

  /** Its receipt counts the candidates withdrawn and the claims retracted. */
  lemma {:induction false} WithdrawalIsCounted(calls: seq<Call>, c: Call)
    requires var s := Run(EMPTY, calls);
             Fresh(EMPTY, calls) && c.command.WithdrawSource? && CarriedOut(s, c)
    ensures var (k, r) := (Run(EMPTY, calls).core, Step(Run(EMPTY, calls), c).reply.value);
            && r.Receipt? && r.source == c.command.claim
            && r.withdrawn == |OpenFrom(k, c.tenant, c.product, c.command.claim)|
            && r.retracted == |SharedFrom(k, c.tenant, c.product, c.command.claim)|
  {
    var s := Run(EMPTY, calls);
    RunKeeps(EMPTY, calls);
    WithdrawingSource(s, c);
    SharedIsRetracted(s.core, c.tenant, c.product, c.command.claim);
  }

  /** Some claim of the entity is among these. */
  ghost predicate Holds(claims: map<Id, Claim>, some: set<Id>, key: EntityKey) {
    exists x :: x in some && x in claims && (claims[x].tenant, claims[x].entity) == key
  }

  lemma {:induction false} BumpedExactly(revisions: map<EntityKey, nat>, claims: map<Id, Claim>, hits: set<Id>,
                                         key: EntityKey)
    ensures var touched := Touched(claims, hits);
            && (key in touched <==> Holds(claims, Retracts(claims, hits), key))
            && RevisionOf(Bump(revisions, touched), key) == RevisionOf(revisions, key) + if key in touched then 1 else 0
  {
    if Holds(claims, Retracts(claims, hits), key) {
      var x :| x in Retracts(claims, hits) && Entity(claims[x]) == key;
      assert Entity(claims[x]) in Touched(claims, hits);
    }
  }

  /** The receipt gives the new revision of each entity that lost a claim: one more than before. No
      other entity's revision moves. */
  lemma {:induction false} WithdrawalRevisions(calls: seq<Call>, c: Call, key: EntityKey)
    requires var s := Run(EMPTY, calls);
             Fresh(EMPTY, calls) && c.command.WithdrawSource? && CarriedOut(s, c)
    ensures var (k, k') := (Run(EMPTY, calls).core, Step(Run(EMPTY, calls), c).state.core);
            var r := Step(Run(EMPTY, calls), c).reply.value;
            var lost := Holds(k.claims, SharedFrom(k, c.tenant, c.product, c.command.claim), key);
            && RevisionOf(k'.revisions, key) == RevisionOf(k.revisions, key) + (if lost then 1 else 0)
            && r.Receipt? && (key in r.revisions <==> lost)
            && (lost ==> r.revisions[key] == RevisionOf(k'.revisions, key))
  {
    var s := Run(EMPTY, calls);
    RunKeeps(EMPTY, calls);
    WithdrawingSource(s, c);
    SharedIsRetracted(s.core, c.tenant, c.product, c.command.claim);
    BumpedExactly(s.core.revisions, s.core.claims, OpenFrom(s.core, c.tenant, c.product, c.command.claim), key);
  }

  // ----- Configuring a policy -----

  /** A policy replaces the one it was written against, and only that one; before any, nothing is
      published or read. */
  lemma {:induction false} ConfiguresExactly(s: State, c: Call)
    requires c.command.Configure? && KeyOf(c) !in s.remembered
    ensures var (o, at) := (Step(s, c), (c.tenant, c.product));
            var current := if at in s.core.policies then s.core.policies[at].revision else 0;
            if c.command.expected != current then o.state == s && o.reply == Err(RevisionConflict)
            else var p := c.command.policy.(revision := current + 1);
                 && o.reply == Ok(Configured(p)) && o.state.core.policies == s.core.policies[at := p]
                 && o.state.aliases == s.aliases && o.state.decisions == s.decisions
    ensures (c.tenant, c.product) !in s.core.policies ==>
              var none := PolicyOf(s.core.policies, c.tenant, c.product); !none.publish && !none.consume
  {
    assert Step(s, c) == DoConfigure(s, c);
  }

  /** The new policy permits sharing this candidate with its whole audience. */
  ghost predicate StillPermits(p: Policy, c: Candidate) {
    c.audience != {} && forall peer :: peer in c.audience ==> MayReceive(p, c.property, peer)
  }

  lemma {:induction false} InstalledCandidate(k: Core, tenant: string, product: string, p: Policy, withdraw: bool,
                                              id: Id)
    requires id in k.candidates
    ensures var (d, after) := (k.candidates[id], Installed(k, tenant, product, p, withdraw).candidates);
            && id in after
            && after[id] ==
               if (d.tenant, d.product) != (tenant, product) then d
               else if withdraw then if d.status in {Rejected, Withdrawn} then d else d.(status := Withdrawn)
               else if d.status == Pending && !StillPermits(p, d) then d.(status := Stale)
               else d
  {
    AllowedExactly(p, k.candidates[id]);
  }

  /** A new policy makes stale exactly the product's pending candidates it does not permit; a
      withdrawing one closes all that are still open. Nothing else about a candidate changes. */
  lemma {:induction false} ConfiguringCandidates(s: State, c: Call, id: Id)
    requires c.command.Configure? && CarriedOut(s, c)
    ensures var (k, k') := (s.core, Step(s, c).state.core);
            && (id in k'.candidates <==> id in k.candidates)
            && (id in k.candidates ==>
                  var d := k.candidates[id];
                  k'.candidates[id] ==
                  if (d.tenant, d.product) != (c.tenant, c.product) then d
                  else if c.command.withdraw then
                    if d.status in {Rejected, Withdrawn} then d else d.(status := Withdrawn)
                  else if d.status == Pending && !StillPermits(c.command.policy, d) then d.(status := Stale)
                  else d)
            && (!c.command.withdraw ==> k'.claims == k.claims && k'.revisions == k.revisions)
  {
    var p := c.command.policy.(revision := c.command.expected + 1);
    assert Step(s, c) == DoConfigure(s, c);
    assert Step(s, c).state.core == Installed(s.core, c.tenant, c.product, p, c.command.withdraw);
    if id in s.core.candidates {
      InstalledCandidate(s.core, c.tenant, c.product, p, c.command.withdraw, id);
    }
  }

  // ----- Binding an alias -----

  lemma {:induction false} BindsExactly(s: State, c: Call)
    requires c.command.BindAlias? && KeyOf(c) !in s.remembered
    ensures var (o, at) := (Step(s, c), (c.tenant, c.command.product, c.command.subject));
            var current := if at in s.aliases then s.aliases[at].revision else 0;
            if c.command.expected != current then o.state == s && o.reply == Err(RevisionConflict)
            else var a := Alias(c.command.entity, current + 1);
                 && o.reply == Ok(Bound(a)) && o.state.aliases == s.aliases[at := a]
                 && o.state.core == s.core && o.state.decisions == s.decisions
  {
    assert Step(s, c) == DoBindAlias(s, c);
  }

  // ----- Proposing -----

  /** The candidate carries the private claim's own contents, under the entity its subject is bound to,
      for exactly the peers the policy names. */
  ghost predicate ProposedFrom(p: Policy, c: Call, entity: string, claim: PrivateClaim, n: Candidate) {
    && n.id == c.freshA && n.tenant == c.tenant && n.product == c.product && n.entity == entity
    && n.claim == claim.id && n.version == claim.version && n.property == claim.property && n.value == claim.value
    && n.policyRevision == p.revision && n.status == Pending
    && forall peer :: peer in n.audience <==> MayReceive(p, claim.property, peer)
  }

  ghost predicate Proposable(s: State, c: Call) {
    && c.profile.Some? && c.profile.value.asserted
    && (c.tenant, c.product, c.profile.value.subject) in s.aliases
    && exists peer ::
         MayReceive(PolicyOf(s.core.policies, c.tenant, c.product), c.profile.value.property, peer)
  }

  lemma {:induction false} ProposalErrors(s: State, c: Call)
    requires c.command.Propose? && KeyOf(c) !in s.remembered
    ensures Step(s, c).reply.Ok? <==> Proposable(s, c)
    ensures Step(s, c).reply.Err? ==> Step(s, c).state == s
    ensures Step(s, c).reply == Err(NotFound) <==> c.profile.None?
    ensures Step(s, c).reply == Err(InvalidState) <==> c.profile.Some? && !c.profile.value.asserted
    ensures Step(s, c).reply == Err(AliasNotFound) <==>
            c.profile.Some? && c.profile.value.asserted && (c.tenant, c.product, c.profile.value.subject) !in s.aliases
  {
    assert Step(s, c) == DoPropose(s, c);
    if c.profile.Some? {
      var (p, property) := (PolicyOf(s.core.policies, c.tenant, c.product), c.profile.value.property);
      forall peer ensures peer in p.Audience(property) <==> MayReceive(p, property, peer) {
        PoliciesExactly(p, property, peer);
      }
    }
  }

  /** This version of this claim was proposed under this policy revision already. */
  ghost predicate AlreadyProposed(k: Core, c: Call, claim: PrivateClaim, revision: nat, id: Id) {
    && id in k.candidates && FromSource(k.candidates[id], c.tenant, c.product, claim.id)
    && k.candidates[id].version == claim.version && k.candidates[id].policyRevision == revision
  }

  lemma {:induction false} NaturalIsProposed(k: Core, c: Call, claim: PrivateClaim, revision: nat)
    requires NaturalsLead(k.byNatural, k.candidates)
    ensures var n := (c.tenant, c.product, claim.id, claim.version, revision);
            forall id :: AlreadyProposed(k, c, claim, revision, id) <==>
                         n in k.byNatural && k.byNatural[n] in k.candidates && id == k.byNatural[n]
  {
  }

  /** A proposal that is carried out, in any reachable state, answers with the one candidate there is for
      that version under the current policy, and adds one only if there was none. */
  lemma {:induction false} ProposesExactly(calls: seq<Call>, c: Call)
    requires var s := Run(EMPTY, calls); Fresh(EMPTY, calls) && c.command.Propose? && CarriedOut(s, c)
    ensures var (s, o) := (Run(EMPTY, calls), Step(Run(EMPTY, calls), c));
            var p := PolicyOf(s.core.policies, c.tenant, c.product);
            && c.profile.Some? && o.reply.value.Proposed? && o.state.aliases == s.aliases
            && var (claim, n) := (c.profile.value, o.reply.value.candidate);
               if exists id :: AlreadyProposed(s.core, c, claim, p.revision, id) then
                 o.state.core == s.core && AlreadyProposed(s.core, c, claim, p.revision, n.id)
                 && s.core.candidates[n.id] == n
               else
                 && (c.tenant, c.product, claim.subject) in s.aliases
                 && ProposedFrom(p, c, s.aliases[(c.tenant, c.product, claim.subject)].entity, claim, n)
                 && o.state.core.candidates == s.core.candidates[c.freshA := n]
                 && o.state.core.claims == s.core.claims && o.state.core.revisions == s.core.revisions
                 && o.state.core.policies == s.core.policies
  {
    var s := Run(EMPTY, calls);
    RunKeeps(EMPTY, calls);
    RunKeepsNaturals(EMPTY, calls);
    assert Step(s, c) == DoPropose(s, c);
    var (p, claim) := (PolicyOf(s.core.policies, c.tenant, c.product), c.profile.value);
    NaturalIsProposed(s.core, c, claim, p.revision);
    forall peer ensures peer in p.Audience(claim.property) <==> MayReceive(p, claim.property, peer) {
      PoliciesExactly(p, claim.property, peer);
    }
  }

  // ----- Curating -----

  /** The shared claim repeats its candidate's contents and is selected. */
  ghost predicate SharedAs(n: Candidate, x: Id, claim: Claim) {
    && claim.id == x && claim.candidate == n.id && claim.tenant == n.tenant && claim.entity == n.entity
    && claim.product == n.product && claim.property == n.property && claim.value == n.value
    && claim.audience == n.audience && claim.policyRevision == n.policyRevision && claim.selected
  }

  ghost predicate Curatable(s: State, c: Call)
    requires c.command.Curate?
  {
    && c.command.candidate in s.core.candidates
    && var n := s.core.candidates[c.command.candidate];
       && n.tenant == c.tenant && n.status == Pending
       && RevisionOf(s.core.revisions, (n.tenant, n.entity)) == c.command.expected
  }

  /** In a reachable state a decision is carried out exactly on a pending candidate of the tenant, taken
      at the entity's current revision. */
  lemma {:induction false} CurationErrors(calls: seq<Call>, c: Call)
    requires Fresh(EMPTY, calls) && c.command.Curate? && KeyOf(c) !in Run(EMPTY, calls).remembered
    ensures var (s, o) := (Run(EMPTY, calls), Step(Run(EMPTY, calls), c));
            && (o.reply.Ok? <==> Curatable(s, c))
            && (o.reply.Err? ==> o.state == s && o.reply.error in {NotFound, InvalidState, RevisionConflict})
            && (o.reply == Err(NotFound) <==>
                  c.command.candidate !in s.core.candidates
                  || s.core.candidates[c.command.candidate].tenant != c.tenant)
            && (o.reply == Err(InvalidState) <==>
                  && c.command.candidate in s.core.candidates
                  && s.core.candidates[c.command.candidate].tenant == c.tenant
                  && s.core.candidates[c.command.candidate].status != Pending)
  {
    var s := Run(EMPTY, calls);
    RunKeeps(EMPTY, calls);
    assert Step(s, c) == DoCurate(s, c);
  }

  /** What deciding on candidate id leaves: its status, and the shared claim x if it was accepted. */
  ghost predicate DecidedInto(k: Core, id: Id, accept: bool, x: Id, k': Core)
    requires id in k.candidates
  {
    var n := k.candidates[id];
    && k'.candidates == k.candidates[id := n.(status := if accept then Accepted else Rejected)]
    && if !accept then k'.claims == k.claims
       else && x in k'.claims && SharedAs(n, x, k'.claims[x])
            && k'.claims == k.claims[x := k'.claims[x]]
  }

  lemma {:induction false} DecidedCore(k: Core, id: Id, accept: bool, x: Id)
    requires id in k.candidates && k.candidates[id].id == id
    ensures DecidedInto(k, id, accept, x, if accept then Accept(k, id, x) else Decide(k, id, Rejected))
  {
  }

  lemma {:induction false} CurateSteps(s: State, c: Call)
    requires c.command.Curate? && CarriedOut(s, c)
    ensures var (k, id) := (s.core, c.command.candidate);
            && id in k.candidates
            && RevisionOf(k.revisions, (k.candidates[id].tenant, k.candidates[id].entity)) == c.command.expected
            && Step(s, c).state.core == if c.command.accept then Accept(k, id, c.freshA) else Decide(k, id, Rejected)
  {
    assert Step(s, c) == DoCurate(s, c);
  }

  /** What a decision does to the records: the candidate gets its status, the entity's revision goes up
      by one, and an acceptance, and nothing else, adds a shared claim with the candidate's contents. */
  lemma {:induction false} CuratesExactly(s: State, c: Call)
    requires Linked(s.core.candidates, s.core.claims, s.core.claimOf)
    requires c.command.Curate? && CarriedOut(s, c)
    ensures var (k, k', id) := (s.core, Step(s, c).state.core, c.command.candidate);
            && id in k.candidates && DecidedInto(k, id, c.command.accept, c.freshA, k')
            && var key := (k.candidates[id].tenant, k.candidates[id].entity);
               k'.revisions == k.revisions[key := c.command.expected + 1]
  {
    CurateSteps(s, c);
    DecidedCore(s.core, c.command.candidate, c.command.accept, c.freshA);
  }

  /** The decision is logged last, with its author's reason and both revisions, and the reply is what
      was stored. */
  lemma {:induction false} CurationIsLogged(s: State, c: Call)
    requires c.command.Curate? && CarriedOut(s, c)
    ensures var (o, id) := (Step(s, c), c.command.candidate);
            && o.reply.value.Curated? && id in o.state.core.candidates
            && var Curated(n, d, claim, revision) := o.reply.value;
               && o.state.decisions == s.decisions + [d] && revision == c.command.expected + 1
               && d.id == c.freshB && d.candidate == id && d.accept == c.command.accept
               && d.reason == c.command.reason && d.previous == c.command.expected && d.current == revision
               && n == o.state.core.candidates[id] && claim.Some? == c.command.accept
               && (claim.Some? ==> c.freshA in o.state.core.claims && claim.value == o.state.core.claims[c.freshA])
  {
    assert Step(s, c) == DoCurate(s, c);
  }

  // ----- Reading -----

  /** In a reachable state a reader sees exactly the selected claims of the entity that name the reader
      and that the reader's own policy takes. */
  lemma {:induction false} VisibleExactly(calls: seq<Call>, tenant: string, reader: string, entity: string, x: Id)
    requires Fresh(EMPTY, calls)
    ensures var k := Run(EMPTY, calls).core;
            Visible(k, tenant, reader, entity, x) <==>
            && x in k.claims && k.claims[x].tenant == tenant && k.claims[x].entity == entity
            && k.claims[x].selected && reader in k.claims[x].audience
            && (tenant, reader) in k.policies
            && MayRead(k.policies[(tenant, reader)], k.claims[x].product, k.claims[x].property)
  {
    RunKeeps(EMPTY, calls);
    var k := Run(EMPTY, calls).core;
    if x in k.claims {
      PoliciesExactly(PolicyOf(k.policies, tenant, reader), k.claims[x].property, k.claims[x].product);
    }
  }
}

/** What every run of the Customer360 provider keeps. */
module SharingLaws {
  import opened Base
  import opened Sharing

  // ----- The invariant -----

  /** Claims and the candidates they were made from point at each other and agree. */
  ghost predicate Linked(candidates: map<Id, Candidate>, claims: map<Id, Claim>, claimOf: map<Id, Id>) {
    && (forall id :: id in candidates ==> candidates[id].id == id)
    && (forall x :: x in claims ==>
          var id := claims[x].candidate;
          id in candidates && id in claimOf && claimOf[id] == x && MadeFrom(claims[x], candidates[id], x))
    && (forall id :: id in claimOf ==> claimOf[id] in claims && claims[claimOf[id]].candidate == id)
  }

  predicate MadeFrom(claim: Claim, c: Candidate, x: Id) {
    claim == ClaimFrom(c, x).(selected := claim.selected)
  }

  /** A claim is selected exactly when its candidate is accepted, and only accepted candidates ever have one. */
  ghost predicate Settled(candidates: map<Id, Candidate>, claims: map<Id, Claim>, claimOf: map<Id, Id>) {
    && (forall x :: x in claims && claims[x].candidate in candidates ==>
          (claims[x].selected <==> candidates[claims[x].candidate].status == Accepted))
    && (forall id :: id in candidates && candidates[id].status == Accepted ==> id in claimOf)
    && (forall id :: id in candidates && id in claimOf ==> candidates[id].status in {Accepted, Withdrawn})
  }

  /** Each claim is listed once, under its own entity. */
  ghost predicate Indexed(claims: map<Id, Claim>, byEntity: map<EntityKey, seq<Id>>) {
    && (forall key, x :: key in byEntity && x in byEntity[key] ==> x in claims && Entity(claims[x]) == key)
    && (forall x :: x in claims ==> Entity(claims[x]) in byEntity && x in byEntity[Entity(claims[x])])
    && (forall key :: key in byEntity ==> Distinct(byEntity[key]))
  }

  /** The producer's current policy permits every pending candidate. */
  ghost predicate PendingAllowed(candidates: map<Id, Candidate>, policies: map<ScopeKey, Policy>) {
    forall id :: id in candidates && candidates[id].status == Pending ==>
      Allowed(PolicyOf(policies, candidates[id].tenant, candidates[id].product), candidates[id])
  }

  /** What a candidate was proposed for: a claim version under a policy revision of its producer. */
  function NaturalOf(c: Candidate): NaturalKey {
    (c.tenant, c.product, c.claim, c.version, c.policyRevision)
  }

  ghost predicate NaturalsKnown(byNatural: map<NaturalKey, Id>, candidates: map<Id, Candidate>) {
    forall n :: n in byNatural ==> byNatural[n] in candidates
  }

  /** Every candidate is the one its own natural key leads to, and no key leads to another's. */
  ghost predicate NaturalsLead(byNatural: map<NaturalKey, Id>, candidates: map<Id, Candidate>) {
    && (forall id :: id in candidates ==>
          NaturalOf(candidates[id]) in byNatural && byNatural[NaturalOf(candidates[id])] == id)
    && (forall n :: n in byNatural && byNatural[n] in candidates ==> NaturalOf(candidates[byNatural[n]]) == n)
  }

  ghost predicate Inv(k: Core) {
    && Linked(k.candidates, k.claims, k.claimOf) && Settled(k.candidates, k.claims, k.claimOf)
    && Indexed(k.claims, k.byEntity)
    && PendingAllowed(k.candidates, k.policies)
    && NaturalsKnown(k.byNatural, k.candidates)
  }

  // ----- What a step does to the core -----

  datatype Effect =
    | Nothing
    | Reconfigured(tenant: string, product: string, policy: Policy)
    | Purged(tenant: string, product: string, policy: Policy)
    | Added(candidate: Candidate, natural: NaturalKey)
    | AcceptedInto(id: Id, claim: Id)
    | Refused(id: Id)
    | WithdrawnAt(target: Target)

  /** When an effect can occur. */
  predicate Enabled(k: Core, e: Effect) {
    match e
    case Added(c, n) =>
      && c.id !in k.candidates && c.status == Pending && Allowed(PolicyOf(k.policies, c.tenant, c.product), c)
      && n == NaturalOf(c) && (n in k.byNatural ==> k.byNatural[n] !in k.candidates)
    case AcceptedInto(id, x) =>
      && id in k.candidates && k.candidates[id].status == Pending && x !in k.claims
      && Allowed(PolicyOf(k.policies, k.candidates[id].tenant, k.candidates[id].product), k.candidates[id])
    case Refused(id) => id in k.candidates && k.candidates[id].status == Pending
    case _ => true
  }

  function Apply(k: Core, e: Effect): Core
    requires Enabled(k, e)
  {
    match e
    case Nothing => k
    case Reconfigured(t, p, policy) => Reconfigure(k, t, p, policy)
    case Purged(t, p, policy) => Withdraw(Reconfigure(k, t, p, policy), Target(t, p, None))
    case Added(c, n) => Add(k, c, n)
    case AcceptedInto(id, x) => Accept(k, id, x)
    case Refused(id) => Decide(k, id, Rejected)
    case WithdrawnAt(t) => Withdraw(k, t)
  }

  /** Generated identifiers have not been used before. */
  predicate FreshFor(s: State, c: Call) {
    c.freshA !in s.core.candidates && c.freshA !in s.core.claims
  }

  /** The effect of a call, read off the program's branches. */
  function EffectOf(s: State, c: Call): Effect {
    if KeyOf(c) in s.remembered || Step(s, c).reply.Err? then Nothing
    else
      match c.command
      case BindAlias(_, _, _, _) => Nothing
      case Configure(wanted, expected, withdraw) =>
        var p := wanted.(revision := expected + 1);
        if withdraw then Purged(c.tenant, c.product, p) else Reconfigured(c.tenant, c.product, p)
      case Propose(_) =>
        var p := PolicyOf(s.core.policies, c.tenant, c.product);
        var reply := Step(s, c).reply.value;
        if c.profile.Some? && reply.Proposed? && Step(s, c).state.core != s.core then
          Added(reply.candidate, (c.tenant, c.product, c.profile.value.id, c.profile.value.version, p.revision))
        else Nothing
      case Curate(id, accept, _, _) => if accept then AcceptedInto(id, c.freshA) else Refused(id)
      case WithdrawSource(claim, _) => WithdrawnAt(Target(c.tenant, c.product, Some(claim)))
  }

  ghost predicate HasEffect(s: State, c: Call) {
    Enabled(s.core, EffectOf(s, c)) && Step(s, c).state.core == Apply(s.core, EffectOf(s, c))
  }

  lemma {:induction false} ConfigureHasEffect(s: State, c: Call)
    requires c.command.Configure? && KeyOf(c) !in s.remembered
    ensures HasEffect(s, c)
  {
    assert Step(s, c) == DoConfigure(s, c);
    if Step(s, c).reply.Ok? {
      var p := c.command.policy.(revision := c.command.expected + 1);
      InstallingIsEffect(s.core, c.tenant, c.product, p, c.command.withdraw);
      assert Step(s, c).state.core == Installed(s.core, c.tenant, c.product, p, c.command.withdraw);
    }
  }

  lemma {:induction false} InstallingIsEffect(k: Core, tenant: string, product: string, p: Policy, withdraw: bool)
    ensures var e := if withdraw then Purged(tenant, product, p) else Reconfigured(tenant, product, p);
            Enabled(k, e) && Apply(k, e) == Installed(k, tenant, product, p, withdraw)
  {
  }

  lemma {:induction false} ProposeHasEffect(s: State, c: Call)
    requires FreshFor(s, c) && c.command.Propose? && KeyOf(c) !in s.remembered
    ensures HasEffect(s, c)
  {
    assert Step(s, c) == DoPropose(s, c);
  }

  lemma {:induction false} CurateHasEffect(s: State, c: Call)
    requires FreshFor(s, c) && c.command.Curate? && KeyOf(c) !in s.remembered
    ensures HasEffect(s, c)
  {
    assert Step(s, c) == DoCurate(s, c);
  }

  lemma {:induction false} WithdrawHasEffect(s: State, c: Call)
    requires c.command.WithdrawSource? && KeyOf(c) !in s.remembered
    ensures HasEffect(s, c)
  {
    assert Step(s, c) == DoWithdraw(s, c);
  }

  lemma {:induction false} BindHasEffect(s: State, c: Call)
    requires c.command.BindAlias? && KeyOf(c) !in s.remembered
    ensures HasEffect(s, c)
  {
    assert Step(s, c) == DoBindAlias(s, c);
  }

  /** Every call, replayed, refused or performed, has exactly the effect read off it. */
  lemma {:induction false} StepHasEffect(s: State, c: Call)
    requires FreshFor(s, c)
    ensures HasEffect(s, c)
  {
    if KeyOf(c) !in s.remembered {
      match c.command
      case BindAlias(_, _, _, _) => BindHasEffect(s, c);
      case Configure(_, _, _) => ConfigureHasEffect(s, c);
      case Propose(_) => ProposeHasEffect(s, c);
      case Curate(_, _, _, _) => CurateHasEffect(s, c);
      case WithdrawSource(_, _) => WithdrawHasEffect(s, c);
    }
  }

  // ----- Every effect keeps the invariant -----

  lemma {:induction false} WithdrawKeeps(k: Core, t: Target)
    requires Inv(k)
    ensures Inv(Withdraw(k, t))
  {
    WithdrawKeepsLinks(k.candidates, k.claims, k.claimOf, Hits(k.candidates, t));
    WithdrawKeepsIndex(k.claims, k.byEntity, Hits(k.candidates, t));
  }

  lemma {:induction false} WithdrawLinks(candidates: map<Id, Candidate>, claims: map<Id, Claim>, claimOf: map<Id, Id>,
                                         hits: set<Id>)
    requires Linked(candidates, claims, claimOf)
    ensures Linked(MarkWithdrawn(candidates, hits), Retract(claims, hits), claimOf)
  {
    var marked, left := MarkWithdrawn(candidates, hits), Retract(claims, hits);
    forall x | x in left ensures MadeFrom(left[x], marked[left[x].candidate], x) {
      assert MadeFrom(claims[x], candidates[claims[x].candidate], x);
    }
  }

  lemma {:induction false} WithdrawSettles(candidates: map<Id, Candidate>, claims: map<Id, Claim>,
                                           claimOf: map<Id, Id>,
                                           hits: set<Id>)
    requires Linked(candidates, claims, claimOf) && Settled(candidates, claims, claimOf)
    requires forall id :: id in hits ==> id in candidates && candidates[id].status != Rejected
    ensures Settled(MarkWithdrawn(candidates, hits), Retract(claims, hits), claimOf)
  {
  }

  lemma {:induction false} WithdrawKeepsLinks(candidates: map<Id, Candidate>, claims: map<Id, Claim>,
                                              claimOf: map<Id, Id>, hits: set<Id>)
    requires Linked(candidates, claims, claimOf) && Settled(candidates, claims, claimOf)
    requires forall id :: id in hits ==> id in candidates && candidates[id].status != Rejected
    ensures Linked(MarkWithdrawn(candidates, hits), Retract(claims, hits), claimOf)
    ensures Settled(MarkWithdrawn(candidates, hits), Retract(claims, hits), claimOf)
  {
    WithdrawLinks(candidates, claims, claimOf, hits);
    WithdrawSettles(candidates, claims, claimOf, hits);
  }

  lemma {:induction false} WithdrawKeepsIndex(claims: map<Id, Claim>, byEntity: map<EntityKey, seq<Id>>,
                                              hits: set<Id>)
    requires Indexed(claims, byEntity)
    ensures Indexed(Retract(claims, hits), byEntity)
  {
    var r := Retract(claims, hits);
    assert forall x :: x in r ==> Entity(r[x]) == Entity(claims[x]);
  }

  lemma {:induction false} ReconfigureKeeps(k: Core, tenant: string, product: string, p: Policy)
    requires Inv(k)
    ensures Inv(Reconfigure(k, tenant, product, p))
  {
    InvalidateKeepsLinks(k.candidates, k.claims, k.claimOf, tenant, product, p);
    InvalidateAllows(k.candidates, k.policies, tenant, product, p);
  }

  lemma {:induction false} InvalidateKeepsLinks(candidates: map<Id, Candidate>, claims: map<Id, Claim>,
                                                claimOf: map<Id, Id>,
                             tenant: string, product: string, p: Policy)
    requires Linked(candidates, claims, claimOf) && Settled(candidates, claims, claimOf)
    ensures Linked(Invalidate(candidates, tenant, product, p), claims, claimOf)
    ensures Settled(Invalidate(candidates, tenant, product, p), claims, claimOf)
  {
  }

  lemma {:induction false} InvalidateAllows(candidates: map<Id, Candidate>, policies: map<ScopeKey, Policy>,
                         tenant: string, product: string, p: Policy)
    requires PendingAllowed(candidates, policies)
    ensures PendingAllowed(Invalidate(candidates, tenant, product, p), policies[(tenant, product) := p])
  {
  }

  lemma {:induction false} IndexAdd(claims: map<Id, Claim>, byEntity: map<EntityKey, seq<Id>>, claim: Claim)
    requires Indexed(claims, byEntity) && claim.id !in claims
    ensures Indexed(claims[claim.id := claim], Append(byEntity, Entity(claim), claim.id))
  {
    if Entity(claim) in byEntity { DistinctAppend(byEntity[Entity(claim)], [claim.id]); }
  }

  /** Deciding a pending candidate, which has no claim yet. */
  lemma {:induction false} DecideKeeps(candidates: map<Id, Candidate>, claims: map<Id, Claim>, claimOf: map<Id, Id>,
                                       id: Id)
    requires Linked(candidates, claims, claimOf) && Settled(candidates, claims, claimOf)
    requires id in candidates && candidates[id].status == Pending
    ensures id !in claimOf && forall x :: x in claims ==> claims[x].candidate != id
    ensures var rejected := candidates[id := candidates[id].(status := Rejected)];
            Linked(rejected, claims, claimOf) && Settled(rejected, claims, claimOf)
  {
    assert id !in claimOf;
    var rejected := candidates[id := candidates[id].(status := Rejected)];
    assert Linked(rejected, claims, claimOf);
  }

  lemma {:induction false} AcceptLinks(candidates: map<Id, Candidate>, claims: map<Id, Claim>, claimOf: map<Id, Id>,
                                       id: Id, x: Id)
    requires Linked(candidates, claims, claimOf) && x !in claims
    requires id in candidates && id !in claimOf && forall y :: y in claims ==> claims[y].candidate != id
    ensures Linked(candidates[id := candidates[id].(status := Accepted)],
                   claims[x := ClaimFrom(candidates[id], x)], claimOf[id := x])
  {
  }

  lemma {:induction false} AcceptSettles(candidates: map<Id, Candidate>, claims: map<Id, Claim>,
                                         claimOf: map<Id, Id>, id: Id, x: Id)
    requires Settled(candidates, claims, claimOf) && x !in claims && id in candidates && candidates[id].id == id
    requires forall y :: y in claims ==> claims[y].candidate != id
    ensures Settled(candidates[id := candidates[id].(status := Accepted)],
                    claims[x := ClaimFrom(candidates[id], x)], claimOf[id := x])
  {
  }

  lemma {:induction false} AddKeepsLinks(candidates: map<Id, Candidate>, claims: map<Id, Claim>,
                                         claimOf: map<Id, Id>, c: Candidate)
    requires Linked(candidates, claims, claimOf) && Settled(candidates, claims, claimOf)
    requires c.id !in candidates && c.status == Pending
    ensures Linked(candidates[c.id := c], claims, claimOf) && Settled(candidates[c.id := c], claims, claimOf)
  {
    assert c.id !in claimOf;
    assert Linked(candidates[c.id := c], claims, claimOf);
  }

  lemma {:induction false} PendingLeft(candidates: map<Id, Candidate>, policies: map<ScopeKey, Policy>, c: Candidate)
    requires PendingAllowed(candidates, policies)
    requires c.status == Pending ==> Allowed(PolicyOf(policies, c.tenant, c.product), c)
    ensures PendingAllowed(candidates[c.id := c], policies)
  {
  }

  lemma {:induction false} AddKeeps(k: Core, c: Candidate, n: NaturalKey)
    requires Inv(k) && Enabled(k, Added(c, n))
    ensures Inv(Add(k, c, n))
  {
    AddKeepsLinks(k.candidates, k.claims, k.claimOf, c);
    PendingLeft(k.candidates, k.policies, c);
  }

  lemma {:induction false} RefuseKeeps(k: Core, id: Id)
    requires Inv(k) && Enabled(k, Refused(id))
    ensures Inv(Decide(k, id, Rejected))
  {
    DecideKeeps(k.candidates, k.claims, k.claimOf, id);
    PendingLeft(k.candidates, k.policies, k.candidates[id].(status := Rejected));
  }

  lemma {:induction false} AcceptKeeps(k: Core, id: Id, x: Id)
    requires Inv(k) && Enabled(k, AcceptedInto(id, x))
    ensures Inv(Accept(k, id, x))
  {
    DecideKeeps(k.candidates, k.claims, k.claimOf, id);
    AcceptLinks(k.candidates, k.claims, k.claimOf, id, x);
    AcceptSettles(k.candidates, k.claims, k.claimOf, id, x);
    IndexAdd(k.claims, k.byEntity, ClaimFrom(k.candidates[id], x));
    PendingLeft(k.candidates, k.policies, k.candidates[id].(status := Accepted));
  }

  lemma {:induction false} EffectKeeps(k: Core, e: Effect)
    requires Inv(k) && Enabled(k, e)
    ensures Inv(Apply(k, e))
  {
    match e
    case Nothing =>
    case Reconfigured(t, p, policy) => ReconfigureKeeps(k, t, p, policy);
    case Purged(t, p, policy) =>
      ReconfigureKeeps(k, t, p, policy);
      WithdrawKeeps(Reconfigure(k, t, p, policy), Target(t, p, None));
    case Added(c, n) => AddKeeps(k, c, n);
    case AcceptedInto(id, x) => AcceptKeeps(k, id, x);
    case Refused(id) => RefuseKeeps(k, id);
    case WithdrawnAt(t) => WithdrawKeeps(k, t);
  }

  // ----- Every effect keeps the natural index exact -----

  /** Deciding, invalidating and withdrawing candidates leaves what they were proposed for alone. */
  lemma {:induction false} NaturalsStay(byNatural: map<NaturalKey, Id>, before: map<Id, Candidate>,
                                        after: map<Id, Candidate>)
    requires NaturalsLead(byNatural, before) && after.Keys == before.Keys
    requires forall id :: id in before ==> NaturalOf(after[id]) == NaturalOf(before[id])
    ensures NaturalsLead(byNatural, after)
  {
  }

  lemma {:induction false} NaturalsMarked(byNatural: map<NaturalKey, Id>, candidates: map<Id, Candidate>,
                                          hits: set<Id>)
    requires NaturalsLead(byNatural, candidates)
    ensures NaturalsLead(byNatural, MarkWithdrawn(candidates, hits))
  {
    NaturalsStay(byNatural, candidates, MarkWithdrawn(candidates, hits));
  }

  lemma {:induction false} NaturalsDecided(byNatural: map<NaturalKey, Id>, candidates: map<Id, Candidate>, id: Id,
                                           to: Status)
    requires NaturalsLead(byNatural, candidates) && id in candidates
    ensures NaturalsLead(byNatural, candidates[id := candidates[id].(status := to)])
  {
    NaturalsStay(byNatural, candidates, candidates[id := candidates[id].(status := to)]);
  }

  lemma {:induction false} NaturalsAdd(byNatural: map<NaturalKey, Id>, candidates: map<Id, Candidate>, c: Candidate)
    requires NaturalsKnown(byNatural, candidates) && NaturalsLead(byNatural, candidates) && c.id !in candidates
    requires NaturalOf(c) in byNatural ==> byNatural[NaturalOf(c)] !in candidates
    ensures NaturalsLead(byNatural[NaturalOf(c) := c.id], candidates[c.id := c])
  {
  }

  lemma {:induction false} EffectKeepsNaturals(k: Core, e: Effect)
    requires NaturalsKnown(k.byNatural, k.candidates) && NaturalsLead(k.byNatural, k.candidates) && Enabled(k, e)
    ensures NaturalsLead(Apply(k, e).byNatural, Apply(k, e).candidates)
  {
    match e
    case Nothing =>
    case Added(c, n) => NaturalsAdd(k.byNatural, k.candidates, c);
    case Reconfigured(t, p, policy) => NaturalsStay(k.byNatural, k.candidates, Invalidate(k.candidates, t, p, policy));
    case Purged(t, p, policy) =>
      var cands := Invalidate(k.candidates, t, p, policy);
      NaturalsStay(k.byNatural, k.candidates, cands);
      NaturalsMarked(k.byNatural, cands, Hits(cands, Target(t, p, None)));
    case AcceptedInto(id, x) => NaturalsDecided(k.byNatural, k.candidates, id, Accepted);
    case Refused(id) => NaturalsDecided(k.byNatural, k.candidates, id, Rejected);
    case WithdrawnAt(t) => NaturalsMarked(k.byNatural, k.candidates, Hits(k.candidates, t));
  }
}

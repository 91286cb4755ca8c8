/** Customer360 sharing: policies, candidates, curated claims, and the steps that change them. */
module Sharing {
  import opened Base

  type Id = string

  // ----- Policies -----

  datatype Rule = Rule(peer: string, predicates: set<string>)

  datatype Policy = Policy(
    publish: bool, consume: bool,
    publishPredicates: set<string>, consumePredicates: set<string>,
    publishTo: set<string>, consumeFrom: set<string>,
    publishRules: set<Rule>, consumeRules: set<Rule>,
    revision: nat)
  {
    /** The peers explicitly allowed to receive a property. */
    function Audience(property: string): set<string> {
      if !publish then {}
      else if publishRules != {} then set r | r in publishRules && property in r.predicates :: r.peer
      else if property !in publishPredicates then {}
      else publishTo
    }

    predicate CanConsume(source: string, property: string) {
      consume &&
      if consumeRules != {} then exists r :: r in consumeRules && r.peer == source && property in r.predicates
      else source in consumeFrom && property in consumePredicates
    }
  }

  const DEFAULT_POLICY: Policy := Policy(false, false, {}, {}, {}, {}, {}, {}, 0)

  // ----- Records -----

  datatype Status = Pending | Accepted | Rejected | Stale | Withdrawn

  datatype Candidate = Candidate(
    id: Id, tenant: string, entity: string, product: string, claim: Id, version: nat,
    property: string, value: string, audience: set<string>, policyRevision: nat, status: Status)

  datatype Claim = Claim(
    id: Id, tenant: string, entity: string, property: string, value: string, audience: set<string>,
    product: string, candidate: Id, policyRevision: nat, selected: bool)

  datatype Alias = Alias(entity: string, revision: nat)

  datatype PrivateClaim = PrivateClaim(
    id: Id, subject: string, property: string, value: string, version: nat, asserted: bool)

  datatype Decision = Decision(id: Id, candidate: Id, accept: bool, reason: string, previous: nat, current: nat)

  type ScopeKey = (string, string)    // tenant and product
  type EntityKey = (string, string)   // tenant and entity
  type NaturalKey = (string, string, Id, nat, nat)        // tenant, product, claim, claim version, policy revision
  type IdemKey = (string, string, string, string)         // tenant, product, operation, caller's key

  /** What a caller asks for; an idempotency key is bound to one such command. */
  datatype Command =
    | BindAlias(product: string, subject: string, entity: string, expected: nat)
    | Configure(policy: Policy, expected: nat, withdraw: bool)
    | Propose(claim: Id)
    | Curate(candidate: Id, accept: bool, reason: string, expected: nat)
    | WithdrawSource(claim: Id, reason: string)

  datatype Reply =
    | Bound(alias: Alias)
    | Configured(policy: Policy)
    | Proposed(candidate: Candidate)
    | Curated(candidate: Candidate, decision: Decision, claim: Option<Claim>, revision: nat)
    | Receipt(source: Id, withdrawn: nat, retracted: nat, revisions: map<EntityKey, nat>)

  datatype Error =
    IdempotencyConflict | RevisionConflict | NotFound | InvalidState | PolicyDenied | AliasNotFound

  /** Everything that decides what is shared with whom. */
  datatype Core = Core(
    policies: map<ScopeKey, Policy>,
    candidates: map<Id, Candidate>,
    byNatural: map<NaturalKey, Id>,
    claims: map<Id, Claim>,
    claimOf: map<Id, Id>,
    byEntity: map<EntityKey, seq<Id>>,
    revisions: map<EntityKey, nat>)

  datatype State = State(
    core: Core,
    aliases: map<(string, string, string), Alias>,
    decisions: seq<Decision>,
    remembered: map<IdemKey, (Command, Reply)>)

  const EMPTY_CORE: Core := Core(map[], map[], map[], map[], map[], map[], map[])
  const EMPTY: State := State(EMPTY_CORE, map[], [], map[])

  function PolicyOf(policies: map<ScopeKey, Policy>, tenant: string, product: string): Policy {
    if (tenant, product) in policies then policies[(tenant, product)] else DEFAULT_POLICY
  }

  function RevisionOf(revisions: map<EntityKey, nat>, key: EntityKey): nat {
    if key in revisions then revisions[key] else 0
  }

  predicate Allowed(p: Policy, c: Candidate) {
    c.audience != {} && c.audience <= p.Audience(c.property)
  }

  // ----- The changes a step can make to the core -----

  /** Pending candidates of a product that its new policy no longer permits become stale. */
  function Invalidated(c: Candidate, tenant: string, product: string, p: Policy): Candidate {
    if c.tenant == tenant && c.product == product && c.status == Pending && !Allowed(p, c) then
        c.(status := Stale) else c
  }

  function Invalidate(candidates: map<Id, Candidate>, tenant: string, product: string, p: Policy):
    map<Id, Candidate>
  {
    map id | id in candidates :: Invalidated(candidates[id], tenant, product, p)
  }

  function Reconfigure(k: Core, tenant: string, product: string, p: Policy): Core {
    k.(policies := k.policies[(tenant, product) := p], candidates := Invalidate(k.candidates, tenant, product, p))
  }

  /** A product's contributions, or those drawn from one private claim. */
  datatype Target = Target(tenant: string, product: string, claim: Option<Id>)

  predicate Hit(t: Target, c: Candidate) {
    && c.tenant == t.tenant && c.product == t.product
    && (t.claim.Some? ==> c.claim == t.claim.value)
    && c.status != Rejected && c.status != Withdrawn
  }

  function Hits(candidates: map<Id, Candidate>, t: Target): set<Id> {
    set id | id in candidates && Hit(t, candidates[id])
  }

  /** The selected claims made from hit candidates. */
  function Retracts(claims: map<Id, Claim>, hits: set<Id>): set<Id> {
    set x | x in claims && claims[x].selected && claims[x].candidate in hits
  }

  function Entity(c: Claim): EntityKey { (c.tenant, c.entity) }

  function Touched(claims: map<Id, Claim>, hits: set<Id>): set<EntityKey> {
    set x | x in Retracts(claims, hits) :: Entity(claims[x])
  }

  function Bump(revisions: map<EntityKey, nat>, touched: set<EntityKey>): map<EntityKey, nat> {
    map key | key in revisions.Keys + touched :: RevisionOf(revisions, key) + if key in touched then 1 else 0
  }

  function MarkWithdrawn(candidates: map<Id, Candidate>, hits: set<Id>): map<Id, Candidate> {
    map id | id in candidates :: if id in hits then candidates[id].(status := Withdrawn) else candidates[id]
  }

  function Retract(claims: map<Id, Claim>, hits: set<Id>): map<Id, Claim> {
    map x | x in claims :: if claims[x].candidate in hits then claims[x].(selected := false) else claims[x]
  }

  function Withdraw(k: Core, t: Target): Core {
    var hits := Hits(k.candidates, t);
    k.(candidates := MarkWithdrawn(k.candidates, hits),
       claims := Retract(k.claims, hits),
       revisions := Bump(k.revisions, Touched(k.claims, hits)))
  }

  function Add(k: Core, c: Candidate, natural: NaturalKey): Core {
    k.(candidates := k.candidates[c.id := c], byNatural := k.byNatural[natural := c.id])
  }

  function ClaimFrom(c: Candidate, id: Id): Claim {
    Claim(id, c.tenant, c.entity, c.property, c.value, c.audience, c.product, c.id, c.policyRevision, true)
  }

  function Append(m: map<EntityKey, seq<Id>>, key: EntityKey, x: Id): map<EntityKey, seq<Id>> {
    m[key := (if key in m then m[key] else []) + [x]]
  }

  function Decide(k: Core, id: Id, status: Status): Core
    requires id in k.candidates
  {
    var c := k.candidates[id];
    k.(candidates := k.candidates[id := c.(status := status)],
       revisions := k.revisions[(c.tenant, c.entity) := RevisionOf(k.revisions, (c.tenant, c.entity)) + 1])
  }

  function Accept(k: Core, id: Id, claimId: Id): Core
    requires id in k.candidates
  {
    var c := k.candidates[id];
    Decide(k, id, Accepted).(
      claims := k.claims[claimId := ClaimFrom(c, claimId)],
      claimOf := k.claimOf[id := claimId],
      byEntity := Append(k.byEntity, (c.tenant, c.entity), claimId))
  }

  // ----- Steps -----

  /** Who asks, under which idempotency key, with what foreign inputs: the private claim read from the
      product's own profile, and fresh identifiers. */
  datatype Call = Call(
    tenant: string, product: string, key: string, command: Command,
    profile: Option<PrivateClaim>, freshA: Id, freshB: Id)

  function OpName(c: Command): string {
    match c
    case BindAlias(_, _, _, _) => "customer360.bind_entity_alias"
    case Configure(_, _, _) => "customer360.configure_policy"
    case Propose(_) => "customer360.propose_share"
    case Curate(_, _, _, _) => "customer360.curate"
    case WithdrawSource(_, _) => "customer360.withdraw_source"
  }

  function KeyOf(c: Call): IdemKey { (c.tenant, c.product, OpName(c.command), c.key) }

  datatype Outcome = Outcome(state: State, reply: Result<Reply, Error>)

  function Refuse(s: State, e: Error): Outcome { Outcome(s, Err(e)) }

  function Remember(s: State, c: Call, r: Reply): Outcome {
    Outcome(s.(remembered := s.remembered[KeyOf(c) := (c.command, r)]), Ok(r))
  }

  function DoBindAlias(s: State, c: Call): Outcome
    requires c.command.BindAlias?
  {
    var BindAlias(product, subject, entity, expected) := c.command;
    var at := (c.tenant, product, subject);
    var current := if at in s.aliases then s.aliases[at].revision else 0;
    if expected != current then Refuse(s, RevisionConflict)
    else
      var a := Alias(entity, current + 1);
      Remember(s.(aliases := s.aliases[at := a]), c, Bound(a))
  }

  function Installed(k: Core, tenant: string, product: string, p: Policy, withdraw: bool): Core {
    var installed := Reconfigure(k, tenant, product, p);
    if withdraw then Withdraw(installed, Target(tenant, product, None)) else installed
  }

  function DoConfigure(s: State, c: Call): Outcome
    requires c.command.Configure?
  {
    var Configure(wanted, expected, withdraw) := c.command;
    var current := PolicyOf(s.core.policies, c.tenant, c.product);
    if current.revision != expected then Refuse(s, RevisionConflict)
    else
      var p := wanted.(revision := current.revision + 1);
      Remember(s.(core := Installed(s.core, c.tenant, c.product, p, withdraw)), c, Configured(p))
  }

  function NewCandidate(p: Policy, c: Call, entity: string, claim: PrivateClaim): Candidate {
    Candidate(c.freshA, c.tenant, entity, c.product, claim.id, claim.version, claim.property, claim.value,
              p.Audience(claim.property), p.revision, Pending)
  }

  function DoPropose(s: State, c: Call): Outcome
    requires c.command.Propose?
  {
    if c.profile.None? then Refuse(s, NotFound)
    else if !c.profile.value.asserted then Refuse(s, InvalidState)
    else
      var claim := c.profile.value;
      var at := (c.tenant, c.product, claim.subject);
      if at !in s.aliases then Refuse(s, AliasNotFound)
      else
        var p := PolicyOf(s.core.policies, c.tenant, c.product);
        if p.Audience(claim.property) == {} then Refuse(s, PolicyDenied)
        else
          var natural := (c.tenant, c.product, claim.id, claim.version, p.revision);
          if natural in s.core.byNatural && s.core.byNatural[natural] in s.core.candidates then
            Remember(s, c, Proposed(s.core.candidates[s.core.byNatural[natural]]))
          else
            var n := NewCandidate(p, c, s.aliases[at].entity, claim);
            Remember(s.(core := Add(s.core, n, natural)), c, Proposed(n))
  }

  function DoCurate(s: State, c: Call): Outcome
    requires c.command.Curate?
  {
    var Curate(id, accept, reason, expected) := c.command;
    if id !in s.core.candidates || s.core.candidates[id].tenant != c.tenant then Refuse(s, NotFound)
    else
      var cand := s.core.candidates[id];
      if cand.status != Pending then Refuse(s, InvalidState)
      else if accept && !Allowed(PolicyOf(s.core.policies, cand.tenant, cand.product), cand) then
          Refuse(s, PolicyDenied)
      else
        var current := RevisionOf(s.core.revisions, (cand.tenant, cand.entity));
        if current != expected then Refuse(s, RevisionConflict)
        else
          var d := Decision(c.freshB, id, accept, reason, current, current + 1);
          var decided := cand.(status := if accept then Accepted else Rejected);
          Remember(
            s.(core := if accept then Accept(s.core, id, c.freshA) else Decide(s.core, id, Rejected),
               decisions := s.decisions + [d]),
            c,
            Curated(decided, d, if accept then Some(ClaimFrom(cand, c.freshA)) else None, current + 1))
  }

  function DoWithdraw(s: State, c: Call): Outcome
    requires c.command.WithdrawSource?
  {
    if c.profile.None? then Refuse(s, NotFound)
    else
      var t := Target(c.tenant, c.product, Some(c.command.claim));
      var hits := Hits(s.core.candidates, t);
      var touched := Touched(s.core.claims, hits);
      var k := Withdraw(s.core, t);
      Remember(s.(core := k), c,
               Receipt(c.command.claim, |hits|, |Retracts(s.core.claims, hits)|,
                       map key | key in touched :: RevisionOf(k.revisions, key)))
  }

  function Perform(s: State, c: Call): Outcome {
    match c.command
    case BindAlias(_, _, _, _) => DoBindAlias(s, c)
    case Configure(_, _, _) => DoConfigure(s, c)
    case Propose(_) => DoPropose(s, c)
    case Curate(_, _, _, _) => DoCurate(s, c)
    case WithdrawSource(_, _) => DoWithdraw(s, c)
  }

  /** Every command first looks for its own earlier success. */
  function Step(s: State, c: Call): Outcome {
    if KeyOf(c) in s.remembered then
      if s.remembered[KeyOf(c)].0 != c.command then Refuse(s, IdempotencyConflict)
      else Outcome(s, Ok(s.remembered[KeyOf(c)].1))
    else Perform(s, c)
  }

  function Run(s: State, calls: seq<Call>): State
    decreases |calls|
  {
    if calls == [] then s else Run(Step(s, calls[0]).state, calls[1..])
  }

  // ----- Reading -----

  /** A claim the reader may see now. */
  predicate Visible(k: Core, tenant: string, product: string, entity: string, x: Id) {
    && (tenant, entity) in k.byEntity && x in k.byEntity[(tenant, entity)] && x in k.claims
    && k.claims[x].selected && product in k.claims[x].audience
    && PolicyOf(k.policies, tenant, product).CanConsume(k.claims[x].product, k.claims[x].property)
  }

  /** The selected claims of an entity. */
  function Selected(claims: map<Id, Claim>, key: EntityKey): map<Id, Claim> {
    map x | x in claims && claims[x].selected && Entity(claims[x]) == key :: claims[x]
  }
}

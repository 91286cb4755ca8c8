/** The in-memory Customer360 provider: dictionaries updated in place, proved against the step function. */
module Customer360 {
  import opened Base
  import opened Sharing
  import opened SharingLaws

  class Provider {
    var aliases: map<(string, string, string), Alias>
    var policies: map<ScopeKey, Policy>
    var candidates: map<Id, Candidate>
    var byNatural: map<NaturalKey, Id>
    var claims: map<Id, Claim>
    var claimOf: map<Id, Id>
    var byEntity: map<EntityKey, seq<Id>>
    var revisions: map<EntityKey, nat>
    var decisions: seq<Decision>
    var remembered: map<IdemKey, (Command, Reply)>

    function CoreModel(): Core
      reads this
    {
      Core(policies, candidates, byNatural, claims, claimOf, byEntity, revisions)
    }

    function Model(): State
      reads this
    {
      State(CoreModel(), aliases, decisions, remembered)
    }

    constructor ()
      ensures Model() == EMPTY && Inv(CoreModel())
    {
      aliases, policies, candidates, byNatural := map[], map[], map[], map[];
      claims, claimOf, byEntity, revisions := map[], map[], map[], map[];
      decisions, remembered := [], map[];
    }

    /** The stored reply of an earlier identical command, or a conflict. */
    method Replay(c: Call) returns (found: Option<Result<Reply, Error>>)
      ensures found == if KeyOf(c) in remembered then Some(Step(Model(), c).reply) else None
    {
      if KeyOf(c) !in remembered { return None; }
      if remembered[KeyOf(c)].0 != c.command { return Some(Err(IdempotencyConflict)); }
      return Some(Ok(remembered[KeyOf(c)].1));
    }

    /** Stores a successful reply for later replays. */
    method KeepReply(c: Call, r: Reply) returns (reply: Result<Reply, Error>)
      modifies this`remembered
      ensures Outcome(Model(), reply) == Remember(old(Model()), c, r)
    {
      remembered := remembered[KeyOf(c) := (c.command, r)];
      return Ok(r);
    }

    method BindEntityAlias(c: Call) returns (reply: Result<Reply, Error>)
      requires c.command.BindAlias?
      modifies this
      ensures Model() == Step(old(Model()), c).state && reply == Step(old(Model()), c).reply
    {
      var replayed := Replay(c);
      if replayed.Some? { return replayed.value; }
      var BindAlias(product, subject, entity, expected) := c.command;
      var at := (c.tenant, product, subject);
      var current := if at in aliases then aliases[at].revision else 0;
      if expected != current { return Err(RevisionConflict); }
      var alias := Alias(entity, current + 1);
      aliases := aliases[at := alias];
      remembered := remembered[KeyOf(c) := (c.command, Bound(alias))];
      return Ok(Bound(alias));
    }

    method InvalidatePending(tenant: string, product: string, p: Policy)
      modifies this`candidates
      ensures candidates == Invalidate(old(candidates), tenant, product, p)
    {
      var ids := Elements(candidates.Keys);
      ghost var before := candidates;
      for i := 0 to |ids|
        invariant candidates.Keys == before.Keys
        invariant forall j :: 0 <= j < i ==> candidates[ids[j]] == Invalidated(before[ids[j]], tenant, product, p)
        invariant forall j :: i <= j < |ids| ==> candidates[ids[j]] == before[ids[j]]
      {
        assert ids[i] in ids;
        var c := candidates[ids[i]];
        if c.tenant == tenant && c.product == product && c.status == Pending && !Allowed(p, c) {
          candidates := candidates[ids[i] := c.(status := Stale)];
        }
      }
      forall id | id in before ensures candidates[id] == Invalidated(before[id], tenant, product, p) {
        assert id in ids;
      }
    }

    method BumpEntities(touched: set<EntityKey>)
      modifies this`revisions
      ensures revisions == Bump(old(revisions), touched)
    {
      ghost var before := revisions;
      ghost var done: set<EntityKey> := {};
      var rest := touched;
      BumpNothing(revisions);
      while rest != {}
        invariant done == touched - rest && rest <= touched && revisions == Bump(before, done)
        decreases rest
      {
        var key :| key in rest;
        BumpOne(before, done, key);
        revisions := revisions[key := RevisionOf(revisions, key) + 1];
        rest := rest - {key};
        done := done + {key};
      }
      MinusNothing(touched);
    }

    /** Withdraws one hit candidate and retracts its claim, if that is selected. */
    method WithdrawOne(ghost k: Core, ghost done: set<Id>, id: Id, withdrawn: nat, retracted: nat,
                       touched: set<EntityKey>)
      returns (withdrawn': nat, retracted': nat, touched': set<EntityKey>)
      requires Linked(k.candidates, k.claims, k.claimOf) && id in k.candidates && id !in done && claimOf == k.claimOf
      requires Progress(candidates, claims, withdrawn, retracted, touched) == ProgressOf(k, done)
      modifies this`candidates, this`claims
      ensures Progress(candidates, claims, withdrawn', retracted', touched') == ProgressOf(k, done + {id})
    {
      OneMore(k, done, id);
      var c := candidates[id];
      withdrawn', retracted', touched' := withdrawn + 1, retracted, touched;
      candidates := candidates[id := c.(status := Withdrawn)];
      if id in claimOf {
        var claim := claims[claimOf[id]];
        if claim.selected {
          claims := claims[claimOf[id] := claim.(selected := false)];
          retracted' := retracted' + 1;
          touched' := touched' + {(c.tenant, c.entity)};
        }
      }
    }

    /** One pass of the loop over all candidates. */
    method WithdrawNext(ghost k: Core, t: Target, ghost rest: set<Id>, id: Id, withdrawn: nat, retracted: nat,
                        touched: set<EntityKey>)
      returns (withdrawn': nat, retracted': nat, touched': set<EntityKey>)
      requires Linked(k.candidates, k.claims, k.claimOf) && claimOf == k.claimOf && id in rest && id in k.candidates
      requires Progress(candidates, claims, withdrawn, retracted, touched) ==
          ProgressOf(k, Hits(k.candidates, t) - rest)
      modifies this`candidates, this`claims
      ensures Progress(candidates, claims, withdrawn', retracted', touched')
           == ProgressOf(k, Hits(k.candidates, t) - (rest - {id}))
    {
      NextHit(k.candidates, t, rest, id);
      if Hit(t, candidates[id]) {
        withdrawn', retracted', touched' :=
          WithdrawOne(k, Hits(k.candidates, t) - rest, id, withdrawn, retracted, touched);
      } else {
        withdrawn', retracted', touched' := withdrawn, retracted, touched;
      }
    }

    method WithdrawHits(t: Target) returns (withdrawn: nat, retracted: nat, touched: set<EntityKey>)
      requires Linked(candidates, claims, claimOf)
      modifies this`candidates, this`claims
      ensures Progress(candidates, claims, withdrawn, retracted, touched)
           == ProgressOf(old(CoreModel()), Hits(old(candidates), t))
    {
      ghost var k := CoreModel();
      withdrawn, retracted, touched := 0, 0, {};
      var rest := candidates.Keys;
      NoProgress(k);
      NoHitsYet(k.candidates, t);
      while rest != {}
        invariant rest <= k.candidates.Keys && claimOf == k.claimOf
        invariant Progress(candidates, claims, withdrawn, retracted, touched) ==
            ProgressOf(k, Hits(k.candidates, t) - rest)
        decreases rest
      {
        var id :| id in rest;
        withdrawn, retracted, touched := WithdrawNext(k, t, rest, id, withdrawn, retracted, touched);
        rest := rest - {id};
      }
      MinusNothing(Hits(k.candidates, t));
    }

    /** Withdraws the hit candidates, retracts their selected claims and raises the entities touched. */
    method WithdrawLocked(t: Target) returns (withdrawn: nat, retracted: nat, touched: set<EntityKey>)
      requires Linked(candidates, claims, claimOf)
      modifies this`candidates, this`claims, this`revisions
      ensures CoreModel() == Withdraw(old(CoreModel()), t)
      ensures var hits := Hits(old(candidates), t);
              withdrawn == |hits| && retracted == |Retracts(old(claims), hits)| && touched == Touched(old(claims), hits)
    {
      withdrawn, retracted, touched := WithdrawHits(t);
      BumpEntities(touched);
    }

    method ConfigurePolicy(c: Call) returns (reply: Result<Reply, Error>)
      requires Inv(CoreModel()) && c.command.Configure?
      modifies this
      ensures Model() == Step(old(Model()), c).state && reply == Step(old(Model()), c).reply
    {
      var replayed := Replay(c);
      if replayed.Some? { return replayed.value; }
      reply := ConfigureLocked(c);
    }

    method InstallPolicy(tenant: string, product: string, p: Policy)
      requires Linked(candidates, claims, claimOf)
      modifies this`policies, this`candidates
      ensures CoreModel() == Reconfigure(old(CoreModel()), tenant, product, p)
      ensures Linked(candidates, claims, claimOf)
    {
      InvalidateKeepsLinked(candidates, claims, claimOf, tenant, product, p);
      policies := policies[(tenant, product) := p];
      InvalidatePending(tenant, product, p);
    }

    method ApplyPolicy(tenant: string, product: string, p: Policy, withdraw: bool)
      requires Linked(candidates, claims, claimOf)
      modifies this`policies, this`candidates, this`claims, this`revisions
      ensures CoreModel() == Installed(old(CoreModel()), tenant, product, p, withdraw)
    {
      InstallPolicy(tenant, product, p);
      if withdraw {
        var _, _, _ := WithdrawLocked(Target(tenant, product, None));
      }
    }

    method ConfigureLocked(c: Call) returns (reply: Result<Reply, Error>)
      requires Linked(candidates, claims, claimOf) && c.command.Configure?
      modifies this
      ensures Outcome(Model(), reply) == DoConfigure(old(Model()), c)
    {
      var current := PolicyOf(policies, c.tenant, c.product);
      if current.revision != c.command.expected { return Err(RevisionConflict); }
      var policy := c.command.policy.(revision := current.revision + 1);
      ghost var s := Model();
      ApplyPolicy(c.tenant, c.product, policy, c.command.withdraw);
      assert Model() == s.(core := Installed(s.core, c.tenant, c.product, policy, c.command.withdraw));
      reply := KeepReply(c, Configured(policy));
      ConfigureOutcome(s, c, policy);
    }

    method ProposeShare(c: Call) returns (reply: Result<Reply, Error>)
      requires Inv(CoreModel()) && c.command.Propose?
      modifies this
      ensures Model() == Step(old(Model()), c).state && reply == Step(old(Model()), c).reply
    {
      var replayed := Replay(c);
      if replayed.Some? { return replayed.value; }
      if c.profile.None? { return Err(NotFound); }
      var claim := c.profile.value;
      if !claim.asserted { return Err(InvalidState); }
      var at := (c.tenant, c.product, claim.subject);
      if at !in aliases { return Err(AliasNotFound); }
      var policy := PolicyOf(policies, c.tenant, c.product);
      var audience := policy.Audience(claim.property);
      if audience == {} { return Err(PolicyDenied); }
      var natural := (c.tenant, c.product, claim.id, claim.version, policy.revision);
      var candidate;
      if natural in byNatural {
        candidate := candidates[byNatural[natural]];
      } else {
        candidate := Candidate(c.freshA, c.tenant, aliases[at].entity, c.product, claim.id, claim.version,
                               claim.property, claim.value, audience, policy.revision, Pending);
        candidates := candidates[candidate.id := candidate];
        byNatural := byNatural[natural := candidate.id];
      }
      remembered := remembered[KeyOf(c) := (c.command, Proposed(candidate))];
      return Ok(Proposed(candidate));
    }

    method CurateCandidate(c: Call) returns (reply: Result<Reply, Error>)
      requires c.command.Curate?
      modifies this
      ensures Model() == Step(old(Model()), c).state && reply == Step(old(Model()), c).reply
    {
      var replayed := Replay(c);
      if replayed.Some? { return replayed.value; }
      reply := CurateLocked(c);
    }

    /** Writes the decided status, the claim an acceptance creates, and the next revision. */
    method SettleCandidate(id: Id, candidate: Candidate, accept: bool, claimId: Id, current: nat)
      returns (claim: Option<Claim>)
      requires id in candidates && candidates[id] == candidate
      requires current == RevisionOf(revisions, (candidate.tenant, candidate.entity))
      modifies this`candidates, this`claims, this`claimOf, this`byEntity, this`revisions
      ensures CoreModel() ==
              if accept then Accept(old(CoreModel()), id, claimId) else Decide(old(CoreModel()), id, Rejected)
      ensures claim == if accept then Some(ClaimFrom(candidate, claimId)) else None
    {
      var key := (candidate.tenant, candidate.entity);
      candidates := candidates[id := candidate.(status := if accept then Accepted else Rejected)];
      claim := None;
      if accept {
        claim := Some(ClaimFrom(candidate, claimId));
        claims := claims[claimId := claim.value];
        claimOf := claimOf[id := claimId];
        byEntity := Append(byEntity, key, claimId);
      }
      revisions := revisions[key := current + 1];
    }

    method CurateLocked(c: Call) returns (reply: Result<Reply, Error>)
      requires c.command.Curate?
      modifies this
      ensures Outcome(Model(), reply) == DoCurate(old(Model()), c)
    {
      var Curate(id, accept, reason, expected) := c.command;
      if id !in candidates || candidates[id].tenant != c.tenant { return Err(NotFound); }
      var candidate := candidates[id];
      if candidate.status != Pending { return Err(InvalidState); }
      if accept && !Allowed(PolicyOf(policies, candidate.tenant, candidate.product), candidate) {
        return Err(PolicyDenied);
      }
      var key := (candidate.tenant, candidate.entity);
      var current := RevisionOf(revisions, key);
      if current != expected { return Err(RevisionConflict); }
      var updated := candidate.(status := if accept then Accepted else Rejected);
      var claim := SettleCandidate(id, candidate, accept, c.freshA, current);
      var decision := Decision(c.freshB, id, accept, reason, current, current + 1);
      decisions := decisions + [decision];
      var result := Curated(updated, decision, claim, current + 1);
      remembered := remembered[KeyOf(c) := (c.command, result)];
      return Ok(result);
    }

    method WithdrawClaim(c: Call) returns (reply: Result<Reply, Error>)
      requires Inv(CoreModel()) && c.command.WithdrawSource?
      modifies this
      ensures Model() == Step(old(Model()), c).state && reply == Step(old(Model()), c).reply
    {
      var replayed := Replay(c);
      if replayed.Some? { return replayed.value; }
      reply := WithdrawClaimLocked(c);
    }

    method WithdrawClaimLocked(c: Call) returns (reply: Result<Reply, Error>)
      requires Linked(candidates, claims, claimOf) && c.command.WithdrawSource?
      modifies this
      ensures Outcome(Model(), reply) == DoWithdraw(old(Model()), c)
    {
      if c.profile.None? { return Err(NotFound); }
      var withdrawn, retracted, touched := WithdrawLocked(Target(c.tenant, c.product, Some(c.command.claim)));
      var raised := map key | key in touched :: RevisionOf(revisions, key);
      var receipt := Receipt(c.command.claim, withdrawn, retracted, raised);
      remembered := remembered[KeyOf(c) := (c.command, receipt)];
      return Ok(receipt);
    }

    /** The claims of an entity that a product may see, in the order they were accepted. */
    method ReadShared(tenant: string, product: string, entity: string) returns (visible: Option<seq<Claim>>)
      requires Inv(CoreModel())
      ensures visible.None? <==> !PolicyOf(policies, tenant, product).consume
      ensures visible.Some? ==>
                && Distinct(visible.value)
                && forall claim :: claim in visible.value <==>
                     claim.id in claims && claims[claim.id] ==
                       claim && Visible(CoreModel(), tenant, product, entity, claim.id)
    {
      var policy := PolicyOf(policies, tenant, product);
      if !policy.consume { return None; }
      var ids := if (tenant, entity) in byEntity then byEntity[(tenant, entity)] else [];
      var found: seq<Claim> := [];
      for i := 0 to |ids|
        invariant forall claim :: claim in found <==>
          && claim.id in ids[..i] && claim.id in claims && claims[claim.id] == claim
          && Visible(CoreModel(), tenant, product, entity, claim.id)
        invariant Distinct(found)
      {
        assert ids[i] in ids && ids[..i + 1] == ids[..i] + [ids[i]] && ids[i] !in ids[..i];
        var claim := claims[ids[i]];
        assert claim.id == ids[i];
        if claim.selected && product in claim.audience && policy.CanConsume(claim.product, claim.property) {
          DistinctAppend(found, [claim]);
          found := found + [claim];
        }
      }
      assert ids[..|ids|] == ids;
      return Some(found);
    }
  }

  // ----- One turn of each loop -----

  lemma {:induction false} InvalidateKeepsLinked(candidates: map<Id, Candidate>, claims: map<Id, Claim>,
                                                 claimOf: map<Id, Id>,
                              tenant: string, product: string, p: Policy)
    requires Linked(candidates, claims, claimOf)
    ensures Linked(Invalidate(candidates, tenant, product, p), claims, claimOf)
  {
  }

  lemma {:induction false} ConfigureOutcome(s: State, c: Call, p: Policy)
    requires c.command.Configure? && PolicyOf(s.core.policies, c.tenant, c.product).revision == c.command.expected
    requires p == c.command.policy.(revision := c.command.expected + 1)
    ensures DoConfigure(s, c) ==
            Remember(s.(core := Installed(s.core, c.tenant, c.product, p, c.command.withdraw)), c, Configured(p))
  {
  }

  lemma {:induction false} BumpNothing(revisions: map<EntityKey, nat>)
    ensures Bump(revisions, {}) == revisions
  {
  }

  lemma {:induction false} BumpOne(revisions: map<EntityKey, nat>, done: set<EntityKey>, key: EntityKey)
    requires key !in done
    ensures Bump(revisions, done + {key}) == Bump(revisions, done)[key := RevisionOf(Bump(revisions, done), key) + 1]
  {
  }

  /** The withdrawal loop's variables once the candidates in `done` are handled. */
  datatype Progress = Progress(
    candidates: map<Id, Candidate>, claims: map<Id, Claim>, withdrawn: nat, retracted: nat, touched: set<EntityKey>)

  function ProgressOf(k: Core, done: set<Id>): Progress {
    Progress(MarkWithdrawn(k.candidates, done), Retract(k.claims, done), |done|, |Retracts(k.claims, done)|,
             Touched(k.claims, done))
  }

  lemma {:induction false} NextHit(candidates: map<Id, Candidate>, t: Target, rest: set<Id>, id: Id)
    requires id in rest && id in candidates
    ensures var done := Hits(candidates, t) - rest;
            && id !in done && MarkWithdrawn(candidates, done)[id] == candidates[id]
            && Hits(candidates, t) - (rest - {id}) == if Hit(t, candidates[id]) then done + {id} else done
  {
  }

  lemma {:induction false} NoHitsYet(candidates: map<Id, Candidate>, t: Target)
    ensures Hits(candidates, t) - candidates.Keys == {}
  {
  }

  lemma {:induction false} NoProgress(k: Core)
    ensures ProgressOf(k, {}) == Progress(k.candidates, k.claims, 0, 0, {})
  {
    assert Retracts(k.claims, {}) == {};
  }

  lemma {:induction false} OneMore(k: Core, done: set<Id>, id: Id)
    requires Linked(k.candidates, k.claims, k.claimOf) && id !in done && id in k.candidates
    ensures var (c, p) := (k.candidates[id], ProgressOf(k, done));
            var marked := p.candidates[id := c.(status := Withdrawn)];
            && (id in k.claimOf ==> k.claimOf[id] in p.claims && p.claims[k.claimOf[id]] == k.claims[k.claimOf[id]])
            && ProgressOf(k, done + {id}) ==
               if id in k.claimOf && k.claims[k.claimOf[id]].selected then
                 var x := k.claimOf[id];
                 Progress(marked, p.claims[x := k.claims[x].(selected := false)], p.withdrawn + 1, p.retracted + 1,
                          p.touched + {(c.tenant, c.entity)})
               else Progress(marked, p.claims, p.withdrawn + 1, p.retracted, p.touched)
  {
    var x := if id in k.claimOf then Some(k.claimOf[id]) else None;
    MarkOne(k.candidates, done, id);
    if x.Some? && k.claims[x.value].selected {
      RetractOne(k.claims, done, id, x.value);
    } else {
      RetractNone(k.claims, done, id);
    }
  }

  lemma {:induction false} MarkOne(candidates: map<Id, Candidate>, done: set<Id>, id: Id)
    requires id in candidates
    ensures MarkWithdrawn(candidates, done + {id}) ==
        MarkWithdrawn(candidates, done)[id := candidates[id].(status := Withdrawn)]
  {
  }

  lemma {:induction false} RetractOne(claims: map<Id, Claim>, done: set<Id>, id: Id, x: Id)
    requires id !in done && x in claims && claims[x].selected && claims[x].candidate == id
    requires forall y :: y in claims && claims[y].candidate == id ==> y == x
    ensures Retract(claims, done + {id}) == Retract(claims, done)[x := claims[x].(selected := false)]
    ensures |Retracts(claims, done + {id})| == |Retracts(claims, done)| + 1
    ensures Touched(claims, done + {id}) == Touched(claims, done) + {Entity(claims[x])}
  {
    assert Retracts(claims, done + {id}) == Retracts(claims, done) + {x};
  }

  lemma {:induction false} RetractNone(claims: map<Id, Claim>, done: set<Id>, id: Id)
    requires forall y :: y in claims && claims[y].candidate == id ==> !claims[y].selected
    ensures Retract(claims, done + {id}) == Retract(claims, done)
    ensures Retracts(claims, done + {id}) == Retracts(claims, done)
    ensures Touched(claims, done + {id}) == Touched(claims, done)
  {
    forall y | y in claims && claims[y].candidate == id ensures claims[y].(selected := false) == claims[y] {}
    assert Retracts(claims, done + {id}) == Retracts(claims, done);
  }
}

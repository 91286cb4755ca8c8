/** One tool call: from the intent through grant, policy and approval to the start of its handler. */
module ToolCalls {
  import opened Base
  import opened Approvals
  import Grants

  datatype Effect = Read | Write | Destructive | External

  /** `resumable` marks the built-in read tools registered at the root scope. */
  datatype Tool = Tool(identity: string, required: set<string>, effects: set<Effect>, resumable: bool)
  {
    predicate IsRead() { Read in effects && Write !in effects }
  }

  datatype Intent = Intent(
    callId: string, tool: string, digest: string, size: nat, token: Option<Token>, credentials: bool)

  datatype Caller = Caller(
    runId: string, grantId: string, scope: Scope, principal: string, readOnly: bool, resumed: bool)

  datatype Policy = Policy(approvalEffects: set<Effect>, maxArgumentBytes: nat)

  datatype Authorization = Default | Allow | RequireApproval | Deny

  datatype Denial =
    ArgumentsTooLarge | DuplicateCallId | GrantNotFound | GrantScopeMismatch | GrantExpired
    | ToolNotGranted | CapabilityDenied | ReadOnlyDenied | ResumeDenied | InputInvalid | PolicyDenied
    | ApprovalRequired | ApprovalInvalid

  // ----- Before the approval -----

  function CheckGrant(c: Caller, resolved: Option<Grants.Grant>, now: int): Result<Grants.Grant, Denial> {
    if resolved.None? then Err(GrantNotFound)
    else
      var g := resolved.value;
      if g.tenant != c.scope.tenant || g.product != c.scope.product
         || (g.principal.Some? && g.principal.value != c.principal) then Err(GrantScopeMismatch)
      else if g.expiresAt <= now then Err(GrantExpired)
      else Ok(g)
  }

  predicate NeedsApproval(policy: Policy, tool: Tool, a: Authorization) {
    || Destructive in tool.effects
    || a == RequireApproval
    || (a == Default && tool.effects * policy.approvalEffects != {})
  }

  /** What the registry, the authority, the schema validator and the channel policy answer. */
  datatype Answers = Answers(
    registered: Option<Tool>, grant: Option<Grants.Grant>, now: int, valid: bool, authorization: Authorization)

  /** A call that passed every check but the approval. */
  datatype Vetted = Vetted(
    tool: Tool, grant: Grants.Grant, at: int, authorization: Authorization, needsApproval: bool)

  function Vet(policy: Policy, c: Caller, i: Intent, duplicate: bool, a: Answers): Result<Vetted, Denial> {
    if i.size > policy.maxArgumentBytes then Err(ArgumentsTooLarge)
    else if duplicate then Err(DuplicateCallId)
    else
      var checked := CheckGrant(c, a.grant, a.now);
      if checked.Err? then Err(checked.error)
      else if a.registered.None? || a.registered.value.identity !in checked.value.tools then Err(ToolNotGranted)
      else
        var tool := a.registered.value;
        if !(tool.required <= checked.value.caps) then Err(CapabilityDenied)
        else if c.readOnly && !tool.IsRead() then Err(ReadOnlyDenied)
        else if c.resumed && !tool.resumable then Err(ResumeDenied)
        else if !a.valid then Err(InputInvalid)
        else if a.authorization == Deny then Err(PolicyDenied)
        else Ok(Vetted(tool, checked.value, a.now, a.authorization, NeedsApproval(policy, tool, a.authorization)))
  }

  // ----- The approval -----

  function TargetOf(c: Caller, i: Intent, tool: Tool): Target {
    Target(c.scope, c.principal, c.runId, i.callId, tool.identity, i.digest)
  }

  predicate ApprovalMatches(expected: Target, b: Binding, now: int) {
    b.target == expected && b.issuedAt <= now < b.expiresAt && b.singleUse
  }

  /** How the approval is obtained: the token's redemption time, the interactive service's answer
      (None: no such service) and the time of the final comparison. */
  datatype Consent = Consent(redeemedAt: int, interactive: Option<Option<Binding>>, now: int)

  /** A handler start, with all it was justified by. */
  datatype Start = Start(
    caller: Caller, intent: Intent, vetted: Vetted, approval: Option<Binding>, token: Option<Token>, now: int)

  function BindingFor(pending: Pending, c: Caller, i: Intent, tool: Tool, k: Consent): Option<Binding> {
    if i.token.Some? then Redeemed(pending, i.token.value, TargetOf(c, i, tool), k.redeemedAt)
    else if k.interactive.Some? then k.interactive.value
    else None
  }

  function Launch(pending: Pending, c: Caller, i: Intent, v: Vetted, k: Consent): Result<Start, Denial> {
    if !v.needsApproval then Ok(Start(c, i, v, None, None, k.now))
    else if i.token.None? && k.interactive.None? then Err(ApprovalRequired)
    else
      var b := BindingFor(pending, c, i, v.tool, k);
      if b.None? || !ApprovalMatches(TargetOf(c, i, v.tool), b.value, k.now) then Err(ApprovalInvalid)
      else Ok(Start(c, i, v, b, i.token, k.now))
  }

  function AfterLaunch(pending: Pending, c: Caller, i: Intent, v: Vetted, k: Consent): Pending {
    if v.needsApproval && i.token.Some?
    then AfterRedeem(pending, i.token.value, TargetOf(c, i, v.tool), k.redeemedAt) else pending
  }

  // ----- What every start satisfies -----

  /** The exact tool and its capabilities are in a grant that fits the caller. */
  ghost predicate Permitted(policy: Policy, c: Caller, i: Intent, v: Vetted) {
    && v.tool.identity in v.grant.tools && v.tool.required <= v.grant.caps
    && v.grant.tenant == c.scope.tenant && v.grant.product == c.scope.product
    && (v.grant.principal.Some? ==> v.grant.principal.value == c.principal)
    && v.at < v.grant.expiresAt
    && i.size <= policy.maxArgumentBytes
    && (c.readOnly ==> Read in v.tool.effects && Write !in v.tool.effects)
    && (c.resumed ==> v.tool.resumable)
  }

  /** The channel policy asked for an approval, or left it to the tool's effects and one of them needs it. */
  ghost predicate PolicyAsks(policy: Policy, effects: set<Effect>, a: Authorization) {
    a == RequireApproval || (a == Default && exists e :: e in effects && e in policy.approvalEffects)
  }

  /** This approval is for this very call of this caller, and is good at this time. */
  ghost predicate ApprovedFor(c: Caller, i: Intent, identity: string, b: Binding, now: int) {
    && b.target.scope == c.scope && b.target.principal == c.principal && b.target.runId == c.runId
    && b.target.callId == i.callId && b.target.identity == identity && b.target.digest == i.digest
    && b.issuedAt <= now < b.expiresAt && b.singleUse
  }

  ghost predicate VettedFor(policy: Policy, c: Caller, i: Intent, v: Vetted) {
    && Permitted(policy, c, i, v)
    && v.authorization != Deny
    && (v.needsApproval <==> Destructive in v.tool.effects || PolicyAsks(policy, v.tool.effects, v.authorization))
  }

  /** A start is permitted, carries an approval exactly when the tool's effects or the channel policy
      ask for one, destructive tools always, and its approval is for this very call. */
  ghost predicate Lawful(policy: Policy, s: Start) {
    var (c, tool) := (s.caller, s.vetted.tool);
    && Permitted(policy, c, s.intent, s.vetted)
    && s.vetted.authorization != Deny
    && (s.approval.Some? <==> Destructive in tool.effects || PolicyAsks(policy, tool.effects, s.vetted.authorization))
    && (s.approval.Some? ==> ApprovedFor(c, s.intent, tool.identity, s.approval.value, s.now))
    && (s.token.Some? ==> s.approval.Some? && s.intent.token == s.token)
  }

  lemma {:induction false} VettingSettles(policy: Policy, c: Caller, i: Intent, duplicate: bool, a: Answers)
    requires Vet(policy, c, i, duplicate, a).Ok?
    ensures !duplicate && VettedFor(policy, c, i, Vet(policy, c, i, duplicate, a).value)
    ensures var v := Vet(policy, c, i, duplicate, a).value;
            && a.grant == Some(v.grant) && a.registered == Some(v.tool)
            && a.now == v.at && a.authorization == v.authorization
  {
    var v := Vet(policy, c, i, duplicate, a).value;
    var common := v.tool.effects * policy.approvalEffects;
    assert forall e :: e in v.tool.effects && e in policy.approvalEffects ==> e in common;
  }

  /** A refusal names something that is wrong with the call. */
  lemma {:induction false} DenialIsTrue(policy: Policy, pending: Pending, c: Caller, i: Intent, duplicate: bool,
                                        a: Answers, k: Consent)
    ensures Vet(policy, c, i, duplicate, a).Err? ==>
            match Vet(policy, c, i, duplicate, a).error
            case ArgumentsTooLarge => i.size > policy.maxArgumentBytes
            case DuplicateCallId => duplicate
            case GrantNotFound => a.grant.None?
            case GrantScopeMismatch => a.grant.Some? &&
              ((a.grant.value.tenant, a.grant.value.product) != (c.scope.tenant, c.scope.product)
               || a.grant.value.principal !in {None, Some(c.principal)})
            case GrantExpired => a.grant.Some? && a.grant.value.expiresAt <= a.now
            case ToolNotGranted => a.registered.None?
              || (a.grant.Some? && a.registered.value.identity !in a.grant.value.tools)
            case CapabilityDenied => a.registered.Some? && a.grant.Some?
              && exists x :: x in a.registered.value.required && x !in a.grant.value.caps
            case ReadOnlyDenied => c.readOnly && a.registered.Some?
              && (Read !in a.registered.value.effects || Write in a.registered.value.effects)
            case ResumeDenied => c.resumed && a.registered.Some? && !a.registered.value.resumable
            case InputInvalid => !a.valid
            case PolicyDenied => a.authorization == Deny
            case ApprovalRequired => false
            case ApprovalInvalid => false
    ensures var v := Vet(policy, c, i, duplicate, a);
            v.Ok? && Launch(pending, c, i, v.value, k).Err? ==>
              Launch(pending, c, i, v.value, k).error ==
                if i.token.None? && k.interactive.None? then ApprovalRequired else ApprovalInvalid
  {
  }

  /** A handler starts only lawfully, and a token that paid for a start is spent by it. */
  lemma {:induction false} LaunchIsLawful(policy: Policy, pending: Pending, c: Caller, i: Intent, v: Vetted,
                                          k: Consent)
    requires VettedFor(policy, c, i, v) && Launch(pending, c, i, v, k).Ok?
    ensures Lawful(policy, Launch(pending, c, i, v, k).value)
    ensures var t := Launch(pending, c, i, v, k).value.token;
            t.Some? ==> t.value in pending && t.value !in AfterLaunch(pending, c, i, v, k)
  {
  }

  /** The approval in hand for a call: the stored one its token names, or the interactive answer. */
  ghost predicate InHand(pending: Pending, i: Intent, k: Consent, b: Binding) {
    if i.token.Some? then i.token.value in pending && pending[i.token.value] == b && k.redeemedAt < b.expiresAt
    else k.interactive == Some(Some(b))
  }

  /** A handler starts exactly when the call is new and permitted, its arguments are valid, the
      policy does not deny it, and any approval it needs is in hand and matches this call. */
  lemma {:induction false} StartsExactly(policy: Policy, pending: Pending, c: Caller, i: Intent, duplicate: bool,
                                         a: Answers, k: Consent)
    ensures var v := Vet(policy, c, i, duplicate, a);
            v.Ok? && Launch(pending, c, i, v.value, k).Ok? <==>
            && !duplicate && a.valid && a.authorization != Deny && a.registered.Some? && a.grant.Some?
            && var tool := a.registered.value;
               && Permitted(policy, c, i, Vetted(tool, a.grant.value, a.now, a.authorization, false))
               && (Destructive in tool.effects || PolicyAsks(policy, tool.effects, a.authorization) ==>
                     exists b :: InHand(pending, i, k, b) && ApprovedFor(c, i, tool.identity, b, k.now))
  {
    var v := Vet(policy, c, i, duplicate, a);
    if v.Ok? {
      VettingSettles(policy, c, i, duplicate, a);
    }
    if v.Ok? && v.value.needsApproval {
      var b := BindingFor(pending, c, i, v.value.tool, k);
      assert b.Some? ==> InHand(pending, i, k, b.value);
    }
  }

  /** A destructive call with neither a token nor an interactive service is always refused, and a
      token bound to any other call neither starts this one nor is used up by the attempt. */
  lemma {:induction false} MisusedTokenSurvives(pending: Pending, c: Caller, i: Intent, v: Vetted, k: Consent)
    requires v.needsApproval
    ensures i.token.None? && k.interactive.None? ==> Launch(pending, c, i, v, k) == Err(ApprovalRequired)
    ensures i.token.Some? && i.token.value in pending && k.redeemedAt < pending[i.token.value].expiresAt
            && pending[i.token.value].target !=
               Target(c.scope, c.principal, c.runId, i.callId, v.tool.identity, i.digest) ==>
              Launch(pending, c, i, v, k) == Err(ApprovalInvalid) && AfterLaunch(pending, c, i, v, k) == pending
  {
  }

  /** A launch takes a token from the store exactly when it needs an approval and shows that token for its
      own call or too late; every other token, and any token of a call that needs none, stays. */
  lemma {:induction false} SpendsExactly(pending: Pending, c: Caller, i: Intent, v: Vetted, k: Consent, t: Token)
    requires t in pending
    ensures t !in AfterLaunch(pending, c, i, v, k) <==>
            && v.needsApproval && i.token == Some(t)
            && (|| pending[t].expiresAt <= k.redeemedAt
                || pending[t].target == Target(c.scope, c.principal, c.runId, i.callId, v.tool.identity, i.digest))
    ensures t in AfterLaunch(pending, c, i, v, k) ==> AfterLaunch(pending, c, i, v, k)[t] == pending[t]
  {
  }

  /** The runner's own sequence of checks, against the store it shares with every other call. */
  method ExecuteIntent(approvals: ApprovalStore, policy: Policy, c: Caller, i: Intent, duplicate: bool,
                       a: Answers, k: Consent)
    returns (r: Result<Start, Denial>)
    modifies approvals
    ensures var v := Vet(policy, c, i, duplicate, a);
            if v.Err? then r == Err(v.error) && approvals.pending == old(approvals.pending)
            else && r == Launch(old(approvals.pending), c, i, v.value, k)
                 && approvals.pending == AfterLaunch(old(approvals.pending), c, i, v.value, k)
    ensures r.Ok? ==> Lawful(policy, r.value) && !duplicate
  {
    if i.size > policy.maxArgumentBytes {
      return Err(ArgumentsTooLarge);
    }
    if duplicate {
      return Err(DuplicateCallId);
    }
    var checked := CheckGrant(c, a.grant, a.now);
    if checked.Err? {
      return Err(checked.error);
    }
    var grant := checked.value;
    if a.registered.None? || a.registered.value.identity !in grant.tools {
      return Err(ToolNotGranted);
    }
    var tool := a.registered.value;
    var gap := tool.required - grant.caps;
    assert forall x :: x in tool.required && x !in grant.caps ==> x in gap;
    if gap != {} {
      return Err(CapabilityDenied);
    }
    if c.readOnly && !tool.IsRead() {
      return Err(ReadOnlyDenied);
    }
    if c.resumed && !tool.resumable {
      return Err(ResumeDenied);
    }
    if !a.valid {
      return Err(InputInvalid);
    }
    if a.authorization == Deny {
      return Err(PolicyDenied);
    }
    var destructive := Destructive in tool.effects;
    var needs := destructive
      || (a.authorization == RequireApproval
          || (a.authorization == Default && tool.effects * policy.approvalEffects != {}));
    var approval := None;
    if needs {
      var expected := Target(c.scope, c.principal, c.runId, i.callId, tool.identity, i.digest);
      if i.token.Some? {
        approval := approvals.ConsumeIfMatches(i.token.value, expected, k.redeemedAt);
      } else if k.interactive.Some? {
        approval := k.interactive.value;
      } else {
        return Err(ApprovalRequired);
      }
      if approval.None? || !ApprovalMatches(expected, approval.value, k.now) {
        return Err(ApprovalInvalid);
      }
    }
    VettingSettles(policy, c, i, duplicate, a);
    var vetted := Vetted(tool, grant, a.now, a.authorization, needs);
    return Ok(Start(c, i, vetted, approval, if needs then i.token else None, k.now));
  }
}

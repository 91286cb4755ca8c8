/** Single-use approval tokens. A token stands for its digest. */
module Approvals {
  import opened Base

  type Token = string

  datatype Scope = Scope(tenant: string, product: string, agent: Option<string>, session: Option<string>)

  /** The exact authenticated call an approval may authorize. */
  datatype Target = Target(
    scope: Scope, principal: string, runId: string, callId: string, identity: string, digest: string)

  datatype Binding = Binding(target: Target, issuedAt: int, expiresAt: int, singleUse: bool)

  type Pending = map<Token, Binding>

  predicate CanIssue(b: Binding, now: int) {
    b.issuedAt <= now < b.expiresAt
  }

  /** What `consume_if_matches` answers. */
  function Redeemed(pending: Pending, token: Token, expected: Target, now: int): Option<Binding> {
    if token in pending && now < pending[token].expiresAt && pending[token].target == expected
    then Some(pending[token]) else None
  }

  /** A token shown for the wrong call stays; a redeemed or an expired one goes. */
  function AfterRedeem(pending: Pending, token: Token, expected: Target, now: int): Pending {
    if token in pending && (pending[token].expiresAt <= now || pending[token].target == expected)
    then pending - {token} else pending
  }

  datatype Op =
    | Issue(token: Token, binding: Binding, now: int)
    | Redeem(token: Token, expected: Target, now: int)
    | Withdraw(token: Token)

  function Apply(pending: Pending, op: Op): Pending {
    match op
    case Issue(t, b, now) => if CanIssue(b, now) then pending[t := b] else pending
    case Redeem(t, expected, now) => AfterRedeem(pending, t, expected, now)
    case Withdraw(t) => pending - {t}
  }

  /** Tokens are 256 random bits: no two draws of a run coincide. */
  predicate Fresh(used: set<Token>, ops: seq<Op>)
    decreases |ops|
  {
    ops == [] ||
    (if ops[0].Issue? then ops[0].token !in used && Fresh(used + {ops[0].token}, ops[1..])
     else Fresh(used, ops[1..]))
  }

  /** How often a token was redeemed along a run. */
  function Redemptions(pending: Pending, ops: seq<Op>, t: Token): nat
    decreases |ops|
  {
    if ops == [] then 0
    else (if ops[0].Redeem? && ops[0].token == t
             && Redeemed(pending, t, ops[0].expected, ops[0].now).Some? then 1 else 0)
         + Redemptions(Apply(pending, ops[0]), ops[1..], t)
  }

  /** Once issued and gone, a token is never redeemed again. */
  lemma {:induction false} GoneIsDead(pending: Pending, used: set<Token>, ops: seq<Op>, t: Token)
    requires t in used && t !in pending && Fresh(used, ops)
    ensures Redemptions(pending, ops, t) == 0
    decreases |ops|
  {
    if ops != [] {
      GoneIsDead(Apply(pending, ops[0]), if ops[0].Issue? then used + {ops[0].token} else used, ops[1..], t);
    }
  }

  /** Every token is redeemed at most once, whatever is issued, shown or withdrawn in between. */
  lemma {:induction false} RedeemedAtMostOnce(pending: Pending, used: set<Token>, ops: seq<Op>, t: Token)
    requires pending.Keys <= used && Fresh(used, ops)
    ensures Redemptions(pending, ops, t) <= 1
    decreases |ops|
  {
    if ops != [] {
      var op, next := ops[0], Apply(pending, ops[0]);
      var used' := if op.Issue? then used + {op.token} else used;
      if op.Redeem? && op.token == t && Redeemed(pending, t, op.expected, op.now).Some? {
        GoneIsDead(next, used', ops[1..], t);
      } else {
        RedeemedAtMostOnce(next, used', ops[1..], t);
      }
    }
  }

  class ApprovalStore {
    var pending: Pending

    constructor ()
      ensures pending == map[]
    {
      pending := map[];
    }

    /** `token` is the first draw that is not pending. */
    method IssueToken(token: Token, b: Binding, now: int) returns (ok: bool)
      requires token !in pending
      modifies this
      ensures pending == Apply(old(pending), Issue(token, b, now))
      ensures ok <==> CanIssue(b, now)
    {
      if b.issuedAt > now || b.expiresAt <= now {
        return false;
      }
      pending := pending[token := b];
      return true;
    }

    method ConsumeIfMatches(token: Token, expected: Target, now: int) returns (r: Option<Binding>)
      modifies this
      ensures r == Redeemed(old(pending), token, expected, now)
      ensures pending == Apply(old(pending), Redeem(token, expected, now))
      ensures r.Some? ==> r.value.target == expected && now < r.value.expiresAt && token !in pending
    {
      if token !in pending {
        return None;
      }
      var binding := pending[token];
      if binding.expiresAt <= now {
        pending := pending - {token};
        return None;
      }
      if binding.target != expected {
        return None;
      }
      pending := pending - {token};
      return Some(binding);
    }

    method Revoke(token: Token) returns (found: bool)
      modifies this
      ensures pending == Apply(old(pending), Withdraw(token))
      ensures found <==> token in old(pending)
    {
      found := token in pending;
      pending := pending - {token};
    }
  }

  // ----- Where redemptions come from -----

  function After(pending: Pending, ops: seq<Op>): Pending {
    if ops == [] then pending else Apply(After(pending, Front(ops)), Last(ops))
  }

  /** Call i stored this binding under this token while it was valid. */
  ghost predicate IssuedAt(ops: seq<Op>, i: nat, t: Token, b: Binding) {
    && i < |ops| && ops[i].Issue? && ops[i].token == t && ops[i].binding == b
    && b.issuedAt <= ops[i].now < b.expiresAt
  }

  /** The operation leaves a token for this binding alone: it is not issued anew, withdrawn, redeemed, or
      shown too late. */
  ghost predicate Spares(op: Op, t: Token, b: Binding) {
    match op
    case Issue(x, _, _) => x != t
    case Redeem(x, expected, now) => x == t ==> expected != b.target && now < b.expiresAt
    case Withdraw(x) => x != t
  }

  ghost predicate AllSpare(ops: seq<Op>, t: Token, b: Binding) {
    forall k :: 0 <= k < |ops| ==> Spares(ops[k], t, b)
  }

  lemma {:induction false} StoredWasIssued(ops: seq<Op>, t: Token) returns (i: nat)
    requires t in After(map[], ops)
    ensures IssuedAt(ops, i, t, After(map[], ops)[t])
  {
    var (before, op) := (After(map[], Front(ops)), Last(ops));
    if op.Issue? && op.token == t && op.binding.issuedAt <= op.now < op.binding.expiresAt {
      i := |ops| - 1;
    } else {
      i := StoredWasIssued(Front(ops), t);
    }
  }

  /** From an empty store, a token is redeemed only for the target it was issued for, by a binding that
      was valid when it was stored and is unexpired now. */
  lemma {:induction false} RedeemedWasIssued(ops: seq<Op>, t: Token, expected: Target, now: int) returns (i: nat)
    requires Redeemed(After(map[], ops), t, expected, now).Some?
    ensures var b := Redeemed(After(map[], ops), t, expected, now).value;
            IssuedAt(ops, i, t, b) && b.target == expected && now < b.expiresAt
  {
    i := StoredWasIssued(ops, t);
  }

  lemma {:induction false} SparedStays(pending: Pending, ops: seq<Op>, t: Token, b: Binding)
    requires t in pending && pending[t] == b && AllSpare(ops, t, b)
    ensures t in After(pending, ops) && After(pending, ops)[t] == b
  {
    if ops != [] {
      SparedStays(pending, Front(ops), t, b);
      assert Spares(ops[|ops| - 1], t, b);
    }
  }

  /** A token issued in time stays good through any operations that spare it, showing it for other calls
      included: it is redeemed for its own target exactly while unexpired, and for no other. Once shown
      for its target, or too late, it is gone. */
  lemma {:induction false} IssuedIsRedeemed(pending: Pending, t: Token, b: Binding, at: int, ops: seq<Op>,
                                            expected: Target, now: int)
    requires b.issuedAt <= at < b.expiresAt && AllSpare(ops, t, b)
    ensures var store := After(Apply(pending, Issue(t, b, at)), ops);
            && Redeemed(store, t, expected, now) ==
               (if expected == b.target && now < b.expiresAt then Some(b) else None)
            && (t in Apply(store, Redeem(t, expected, now)) <==> expected != b.target && now < b.expiresAt)
  {
    SparedStays(Apply(pending, Issue(t, b, at)), ops, t, b);
  }

  /** Nothing is stored for a binding that is from the future or expired, and no operation touches another
      token. */
  lemma {:induction false} OthersUntouched(pending: Pending, op: Op, t: Token)
    requires op.token != t || (op.Issue? && !(op.binding.issuedAt <= op.now < op.binding.expiresAt))
    ensures t in Apply(pending, op) <==> t in pending
    ensures t in pending ==> Apply(pending, op)[t] == pending[t]
  {
  }
}

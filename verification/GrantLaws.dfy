/** What each operation of the grant authority stores, adds and removes, on the grants themselves. */
module GrantLaws {
  import opened Base
  import opened Grants

  // ----- Delegating, registering, binding -----

  /** A delegation succeeds exactly when the parent is unexpired and its product's current activation
      owns it, and the request stays inside it. */
  lemma {:induction false} IssuesExactly(f: Forest, r: ChildRequest, id: Id, now: int)
    requires Inv(f)
    ensures IssueChild(f, r, id, now).Ok? <==>
            && r.agentScope && r.lifetime > 0 && id !in f.grants && r.parent in f.grants
            && var p := f.grants[r.parent];
               && now < p.expiresAt
               && (f.owners[r.parent].Some? || (p.tenant, p.product) !in f.active)
               && p.tenant == r.tenant && p.product == r.product
               && (p.principal.Some? ==> p.principal.value == r.principal)
               && r.tools <= p.tools && r.caps <= p.caps
  {
    LiveIsLocal(f, r.parent, now);
  }

  /** A successful delegation adds exactly the grant it reports, below its parent and with its owner;
      a refused one changes nothing. */
  lemma {:induction false} IssueStoresExactly(f: Forest, r: ChildRequest, id: Id, now: int)
    requires Inv(f)
    ensures var f' := Apply(f, Issue(r, id, now));
            var issued := IssueChild(f, r, id, now);
            if issued.Err? then f' == f
            else && IssuedFrom(f.grants[r.parent], r, id, now, issued.value)
                 && f'.grants == f.grants[id := issued.value]
                 && f'.parents == f.parents[id := r.parent]
                 && f'.owners == f.owners[id := f.owners[r.parent]]
                 && f'.active == f.active
  {
  }

  /** A refusal names something that is wrong with the request. */
  lemma {:induction false} IssueErrorIsTrue(f: Forest, r: ChildRequest, id: Id, now: int)
    requires Inv(f) && IssueChild(f, r, id, now).Err?
    ensures match IssueChild(f, r, id, now).error
            case NotAgentScope => !r.agentScope
            case BadLifetime => r.lifetime <= 0
            case ParentInactive =>
              r.parent !in f.grants || f.grants[r.parent].expiresAt <= now
              || (f.owners[r.parent].None? && f.grants[r.parent].Scope() in f.active)
            case ScopeChanged =>
              r.parent in f.grants && f.grants[r.parent].Scope() != (r.tenant, r.product)
            case PrincipalChanged =>
              r.parent in f.grants && f.grants[r.parent].principal !in {None, Some(r.principal)}
            case ToolsAdded => r.parent in f.grants && exists t :: t in r.tools && t !in f.grants[r.parent].tools
            case CapabilitiesAdded => r.parent in f.grants && exists c :: c in r.caps && c !in f.grants[r.parent].caps
            case DuplicateGrant => id in f.grants
  {
    LiveIsLocal(f, r.parent, now);
  }

  /** Registering stores the grant as given, owned by whichever activation runs its product. */
  lemma {:induction false} RegisterStoresExactly(f: Forest, g: Grant)
    requires Inv(f)
    ensures var f' := Apply(f, Register(g));
            if g.id in f.grants then f' == f
            else && f'.grants == f.grants[g.id := g] && f'.parents == f.parents && f'.active == f.active
                 && f'.owners == f.owners[g.id := Lookup(f.active, (g.tenant, g.product))]
  {
  }

  /** An activation takes all the products it names or none, and takes them only from nobody. */
  lemma {:induction false} BindsExactly(f: Forest, tenant: string, products: seq<string>, owner: Id)
    ensures var f' := Apply(f, Bind(tenant, products, owner));
            if owner != "" && products != [] && Distinct(products)
               && (forall p :: p in products ==> (tenant, p) !in f.active)
            then && (forall k :: k in f'.active <==> k in f.active || (k.0 == tenant && k.1 in products))
                 && (forall k :: k in f'.active ==> f'.active[k] == if k in f.active then f.active[k] else owner)
                 && f'.grants == f.grants && f'.owners == f.owners && f'.parents == f.parents
            else f' == f
  {
    var asked := products != [] && Distinct(products) && owner != "";
    if asked && forall p :: p in products ==> (tenant, p) !in f.active {
      assert CanBind(f, tenant, products, owner);
    } else if asked {
      var p :| p in products && (tenant, p) in f.active;
      assert (tenant, p) in BoundKeys(tenant, products) * f.active.Keys;
    }
  }

  // ----- What a revocation leaves -----

  /** A revocation removes exactly the grants on whose way up the revoked one stands: if one goes, n steps
      up from it is the revoked one, and m steps below the revoked one nothing stays. */
  lemma {:induction false} RevokesExactly(f: Forest, root: Id, x: Id, m: nat) returns (n: nat)
    requires Inv(f) && root in f.grants
    ensures var f' := Apply(f, Revoke(root));
            && (x in f.grants && x !in f'.grants ==> Up(f.parents, x, n) == Some(root))
            && (Up(f.parents, x, m) == Some(root) ==> x !in f'.grants)
            && (x in f'.grants ==> x in f.grants && f'.grants[x] == f.grants[x])
            && (x in f'.grants ==> x in f'.owners && x in f.owners && f'.owners[x] == f.owners[x])
            && f'.active == f.active
  {
    n := 0;
    if x in Subtree(f, root) {
      n :| Up(f.parents, x, n) == Some(root);
    }
    if Up(f.parents, x, m) == Some(root) {
      assert Under(f.parents, x, root);
    }
  }

  lemma {:induction false} NothingLeft(a: set<Id>, b: set<Id>)
    requires a - b == {}
    ensures a <= b
  {
    forall x | x in a ensures x in b {
      assert x !in a - b;
    }
  }

  lemma {:induction false} OwnerEntry(f: Forest, gone: set<Id>, o: Id)
    requires Inv(f) && o in f.ownerGrants
    ensures o in OwnersWithout(f.ownerGrants, gone) <==>
            || (exists g :: g in f.grants && g !in gone && f.owners[g] == Some(o))
            || (forall g :: g in f.grants ==> f.owners[g] != Some(o))
  {
    var own := f.ownerGrants[o];
    assert forall g :: g in own <==> g in f.grants && f.owners[g] == Some(o);
    if own - gone != {} {
      var g :| g in own - gone;
      assert g in f.grants && g !in gone;
    } else {
      NothingLeft(own, gone);
      if own != {} {
        var g :| g in own;
        assert g in gone && g in f.grants;
      }
    }
  }

  /** An owner keeps its entry through a revocation unless it loses its last grant by it, and the entry
      names exactly the grants it still owns. */
  lemma {:induction false} RevokingOwners(f: Forest, root: Id, o: Id)
    requires Inv(f) && root in f.grants && o in f.ownerGrants
    ensures var f' := Apply(f, Revoke(root));
            && f'.owners.Keys == f'.grants.Keys
            && (o in f'.ownerGrants <==>
                  || (exists g :: g in f'.grants && f'.owners[g] == Some(o))
                  || (forall g :: g in f.grants ==> f.owners[g] != Some(o)))
            && (o in f'.ownerGrants ==>
                  forall g :: g in f'.ownerGrants[o] <==> g in f'.grants && f'.owners[g] == Some(o))
  {
    var f' := Apply(f, Revoke(root));
    StepKeepsInv(f, Revoke(root));
    OwnerEntry(f, Subtree(f, root), o);
    assert forall g :: g in f'.grants <==> g in f.grants && g !in Subtree(f, root);
  }
}

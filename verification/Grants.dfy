/** The capability grant forest: what the six dictionaries mean, and the steps that change them. */
module Grants {
  import opened Base

  type Id = string
  type ScopeKey = (string, string)  // tenant and product

  datatype Grant = Grant(
    id: Id, tenant: string, product: string,
    tools: set<string>, caps: set<string>, principal: Option<string>,
    issuedAt: int, expiresAt: int)
  {
    function Scope(): ScopeKey { (tenant, product) }
  }

  datatype Forest = Forest(
    grants: map<Id, Grant>,
    owners: map<Id, Option<Id>>,
    active: map<ScopeKey, Id>,
    ownerGrants: map<Id, set<Id>>,
    parents: map<Id, Id>,
    children: map<Id, set<Id>>)

  // ----- Ancestry -----

  /** The n-th ancestor of x, if the chain is that long. */
  function Up(parents: map<Id, Id>, x: Id, n: nat): (a: Option<Id>)
    decreases n
  {
    if n == 0 then Some(x) else if x in parents then Up(parents, parents[x], n - 1) else None
  }

  ghost predicate Under(parents: map<Id, Id>, x: Id, root: Id) {
    exists n: nat :: Up(parents, x, n) == Some(root)
  }

  /** root and all its transitive descendants. */
  ghost function Subtree(f: Forest, root: Id): set<Id> {
    set x | x in f.grants && Under(f.parents, x, root)
  }

  lemma {:induction false} UpExtends(parents: map<Id, Id>, x: Id, n: nat, a: Id)
    requires Up(parents, x, n) == Some(a)
    ensures Up(parents, x, n + 1) == if a in parents then Some(parents[a]) else None
    decreases n
  {
    if n > 0 {
      UpExtends(parents, parents[x], n - 1, a);
    }
  }

  // ----- The invariant -----

  /** A delegated grant is attenuated with respect to the one it was issued from. */
  predicate Contained(child: Grant, parent: Grant) {
    && child.Scope() == parent.Scope()
    && child.tools <= parent.tools
    && child.caps <= parent.caps
    && (parent.principal.Some? ==> child.principal == parent.principal)
    && child.expiresAt <= parent.expiresAt
  }

  /** Parent links climb strictly, so they form a forest. */
  ghost predicate Climbs(parents: map<Id, Id>, depth: map<Id, nat>) {
    forall c :: c in parents ==> c in depth && parents[c] in depth && depth[parents[c]] < depth[c]
  }

  ghost predicate Acyclic(parents: map<Id, Id>) {
    exists depth :: Climbs(parents, depth)
  }

  ghost predicate Keyed(f: Forest) {
    && f.owners.Keys == f.grants.Keys
    && forall g :: g in f.grants ==> f.grants[g].id == g
  }

  /** Every parent edge joins two stored grants, attenuates, and keeps the owner. */
  ghost predicate EdgesAttenuate(f: Forest)
    requires Keyed(f)
  {
    forall c :: c in f.parents ==>
      && c in f.grants && f.parents[c] in f.grants
      && Contained(f.grants[c], f.grants[f.parents[c]])
      && f.owners[c] == f.owners[f.parents[c]]
  }

  /** `children` is the inverse of `parents` and holds no empty entry. */
  ghost predicate ChildrenInverse(parents: map<Id, Id>, children: map<Id, set<Id>>) {
    && (forall p :: p in children ==> children[p] != {})
    && (forall p, c :: p in children && c in children[p] ==> c in parents && parents[c] == p)
    && (forall c :: c in parents ==> parents[c] in children && c in children[parents[c]])
  }

  /** `ownerGrants` is the inverse of `owners`. */
  ghost predicate OwnersInverse(owners: map<Id, Option<Id>>, ownerGrants: map<Id, set<Id>>) {
    && (forall o, g :: o in ownerGrants && g in ownerGrants[o] ==> g in owners && owners[g] == Some(o))
    && (forall g :: g in owners && owners[g].Some? ==>
          owners[g].value in ownerGrants && g in ownerGrants[owners[g].value])
  }

  /** The dictionaries agree with each other and hold a forest of attenuated grants. */
  ghost predicate Shape(f: Forest) {
    && Keyed(f)
    && EdgesAttenuate(f)
    && ChildrenInverse(f.parents, f.children)
    && OwnersInverse(f.owners, f.ownerGrants)
    && Acyclic(f.parents)
  }

  /** A grant is unowned or owned by its product's current activation. */
  ghost predicate Owned(f: Forest)
    requires f.owners.Keys == f.grants.Keys
  {
    forall g :: g in f.grants && f.owners[g].Some? ==> Lookup(f.active, f.grants[g].Scope()) == f.owners[g]
  }

  ghost predicate Inv(f: Forest) {
    Shape(f) && Owned(f)
  }

  const EMPTY: Forest := Forest(map[], map[], map[], map[], map[], map[])

  // ----- Reading -----

  predicate OwnerCurrent(f: Forest, g: Id)
    requires g in f.grants && g in f.owners
  {
    f.owners[g] == Lookup(f.active, f.grants[g].Scope())
  }

  /** Every grant met on the way up exists, is unexpired and belongs to the current activation. */
  ghost predicate Live(f: Forest, x: Id, now: int) {
    forall n: nat :: Up(f.parents, x, n).Some? ==>
      var a := Up(f.parents, x, n).value;
      a in f.grants && a in f.owners && now < f.grants[a].expiresAt && OwnerCurrent(f, a)
  }

  ghost function Resolve(f: Forest, x: Id, now: int): Option<Grant> {
    if x !in f.grants || x !in f.owners then None
    else if x in f.parents then (if Live(f, x, now) then Some(f.grants[x]) else None)
    else if OwnerCurrent(f, x) then Some(f.grants[x]) else None
  }

  // ----- Changing -----

  datatype IssueError =
    NotAgentScope | BadLifetime | ParentInactive | ScopeChanged | PrincipalChanged
    | ToolsAdded | CapabilitiesAdded | DuplicateGrant

  datatype ChildRequest = ChildRequest(
    parent: Id, agentScope: bool, tenant: string, product: string,
    tools: set<string>, caps: set<string>, principal: string, lifetime: int)

  function ChildOf(parent: Grant, r: ChildRequest, id: Id, now: int): Grant {
    Grant(id, parent.tenant, parent.product, r.tools, r.caps, Some(r.principal), now,
          Min(parent.expiresAt, now + r.lifetime))
  }

  ghost function IssueChild(f: Forest, r: ChildRequest, id: Id, now: int): Result<Grant, IssueError> {
    if !r.agentScope then Err(NotAgentScope)
    else if r.lifetime <= 0 then Err(BadLifetime)
    else if r.parent !in f.grants || !Live(f, r.parent, now) then Err(ParentInactive)
    else
      var p := f.grants[r.parent];
      if p.Scope() != (r.tenant, r.product) then Err(ScopeChanged)
      else if p.principal.Some? && p.principal.value != r.principal then Err(PrincipalChanged)
      else if !(r.tools <= p.tools) then Err(ToolsAdded)
      else if !(r.caps <= p.caps) then Err(CapabilitiesAdded)
      else if id in f.grants then Err(DuplicateGrant)
      else Ok(ChildOf(p, r, id, now))
  }

  function AddTo(m: map<Id, set<Id>>, k: Id, x: Id): map<Id, set<Id>> {
    m[k := (if k in m then m[k] else {}) + {x}]
  }

  function AddOwner(m: map<Id, set<Id>>, owner: Option<Id>, x: Id): map<Id, set<Id>> {
    if owner.Some? then AddTo(m, owner.value, x) else m
  }

  function WithRoot(f: Forest, g: Grant): Forest {
    var owner := Lookup(f.active, g.Scope());
    f.(grants := f.grants[g.id := g], owners := f.owners[g.id := owner],
       ownerGrants := AddOwner(f.ownerGrants, owner, g.id))
  }

  function WithChild(f: Forest, parent: Id, g: Grant): Forest
    requires parent in f.owners
  {
    var owner := f.owners[parent];
    f.(grants := f.grants[g.id := g], owners := f.owners[g.id := owner],
       ownerGrants := AddOwner(f.ownerGrants, owner, g.id),
       parents := f.parents[g.id := parent],
       children := AddTo(f.children, parent, g.id))
  }

  /** An owner's entry disappears when its last grant does; one that was empty already stays. */
  function OwnersWithout(ownerGrants: map<Id, set<Id>>, gone: set<Id>): map<Id, set<Id>> {
    map o | o in ownerGrants && (ownerGrants[o] - gone != {} || ownerGrants[o] !! gone) :: ownerGrants[o] - gone
  }

  function ChildrenWithout(children: map<Id, set<Id>>, gone: set<Id>): map<Id, set<Id>> {
    map p | p in children && p !in gone && children[p] - gone != {} :: children[p] - gone
  }

  /** The forest with the grants in `gone` erased from all dictionaries. */
  function Without(f: Forest, gone: set<Id>): Forest {
    Forest(f.grants - gone, f.owners - gone, f.active, OwnersWithout(f.ownerGrants, gone),
           f.parents - gone, ChildrenWithout(f.children, gone))
  }

  function BoundKeys(tenant: string, products: seq<string>): set<ScopeKey> {
    set p | p in products :: (tenant, p)
  }

  predicate CanBind(f: Forest, tenant: string, products: seq<string>, owner: Id) {
    owner != "" && products != [] && Distinct(products) && BoundKeys(tenant, products) !! f.active.Keys
  }

  function BindAll(active: map<ScopeKey, Id>, tenant: string, products: seq<string>, owner: Id): map<ScopeKey, Id> {
    active + map k | k in BoundKeys(tenant, products) :: owner
  }

  function Bound(f: Forest, tenant: string, products: seq<string>, owner: Id): Forest {
    f.(active := BindAll(f.active, tenant, products, owner),
       ownerGrants := f.ownerGrants[owner := if owner in f.ownerGrants then f.ownerGrants[owner] else {}])
  }

  function OwnedBy(f: Forest, owner: Id): set<Id> {
    set g | g in f.owners && f.owners[g] == Some(owner)
  }

  function Released(f: Forest, owner: Id): Forest {
    Without(f, OwnedBy(f, owner)).(
      active := map k | k in f.active && f.active[k] != owner :: f.active[k],
      ownerGrants := Without(f, OwnedBy(f, owner)).ownerGrants - {owner})
  }

  // ----- Steps and runs -----

  datatype Op =
    | Register(grant: Grant)
    | Issue(request: ChildRequest, id: Id, now: int)
    | Revoke(id: Id)
    | Bind(tenant: string, products: seq<string>, owner: Id)
    | Release(owner: Id)

  ghost function Apply(f: Forest, op: Op): Forest {
    match op
    case Register(g) => if g.id in f.grants then f else WithRoot(f, g)
    case Issue(r, id, now) =>
      var issued := IssueChild(f, r, id, now);
      if issued.Ok? && r.parent in f.owners then WithChild(f, r.parent, issued.value) else f
    case Revoke(id) => if id in f.grants then Without(f, Subtree(f, id)) else f
    case Bind(t, ps, o) => if CanBind(f, t, ps, o) then Bound(f, t, ps, o) else f
    case Release(o) => Released(f, o)
  }

  ghost function Run(f: Forest, ops: seq<Op>): Forest
    decreases |ops|
  {
    if ops == [] then f else Run(Apply(f, ops[0]), ops[1..])
  }

  // ----- Each step keeps the invariant -----

  lemma {:induction false} AddOwnerInverse(owners: map<Id, Option<Id>>, ownerGrants: map<Id, set<Id>>,
                                           owner: Option<Id>, x: Id)
    requires OwnersInverse(owners, ownerGrants) && x !in owners
    ensures OwnersInverse(owners[x := owner], AddOwner(ownerGrants, owner, x))
  {
  }

  lemma {:induction false} AddChildInverse(parents: map<Id, Id>, children: map<Id, set<Id>>, p: Id, x: Id)
    requires ChildrenInverse(parents, children) && x !in parents
    ensures ChildrenInverse(parents[x := p], AddTo(children, p, x))
  {
  }

  lemma {:induction false} AddChildAcyclic(parents: map<Id, Id>, p: Id, x: Id)
    requires Acyclic(parents) && x !in parents && x != p
    requires forall c :: c in parents ==> parents[c] != x
    ensures Acyclic(parents[x := p])
  {
    var depth :| Climbs(parents, depth);
    var d := if p in depth then depth[p] else 0;
    assert Climbs(parents[x := p], depth[p := d][x := d + 1]);
  }

  lemma {:induction false} WithRootKeeps(f: Forest, g: Grant)
    requires Inv(f) && g.id !in f.grants
    ensures Inv(WithRoot(f, g))
  {
    AddOwnerInverse(f.owners, f.ownerGrants, Lookup(f.active, g.Scope()), g.id);
  }

  lemma {:induction false} WithChildKeeps(f: Forest, parent: Id, g: Grant)
    requires Inv(f) && g.id !in f.grants && parent in f.grants
    requires Contained(g, f.grants[parent])
    ensures Inv(WithChild(f, parent, g))
  {
    AddOwnerInverse(f.owners, f.ownerGrants, f.owners[parent], g.id);
    AddChildInverse(f.parents, f.children, parent, g.id);
    AddChildAcyclic(f.parents, parent, g.id);
  }

  lemma {:induction false} WithoutKeepsOwners(owners: map<Id, Option<Id>>, ownerGrants: map<Id, set<Id>>,
                                              gone: set<Id>)
    requires OwnersInverse(owners, ownerGrants)
    ensures OwnersInverse(owners - gone, OwnersWithout(ownerGrants, gone))
  {
    forall g | g in owners - gone && owners[g].Some?
      ensures var o := owners[g].value;
              o in OwnersWithout(ownerGrants, gone) && g in OwnersWithout(ownerGrants, gone)[o]
    {
      assert g in ownerGrants[owners[g].value] - gone;
    }
  }

  /** Erasing a set closed under children keeps the shape. */
  lemma {:induction false} WithoutKeeps(f: Forest, gone: set<Id>)
    requires Shape(f)
    requires forall c :: c in f.parents && f.parents[c] in gone ==> c in gone
    ensures Shape(Without(f, gone))
  {
    var w := Without(f, gone);
    assert ChildrenInverse(w.parents, w.children) by {
      forall c | c in w.parents
        ensures w.parents[c] in w.children && c in w.children[w.parents[c]]
      {
        assert c in f.children[f.parents[c]] - gone;
      }
    }
    WithoutKeepsOwners(f.owners, f.ownerGrants, gone);
    var depth :| Climbs(f.parents, depth);
    assert Climbs(w.parents, depth);
  }

  lemma {:induction false} SubtreeClosed(f: Forest, root: Id)
    requires Shape(f)
    ensures forall c :: c in f.parents && f.parents[c] in Subtree(f, root) ==> c in Subtree(f, root)
  {
    forall c | c in f.parents && f.parents[c] in Subtree(f, root)
      ensures c in Subtree(f, root)
    {
      var n: nat :| Up(f.parents, f.parents[c], n) == Some(root);
      assert Up(f.parents, c, n + 1) == Some(root);
    }
  }

  lemma {:induction false} IssueKeeps(f: Forest, r: ChildRequest, id: Id, now: int)
    requires Inv(f)
    ensures Inv(Apply(f, Issue(r, id, now)))
  {
    var issued := IssueChild(f, r, id, now);
    if issued.Ok? { WithChildKeeps(f, r.parent, issued.value); }
  }

  lemma {:induction false} RevokeKeeps(f: Forest, id: Id)
    requires Inv(f)
    ensures Inv(Apply(f, Revoke(id)))
  {
    SubtreeClosed(f, id);
    if id in f.grants { WithoutKeeps(f, Subtree(f, id)); }
  }

  lemma {:induction false} BindKeeps(f: Forest, tenant: string, products: seq<string>, owner: Id)
    requires Inv(f) && CanBind(f, tenant, products, owner)
    ensures Inv(Bound(f, tenant, products, owner))
  {
  }

  lemma {:induction false} ReleaseKeeps(f: Forest, owner: Id)
    requires Inv(f)
    ensures Inv(Released(f, owner))
  {
    WithoutKeeps(f, OwnedBy(f, owner));
  }

  lemma {:induction false} StepKeepsInv(f: Forest, op: Op)
    requires Inv(f)
    ensures Inv(Apply(f, op))
  {
    match op
    case Register(g) => if g.id !in f.grants { WithRootKeeps(f, g); }
    case Issue(r, id, now) => IssueKeeps(f, r, id, now);
    case Revoke(id) => RevokeKeeps(f, id);
    case Bind(t, ps, o) => if CanBind(f, t, ps, o) { BindKeeps(f, t, ps, o); }
    case Release(o) => ReleaseKeeps(f, o);
  }

  lemma {:induction false} RunKeepsInv(f: Forest, ops: seq<Op>)
    requires Inv(f)
    ensures Inv(Run(f, ops))
    decreases |ops|
  {
    if ops != [] {
      StepKeepsInv(f, ops[0]);
      RunKeepsInv(Apply(f, ops[0]), ops[1..]);
    }
  }

  // ----- What holds along every chain of delegation -----

  /** Attenuation: a grant is contained in every one of its ancestors, and shares their owner. */
  lemma {:induction false} AncestorsContain(f: Forest, x: Id, n: nat, a: Id)
    requires Shape(f) && x in f.grants && Up(f.parents, x, n) == Some(a)
    ensures a in f.grants && Contained(f.grants[x], f.grants[a]) && f.owners[a] == f.owners[x]
    decreases n
  {
    if n > 0 {
      AncestorsContain(f, f.parents[x], n - 1, a);
    }
  }

  /** The walk over all ancestors decides no more than the leaf's own expiry and owner. */
  lemma {:induction false} LiveIsLocal(f: Forest, x: Id, now: int)
    requires Shape(f)
    ensures Live(f, x, now) <==> x in f.grants && now < f.grants[x].expiresAt && OwnerCurrent(f, x)
  {
    assert Up(f.parents, x, 0) == Some(x);
    if x in f.grants && now < f.grants[x].expiresAt && OwnerCurrent(f, x) {
      forall n: nat | Up(f.parents, x, n).Some?
        ensures var a := Up(f.parents, x, n).value;
                a in f.grants && now < f.grants[a].expiresAt && OwnerCurrent(f, a)
      {
        AncestorsContain(f, x, n, Up(f.parents, x, n).value);
      }
    }
  }

  /** A grant is unowned or owned by the running activation of its product, so an unowned grant
      never resolves while its product is owned. Expiry is consulted for delegated grants only. */
  lemma {:induction false} ResolveExactly(f: Forest, x: Id, now: int)
    requires Inv(f)
    ensures Resolve(f, x, now).Some? <==>
            && x in f.grants
            && (f.owners[x].Some? || f.grants[x].Scope() !in f.active)
            && (x in f.parents ==> now < f.grants[x].expiresAt)
    ensures Resolve(f, x, now).Some? ==> Resolve(f, x, now).value == f.grants[x]
  {
    LiveIsLocal(f, x, now);
  }

  /** A delegated grant that resolves has a whole chain of live grants above it, each containing it. */
  lemma {:induction false} ResolvedChainIsLive(f: Forest, x: Id, now: int, n: nat, a: Id)
    requires Inv(f) && Resolve(f, x, now).Some? && x in f.parents && Up(f.parents, x, n) == Some(a)
    ensures Resolve(f, a, now).Some? && Contained(Resolve(f, x, now).value, Resolve(f, a, now).value)
  {
    ResolveExactly(f, x, now);
    AncestorsContain(f, x, n, a);
    ResolveExactly(f, a, now);
  }

  // ----- What a delegation stores -----

  /** The stored grant is what was asked for, within the parent's scope, and lives as long as both the
      parent and the asked lifetime allow. */
  ghost predicate IssuedFrom(parent: Grant, r: ChildRequest, id: Id, now: int, g: Grant) {
    && g.id == id && g.tenant == parent.tenant && g.product == parent.product
    && g.tools == r.tools && g.caps == r.caps && g.principal == Some(r.principal)
    && g.issuedAt == now && g.expiresAt <= parent.expiresAt && g.expiresAt <= now + r.lifetime
    && (g.expiresAt == parent.expiresAt || g.expiresAt == now + r.lifetime)
  }

  // ----- Safety over whole runs -----

  function Introduced(op: Op): set<Id> {
    match op
    case Register(g) => {g.id}
    case Issue(_, id, _) => {id}
    case _ => {}
  }

  /** Grant ids are random: each one a run introduces was never used before. */
  ghost predicate Fresh(used: set<Id>, ops: seq<Op>)
    decreases |ops|
  {
    ops == [] || (Introduced(ops[0]) !! used && Fresh(used + Introduced(ops[0]), ops[1..]))
  }

  /** A stored grant and its owner never change; they can only be removed. */
  lemma {:induction false} StepNeverRewrites(f: Forest, op: Op, x: Id)
    requires Inv(f) && x in f.grants && x in Apply(f, op).grants
    ensures Apply(f, op).grants[x] == f.grants[x] && Apply(f, op).owners[x] == f.owners[x]
    ensures x in f.parents <==> x in Apply(f, op).parents
    ensures x in f.parents ==> Apply(f, op).parents[x] == f.parents[x]
  {
    match op
    case Register(_) =>
    case Issue(r, id, now) => IssueNeverRewrites(f, r, id, now, x);
    case Revoke(id) => if id in f.grants { LeftUntouched(f, Subtree(f, id), x); }
    case Bind(_, _, _) =>
    case Release(o) => LeftUntouched(f, OwnedBy(f, o), x);
  }

  lemma {:induction false} IssueNeverRewrites(f: Forest, r: ChildRequest, id: Id, now: int, x: Id)
    requires Keyed(f) && EdgesAttenuate(f) && x in f.grants
    ensures var f' := Apply(f, Issue(r, id, now));
            && x in f'.grants && x in f'.owners && f'.grants[x] == f.grants[x] && f'.owners[x] == f.owners[x]
            && (x in f.parents <==> x in f'.parents) && (x in f.parents ==> f'.parents[x] == f.parents[x])
  {
  }

  lemma {:induction false} LeftUntouched(f: Forest, gone: set<Id>, x: Id)
    requires Keyed(f) && x in Without(f, gone).grants
    ensures var w := Without(f, gone);
            && x in w.owners && w.grants[x] == f.grants[x] && w.owners[x] == f.owners[x]
            && (x in f.parents <==> x in w.parents) && (x in f.parents ==> w.parents[x] == f.parents[x])
  {
  }

  lemma {:induction false} GoneStaysGone(f: Forest, used: set<Id>, ops: seq<Op>, x: Id)
    requires x in used && x !in f.grants && Fresh(used, ops)
    ensures x !in Run(f, ops).grants
    decreases |ops|
  {
    if ops != [] {
      GoneStaysGone(Apply(f, ops[0]), used + Introduced(ops[0]), ops[1..], x);
    }
  }

  /** Once a grant is revoked, neither it nor any descendant resolves in any later state of any run. */
  lemma {:induction false} RevocationIsFinal(f: Forest, root: Id, used: set<Id>, ops: seq<Op>, x: Id, now: int)
    requires Inv(f) && root in f.grants && f.grants.Keys <= used && Fresh(used, ops)
    requires x in Subtree(f, root)
    ensures Resolve(Run(Apply(f, Revoke(root)), ops), x, now) == None
  {
    GoneStaysGone(Apply(f, Revoke(root)), used, ops, x);
  }

  /** Releasing an activation removes exactly the grants it owns, for good, and frees exactly its scopes. */
  lemma {:induction false} ReleaseIsExactAndFinal(f: Forest, owner: Id, used: set<Id>, ops: seq<Op>, x: Id, now: int)
    requires Inv(f) && f.grants.Keys <= used && Fresh(used, ops) && x in f.grants
    ensures var f' := Apply(f, Release(owner));
            && (x in f'.grants <==> f.owners[x] != Some(owner))
            && (forall k :: k in f'.active <==> k in f.active && f.active[k] != owner)
            && (f.owners[x] == Some(owner) ==> Resolve(Run(f', ops), x, now) == None)
            && (x in f'.grants && f.owners[x].Some? ==> Resolve(f', x, now) == Resolve(f, x, now))
  {
    var f' := Apply(f, Release(owner));
    StepKeepsInv(f, Release(owner));
    if f.owners[x] == Some(owner) {
      GoneStaysGone(f', used, ops, x);
    } else {
      ResolveExactly(f, x, now);
      ResolveExactly(f', x, now);
      StepNeverRewrites(f, Release(owner), x);
    }
  }
}

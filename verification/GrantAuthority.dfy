/** The in-memory grant authority: six dictionaries updated in place, proved against the forest. */
module GrantAuthority {
  import opened Base
  import opened Grants

  lemma {:induction false} WithoutCompose(f: Forest, a: set<Id>, b: set<Id>)
    ensures Without(Without(f, a), b) == Without(f, a + b)
  {
    var l, r := Without(Without(f, a), b), Without(f, a + b);
    assert l.grants == r.grants;
    assert l.owners == r.owners;
    assert l.parents == r.parents;
    forall o | o in f.ownerGrants
      ensures f.ownerGrants[o] - a - b == f.ownerGrants[o] - (a + b)
    {
    }
    assert l.ownerGrants == r.ownerGrants;
    forall p | p in f.children
      ensures f.children[p] - a - b == f.children[p] - (a + b)
    {
    }
    assert l.children == r.children;
  }

  lemma {:induction false} UpEnds(parents: map<Id, Id>, x: Id, n: nat, m: nat)
    requires Up(parents, x, n) == None && n <= m
    ensures Up(parents, x, m) == None
    decreases n
  {
    if n > 0 && x in parents {
      UpEnds(parents, parents[x], n - 1, m - 1);
    }
  }

  class Authority {
    var grants: map<Id, Grant>
    var owners: map<Id, Option<Id>>
    var active: map<ScopeKey, Id>
    var ownerGrants: map<Id, set<Id>>
    var parents: map<Id, Id>
    var children: map<Id, set<Id>>

    function Model(): Forest
      reads this
    {
      Forest(grants, owners, active, ownerGrants, parents, children)
    }

    constructor ()
      ensures Model() == EMPTY && Inv(Model())
    {
      grants, owners, active, ownerGrants, parents, children := map[], map[], map[], map[], map[], map[];
      new;
      assert Climbs(parents, map[]);
    }

    method RegisterGrant(g: Grant) returns (ok: bool)
      modifies this
      ensures ok <==> old(g.id !in grants)
      ensures Model() == Apply(old(Model()), Register(g))
    {
      if g.id in grants { return false; }
      grants := grants[g.id := g];
      var owner := Lookup(active, g.Scope());
      owners := owners[g.id := owner];
      if owner.Some? {
        ownerGrants := AddTo(ownerGrants, owner.value, g.id);
      }
      return true;
    }

    /** Walks the ancestors, stopping at the first that is missing, expired or foreign. */
    method GrantLive(x: Id, now: int) returns (live: bool)
      requires Shape(Model())
      ensures live <==> Live(Model(), x, now)
    {
      var current := Some(x);
      ghost var n: nat := 0;
      ghost var depth :| Climbs(parents, depth);
      while current.Some?
        invariant Up(parents, x, n) == current
        invariant forall m: nat :: m < n && Up(parents, x, m).Some? ==>
          var a := Up(parents, x, m).value;
          a in grants && a in owners && now < grants[a].expiresAt && OwnerCurrent(Model(), a)
        decreases if current.None? then 0 else if current.value in depth then depth[current.value] + 1 else 1
      {
        var id := current.value;
        if id !in grants || grants[id].expiresAt <= now { return false; }
        if (if id in owners then owners[id] else None) != Lookup(active, grants[id].Scope()) { return false; }
        UpExtends(parents, x, n, id);
        current := Lookup(parents, id);
        n := n + 1;
      }
      forall m: nat | Up(parents, x, m).Some?
        ensures m < n
      {
        if n <= m { UpEnds(parents, x, n, m); }
      }
      return true;
    }

    method IssueChildGrant(r: ChildRequest, id: Id, now: int) returns (issued: Result<Grant, IssueError>)
      requires Inv(Model())
      modifies this
      ensures issued == IssueChild(old(Model()), r, id, now)
      ensures Model() == Apply(old(Model()), Issue(r, id, now))
      ensures issued.Ok? ==> id in grants && issued.value == grants[id]
      ensures issued.Ok? ==> r.parent in grants && IssuedFrom(grants[r.parent], r, id, now, grants[id])
    {
      if !r.agentScope { return Err(NotAgentScope); }
      if r.lifetime <= 0 { return Err(BadLifetime); }
      if r.parent !in grants { return Err(ParentInactive); }
      var parent := grants[r.parent];
      var live := GrantLive(r.parent, now);
      if !live { return Err(ParentInactive); }
      if parent.Scope() != (r.tenant, r.product) { return Err(ScopeChanged); }
      if parent.principal.Some? && parent.principal.value != r.principal { return Err(PrincipalChanged); }
      if !(r.tools <= parent.tools) { return Err(ToolsAdded); }
      if !(r.caps <= parent.caps) { return Err(CapabilitiesAdded); }
      var g := ChildOf(parent, r, id, now);
      if g.id in grants { return Err(DuplicateGrant); }
      grants := grants[g.id := g];
      var owner := owners[r.parent];
      owners := owners[g.id := owner];
      if owner.Some? {
        ownerGrants := AddTo(ownerGrants, owner.value, g.id);
      }
      parents := parents[g.id := r.parent];
      children := AddTo(children, r.parent, g.id);
      return Ok(g);
    }

    method ResolveGrant(x: Id, now: int) returns (found: Option<Grant>)
      requires Inv(Model())
      ensures found == Resolve(Model(), x, now)
    {
      if x !in grants { return None; }
      if x in parents {
        var live := GrantLive(x, now);
        return if live then Some(grants[x]) else None;
      }
      var current := Lookup(active, grants[x].Scope());
      if current.None? {
        return if owners[x].None? then Some(grants[x]) else None;
      }
      return if owners[x] == current then Some(grants[x]) else None;
    }

    /** One turn of the revocation worklist: unlink `x` everywhere. */
    method Unlink(x: Id) returns (kids: seq<Id>)
      requires Linked(Model(), x)
      modifies this
      ensures Model() == Without(old(Model()), {x})
      ensures Distinct(kids) && forall c :: c in kids <==> old(x in children && c in children[x])
    {
      DropOwner(owners, ownerGrants, x);
      DropChild(parents, children, x);
      kids := Elements(if x in children then children[x] else {});
      children := children - {x};
      if x in parents {
        children := Drop(children, parents[x], x);
      }
      parents := parents - {x};
      grants := grants - {x};
      if x in owners && owners[x].Some? {
        ownerGrants := Drop(ownerGrants, owners[x].value, x);
      }
      owners := owners - {x};
    }

    /** The worklist loop erases exactly the grant and all its transitive descendants. */
    method RevokeSubtree(root: Id)
      requires Shape(Model()) && root in grants
      modifies this
      ensures Model() == Without(old(Model()), Subtree(old(Model()), root))
    {
      ghost var f := Model();
      ghost var depth :| Climbs(parents, depth);
      ghost var done: set<Id> := {};
      WithoutNothing(f);
      var pending := [root];
      while |pending| > 0
        invariant Model() == Without(f, done)
        invariant Distinct(pending)
        invariant forall x :: x in pending <==> Frontier(f, done, root, x)
        invariant Reached(f, depth, done, root)
        decreases f.grants.Keys - done
      {
        var x := pending[|pending| - 1];
        FrontierLinked(f, depth, done, root, x);
        var kids := Unlink(x);
        WithoutCompose(f, done, {x});
        WorklistStep(f, depth, done, root, pending, kids);
        pending := pending[..|pending| - 1] + kids;
        done := done + {x};
      }
      ReachedIsSubtree(f, depth, done, root);
    }

    method RevokeGrant(x: Id) returns (found: bool)
      requires Inv(Model())
      modifies this
      ensures found <==> old(x in grants)
      ensures Model() == Apply(old(Model()), Revoke(x))
    {
      if x !in grants { return false; }
      RevokeSubtree(x);
      return true;
    }

    method BindActivation(tenant: string, products: seq<string>, owner: Id) returns (ok: bool)
      modifies this
      ensures ok <==> CanBind(old(Model()), tenant, products, owner)
      ensures Model() == Apply(old(Model()), Bind(tenant, products, owner))
    {
      if owner == "" || products == [] || !Distinct(products) { return false; }
      if exists p :: p in products && (tenant, p) in active { return false; }
      ghost var f := Model();
      for i := 0 to |products|
        invariant Model() == f.(active := BindAll(f.active, tenant, products[..i], owner))
      {
        BindNext(f.active, tenant, products, i, owner);
        active := active[(tenant, products[i]) := owner];
      }
      assert products[..|products|] == products;
      ownerGrants := ownerGrants[owner := if owner in ownerGrants then ownerGrants[owner] else {}];
      return true;
    }

    /** Revoking the owner's grants one subtree at a time removes exactly what it owns. */
    method RevokeOwned(owner: Id)
      requires Shape(Model())
      modifies this
      ensures Model() == Without(old(Model()), OwnedBy(old(Model()), owner))
    {
      ghost var f := Model();
      ghost var gone: set<Id> := {};
      WithoutNothing(f);
      var ids := Elements(if owner in ownerGrants then ownerGrants[owner] else {});
      assert forall x :: x in ids <==> x in OwnedBy(f, owner);
      for i := 0 to |ids|
        invariant Model() == Without(f, gone)
        invariant ClosedBelow(f, gone) && gone <= OwnedBy(f, owner)
        invariant forall k :: 0 <= k < i ==> ids[k] in gone
      {
        assert ids[i] in ids;
        if ids[i] in grants {
          OwnedSubtree(f, gone, owner, ids[i]);
          ghost var s := Subtree(Model(), ids[i]);
          RevokeSubtree(ids[i]);
          gone := gone + s;
        }
      }
      assert gone == OwnedBy(f, owner);
    }

    method ReleaseActivation(owner: Id)
      requires Inv(Model())
      modifies this
      ensures Model() == Apply(old(Model()), Release(owner))
    {
      active := map k | k in active && active[k] != owner :: active[k];
      RevokeOwned(owner);
      ownerGrants := ownerGrants - {owner};
    }
  }

  // ----- Supporting facts -----

  /** Discards x from one entry, and drops the entry if that empties it. */
  function Drop(m: map<Id, set<Id>>, k: Id, x: Id): map<Id, set<Id>> {
    if k !in m then m else if m[k] - {x} == {} then m - {k} else m[k := m[k] - {x}]
  }

  lemma {:induction false} DropOwner(owners: map<Id, Option<Id>>, ownerGrants: map<Id, set<Id>>, x: Id)
    requires OwnersInverse(owners, ownerGrants)
    ensures OwnersWithout(ownerGrants, {x}) ==
            if x in owners && owners[x].Some? then Drop(ownerGrants, owners[x].value, x) else ownerGrants
  {
    forall o | o in ownerGrants && x !in ownerGrants[o]
      ensures ownerGrants[o] - {x} == ownerGrants[o]
    {
    }
  }

  lemma {:induction false} DropChild(parents: map<Id, Id>, children: map<Id, set<Id>>, x: Id)
    requires forall p :: p in children ==> children[p] != {}
    requires forall p :: p in children && x in children[p] ==> Lookup(parents, x) == Some(p)
    ensures ChildrenWithout(children, {x}) ==
            if x in parents then Drop(children - {x}, parents[x], x) else children - {x}
  {
    forall p | p in children && x !in children[p]
      ensures children[p] - {x} == children[p]
    {
    }
  }

  lemma {:induction false} BindNext(active: map<ScopeKey, Id>, tenant: string, products: seq<string>, i: nat,
                                    owner: Id)
    requires i < |products|
    ensures BindAll(active, tenant, products[..i + 1], owner)
         == BindAll(active, tenant, products[..i], owner)[(tenant, products[i]) := owner]
  {
    assert products[..i + 1] == products[..i] + [products[i]];
    assert BoundKeys(tenant, products[..i + 1]) == BoundKeys(tenant, products[..i]) + {(tenant, products[i])};
  }

  lemma {:induction false} WithoutNothing(f: Forest)
    requires ChildrenInverse(f.parents, f.children)
    ensures Without(f, {}) == f
  {
    var w := Without(f, {});
    forall o | o in f.ownerGrants ensures f.ownerGrants[o] - {} == f.ownerGrants[o] {}
    assert w.ownerGrants == f.ownerGrants;
    forall p | p in f.children ensures f.children[p] - {} == f.children[p] {}
    assert w.children == f.children;
  }

  ghost function Rank(depth: map<Id, nat>, x: Id): nat {
    if x in depth then depth[x] else 0
  }

  /** Not yet erased, but the root or a child of something erased. */
  ghost predicate Frontier(f: Forest, done: set<Id>, root: Id, x: Id) {
    x !in done && (x == root || (x in f.parents && f.parents[x] in done))
  }

  /** What is erased hangs together below the root. */
  ghost predicate Reached(f: Forest, depth: map<Id, nat>, done: set<Id>, root: Id) {
    && root in f.grants && done <= f.grants.Keys
    && (forall x :: x in done ==> Under(f.parents, x, root) && Rank(depth, root) <= Rank(depth, x))
    && (forall x :: x in done && x != root ==> x in f.parents && f.parents[x] in done)
  }

  /** Erasing a frontier grant leaves its children, all new, on the frontier. */
  lemma {:induction false} FrontierKids(f: Forest, depth: map<Id, nat>, done: set<Id>, root: Id, x: Id)
    requires Shape(f) && Climbs(f.parents, depth) && Reached(f, depth, done, root) && Frontier(f, done, root, x)
    ensures Reached(f, depth, done + {x}, root)
    ensures forall c :: c in f.parents && f.parents[c] == x ==> c !in done && c != root && c != x
  {
    if x == root {
      assert Up(f.parents, x, 0) == Some(root);
    } else {
      var n: nat :| Up(f.parents, f.parents[x], n) == Some(root);
      assert Up(f.parents, x, n + 1) == Some(root);
    }
  }

  /** What unlinking relies on, also in the half-erased dictionaries. */
  ghost predicate Linked(f: Forest, x: Id) {
    && (forall p :: p in f.children ==> f.children[p] != {})
    && OwnersInverse(f.owners, f.ownerGrants)
    && (forall p :: p in f.children && x in f.children[p] ==> Lookup(f.parents, x) == Some(p))
  }

  lemma {:induction false} FrontierLinked(f: Forest, depth: map<Id, nat>, done: set<Id>, root: Id, x: Id)
    requires Shape(f) && Climbs(f.parents, depth) && Reached(f, depth, done, root) && Frontier(f, done, root, x)
    ensures var w := Without(f, done);
            && Linked(w, x) && x in f.grants
            && forall c :: (x in w.children && c in w.children[x]) <==> (c in f.parents && f.parents[c] == x)
  {
    WithoutKeepsOwners(f.owners, f.ownerGrants, done);
    FrontierKids(f, depth, done, root, x);
    ChildrenLeft(f.parents, f.children, done, x);
  }

  lemma {:induction false} ChildrenLeft(parents: map<Id, Id>, children: map<Id, set<Id>>, done: set<Id>, x: Id)
    requires ChildrenInverse(parents, children) && x !in done
    requires forall c :: c in parents && parents[c] == x ==> c !in done
    ensures var left := ChildrenWithout(children, done);
            && (forall p :: p in left ==> left[p] != {})
            && (forall p :: p in left && x in left[p] ==> Lookup(parents - done, x) == Some(p))
            && forall c :: (x in left && c in left[x]) <==> (c in parents && parents[c] == x)
  {
    forall c | c in parents && parents[c] == x
      ensures x in ChildrenWithout(children, done) && c in ChildrenWithout(children, done)[x]
    {
      assert c in children[x] - done;
    }
  }

  lemma {:induction false} WorklistStep(f: Forest, depth: map<Id, nat>, done: set<Id>, root: Id, pending: seq<Id>,
                                        kids: seq<Id>)
    requires Shape(f) && Climbs(f.parents, depth) && Reached(f, depth, done, root)
    requires pending != [] && Distinct(pending) && forall y :: y in pending <==> Frontier(f, done, root, y)
    requires Distinct(kids) && forall c :: c in kids <==> c in f.parents && f.parents[c] == pending[|pending| - 1]
    ensures var (x, rest) := (pending[|pending| - 1], pending[..|pending| - 1]);
            && Distinct(rest + kids)
            && Reached(f, depth, done + {x}, root)
            && forall y :: y in rest + kids <==> Frontier(f, done + {x}, root, y)
  {
    var x, rest := pending[|pending| - 1], pending[..|pending| - 1];
    DistinctPop(pending);
    FrontierKids(f, depth, done, root, x);
    forall y ensures y in rest + kids <==> Frontier(f, done + {x}, root, y) {
    }
    DistinctAppend(rest, kids);
  }

  ghost predicate ClosedBelow(f: Forest, gone: set<Id>) {
    forall c :: c in f.parents && f.parents[c] in gone ==> c in gone
  }

  lemma {:induction false} UnderClosed(f: Forest, gone: set<Id>, root: Id, x: Id, n: nat)
    requires ClosedBelow(f, gone) && root in gone && Up(f.parents, x, n) == Some(root)
    ensures x in gone
    decreases n
  {
    if n > 0 {
      UnderClosed(f, gone, root, f.parents[x], n - 1);
    }
  }

  lemma {:induction false} ReachedIsSubtree(f: Forest, depth: map<Id, nat>, done: set<Id>, root: Id)
    requires Reached(f, depth, done, root) && forall x :: !Frontier(f, done, root, x)
    ensures done == Subtree(f, root)
  {
    assert !Frontier(f, done, root, root);
    assert ClosedBelow(f, done) by {
      forall c | c in f.parents && f.parents[c] in done ensures c in done {
        assert !Frontier(f, done, root, c);
      }
    }
    forall x | x in Subtree(f, root) ensures x in done {
      var n: nat :| Up(f.parents, x, n) == Some(root);
      UnderClosed(f, done, root, x, n);
    }
  }

  /** What remains below an owner's grant is the owner's too. */
  lemma {:induction false} OwnedSubtree(f: Forest, gone: set<Id>, owner: Id, x: Id)
    requires Shape(f) && ClosedBelow(f, gone) && gone <= OwnedBy(f, owner)
    requires x in OwnedBy(f, owner) && x !in gone
    ensures var s := Subtree(Without(f, gone), x);
            && Shape(Without(f, gone))
            && x in s && s <= OwnedBy(f, owner) && ClosedBelow(f, gone + s)
            && Without(Without(f, gone), s) == Without(f, gone + s)
  {
    var w := Without(f, gone);
    WithoutKeeps(f, gone);
    SubtreeClosed(w, x);
    WithoutCompose(f, gone, Subtree(w, x));
    assert Up(w.parents, x, 0) == Some(x);
    forall y | y in Subtree(w, x) ensures y in OwnedBy(f, owner) {
      var n: nat :| Up(w.parents, y, n) == Some(x);
      AncestorsContain(w, y, n, x);
    }
    forall c | c in f.parents && f.parents[c] in gone + Subtree(w, x)
      ensures c in gone + Subtree(w, x)
    {
      if c !in gone {
        assert c in w.parents && w.parents[c] in Subtree(w, x);
      }
    }
  }
}

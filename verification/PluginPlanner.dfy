/** The planner: resolving requirements into a graph, then ordering it with a ready heap. */
module PluginPlanner {
  import opened Base
  import opened Orders
  import opened PluginGraph

  datatype Requirement = Requirement(service: string, range: string, optional: bool)

  datatype Manifest = Manifest(required: seq<Requirement>)

  datatype Provider = Provider(plugin: Id, version: string)

  datatype Binding = Binding(requirement: Requirement, provider: Option<Id>)

  /** The verified plugins by id, the one provider of each service, and the version test. */
  datatype World = World(
    plugins: map<Id, Manifest>, providers: map<string, Provider>, accepts: (string, string) -> bool)
  {
    ghost predicate Valid() {
      forall s :: s in providers ==> providers[s].plugin in plugins
    }

    predicate Missing(r: Requirement) {
      r.service !in providers && !r.optional
    }

    predicate Mismatched(r: Requirement) {
      r.service in providers && !accepts(r.range, providers[r.service].version)
    }

    predicate Met(r: Requirement) {
      !Missing(r) && !Mismatched(r)
    }

    predicate AllMet(p: Id)
      requires p in plugins
    {
      forall i :: 0 <= i < |plugins[p].required| ==> Met(plugins[p].required[i])
    }

    function Bind(r: Requirement): Binding {
      Binding(r, if r.service in providers then Some(providers[r.service].plugin) else None)
    }

    /** The plugins that the first n requirements of p are bound to. */
    function Needs(p: Id, n: nat): set<Id>
      requires p in plugins && n <= |plugins[p].required|
    {
      set i | 0 <= i < n && plugins[p].required[i].service in providers
        :: providers[plugins[p].required[i].service].plugin
    }

    function Edges(): Graph {
      map p | p in plugins :: Needs(p, |plugins[p].required|)
    }
  }

  datatype Failure =
    | MissingProvider(plugin: Id, service: string)
    | VersionMismatch(plugin: Id, service: string)
    | DependencyCycle(members: set<Id>)

  datatype Plan = Plan(order: seq<Id>, bindings: map<Id, seq<Binding>>)

  ghost predicate Inverse(g: Graph, outgoing: map<Id, set<Id>>) {
    && outgoing.Keys == g.Keys
    && forall p, c :: p in outgoing ==> (c in outgoing[p] <==> c in g && p in g[c])
  }

  /** How many providers of c are not placed yet. */
  ghost function Left(g: Graph, done: set<Id>, c: Id): nat
    requires c in g
  {
    |g[c] - done|
  }

  ghost predicate Counts(g: Graph, done: set<Id>, counts: map<Id, int>) {
    counts.Keys == g.Keys && forall c :: c in g ==> counts[c] == Left(g, done, c)
  }

  lemma {:induction false} LeftZero(g: Graph, done: set<Id>, c: Id)
    requires c in g
    ensures Left(g, done, c) == 0 <==> g[c] <= done
  {
    if g[c] <= done {
      assert g[c] - done == {};
    } else {
      var x :| x in g[c] && x !in done;
      assert x in g[c] - done;
    }
  }

  lemma {:induction false} LeftStep(g: Graph, done: set<Id>, p: Id, c: Id)
    requires c in g && p !in done
    ensures Left(g, done, c) == Left(g, done + {p}, c) + if p in g[c] then 1 else 0
  {
    assert g[c] - done == (g[c] - (done + {p})) + if p in g[c] then {p} else {};
  }

  /** Charges each provider of one plugin: an outgoing edge and one incoming count. */
  method AddEdges(p: Id, needs: set<Id>, outgoing: map<Id, set<Id>>, counts: map<Id, int>)
    returns (outgoing': map<Id, set<Id>>, counts': map<Id, int>)
    requires p in counts && needs <= outgoing.Keys
    ensures outgoing'.Keys == outgoing.Keys
    ensures forall q, c :: q in outgoing ==> (c in outgoing'[q] <==> c in outgoing[q] || (c == p && q in needs))
    ensures counts'.Keys == counts.Keys && counts'[p] == counts[p] + |needs|
    ensures forall c :: c in counts && c != p ==> counts'[c] == counts[c]
  {
    outgoing', counts' := outgoing, counts;
    var rest := needs;
    while rest != {}
      invariant rest <= needs && outgoing'.Keys == outgoing.Keys
      invariant forall q, c :: q in outgoing ==>
        (c in outgoing'[q] <==> c in outgoing[q] || (c == p && q in needs - rest))
      invariant counts'.Keys == counts.Keys && counts'[p] == counts[p] + |needs| - |rest|
      invariant forall c :: c in counts && c != p ==> counts'[c] == counts[c]
      decreases |rest|
    {
      var q :| q in rest;
      outgoing' := outgoing'[q := outgoing'[q] + {p}];
      counts' := counts'[p := counts'[p] + 1];
      rest := rest - {q};
    }
  }

  /** Binds one plugin's requirements in order, stopping at the first that is not met. */
  method Resolve(w: World, p: Id) returns (r: Result<seq<Binding>, Failure>, needs: set<Id>)
    requires w.Valid() && p in w.plugins
    ensures r.Ok? <==> w.AllMet(p)
    ensures r.Ok? ==> needs == w.Edges()[p] && r.value == Bindings(w, p)
    ensures r.Err? ==> !r.error.DependencyCycle? && exists i ::
        0 <= i < |w.plugins[p].required| && FirstUnmet(w, p, i, r.error)
  {
    var reqs := w.plugins[p].required;
    var resolved: seq<Binding> := [];
    needs := {};
    for i := 0 to |reqs|
      invariant |resolved| == i && forall k :: 0 <= k < i ==> w.Met(reqs[k]) && resolved[k] == w.Bind(reqs[k])
      invariant needs == w.Needs(p, i)
    {
      var q := reqs[i];
      if q.service !in w.providers {
        if !q.optional {
          assert FirstUnmet(w, p, i, MissingProvider(p, q.service));
          return Err(MissingProvider(p, q.service)), needs;
        }
        resolved := resolved + [Binding(q, None)];
      } else {
        var provider := w.providers[q.service];
        if !w.accepts(q.range, provider.version) {
          assert FirstUnmet(w, p, i, VersionMismatch(p, q.service));
          return Err(VersionMismatch(p, q.service)), needs;
        }
        resolved := resolved + [Binding(q, Some(provider.plugin))];
        needs := needs + {provider.plugin};
      }
      assert w.Needs(p, i + 1) ==
        w.Needs(p, i) + if q.service in w.providers then {w.providers[q.service].plugin} else {};
    }
    return Ok(resolved), needs;
  }

  /** The failure reported is about the first unmet requirement of p. */
  ghost predicate FirstUnmet(w: World, p: Id, i: nat, f: Failure)
    requires p in w.plugins && i < |w.plugins[p].required|
  {
    var reqs := w.plugins[p].required;
    && (forall k :: 0 <= k < i ==> w.Met(reqs[k]))
    && (if w.Missing(reqs[i]) then f == MissingProvider(p, reqs[i].service)
        else w.Mismatched(reqs[i]) && f == VersionMismatch(p, reqs[i].service))
  }

  /** The failure is the first one met when plugins are taken in id order. */
  ghost predicate FirstFailure(lt: Order, w: World, f: Failure) {
    exists p, i ::
      && p in w.plugins && 0 <= i < |w.plugins[p].required| && FirstUnmet(w, p, i, f)
      && forall q :: q in w.plugins && lt(q, p) ==> w.AllMet(q)
  }

  function Bindings(w: World, p: Id): seq<Binding>
    requires p in w.plugins
  {
    var reqs := w.plugins[p].required;
    seq(|reqs|, i requires 0 <= i < |reqs| => w.Bind(reqs[i]))
  }

  /** The dictionaries after all plugins but those in `todo` were charged. */
  ghost predicate Charged(g: Graph, todo: set<Id>, outgoing: map<Id, set<Id>>, counts: map<Id, int>) {
    && outgoing.Keys == g.Keys && counts.Keys == g.Keys
    && (forall q, c :: q in outgoing ==> (c in outgoing[q] <==> c in g && c !in todo && q in g[c]))
    && (forall c :: c in counts ==> counts[c] == if c in todo then 0 else |g[c]|)
  }

  ghost predicate Bound(w: World, done: set<Id>, bindings: map<Id, seq<Binding>>) {
    && done <= w.plugins.Keys && bindings.Keys == done
    && forall p :: p in done ==> w.AllMet(p) && bindings[p] == Bindings(w, p)
  }

  lemma {:induction false} ChargedStep(g: Graph, todo: set<Id>, p: Id, outgoing: map<Id, set<Id>>,
                                       counts: map<Id, int>,
                    outgoing': map<Id, set<Id>>, counts': map<Id, int>)
    requires Charged(g, todo, outgoing, counts) && p in todo && p in g && outgoing'.Keys == outgoing.Keys
    requires forall q, c :: q in outgoing ==> (c in outgoing'[q] <==> c in outgoing[q] || (c == p && q in g[p]))
    requires counts'.Keys == counts.Keys && counts'[p] == counts[p] + |g[p]|
    requires forall c :: c in counts && c != p ==> counts'[c] == counts[c]
    ensures Charged(g, todo - {p}, outgoing', counts')
  {
  }

  lemma {:induction false} BoundStep(w: World, todo: set<Id>, p: Id, bindings: map<Id, seq<Binding>>)
    requires p in todo && todo <= w.plugins.Keys && Bound(w, w.plugins.Keys - todo, bindings) && w.AllMet(p)
    ensures Bound(w, w.plugins.Keys - (todo - {p}), bindings[p := Bindings(w, p)])
  {
  }

  lemma {:induction false} ChargedAll(g: Graph, outgoing: map<Id, set<Id>>, counts: map<Id, int>)
    requires Charged(g, {}, outgoing, counts)
    ensures Inverse(g, outgoing) && Counts(g, {}, counts)
  {
    forall c | c in g ensures Left(g, {}, c) == |g[c]| { assert g[c] - {} == g[c]; }
  }

  lemma {:induction false} EarliestFailure(lt: Order, w: World, done: set<Id>, p: Id,
                                           bindings: map<Id, seq<Binding>>, f: Failure)
    requires StrictTotal(lt) && p in w.plugins && Bound(w, done, bindings) && IsLeast(lt, p, w.plugins.Keys - done)
    requires exists i :: 0 <= i < |w.plugins[p].required| && FirstUnmet(w, p, i, f)
    ensures FirstFailure(lt, w, f)
  {
    forall q | q in w.plugins && lt(q, p) ensures w.AllMet(q) {
      assert q !in w.plugins.Keys - done;
    }
  }

  /** Resolves one plugin and charges its edges. */
  method ChargePlugin(w: World, ghost g: Graph, ghost todo: set<Id>, p: Id,
                      outgoing: map<Id, set<Id>>, counts: map<Id, int>, bindings: map<Id, seq<Binding>>)
    returns (failure: Option<Failure>, outgoing': map<Id, set<Id>>, counts': map<Id, int>,
        bindings': map<Id, seq<Binding>>)
    requires w.Valid() && g == w.Edges() && Closed(g) && p in todo && todo <= w.plugins.Keys
    requires Charged(g, todo, outgoing, counts) && Bound(w, w.plugins.Keys - todo, bindings)
    ensures failure.Some? ==>
      !failure.value.DependencyCycle? && exists i ::
        0 <= i < |w.plugins[p].required| && FirstUnmet(w, p, i, failure.value)
    ensures failure.None? ==>
      Charged(g, todo - {p}, outgoing', counts') && Bound(w, w.plugins.Keys - (todo - {p}), bindings')
  {
    outgoing', counts', bindings' := outgoing, counts, bindings;
    var r, needs := Resolve(w, p);
    if r.Err? { return Some(r.error), outgoing', counts', bindings'; }
    BoundStep(w, todo, p, bindings);
    bindings' := bindings[p := r.value];
    outgoing', counts' := AddEdges(p, needs, outgoing, counts);
    ChargedStep(g, todo, p, outgoing, counts, outgoing', counts');
    failure := None;
  }

  method BuildGraph(lt: Order, w: World)
    returns (failure: Option<Failure>, outgoing: map<Id, set<Id>>, counts: map<Id, int>,
        bindings: map<Id, seq<Binding>>)
    requires StrictTotal(lt) && w.Valid()
    ensures failure.None? <==> forall p :: p in w.plugins ==> w.AllMet(p)
    ensures failure.Some? ==> FirstFailure(lt, w, failure.value) && !failure.value.DependencyCycle?
    ensures failure.None? ==>
              Inverse(w.Edges(), outgoing) && Counts(w.Edges(), {}, counts) && Bound(w, w.plugins.Keys, bindings)
  {
    ghost var g := w.Edges();
    EdgesClosed(w);
    outgoing := map p | p in w.plugins :: {};
    counts := map p | p in w.plugins :: 0;
    bindings := map[];
    failure := None;
    var todo := w.plugins.Keys;
    while todo != {}
      invariant todo <= w.plugins.Keys
      invariant Charged(g, todo, outgoing, counts)
      invariant Bound(w, w.plugins.Keys - todo, bindings)
      decreases todo
    {
      var p, rest := PopLeast(lt, todo);
      var f, outgoing', counts', bindings' := ChargePlugin(w, g, todo, p, outgoing, counts, bindings);
      if f.Some? {
        MinusMinus(w.plugins.Keys, todo);
        EarliestFailure(lt, w, w.plugins.Keys - todo, p, bindings, f.value);
        return f, outgoing, counts, bindings;
      }
      outgoing, counts, bindings := outgoing', counts', bindings';
      todo := rest;
    }
    ChargedAll(g, outgoing, counts);
    MinusNothing(w.plugins.Keys);
  }

  lemma {:induction false} EdgesClosed(w: World)
    requires w.Valid()
    ensures Closed(w.Edges()) && w.Edges().Keys == w.plugins.Keys && |w.Edges().Keys| == |w.plugins|
  {
  }

  /** The state of the count-down: consumers in `rest` are still to be charged for p. */
  ghost predicate CountingDown(g: Graph, placed: set<Id>, rest: set<Id>, counts: map<Id, int>, heap: set<Id>) {
    && counts.Keys == g.Keys
    && (forall c :: c in g ==> counts[c] == Left(g, placed, c) + if c in rest then 1 else 0)
    && heap == Ready(g, placed) - rest
  }

  lemma {:induction false} StartCountDown(g: Graph, done: set<Id>, p: Id, consumers: set<Id>, counts: map<Id, int>)
    requires p in g && p !in done && g[p] <= done && Counts(g, done, counts)
    requires forall c :: c in consumers <==> c in g && p in g[c]
    ensures CountingDown(g, done + {p}, consumers, counts, Ready(g, done) - {p})
  {
    ReadyAfter(g, done, p, consumers);
    forall c | c in g ensures Left(g, done, c) == Left(g, done + {p}, c) + if c in consumers then 1 else 0 {
      LeftStep(g, done, p, c);
    }
  }

  lemma {:induction false} ConsumersUnplaced(g: Graph, done: set<Id>, p: Id, consumers: set<Id>)
    requires p in g && p !in done && g[p] <= done
    requires forall q :: q in done ==> q in g && g[q] <= done
    requires forall c :: c in consumers <==> c in g && p in g[c]
    ensures consumers <= g.Keys && consumers !! done + {p}
  {
  }

  /** Placing p makes only its consumers ready. */
  lemma {:induction false} ReadyAfter(g: Graph, done: set<Id>, p: Id, consumers: set<Id>)
    requires p in g && p !in done && g[p] <= done
    requires forall c :: c in consumers <==> c in g && p in g[c]
    ensures Ready(g, done) - {p} == Ready(g, done + {p}) - consumers
  {
    forall x | x in g && x !in consumers ensures g[x] <= done <==> g[x] <= done + {p} {
      assert p !in g[x];
    }
  }

  lemma {:induction false} CountDownStep(g: Graph, placed: set<Id>, rest: set<Id>, c: Id, counts: map<Id, int>,
                                         heap: set<Id>)
    requires CountingDown(g, placed, rest, counts, heap) && c in rest && c in g && c !in placed
    ensures var n := counts[c] - 1;
            CountingDown(g, placed, rest - {c}, counts[c := n], if n == 0 then heap + {c} else heap)
  {
    LeftZero(g, placed, c);
  }

  /** Counts down the consumers of a placed plugin and pushes those that become ready. */
  method CountDown(lt: Order, ghost g: Graph, ghost placed: set<Id>, consumers: set<Id>, counts: map<Id, int>,
                   heap: set<Id>)
    returns (counts': map<Id, int>, heap': set<Id>)
    requires StrictTotal(lt) && consumers <= g.Keys && consumers !! placed
    requires CountingDown(g, placed, consumers, counts, heap)
    ensures CountingDown(g, placed, {}, counts', heap')
  {
    counts', heap' := counts, heap;
    var rest := consumers;
    while rest != {}
      invariant rest <= consumers
      invariant CountingDown(g, placed, rest, counts', heap')
      decreases rest
    {
      var c, rest' := PopLeast(lt, rest);
      CountDownStep(g, placed, rest, c, counts', heap');
      counts' := counts'[c := counts'[c] - 1];
      if counts'[c] == 0 {
        heap' := heap' + {c};
      }
      rest := rest';
    }
  }

  lemma {:induction false} EndCountDown(g: Graph, placed: set<Id>, counts: map<Id, int>, heap: set<Id>)
    requires CountingDown(g, placed, {}, counts, heap)
    ensures Counts(g, placed, counts) && heap == Ready(g, placed)
  {
    MinusNothing(Ready(g, placed));
  }

  lemma {:induction false} StartReady(g: Graph, counts: map<Id, int>)
    requires Counts(g, {}, counts)
    ensures (set p | p in counts && counts[p] == 0) == Ready(g, {})
  {
    forall p | p in g ensures counts[p] == 0 <==> g[p] <= {} { LeftZero(g, {}, p); }
  }

  /** Kahn's algorithm with a heap builds the greedy order, as far as it goes. */
  method PlaceAll(lt: Order, ghost g: Graph, outgoing: map<Id, set<Id>>, incoming: map<Id, int>)
    returns (order: seq<Id>, counts: map<Id, int>)
    requires StrictTotal(lt) && Closed(g) && Inverse(g, outgoing) && Counts(g, {}, incoming)
    ensures Greedy(lt, g, order) && Ready(g, ToSet(order)) == {}
    ensures Counts(g, ToSet(order), counts)
  {
    order, counts := [], incoming;
    var heap := set p | p in counts && counts[p] == 0;
    StartReady(g, counts);
    ghost var done: set<Id> := {};
    while heap != {}
      invariant done == ToSet(order)
      invariant heap == Ready(g, done) && Greedy(lt, g, order) && Counts(g, done, counts)
      decreases g.Keys - done
    {
      var p, rest := PopLeast(lt, heap);
      GreedyIsClosed(lt, g, order);
      ConsumersUnplaced(g, done, p, outgoing[p]);
      StartCountDown(g, done, p, outgoing[p], counts);
      counts, heap := CountDown(lt, g, done + {p}, outgoing[p], counts, rest);
      EndCountDown(g, done + {p}, counts, heap);
      GreedyGrows(lt, g, order, p);
      ToSetSnoc(order, p);
      order := order + [p];
      done := done + {p};
    }
  }

  lemma {:induction false} GreedyIsClosed(lt: Order, g: Graph, order: seq<Id>)
    requires Greedy(lt, g, order)
    ensures forall q :: q in ToSet(order) ==> q in g && g[q] <= ToSet(order)
  {
    GreedyIsSupported(lt, g, order);
    forall q | q in ToSet(order) ensures q in g && g[q] <= ToSet(order) {
      var i :| 0 <= i < |order| && order[i] == q;
      assert g[order[i]] <= ToSet(order[..i]);
    }
  }

  lemma {:induction false} GreedyGrows(lt: Order, g: Graph, order: seq<Id>, p: Id)
    requires Greedy(lt, g, order) && IsLeast(lt, p, Ready(g, ToSet(order)))
    ensures Greedy(lt, g, order + [p])
  {
    var longer := order + [p];
    forall i | 0 <= i < |longer| ensures IsLeast(lt, longer[i], Ready(g, ToSet(longer[..i]))) {
      assert longer[..i] == order[..i];
      assert order[..|order|] == order;
    }
  }

  /** The outcome of planning: a least order with all bindings, the first unmet requirement, or the
      plugins that lead into a cycle. */
  ghost predicate PlanFor(w: World, r: Result<Plan, Failure>) {
    var met := forall p :: p in w.plugins ==> w.AllMet(p);
    && (r.Ok? <==> met && !HasCycle(w.Edges()))
    && (r.Ok? ==>
          && Topological(w.Edges(), r.value.order)
          && (forall other :: Topological(w.Edges(), other) ==> LexLeq(Less, r.value.order, other))
          && Bound(w, w.plugins.Keys, r.value.bindings))
    && (r.Err? ==> (r.error.DependencyCycle? <==> met))
    && (r.Err? && !r.error.DependencyCycle? ==> FirstFailure(Less, w, r.error))
    && (r.Err? && r.error.DependencyCycle? ==>
          forall p :: p in r.error.members <==> p in w.plugins && Doomed(w.Edges(), p))
  }

  /** Planning succeeds exactly when every requirement is met and the graph has no cycle; the order
      is then the lexicographically least topological one. Otherwise it names what is wrong. */
  method MakePlan(w: World) returns (r: Result<Plan, Failure>)
    requires w.Valid()
    ensures PlanFor(w, r)
  {
    LessIsStrictTotal();
    var failure, outgoing, counts, bindings := BuildGraph(Less, w);
    if failure.Some? { return Err(failure.value); }
    ghost var g := w.Edges();
    EdgesClosed(w);
    var order;
    order, counts := PlaceAll(Less, g, outgoing, counts);
    OrderedExactly(Less, g, order, counts);
    if |order| != |w.plugins| {
      return Err(DependencyCycle(set p | p in counts && counts[p] > 0));
    }
    return Ok(Plan(order, bindings));
  }

  /** Where the ordering loop stops: short exactly of the plugins that depend on a cycle. */
  lemma {:induction false} LeftOverIsDoomed(lt: Order, g: Graph, order: seq<Id>, counts: map<Id, int>)
    requires Closed(g) && Greedy(lt, g, order) && Ready(g, ToSet(order)) == {} && Counts(g, ToSet(order), counts)
    ensures forall p :: p in g ==> (counts[p] > 0 <==> Doomed(g, p)) && (p in order <==> !Doomed(g, p))
  {
    GreedyIsSupported(lt, g, order);
    forall p | p in g ensures (counts[p] > 0 <==> Doomed(g, p)) && (p in order <==> !Doomed(g, p)) {
      StuckExactly(g, order, p);
      assert p in order <==> g[p] <= ToSet(order) by {
        if p !in order { assert p !in Ready(g, ToSet(order)); }
      }
      CountsTell(g, ToSet(order), counts[p], p);
    }
  }

  lemma {:induction false} CompleteExactly(lt: Order, g: Graph, order: seq<Id>)
    requires Greedy(lt, g, order) && forall p :: p in g ==> (p in order <==> !Doomed(g, p))
    ensures |order| == |g.Keys| <==> !HasCycle(g)
    ensures !HasCycle(g) ==> Topological(g, order)
  {
    GreedyIsSupported(lt, g, order);
    DoomedMeansCycle(g);
    DistinctSize(order);
    forall p | Doomed(g, p) ensures p in g {
      var w :| Loops(g, w) && w[0] == p;
    }
    if |order| == |g.Keys| { SubsetOfEqualSize(ToSet(order), g.Keys); }
    if !HasCycle(g) { assert ToSet(order) == g.Keys; }
  }

  lemma {:induction false} OrderedExactly(lt: Order, g: Graph, order: seq<Id>, counts: map<Id, int>)
    requires Closed(g) && Greedy(lt, g, order) && Ready(g, ToSet(order)) == {} && Counts(g, ToSet(order), counts)
    ensures forall p :: p in g ==> (counts[p] > 0 <==> Doomed(g, p))
    ensures |order| == |g.Keys| <==> !HasCycle(g)
    ensures !HasCycle(g) ==> Topological(g, order) && forall other :: Topological(g, other) ==> LexLeq(lt, order, other)
  {
    LeftOverIsDoomed(lt, g, order, counts);
    CompleteExactly(lt, g, order);
    if !HasCycle(g) {
      forall other | Topological(g, other) ensures LexLeq(lt, order, other) { GreedyIsLeast(lt, g, order, other); }
    }
  }

  lemma {:induction false} LeastOrderIsUnique(g: Graph, a: seq<Id>, b: seq<Id>)
    requires Topological(g, a) && Topological(g, b)
    requires forall other :: Topological(g, other) ==> LexLeq(Less, a, other) && LexLeq(Less, b, other)
    ensures a == b
  {
    LessIsStrictTotal();
    SameLength(a, b);
    LeastIsUnique(Less, a, b);
  }

  lemma {:induction false} FirstFailureIsUnique(w: World, f: Failure, f': Failure)
    requires FirstFailure(Less, w, f) && FirstFailure(Less, w, f')
    ensures f == f'
  {
    LessIsStrictTotal();
    var p, i :| p in w.plugins && 0 <= i < |w.plugins[p].required| && FirstUnmet(w, p, i, f)
                && forall q :: q in w.plugins && Less(q, p) ==> w.AllMet(q);
    var p', i' :| p' in w.plugins && 0 <= i' < |w.plugins[p'].required| && FirstUnmet(w, p', i', f')
                  && forall q :: q in w.plugins && Less(q, p') ==> w.AllMet(q);
    assert !w.Met(w.plugins[p].required[i]) && !w.Met(w.plugins[p'].required[i']);
    assert !w.AllMet(p) && !w.AllMet(p');
    assert p == p';
  }

  /** Planning has one outcome: the plan or the error depends on nothing but the plugins. */
  lemma {:induction false} PlanIsDetermined(w: World, r: Result<Plan, Failure>, r': Result<Plan, Failure>)
    requires PlanFor(w, r) && PlanFor(w, r')
    ensures r == r'
  {
    if r.Ok? {
      LeastOrderIsUnique(w.Edges(), r.value.order, r'.value.order);
      assert r.value.bindings == r'.value.bindings;
    } else if r.error.DependencyCycle? {
      assert r.error.members == r'.error.members;
    } else {
      FirstFailureIsUnique(w, r.error, r'.error);
    }
  }

  lemma {:induction false} CountsTell(g: Graph, done: set<Id>, count: int, p: Id)
    requires p in g && count == Left(g, done, p) && (p in done <==> g[p] <= done)
    ensures count > 0 <==> p !in done
  {
    LeftZero(g, done, p);
  }

  lemma {:induction false} SubsetOfEqualSize(a: set<Id>, b: set<Id>)
    requires a <= b && |a| == |b|
    ensures a == b
  {
    assert b == a + (b - a);
  }
}

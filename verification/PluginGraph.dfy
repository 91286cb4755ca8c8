/** Provider graphs: topological orders, cycles, and the lexicographically least order. */
module PluginGraph {
  import opened Base
  import opened Orders

  type Id = string

  // ----- Graphs -----

  /** Each plugin with the plugins that provide what it requires. */
  type Graph = map<Id, set<Id>>

  ghost predicate Closed(g: Graph) {
    forall p :: p in g ==> g[p] <= g.Keys
  }

  /** The plugins that can come next once `done` are placed. */
  ghost function Ready(g: Graph, done: set<Id>): set<Id> {
    set p | p in g && p !in done && g[p] <= done
  }

  /** A permutation of the plugins with every provider before its consumers. */
  ghost predicate Topological(g: Graph, order: seq<Id>) {
    && Distinct(order) && ToSet(order) == g.Keys
    && Supported(g, order)
  }

  ghost predicate Supported(g: Graph, order: seq<Id>) {
    forall i :: 0 <= i < |order| ==> order[i] in g && g[order[i]] <= ToSet(order[..i])
  }

  /** Each plugin is the least of those that were ready when it was placed. */
  ghost predicate Greedy(lt: Order, g: Graph, order: seq<Id>) {
    forall i :: 0 <= i < |order| ==> IsLeast(lt, order[i], Ready(g, ToSet(order[..i])))
  }

  ghost predicate LexLeq(lt: Order, a: seq<Id>, b: seq<Id>) {
    a == b || exists i :: 0 <= i < |a| && i < |b| && a[..i] == b[..i] && lt(a[i], b[i])
  }

  /** A walk from consumers to their providers. */
  ghost predicate Walk(g: Graph, w: seq<Id>) {
    && w != [] && (forall i :: 0 <= i < |w| ==> w[i] in g)
    && forall i :: 0 <= i < |w| - 1 ==> w[i + 1] in g[w[i]]
  }

  /** A walk whose last plugin occurred before: it has entered a cycle. */
  ghost predicate Loops(g: Graph, w: seq<Id>) {
    Walk(g, w) && exists i :: 0 <= i < |w| - 1 && w[i] == w[|w| - 1]
  }

  /** p depends, possibly through others, on a cycle. */
  ghost predicate Doomed(g: Graph, p: Id) {
    exists w :: Loops(g, w) && w[0] == p
  }

  ghost predicate HasCycle(g: Graph) {
    exists w :: Walk(g, w) && |w| >= 2 && w[0] == w[|w| - 1]
  }

  lemma {:induction false} DoomedMeansCycle(g: Graph)
    ensures HasCycle(g) <==> exists p :: Doomed(g, p)
  {
    if p :| Doomed(g, p) {
      var w :| Loops(g, w) && w[0] == p;
      var i :| 0 <= i < |w| - 1 && w[i] == w[|w| - 1];
      assert Walk(g, w[i..]);
    }
    if HasCycle(g) {
      var w :| Walk(g, w) && |w| >= 2 && w[0] == w[|w| - 1];
      assert Loops(g, w);
      assert Doomed(g, w[0]);
    }
  }

  // ----- Placed plugins never lead into a cycle -----

  lemma {:induction false} WalkDescends(g: Graph, order: seq<Id>, w: seq<Id>, i: nat, j: nat, pi: nat)
    returns (pj: nat)
    requires Distinct(order) && Supported(g, order) && Walk(g, w) && i <= j < |w|
    requires pi < |order| && order[pi] == w[i]
    ensures pj < |order| && order[pj] == w[j] && pj <= pi && (i < j ==> pj < pi)
    decreases j - i
  {
    if i == j {
      pj := pi;
    } else {
      assert w[i + 1] in order[..pi];
      var k :| 0 <= k < pi && order[..pi][k] == w[i + 1];
      pj := WalkDescends(g, order, w, i + 1, j, k);
    }
  }

  lemma {:induction false} PlacedIsNotDoomed(g: Graph, order: seq<Id>, p: Id)
    requires Distinct(order) && Supported(g, order) && p in order
    ensures !Doomed(g, p)
  {
    if Doomed(g, p) {
      var w :| Loops(g, w) && w[0] == p;
      var i :| 0 <= i < |w| - 1 && w[i] == w[|w| - 1];
      var k :| 0 <= k < |order| && order[k] == p;
      var a := WalkDescends(g, order, w, 0, i, k);
      var b := WalkDescends(g, order, w, i, |w| - 1, a);
      assert false;
    }
  }

  // ----- When nothing is ready, what is left leads into a cycle -----

  lemma {:induction false} DistinctBound(s: seq<Id>, bound: set<Id>)
    requires Distinct(s) && forall x :: x in s ==> x in bound
    ensures |s| <= |bound|
  {
    if s != [] {
      DistinctPop(s);
      DistinctBound(s[..|s| - 1], bound - {s[|s| - 1]});
    }
  }

  /** Following unplaced providers must repeat a plugin eventually. */
  lemma {:induction false} StuckIsDoomed(g: Graph, done: set<Id>, w: seq<Id>)
    requires Closed(g) && Ready(g, done) == {} && Walk(g, w) && Distinct(w)
    requires forall i :: 0 <= i < |w| ==> w[i] !in done
    ensures Doomed(g, w[0])
    decreases |g| - |w|
  {
    var last := w[|w| - 1];
    assert last !in Ready(g, done);
    var q :| q in g[last] && q !in done;
    var w' := w + [q];
    assert Walk(g, w') by {
      forall i | 0 <= i < |w'| - 1 ensures w'[i + 1] in g[w'[i]] {
        if i < |w| - 1 { assert w[i + 1] in g[w[i]]; }
      }
    }
    if q in w {
      var i :| 0 <= i < |w| && w[i] == q;
      assert w'[i] == w'[|w'| - 1];
      assert Loops(g, w');
    } else {
      DistinctBound(w', g.Keys);
      StuckIsDoomed(g, done, w');
    }
  }

  lemma {:induction false} StuckExactly(g: Graph, order: seq<Id>, p: Id)
    requires Closed(g) && Distinct(order) && Supported(g, order) && Ready(g, ToSet(order)) == {} && p in g
    ensures p in order <==> !Doomed(g, p)
  {
    if p in order {
      PlacedIsNotDoomed(g, order, p);
    } else {
      assert Walk(g, [p]);
      StuckIsDoomed(g, ToSet(order), [p]);
    }
  }

  // ----- The greedy order -----

  lemma {:induction false} GreedyIsSupported(lt: Order, g: Graph, order: seq<Id>)
    requires Greedy(lt, g, order)
    ensures Distinct(order) && Supported(g, order)
  {
    forall i | 0 <= i < |order| ensures order[i] in g && g[order[i]] <= ToSet(order[..i]) {
      assert IsLeast(lt, order[i], Ready(g, ToSet(order[..i])));
    }
    forall i, j | 0 <= i < j < |order| ensures order[i] != order[j] {
      assert IsLeast(lt, order[j], Ready(g, ToSet(order[..j])));
      assert order[i] in order[..j];
    }
  }

  /** A complete greedy order is at most every topological order. */
  lemma {:induction false} GreedyIsLeast(lt: Order, g: Graph, order: seq<Id>, other: seq<Id>)
    requires Greedy(lt, g, order) && Topological(g, order) && Topological(g, other)
    ensures LexLeq(lt, order, other)
  {
    SameLength(order, other);
    var i := 0;
    while i < |order| && order[i] == other[i]
      invariant 0 <= i <= |order| && order[..i] == other[..i]
    {
      i := i + 1;
    }
    if i < |order| {
      assert IsLeast(lt, order[i], Ready(g, ToSet(order[..i])));
      assert other[i] !in other[..i];
      assert other[i] in Ready(g, ToSet(order[..i]));
    } else {
      assert order == order[..i] && other == other[..i];
    }
  }

  lemma {:induction false} SameLength(a: seq<Id>, b: seq<Id>)
    requires Distinct(a) && Distinct(b) && ToSet(a) == ToSet(b)
    ensures |a| == |b|
  {
    DistinctSize(a);
    DistinctSize(b);
  }

  /** At most one order is least, so the plan is determined by the graph alone. */
  lemma {:induction false} LeastIsUnique(lt: Order, a: seq<Id>, b: seq<Id>)
    requires StrictTotal(lt) && |a| == |b| && LexLeq(lt, a, b) && LexLeq(lt, b, a)
    ensures a == b
  {
    if a != b {
      var i :| 0 <= i < |a| && a[..i] == b[..i] && lt(a[i], b[i]);
      var j :| 0 <= j < |b| && b[..j] == a[..j] && lt(b[j], a[j]);
      PrefixAgrees(a, b, i, j);
      PrefixAgrees(a, b, j, i);
    }
  }

  lemma {:induction false} PrefixAgrees(a: seq<Id>, b: seq<Id>, i: nat, j: nat)
    requires j <= |a| && j <= |b| && a[..j] == b[..j]
    ensures i < j ==> a[i] == b[i]
  {
    if i < j { assert a[..j][i] == b[..j][i]; }
  }
}

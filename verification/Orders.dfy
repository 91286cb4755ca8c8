/** The code-point order of strings, and sorting by it. */
module Orders {
  import opened Base

  /** Code-point order of strings. */
  predicate Less(a: string, b: string) {
    b != [] && (a == [] || a[0] < b[0] || (a[0] == b[0] && Less(a[1..], b[1..])))
  }

  lemma {:induction false} LessTotal(a: string, b: string)
    ensures a == b || Less(a, b) || Less(b, a)
    ensures Less(a, b) ==> !Less(b, a)
    decreases |a| + |b|
  {
    if a != [] && b != [] {
      LessTotal(a[1..], b[1..]);
      if a[0] == b[0] && a[1..] == b[1..] {
        assert a == [a[0]] + a[1..] && b == [b[0]] + b[1..];
      }
    }
  }

  lemma {:induction false} LessTransitive(a: string, b: string, c: string)
    requires Less(a, b) && Less(b, c)
    ensures Less(a, c)
  {
    if a != [] && a[0] == b[0] && b[0] == c[0] { LessTransitive(a[1..], b[1..], c[1..]); }
  }

  type Order = (string, string) -> bool

  ghost predicate StrictTotal(lt: Order) {
    && (forall a, b :: a == b || lt(a, b) || lt(b, a))
    && (forall a, b :: lt(a, b) ==> !lt(b, a))
    && (forall a, b, c :: lt(a, b) && lt(b, c) ==> lt(a, c))
  }

  lemma {:induction false} LessIsStrictTotal()
    ensures StrictTotal(Less)
  {
    forall a, b ensures (a == b || Less(a, b) || Less(b, a)) && (Less(a, b) ==> !Less(b, a)) { LessTotal(a, b); }
    forall a, b, c | Less(a, b) && Less(b, c) ensures Less(a, c) { LessTransitive(a, b, c); }
  }

  ghost predicate IsLeast(lt: Order, x: string, s: set<string>) {
    x in s && forall y :: y in s && y != x ==> lt(x, y)
  }

  /** The least element, removed: what a heap and a sort both rely on. */
  method PopLeast(lt: Order, heap: set<string>) returns (x: string, rest: set<string>)
    requires StrictTotal(lt) && heap != {}
    ensures IsLeast(lt, x, heap) && rest == heap - {x}
  {
    x :| x in heap;
    var unseen := heap - {x};
    while unseen != {}
      invariant x in heap && unseen <= heap
      invariant forall y :: y in heap - unseen && y != x ==> lt(x, y)
      decreases |unseen|
    {
      var y :| y in unseen;
      if lt(y, x) {
        x := y;
      }
      unseen := unseen - {y};
    }
    rest := heap - {x};
  }

  predicate Ascending(s: seq<string>) {
    forall i, j :: 0 <= i < j < |s| ==> Less(s[i], s[j])
  }

  lemma {:induction false} AscendingIsDistinct(s: seq<string>)
    requires Ascending(s)
    ensures Distinct(s)
  {
    forall i, j | 0 <= i < j < |s| ensures s[i] != s[j] {
      LessTotal(s[i], s[j]);
    }
  }

  /** A set has only one ascending listing. */
  lemma {:induction false} AscendingIsUnique(a: seq<string>, b: seq<string>)
    requires Ascending(a) && Ascending(b) && ToSet(a) == ToSet(b)
    ensures a == b
    decreases |a|
  {
    if a == [] {
      AscendingIsDistinct(b);
      DistinctSize(b);
    } else {
      assert a[|a| - 1] in ToSet(a) && Last(a) in b;
      assert b != [] && Last(b) in ToSet(b) && Last(b) in a;
      LastIsGreatest(a, Last(b));
      LastIsGreatest(b, Last(a));
      LessTotal(Last(a), Last(b));
      FrontOfAscending(a);
      FrontOfAscending(b);
      AscendingIsUnique(Front(a), Front(b));
      assert a == Front(a) + [Last(a)] && b == Front(b) + [Last(b)];
    }
  }

  lemma {:induction false} LastIsGreatest(s: seq<string>, x: string)
    requires Ascending(s) && x in s
    ensures x == Last(s) || Less(x, Last(s))
  {
  }

  lemma {:induction false} FrontOfAscending(s: seq<string>)
    requires Ascending(s) && s != []
    ensures Ascending(Front(s)) && ToSet(Front(s)) == ToSet(s) - {Last(s)}
  {
    forall i | 0 <= i < |s| - 1 ensures s[i] != Last(s) {
      LessTotal(s[i], Last(s));
    }
    assert s == Front(s) + [Last(s)];
  }

  /** A set's elements in ascending order. */
  method Sorted(elements: set<string>) returns (s: seq<string>)
    ensures Ascending(s) && ToSet(s) == elements
  {
    LessIsStrictTotal();
    s := [];
    var rest := elements;
    while rest != {}
      invariant rest <= elements && Ascending(s) && ToSet(s) == elements - rest
      invariant forall i, y :: 0 <= i < |s| && y in rest ==> Less(s[i], y)
      decreases rest
    {
      var x, others := PopLeast(Less, rest);
      ToSetSnoc(s, x);
      s := s + [x];
      rest := others;
    }
  }
}

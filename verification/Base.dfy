/** Small shared vocabulary: optional values, results and map lookup. */
module Base {

  datatype Option<+T> = None | Some(value: T)

  datatype Result<+T, +E> = Ok(value: T) | Err(error: E)

  /** Python's `dict.get`. */
  function Lookup<K, V>(m: map<K, V>, k: K): Option<V> {
    if k in m then Some(m[k]) else None
  }

  function Last<T>(s: seq<T>): T
    requires s != []
  {
    s[|s| - 1]
  }

  function Front<T>(s: seq<T>): seq<T>
    requires s != []
  {
    s[..|s| - 1]
  }

  lemma {:induction false} FrontSnoc<T>(s: seq<T>, i: nat)
    requires i < |s|
    ensures Front(s[..i + 1]) == s[..i] && Last(s[..i + 1]) == s[i]
  {
  }

  lemma {:induction false} TakeSnoc<T>(s: seq<T>, k: nat)
    requires k < |s|
    ensures s[..k + 1] == s[..k] + [s[k]]
  {
  }

  /** No element occurs twice. */
  predicate Distinct<T(==)>(s: seq<T>) {
    forall i, j :: 0 <= i < j < |s| ==> s[i] != s[j]
  }

  predicate IsSuffix<T(==)>(a: seq<T>, b: seq<T>) {
    |a| <= |b| && b[|b| - |a|..] == a
  }

  function ToSet<T>(s: seq<T>): set<T> { set x | x in s }

  lemma {:induction false} ToSetSnoc<T>(s: seq<T>, x: T)
    ensures ToSet(s + [x]) == ToSet(s) + {x}
  {
  }

  lemma {:induction false} DistinctSize<T>(s: seq<T>)
    requires Distinct(s)
    ensures |ToSet(s)| == |s|
    decreases |s|
  {
    if s != [] {
      var front, last := Front(s), Last(s);
      assert s == front + [last];
      DistinctSize(front);
      ToSetSnoc(front, last);
      assert last !in ToSet(front);
    }
  }

  lemma {:induction false} SizeAtMost<T>(s: seq<T>)
    ensures |ToSet(s)| <= |s|
    decreases |s|
  {
    if s != [] {
      assert s == Front(s) + [Last(s)];
      ToSetSnoc(Front(s), Last(s));
      SizeAtMost(Front(s));
    }
  }

  lemma {:induction false} SizeDistinct<T>(s: seq<T>)
    requires |ToSet(s)| == |s|
    ensures Distinct(s)
    decreases |s|
  {
    if s != [] {
      var front, last := Front(s), Last(s);
      assert s == front + [last];
      ToSetSnoc(front, last);
      SizeAtMost(front);
      SizeDistinct(front);
    }
  }

  function Min(a: int, b: int): int { if a < b then a else b }

  function Max(a: int, b: int): int { if a < b then b else a }

  lemma {:induction false} ConcatAssoc<T>(a: seq<T>, b: seq<T>, c: seq<T>)
    ensures a + (b + c) == a + b + c
  {
  }

  lemma {:induction false} MinusNothing<T>(a: set<T>)
    ensures a - {} == a
  {
  }

  lemma {:induction false} MinusMinus<T>(a: set<T>, b: set<T>)
    requires b <= a
    ensures a - (a - b) == b
  {
  }

  lemma {:induction false} DistinctPop<T>(q: seq<T>)
    requires q != [] && Distinct(q)
    ensures var (rest, last) := (q[..|q| - 1], q[|q| - 1]);
            Distinct(rest) && last !in rest && forall x :: x in q <==> x == last || x in rest
  {
    var rest, last := q[..|q| - 1], q[|q| - 1];
    assert q == rest + [last];
  }

  lemma {:induction false} DistinctAppend<T>(p: seq<T>, q: seq<T>)
    requires Distinct(p) && Distinct(q) && forall x :: x in p ==> x !in q
    ensures Distinct(p + q)
  {
    forall i, j | 0 <= i < j < |p + q| ensures (p + q)[i] != (p + q)[j] {
      if i < |p| <= j {
        assert p[i] in p && q[j - |p|] in q;
      }
    }
  }

  /** Enumerates a set in some order: iteration over a Python set. */
  method Elements<T(==)>(s: set<T>) returns (q: seq<T>)
    ensures Distinct(q)
    ensures forall x :: x in q <==> x in s
    ensures |q| == |s|
  {
    q := [];
    var rest := s;
    while rest != {}
      invariant rest <= s
      invariant Distinct(q)
      invariant forall x :: x in q <==> x in s - rest
      invariant |q| + |rest| == |s|
      decreases |rest|
    {
      var x :| x in rest;
      assert x !in q;
      q := q + [x];
      rest := rest - {x};
    }
  }
}

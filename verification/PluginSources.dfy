/** From the listed plugin sources to the plan: the order of the listing does not matter. */
module PluginSources {
  import opened Base
  import opened PluginGraph
  import opened PluginPlanner

  datatype Offer = Offer(service: string, version: string)

  datatype Source = Source(id: Id, manifest: Manifest, offers: seq<Offer>)

  /** One service offered by one plugin. */
  datatype Entry = Entry(plugin: Id, service: string, version: string)

  function EntriesOf(a: Source): (es: seq<Entry>)
    ensures |es| == |a.offers|
  {
    seq(|a.offers|, x requires 0 <= x < |a.offers| => Entry(a.id, a.offers[x].service, a.offers[x].version))
  }

  function Entries(sources: seq<Source>): seq<Entry> {
    if sources == [] then [] else Entries(Front(sources)) + EntriesOf(Last(sources))
  }

  predicate OneEach(entries: seq<Entry>) {
    forall i, j :: 0 <= i < j < |entries| ==> entries[i].service != entries[j].service
  }

  predicate OneSourceEach(sources: seq<Source>) {
    forall i, j :: 0 <= i < j < |sources| ==> sources[i].id != sources[j].id
  }

  /** The checks before the graph is built: one source per plugin, one provider per service. */
  predicate Admissible(sources: seq<Source>) {
    OneSourceEach(sources) && OneEach(Entries(sources))
  }

  // ----- The two dictionaries -----

  ghost predicate PluginIndex(plugins: map<Id, Manifest>, sources: seq<Source>) {
    && (forall p :: p in plugins ==> exists a :: a in sources && a.id == p)
    && (forall a :: a in sources ==> a.id in plugins && plugins[a.id] == a.manifest)
  }

  ghost predicate ProviderIndex(providers: map<string, Provider>, entries: seq<Entry>) {
    && (forall s :: s in providers ==> exists e :: e in entries && e.service == s)
    && (forall e :: e in entries ==> e.service in providers && providers[e.service] == Provider(e.plugin, e.version))
  }

  ghost predicate Indexes(w: World, sources: seq<Source>) {
    PluginIndex(w.plugins, sources) && ProviderIndex(w.providers, Entries(sources))
  }

  lemma {:induction false} AddPlugin(plugins: map<Id, Manifest>, sources: seq<Source>, a: Source)
    requires PluginIndex(plugins, sources) && a.id !in plugins
    ensures PluginIndex(plugins[a.id := a.manifest], sources + [a])
  {
    var plugins' := plugins[a.id := a.manifest];
    forall p | p in plugins' ensures exists b :: b in sources + [a] && b.id == p {
      if p == a.id {
        assert a in sources + [a];
      } else {
        var b :| b in sources && b.id == p;
        assert b in sources + [a];
      }
    }
  }

  lemma {:induction false} AddEntry(providers: map<string, Provider>, entries: seq<Entry>, e: Entry)
    requires ProviderIndex(providers, entries) && e.service !in providers
    ensures ProviderIndex(providers[e.service := Provider(e.plugin, e.version)], entries + [e])
  {
    var providers' := providers[e.service := Provider(e.plugin, e.version)];
    forall s | s in providers' ensures exists d :: d in entries + [e] && d.service == s {
      if s == e.service {
        assert e in entries + [e];
      } else {
        var d :| d in entries && d.service == s;
        assert d in entries + [e];
      }
    }
  }

  method IndexPlugins(sources: seq<Source>) returns (plugins: Option<map<Id, Manifest>>)
    ensures plugins.Some? <==> OneSourceEach(sources)
    ensures plugins.Some? ==> PluginIndex(plugins.value, sources)
  {
    var found: map<Id, Manifest> := map[];
    for k := 0 to |sources|
      invariant PluginIndex(found, sources[..k]) && OneSourceEach(sources[..k])
    {
      var a := sources[k];
      TakeSnoc(sources, k);
      if a.id in found {
        RepeatedSource(sources, k, found);
        return None;
      }
      AddPlugin(found, sources[..k], a);
      assert forall b :: b in sources[..k] ==> b.id != a.id;
      found := found[a.id := a.manifest];
    }
    assert sources[..|sources|] == sources;
    return Some(found);
  }

  lemma {:induction false} RepeatedSource(sources: seq<Source>, k: nat, found: map<Id, Manifest>)
    requires k < |sources| && PluginIndex(found, sources[..k]) && sources[k].id in found
    ensures !OneSourceEach(sources)
  {
    var a :| a in sources[..k] && a.id == sources[k].id;
    var i :| 0 <= i < k && sources[i] == a;
  }

  method IndexProviders(sources: seq<Source>) returns (providers: Option<map<string, Provider>>)
    ensures providers.Some? <==> OneEach(Entries(sources))
    ensures providers.Some? ==> ProviderIndex(providers.value, Entries(sources))
  {
    var found: map<string, Provider> := map[];
    for k := 0 to |sources|
      invariant ProviderIndex(found, Entries(sources[..k])) && OneEach(Entries(sources[..k]))
    {
      FrontSnoc(sources, k);
      EntriesOfPrefix(sources, k + 1);
      var added := AddOffers(sources[k], Entries(sources[..k]), found);
      if added.None? {
        if OneEach(Entries(sources)) { PrefixOneEach(Entries(sources[..k + 1]), Entries(sources)); }
        return None;
      }
      found := added.value;
    }
    assert sources[..|sources|] == sources;
    return Some(found);
  }

  /** The offers of one source, unless one of them repeats a service. */
  method AddOffers(a: Source, ghost before: seq<Entry>, found: map<string, Provider>)
    returns (added: Option<map<string, Provider>>)
    requires ProviderIndex(found, before) && OneEach(before)
    ensures added.Some? <==> OneEach(before + EntriesOf(a))
    ensures added.Some? ==> ProviderIndex(added.value, before + EntriesOf(a))
  {
    var offered, providers := EntriesOf(a), found;
    ghost var seen := before;
    assert offered[..0] == [] && before + [] == before;
    for x := 0 to |offered|
      invariant seen == before + offered[..x] && ProviderIndex(providers, seen) && OneEach(seen)
    {
      var e := offered[x];
      NextEntry(before, offered, x);
      if e.service in providers {
        RepeatedService(before + offered, seen, e);
        return None;
      }
      AddEntry(providers, seen, e);
      OneMoreEach(seen, e, providers);
      providers := providers[e.service := Provider(e.plugin, e.version)];
      seen := seen + [e];
    }
    assert offered[..|offered|] == offered;
    return Some(providers);
  }

  lemma {:induction false} NextEntry(before: seq<Entry>, offered: seq<Entry>, x: nat)
    requires x < |offered|
    ensures before + offered[..x] + [offered[x]] == before + offered[..x + 1]
    ensures before + offered[..x + 1] <= before + offered
  {
  }

  lemma {:induction false} OneMoreEach(entries: seq<Entry>, e: Entry, providers: map<string, Provider>)
    requires OneEach(entries) && ProviderIndex(providers, entries) && e.service !in providers
    ensures OneEach(entries + [e])
  {
    forall i | 0 <= i < |entries| ensures entries[i].service != e.service {
      assert entries[i] in entries;
    }
  }

  lemma {:induction false} PrefixOneEach(p: seq<Entry>, all: seq<Entry>)
    requires p <= all && OneEach(all)
    ensures OneEach(p)
  {
  }

  lemma {:induction false} EntriesOfPrefix(sources: seq<Source>, n: nat)
    requires n <= |sources|
    ensures Entries(sources[..n]) <= Entries(sources)
  {
    if n == |sources| {
      assert sources[..n] == sources;
    } else {
      assert Front(sources)[..n] == sources[..n];
      EntriesOfPrefix(Front(sources), n);
    }
  }

  lemma {:induction false} RepeatedService(all: seq<Entry>, entries: seq<Entry>, e: Entry)
    requires entries + [e] <= all && exists d :: d in entries && d.service == e.service
    ensures !OneEach(all)
  {
    var d :| d in entries && d.service == e.service;
    var i :| 0 <= i < |entries| && entries[i] == d;
    assert all[i] == (entries + [e])[i] && all[|entries|] == (entries + [e])[|entries|];
  }

  /** Plans a listing, unless two sources claim one plugin or one service. */
  method PlanSources(sources: seq<Source>, accepts: (string, string) -> bool)
    returns (r: Option<Result<Plan, Failure>>)
    ensures OutcomeFor(sources, accepts, r)
  {
    var plugins := IndexPlugins(sources);
    if plugins.None? { return None; }
    var providers := IndexProviders(sources);
    if providers.None? { return None; }
    var w := World(plugins.value, providers.value, accepts);
    ProvidersAreListed(w, sources);
    var plan := MakePlan(w);
    return Some(plan);
  }

  lemma {:induction false} EntryHasSource(sources: seq<Source>, e: Entry)
    ensures e in Entries(sources) <==> exists a :: a in sources && e in EntriesOf(a)
  {
    if sources != [] {
      var f, l := Front(sources), Last(sources);
      EntryHasSource(f, e);
      assert sources == f + [l];
      if e in EntriesOf(l) {
        assert l in sources;
      } else if e in Entries(f) {
        var a :| a in f && e in EntriesOf(a);
        assert a in sources;
      }
    }
  }

  lemma {:induction false} ProvidersAreListed(w: World, sources: seq<Source>)
    requires Indexes(w, sources)
    ensures w.Valid()
  {
    forall s | s in w.providers ensures w.providers[s].plugin in w.plugins {
      var e :| e in Entries(sources) && e.service == s;
      EntryHasSource(sources, e);
      var a :| a in sources && e in EntriesOf(a);
    }
  }

  // ----- The listing's order is irrelevant -----

  lemma {:induction false} SameEntries(a: seq<Source>, b: seq<Source>, e: Entry)
    requires multiset(a) == multiset(b)
    ensures e in Entries(a) <==> e in Entries(b)
  {
    EntryHasSource(a, e);
    EntryHasSource(b, e);
    assert forall x :: x in a <==> x in multiset(a);
    assert forall x :: x in b <==> x in multiset(b);
  }

  lemma {:induction false} SameWorld(a: seq<Source>, b: seq<Source>, w: World, w': World)
    requires multiset(a) == multiset(b) && Indexes(w, a) && Indexes(w', b) && w.accepts == w'.accepts
    ensures w == w'
  {
    assert forall x :: x in a <==> x in multiset(a);
    assert forall x :: x in b <==> x in multiset(b);
    assert w.plugins == w'.plugins by {
      forall p | p in w.plugins ensures p in w'.plugins && w'.plugins[p] == w.plugins[p] {
        var x :| x in a && x.id == p;
        assert x in b;
      }
      forall p | p in w'.plugins ensures p in w.plugins {
        var x :| x in b && x.id == p;
        assert x in a;
      }
    }
    assert w.providers == w'.providers by {
      forall s | s in w.providers ensures s in w'.providers && w'.providers[s] == w.providers[s] {
        var e :| e in Entries(a) && e.service == s;
        SameEntries(a, b, e);
      }
      forall s | s in w'.providers ensures s in w.providers {
        var e :| e in Entries(b) && e.service == s;
        SameEntries(a, b, e);
      }
    }
  }

  /** Repetitions are a matter of how many names there are, so the order of the names is irrelevant. */
  lemma {:induction false} DistinctAlike(a: seq<string>, b: seq<string>)
    requires |a| == |b| && ToSet(a) == ToSet(b)
    ensures Distinct(a) <==> Distinct(b)
  {
    if Distinct(a) {
      DistinctSize(a);
      SizeDistinct(b);
    }
    if Distinct(b) {
      DistinctSize(b);
      SizeDistinct(a);
    }
  }

  function SourceIds(sources: seq<Source>): (ids: seq<Id>)
    ensures |ids| == |sources| && forall k :: 0 <= k < |ids| ==> ids[k] == sources[k].id
  {
    seq(|sources|, k requires 0 <= k < |sources| => sources[k].id)
  }

  function Services(entries: seq<Entry>): (names: seq<string>)
    ensures |names| == |entries| && forall k :: 0 <= k < |names| ==> names[k] == entries[k].service
  {
    seq(|entries|, k requires 0 <= k < |entries| => entries[k].service)
  }

  lemma {:induction false} SourceIdsWithin(a: seq<Source>, b: seq<Source>)
    requires multiset(a) == multiset(b)
    ensures ToSet(SourceIds(a)) <= ToSet(SourceIds(b))
  {
    forall x | x in ToSet(SourceIds(a)) ensures x in ToSet(SourceIds(b)) {
      var i :| 0 <= i < |a| && a[i].id == x;
      assert a[i] in multiset(b);
      var j :| 0 <= j < |b| && b[j] == a[i];
      assert SourceIds(b)[j] == x;
    }
  }

  lemma {:induction false} ServicesWithin(a: seq<Source>, b: seq<Source>)
    requires multiset(a) == multiset(b)
    ensures ToSet(Services(Entries(a))) <= ToSet(Services(Entries(b)))
  {
    forall x | x in ToSet(Services(Entries(a))) ensures x in ToSet(Services(Entries(b))) {
      var i :| 0 <= i < |Entries(a)| && Entries(a)[i].service == x;
      SameEntries(a, b, Entries(a)[i]);
      var j :| 0 <= j < |Entries(b)| && Entries(b)[j] == Entries(a)[i];
      assert Services(Entries(b))[j] == x;
    }
  }

  lemma {:induction false} OfferCountWithout(sources: seq<Source>, i: nat)
    requires i < |sources|
    ensures |Entries(sources)| == |Entries(sources[..i] + sources[i + 1..])| + |sources[i].offers|
    decreases |sources|
  {
    var rest := sources[..i] + sources[i + 1..];
    if i == |sources| - 1 {
      assert rest == Front(sources);
    } else {
      var f := Front(sources);
      OfferCountWithout(f, i);
      assert Front(rest) == f[..i] + f[i + 1..] && Last(rest) == Last(sources);
    }
  }

  lemma {:induction false} SameOfferCount(a: seq<Source>, b: seq<Source>)
    requires multiset(a) == multiset(b)
    ensures |a| == |b| && |Entries(a)| == |Entries(b)|
    decreases |a|
  {
    assert |a| == |multiset(a)| == |b|;
    if a != [] {
      assert Last(a) in multiset(a);
      var i :| 0 <= i < |b| && b[i] == Last(a);
      MultisetWithout(a, |a| - 1);
      MultisetWithout(b, i);
      assert a[..|a| - 1] + a[|a|..] == Front(a);
      SameOfferCount(Front(a), b[..i] + b[i + 1..]);
      OfferCountWithout(b, i);
    }
  }

  lemma {:induction false} MultisetWithout<T>(s: seq<T>, i: nat)
    requires i < |s|
    ensures multiset(s[..i] + s[i + 1..]) == multiset(s) - multiset{s[i]}
  {
    assert s == s[..i] + ([s[i]] + s[i + 1..]);
  }

  /** A listing passes the checks exactly when any other listing of the same sources does. */
  lemma {:induction false} AdmissibleInAnyOrder(a: seq<Source>, b: seq<Source>)
    requires multiset(a) == multiset(b)
    ensures Admissible(a) <==> Admissible(b)
  {
    SameOfferCount(a, b);
    SourceIdsWithin(a, b);
    SourceIdsWithin(b, a);
    DistinctAlike(SourceIds(a), SourceIds(b));
    ServicesWithin(a, b);
    ServicesWithin(b, a);
    DistinctAlike(Services(Entries(a)), Services(Entries(b)));
    AdmissibleIsDistinct(a);
    AdmissibleIsDistinct(b);
  }

  lemma {:induction false} AdmissibleIsDistinct(sources: seq<Source>)
    ensures Admissible(sources) <==> Distinct(SourceIds(sources)) && Distinct(Services(Entries(sources)))
  {
    var entries := Entries(sources);
    assert OneSourceEach(sources) <==> Distinct(SourceIds(sources));
    assert OneEach(entries) <==> Distinct(Services(entries));
  }

  /** The outcome of planning a listing: refused, or the outcome for its plugins. */
  ghost predicate OutcomeFor(sources: seq<Source>, accepts: (string, string) -> bool, r: Option<Result<Plan,
                             Failure>>) {
    && (r.Some? <==> Admissible(sources))
    && (r.Some? ==> exists w: World :: w.accepts == accepts && Indexes(w, sources) && PlanFor(w, r.value))
  }

  /** Two listings of the same sources have the same outcome: both are refused, or both have the same
      plan, the same unmet requirement or the same cycle. */
  lemma {:induction false} ListingOrderIsIrrelevant(a: seq<Source>, b: seq<Source>, accepts: (string, string) -> bool,
                                                    r: Option<Result<Plan, Failure>>, r': Option<Result<Plan, Failure>>)
    requires multiset(a) == multiset(b) && OutcomeFor(a, accepts, r) && OutcomeFor(b, accepts, r')
    ensures r == r'
  {
    AdmissibleInAnyOrder(a, b);
    if r.Some? {
      var w: World :| w.accepts == accepts && Indexes(w, a) && PlanFor(w, r.value);
      var w': World :| w'.accepts == accepts && Indexes(w', b) && PlanFor(w', r'.value);
      SameWorld(a, b, w, w');
      PlanIsDetermined(w, r.value, r'.value);
    }
  }
}

/** Bounded model failover: nested profile and retry loops that never splice two answers. */
module Gateway {
  import opened Base

  /** A provider event: gateway-owned context state, or content that may name a tool call. */
  datatype Event = Event(owned: bool, callId: Option<string>, payload: string)

  datatype End = Normal | Fails(retryable: bool)

  /** What one streaming attempt would yield, and how it ends. */
  datatype Attempt = Attempt(events: seq<Event>, end: End)

  datatype Context = TooLarge | Rejected | Ready(compacted: bool)

  /** A profile of the route, as this request meets it. */
  datatype Profile = Profile(accepts: bool, context: Context, parallel: bool, maxRetries: nat, attempts: nat -> Attempt)

  /** What the caller receives: the compaction notice of a profile, or an event of an attempt. */
  datatype Output = Compacted(profile: nat) | Delivered(profile: nat, attempt: nat, event: Event)

  datatype Error = Unsupported | ContextRejected | NoCapacity | ProviderError(retryable: bool) | NoProfile

  datatype Ending = Finished | Raised(error: Error)

  // ----- One attempt -----

  function CallIds(events: seq<Event>): set<string> {
    set i | 0 <= i < |events| && events[i].callId.Some? :: events[i].callId.value
  }

  /** The event may be passed on after those before it. */
  predicate Passes(p: Profile, events: seq<Event>, i: nat)
    requires i < |events|
  {
    !events[i].owned && (events[i].callId.Some? ==> p.parallel || |CallIds(events[..i + 1])| <= 1)
  }

  /** How many events of the attempt reach the caller. */
  function PassedFrom(p: Profile, events: seq<Event>, i: nat): (n: nat)
    requires i <= |events|
    ensures i <= n <= |events|
    ensures forall k :: i <= k < n ==> Passes(p, events, k)
    ensures n < |events| ==> !Passes(p, events, n)
    decreases |events| - i
  {
    if i < |events| && Passes(p, events, i) then PassedFrom(p, events, i + 1) else i
  }

  function Passed(p: Profile, a: Attempt): (n: nat)
    ensures n <= |a.events|
  {
    PassedFrom(p, a.events, 0)
  }

  /** The attempt's own end, unless an event it may not send cut it short. */
  function EndOf(p: Profile, a: Attempt): End {
    if Passed(p, a) < |a.events| then Fails(false) else a.end
  }

  function Deliveries(i: nat, j: nat, events: seq<Event>, n: nat): seq<Output>
    requires n <= |events|
  {
    seq(n, k requires 0 <= k < n => Delivered(i, j, events[k]))
  }

  /** The caller's view of the first n events of an attempt. */
  function View(profiles: seq<Profile>, i: nat, j: nat, n: nat): seq<Output>
    requires i < |profiles| && n <= |profiles[i].attempts(j).events|
  {
    (if n > 0 && profiles[i].context == Ready(true) then [Compacted(i)] else [])
    + Deliveries(i, j, profiles[i].attempts(j).events, n)
  }

  /** Nothing reached the caller and another try may be made. */
  predicate Silent(p: Profile, a: Attempt) {
    Passed(p, a) == 0 && EndOf(p, a) == Fails(true)
  }

  datatype AttemptResult = AttemptResult(out: seq<Output>, emitted: bool, end: End)

  /** The inner loop over one provider stream. */
  method Forward(profiles: seq<Profile>, i: nat, j: nat) returns (r: AttemptResult)
    requires i < |profiles|
    ensures var (p, a) := (profiles[i], profiles[i].attempts(j));
            r == AttemptResult(View(profiles, i, j, Passed(p, a)), Passed(p, a) > 0, EndOf(p, a))
  {
    var p := profiles[i];
    var events := p.attempts(j).events;
    var out: seq<Output>, emitted, callIds: set<string> := [], false, {};
    for k := 0 to |events|
      invariant Passed(p, p.attempts(j)) == PassedFrom(p, events, k)
      invariant out == View(profiles, i, j, k) && emitted == (k > 0)
      invariant callIds == CallIds(events[..k])
    {
      var e := events[k];
      NextCallIds(events, k);
      if e.owned { return AttemptResult(out, emitted, Fails(false)); }
      if e.callId.Some? {
        callIds := callIds + {e.callId.value};
        if |callIds| > 1 && !p.parallel { return AttemptResult(out, emitted, Fails(false)); }
      }
      NextView(profiles, i, j, k);
      if !emitted && p.context == Ready(true) {
        out := out + [Compacted(i)];
      }
      emitted := true;
      out := out + [Delivered(i, j, e)];
    }
    return AttemptResult(out, emitted, p.attempts(j).end);
  }

  lemma {:induction false} NextCallIds(events: seq<Event>, k: nat)
    requires k < |events|
    ensures CallIds(events[..k + 1]) == CallIds(events[..k]) + if events[k].callId.Some? then
        {events[k].callId.value} else {}
  {
    var a, b := events[..k], events[..k + 1];
    forall i | 0 <= i < k ensures a[i] == b[i] {}
    assert b[k] == events[k];
  }

  lemma {:induction false} NextView(profiles: seq<Profile>, i: nat, j: nat, k: nat)
    requires i < |profiles| && k < |profiles[i].attempts(j).events|
    ensures View(profiles, i, j, k + 1) ==
            View(profiles, i, j, k) + (if k == 0 && profiles[i].context == Ready(true) then [Compacted(i)] else [])
            + [Delivered(i, j, profiles[i].attempts(j).events[k])]
  {
    var events := profiles[i].attempts(j).events;
    assert Deliveries(i, j, events, k + 1) == Deliveries(i, j, events, k) + [Delivered(i, j, events[k])];
  }

  // ----- The route -----

  datatype Place = Place(profile: nat, attempt: nat)

  /** Attempts allowed by the first n profiles: each may be tried once more than its retries. */
  function Allowance(profiles: seq<Profile>, n: nat): nat
    requires n <= |profiles|
  {
    if n == 0 then 0 else Allowance(profiles, n - 1) + profiles[n - 1].maxRetries + 1
  }

  /** The first n attempts on profile i, and all attempts the first n profiles allow, in order. */
  function Tries(i: nat, n: nat): seq<Place> { seq(n, j requires 0 <= j < n => Place(i, j)) }

  function Places(profiles: seq<Profile>, n: nat): (r: seq<Place>)
    requires n <= |profiles|
    ensures |r| <= Allowance(profiles, n)
  {
    if n == 0 then []
    else Places(profiles, n - 1) + if profiles[n - 1].context.Ready? then
        Tries(n - 1, profiles[n - 1].maxRetries + 1) else []
  }

  lemma {:induction false} PlacesGrow(profiles: seq<Profile>, i: nat, n: nat)
    requires i <= n <= |profiles|
    ensures Places(profiles, i) <= Places(profiles, n)
  {
    if i < n { PlacesGrow(profiles, i, n - 1); }
  }

  /** The first j attempts on profile i are tried in plan order. */
  lemma {:induction false} TriesInPlan(profiles: seq<Profile>, i: nat, j: nat)
    requires i < |profiles| && profiles[i].context.Ready? && j <= profiles[i].maxRetries + 1
    ensures Places(profiles, i) + Tries(i, j) <= Places(profiles, |profiles|)
  {
    PlacesGrow(profiles, i + 1, |profiles|);
    var all := Tries(i, profiles[i].maxRetries + 1);
    assert all[..j] == Tries(i, j);
    assert Places(profiles, i + 1) == Places(profiles, i) + all;
  }

  ghost predicate AllSilent(profiles: seq<Profile>, tried: seq<Place>) {
    forall k :: 0 <= k < |tried| ==>
      && tried[k].profile < |profiles| && profiles[tried[k].profile].context.Ready?
      && tried[k].attempt <= profiles[tried[k].profile].maxRetries
      && Silent(profiles[tried[k].profile], profiles[tried[k].profile].attempts(tried[k].attempt))
  }

  /** What the caller got is the view of the last attempt, the first that was not silent: whole if the
      stream finished, and otherwise ended by that attempt's own error. */
  ghost predicate FromOneAttempt(profiles: seq<Profile>, out: seq<Output>, tried: seq<Place>, ending: Ending) {
    && tried != []
    && var at := tried[|tried| - 1];
       && at.profile < |profiles|
       && var (p, a) := (profiles[at.profile], profiles[at.profile].attempts(at.attempt));
          && !Silent(p, a)
          && out == View(profiles, at.profile, at.attempt, Passed(p, a))
          && (ending == Finished <==> EndOf(p, a) == Normal)
          && (ending == Finished ==> Passed(p, a) == |a.events|)
          && (ending != Finished ==> ending == Raised(ProviderError(EndOf(p, a).retryable)))
  }

  lemma {:induction false} SilentSnoc(profiles: seq<Profile>, tried: seq<Place>, i: nat, j: nat)
    requires AllSilent(profiles, tried) && i < |profiles| && profiles[i].context.Ready? && j <= profiles[i].maxRetries
    requires Silent(profiles[i], profiles[i].attempts(j))
    ensures AllSilent(profiles, tried + [Place(i, j)])
  {
  }

  lemma {:induction false} TriesSnoc(i: nat, j: nat)
    ensures Tries(i, j + 1) == Tries(i, j) + [Place(i, j)]
  {
  }

  /** The retry loop of one profile: it settles the stream, or all its attempts were silent. */
  method TryProfile(profiles: seq<Profile>, i: nat) returns (out: seq<Output>, ending: Option<Ending>, tries: nat)
    requires i < |profiles| && profiles[i].context.Ready?
    ensures tries <= profiles[i].maxRetries + 1 && (ending.None? ==> out == [] && tries == profiles[i].maxRetries + 1)
    ensures AllSilent(profiles, Tries(i, if ending.Some? && tries > 0 then tries - 1 else tries))
    ensures ending.Some? ==> tries > 0 && FromOneAttempt(profiles, out, Tries(i, tries), ending.value)
  {
    out, tries := [], 0;
    var p := profiles[i];
    for j := 0 to p.maxRetries + 1
      invariant out == [] && tries == j && AllSilent(profiles, Tries(i, j))
    {
      var r := Forward(profiles, i, j);
      TriesSnoc(i, j);
      tries := tries + 1;
      out := r.out;
      if r.end.Normal? { return out, Some(Finished), tries; }
      if r.emitted || !r.end.retryable { return out, Some(Raised(ProviderError(r.end.retryable))), tries; }
      SilentSnoc(profiles, Tries(i, j), i, j);
    }
    ending := None;
  }

  /** The profile is passed over: it has no room, or every attempt it allows is silent. */
  ghost predicate Quiet(p: Profile) {
    && p.accepts
    && (|| p.context.TooLarge?
        || (p.context.Ready? && forall j :: 0 <= j <= p.maxRetries ==> Silent(p, p.attempts(j))))
  }

  /** The first profile, from i on, that is not passed over. */
  ghost function FirstLoud(profiles: seq<Profile>, i: nat): (n: nat)
    requires i <= |profiles|
    ensures i <= n <= |profiles|
    ensures forall k :: i <= k < n ==> Quiet(profiles[k])
    ensures n < |profiles| ==> !Quiet(profiles[n])
    decreases |profiles| - i
  {
    if i < |profiles| && Quiet(profiles[i]) then FirstLoud(profiles, i + 1) else i
  }

  /** The error left when every profile was passed over. */
  function LastError(profiles: seq<Profile>): Error {
    if profiles == [] then NoProfile
    else if Last(profiles).context.TooLarge? then NoCapacity
    else ProviderError(true)
  }

  /** The answer as a whole: the first profile that is not passed over decides it, by refusing the
      request, by its context, or by its first attempt that is not silent. */
  ghost predicate Answers(profiles: seq<Profile>, n: nat, out: seq<Output>, ending: Ending, tried: seq<Place>)
    requires n <= |profiles|
  {
    if n == |profiles| then out == [] && tried == Places(profiles, n) && ending == Raised(LastError(profiles))
    else if !profiles[n].accepts then out == [] && tried == Places(profiles, n) && ending == Raised(Unsupported)
    else if !profiles[n].context.Ready? then
        out == [] && tried == Places(profiles, n) && ending == Raised(ContextRejected)
    else
      var j := |tried| - |Places(profiles, n)|;
      && 0 < j <= profiles[n].maxRetries + 1 && tried == Places(profiles, n) + Tries(n, j)
      && AllSilent(profiles, Tries(n, j - 1)) && FromOneAttempt(profiles, out, tried, ending)
  }

  ghost predicate AllQuiet(profiles: seq<Profile>, n: nat)
    requires n <= |profiles|
  {
    forall k :: 0 <= k < n ==> Quiet(profiles[k])
  }

  lemma {:induction false} LoudFrom(profiles: seq<Profile>, i: nat, n: nat)
    requires i <= n <= |profiles| && AllQuiet(profiles, n) && (n < |profiles| ==> !Quiet(profiles[n]))
    ensures FirstLoud(profiles, i) == n
    decreases n - i
  {
    if i < n {
      LoudFrom(profiles, i + 1, n);
    }
  }

  lemma {:induction false} AllTriesSilent(profiles: seq<Profile>, i: nat)
    requires i < |profiles| && profiles[i].accepts && profiles[i].context.Ready?
    requires AllSilent(profiles, Tries(i, profiles[i].maxRetries + 1))
    ensures Quiet(profiles[i])
  {
    var tried := Tries(i, profiles[i].maxRetries + 1);
    forall j | 0 <= j <= profiles[i].maxRetries ensures Silent(profiles[i], profiles[i].attempts(j)) {
      assert tried[j] == Place(i, j);
    }
  }

  lemma {:induction false} SettledIsLoud(profiles: seq<Profile>, i: nat, tries: nat, out: seq<Output>, ending: Ending)
    requires i < |profiles| && profiles[i].context.Ready? && 0 < tries <= profiles[i].maxRetries + 1
    requires FromOneAttempt(profiles, out, Tries(i, tries), ending)
    ensures !Quiet(profiles[i])
  {
    assert Tries(i, tries)[tries - 1] == Place(i, tries - 1);
  }

  lemma {:induction false} SilentConcat(profiles: seq<Profile>, a: seq<Place>, b: seq<Place>)
    requires AllSilent(profiles, a) && AllSilent(profiles, b)
    ensures AllSilent(profiles, a + b)
  {
  }

  /** What one profile settled, seen from the whole route. */
  lemma {:induction false} SettledByProfile(profiles: seq<Profile>, i: nat, tries: nat, out: seq<Output>,
                                            ending: Ending)
    requires i < |profiles| && 0 < tries && FromOneAttempt(profiles, out, Tries(i, tries), ending)
    ensures FromOneAttempt(profiles, out, Places(profiles, i) + Tries(i, tries), ending)
  {
    var tried := Places(profiles, i) + Tries(i, tries);
    assert tried[|tried| - 1] == Tries(i, tries)[tries - 1];
  }

  lemma {:induction false} SettledWithinPlan(profiles: seq<Profile>, i: nat, tries: nat)
    requires i < |profiles| && profiles[i].context.Ready? && 0 < tries <= profiles[i].maxRetries + 1
    requires AllSilent(profiles, Places(profiles, i)) && AllSilent(profiles, Tries(i, tries - 1))
    ensures var tried := Places(profiles, i) + Tries(i, tries);
            tried <= Places(profiles, |profiles|) && AllSilent(profiles, tried[..|tried| - 1])
  {
    TriesInPlan(profiles, i, tries);
    TriesSnoc(i, tries - 1);
    SilentConcat(profiles, Places(profiles, i), Tries(i, tries - 1));
    var tried := Places(profiles, i) + Tries(i, tries);
    assert tried[..|tried| - 1] == Places(profiles, i) + Tries(i, tries - 1);
  }

  /** Profile i settles the request with this output and ending after this many attempts on it. */
  ghost predicate Settles(profiles: seq<Profile>, i: nat, out: seq<Output>, ending: Ending, tries: nat)
    requires i < |profiles|
  {
    if !profiles[i].accepts then out == [] && tries == 0 && ending == Raised(Unsupported)
    else if profiles[i].context.Rejected? then out == [] && tries == 0 && ending == Raised(ContextRejected)
    else
      && profiles[i].context.Ready? && 0 < tries <= profiles[i].maxRetries + 1
      && AllSilent(profiles, Tries(i, tries - 1)) && FromOneAttempt(profiles, out, Tries(i, tries), ending)
  }

  /** The body of the outer loop: one profile settles the request or is passed over. */
  method VisitProfile(profiles: seq<Profile>, i: nat)
    returns (out: seq<Output>, ending: Option<Ending>, tries: nat, error: Error)
    requires i < |profiles|
    ensures ending.None? ==>
      && Quiet(profiles[i]) && out == [] && error == LastError(profiles[..i + 1])
      && Places(profiles, i + 1) == Places(profiles, i) + Tries(i, tries)
    ensures ending.Some? ==> !Quiet(profiles[i]) && Settles(profiles, i, out, ending.value, tries)
  {
    FrontSnoc(profiles, i);
    var p := profiles[i];
    out, tries, error := [], 0, NoCapacity;
    assert Tries(i, 0) == [];
    if !p.accepts { return out, Some(Raised(Unsupported)), tries, error; }
    if p.context.Rejected? { return out, Some(Raised(ContextRejected)), tries, error; }
    if p.context.TooLarge? { return out, None, tries, error; }
    out, ending, tries := TryProfile(profiles, i);
    error := ProviderError(true);
    if ending.Some? {
      SettledIsLoud(profiles, i, tries, out, ending.value);
    } else {
      AllTriesSilent(profiles, i);
    }
  }

  lemma {:induction false} SettledAnswers(profiles: seq<Profile>, i: nat, out: seq<Output>, ending: Ending,
                                          tries: nat)
    requires i < |profiles| && AllQuiet(profiles, i) && !Quiet(profiles[i]) && Settles(profiles, i, out, ending, tries)
    ensures Answers(profiles, FirstLoud(profiles, 0), out, ending, Places(profiles, i) + Tries(i, tries))
  {
    LoudFrom(profiles, 0, i);
    if tries == 0 {
      assert Places(profiles, i) + Tries(i, tries) == Places(profiles, i);
    } else {
      SettledByProfile(profiles, i, tries, out, ending);
    }
  }

  lemma {:induction false} QuietSnoc(profiles: seq<Profile>, i: nat)
    requires i < |profiles| && AllQuiet(profiles, i) && Quiet(profiles[i])
    ensures AllQuiet(profiles, i + 1)
  {
  }

  /** The first profile that is not passed over decides the stream; if there is none, the last one's
      error does. Output, ending and attempts are all determined. */
  method Stream(profiles: seq<Profile>) returns (out: seq<Output>, ending: Ending, tried: seq<Place>)
    ensures Answers(profiles, FirstLoud(profiles, 0), out, ending, tried)
  {
    tried := [];
    var lastError: Option<Error> := None;
    for i := 0 to |profiles|
      invariant tried == Places(profiles, i) && AllQuiet(profiles, i)
      invariant lastError == if i == 0 then None else Some(LastError(profiles[..i]))
    {
      var settled: Option<Ending>, tries: nat, error: Error;
      out, settled, tries, error := VisitProfile(profiles, i);
      if settled.Some? {
        SettledAnswers(profiles, i, out, settled.value, tries);
        return out, settled.value, tried + Tries(i, tries);
      }
      QuietSnoc(profiles, i);
      tried := tried + Tries(i, tries);
      lastError := Some(error);
    }
    LoudFrom(profiles, 0, |profiles|);
    assert profiles[..|profiles|] == profiles;
    if lastError.Some? { return [], Raised(lastError.value), tried; }
    return [], Raised(NoProfile), tried;
  }

  lemma {:induction false} QuietPlaces(profiles: seq<Profile>, n: nat)
    requires n <= |profiles| && AllQuiet(profiles, n)
    ensures AllSilent(profiles, Places(profiles, n))
  {
    if n > 0 {
      QuietPlaces(profiles, n - 1);
      if profiles[n - 1].context.Ready? {
        QuietTries(profiles, n - 1);
        SilentConcat(profiles, Places(profiles, n - 1), Tries(n - 1, profiles[n - 1].maxRetries + 1));
      }
    }
  }

  lemma {:induction false} QuietTries(profiles: seq<Profile>, i: nat)
    requires i < |profiles| && Quiet(profiles[i]) && profiles[i].context.Ready?
    ensures AllSilent(profiles, Tries(i, profiles[i].maxRetries + 1))
  {
  }

  /** Whatever the stream's answer, attempts follow the plan and stay within the allowance, every attempt
      before the last delivered nothing, and all the caller received is from the last one. */
  lemma {:induction false} OneAttemptAnswers(profiles: seq<Profile>, out: seq<Output>, ending: Ending,
                                             tried: seq<Place>)
    requires Answers(profiles, FirstLoud(profiles, 0), out, ending, tried)
    ensures tried <= Places(profiles, |profiles|) && |tried| <= Allowance(profiles, |profiles|)
    ensures tried != [] ==> AllSilent(profiles, tried[..|tried| - 1])
    ensures out != [] || ending == Finished ==> FromOneAttempt(profiles, out, tried, ending)
  {
    var n := FirstLoud(profiles, 0);
    QuietPlaces(profiles, n);
    PlacesGrow(profiles, n, |profiles|);
    if n < |profiles| && profiles[n].accepts && profiles[n].context.Ready? {
      SettledWithinPlan(profiles, n, |tried| - |Places(profiles, n)|);
    } else {
      assert out == [] && tried == Places(profiles, n);
      SilentFront(profiles, tried);
    }
  }

  lemma {:induction false} SilentFront(profiles: seq<Profile>, tried: seq<Place>)
    requires AllSilent(profiles, tried)
    ensures tried != [] ==> AllSilent(profiles, tried[..|tried| - 1])
  {
  }

  lemma {:induction false} ViewAt(profiles: seq<Profile>, i: nat, j: nat, k: nat)
    requires i < |profiles|
    requires var v := View(profiles, i, j, Passed(profiles[i], profiles[i].attempts(j))); k < |v|
    ensures var v := View(profiles, i, j, Passed(profiles[i], profiles[i].attempts(j)));
            if v[k].Compacted? then k == 0 && v[k].profile == i && profiles[i].context == Ready(true)
            else
              var d := if v[0].Compacted? then k - 1 else k;
              && v[k].profile == i && v[k].attempt == j && !v[k].event.owned
              && 0 <= d < |profiles[i].attempts(j).events| && v[k].event == profiles[i].attempts(j).events[d]
  {
    var (p, a) := (profiles[i], profiles[i].attempts(j));
    var v := View(profiles, i, j, Passed(p, a));
    if !v[k].Compacted? {
      assert Passes(p, a.events, if v[0].Compacted? then k - 1 else k);
    }
  }

  /** Everything the caller receives is, in order, from the last attempt made: at most one compaction
      notice, first, and then that attempt's events, none of them provider-made context state. On a
      normal end the whole attempt was delivered. */
  lemma {:induction false} NeverSpliced(profiles: seq<Profile>, out: seq<Output>, ending: Ending, tried: seq<Place>,
                                        k: nat)
    requires Answers(profiles, FirstLoud(profiles, 0), out, ending, tried) && k < |out|
    ensures tried != [] && Last(tried).profile < |profiles|
    ensures var (i, j) := (Last(tried).profile, Last(tried).attempt);
            var events := profiles[i].attempts(j).events;
            var d := if out[0].Compacted? then k - 1 else k;
            && (out[k].Compacted? ==> k == 0 && out[k].profile == i && profiles[i].context == Ready(true))
            && (!out[k].Compacted? ==> 0 <= d < |events| && out[k] == Delivered(i, j, events[d]) && !events[d].owned)
            && (ending == Finished ==> |out| == |events| + if out[0].Compacted? then 1 else 0)
  {
    OneAttemptAnswers(profiles, out, ending, tried);
    ViewAt(profiles, Last(tried).profile, Last(tried).attempt, k);
  }

  // ----- Which events an attempt may deliver -----

  /** The gateway may pass on event i: it is not context state, and without parallel calls no other call
      came before it. */
  ghost predicate Sendable(p: Profile, events: seq<Event>, i: nat)
    requires i < |events|
  {
    && !events[i].owned
    && (p.parallel || events[i].callId.None?
        || forall k :: 0 <= k < i ==> events[k].callId in {None, events[i].callId})
  }

  lemma {:induction false} OneCallId(events: seq<Event>, n: nat, id: string)
    requires n <= |events|
    ensures (forall k :: 0 <= k < n ==> events[k].callId in {None, Some(id)}) ==> |CallIds(events[..n])| <= 1
    ensures |CallIds(events[..n])| <= 1 && id in CallIds(events[..n]) ==>
              forall k :: 0 <= k < n ==> events[k].callId in {None, Some(id)}
  {
    var (s, ids) := (events[..n], CallIds(events[..n]));
    if forall k :: 0 <= k < n ==> events[k].callId in {None, Some(id)} {
      assert forall x :: x in ids ==> x == id;
      AtMostOne(ids, id);
    }
    if |ids| <= 1 && id in ids {
      OnlyOne(ids, id);
      forall k | 0 <= k < n ensures events[k].callId in {None, Some(id)} {
        if events[k].callId.Some? {
          assert s[k].callId.Some? && s[k].callId.value in ids;
        }
      }
    }
  }

  lemma {:induction false} AtMostOne(ids: set<string>, id: string)
    requires forall x :: x in ids ==> x == id
    ensures |ids| <= 1
  {
    assert ids == if id in ids then {id} else {};
  }

  lemma {:induction false} OnlyOne(ids: set<string>, id: string)
    requires |ids| <= 1 && id in ids
    ensures forall x :: x in ids ==> x == id
  {
    assert |ids - {id}| == |ids| - 1;
    assert forall x :: x in ids && x != id ==> x in ids - {id};
  }

  lemma {:induction false} PassesIsSendable(p: Profile, events: seq<Event>, i: nat)
    requires i < |events|
    ensures Passes(p, events, i) <==> Sendable(p, events, i)
  {
    if events[i].callId.Some? {
      var id := events[i].callId.value;
      assert events[..i + 1][i] == events[i] && id in CallIds(events[..i + 1]);
      OneCallId(events, i + 1, id);
    }
  }

  /** An attempt delivers its events up to the first that may not be sent, and that one ends it. */
  lemma {:induction false} DeliversExactly(p: Profile, a: Attempt)
    ensures var n := Passed(p, a);
            && (forall k :: 0 <= k < n ==> Sendable(p, a.events, k))
            && (n < |a.events| ==> !Sendable(p, a.events, n))
            && EndOf(p, a) == if n < |a.events| then Fails(false) else a.end
  {
    forall k | 0 <= k < |a.events| ensures Passes(p, a.events, k) <==> Sendable(p, a.events, k) {
      PassesIsSendable(p, a.events, k);
    }
  }

  /** A profile without parallel calls never delivers events of two different calls. */
  lemma {:induction false} OneCallUnlessParallel(profiles: seq<Profile>, out: seq<Output>, ending: Ending,
                                                 tried: seq<Place>, k: nat, l: nat)
    requires Answers(profiles, FirstLoud(profiles, 0), out, ending, tried) && k < l < |out|
    requires out[k].Delivered? && out[l].Delivered? && out[k].event.callId.Some? && out[l].event.callId.Some?
    ensures tried != [] && Last(tried).profile < |profiles|
    ensures profiles[Last(tried).profile].parallel || out[k].event.callId == out[l].event.callId
  {
    NeverSpliced(profiles, out, ending, tried, k);
    NeverSpliced(profiles, out, ending, tried, l);
    OneAttemptAnswers(profiles, out, ending, tried);
    var (i, j) := (Last(tried).profile, Last(tried).attempt);
    var (p, a) := (profiles[i], profiles[i].attempts(j));
    var d := if out[0].Compacted? then 1 else 0;
    DeliversExactly(p, a);
    assert |out| <= Passed(p, a) + d;
    assert Sendable(p, a.events, l - d);
  }

  // ----- The whole answer, on the profiles and their attempts -----

  /** The attempt failed in a way that may be retried, before it sent anything. */
  predicate Mute(a: Attempt) { a.events == [] && a.end == Fails(true) }

  /** The profile takes the request but has no room for it, or every attempt it allows is mute. */
  ghost predicate PassedOver(p: Profile) {
    && p.accepts
    && (p.context.TooLarge? || (p.context.Ready? && forall j :: 0 <= j <= p.maxRetries ==> Mute(p.attempts(j))))
  }

  lemma {:induction false} SilentIsMute(p: Profile, a: Attempt)
    ensures Silent(p, a) <==> Mute(a)
  {
  }

  lemma {:induction false} QuietIsPassedOver(p: Profile)
    ensures Quiet(p) <==> PassedOver(p)
  {
    forall j: nat ensures Silent(p, p.attempts(j)) <==> Mute(p.attempts(j)) {
      SilentIsMute(p, p.attempts(j));
    }
  }

  /** What attempt j on profile i leaves with the caller, if it is the one that answers: its first m
      events, after a compaction notice if the context was compacted, and how that ends. */
  ghost predicate AnsweredBy(p: Profile, i: nat, j: nat, m: nat, out: seq<Output>, ending: Ending) {
    var a := p.attempts(j);
    var notice := if m > 0 && p.context == Ready(true) then 1 else 0;
    && m <= |a.events|
    && (forall k :: 0 <= k < m ==> Sendable(p, a.events, k)) && (m < |a.events| ==> !Sendable(p, a.events, m))
    && |out| == notice + m && (notice == 1 ==> out[0] == Compacted(i))
    && (forall k :: 0 <= k < m ==> out[notice + k] == Delivered(i, j, a.events[k]))
    && ending == if m < |a.events| then Raised(ProviderError(false))
                 else if a.end.Normal? then Finished else Raised(ProviderError(a.end.retryable))
  }

  lemma {:induction false} AttemptAnswers(profiles: seq<Profile>, i: nat, j: nat, out: seq<Output>, tried: seq<Place>,
                                          ending: Ending)
    requires FromOneAttempt(profiles, out, tried, ending) && Last(tried) == Place(i, j)
    ensures i < |profiles| && !Mute(profiles[i].attempts(j))
    ensures AnsweredBy(profiles[i], i, j, Passed(profiles[i], profiles[i].attempts(j)), out, ending)
  {
    var (p, a) := (profiles[i], profiles[i].attempts(j));
    DeliversExactly(p, a);
    SilentIsMute(p, a);
  }

  /** The first profile that is not passed over answers: it refuses the request, its context is rejected,
      or the first of its attempts that is not mute is delivered. Without one, the last profile's
      failure is raised. */
  ghost predicate AnswerOf(profiles: seq<Profile>, n: nat, j: nat, m: nat, out: seq<Output>, ending: Ending) {
    && n <= |profiles| && (forall k :: 0 <= k < n ==> PassedOver(profiles[k]))
    && if n == |profiles| then
         out == [] && ending == Raised(if profiles == [] then NoProfile
                                       else if profiles[n - 1].context.TooLarge? then NoCapacity
                                       else ProviderError(true))
       else if !profiles[n].accepts then out == [] && ending == Raised(Unsupported)
       else if profiles[n].context.Rejected? then out == [] && ending == Raised(ContextRejected)
       else && profiles[n].context.Ready? && j <= profiles[n].maxRetries && !Mute(profiles[n].attempts(j))
            && (forall k :: 0 <= k < j ==> Mute(profiles[n].attempts(k)))
            && AnsweredBy(profiles[n], n, j, m, out, ending)
  }

  lemma {:induction false} EarlierMute(profiles: seq<Profile>, n: nat, j: nat)
    requires n < |profiles| && AllSilent(profiles, Tries(n, j))
    ensures forall k :: 0 <= k < j ==> Mute(profiles[n].attempts(k))
  {
    forall k | 0 <= k < j ensures Mute(profiles[n].attempts(k)) {
      assert Tries(n, j)[k] == Place(n, k);
      SilentIsMute(profiles[n], profiles[n].attempts(k));
    }
  }

  /** Every answer of the stream is of that form. */
  lemma {:induction false} StreamAnswers(profiles: seq<Profile>, out: seq<Output>, ending: Ending, tried: seq<Place>)
    returns (n: nat, j: nat, m: nat)
    requires Answers(profiles, FirstLoud(profiles, 0), out, ending, tried)
    ensures AnswerOf(profiles, n, j, m, out, ending)
  {
    n, j, m := FirstLoud(profiles, 0), 0, 0;
    forall k | 0 <= k < |profiles| ensures Quiet(profiles[k]) <==> PassedOver(profiles[k]) {
      QuietIsPassedOver(profiles[k]);
    }
    if n < |profiles| && profiles[n].accepts && profiles[n].context.Ready? {
      var tries := |tried| - |Places(profiles, n)|;
      j := tries - 1;
      m := Passed(profiles[n], profiles[n].attempts(j));
      assert Last(tried) == Tries(n, tries)[j] == Place(n, j);
      EarlierMute(profiles, n, j);
      AttemptAnswers(profiles, n, j, out, tried, ending);
    }
  }

  lemma {:induction false} AnswererIsFirst(profiles: seq<Profile>, n: nat, j: nat, m: nat, out: seq<Output>,
                                           ending: Ending)
    requires AnswerOf(profiles, n, j, m, out, ending)
    ensures n < |profiles| ==> !PassedOver(profiles[n])
  {
  }

  lemma {:induction false} FirstBarred(p: Profile, events: seq<Event>, m: nat, m': nat)
    requires m <= |events| && m' <= |events|
    requires (forall k :: 0 <= k < m ==> Sendable(p, events, k)) && (m < |events| ==> !Sendable(p, events, m))
    requires (forall k :: 0 <= k < m' ==> Sendable(p, events, k)) && (m' < |events| ==> !Sendable(p, events, m'))
    ensures m == m'
  {
  }

  lemma {:induction false} SameDelivery(p: Profile, i: nat, j: nat, m: nat, out: seq<Output>, ending: Ending,
                                        m': nat, out': seq<Output>, ending': Ending)
    requires AnsweredBy(p, i, j, m, out, ending) && AnsweredBy(p, i, j, m', out', ending')
    ensures m == m' && out == out' && ending == ending'
  {
    FirstBarred(p, p.attempts(j).events, m, m');
    var notice := if m > 0 && p.context == Ready(true) then 1 else 0;
    forall k | 0 <= k < |out| ensures out[k] == out'[k] {
      if k >= notice {
        var d := k - notice;
        assert out[notice + d] == Delivered(i, j, p.attempts(j).events[d]);
        assert out'[notice + d] == Delivered(i, j, p.attempts(j).events[d]);
      }
    }
  }

  lemma {:induction false} FirstHeard(p: Profile, j: nat, j': nat)
    requires !Mute(p.attempts(j)) && forall k :: 0 <= k < j ==> Mute(p.attempts(k))
    requires !Mute(p.attempts(j')) && forall k :: 0 <= k < j' ==> Mute(p.attempts(k))
    ensures j == j'
  {
  }

  /** That form leaves no choice: the profiles and their attempts determine what the caller gets. */
  lemma {:induction false} AnswerIsDetermined(profiles: seq<Profile>, n: nat, j: nat, m: nat, out: seq<Output>,
                                              ending: Ending, n': nat, j': nat, m': nat, out': seq<Output>,
                                              ending': Ending)
    requires AnswerOf(profiles, n, j, m, out, ending) && AnswerOf(profiles, n', j', m', out', ending')
    ensures n == n' && out == out' && ending == ending'
  {
    AnswererIsFirst(profiles, n, j, m, out, ending);
    AnswererIsFirst(profiles, n', j', m', out', ending');
    if n < |profiles| && profiles[n].accepts && profiles[n].context.Ready? {
      FirstHeard(profiles[n], j, j');
      SameDelivery(profiles[n], n, j, m, out, ending, m', out', ending');
    }
  }
}

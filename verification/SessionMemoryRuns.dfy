/** Exactly-once memory over repeated preparations of a growing transcript. */
module SessionMemoryRuns {
  import opened Base
  import opened SessionMemory

  // ----- What extraction finds -----

  /** User event j and assistant event i form a pair: only neutral events lie between them. */
  predicate Completes(events: seq<Event>, j: int, i: int) {
    && 0 <= j < i < |events|
    && events[j].kind.UserMessage? && events[j].kind.text.Some?
    && events[i].kind.AssistantMessage? && events[i].kind.output.Some?
    && forall x :: j < x < i ==> events[x].kind.Other?
  }

  function PairOf(events: seq<Event>, j: int, i: int): Pair
    requires Completes(events, j, i)
  {
    Pair(events[i].revision, Message("user", events[j].kind.text.value),
         Message("assistant", events[i].kind.output.value))
  }

  /** The open user message is the latest event that is not neutral. */
  ghost predicate OpenAt(events: seq<Event>, j: int, m: Message) {
    && 0 <= j < |events| && events[j].kind.UserMessage? && events[j].kind.text == Some(m.content) && m.role == "user"
    && forall x :: j < x < |events| ==> events[x].kind.Other?
  }

  /** Revisions strictly increase along the pairs. */
  ghost predicate Increasing(pairs: seq<Pair>) {
    forall a, b :: 0 <= a < b < |pairs| ==> pairs[a].revision < pairs[b].revision
  }

  ghost predicate Reflects(x: Extraction, events: seq<Event>)
    requires x.Extraction?
  {
    && Increasing(x.pairs)
    && (forall k :: 0 <= k < |x.pairs| ==> 1 <= x.pairs[k].revision <= x.revision)
    && (forall i :: 0 <= i < |events| ==> events[i].revision <= x.revision)
    && (x.pending.Some? <==> exists j, m :: OpenAt(events, j, m))
    && (x.pending.Some? ==> exists j :: OpenAt(events, j, x.pending.value))
    && (forall p :: p in x.pairs <==> IsCompleted(events, p))
  }

  lemma {:induction false} OpenIsUnique(events: seq<Event>, j: int, m: Message, k: int, n: Message)
    requires OpenAt(events, j, m) && OpenAt(events, k, n)
    ensures j == k && m == n
  {
  }

  lemma {:induction false} OpenNext(events: seq<Event>)
    requires events != []
    ensures Last(events).kind.Other? ==> forall j, m :: OpenAt(events, j, m) <==> OpenAt(Front(events), j, m)
    ensures !Last(events).kind.Other? ==> forall j, m :: OpenAt(events, j, m) ==> j == |events| - 1
  {
    var f := Front(events);
    if Last(events).kind.Other? {
      forall j, m ensures OpenAt(events, j, m) <==> OpenAt(f, j, m) {
        if OpenAt(f, j, m) { assert events[j] == f[j]; }
        if OpenAt(events, j, m) { assert f[j] == events[j]; }
      }
    }
  }

  lemma {:induction false} CompletesNext(events: seq<Event>)
    requires events != []
    ensures forall j, i :: i < |events| - 1 ==> (Completes(events, j, i) <==> Completes(Front(events), j, i))
    ensures forall j, i :: Completes(Front(events), j, i) ==>
        i < |events| - 1 && PairOf(events, j, i) == PairOf(Front(events), j, i)
  {
  }

  lemma {:induction false} CompletesLast(events: seq<Event>, j: int)
    requires events != []
    ensures Completes(events, j, |events| - 1) <==>
              && Last(events).kind.AssistantMessage? && Last(events).kind.output.Some?
              && exists m :: OpenAt(Front(events), j, m)
  {
    var f := Front(events);
    if Completes(events, j, |events| - 1) {
      assert OpenAt(f, j, Message("user", f[j].kind.text.value));
    }
  }

  /** Extraction finds exactly the completed pairs, in order of their revisions. */
  lemma {:induction false} ExtractReflects(identity: string, events: seq<Event>)
    requires Extract(identity, events).Extraction?
    ensures Reflects(Extract(identity, events), events)
  {
    if events != [] {
      ExtractReflects(identity, Front(events));
      StepReflects(identity, events);
    }
  }

  /** p is the pair of some completing events. */
  ghost predicate IsCompleted(events: seq<Event>, p: Pair) {
    exists j, i :: Completes(events, j, i) && PairOf(events, j, i) == p
  }

  lemma {:induction false} FoundIsCompleted(identity: string, events: seq<Event>, p: Pair)
    requires events != [] && Extract(identity, events).Extraction? && p in Extract(identity, events).pairs
    requires Reflects(Extract(identity, Front(events)), Front(events))
    ensures IsCompleted(events, p)
  {
    var f, x := Front(events), Extract(identity, Front(events));
    CompletesNext(events);
    if p in x.pairs {
      assert IsCompleted(f, p);
      var j, i :| Completes(f, j, i) && PairOf(f, j, i) == p;
      assert Completes(events, j, i) && PairOf(events, j, i) == p;
    } else {
      var j :| OpenAt(f, j, x.pending.value);
      CompletesLast(events, j);
      assert PairOf(events, j, |events| - 1) == p;
    }
  }

  lemma {:induction false} CompletedIsFound(identity: string, events: seq<Event>, j: int, i: int)
    requires events != [] && Extract(identity, events).Extraction? && Completes(events, j, i)
    requires Reflects(Extract(identity, Front(events)), Front(events))
    ensures PairOf(events, j, i) in Extract(identity, events).pairs
  {
    var f, x := Front(events), Extract(identity, Front(events));
    CompletesNext(events);
    if i < |events| - 1 {
      assert Completes(f, j, i);
      assert IsCompleted(f, PairOf(f, j, i));
    } else {
      CompletesLast(events, j);
      var m :| OpenAt(f, j, m);
      var k :| OpenAt(f, k, x.pending.value);
      OpenIsUnique(f, j, m, k, x.pending.value);
    }
  }

  lemma {:induction false} StepReflects(identity: string, events: seq<Event>)
    requires events != [] && Extract(identity, events).Extraction?
    requires Reflects(Extract(identity, Front(events)), Front(events))
    ensures Reflects(Extract(identity, events), events)
  {
    PendingReflects(identity, events);
    OrderReflects(identity, events);
    PairsReflect(identity, events);
  }

  lemma {:induction false} PairsReflect(identity: string, events: seq<Event>)
    requires events != [] && Extract(identity, events).Extraction?
    requires Reflects(Extract(identity, Front(events)), Front(events))
    ensures forall p :: p in Extract(identity, events).pairs <==> IsCompleted(events, p)
  {
    forall p ensures p in Extract(identity, events).pairs <==> IsCompleted(events, p) {
      if p in Extract(identity, events).pairs { FoundIsCompleted(identity, events, p); }
      if IsCompleted(events, p) {
        var j, i :| Completes(events, j, i) && PairOf(events, j, i) == p;
        CompletedIsFound(identity, events, j, i);
      }
    }
  }

  lemma {:induction false} OrderReflects(identity: string, events: seq<Event>)
    requires events != [] && Extract(identity, events).Extraction?
    requires Reflects(Extract(identity, Front(events)), Front(events))
    ensures var y := Extract(identity, events);
            && Increasing(y.pairs)
            && (forall k :: 0 <= k < |y.pairs| ==> 1 <= y.pairs[k].revision <= y.revision)
            && (forall i :: 0 <= i < |events| ==> events[i].revision <= y.revision)
  {
  }

  lemma {:induction false} PendingReflects(identity: string, events: seq<Event>)
    requires events != [] && Extract(identity, events).Extraction?
    requires Reflects(Extract(identity, Front(events)), Front(events))
    ensures var y := Extract(identity, events);
            && (y.pending.Some? <==> exists j, m :: OpenAt(events, j, m))
            && (y.pending.Some? ==> exists j :: OpenAt(events, j, y.pending.value))
  {
    var e, x, y := Last(events), Extract(identity, Front(events)), Extract(identity, events);
    OpenNext(events);
    if e.kind.UserMessage? && e.kind.text.Some? {
      assert OpenAt(events, |events| - 1, y.pending.value);
    }
    if e.kind.Other? && x.pending.Some? {
      var j :| OpenAt(Front(events), j, x.pending.value);
      assert OpenAt(events, j, y.pending.value);
    }
  }

  // ----- Batches -----

  function Flatten(batches: seq<Batch>): seq<Pair> {
    if batches == [] then [] else Flatten(Front(batches)) + Last(batches).pairs
  }

  /** Within the byte bound, unless it is a single pair that exceeds the bound by itself. */
  predicate BatchBounded(c: Config, b: Batch) {
    && b.pairs != []
    && if b.oversized then |b.pairs| == 1 && c.size(b.pairs[0]) > c.maxInput else Bytes(c, b.pairs) <= c.maxInput
  }

  /** Batches are cut only where the next pair would not have fitted. */
  predicate CutLate(c: Config, a: Batch, b: Batch) {
    a.oversized || (b.pairs != [] && Bytes(c, a.pairs) + c.size(b.pairs[0]) > c.maxInput)
  }

  /** Every batch is bounded, and each boundary between two is forced. */
  predicate WellCut(c: Config, batches: seq<Batch>) {
    batches == [] ||
    (&& WellCut(c, Front(batches)) && BatchBounded(c, Last(batches))
     && (Front(batches) != [] ==> CutLate(c, Last(Front(batches)), Last(batches))))
  }

  predicate WellGrouped(c: Config, g: Grouping, pairs: seq<Pair>) {
    && Flatten(g.closed) + g.open == pairs
    && WellCut(c, g.closed)
    && Bytes(c, g.open) <= c.maxInput
    && (g.closed != [] && g.open != [] ==> CutLate(c, Last(g.closed), Batch(g.open, false)))
  }

  lemma {:induction false} CloseBatch(c: Config, batches: seq<Batch>, b: Batch)
    requires WellCut(c, batches) && BatchBounded(c, b) && (batches != [] ==> CutLate(c, Last(batches), b))
    ensures WellCut(c, batches + [b]) && Flatten(batches + [b]) == Flatten(batches) + b.pairs
  {
    assert Front(batches + [b]) == batches;
  }

  lemma {:induction false} FlushGrouped(c: Config, g: Grouping, pairs: seq<Pair>)
    requires WellGrouped(c, g, pairs)
    ensures WellGrouped(c, Flush(g), pairs) && Flush(g).open == []
  {
    if g.open != [] {
      CloseBatch(c, g.closed, Batch(g.open, false));
      assert Flatten(Flush(g).closed) + [] == pairs;
    }
  }

  /** Between pairs, an empty open batch follows only an oversized pair. */
  predicate Idle(g: Grouping) {
    g.open == [] && g.closed != [] ==> Last(g.closed).oversized
  }

  lemma {:induction false} AddOversized(c: Config, g: Grouping, pairs: seq<Pair>, p: Pair)
    requires WellGrouped(c, g, pairs) && g.open == [] && c.size(p) > c.maxInput
    ensures WellGrouped(c, Grouping(g.closed + [Batch([p], true)], []), pairs + [p])
  {
    CloseBatch(c, g.closed, Batch([p], true));
    assert Flatten(g.closed) + [] == Flatten(g.closed);
    assert Flatten(g.closed + [Batch([p], true)]) + [] == pairs + [p];
  }

  lemma {:induction false} AddOpen(c: Config, g: Grouping, pairs: seq<Pair>, p: Pair)
    requires WellGrouped(c, g, pairs) && Bytes(c, g.open) + c.size(p) <= c.maxInput
    requires g.open == [] && g.closed != [] ==> CutLate(c, Last(g.closed), Batch([p], false))
    ensures WellGrouped(c, g.(open := g.open + [p]), pairs + [p])
  {
    BytesSnoc(c, g.open, p);
    ConcatAssoc(Flatten(g.closed), g.open, [p]);
    if g.closed != [] { OpenCut(c, Last(g.closed), g.open, p); }
  }

  lemma {:induction false} OpenCut(c: Config, last: Batch, open: seq<Pair>, p: Pair)
    requires open == [] ==> CutLate(c, last, Batch([p], false))
    requires open != [] ==> CutLate(c, last, Batch(open, false))
    ensures CutLate(c, last, Batch(open + [p], false))
  {
    if open == [] {
      assert open + [p] == [p];
    } else {
      assert (open + [p])[0] == open[0];
    }
  }

  lemma {:induction false} FlushedCut(c: Config, g: Grouping, p: Pair)
    requires Idle(g) && Bytes(c, g.open) + c.size(p) > c.maxInput
    ensures Flush(g).closed != [] ==> CutLate(c, Last(Flush(g).closed), Batch([p], false))
  {
  }

  lemma {:induction false} StepFits(c: Config, g: Grouping, pairs: seq<Pair>, p: Pair)
    requires WellGrouped(c, g, pairs) && Idle(g) && Bytes(c, g.open) + c.size(p) <= c.maxInput
    ensures WellGrouped(c, GroupStep(c, g, p), pairs + [p]) && Idle(GroupStep(c, g, p))
  {
    AddOpen(c, g, pairs, p);
    assert GroupStep(c, g, p) == g.(open := g.open + [p]);
  }

  lemma {:induction false} StepOversized(c: Config, g: Grouping, pairs: seq<Pair>, p: Pair)
    requires WellGrouped(c, g, pairs) && c.size(p) > c.maxInput
    ensures WellGrouped(c, GroupStep(c, g, p), pairs + [p]) && Idle(GroupStep(c, g, p))
  {
    FlushGrouped(c, g, pairs);
    AddOversized(c, Flush(g), pairs, p);
    assert GroupStep(c, g, p) == Grouping(Flush(g).closed + [Batch([p], true)], []);
  }

  lemma {:induction false} StepStartsNext(c: Config, g: Grouping, pairs: seq<Pair>, p: Pair)
    requires WellGrouped(c, g, pairs) && Idle(g)
    requires Bytes(c, g.open) + c.size(p) > c.maxInput && c.size(p) <= c.maxInput
    ensures WellGrouped(c, GroupStep(c, g, p), pairs + [p]) && Idle(GroupStep(c, g, p))
  {
    var h := Flush(g);
    FlushGrouped(c, g, pairs);
    FlushedCut(c, g, p);
    assert Bytes(c, h.open) == 0;
    AddOpen(c, h, pairs, p);
    assert GroupStep(c, g, p) == h.(open := h.open + [p]);
  }

  lemma {:induction false} StepGrouped(c: Config, g: Grouping, pairs: seq<Pair>, p: Pair)
    requires WellGrouped(c, g, pairs) && Idle(g)
    ensures WellGrouped(c, GroupStep(c, g, p), pairs + [p]) && Idle(GroupStep(c, g, p))
  {
    if Bytes(c, g.open) + c.size(p) <= c.maxInput {
      StepFits(c, g, pairs, p);
    } else if c.size(p) > c.maxInput {
      StepOversized(c, g, pairs, p);
    } else {
      StepStartsNext(c, g, pairs, p);
    }
  }

  lemma {:induction false} GroupGrouped(c: Config, pairs: seq<Pair>)
    ensures WellGrouped(c, Group(c, pairs), pairs) && Idle(Group(c, pairs))
  {
    if pairs == [] {
      NothingGrouped(c);
    } else {
      GroupGrouped(c, Front(pairs));
      LastGrouped(c, pairs, Group(c, Front(pairs)));
    }
  }

  lemma {:induction false} LastGrouped(c: Config, pairs: seq<Pair>, g: Grouping)
    requires pairs != [] && WellGrouped(c, g, Front(pairs)) && Idle(g)
    ensures WellGrouped(c, GroupStep(c, g, Last(pairs)), pairs) && Idle(GroupStep(c, g, Last(pairs)))
  {
    assert Front(pairs) + [Last(pairs)] == pairs;
    StepGrouped(c, g, Front(pairs), Last(pairs));
  }

  lemma {:induction false} NothingGrouped(c: Config)
    ensures WellGrouped(c, Group(c, []), []) && Idle(Group(c, []))
  {
  }

  lemma {:induction false} BatchesFlatten(c: Config, pairs: seq<Pair>)
    ensures Flatten(Batches(c, pairs)) == pairs && WellCut(c, Batches(c, pairs))
  {
    var g := Group(c, pairs);
    GroupGrouped(c, pairs);
    FlushGrouped(c, g, pairs);
    assert Flatten(Flush(g).closed) + [] == Flatten(Flush(g).closed);
  }

  lemma {:induction false} WellCutEach(c: Config, batches: seq<Batch>, i: nat)
    requires WellCut(c, batches) && i < |batches|
    ensures BatchBounded(c, batches[i]) && (i + 1 < |batches| ==> CutLate(c, batches[i], batches[i + 1]))
  {
    if i < |batches| - 1 {
      var f := Front(batches);
      assert f[i] == batches[i];
      if i < |batches| - 2 { assert f[i + 1] == batches[i + 1]; }
      WellCutEach(c, f, i);
    }
  }

  /** The batches hold each pair once and in order; each is within its byte bound, or a single pair that
      exceeds the bound by itself, and was closed only because the next pair would not have fitted. */
  lemma {:induction false} BatchesAreExact(c: Config, pairs: seq<Pair>, i: nat)
    ensures var batches := Batches(c, pairs);
            && Flatten(batches) == pairs
            && (i < |batches| ==> BatchBounded(c, batches[i]))
            && (i + 1 < |batches| ==> CutLate(c, batches[i], batches[i + 1]))
  {
    BatchesFlatten(c, pairs);
    if i < |Batches(c, pairs)| {
      WellCutEach(c, Batches(c, pairs), i);
    }
  }

  lemma {:induction false} SummarizingKeepsBound(c: Config, callback: Option<Callback>, s: Summary,
                                                 batches: seq<Batch>)
    requires |s.text| <= c.maxChars
    ensures |SummarizeAll(c, callback, s, batches).text| <= c.maxChars
    ensures s.degraded ==> SummarizeAll(c, callback, s, batches).degraded
  {
    if batches != [] { SummarizingKeepsBound(c, callback, s, Front(batches)); }
  }

  /** Whatever it was given, a preparation leaves a summary within its limit, and a summary once marked
      as degraded, or cut because it was too long, stays marked. */
  lemma {:induction false} SummaryBounded(c: Config, callback: Option<Callback>, pairs: seq<Pair>,
                                          previous: MemoryState)
    ensures var summary := PreparedFrom(c, callback, pairs, previous).state.summary;
            && |summary.text| <= c.maxChars
            && (previous.summary.degraded || |previous.summary.text| > c.maxChars ==> summary.degraded)
  {
    var log := Batches(c, Uncovered(pairs[..WindowStart(c, pairs)], previous.covered));
    SummarizingKeepsBound(c, callback, Opening(c, previous.summary), log);
  }

  // ----- Refused transcripts and the window -----

  /** Every event belongs to the session, and both of its numbers exceed those before it. */
  ghost predicate InOrder(identity: string, events: seq<Event>) {
    && (forall i :: 0 <= i < |events| ==>
          events[i].identity == identity && events[i].sequence > 0 && events[i].revision > 0)
    && (forall i, j :: 0 <= i < j < |events| ==>
          events[i].sequence < events[j].sequence && events[i].revision < events[j].revision)
  }

  lemma {:induction false} OrderedNext(identity: string, events: seq<Event>)
    requires events != []
    ensures InOrder(identity, events) <==>
            && InOrder(identity, Front(events)) && Last(events).identity == identity
            && Last(events).sequence > (if |events| == 1 then 0 else Last(Front(events)).sequence)
            && Last(events).revision > (if |events| == 1 then 0 else Last(Front(events)).revision)
  {
    var (f, n) := (Front(events), |events| - 1);
    assert forall i :: 0 <= i < n ==> events[i] == f[i];
    if InOrder(identity, events) {
      assert n > 0 ==> events[n - 1].sequence < events[n].sequence && events[n - 1].revision < events[n].revision;
    }
  }

  /** A transcript is refused exactly when it is out of order or not of this session. */
  lemma {:induction false} RefusedExactly(identity: string, events: seq<Event>)
    ensures var x := Extract(identity, events);
            && (x.Refused? <==> !InOrder(identity, events))
            && (x.Extraction? ==>
                  && x.sequence == (if events == [] then 0 else Last(events).sequence)
                  && x.revision == (if events == [] then 0 else Last(events).revision))
  {
    if events != [] {
      RefusedExactly(identity, Front(events));
      OrderedNext(identity, events);
    }
  }

  /** What the pairs take together. */
  function TotalSize(c: Config, pairs: seq<Pair>): nat {
    if pairs == [] then 0 else c.size(pairs[0]) + TotalSize(c, pairs[1..])
  }

  lemma {:induction false} BytesAreTotal(c: Config, pairs: seq<Pair>)
    ensures Bytes(c, pairs) == TotalSize(c, pairs)
    decreases |pairs|
  {
    if pairs != [] {
      assert pairs[0..] == pairs;
      BytesFrom(c, pairs, 0);
      BytesAreTotal(c, pairs[1..]);
    }
  }

  /** The window is the end of the transcript, within both limits; one pair more would break a limit. */
  lemma {:induction false} WindowExactly(c: Config, callback: Option<Callback>, pairs: seq<Pair>,
                                         previous: MemoryState)
    ensures var w := PreparedFrom(c, callback, pairs, previous).window;
            && IsSuffix(w, pairs) && |w| <= c.maxPairs && TotalSize(c, w) <= c.maxBytes
            && (|w| < |pairs| ==>
                  || |w| == c.maxPairs
                  || TotalSize(c, w) + c.size(pairs[|pairs| - |w| - 1]) > c.maxBytes)
  {
    var start := WindowStart(c, pairs);
    BytesAreTotal(c, pairs[start..]);
    if start > 0 {
      BytesFrom(c, pairs, start - 1);
    }
  }

  // ----- What each summary is made of -----

  /** The first or the last n characters, or all of them. */
  ghost predicate Begins(s: string, n: nat, r: string) { r <= s && |r| == Min(|s|, n) }

  ghost predicate Finishes(s: string, n: nat, r: string) { IsSuffix(r, s) && |r| == Min(|s|, n) }

  /** The messages of the pairs, each question before its answer. */
  ghost predicate Listed(pairs: seq<Pair>, messages: seq<Message>) {
    && |messages| == 2 * |pairs|
    && forall i :: 0 <= i < |pairs| ==> messages[2 * i] == pairs[i].user && messages[2 * i + 1] == pairs[i].assistant
  }

  lemma {:induction false} MessagesListed(pairs: seq<Pair>)
    ensures Listed(pairs, Messages(pairs))
  {
    if pairs != [] {
      MessagesListed(Front(pairs));
    }
  }

  /** The earlier summary's end, then each message with its role, each cut to the limit. */
  ghost predicate Spelled(c: Config, previous: string, messages: seq<Message>, s: string)
    decreases |messages|
  {
    if messages == [] then Finishes(previous, c.maxChars, s)
    else exists before, content ::
           && Spelled(c, previous, Front(messages), before) && Begins(Last(messages).content, c.maxChars, content)
           && s == before + "\n" + Last(messages).role + ": " + content
  }

  lemma {:induction false} PiecesSpelled(c: Config, previous: string, messages: seq<Message>)
    ensures Spelled(c, previous, messages, Pieces(c, previous, messages))
    decreases |messages|
  {
    if messages != [] {
      PiecesSpelled(c, previous, Front(messages));
      var (before, content) := (Pieces(c, previous, Front(messages)), Take(Last(messages).content, c.maxChars));
      assert Begins(Last(messages).content, c.maxChars, content);
    }
  }

  /** An excerpt is marked as one and ends with the end of what was spelled out, as far as there is room. */
  ghost predicate Excerpted(c: Config, previous: string, messages: seq<Message>, r: string) {
    if c.maxChars <= |MARKER| then Begins(MARKER, c.maxChars, r)
    else exists s, tail :: Spelled(c, previous, messages, s) && Finishes(s, c.maxChars - |MARKER|, tail)
                           && r == MARKER + tail
  }

  lemma {:induction false} ExcerptIsExcerpted(c: Config, previous: string, messages: seq<Message>)
    ensures Excerpted(c, previous, messages, Excerpt(c, previous, messages))
  {
    if c.maxChars > |MARKER| {
      var s := Pieces(c, previous, messages);
      PiecesSpelled(c, previous, messages);
      var tail := TakeLast(s, c.maxChars - |MARKER|);
      assert Finishes(s, c.maxChars - |MARKER|, tail);
      assert Excerpt(c, previous, messages) == MARKER + tail;
    } else {
      assert MARKER + "" == MARKER;
    }
  }

  /** One batch: unless it holds a single oversized pair, the summariser is given the summary so far and
      the batch's messages, and its answer, cut to the limit, is the next summary; otherwise, or without
      an answer, a marked excerpt is. It is degraded from the first cut or excerpt on. */
  ghost predicate HandedOn(c: Config, callback: Option<Callback>, before: Summary, b: Batch, after: Summary) {
    exists messages :: Listed(b.pairs, messages) &&
      var answer := if callback.Some? && !b.oversized then callback.value(before.text, messages) else None;
      if answer.Some? then
        && Begins(answer.value, c.maxChars, after.text)
        && (after.degraded <==> before.degraded || |answer.value| > c.maxChars)
      else after.degraded && Excerpted(c, before.text, messages, after.text)
  }

  lemma {:induction false} SummarizeHandsOn(c: Config, callback: Option<Callback>, s: Summary, b: Batch)
    ensures HandedOn(c, callback, s, b, Summarize(c, callback, s, b))
  {
    MessagesListed(b.pairs);
    ExcerptIsExcerpted(c, s.text, Messages(b.pairs));
  }

  ghost predicate Trail(c: Config, callback: Option<Callback>, log: seq<Batch>, trail: seq<Summary>) {
    |trail| == |log| + 1 && forall i :: 0 <= i < |log| ==> HandedOn(c, callback, trail[i], log[i], trail[i + 1])
  }

  lemma {:induction false} TrailSnoc(c: Config, callback: Option<Callback>, log: seq<Batch>, trail: seq<Summary>,
                                     b: Batch, s: Summary)
    requires Trail(c, callback, log, trail) && HandedOn(c, callback, Last(trail), b, s)
    ensures Trail(c, callback, log + [b], trail + [s])
  {
    var (l, t) := (log + [b], trail + [s]);
    forall i | 0 <= i < |l| ensures HandedOn(c, callback, t[i], l[i], t[i + 1]) {
      assert i < |log| ==> t[i] == trail[i] && l[i] == log[i] && t[i + 1] == trail[i + 1];
    }
  }

  lemma {:induction false} TrailNext(c: Config, callback: Option<Callback>, log: seq<Batch>, trail: seq<Summary>)
    requires log != [] && Trail(c, callback, Front(log), trail)
    ensures Trail(c, callback, log, trail + [Summarize(c, callback, Last(trail), Last(log))])
  {
    SummarizeHandsOn(c, callback, Last(trail), Last(log));
    TrailSnoc(c, callback, Front(log), trail, Last(log), Summarize(c, callback, Last(trail), Last(log)));
    assert log == Front(log) + [Last(log)];
  }

  lemma {:induction false} SummariesTrail(c: Config, callback: Option<Callback>, s: Summary, log: seq<Batch>)
    returns (trail: seq<Summary>)
    ensures Trail(c, callback, log, trail) && trail[0] == s && Last(trail) == SummarizeAll(c, callback, s, log)
  {
    if log == [] {
      trail := [s];
    } else {
      var front := SummariesTrail(c, callback, s, Front(log));
      TrailNext(c, callback, log, front);
      trail := front + [SummarizeAll(c, callback, s, log)];
    }
  }

  /** A preparation's summary comes from the previous one, cut to the limit, by handing it on from batch
      to batch of its log. */
  lemma {:induction false} SummaryIsHandedOn(c: Config, callback: Option<Callback>, pairs: seq<Pair>,
                                             previous: MemoryState)
    returns (trail: seq<Summary>)
    ensures var p := PreparedFrom(c, callback, pairs, previous);
            && Trail(c, callback, p.log, trail) && Last(trail) == p.state.summary
            && Begins(previous.summary.text, c.maxChars, trail[0].text)
            && (trail[0].degraded <==> previous.summary.degraded || |previous.summary.text| > c.maxChars)
            && (p.truncated <==> |p.window| < |pairs| || p.state.summary.text != "")
  {
    var log := PreparedFrom(c, callback, pairs, previous).log;
    trail := SummariesTrail(c, callback, Opening(c, previous.summary), log);
  }

  // ----- Growing transcripts, possibly cut at the front -----

  lemma {:induction false} ExtractGrows(identity: string, events: seq<Event>, k: nat)
    requires k <= |events| && Extract(identity, events).Extraction?
    ensures Extract(identity, events[..k]).Extraction?
    ensures Extract(identity, events[..k]).pairs <= Extract(identity, events).pairs
  {
    if k < |events| {
      assert Front(events)[..k] == events[..k];
      ExtractGrows(identity, Front(events), k);
    } else {
      assert events[..k] == events;
    }
  }

  lemma {:induction false} SuffixSnoc(a: seq<Pair>, b: seq<Pair>, p: Pair)
    requires IsSuffix(a, b)
    ensures IsSuffix(a + [p], b + [p]) && IsSuffix([], b + [p])
  {
    assert (b + [p])[|b| - |a|..] == b[|b| - |a|..] + [p];
  }

  /** Two extractions that differ only in what came before the cut. */
  predicate CutFrom(y: Extraction, x: Extraction) {
    && y.Extraction? && x.Extraction? && IsSuffix(y.pairs, x.pairs)
    && (y.pending == x.pending || (y.pending.None? && y.pairs == []))
    && y.sequence <= x.sequence && y.revision <= x.revision
  }

  lemma {:induction false} CutStep(y: Extraction, x: Extraction, identity: string, e: Event)
    requires CutFrom(y, x) && ExtractStep(x, identity, e).Extraction?
    ensures CutFrom(ExtractStep(y, identity, e), ExtractStep(x, identity, e))
  {
    if e.kind.AssistantMessage? && x.pending.Some? && e.kind.output.Some? {
      SuffixSnoc(y.pairs, x.pairs, Pair(e.revision, x.pending.value, Message("assistant", e.kind.output.value)));
    }
  }

  /** Dropping events at the front drops pairs at the front, and changes nothing else. */
  lemma {:induction false} ExtractDrops(identity: string, events: seq<Event>, d: nat)
    requires d <= |events| && Extract(identity, events).Extraction?
    ensures CutFrom(Extract(identity, events[d..]), Extract(identity, events))
  {
    if d < |events| {
      var f := Front(events);
      ExtractDrops(identity, f, d);
      assert Front(events[d..]) == f[d..] && Last(events[d..]) == Last(events);
      CutStep(Extract(identity, f[d..]), Extract(identity, f), identity, Last(events));
    } else {
      assert events[d..] == [];
    }
  }

  // ----- The window moves forward only -----

  lemma {:induction false} FitsMonotone(c: Config, pairs: seq<Pair>, s: nat, t: nat)
    requires s <= t <= |pairs| && FitsWindow(c, pairs, s)
    ensures FitsWindow(c, pairs, t)
  {
    assert pairs[s..] == pairs[s..t] + pairs[t..];
    BytesConcat(c, pairs[s..t], pairs[t..]);
  }

  lemma {:induction false} WindowMoves(c: Config, pairs: seq<Pair>, longer: seq<Pair>)
    requires pairs <= longer
    ensures WindowStart(c, pairs) <= WindowStart(c, longer)
  {
    var s, t := WindowStart(c, pairs), WindowStart(c, longer);
    if t < s {
      assert longer[t..] == pairs[t..] + longer[|pairs|..];
      BytesConcat(c, pairs[t..], longer[|pairs|..]);
      FitsMonotone(c, pairs, t, s - 1);
    }
  }

  lemma {:induction false} FitsSuffix(c: Config, pairs: seq<Pair>, e: nat, k: nat)
    requires e <= k <= |pairs|
    ensures FitsWindow(c, pairs[e..], k - e) <==> FitsWindow(c, pairs, k)
  {
    assert pairs[e..][k - e..] == pairs[k..];
  }

  lemma {:induction false} WindowIsUnique(c: Config, pairs: seq<Pair>, s: nat, t: nat)
    requires IsWindow(c, pairs, s) && IsWindow(c, pairs, t)
    ensures s == t
  {
    if s < t { FitsMonotone(c, pairs, s, t - 1); }
    if t < s { FitsMonotone(c, pairs, t, s - 1); }
  }

  lemma {:induction false} WindowWithin(c: Config, pairs: seq<Pair>, e: nat, s: nat)
    requires e <= s && IsWindow(c, pairs, s)
    ensures IsWindow(c, pairs[e..], s - e)
  {
    FitsSuffix(c, pairs, e, s);
    if e < s { FitsSuffix(c, pairs, e, s - 1); }
  }

  lemma {:induction false} WindowOfSuffix(c: Config, pairs: seq<Pair>, e: nat)
    requires e <= WindowStart(c, pairs)
    ensures WindowStart(c, pairs[e..]) + e == WindowStart(c, pairs)
  {
    WindowWithin(c, pairs, e, WindowStart(c, pairs));
    WindowIsUnique(c, pairs[e..], WindowStart(c, pairs) - e, WindowStart(c, pairs[e..]));
  }

  // ----- Exactly once -----

  /** The revision that marks the first `start` pairs as covered. */
  function Mark(pairs: seq<Pair>, start: nat): nat
    requires start <= |pairs|
  {
    if start == 0 then 0 else pairs[start - 1].revision
  }

  lemma {:induction false} UncoveredSnoc(pairs: seq<Pair>, e: nat, t: nat, covered: nat)
    requires e < t <= |pairs|
    ensures Uncovered(pairs[e..t], covered) ==
            Uncovered(pairs[e..t - 1], covered) + if pairs[t - 1].revision > covered then [pairs[t - 1]] else []
  {
    assert Front(pairs[e..t]) == pairs[e..t - 1] && Last(pairs[e..t]) == pairs[t - 1];
  }

  lemma {:induction false} UncoveredIs(pairs: seq<Pair>, e: nat, s: nat, t: nat)
    requires Increasing(pairs) && e <= s <= t <= |pairs|
    requires forall k :: 0 <= k < |pairs| ==> pairs[k].revision >= 1
    ensures Uncovered(pairs[e..t], Mark(pairs, s)) == pairs[s..t]
    decreases t
  {
    if e < t {
      UncoveredSnoc(pairs, e, t, Mark(pairs, s));
      if s < t {
        UncoveredIs(pairs, e, s, t - 1);
        assert pairs[t - 1].revision > Mark(pairs, s);
        SliceSnoc(pairs, s, t);
      } else {
        NothingUncovered(pairs, e, t - 1, s);
        assert pairs[s..t] == [];
      }
    } else {
      assert pairs[e..t] == [] && pairs[s..t] == [];
    }
  }

  lemma {:induction false} SliceSnoc(pairs: seq<Pair>, s: nat, t: nat)
    requires s < t <= |pairs|
    ensures pairs[s..t] == pairs[s..t - 1] + [pairs[t - 1]]
  {
  }

  lemma {:induction false} CoveredIs(pairs: seq<Pair>, e: nat, s: nat, t: nat)
    requires Increasing(pairs) && e <= s <= t <= |pairs|
    requires forall k :: 0 <= k < |pairs| ==> pairs[k].revision >= 1
    ensures Covered(pairs[e..t], Mark(pairs, s)) == Mark(pairs, t) && Mark(pairs, s) <= Mark(pairs, t)
  {
    UncoveredIs(pairs, e, s, t);
    if s < t { assert Last(pairs[s..t]) == pairs[t - 1]; }
  }

  lemma {:induction false} NothingUncovered(pairs: seq<Pair>, e: nat, t: nat, s: nat)
    requires Increasing(pairs) && e <= t < s <= |pairs|
    ensures Uncovered(pairs[e..t], Mark(pairs, s)) == []
    decreases t
  {
    if e < t {
      UncoveredSnoc(pairs, e, t, Mark(pairs, s));
      NothingUncovered(pairs, e, t - 1, s);
    }
  }

  /** `told` are the pairs summarised so far: exactly those before the window, each once and in order. */
  ghost predicate Consistent(c: Config, identity: string, events: seq<Event>, state: MemoryState, told: seq<Pair>) {
    && Extract(identity, events).Extraction?
    && var pairs := Extract(identity, events).pairs;
       told == pairs[..WindowStart(c, pairs)] && state.covered == Mark(pairs, WindowStart(c, pairs))
  }

  /** The host hands over the transcript from event d on; no pair still uncovered may be cut off. */
  ghost predicate Retains(identity: string, events: seq<Event>, d: nat, covered: nat) {
    && d <= |events| && Extract(identity, events).Extraction?
    && var (x, y) := (Extract(identity, events), Extract(identity, events[d..]));
       y.Extraction? && forall k :: 0 <= k < |x.pairs| - |y.pairs| ==> x.pairs[k].revision <= covered
  }

  lemma {:induction false} Cuts(q: seq<Pair>, e: nat, s: nat, t: nat)
    requires e <= s <= t <= |q|
    ensures q[e..][..t - e] == q[e..t] && q[e..][t - e..] == q[t..]
    ensures q[..s] + q[s..t] == q[..t] && q[..t] + q[t..] == q
  {
  }

  /** Preparing q cut at e, when the pairs before s are covered, tells exactly q[s..t]. */
  lemma {:induction false} PreparesTheRest(c: Config, callback: Option<Callback>, q: seq<Pair>, e: nat, s: nat,
                                           state: MemoryState)
    requires Increasing(q) && forall k :: 0 <= k < |q| ==> q[k].revision >= 1
    requires e <= s <= WindowStart(c, q) && state.covered == Mark(q, s)
    ensures var (r, t) := (PreparedFrom(c, callback, q[e..], state), WindowStart(c, q));
            Flatten(r.log) == q[s..t] && r.window == q[t..] && r.state.covered == Mark(q, t) && Mark(q, s) <= Mark(q, t)
  {
    var t := WindowStart(c, q);
    WindowOfSuffix(c, q, e);
    Cuts(q, e, s, t);
    UncoveredIs(q, e, s, t);
    CoveredIs(q, e, s, t);
    BatchesFlatten(c, q[s..t]);
  }

  /** What is cut off is covered, so it lies before the old window. */
  lemma {:induction false} CutIsCovered(q: seq<Pair>, e: nat, s: nat)
    requires Increasing(q) && e <= |q| && s <= |q|
    requires forall k :: 0 <= k < |q| ==> q[k].revision >= 1
    requires forall k :: 0 <= k < e ==> q[k].revision <= Mark(q, s)
    ensures e <= s
  {
    assert s < e ==> q[s].revision <= Mark(q, s);
  }

  /** One more preparation of a grown transcript keeps the account exact: window and told pairs
      together are all completed pairs, nothing is told twice, and the covered revision does not fall. */
  lemma {:induction false} PreparationKeepsAccount(c: Config, callback: Option<Callback>, identity: string,
                                before: seq<Event>, after: seq<Event>, d: nat, state: MemoryState, told: seq<Pair>)
    requires before <= after && Consistent(c, identity, before, state, told)
    requires Retains(identity, after, d, state.covered)
    ensures var r := PreparedFrom(c, callback, Extract(identity, after[d..]).pairs, state);
            && Consistent(c, identity, after, r.state, told + Flatten(r.log))
            && told + Flatten(r.log) + r.window == Extract(identity, after).pairs
            && state.covered <= r.state.covered
  {
    var p, q := Extract(identity, before).pairs, Extract(identity, after).pairs;
    assert after[..|before|] == before;
    ExtractGrows(identity, after, |before|);
    ExtractIncreasing(identity, after);
    ExtractDrops(identity, after, d);
    var y := Extract(identity, after[d..]).pairs;
    assert y == q[|q| - |y|..];
    AccountOnPairs(c, callback, p, q, |q| - |y|, state);
  }

  lemma {:induction false} ExtractIncreasing(identity: string, events: seq<Event>)
    requires Extract(identity, events).Extraction?
    ensures var pairs := Extract(identity, events).pairs;
            Increasing(pairs) && forall k :: 0 <= k < |pairs| ==> pairs[k].revision >= 1
  {
    ExtractReflects(identity, events);
  }

  lemma {:induction false} AccountOnPairs(c: Config, callback: Option<Callback>, p: seq<Pair>, q: seq<Pair>, e: nat,
                                          state: MemoryState)
    requires p <= q && Increasing(q) && e <= |q| && forall k :: 0 <= k < |q| ==> q[k].revision >= 1
    requires state.covered == Mark(p, WindowStart(c, p))
    requires forall k :: 0 <= k < e ==> q[k].revision <= state.covered
    ensures var (r, t) := (PreparedFrom(c, callback, q[e..], state), WindowStart(c, q));
            && p[..WindowStart(c, p)] + Flatten(r.log) == q[..t] && q[..t] + r.window == q
            && r.state.covered == Mark(q, t) && state.covered <= r.state.covered
  {
    var s, t := WindowStart(c, p), WindowStart(c, q);
    WindowMoves(c, p, q);
    assert p[..s] == q[..s] && Mark(p, s) == Mark(q, s);
    CutIsCovered(q, e, s);
    PreparesTheRest(c, callback, q, e, s, state);
    Cuts(q, e, s, t);
  }

  /** A later call: new events, how much of the front is withheld, and the summariser of the day. */
  datatype Turn = Turn(more: seq<Event>, dropped: nat, callback: Option<Callback>)

  datatype Play = Play(events: seq<Event>, state: MemoryState, told: seq<Pair>, window: seq<Pair>)

  ghost function Next(c: Config, identity: string, g: Play, t: Turn): Play {
    var events := g.events + t.more;
    if t.dropped <= |events| && Extract(identity, events[t.dropped..]).Extraction? then
      var r := PreparedFrom(c, t.callback, Extract(identity, events[t.dropped..]).pairs, g.state);
      Play(events, r.state, g.told + Flatten(r.log), r.window)
    else g
  }

  ghost predicate Playable(c: Config, identity: string, g: Play, turns: seq<Turn>)
    decreases |turns|
  {
    turns == [] ||
    (Retains(identity, g.events + turns[0].more, turns[0].dropped, g.state.covered)
     && Playable(c, identity, Next(c, identity, g, turns[0]), turns[1..]))
  }

  ghost function PlayAll(c: Config, identity: string, g: Play, turns: seq<Turn>): Play
    decreases |turns|
  {
    if turns == [] then g else PlayAll(c, identity, Next(c, identity, g, turns[0]), turns[1..])
  }

  /** Over any sequence of preparations, every completed pair is in the window or was told, never both,
      and was told exactly once, in order; the covered revision never decreases. */
  lemma {:induction false} EveryPairExactlyOnce(c: Config, identity: string, g: Play, turns: seq<Turn>)
    requires Consistent(c, identity, g.events, g.state, g.told)
    requires g.told + g.window == Extract(identity, g.events).pairs
    requires Playable(c, identity, g, turns)
    ensures var h := PlayAll(c, identity, g, turns);
            && Consistent(c, identity, h.events, h.state, h.told)
            && h.told + h.window == Extract(identity, h.events).pairs
            && Increasing(h.told + h.window)
            && g.told <= h.told && g.state.covered <= h.state.covered
    decreases |turns|
  {
    if turns == [] {
      ExtractIncreasing(identity, g.events);
    } else {
      var t := turns[0];
      PreparationKeepsAccount(c, t.callback, identity, g.events, g.events + t.more, t.dropped, g.state, g.told);
      ExtractDrops(identity, g.events + t.more, t.dropped);
      EveryPairExactlyOnce(c, identity, Next(c, identity, g, t), turns[1..]);
    }
  }

  /** From an empty session on, whatever is said, withheld and summarised: told pairs and window are
      always exactly the completed pairs, in order and without repetition. */
  lemma {:induction false} SessionToldExactlyOnce(c: Config, identity: string, summary: Summary, turns: seq<Turn>)
    requires Playable(c, identity, Play([], MemoryState(0, summary), [], []), turns)
    ensures var h := PlayAll(c, identity, Play([], MemoryState(0, summary), [], []), turns);
            && Extract(identity, h.events).Extraction? && h.told + h.window == Extract(identity, h.events).pairs
            && Increasing(h.told + h.window)
            && h.state.covered == (if h.told == [] then 0 else Last(h.told).revision)
  {
    FreshAccount(c, identity, summary);
    EveryPairExactlyOnce(c, identity, Play([], MemoryState(0, summary), [], []), turns);
  }

  /** The first call of a session starts from a consistent account. */
  lemma {:induction false} FreshAccount(c: Config, identity: string, summary: Summary)
    ensures Consistent(c, identity, [], MemoryState(0, summary), [])
  {
  }
}

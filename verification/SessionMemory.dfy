/** Layered conversation memory: extracting completed pairs, the recent window, and batched summaries. */
module SessionMemory {
  import opened Base

  // ----- Transcripts -----

  datatype Message = Message(role: string, content: string)

  /** A message event carries its usable text, if it has any. */
  datatype Kind = UserMessage(text: Option<string>) | AssistantMessage(output: Option<string>) | Failed
      | Cancelled | Other

  datatype Event = Event(identity: string, sequence: nat, revision: nat, kind: Kind)

  datatype Pair = Pair(revision: nat, user: Message, assistant: Message)

  /** Where extraction stands: refused, or the open user message, the pairs, and the last numbers seen. */
  datatype Extraction = Refused | Extraction(pending: Option<Message>, pairs: seq<Pair>, sequence: nat, revision: nat)

  function ExtractStep(x: Extraction, identity: string, e: Event): Extraction {
    if x.Refused? || e.identity != identity || e.sequence <= x.sequence || e.revision <= x.revision then Refused
    else
      var y := x.(sequence := e.sequence, revision := e.revision);
      match e.kind
      case UserMessage(text) => y.(pending := if text.Some? then Some(Message("user", text.value)) else None)
      case AssistantMessage(output) =>
        if x.pending.Some? && output.Some? then
          y.(pending := None, pairs :=
            x.pairs + [Pair(e.revision, x.pending.value, Message("assistant", output.value))])
        else y.(pending := None)
      case Failed => y.(pending := None)
      case Cancelled => y.(pending := None)
      case Other => y
  }

  function Extract(identity: string, events: seq<Event>): Extraction {
    if events == [] then Extraction(None, [], 0, 0)
    else ExtractStep(Extract(identity, Front(events)), identity, Last(events))
  }

  lemma {:induction false} RefusalStays(identity: string, events: seq<Event>, k: nat)
    requires k <= |events| && Extract(identity, events[..k]).Refused?
    ensures Extract(identity, events).Refused?
  {
    if k < |events| {
      assert Front(events)[..k] == events[..k];
      RefusalStays(identity, Front(events), k);
    } else {
      assert events[..k] == events;
    }
  }

  method ExtractCompletedPairs(identity: string, events: seq<Event>) returns (pairs: Option<seq<Pair>>)
    ensures pairs == if Extract(identity, events).Refused? then None else Some(Extract(identity, events).pairs)
  {
    var found: seq<Pair> := [];
    var pending: Option<Message> := None;
    var lastSequence: nat, lastRevision: nat := 0, 0;
    for i := 0 to |events|
      invariant Extract(identity, events[..i]) == Extraction(pending, found, lastSequence, lastRevision)
    {
      FrontSnoc(events, i);
      var e := events[i];
      if e.identity != identity || e.sequence <= lastSequence || e.revision <= lastRevision {
        RefusalStays(identity, events, i + 1);
        return None;
      }
      lastSequence, lastRevision := e.sequence, e.revision;
      match e.kind {
        case Failed => pending := None;
        case Cancelled => pending := None;
        case UserMessage(text) =>
          pending := None;
          if text.Some? { pending := Some(Message("user", text.value)); }
        case AssistantMessage(output) =>
          if pending.Some? && output.Some? {
            found := found + [Pair(e.revision, pending.value, Message("assistant", output.value))];
          }
          pending := None;
        case Other =>
      }
    }
    assert events[..|events|] == events;
    return Some(found);
  }

  // ----- Configuration and text -----

  type Callback = (string, seq<Message>) -> Option<string>

  /** Limits, and the encoded size of a pair. */
  datatype Config = Config(maxPairs: nat, maxBytes: nat, maxChars: nat, maxInput: nat, size: Pair -> nat)

  function Bytes(c: Config, pairs: seq<Pair>): nat {
    if pairs == [] then 0 else Bytes(c, Front(pairs)) + c.size(Last(pairs))
  }

  function Messages(pairs: seq<Pair>): seq<Message> {
    if pairs == [] then [] else Messages(Front(pairs)) + [Last(pairs).user, Last(pairs).assistant]
  }

  function Take(s: string, n: nat): (r: string)
    ensures |r| <= n
  {
    if |s| <= n then s else s[..n]
  }

  function TakeLast(s: string, n: nat): string {
    if |s| <= n then s else s[|s| - n..]
  }

  const MARKER := "[Degraded structured excerpt; not a semantic summary]\n"

  function Pieces(c: Config, previous: string, messages: seq<Message>): string {
    if messages == [] then TakeLast(previous, c.maxChars)
    else
      Pieces(c, previous, Front(messages)) + "\n" + Last(messages).role + ": "
      + Take(Last(messages).content, c.maxChars)
  }

  function Excerpt(c: Config, previous: string, messages: seq<Message>): (r: string)
    ensures |r| <= c.maxChars
  {
    var room: nat := if c.maxChars > |MARKER| then c.maxChars - |MARKER| else 0;
    Take(MARKER + (if room > 0 then TakeLast(Pieces(c, previous, messages), room) else ""), c.maxChars)
  }

  // ----- The window -----

  predicate FitsWindow(c: Config, pairs: seq<Pair>, start: nat)
    requires start <= |pairs|
  {
    |pairs| - start <= c.maxPairs && Bytes(c, pairs[start..]) <= c.maxBytes
  }

  /** The longest recent suffix within both limits begins here. */
  ghost predicate IsWindow(c: Config, pairs: seq<Pair>, start: nat) {
    start <= |pairs| && FitsWindow(c, pairs, start) && (start > 0 ==> !FitsWindow(c, pairs, start - 1))
  }

  lemma {:induction false} BytesConcat(c: Config, a: seq<Pair>, b: seq<Pair>)
    ensures Bytes(c, a + b) == Bytes(c, a) + Bytes(c, b)
  {
    if b == [] {
      assert a + b == a;
    } else {
      assert Front(a + b) == a + Front(b);
      BytesConcat(c, a, Front(b));
    }
  }

  lemma {:induction false} BytesFrom(c: Config, pairs: seq<Pair>, i: nat)
    requires i < |pairs|
    ensures Bytes(c, pairs[i..]) == c.size(pairs[i]) + Bytes(c, pairs[i + 1..])
  {
    assert pairs[i..] == [pairs[i]] + pairs[i + 1..];
    BytesConcat(c, [pairs[i]], pairs[i + 1..]);
    var one := [pairs[i]];
    assert Front(one) == [] && Bytes(c, one) == c.size(pairs[i]);
  }

  function WindowFrom(c: Config, pairs: seq<Pair>, k: nat): (start: nat)
    requires k <= |pairs| && FitsWindow(c, pairs, k)
    ensures IsWindow(c, pairs, start)
  {
    if k > 0 && FitsWindow(c, pairs, k - 1) then WindowFrom(c, pairs, k - 1) else k
  }

  function WindowStart(c: Config, pairs: seq<Pair>): (start: nat)
    ensures IsWindow(c, pairs, start)
  {
    WindowFrom(c, pairs, |pairs|)
  }

  method FindWindow(c: Config, pairs: seq<Pair>) returns (start: nat)
    ensures start == WindowStart(c, pairs)
  {
    var used: nat := 0;
    start := |pairs|;
    while start > 0
      invariant start <= |pairs| && used == Bytes(c, pairs[start..]) && FitsWindow(c, pairs, start)
      invariant WindowStart(c, pairs) == WindowFrom(c, pairs, start)
    {
      BytesFrom(c, pairs, start - 1);
      var size := c.size(pairs[start - 1]);
      if |pairs| - start >= c.maxPairs || used + size > c.maxBytes { break; }
      start := start - 1;
      used := used + size;
    }
  }

  // ----- Summaries -----

  datatype Batch = Batch(pairs: seq<Pair>, oversized: bool)

  /** Batches already summarised, and the pairs of the batch being filled. */
  datatype Grouping = Grouping(closed: seq<Batch>, open: seq<Pair>)

  function Flush(g: Grouping): Grouping {
    if g.open == [] then g else Grouping(g.closed + [Batch(g.open, false)], [])
  }

  function Room(c: Config, g: Grouping, p: Pair): Grouping {
    if Bytes(c, g.open) + c.size(p) > c.maxInput then Flush(g) else g
  }

  function GroupStep(c: Config, g: Grouping, p: Pair): Grouping {
    var h := Room(c, g, p);
    if c.size(p) > c.maxInput then h.(closed := h.closed + [Batch([p], true)]) else h.(open := h.open + [p])
  }

  function Group(c: Config, pairs: seq<Pair>): Grouping {
    if pairs == [] then Grouping([], []) else GroupStep(c, Group(c, Front(pairs)), Last(pairs))
  }

  /** The batches a list of pairs is summarised in. */
  function Batches(c: Config, pairs: seq<Pair>): seq<Batch> { Flush(Group(c, pairs)).closed }

  datatype Summary = Summary(text: string, degraded: bool)

  function Summarize(c: Config, callback: Option<Callback>, s: Summary, b: Batch): Summary {
    var answer := if callback.Some? && !b.oversized then callback.value(s.text, Messages(b.pairs)) else None;
    if answer.Some? then Summary(Take(answer.value, c.maxChars), s.degraded || |answer.value| > c.maxChars)
    else Summary(Excerpt(c, s.text, Messages(b.pairs)), true)
  }

  function SummarizeAll(c: Config, callback: Option<Callback>, s: Summary, batches: seq<Batch>): Summary {
    if batches == [] then s
    else Summarize(c, callback, SummarizeAll(c, callback, s, Front(batches)), Last(batches))
  }

  // ----- Preparation -----

  datatype MemoryState = MemoryState(covered: nat, summary: Summary)

  /** The context handed on, the new state, and the batches that were summarised. */
  datatype Prepared = Prepared(window: seq<Pair>, truncated: bool, state: MemoryState, log: seq<Batch>)

  function Uncovered(pairs: seq<Pair>, covered: nat): seq<Pair> {
    if pairs == [] then []
    else Uncovered(Front(pairs), covered) + if Last(pairs).revision > covered then [Last(pairs)] else []
  }

  function Covered(pairs: seq<Pair>, covered: nat): nat {
    if Uncovered(pairs, covered) == [] then covered else Last(Uncovered(pairs, covered)).revision
  }

  function Opening(c: Config, s: Summary): Summary {
    Summary(Take(s.text, c.maxChars), s.degraded || |s.text| > c.maxChars)
  }

  /** What preparation computes from the completed pairs. */
  function PreparedFrom(c: Config, callback: Option<Callback>, pairs: seq<Pair>, previous: MemoryState): Prepared {
    var start := WindowStart(c, pairs);
    var log := Batches(c, Uncovered(pairs[..start], previous.covered));
    var summary := SummarizeAll(c, callback, Opening(c, previous.summary), log);
    Prepared(pairs[start..], start > 0 || summary.text != "",
             MemoryState(Covered(pairs[..start], previous.covered), summary), log)
  }

  lemma {:induction false} SummarizeSnoc(c: Config, callback: Option<Callback>, s: Summary, batches: seq<Batch>,
                                         b: Batch)
    ensures SummarizeAll(c, callback, s, batches + [b]) ==
        Summarize(c, callback, SummarizeAll(c, callback, s, batches), b)
  {
    assert Front(batches + [b]) == batches;
  }

  lemma {:induction false} BytesSnoc(c: Config, pairs: seq<Pair>, p: Pair)
    ensures Bytes(c, pairs + [p]) == Bytes(c, pairs) + c.size(p)
  {
    assert Front(pairs + [p]) == pairs;
  }

  lemma {:induction false} NextUncovered(c: Config, older: seq<Pair>, i: nat, covered: nat)
    requires i < |older|
    ensures var (u, v) := (Uncovered(older[..i], covered), Uncovered(older[..i + 1], covered));
            if older[i].revision > covered
            then v == u + [older[i]] && Group(c, v) == GroupStep(c, Group(c, u), older[i])
            else v == u
  {
    FrontSnoc(older, i);
    var u := Uncovered(older[..i], covered);
    if older[i].revision > covered { assert Front(u + [older[i]]) == u; }
  }

  /** Summarises one batch and notes it. */
  method Tell(c: Config, callback: Option<Callback>, ghost first: Summary, log: seq<Batch>, summary: Summary,
              b: Batch)
    returns (log': seq<Batch>, summary': Summary)
    requires summary == SummarizeAll(c, callback, first, log)
    ensures log' == log + [b] && summary' == SummarizeAll(c, callback, first, log')
  {
    summary' := Summarize(c, callback, summary, b);
    SummarizeSnoc(c, callback, first, log, b);
    log' := log + [b];
  }

  /** Flushes the batch if the pair would overflow it. */
  method MakeRoom(c: Config, callback: Option<Callback>, ghost first: Summary, pair: Pair,
                  log: seq<Batch>, batch: seq<Pair>, batchBytes: nat, summary: Summary)
    returns (log': seq<Batch>, batch': seq<Pair>, batchBytes': nat, summary': Summary)
    requires batchBytes == Bytes(c, batch) && summary == SummarizeAll(c, callback, first, log)
    ensures Grouping(log', batch') == Room(c, Grouping(log, batch), pair)
    ensures batchBytes' == Bytes(c, batch') && summary' == SummarizeAll(c, callback, first, log')
  {
    log', batch', batchBytes', summary' := log, batch, batchBytes, summary;
    if batch != [] && batchBytes + c.size(pair) > c.maxInput {
      log', summary' := Tell(c, callback, first, log, summary, Batch(batch, false));
      batch', batchBytes' := [], 0;
    }
  }

  /** One uncovered pair: flush the batch if it would overflow, then add the pair or summarise it alone. */
  method Absorb(c: Config, callback: Option<Callback>, ghost first: Summary, pair: Pair,
                log: seq<Batch>, batch: seq<Pair>, batchBytes: nat, summary: Summary)
    returns (log': seq<Batch>, batch': seq<Pair>, batchBytes': nat, summary': Summary)
    requires batchBytes == Bytes(c, batch) && summary == SummarizeAll(c, callback, first, log)
    ensures Grouping(log', batch') == GroupStep(c, Grouping(log, batch), pair)
    ensures batchBytes' == Bytes(c, batch') && summary' == SummarizeAll(c, callback, first, log')
  {
    log', batch', batchBytes', summary' := MakeRoom(c, callback, first, pair, log, batch, batchBytes, summary);
    if c.size(pair) > c.maxInput {
      log', summary' := Tell(c, callback, first, log', summary', Batch([pair], true));
    } else {
      BytesSnoc(c, batch', pair);
      batch' := batch' + [pair];
      batchBytes' := batchBytes' + c.size(pair);
    }
  }

  /** The summarising loop over the pairs that left the window. */
  method SummarizeOlder(c: Config, callback: Option<Callback>, older: seq<Pair>, previous: MemoryState)
    returns (state: MemoryState, log: seq<Batch>)
    ensures log == Batches(c, Uncovered(older, previous.covered))
    ensures state == MemoryState(Covered(older, previous.covered),
                                 SummarizeAll(c, callback, Opening(c, previous.summary), log))
  {
    var summary, covered := Opening(c, previous.summary), previous.covered;
    ghost var first := summary;
    var batch: seq<Pair>, batchBytes: nat := [], 0;
    log := [];
    for i := 0 to |older|
      invariant Group(c, Uncovered(older[..i], previous.covered)) == Grouping(log, batch)
      invariant batchBytes == Bytes(c, batch) && summary == SummarizeAll(c, callback, first, log)
      invariant covered == Covered(older[..i], previous.covered)
    {
      NextUncovered(c, older, i, previous.covered);
      if older[i].revision > previous.covered {
        log, batch, batchBytes, summary := Absorb(c, callback, first, older[i], log, batch, batchBytes, summary);
        covered := older[i].revision;
      }
    }
    assert older[..|older|] == older;
    if batch != [] {
      log, summary := Tell(c, callback, first, log, summary, Batch(batch, false));
    }
    state := MemoryState(covered, summary);
  }

  method Prepare(c: Config, callback: Option<Callback>, identity: string, events: seq<Event>, previous: MemoryState)
    returns (result: Option<Prepared>)
    ensures result == if Extract(identity, events).Refused? then None
                      else Some(PreparedFrom(c, callback, Extract(identity, events).pairs, previous))
  {
    var extracted := ExtractCompletedPairs(identity, events);
    if extracted.None? { return None; }
    var pairs := extracted.value;
    var start := FindWindow(c, pairs);
    var state, log := SummarizeOlder(c, callback, pairs[..start], previous);
    return Some(Prepared(pairs[start..], start > 0 || state.summary.text != "", state, log));
  }
}

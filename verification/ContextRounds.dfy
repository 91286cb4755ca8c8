/** What a round is, and which tool results are shortened, read off the messages themselves. */
module ContextRounds {
  import opened Base
  import opened Context
  import opened ContextManager

  predicate PlainAnswer(x: Message) { x.role.Assistant? && x.calls == [] }

  ghost predicate NoUserBetween(messages: seq<Message>, j: int, n: nat)
    requires 0 <= j && n <= |messages|
  {
    forall k :: j < k < n ==> !messages[k].role.User?
  }

  /** A plain assistant answer stands before place n with no user message since. */
  ghost predicate AnsweredBefore(messages: seq<Message>, n: nat)
    requires n <= |messages|
  {
    exists j :: 0 <= j < n && PlainAnswer(messages[j]) && NoUserBetween(messages, j, n)
  }

  /** Message i begins a round: it is the first that is not a system message, or a user message that
      comes after an answer. */
  ghost predicate Opens(messages: seq<Message>, i: nat)
    requires i < |messages|
  {
    && !messages[i].role.System?
    && ((forall j :: 0 <= j < i ==> messages[j].role.System?)
        || (messages[i].role.User? && AnsweredBefore(messages, i)))
  }

  /** The places before n at which rounds begin. */
  ghost function Openings(messages: seq<Message>, n: nat): set<nat>
    requires n <= |messages|
  {
    set i: nat | i < n && Opens(messages, i)
  }

  /** A set of places that grows by at most the next one. */
  lemma {:induction false} CountNext(a: set<nat>, b: set<nat>, n: nat, hit: bool)
    requires n !in a && forall i: nat :: i in b <==> i in a || (hit && i == n)
    ensures |b| == |a| + if hit then 1 else 0
  {
    assert b == if hit then a + {n} else a;
  }

  lemma {:induction false} OpeningsNext(messages: seq<Message>, n: nat)
    requires n < |messages|
    ensures |Openings(messages, n + 1)| == |Openings(messages, n)| + if Opens(messages, n) then 1 else 0
  {
    CountNext(Openings(messages, n), Openings(messages, n + 1), n, Opens(messages, n));
  }

  lemma {:induction false} AnsweredEarlier(messages: seq<Message>, n: nat)
    requires n < |messages| && AnsweredBefore(messages, n + 1) && !PlainAnswer(messages[n])
    ensures AnsweredBefore(messages, n) && !messages[n].role.User?
  {
    var j :| 0 <= j < n + 1 && PlainAnswer(messages[j]) && NoUserBetween(messages, j, n + 1);
    assert j < n && NoUserBetween(messages, j, n);
  }

  lemma {:induction false} AnsweredNext(messages: seq<Message>, n: nat)
    requires n < |messages|
    ensures AnsweredBefore(messages, n + 1) <==>
            PlainAnswer(messages[n]) || (AnsweredBefore(messages, n) && !messages[n].role.User?)
  {
    if PlainAnswer(messages[n]) {
      assert NoUserBetween(messages, n, n + 1);
    } else if AnsweredBefore(messages, n) && !messages[n].role.User? {
      var j :| 0 <= j < n && PlainAnswer(messages[j]) && NoUserBetween(messages, j, n);
      assert NoUserBetween(messages, j, n + 1);
    } else if AnsweredBefore(messages, n + 1) {
      AnsweredEarlier(messages, n);
    }
  }

  ghost predicate OnlySystem(messages: seq<Message>, n: nat)
    requires n <= |messages|
  {
    forall j :: 0 <= j < n ==> messages[j].role.System?
  }

  /** The scan counts the rounds begun so far and knows whether the latest is answered. */
  lemma {:induction false} ScanCounts(messages: seq<Message>, n: nat)
    requires n <= |messages|
    ensures var c := Scan(messages[..n]);
            && c.rounds == |Openings(messages, n)| && (c.rounds == 0 <==> OnlySystem(messages, n))
            && (c.answered <==> AnsweredBefore(messages, n))
  {
    if n == 0 {
      assert Openings(messages, 0) == {};
    } else {
      ScanCounts(messages, n - 1);
      FrontSnoc(messages, n - 1);
      OpeningsNext(messages, n - 1);
      AnsweredNext(messages, n - 1);
      StepCounts(messages, n - 1);
    }
  }

  lemma {:induction false} StepCounts(messages: seq<Message>, n: nat)
    requires n < |messages|
    requires var c := Scan(messages[..n]);
             (c.rounds == 0 <==> OnlySystem(messages, n)) && (c.answered <==> AnsweredBefore(messages, n))
    ensures var (c, d) := (Scan(messages[..n]), Scan(messages[..n + 1]));
            && d.rounds == c.rounds + (if Opens(messages, n) then 1 else 0)
            && (d.rounds == 0 <==> OnlySystem(messages, n + 1))
            && (d.answered <==>
                  PlainAnswer(messages[n]) || (AnsweredBefore(messages, n) && !messages[n].role.User?))
  {
    FrontSnoc(messages, n);
    if OnlySystem(messages, n) {
      NobodyAnswered(messages, n);
    }
  }

  lemma {:induction false} NobodyAnswered(messages: seq<Message>, n: nat)
    requires n <= |messages| && OnlySystem(messages, n)
    ensures !AnsweredBefore(messages, n)
  {
    forall j | 0 <= j < n ensures !PlainAnswer(messages[j]) {
      assert messages[j].role.System?;
    }
  }

  /** What stays when the k oldest rounds go: system messages, and messages after the k-th round's end. */
  ghost predicate Stays(messages: seq<Message>, j: nat, k: nat)
    requires j < |messages|
  {
    messages[j].role.System? || |Openings(messages, j + 1)| > k
  }

  lemma {:induction false} SelectedStay(messages: seq<Message>, k: nat, at: seq<nat>)
    requires Selects(at, messages, k)
    ensures forall j: nat :: j < |messages| ==> (j in at <==> Stays(messages, j, k))
  {
    forall j: nat | j < |messages| ensures j in at <==> Stays(messages, j, k) {
      ScanCounts(messages, j + 1);
    }
  }

  lemma {:induction false} AllButLast(messages: seq<Message>)
    ensures var rounds := |Openings(messages, |messages|)|; Droppable(messages) == if rounds == 0 then 0 else rounds - 1
  {
    ScanCounts(messages, |messages|);
    assert messages[..|messages|] == messages;
  }

  /** A prepared request holds, in their order, exactly the messages outside the oldest rounds removed,
      where rounds begin as `Opens` says, and the last round is never removed. */
  lemma {:induction false} RemovesWholeRounds(m: Manager, r: Request, window: int) returns (at: seq<nat>)
    requires Prepare(m, r, window).Prepared?
    ensures forall i, j :: 0 <= i < j < |at| ==> at[i] < at[j]
    ensures forall i :: 0 <= i < |at| ==> at[i] < |r.messages|
    ensures forall j: nat :: j < |r.messages| ==>
              (j in at <==> Stays(r.messages, j, Prepare(m, r, window).removedRounds))
    ensures SameButToolText(Prepare(m, r, window).request.messages, Picked(r.messages, at))
    ensures var rounds := |Openings(r.messages, |r.messages|)|;
            rounds > 0 ==> Prepare(m, r, window).removedRounds < rounds
  {
    PreparedIsSound(m, r, window);
    var p := Prepare(m, r, window);
    at :| Selects(at, r.messages, p.removedRounds) && SameButToolText(p.request.messages, Picked(r.messages, at));
    SelectedStay(r.messages, p.removedRounds, at);
    AllButLast(r.messages);
  }

  // ----- Shortened tool results -----

  /** The text parts of a message. */
  function Texts(content: seq<Part>): seq<string> {
    if content == [] then [] else (if content[0].Text? then [content[0].text] else []) + Texts(content[1..])
  }

  function Lined(lines: seq<string>): string {
    if lines == [] then "" else if |lines| == 1 then lines[0] else lines[0] + "\n" + Lined(lines[1..])
  }

  lemma {:induction false} TextsSnoc(content: seq<Part>, x: Part)
    ensures Texts(content + [x]) == Texts(content) + if x.Text? then [x.text] else []
    decreases |content|
  {
    if content == [] {
      assert ([] + [x])[1..] == [];
    } else {
      TextsSnoc(content[1..], x);
      assert (content + [x])[1..] == content[1..] + [x];
    }
  }

  lemma {:induction false} LinedSnoc(lines: seq<string>, x: string)
    ensures Lined(lines + [x]) == if lines == [] then x else Lined(lines) + "\n" + x
    decreases |lines|
  {
    if lines != [] {
      LinedSnoc(lines[1..], x);
      assert (lines + [x])[1..] == lines[1..] + [x];
    }
  }

  lemma {:induction false} NoTexts(content: seq<Part>)
    ensures Texts(content) == [] <==> forall i :: 0 <= i < |content| ==> !content[i].Text?
    decreases |content|
  {
    if content != [] {
      NoTexts(content[1..]);
      assert forall i :: 0 < i < |content| ==> content[i] == content[1..][i - 1];
    }
  }

  /** The text of a message is its text parts, one line after another. */
  lemma {:induction false} RawTextIsLined(content: seq<Part>)
    ensures RawText(content) == Lined(Texts(content))
  {
    if content != [] {
      var (f, x) := (Front(content), Last(content));
      assert content == f + [x];
      RawTextIsLined(f);
      TextsSnoc(f, x);
      NoTexts(f);
      assert forall i :: 0 <= i < |f| ==> f[i] == content[i];
      if x.Text? {
        LinedSnoc(Texts(f), x.text);
      } else {
        assert Texts(content) == Texts(f);
      }
    }
  }

  /** A tool result whose text takes more than the limit is replaced by its compacted text; nothing
      else changes. */
  ghost predicate Shortens(m: Manager, x: Message, limit: int, y: Message) {
    var text := Lined(Texts(x.content));
    y == if x.role.Tool? && m.tokens(text) > limit then x.(content := [Text(m.compact(text, limit))]) else x
  }

  ghost predicate Long(m: Manager, x: Message, limit: int) {
    x.role.Tool? && m.tokens(Lined(Texts(x.content))) > limit
  }

  ghost function LongResults(m: Manager, messages: seq<Message>, limit: int): set<nat> {
    set i: nat | i < |messages| && Long(m, messages[i], limit)
  }

  ghost function ToolResults(messages: seq<Message>): set<nat> {
    set i: nat | i < |messages| && messages[i].role.Tool?
  }

  lemma {:induction false} LongNext(m: Manager, messages: seq<Message>, limit: int)
    requires messages != []
    ensures |LongResults(m, messages, limit)| ==
            |LongResults(m, Front(messages), limit)| + if Long(m, Last(messages), limit) then 1 else 0
  {
    var (f, n) := (Front(messages), |messages| - 1);
    assert forall i: nat :: i < n ==> messages[i] == f[i];
    CountNext(LongResults(m, f, limit), LongResults(m, messages, limit), n, Long(m, messages[n], limit));
  }

  lemma {:induction false} ToolsNext(messages: seq<Message>)
    requires messages != []
    ensures |ToolResults(messages)| == |ToolResults(Front(messages))| + if Last(messages).role.Tool? then 1 else 0
  {
    var (f, n) := (Front(messages), |messages| - 1);
    assert forall i: nat :: i < n ==> messages[i] == f[i];
    CountNext(ToolResults(f), ToolResults(messages), n, messages[n].role.Tool?);
  }

  lemma {:induction false} TrimsExactly(m: Manager, messages: seq<Message>, limit: int)
    ensures forall i :: 0 <= i < |messages| ==> Shortens(m, messages[i], limit, Trim(m, messages, limit)[i])
    ensures TrimCount(m, messages, limit) == |LongResults(m, messages, limit)|
    ensures ToolCount(messages) == |ToolResults(messages)|
  {
    if messages != [] {
      TrimsExactly(m, Front(messages), limit);
      RawTextIsLined(Last(messages).content);
      LongNext(m, messages, limit);
      ToolsNext(messages);
    }
  }

  /** What one tool result may take: an even share of half the budget, between 64 and 2048. */
  ghost function ShareOf(tools: nat, budget: int): int {
    var share := budget / if tools <= 2 then 4 else 2 * tools;
    if share < 64 then 64 else if share > 2048 then 2048 else share
  }

  lemma {:induction false} LimitIsShare(messages: seq<Message>, budget: int)
    requires ToolCount(messages) == |ToolResults(messages)|
    ensures PerTool(messages, budget) == ShareOf(|ToolResults(messages)|, budget)
  {
  }

  ghost predicate ShortenedTo(m: Manager, messages: seq<Message>, limit: int, trimmed: seq<Message>) {
    |trimmed| == |messages| && forall i :: 0 <= i < |trimmed| ==> Shortens(m, messages[i], limit, trimmed[i])
  }

  lemma {:induction false} TrimmedFirst(m: Manager, r: Request, window: int)
    requires Prepare(m, r, window).Prepared?
    ensures var (p, limit) := (Prepare(m, r, window), PerTool(r.messages, Budget(r, window)));
            if Estimate(m, r) <= Budget(r, window) then p.request == r && p.truncatedTools == 0 && p.removedRounds == 0
            else && p.request.messages == Kept(Trim(m, r.messages, limit), p.removedRounds)
                 && p.truncatedTools == TrimCount(m, r.messages, limit)
  {
  }

  /** A request that fits is handed on as it is. Otherwise exactly the tool results above their share
      are shortened, before any round goes. */
  lemma {:induction false} ShortensExactly(m: Manager, r: Request, window: int)
    returns (trimmed: seq<Message>, limit: int)
    requires Prepare(m, r, window).Prepared?
    ensures limit == ShareOf(|ToolResults(r.messages)|, window - if r.maxOutput == 0 then 4096 else r.maxOutput)
    ensures ShortenedTo(m, r.messages, limit, trimmed)
    ensures var p := Prepare(m, r, window);
            if Estimate(m, r) <= window - (if r.maxOutput == 0 then 4096 else r.maxOutput)
            then p.request == r && p.truncatedTools == 0 && p.removedRounds == 0
            else && p.request.messages == Kept(trimmed, p.removedRounds)
                 && p.truncatedTools == |LongResults(m, r.messages, limit)|
  {
    limit := PerTool(r.messages, Budget(r, window));
    trimmed := Trim(m, r.messages, limit);
    TrimsExactly(m, r.messages, limit);
    LimitIsShare(r.messages, Budget(r, window));
    TrimmedFirst(m, r, window);
  }

  /** Removing fewer rounds than were removed would not have fitted; what is handed on does. */
  lemma {:induction false} FewestRoundsGo(m: Manager, r: Request, window: int, k: nat)
    returns (trimmed: seq<Message>, limit: int)
    requires Prepare(m, r, window).Prepared?
    ensures limit == ShareOf(|ToolResults(r.messages)|, window - if r.maxOutput == 0 then 4096 else r.maxOutput)
    ensures ShortenedTo(m, r.messages, limit, trimmed)
    ensures var (p, budget) := (Prepare(m, r, window), window - if r.maxOutput == 0 then 4096 else r.maxOutput);
            && p.estimate == Estimate(m, p.request) <= budget
            && (k < p.removedRounds ==> Estimate(m, r.(messages := Kept(trimmed, k))) > budget)
  {
    limit := PerTool(r.messages, Budget(r, window));
    trimmed := Trim(m, r.messages, limit);
    TrimsExactly(m, r.messages, limit);
    LimitIsShare(r.messages, Budget(r, window));
    FewerDoNotFit(m, r, window, k);
  }

  lemma {:induction false} FewerDoNotFit(m: Manager, r: Request, window: int, k: nat)
    requires Prepare(m, r, window).Prepared?
    ensures var (p, budget) := (Prepare(m, r, window), Budget(r, window));
            var trimmed := Trim(m, r.messages, PerTool(r.messages, budget));
            && p.estimate == Estimate(m, p.request) <= budget
            && (k < p.removedRounds ==> Estimate(m, r.(messages := Kept(trimmed, k))) > budget)
  {
    var budget := Budget(r, window);
    if Estimate(m, r) > budget {
      var trimmed := Trim(m, r.messages, PerTool(r.messages, budget));
      var n := Fewest(m, r, trimmed, 0, budget);
      assert k < n ==> !Fits(m, r, trimmed, k, budget);
    }
  }

  lemma {:induction false} TrimKeepsCount(m: Manager, messages: seq<Message>, limit: int)
    ensures Droppable(Trim(m, messages, limit)) == Droppable(messages)
  {
    TrimKeepsStructure(m, messages, limit);
  }

  /** Preparation runs out of room exactly when the transcript is matched, the request does not fit as it
      is, and neither does its last round alone with the tool results shortened. */
  lemma {:induction false} CapacityExactly(m: Manager, r: Request, window: int) returns (trimmed: seq<Message>)
    ensures var budget := window - if r.maxOutput == 0 then 4096 else r.maxOutput;
            var rounds := |Openings(r.messages, |r.messages|)|;
            && ShortenedTo(m, r.messages, ShareOf(|ToolResults(r.messages)|, budget), trimmed)
            && (Prepare(m, r, window).CapacityError? <==>
                  && WellPaired(r.messages) && Estimate(m, r) > budget
                  && Estimate(m, r.(messages := Kept(trimmed, if rounds == 0 then 0 else rounds - 1))) > budget)
  {
    var budget := Budget(r, window);
    var limit := PerTool(r.messages, budget);
    trimmed := Trim(m, r.messages, limit);
    TrimsExactly(m, r.messages, limit);
    LimitIsShare(r.messages, budget);
    TrimKeepsCount(m, r.messages, limit);
    AllButLast(r.messages);
    FailureIsExact(m, r, window);
  }

  // ----- The estimate, by kind of content instead of by message -----

  function PartTexts(m: Manager, ps: seq<Part>): nat {
    if ps == [] then 0 else PartTexts(m, Front(ps)) + if Last(ps).Text? then m.tokens(Last(ps).text) else 0
  }

  function Media(ps: seq<Part>): nat {
    if ps == [] then 0 else Media(Front(ps)) + if Last(ps).Text? then 0 else 1
  }

  function DocumentBytes(ps: seq<Part>): nat {
    if ps == [] then 0 else DocumentBytes(Front(ps)) + if Last(ps).Document? then Last(ps).size else 0
  }

  function AllParts(messages: seq<Message>): seq<Part> {
    if messages == [] then [] else AllParts(Front(messages)) + Last(messages).content
  }

  function NameTokens(m: Manager, messages: seq<Message>): nat {
    if messages == [] then 0
    else NameTokens(m, Front(messages)) + m.tokens(if Last(messages).name.None? then "" else Last(messages).name.value)
  }

  function IdTokens(m: Manager, messages: seq<Message>): nat {
    if messages == [] then 0
    else IdTokens(m, Front(messages))
         + m.tokens(if Last(messages).toolCallId.None? then "" else Last(messages).toolCallId.value)
  }

  function CallTokens(m: Manager, messages: seq<Message>): nat {
    if messages == [] then 0
    else CallTokens(m, Front(messages))
         + if Last(messages).calls == [] then 0 else m.tokens(m.callsJson(Last(messages).calls))
  }

  lemma {:induction false} PartsByKind(m: Manager, ps: seq<Part>)
    ensures PartsCost(m, ps) == PartTexts(m, ps) + m.imageTokens * Media(ps) + DocumentBytes(ps)
  {
    if ps != [] {
      PartsByKind(m, Front(ps));
      Distributes(m.imageTokens, Media(Front(ps)));
    }
  }

  lemma {:induction false} Distributes(a: nat, n: nat)
    ensures a * (n + 1) == a * n + a
  {
  }

  lemma {:induction false} PartsAdd(m: Manager, a: seq<Part>, b: seq<Part>)
    ensures PartsCost(m, a + b) == PartsCost(m, a) + PartsCost(m, b)
  {
    if b == [] {
      assert a + b == a;
    } else {
      assert Front(a + b) == a + Front(b) && Last(a + b) == Last(b);
      PartsAdd(m, a, Front(b));
    }
  }

  lemma {:induction false} CostByKind(m: Manager, messages: seq<Message>)
    ensures Cost(m, messages) == 16 * |messages| + NameTokens(m, messages) + IdTokens(m, messages)
                                 + CallTokens(m, messages) + PartsCost(m, AllParts(messages))
  {
    if messages != [] {
      CostByKind(m, Front(messages));
      PartsAdd(m, AllParts(Front(messages)), Last(messages).content);
    }
  }

  /** The estimate is a fixed share per request and per message, plus every name, result id, call list,
      text, attachment and document of the transcript, each once. */
  lemma {:induction false} EstimateByKind(m: Manager, r: Request)
    ensures var parts := AllParts(r.messages);
            Estimate(m, r) ==
            32 + m.tokens(r.toolsJson) + (if r.schemaJson.None? then 0 else m.tokens(r.schemaJson.value))
            + 16 * |r.messages| + NameTokens(m, r.messages) + IdTokens(m, r.messages) + CallTokens(m, r.messages)
            + PartTexts(m, parts) + m.imageTokens * Media(parts) + DocumentBytes(parts)
  {
    CostByKind(m, r.messages);
    PartsByKind(m, AllParts(r.messages));
  }
}

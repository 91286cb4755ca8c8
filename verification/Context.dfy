/** Bounded model context: estimating, checking call/result pairing, and dropping the oldest rounds. */
module Context {
  import opened Base

  datatype Role = System | User | Assistant | Tool

  datatype Part = Text(text: string) | Image | Document(size: nat)

  datatype Call = Call(id: string, payload: string)

  datatype Message = Message(
    role: Role, content: seq<Part>, calls: seq<Call>, toolCallId: Option<string>, name: Option<string>)

  /** Tool declarations and the response schema enter as their JSON text. */
  datatype Request = Request(messages: seq<Message>, toolsJson: string, schemaJson: Option<string>, maxOutput: nat)

  /** The injected estimator, and the foreign text operations: serialising calls and compacting a result. */
  datatype Manager = Manager(
    tokens: string -> nat, callsJson: seq<Call> -> string, compact: (string, int) -> string, imageTokens: nat)

  datatype Outcome =
    | PairingError
    | CapacityError
    | Prepared(request: Request, estimate: nat, removedRounds: nat, truncatedTools: nat)

  // ----- Estimating -----

  function OrEmpty(s: Option<string>): string { if s.Some? then s.value else "" }

  function PartCost(m: Manager, p: Part): nat {
    match p
    case Text(t) => m.tokens(t)
    case Image => m.imageTokens
    case Document(n) => m.imageTokens + n
  }

  function PartsCost(m: Manager, ps: seq<Part>): nat {
    if ps == [] then 0 else PartsCost(m, Front(ps)) + PartCost(m, Last(ps))
  }

  function MessageCost(m: Manager, x: Message): nat {
    16 + m.tokens(OrEmpty(x.name)) + m.tokens(OrEmpty(x.toolCallId)) + PartsCost(m, x.content)
    + if x.calls != [] then m.tokens(m.callsJson(x.calls)) else 0
  }

  function Cost(m: Manager, messages: seq<Message>): nat {
    if messages == [] then 0 else Cost(m, Front(messages)) + MessageCost(m, Last(messages))
  }

  function Overhead(m: Manager, r: Request): nat {
    32 + m.tokens(r.toolsJson) + if r.schemaJson.Some? then m.tokens(r.schemaJson.value) else 0
  }

  function Estimate(m: Manager, r: Request): nat { Overhead(m, r) + Cost(m, r.messages) }

  method ComputeEstimate(m: Manager, r: Request) returns (total: nat)
    ensures total == Estimate(m, r)
  {
    total := 32;
    total := total + m.tokens(r.toolsJson);
    if r.schemaJson.Some? {
      total := total + m.tokens(r.schemaJson.value);
    }
    for i := 0 to |r.messages|
      invariant total == Overhead(m, r) + Cost(m, r.messages[..i])
    {
      FrontSnoc(r.messages, i);
      var x := r.messages[i];
      ghost var before := total;
      total := total + 16 + m.tokens(OrEmpty(x.name));
      total := total + m.tokens(OrEmpty(x.toolCallId));
      ghost var base := total;
      for j := 0 to |x.content|
        invariant total == base + PartsCost(m, x.content[..j])
      {
        FrontSnoc(x.content, j);
        match x.content[j] {
          case Text(t) => total := total + m.tokens(t);
          case Image => total := total + m.imageTokens;
          case Document(n) => total := total + m.imageTokens + n;
        }
      }
      assert x.content[..|x.content|] == x.content;
      if x.calls != [] {
        total := total + m.tokens(m.callsJson(x.calls));
      }
    }
    assert r.messages[..|r.messages|] == r.messages;
  }

  // ----- Pairing calls with results -----

  datatype Pairing = Broken | Pairing(pending: set<string>, used: set<string>)

  const NOTHING: Pairing := Pairing({}, {})

  function AddCalls(p: Pairing, calls: seq<Call>): Pairing {
    if calls == [] || p.Broken? then p
    else
      var q := AddCalls(p, Front(calls));
      var id := Last(calls).id;
      if q.Broken? || id in q.used then Broken else Pairing(q.pending + {id}, q.used + {id})
  }

  function PairStep(p: Pairing, x: Message): Pairing {
    if p.Broken? || x.role.System? then p
    else if x.role.Tool? then
      if x.toolCallId.None? || x.toolCallId.value !in p.pending then Broken
      else p.(pending := p.pending - {x.toolCallId.value})
    else if p.pending != {} then Broken
    else AddCalls(p, x.calls)
  }

  function Pair(messages: seq<Message>): Pairing {
    if messages == [] then NOTHING else PairStep(Pair(Front(messages)), Last(messages))
  }

  predicate WellPaired(messages: seq<Message>) {
    Pair(messages).Pairing? && Pair(messages).pending == {}
  }

  lemma {:induction false} BrokenStays(messages: seq<Message>, k: nat)
    requires k <= |messages| && Pair(messages[..k]).Broken?
    ensures Pair(messages).Broken?
  {
    if k < |messages| {
      assert Front(messages)[..k] == messages[..k];
      BrokenStays(Front(messages), k);
    } else {
      assert messages[..k] == messages;
    }
  }

  lemma {:induction false} BadCallStays(p: Pairing, calls: seq<Call>, k: nat)
    requires k <= |calls| && AddCalls(p, calls[..k]).Broken?
    ensures AddCalls(p, calls).Broken?
  {
    if k < |calls| {
      assert Front(calls)[..k] == calls[..k];
      BadCallStays(p, Front(calls), k);
    } else {
      assert calls[..k] == calls;
    }
  }

  method ValidatePairs(messages: seq<Message>) returns (ok: bool)
    ensures ok == WellPaired(messages)
  {
    var pending: set<string>, used: set<string> := {}, {};
    for i := 0 to |messages|
      invariant Pair(messages[..i]) == Pairing(pending, used)
    {
      FrontSnoc(messages, i);
      var x := messages[i];
      if Pair(messages[..i + 1]).Broken? { BrokenStays(messages, i + 1); }
      if x.role.System? { continue; }
      if x.role.Tool? {
        if x.toolCallId.None? || x.toolCallId.value !in pending { return false; }
        pending := pending - {x.toolCallId.value};
        continue;
      }
      if pending != {} { return false; }
      ghost var before := Pairing(pending, used);
      for j := 0 to |x.calls|
        invariant AddCalls(before, x.calls[..j]) == Pairing(pending, used)
      {
        FrontSnoc(x.calls, j);
        if x.calls[j].id in used {
          BadCallStays(before, x.calls, j + 1);
          return false;
        }
        used := used + {x.calls[j].id};
        pending := pending + {x.calls[j].id};
      }
      assert x.calls[..|x.calls|] == x.calls;
    }
    assert messages[..|messages|] == messages;
    return pending == {};
  }

  // ----- Trimming tool results -----

  function RawText(content: seq<Part>): string {
    if content == [] then ""
    else if !Last(content).Text? then RawText(Front(content))
    else if forall i :: 0 <= i < |content| - 1 ==> !content[i].Text? then Last(content).text
    else RawText(Front(content)) + "\n" + Last(content).text
  }

  predicate TooLong(m: Manager, x: Message, perTool: int) {
    x.role.Tool? && m.tokens(RawText(x.content)) > perTool
  }

  function TrimMessage(m: Manager, x: Message, perTool: int): Message {
    if TooLong(m, x, perTool) then x.(content := [Text(m.compact(RawText(x.content), perTool))]) else x
  }

  function Trim(m: Manager, messages: seq<Message>, perTool: int): (r: seq<Message>)
    ensures |r| == |messages|
  {
    if messages == [] then []
    else Trim(m, Front(messages), perTool) + [TrimMessage(m, Last(messages), perTool)]
  }

  function TrimCount(m: Manager, messages: seq<Message>, perTool: int): nat {
    if messages == [] then 0
    else TrimCount(m, Front(messages), perTool) + if TooLong(m, Last(messages), perTool) then 1 else 0
  }

  function ToolCount(messages: seq<Message>): nat {
    if messages == [] then 0 else ToolCount(Front(messages)) + if Last(messages).role.Tool? then 1 else 0
  }

  function PerTool(messages: seq<Message>, budget: int): int {
    Max(64, Min(2048, budget / Max(4, ToolCount(messages) * 2)))
  }

  // ----- Rounds -----

  /** Rounds opened so far, and whether the latest one has its plain assistant answer. */
  datatype Cursor = Cursor(rounds: nat, answered: bool)

  function CursorStep(c: Cursor, x: Message): Cursor {
    if x.role.System? then c
    else
      var opens := c.rounds == 0 || (x.role.User? && c.answered);
      Cursor(if opens then c.rounds + 1 else c.rounds,
             (x.role.Assistant? && x.calls == []) || (!opens && c.answered))
  }

  function Scan(messages: seq<Message>): Cursor {
    if messages == [] then Cursor(0, false) else CursorStep(Scan(Front(messages)), Last(messages))
  }

  /** All system messages, and the messages of all rounds but the k oldest. */
  function Kept(messages: seq<Message>, k: nat): seq<Message> {
    if messages == [] then []
    else Kept(Front(messages), k) +
         if Last(messages).role.System? || Scan(messages).rounds > k then [Last(messages)] else []
  }

  /** How many rounds may go: all but the last. */
  function Droppable(messages: seq<Message>): nat {
    if Scan(messages).rounds == 0 then 0 else Scan(messages).rounds - 1
  }

  predicate Fits(m: Manager, r: Request, messages: seq<Message>, k: nat, budget: int) {
    Estimate(m, r.(messages := Kept(messages, k))) <= budget
  }

  /** The least number of rounds, from k up, whose removal fits; the last round always stays. */
  function Fewest(m: Manager, r: Request, messages: seq<Message>, k: nat, budget: int): (n: nat)
    requires k <= Droppable(messages)
    ensures k <= n <= Droppable(messages)
    ensures forall j: nat :: k <= j < n ==> !Fits(m, r, messages, j, budget)
    ensures n < Droppable(messages) ==> Fits(m, r, messages, n, budget)
    decreases Droppable(messages) - k
  {
    if k == Droppable(messages) || Fits(m, r, messages, k, budget) then k
    else Fewest(m, r, messages, k + 1, budget)
  }

  function Budget(r: Request, window: int): int { window - if r.maxOutput == 0 then 4096 else r.maxOutput }

  /** Preparation, stated without its loops. */
  function Prepare(m: Manager, r: Request, window: int): Outcome {
    var budget := Budget(r, window);
    if !WellPaired(r.messages) then PairingError
    else if budget <= 0 then CapacityError
    else if Estimate(m, r) <= budget then Prepared(r, Estimate(m, r), 0, 0)
    else
      var perTool := PerTool(r.messages, budget);
      var trimmed := Trim(m, r.messages, perTool);
      var n := Fewest(m, r, trimmed, 0, budget);
      if !Fits(m, r, trimmed, n, budget) then CapacityError
      else
        var out := r.(messages := Kept(trimmed, n));
        Prepared(out, Estimate(m, out), n, TrimCount(m, r.messages, perTool))
  }
}

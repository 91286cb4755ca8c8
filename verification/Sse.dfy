/** Server-sent events: the batch parser and the byte-at-a-time decoder, and what each computes. */
module Sse {
  import opened Base

  type Byte = b: int | 0 <= b < 256
  type Bytes = seq<Byte>

  const LF: Byte := 10
  const CR: Byte := 13

  // ----- UTF-8 well-formedness (table 3-7 of the Unicode Standard) -----

  /** Bad, or the number of continuation bytes still due and the range of the next one. */
  datatype Utf8 = Bad | Due(n: nat, lo: int, hi: int)

  const START: Utf8 := Due(0, 0, 0)

  function Utf8Step(st: Utf8, b: Byte): Utf8 {
    if st.Bad? then Bad
    else if st.n == 0 then
      if b < 0x80 then START
      else if 0xC2 <= b <= 0xDF then Due(1, 0x80, 0xBF)
      else if b == 0xE0 then Due(2, 0xA0, 0xBF)
      else if b == 0xED then Due(2, 0x80, 0x9F)
      else if 0xE1 <= b <= 0xEF then Due(2, 0x80, 0xBF)
      else if b == 0xF0 then Due(3, 0x90, 0xBF)
      else if 0xF1 <= b <= 0xF3 then Due(3, 0x80, 0xBF)
      else if b == 0xF4 then Due(3, 0x80, 0x8F)
      else Bad
    else if st.lo <= b <= st.hi then (if st.n == 1 then START else Due(st.n - 1, 0x80, 0xBF))
    else Bad
  }

  function Utf8Run(s: Bytes): Utf8 {
    if s == [] then START else Utf8Step(Utf8Run(Front(s)), Last(s))
  }

  predicate Valid(s: Bytes) {
    Utf8Run(s) == START
  }

  // ----- Lines -----

  function ReplaceCrLf(s: Bytes): Bytes {
    if s == [] then []
    else if |s| >= 2 && s[|s| - 2] == CR && Last(s) == LF then ReplaceCrLf(s[..|s| - 2]) + [LF]
    else ReplaceCrLf(Front(s)) + [Last(s)]
  }

  function ReplaceCr(s: Bytes): Bytes {
    if s == [] then [] else ReplaceCr(Front(s)) + [if Last(s) == CR then LF else Last(s)]
  }

  function Split(s: Bytes): (lines: seq<Bytes>)
    ensures lines != []
  {
    if s == [] then [[]]
    else
      var r := Split(Front(s));
      if Last(s) == LF then r + [[]] else Front(r) + [Last(r) + [Last(s)]]
  }

  function Unify(s: Bytes): Bytes { ReplaceCr(ReplaceCrLf(s)) }

  function Lines(s: Bytes): (lines: seq<Bytes>)
    ensures lines != []
  {
    Split(Unify(s))
  }

  // ----- The batch parser -----

  datatype Event = Event(data: Bytes, event: Option<Bytes>, id: Option<Bytes>, retryMs: Option<int>)

  /** What a retry value means: not digits, digits that are refused, or a number. */
  datatype Retry = Ignored | Refused | Millis(ms: int)

  datatype Config = Config(maxBytes: int, maxEvents: int, retryOf: Bytes -> Retry)

  datatype Acc =
    | Failed
    | Acc(data: seq<Bytes>, event: Option<Bytes>, id: Option<Bytes>, retryMs: Option<int>, events: seq<Event>)

  function Clean(events: seq<Event>): Acc { Acc([], None, None, None, events) }

  function JoinData(data: seq<Bytes>): Bytes {
    if data == [] then [] else if |data| == 1 then data[0] else data[0] + [LF] + JoinData(data[1..])
  }

  predicate BadLabel(v: Option<Bytes>) {
    v.Some? && (|v.value| > 4096 || 0 in v.value || CR in v.value || LF in v.value)
  }

  predicate ValidEvent(e: Event, maxBytes: int) {
    && |e.data| <= maxBytes
    && !BadLabel(e.event) && !BadLabel(e.id)
    && (e.retryMs.Some? ==> 0 <= e.retryMs.value <= 86_400_000)
  }

  function Commit(a: Acc, c: Config): Acc {
    if a.Failed? then Failed
    else if a.data == [] then Clean(a.events)
    else
      var e := Event(JoinData(a.data), a.event, a.id, a.retryMs);
      if |a.events| >= c.maxEvents || !ValidEvent(e, c.maxBytes) then Failed
      else Clean(a.events + [e])
  }

  const COLON: Byte := 58
  const DATA: Bytes := [100, 97, 116, 97]
  const EVENT: Bytes := [101, 118, 101, 110, 116]
  const ID: Bytes := [105, 100]
  const RETRY: Bytes := [114, 101, 116, 114, 121]

  function Field(line: Bytes): Bytes {
    if line == [] || line[0] == COLON then [] else [line[0]] + Field(line[1..])
  }

  function Value(line: Bytes): Bytes {
    var f := |Field(line)|;
    if f + 1 < |line| then (if line[f + 1] == 32 then line[f + 2..] else line[f + 1..]) else []
  }

  function LineStep(a: Acc, line: Bytes, c: Config): Acc {
    if a.Failed? then Failed
    else if line == [] then Commit(a, c)
    else if line[0] == COLON then a
    else
      var f, v := Field(line), Value(line);
      if f == DATA then a.(data := a.data + [v])
      else if f == EVENT then a.(event := Some(v))
      else if f == ID && 0 !in v then a.(id := Some(v))
      else if f == RETRY then
        match c.retryOf(v)
        case Ignored => a
        case Refused => Failed
        case Millis(ms) => a.(retryMs := Some(ms))
      else a
  }

  function FoldLines(a: Acc, lines: seq<Bytes>, c: Config): Acc {
    if lines == [] then a else LineStep(FoldLines(a, Front(lines), c), Last(lines), c)
  }

  /** None when the parser raises. */
  function ParseBatch(s: Bytes, c: Config): Option<seq<Event>> {
    if c.maxBytes < 1 || c.maxEvents < 1 || |s| > c.maxBytes || !Valid(s) then None
    else
      var a := Commit(FoldLines(Clean([]), Lines(s), c), c);
      if a.Failed? then None else Some(a.events)
  }

  method ParseSse(payload: Bytes, c: Config) returns (result: Option<seq<Event>>)
    ensures result == ParseBatch(payload, c)
  {
    if c.maxBytes < 1 || c.maxEvents < 1 || |payload| > c.maxBytes || !Valid(payload) { return None; }
    var lines := Lines(payload);
    var data: seq<Bytes>, event: Option<Bytes>, id: Option<Bytes>, retryMs: Option<int> := [], None, None, None;
    var events: seq<Event> := [];
    for i := 0 to |lines|
      invariant FoldLines(Clean([]), lines[..i], c) == Acc(data, event, id, retryMs, events)
    {
      ghost var before := FoldLines(Clean([]), lines[..i], c);
      assert Front(lines[..i + 1]) == lines[..i];
      assert FoldLines(Clean([]), lines[..i + 1], c) == LineStep(before, lines[i], c);
      if LineStep(before, lines[i], c).Failed? { FailureSticks(Clean([]), lines, i + 1, c); }
      var line := lines[i];
      if line == [] {
        if data != [] {
          var item := Event(JoinData(data), event, id, retryMs);
          if |events| >= c.maxEvents || !ValidEvent(item, c.maxBytes) { return None; }
          events := events + [item];
        }
        data, event, id, retryMs := [], None, None, None;
      } else if line[0] != COLON {
        var field, value := Field(line), Value(line);
        if field == DATA {
          data := data + [value];
        } else if field == EVENT {
          event := Some(value);
        } else if field == ID && 0 !in value {
          id := Some(value);
        } else if field == RETRY {
          match c.retryOf(value) {
            case Ignored =>
            case Refused => return None;
            case Millis(ms) => retryMs := Some(ms);
          }
        }
      }
    }
    assert lines[..|lines|] == lines;
    if data != [] {
      var item := Event(JoinData(data), event, id, retryMs);
      if |events| >= c.maxEvents || !ValidEvent(item, c.maxBytes) { return None; }
      events := events + [item];
    }
    return Some(events);
  }

  lemma {:induction false} FailureSticks(a: Acc, lines: seq<Bytes>, k: nat, c: Config)
    requires k <= |lines| && FoldLines(a, lines[..k], c).Failed?
    ensures FoldLines(a, lines, c).Failed?
    decreases |lines|
  {
    if k < |lines| {
      assert Front(lines)[..k] == lines[..k];
      FailureSticks(a, Front(lines), k, c);
    } else {
      assert lines[..k] == lines;
    }
  }

  // ----- The incremental decoder -----

  /** Its variables, the events yielded so far, and whether it has raised. */
  datatype Decoder = Decoder(line: Bytes, event: Bytes, count: nat, afterCr: bool, out: seq<Event>, failed: bool)

  const FRESH: Decoder := Decoder([], [], 0, false, [], false)

  function Yield(d: Decoder, items: seq<Event>, c: Config): Decoder
    decreases |items|
  {
    if items == [] then d
    else if d.count + 1 > c.maxEvents then d.(count := d.count + 1, failed := true)
    else Yield(d.(count := d.count + 1, out := d.out + [items[0]]), items[1..], c)
  }

  function Dispatch(d: Decoder, c: Config): Decoder {
    var parsed := ParseBatch(d.event + [LF], c.(maxEvents := 1));
    if parsed.None? then d.(failed := true) else Yield(d.(event := []), parsed.value, c)
  }

  function Terminate(d: Decoder, c: Config): Decoder {
    if d.line != [] then d.(event := d.event + d.line + [LF], line := [])
    else if d.event != [] then Dispatch(d, c)
    else d
  }

  function Bounded(d: Decoder, c: Config): Decoder {
    if !d.failed && |d.event| + |d.line| > c.maxBytes then d.(failed := true) else d
  }

  function Feed(d: Decoder, b: Byte, c: Config): Decoder {
    if d.failed then d
    else if d.afterCr && b == LF then d.(afterCr := false)
    else
      var d1 := d.(afterCr := b == CR);
      Bounded(if b == LF || b == CR then Terminate(d1, c) else d1.(line := d1.line + [b]), c)
  }

  function Decode(s: Bytes, c: Config): Decoder {
    if s == [] then FRESH else Feed(Decode(Front(s), c), Last(s), c)
  }

  function Flatten(chunks: seq<Bytes>): Bytes {
    if chunks == [] then [] else Flatten(Front(chunks)) + Last(chunks)
  }

  lemma {:induction false} FailureIsFinal(s: Bytes, t: Bytes, c: Config)
    requires Decode(s, c).failed
    ensures Decode(s + t, c) == Decode(s, c)
    decreases |t|
  {
    if t == [] {
      assert s + t == s;
    } else {
      assert Front(s + t) == s + Front(t);
      FailureIsFinal(s, Front(t), c);
    }
  }

  /** The body of the byte loop, on the decoder's own variables. */
  method FeedByte(d: Decoder, b: Byte, c: Config) returns (r: Decoder)
    requires !d.failed
    ensures r == Feed(d, b, c)
  {
    var line, event, count: nat, afterCr, out := d.line, d.event, d.count, d.afterCr, d.out;
    if afterCr && b == LF {
      return Decoder(line, event, count, false, out, false);
    }
    afterCr := b == CR;
    if b == LF || b == CR {
      if line == [] {
        if event != [] {
          var parsed := ParseSse(event + [LF], c.(maxEvents := 1));
          if parsed.None? { return Decoder(line, event, count, afterCr, out, true); }
          event := [];
          var items := parsed.value;
          ghost var d1 := Decoder(line, event, count, afterCr, out, false);
          for k := 0 to |items|
            invariant Yield(d1, items, c) == Yield(Decoder(line, event, count, afterCr, out, false), items[k..], c)
          {
            count := count + 1;
            if count > c.maxEvents { return Decoder(line, event, count, afterCr, out, true); }
            out := out + [items[k]];
            assert items[k..][1..] == items[k + 1..];
          }
        }
      } else {
        event := event + line + [LF];
        line := [];
      }
    } else {
      line := line + [b];
    }
    return Decoder(line, event, count, afterCr, out, |event| + |line| > c.maxBytes);
  }

  /** The nested loops over chunks and bytes depend on the bytes alone, not on the chunking. */
  method IterSse(chunks: seq<Bytes>, c: Config) returns (out: seq<Event>, failed: bool)
    ensures out == Decode(Flatten(chunks), c).out && failed == Decode(Flatten(chunks), c).failed
  {
    var d := FRESH;
    ghost var whole := Flatten(chunks);
    for i := 0 to |chunks|
      invariant d == Decode(Flatten(chunks[..i]), c) && !d.failed
    {
      assert Front(chunks[..i + 1]) == chunks[..i];
      ghost var read := Flatten(chunks[..i]);
      var chunk := chunks[i];
      assert read + chunk[..0] == read;
      for j := 0 to |chunk|
        invariant d == Decode(read + chunk[..j], c) && !d.failed
      {
        ghost var seen := read + chunk[..j + 1];
        assert Front(seen) == read + chunk[..j] && Last(seen) == chunk[j];
        d := FeedByte(d, chunk[j], c);
        if d.failed {
          PrefixOfWhole(chunks, i, j + 1);
          FailureIsFinal(seen, whole[|seen|..], c);
          return d.out, true;
        }
      }
      assert chunk[..|chunk|] == chunk;
    }
    assert chunks[..|chunks|] == chunks;
    return d.out, false;
  }

  lemma {:induction false} PrefixOfWhole(chunks: seq<Bytes>, i: nat, j: nat)
    requires i < |chunks| && j <= |chunks[i]|
    ensures var seen := Flatten(chunks[..i]) + chunks[i][..j];
            |seen| <= |Flatten(chunks)| && seen + Flatten(chunks)[|seen|..] == Flatten(chunks)
    decreases |chunks|
  {
    if i == |chunks| - 1 {
      assert chunks[..i] == Front(chunks);
    } else {
      assert Front(chunks)[..i] == chunks[..i];
      PrefixOfWhole(Front(chunks), i, j);
    }
  }
}

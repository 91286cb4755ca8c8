/** The incremental decoder and the batch parser agree on every byte stream. */
module SseAgreement {
  import opened Base
  import opened Sse

  // ----- Line structure -----

  /** Lines as they travel: each followed by LF. */
  function Wire(lines: seq<Bytes>): Bytes {
    if lines == [] then [] else Wire(Front(lines)) + Last(lines) + [LF]
  }

  /** The terminated lines of a stream, and the unterminated rest. */
  function Terminated(s: Bytes): seq<Bytes> { Front(Lines(s)) }

  function Rest(s: Bytes): Bytes { Last(Lines(s)) }

  /** The lines up to and including the last blank one, and the lines after it. */
  function Closed(lines: seq<Bytes>): (r: seq<Bytes>)
    ensures r <= lines
  {
    if lines == [] || Last(lines) == [] then lines else Closed(Front(lines))
  }

  function Open(lines: seq<Bytes>): seq<Bytes> { lines[|Closed(lines)|..] }

  /** The stream ends just after a blank line (or is empty). */
  predicate EndsBlank(s: Bytes) {
    s == [] || (Terminated(s) != [] && Last(Terminated(s)) == [] && Rest(s) == [])
  }

  function CutFrom(s: Bytes, k: nat): (c: Bytes)
    requires k <= |s|
    ensures c <= s
  {
    if k == 0 || EndsBlank(s[..k]) then s[..k] else CutFrom(s, k - 1)
  }

  /** The stream cut after its last blank line. */
  function Cut(s: Bytes): (c: Bytes)
    ensures c <= s
  {
    CutFrom(s, |s|)
  }

  predicate EndsCr(s: Bytes) { s != [] && Last(s) == CR }

  lemma {:induction false} UnifyStep(s: Bytes)
    requires s != []
    ensures Unify(s) ==
            if Last(s) == LF && EndsCr(Front(s)) then Unify(Front(s))
            else Unify(Front(s)) + [if Last(s) == CR then LF else Last(s)]
  {
    if Last(s) == LF && EndsCr(Front(s)) {
      assert Front(Front(s)) == s[..|s| - 2];
      var t := ReplaceCrLf(s[..|s| - 2]);
      assert ReplaceCrLf(Front(s)) == t + [CR];
      assert Front(t + [LF]) == t && Front(t + [CR]) == t;
    } else {
      var t := ReplaceCrLf(Front(s));
      assert Front(t + [Last(s)]) == t;
    }
  }

  lemma {:induction false} UnifyHasNoCr(s: Bytes)
    ensures CR !in Unify(s) && |Unify(s)| <= |s|
  {
    if s != [] {
      UnifyHasNoCr(Front(s));
      UnifyStep(s);
    }
  }

  lemma {:induction false} UnifyKeeps(s: Bytes)
    requires CR !in s
    ensures Unify(s) == s
  {
    if s != [] {
      var f, x := Front(s), Last(s);
      assert s == f + [x];
      assert x in s && !EndsCr(f);
      UnifyKeeps(f);
      UnifyStep(s);
    }
  }

  predicate Unbroken(lines: seq<Bytes>) {
    forall i :: 0 <= i < |lines| ==> LF !in lines[i] && CR !in lines[i]
  }

  lemma {:induction false} SplitLossless(s: Bytes)
    requires CR !in s
    ensures Wire(Front(Split(s))) + Last(Split(s)) == s && Unbroken(Split(s))
  {
    if s != [] {
      SplitLossless(Front(s));
      var r := Split(Front(s));
      assert s == Front(s) + [Last(s)];
      if Last(s) == LF {
        assert Front(r + [[]]) == r;
      } else {
        assert Front(Split(s)) == Front(r);
      }
    }
  }

  lemma {:induction false} SplitSnoc(s: Bytes, b: Byte)
    ensures var r := Split(s);
            Split(s + [b]) == if b == LF then r + [[]] else Front(r) + [Last(r) + [b]]
  {
    assert Front(s + [b]) == s;
  }

  lemma {:induction false} SplitOfWire(lines: seq<Bytes>, rest: Bytes)
    requires Unbroken(lines) && LF !in rest
    ensures Split(Wire(lines) + rest) == lines + [rest]
    decreases |lines|, |rest|
  {
    if rest != [] {
      var f, x := Front(rest), Last(rest);
      assert rest == f + [x] && x in rest;
      SplitOfWire(lines, f);
      SplitSnoc(Wire(lines) + f, x);
      ConcatAssoc(Wire(lines), f, [x]);
      assert Front(lines + [f]) == lines && Last(lines + [f]) == f;
    } else if lines != [] {
      SplitOfWire(Front(lines), Last(lines));
      SplitSnoc(Wire(Front(lines)) + Last(lines), LF);
      assert Wire(lines) + rest == Wire(Front(lines)) + Last(lines) + [LF];
      assert lines == Front(lines) + [Last(lines)];
    }
  }

  lemma {:induction false} WireNoCr(lines: seq<Bytes>)
    requires Unbroken(lines)
    ensures CR !in Wire(lines)
  {
    if lines != [] { WireNoCr(Front(lines)); }
  }

  lemma {:induction false} WireConcat(a: seq<Bytes>, b: seq<Bytes>)
    ensures Wire(a + b) == Wire(a) + Wire(b)
  {
    if b == [] {
      assert a + b == a;
    } else {
      WireConcat(a, Front(b));
      assert Front(a + b) == a + Front(b);
      ConcatAssoc(Wire(a), Wire(Front(b)), Last(b));
      ConcatAssoc(Wire(a), Wire(Front(b)) + Last(b), [LF]);
    }
  }

  /** The decoder's stream is its terminated lines and the rest, unbroken. */
  lemma {:induction false} LinesLossless(s: Bytes)
    ensures Wire(Terminated(s)) + Rest(s) == Unify(s) && Unbroken(Lines(s)) && |Unify(s)| <= |s|
  {
    UnifyHasNoCr(s);
    SplitLossless(Unify(s));
  }

  /** How one more byte changes the terminated lines and the rest. */
  function NextLines(t: seq<Bytes>, r: Bytes, b: Byte, afterCr: bool): (seq<Bytes>, Bytes) {
    if b == LF && afterCr then (t, r) else if b == LF || b == CR then (t + [r], []) else (t, r + [b])
  }

  lemma {:induction false} LinesStep(s: Bytes)
    requires s != []
    ensures (Terminated(s), Rest(s)) == NextLines(Terminated(Front(s)), Rest(Front(s)), Last(s), EndsCr(Front(s)))
  {
    UnifyStep(s);
    var u := Unify(Front(s));
    if !(Last(s) == LF && EndsCr(Front(s))) {
      assert Front(Unify(s)) == u;
      if Last(s) == LF || Last(s) == CR {
        assert Front(Split(u) + [[]]) == Split(u);
        assert Split(u) == Front(Split(u)) + [Last(Split(u))];
      }
    }
  }

  lemma {:induction false} OpenIsNonblank(lines: seq<Bytes>)
    ensures forall i :: 0 <= i < |Open(lines)| ==> Open(lines)[i] != []
    ensures Closed(lines) + Open(lines) == lines
  {
    if lines != [] && Last(lines) != [] {
      OpenIsNonblank(Front(lines));
      assert Open(lines) == Open(Front(lines)) + [Last(lines)];
    }
  }

  // ----- UTF-8 across line breaks -----

  lemma {:induction false} Utf8Breaks(s: Bytes)
    ensures Utf8Run(s).Due? && Utf8Run(s).n > 0 ==> Utf8Run(s).lo >= 0x80
  {
    if s != [] { Utf8Breaks(Front(s)); }
  }

  lemma {:induction false} Utf8Unify(s: Bytes)
    ensures Utf8Run(Unify(s)) == Utf8Run(s)
  {
    if s != [] {
      Utf8Unify(Front(s));
      UnifyStep(s);
      Utf8Breaks(Front(s));
      if Last(s) == LF && EndsCr(Front(s)) {
        Utf8Breaks(Front(Front(s)));
      } else {
        assert Front(Unify(s)) == Unify(Front(s));
      }
    }
  }

  lemma {:induction false} Utf8Concat(a: Bytes, b: Bytes)
    ensures Utf8Run(a) == START ==> Utf8Run(a + b) == Utf8Run(b)
    ensures Utf8Run(a) == Bad ==> Utf8Run(a + b) == Bad
  {
    if b == [] {
      assert a + b == a;
    } else {
      Utf8Concat(a, Front(b));
      assert Front(a + b) == a + Front(b);
    }
  }

  /** Text after a line break decodes on its own. */
  lemma {:induction false} ValidAfterLines(lines: seq<Bytes>, rest: Bytes)
    ensures Valid(Wire(lines) + rest) <==> Valid(Wire(lines)) && Valid(rest)
  {
    if lines != [] {
      assert Front(Wire(lines)) == Wire(Front(lines)) + Last(lines);
      Utf8Breaks(Front(Wire(lines)));
    }
    Utf8Concat(Wire(lines), rest);
  }

  // ----- One event -----

  lemma {:induction false} FoldConcat(a: Acc, x: seq<Bytes>, y: seq<Bytes>, c: Config)
    ensures FoldLines(a, x + y, c) == FoldLines(FoldLines(a, x, c), y, c)
  {
    if y == [] {
      assert x + y == x;
    } else {
      assert Front(x + y) == x + Front(y);
      FoldConcat(a, x, Front(y), c);
    }
  }

  /** Within one event the fold ignores the events before it and their limit. */
  lemma {:induction false} FoldShift(out: seq<Event>, lines: seq<Bytes>, c: Config, k: int)
    requires forall i :: 0 <= i < |lines| ==> lines[i] != []
    ensures var (x, y) := (FoldLines(Clean(out), lines, c), FoldLines(Clean([]), lines, c.(maxEvents := k)));
            if y.Failed? then x.Failed? else x == y.(events := out) && y.events == []
  {
    if lines != [] {
      FoldShift(out, Front(lines), c, k);
    }
  }

  /** The batch parser on one buffered event. */
  lemma {:induction false} ParsedAlone(lines: seq<Bytes>, c: Config)
    requires c.maxBytes >= 1 && lines != [] && Unbroken(lines)
    ensures var (c1, text) := (c.(maxEvents := 1), Wire(lines) + [LF]);
            var p := Commit(FoldLines(Clean([]), lines, c1), c1);
            ParseBatch(text, c1) ==
            if |text| > c.maxBytes || !Valid(Wire(lines)) || p.Failed? then None else Some(p.events)
  {
    var c1, text := c.(maxEvents := 1), Wire(lines) + [LF];
    assert Front(lines + [[]]) == lines;
    WireNoCr(lines);
    UnifyKeeps(text);
    assert text == Wire(lines + [[]]) + [];
    SplitOfWire(lines + [[]], []);
    ValidAfterLines(lines, [LF]);
    assert Utf8Run([LF]) == START by { assert Front([LF]) == []; }
    assert Lines(text) == lines + [[]] + [[]];
    assert Front(lines + [[]] + [[]]) == lines + [[]];
    var y := FoldLines(Clean([]), lines, c1);
    assert FoldLines(Clean([]), Lines(text), c1) == Commit(Commit(y, c1), c1);
  }

  /** Committing one event after those already out, against committing it alone. */
  lemma {:induction false} CommitShift(y: Acc, out: seq<Event>, c: Config)
    requires y.Acc? && y.events == []
    ensures var (alone, after) := (Commit(y, c.(maxEvents := 1)), Commit(y.(events := out), c));
            && (alone.Failed? ==> after.Failed?)
            && (alone.Acc? ==>
                  && |alone.events| <= 1
                  && (after.Failed? <==> alone.events != [] && |out| >= c.maxEvents)
                  && (after.Acc? ==> after == Clean(out + alone.events)))
  {
    if y.data == [] {
      assert out + [] == out;
    }
  }

  lemma {:induction false} YieldOne(d: Decoder, items: seq<Event>, c: Config)
    requires |items| <= 1 && d.count == |d.out|
    ensures var r := Yield(d, items, c);
            if items != [] && |d.out| >= c.maxEvents then r == d.(count := d.count + 1, failed := true)
            else r == d.(count := d.count + |items|, out := d.out + items)
  {
    if items == [] {
      assert d.out + [] == d.out;
    } else {
      assert items == [items[0]];
    }
  }

  /** Parsing one buffered event on its own is what the batch fold does with its lines. */
  lemma {:induction false} DispatchAgrees(d: Decoder, lines: seq<Bytes>, c: Config)
    requires c.maxBytes >= 1 && !d.failed && d.count == |d.out| && d.line == []
    requires lines != [] && Unbroken(lines) && d.event == Wire(lines)
    requires forall i :: 0 <= i < |lines| ==> lines[i] != []
    ensures var (r, a) := (Dispatch(d, c), FoldLines(Clean(d.out), lines + [[]], c));
            && (r.failed <==> a.Failed? || !Valid(Wire(lines)) || |Wire(lines)| + 1 > c.maxBytes)
            && (!r.failed ==> r == d.(event := [], count := |r.out|, out := r.out) && a == Clean(r.out))
  {
    var c1 := c.(maxEvents := 1);
    assert Front(lines + [[]]) == lines;
    ParsedAlone(lines, c);
    FoldShift(d.out, lines, c, 1);
    var y := FoldLines(Clean([]), lines, c1);
    if y.Acc? {
      CommitShift(y, d.out, c);
      if Commit(y, c1).Acc? {
        YieldOne(d.(event := []), Commit(y, c1).events, c);
      }
    }
  }

  // ----- The decoder's state at every point of the stream -----

  /** The batch parser accepts the closed lines. */
  predicate Good(t: seq<Bytes>, c: Config) {
    FoldLines(Clean([]), Closed(t), c).Acc? && Valid(Wire(Closed(t)))
  }

  /** The decoder's variables in terms of the lines read so far. */
  predicate Tracks(d: Decoder, t: seq<Bytes>, r: Bytes, afterCr: bool, c: Config) {
    && d.afterCr == afterCr && d.line == r && d.event == Wire(Open(t)) && d.count == |d.out|
    && FoldLines(Clean([]), Closed(t), c) == Clean(d.out) && Good(t, c)
  }

  /** Facts about the lines at the moment a byte ends one of them. */
  lemma {:induction false} TerminateLines(t: seq<Bytes>, r: Bytes)
    ensures r != [] ==> Closed(t + [r]) == Closed(t) && Open(t + [r]) == Open(t) + [r]
                        && Wire(Open(t + [r])) == Wire(Open(t)) + r + [LF]
    ensures r == [] ==> Closed(t + [r]) == t + [r] && Open(t + [r]) == []
    ensures r == [] ==> Wire(Closed(t + [r])) == Wire(Closed(t)) + (Wire(Open(t)) + [LF])
    ensures Open(t) == [] <==> Wire(Open(t)) == []
  {
    OpenIsNonblank(t);
    assert Front(t + [r]) == t;
    if r != [] {
      assert Front(Open(t) + [r]) == Open(t);
    } else {
      WireConcat(Closed(t), Open(t));
    }
  }

  lemma {:induction false} ValidBreak(lines: seq<Bytes>)
    ensures Valid(Wire(lines) + [LF]) <==> Valid(Wire(lines))
  {
    ValidAfterLines(lines, [LF]);
    assert Utf8Run([LF]) == START by { assert Front([LF]) == []; }
  }

  /** A blank line closes the open event in the decoder exactly as in the batch fold. */
  lemma {:induction false} ClosingBlank(d: Decoder, t: seq<Bytes>, afterCr: bool, c: Config)
    requires c.maxBytes >= 1 && !d.failed && Unbroken(t) && Tracks(d, t, [], afterCr, c)
    ensures var (r, a) := (Terminate(d, c), FoldLines(Clean([]), t + [[]], c));
            && (r.failed <==> a.Failed? || !Valid(Wire(t + [[]])) || (Open(t) != [] && |d.event| + 1 > c.maxBytes))
            && (!r.failed ==> r == d.(event := [], count := |r.out|, out := r.out) && a == Clean(r.out))
  {
    OpenIsNonblank(t);
    TerminateLines(t, []);
    assert t + [[]] == Closed(t) + (Open(t) + [[]]);
    FoldConcat(Clean([]), Closed(t), Open(t) + [[]], c);
    ValidAfterLines(Closed(t), Wire(Open(t)) + [LF]);
    ValidBreak(Open(t));
    if Open(t) != [] {
      DispatchAgrees(d, Open(t), c);
    } else {
      var blank: seq<Bytes> := [[]];
      assert Front(blank) == [] && Open(t) + [[]] == blank;
    }
  }

  /** What the decoder holds after these lines: the open event and the unfinished line. */
  function Held(t: seq<Bytes>, r: Bytes): nat { |Wire(Open(t))| + |r| }

  /** There is room for one more step to lines t' and r': for what is then held, and, if a blank line
      closed an event, for that event together with its blank line. */
  predicate Room(t: seq<Bytes>, r: Bytes, t': seq<Bytes>, r': Bytes, c: Config) {
    Held(t', r') <= c.maxBytes && (|t'| > |t| && r == [] && Open(t) != [] ==> Held(t, r) + 1 <= c.maxBytes)
  }

  /** A line ends: the decoder keeps track, and raises exactly for a bad event or for want of room. */
  lemma {:induction false} TerminateTracks(d: Decoder, t: seq<Bytes>, r: Bytes, cr: bool, c: Config)
    requires c.maxBytes >= 1 && !d.failed && Unbroken(t) && Tracks(d, t, r, cr, c)
    ensures var (d', t') := (Bounded(Terminate(d, c), c), t + [r]);
            && (!d'.failed ==> Tracks(d', t', [], cr, c))
            && (d'.failed <==> !Good(t', c) || !Room(t, r, t', [], c))
  {
    var t' := t + [r];
    OpenIsNonblank(t');
    WireConcat(Closed(t'), Open(t'));
    TerminateLines(t, r);
    if r == [] {
      ClosingBlank(d, t, cr, c);
    }
  }

  /** One byte: the decoder keeps track, and raises exactly for a bad event or for want of room. */
  lemma {:induction false} FeedTracks(d: Decoder, t: seq<Bytes>, r: Bytes, afterCr: bool, b: Byte, c: Config)
    requires c.maxBytes >= 1 && !d.failed && Unbroken(t) && Tracks(d, t, r, afterCr, c)
    ensures var (d', (t', r')) := (Feed(d, b, c), NextLines(t, r, b, afterCr));
            && (!d'.failed ==> Tracks(d', t', r', b == CR, c))
            && (d'.failed <==> !Good(t', c) || !((b == LF && afterCr) || Room(t, r, t', r', c)))
  {
    if (b == LF || b == CR) && !(b == LF && afterCr) {
      TerminateTracks(d.(afterCr := b == CR), t, r, b == CR, c);
    } else {
      OpenIsNonblank(t);
      WireConcat(Closed(t), Open(t));
    }
  }

  lemma {:induction false} DecoderTracks(s: Bytes, c: Config)
    requires c.maxBytes >= 1
    ensures !Decode(s, c).failed ==> Tracks(Decode(s, c), Terminated(s), Rest(s), EndsCr(s), c)
  {
    if s != [] {
      DecoderTracks(Front(s), c);
      LinesLossless(Front(s));
      LinesStep(s);
      if !Decode(Front(s), c).failed {
        FeedTracks(Decode(Front(s), c), Terminated(Front(s)), Rest(Front(s)), EndsCr(Front(s)), Last(s), c);
      }
    }
  }

  lemma {:induction false} ClosedStaysGood(t: seq<Bytes>, r: Bytes, c: Config)
    ensures Good(t + [r], c) ==> Good(t, c)
  {
    TerminateLines(t, r);
    if r == [] {
      assert (t + [r])[..|Closed(t)|] == Closed(t);
      if FoldLines(Clean([]), Closed(t), c).Failed? {
        FailureSticks(Clean([]), t + [r], |Closed(t)|, c);
      }
      ValidAfterLines(Closed(t), Wire(Open(t)) + [LF]);
    }
  }

  /** At every point of the stream there was room. */
  predicate Roomy(s: Bytes, c: Config) {
    s == [] ||
    (&& Roomy(Front(s), c)
     && ((Last(s) == LF && EndsCr(Front(s))) ||
         Room(Terminated(Front(s)), Rest(Front(s)), Terminated(s), Rest(s), c)))
  }

  /** The decoder raises exactly when an event it closed is bad, or at some point what it held did not
      fit: an event with the blank line that ends it, or an open event with its unfinished line. */
  lemma {:induction false} DecoderRaisesExactly(s: Bytes, c: Config)
    requires c.maxBytes >= 1
    ensures Decode(s, c).failed <==> !Good(Terminated(s), c) || !Roomy(s, c)
  {
    if s == [] {
      NothingRead(c);
    } else {
      var t, r := Terminated(Front(s)), Rest(Front(s));
      DecoderRaisesExactly(Front(s), c);
      LinesStep(s);
      ClosedStaysGood(t, r, c);
      DecoderTracks(Front(s), c);
      LinesLossless(Front(s));
      if !Decode(Front(s), c).failed {
        FeedTracks(Decode(Front(s), c), t, r, EndsCr(Front(s)), Last(s), c);
      }
    }
  }

  lemma {:induction false} NothingRead(c: Config)
    ensures Good(Terminated([]), c) && !Decode([], c).failed
  {
    assert Lines([]) == [[]];
    assert Terminated([]) == [];
  }

  lemma {:induction false} HeldWithin(s: Bytes)
    ensures Held(Terminated(s), Rest(s)) <= |s|
  {
    LinesLossless(s);
    OpenIsNonblank(Terminated(s));
    WireConcat(Closed(Terminated(s)), Open(Terminated(s)));
  }

  /** A stream within the bound never runs out of room. */
  lemma {:induction false} ShortIsRoomy(s: Bytes, c: Config)
    requires |s| <= c.maxBytes
    ensures Roomy(s, c)
  {
    if s != [] {
      ShortIsRoomy(Front(s), c);
      HeldWithin(s);
      HeldWithin(Front(s));
    }
  }

  // ----- The cut -----

  /** A byte that does not complete a blank line leaves the closed lines alone. */
  lemma {:induction false} OpenByte(s: Bytes)
    requires s != [] && !EndsBlank(s)
    ensures Closed(Terminated(s)) == Closed(Terminated(Front(s)))
  {
    var t, r := Terminated(Front(s)), Rest(Front(s));
    LinesStep(s);
    if Terminated(s) != t {
      assert Last(t + [r]) == r;
      TerminateLines(t, r);
    }
  }

  /** Bytes after the last blank line add nothing to the closed lines. */
  lemma {:induction false} CutKeepsClosed(s: Bytes, k: nat)
    requires k <= |s|
    ensures Closed(Terminated(CutFrom(s, k))) == Closed(Terminated(s[..k])) && EndsBlank(CutFrom(s, k))
    decreases k
  {
    if !(k == 0 || EndsBlank(s[..k])) {
      CutKeepsClosed(s, k - 1);
      assert Front(s[..k]) == s[..k - 1];
      OpenByte(s[..k]);
    }
  }

  /** What the batch parser makes of a stream that ends with a blank line. */
  lemma {:induction false} BatchOfBlankEnded(s: Bytes, c: Config)
    requires c.maxBytes >= 1 && c.maxEvents >= 1 && |s| <= c.maxBytes && EndsBlank(s)
    ensures Closed(Terminated(s)) == Terminated(s)
    ensures ParseBatch(s, c).Some? ==> Good(Terminated(s), c)
    ensures Good(Terminated(s), c) ==>
            var a := FoldLines(Clean([]), Terminated(s), c);
            a == Clean(a.events) ==> ParseBatch(s, c) == Some(a.events)
  {
    var t := Terminated(s);
    LinesLossless(s);
    Utf8Unify(s);
    assert Wire(t) + [] == Wire(t);
    assert Lines(s) == t + [Rest(s)];
    assert Rest(s) == [] by { assert s == [] ==> Lines(s) == [[]]; }
    assert FoldLines(Clean([]), Lines(s), c) == Commit(FoldLines(Clean([]), t, c), c) by {
      assert Front(t + [[]]) == t;
    }
  }

  /** Agreement. For a stream within the message bound, the decoder raises exactly when the batch
      parser raises on the stream cut after its last blank line, and otherwise yields its events. */
  lemma {:induction false} DecoderAgreesWithBatch(s: Bytes, c: Config)
    requires c.maxBytes >= 1 && c.maxEvents >= 1 && |s| <= c.maxBytes
    ensures ParseBatch(Cut(s), c) == if Decode(s, c).failed then None else Some(Decode(s, c).out)
  {
    assert s[..|s|] == s;
    CutKeepsClosed(s, |s|);
    BatchOfBlankEnded(Cut(s), c);
    DecoderTracks(s, c);
    DecoderRaisesExactly(s, c);
    ShortIsRoomy(s, c);
  }

  /** For streams of any length: a decoder that did not raise yielded exactly the batch parser's
      events, and the batch parser can refuse that text for its total size only. */
  lemma {:induction false} LongStreamsAgree(s: Bytes, c: Config)
    requires c.maxBytes >= 1 && c.maxEvents >= 1 && !Decode(s, c).failed
    ensures ParseBatch(Cut(s), c) == if |Cut(s)| <= c.maxBytes then Some(Decode(s, c).out) else None
  {
    assert s[..|s|] == s;
    CutKeepsClosed(s, |s|);
    DecoderTracks(s, c);
    if |Cut(s)| <= c.maxBytes {
      BatchOfBlankEnded(Cut(s), c);
    }
  }
}

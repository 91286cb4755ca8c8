/** Writing events as a server may, and reading them back with either parser. */
module SseRoundTrip {
  import opened Base
  import opened Sse
  import opened SseAgreement

  // ----- Writing -----

  const SPACE: Byte := 32

  /** How a value follows its field: after a colon and a space, after a colon, or, if empty, not at all. */
  datatype Form = Spaced | Tight | Bare

  /** A server's habits: the form of each line, the ends of lines, how it writes a retry delay, and the
      comments and unknown fields it sends before each event. */
  datatype Style = Style(form: (Bytes, Bytes) -> Form, eol: Bytes, digits: int -> Bytes, noise: seq<Bytes>)

  function Line(field: Bytes, value: Bytes, form: Form): Bytes {
    match form
    case Spaced => field + [COLON] + ([SPACE] + value)
    case Tight => field + [COLON] + value
    case Bare => field
  }

  /** The parts of a text between its line feeds. */
  function Parts(data: Bytes): (parts: seq<Bytes>)
    ensures parts != []
  {
    if data == [] then [[]]
    else
      var rest := Parts(data[1..]);
      if data[0] == LF then [[]] + rest else [[data[0]] + rest[0]] + rest[1..]
  }

  function DataLines(parts: seq<Bytes>, st: Style): seq<Bytes> {
    if parts == [] then [] else [Line(DATA, parts[0], st.form(DATA, parts[0]))] + DataLines(parts[1..], st)
  }

  function Labelled(field: Bytes, value: Option<Bytes>, st: Style): seq<Bytes> {
    if value.None? then [] else [Line(field, value.value, st.form(field, value.value))]
  }

  function RetryText(e: Event, st: Style): Option<Bytes> {
    if e.retryMs.None? then None else Some(st.digits(e.retryMs.value))
  }

  function LabelLines(e: Event, st: Style): seq<Bytes> {
    Labelled(EVENT, e.event, st) + Labelled(ID, e.id, st) + Labelled(RETRY, RetryText(e, st), st)
  }

  /** One event: the noise, a data line per part, the labels that are present, and a blank line. */
  function EventLines(e: Event, st: Style): seq<Bytes> {
    st.noise + DataLines(Parts(e.data), st) + LabelLines(e, st) + [[]]
  }

  function AllLines(es: seq<Event>, st: Style): seq<Bytes> {
    if es == [] then [] else AllLines(Front(es), st) + EventLines(Last(es), st)
  }

  function Ended(lines: seq<Bytes>, eol: Bytes): Bytes {
    if lines == [] then [] else Ended(Front(lines), eol) + Last(lines) + eol
  }

  function Text(es: seq<Event>, st: Style): Bytes { Ended(AllLines(es, st), st.eol) }

  // ----- What can be written -----

  predicate Plain(v: Bytes) { Valid(v) && CR !in v && LF !in v }

  /** The event can be spelled out in lines. An id with a null character cannot: it reads as no id. */
  ghost predicate Writable(e: Event, st: Style, c: Config) {
    && Valid(e.data) && CR !in e.data
    && (e.event.Some? ==> Plain(e.event.value)) && (e.id.Some? ==> Plain(e.id.value) && 0 !in e.id.value)
    && (e.retryMs.Some? ==>
          && Plain(st.digits(e.retryMs.value))
          && c.retryOf(st.digits(e.retryMs.value)) == Millis(e.retryMs.value))
  }

  /** The reader takes the event: labels without null characters up to 4096 bytes, a delay of up to a day. */
  predicate Acceptable(e: Event) {
    && (e.event.Some? ==> 0 !in e.event.value && |e.event.value| <= 4096)
    && (e.id.Some? ==> |e.id.value| <= 4096)
    && (e.retryMs.Some? ==> 0 <= e.retryMs.value <= 86_400_000)
  }

  predicate AllAcceptable(es: seq<Event>) { forall i :: 0 <= i < |es| ==> Acceptable(es[i]) }

  /** A line for this field. */
  predicate For(field: Bytes, line: Bytes) { line == field || field + [COLON] <= line }

  /** A comment, an unknown field, or an id with a null character. */
  predicate Noise(line: Bytes) {
    && line != [] && Plain(line)
    && !For(DATA, line) && !For(EVENT, line) && !For(RETRY, line) && (For(ID, line) ==> 0 in line)
  }

  /** The value can be written this way: a leading space needs one before it, and only nothing can be
      left out. */
  predicate Fitting(value: Bytes, form: Form) {
    match form
    case Spaced => true
    case Tight => value == [] || value[0] != SPACE
    case Bare => value == []
  }

  ghost predicate Sound(st: Style) {
    && st.eol in {[LF], [CR], [CR, LF]}
    && (forall i :: 0 <= i < |st.noise| ==> Noise(st.noise[i]))
    && (forall f, v :: Fitting(v, st.form(f, v)))
  }

  // ----- Reading one line -----

  lemma {:induction false} FieldOf(f: Bytes, rest: Bytes)
    requires COLON !in f
    ensures Field(f + [COLON] + rest) == f && Field(f) == f
    decreases |f|
  {
    if f == [] {
      assert (f + [COLON] + rest)[0] == COLON;
    } else {
      FieldOf(f[1..], rest);
      assert f[0] in f;
      assert (f + [COLON] + rest)[1..] == f[1..] + [COLON] + rest;
      assert f == [f[0]] + f[1..];
    }
  }

  lemma {:induction false} LineReads(f: Bytes, v: Bytes, form: Form)
    requires f != [] && COLON !in f && Fitting(v, form)
    ensures var l := Line(f, v, form); l != [] && l[0] != COLON && Field(l) == f && Value(l) == v
  {
    var l := Line(f, v, form);
    assert f[0] in f && l[0] == f[0];
    match form
    case Spaced =>
      FieldOf(f, [SPACE] + v);
      assert l[|f| + 1] == SPACE && l[|f| + 2..] == v;
    case Tight =>
      FieldOf(f, v);
      assert l[|f| + 1..] == v;
    case Bare => FieldOf(f, []);
  }

  lemma {:induction false} FieldIsFor(line: Bytes)
    ensures For(Field(line), line)
    decreases |line|
  {
    if line != [] && line[0] != COLON {
      FieldIsFor(line[1..]);
      var f := Field(line[1..]);
      assert line == [line[0]] + line[1..];
      if f + [COLON] <= line[1..] {
        assert [line[0]] + f + [COLON] <= line;
      }
    }
  }

  lemma {:induction false} NoiseIsSkipped(a: Acc, line: Bytes, c: Config)
    requires Noise(line)
    ensures LineStep(a, line, c) == a
  {
    FieldIsFor(line);
    if a.Acc? && Field(line) == ID {
      var i :| 0 <= i < |line| && line[i] == 0;
      if line != ID {
        assert line[..3] == ID + [COLON];
        assert line[0] == 105 && line[1] == 100 && line[2] == COLON;
        var from := if 3 < |line| && line[3] == SPACE then 4 else 3;
        assert i >= from && line[from..][i - from] == 0;
        assert Value(line) == line[from..];
      }
    }
  }

  lemma {:induction false} NoiseFolds(a: Acc, noise: seq<Bytes>, c: Config)
    requires forall i :: 0 <= i < |noise| ==> Noise(noise[i])
    ensures FoldLines(a, noise, c) == a
  {
    if noise != [] {
      NoiseFolds(a, Front(noise), c);
      assert Noise(noise[|noise| - 1]);
      NoiseIsSkipped(a, Last(noise), c);
    }
  }

  // ----- Reading one event -----

  lemma {:induction false} FoldOne(a: Acc, line: Bytes, c: Config)
    ensures FoldLines(a, [line], c) == LineStep(a, line, c)
  {
    assert Front([line]) == [] && Last([line]) == line;
  }

  lemma {:induction false} DataStep(a: Acc, part: Bytes, form: Form, c: Config)
    requires a.Acc? && Fitting(part, form)
    ensures FoldLines(a, [Line(DATA, part, form)], c) == a.(data := a.data + [part])
  {
    LineReads(DATA, part, form);
    FoldOne(a, Line(DATA, part, form), c);
  }

  lemma {:induction false} DataFolds(a: Acc, parts: seq<Bytes>, st: Style, c: Config)
    requires a.Acc? && Sound(st)
    ensures FoldLines(a, DataLines(parts, st), c) == a.(data := a.data + parts)
    decreases |parts|
  {
    if parts == [] {
      assert a.data + parts == a.data;
    } else {
      var (part, rest) := (parts[0], parts[1..]);
      DataStep(a, part, st.form(DATA, part), c);
      FoldConcat(a, [Line(DATA, part, st.form(DATA, part))], DataLines(rest, st), c);
      DataFolds(a.(data := a.data + [part]), rest, st, c);
      assert a.data + [part] + rest == a.data + parts;
    }
  }

  lemma {:induction false} LabelFolds(a: Acc, field: Bytes, v: Option<Bytes>, st: Style, c: Config)
    requires a.Acc? && Sound(st) && field in {EVENT, ID, RETRY}
    requires v.Some? && field == ID ==> 0 !in v.value
    requires v.Some? && field == RETRY ==> c.retryOf(v.value).Millis?
    ensures FoldLines(a, Labelled(field, v, st), c) ==
            if v.None? then a
            else if field == EVENT then a.(event := v)
            else if field == ID then a.(id := v)
            else a.(retryMs := Some(c.retryOf(v.value).ms))
  {
    if v.Some? {
      var form := st.form(field, v.value);
      LineReads(field, v.value, form);
      FoldOne(a, Line(field, v.value, form), c);
    }
  }

  /** Folding three runs of lines, given what each makes of the state before it. */
  lemma {:induction false} FoldThree(a: Acc, x: seq<Bytes>, b: Acc, y: seq<Bytes>, d: Acc, z: seq<Bytes>, c: Config)
    requires FoldLines(a, x, c) == b && FoldLines(b, y, c) == d
    ensures FoldLines(a, x + y + z, c) == FoldLines(d, z, c)
  {
    FoldConcat(a, x + y, z, c);
    FoldConcat(a, x, y, c);
  }

  lemma {:induction false} LabelsFold(data: seq<Bytes>, out: seq<Event>, e: Event, st: Style, c: Config)
    requires Sound(st) && Writable(e, st, c)
    ensures FoldLines(Acc(data, None, None, None, out), LabelLines(e, st), c) ==
            Acc(data, e.event, e.id, e.retryMs, out)
  {
    var a, b, d := Acc(data, None, None, None, out), Acc(data, e.event, None, None, out),
      Acc(data, e.event, e.id, None, out);
    LabelFolds(a, EVENT, e.event, st, c);
    LabelFolds(b, ID, e.id, st, c);
    LabelFolds(d, RETRY, RetryText(e, st), st, c);
    FoldThree(a, Labelled(EVENT, e.event, st), b, Labelled(ID, e.id, st), d, Labelled(RETRY, RetryText(e, st), st), c);
  }

  lemma {:induction false} PartsJoin(data: Bytes)
    ensures JoinData(Parts(data)) == data
    decreases |data|
  {
    if data != [] {
      PartsJoin(data[1..]);
      var rest := Parts(data[1..]);
      assert data == [data[0]] + data[1..];
      if data[0] == LF {
        assert ([[]] + rest)[1..] == rest;
      } else {
        assert Parts(data)[1..] == rest[1..];
      }
    }
  }

  lemma {:induction false} EventCommits(out: seq<Event>, e: Event, st: Style, c: Config)
    requires Writable(e, st, c) && |e.data| <= c.maxBytes
    ensures LineStep(Acc(Parts(e.data), e.event, e.id, e.retryMs, out), [], c) ==
            if |out| < c.maxEvents && Acceptable(e) then Clean(out + [e]) else Failed
  {
    PartsJoin(e.data);
  }

  lemma {:induction false} EventFolds(out: seq<Event>, e: Event, st: Style, c: Config)
    requires Sound(st) && Writable(e, st, c) && |e.data| <= c.maxBytes
    ensures FoldLines(Clean(out), EventLines(e, st), c) ==
            if |out| < c.maxEvents && Acceptable(e) then Clean(out + [e]) else Failed
  {
    var parts := Parts(e.data);
    var (n, d, l) := (st.noise, DataLines(parts, st), LabelLines(e, st));
    var (a, b) := (Clean(out), Acc(parts, None, None, None, out));
    var f := Acc(parts, e.event, e.id, e.retryMs, out);
    NoiseFolds(a, n, c);
    DataFolds(a, parts, st, c);
    assert [] + parts == parts;
    FoldThree(a, n, a, d, b, l, c);
    LabelsFold(parts, out, e, st, c);
    FoldConcat(a, n + d + l, [[]], c);
    FoldOne(f, [], c);
    EventCommits(out, e, st, c);
  }

  lemma {:induction false} AllFold(es: seq<Event>, st: Style, c: Config)
    requires Sound(st) && forall i :: 0 <= i < |es| ==> Writable(es[i], st, c) && |es[i].data| <= c.maxBytes
    ensures FoldLines(Clean([]), AllLines(es, st), c) ==
            if (|es| <= c.maxEvents || es == []) && AllAcceptable(es) then Clean(es) else Failed
    decreases |es|
  {
    if es != [] {
      var (f, e) := (Front(es), es[|es| - 1]);
      assert es == f + [e];
      AllFold(f, st, c);
      FoldConcat(Clean([]), AllLines(f, st), EventLines(e, st), c);
      assert AllAcceptable(es) <==> AllAcceptable(f) && Acceptable(e);
      if (|f| <= c.maxEvents || f == []) && AllAcceptable(f) {
        EventFolds(f, e, st, c);
      } else {
        assert EventLines(e, st)[..0] == [];
        FailureSticks(Failed, EventLines(e, st), 0, c);
      }
    }
  }

  // ----- The text as bytes -----

  lemma {:induction false} Ascii(s: Bytes)
    requires forall i :: 0 <= i < |s| ==> s[i] < 0x80
    ensures Valid(s)
  {
    if s != [] {
      Ascii(Front(s));
    }
  }

  lemma {:induction false} PlainJoin(a: Bytes, b: Bytes)
    requires Plain(a) && Plain(b)
    ensures Plain(a + b)
  {
    Utf8Concat(a, b);
  }

  predicate AsciiPlain(s: Bytes) { forall i :: 0 <= i < |s| ==> s[i] < 0x80 && s[i] != CR && s[i] != LF }

  lemma {:induction false} LineIsPlain(field: Bytes, value: Bytes, form: Form)
    requires AsciiPlain(field) && Plain(value)
    ensures Plain(Line(field, value, form)) && |Line(field, value, form)| >= |field|
    ensures Fitting(value, form) ==> |Line(field, value, form)| >= |value|
  {
    Ascii(field);
    Ascii([COLON]);
    Ascii([SPACE]);
    match form
    case Spaced =>
      PlainJoin([SPACE], value);
      PlainJoin(field, [COLON]);
      PlainJoin(field + [COLON], [SPACE] + value);
    case Tight =>
      PlainJoin(field, [COLON]);
      PlainJoin(field + [COLON], value);
    case Bare =>
  }

  predicate AllPlain(lines: seq<Bytes>) { forall i :: 0 <= i < |lines| ==> Plain(lines[i]) }

  lemma {:induction false} AllPlainJoin(a: seq<Bytes>, b: seq<Bytes>)
    requires AllPlain(a) && AllPlain(b)
    ensures AllPlain(a + b)
  {
  }

  lemma {:induction false} CutAtBreak(a: Bytes, b: Bytes)
    requires Valid(a + [LF] + b)
    ensures Valid(a) && Valid(b)
  {
    assert Front([a]) == [] && Wire([a]) == a + [LF];
    ValidAfterLines([a], b);
    assert Front(a + [LF]) == a;
    Utf8Breaks(a);
    DueNothing(a);
  }

  lemma {:induction false} DueNothing(s: Bytes)
    ensures Utf8Run(s).Due? && Utf8Run(s).n == 0 ==> Utf8Run(s) == START
  {
    if s != [] {
      DueNothing(Front(s));
    }
  }

  lemma {:induction false} PartsHaveNoBreaks(data: Bytes)
    requires CR !in data
    ensures forall i :: 0 <= i < |Parts(data)| ==> LF !in Parts(data)[i] && CR !in Parts(data)[i]
    decreases |data|
  {
    if data != [] {
      PartsHaveNoBreaks(data[1..]);
      assert data[0] in data;
    }
  }

  lemma {:induction false} JoinedAreValid(parts: seq<Bytes>)
    requires parts != [] && Valid(JoinData(parts))
    ensures forall i :: 0 <= i < |parts| ==> Valid(parts[i])
    decreases |parts|
  {
    if |parts| > 1 {
      CutAtBreak(parts[0], JoinData(parts[1..]));
      JoinedAreValid(parts[1..]);
      forall i | 0 <= i < |parts| ensures Valid(parts[i]) {
        assert i > 0 ==> parts[i] == parts[1..][i - 1];
      }
    }
  }

  lemma {:induction false} PartsArePlain(data: Bytes)
    requires Valid(data) && CR !in data
    ensures AllPlain(Parts(data))
  {
    PartsJoin(data);
    JoinedAreValid(Parts(data));
    PartsHaveNoBreaks(data);
  }

  lemma {:induction false} DataLinesPlain(parts: seq<Bytes>, st: Style)
    requires AllPlain(parts)
    ensures AllPlain(DataLines(parts, st))
    decreases |parts|
  {
    if parts != [] {
      LineIsPlain(DATA, parts[0], st.form(DATA, parts[0]));
      DataLinesPlain(parts[1..], st);
    }
  }

  lemma {:induction false} LabelledPlain(field: Bytes, v: Option<Bytes>, st: Style)
    requires AsciiPlain(field) && (v.Some? ==> Plain(v.value))
    ensures AllPlain(Labelled(field, v, st))
  {
    if v.Some? {
      LineIsPlain(field, v.value, st.form(field, v.value));
    }
  }

  lemma {:induction false} EventLinesPlain(e: Event, st: Style, c: Config)
    requires Sound(st) && Writable(e, st, c)
    ensures AllPlain(EventLines(e, st))
  {
    var (n, d) := (st.noise, DataLines(Parts(e.data), st));
    var (x, y, z) := (Labelled(EVENT, e.event, st), Labelled(ID, e.id, st), Labelled(RETRY, RetryText(e, st), st));
    PartsArePlain(e.data);
    DataLinesPlain(Parts(e.data), st);
    LabelledPlain(EVENT, e.event, st);
    LabelledPlain(ID, e.id, st);
    LabelledPlain(RETRY, RetryText(e, st), st);
    AllPlainJoin(x, y);
    AllPlainJoin(x + y, z);
    AllPlainJoin(n, d);
    AllPlainJoin(n + d, LabelLines(e, st));
    AllPlainJoin(n + d + LabelLines(e, st), [[]]);
  }

  lemma {:induction false} AllLinesPlain(es: seq<Event>, st: Style, c: Config)
    requires Sound(st) && forall i :: 0 <= i < |es| ==> Writable(es[i], st, c)
    ensures AllPlain(AllLines(es, st))
    decreases |es|
  {
    if es != [] {
      AllLinesPlain(Front(es), st, c);
      EventLinesPlain(es[|es| - 1], st, c);
      AllPlainJoin(AllLines(Front(es), st), EventLines(Last(es), st));
    }
  }

  lemma {:induction false} PlainWireIsValid(lines: seq<Bytes>)
    requires AllPlain(lines)
    ensures Valid(Wire(lines))
    decreases |lines|
  {
    if lines != [] {
      PlainWireIsValid(Front(lines));
      assert Plain(lines[|lines| - 1]);
      Utf8Concat(Wire(Front(lines)), Last(lines));
      Ascii([LF]);
      Utf8Concat(Wire(Front(lines)) + Last(lines), [LF]);
    }
  }

  /** Appending text without line ends. */
  lemma {:induction false} UnifyAppend(s: Bytes, t: Bytes)
    requires CR !in t && LF !in t
    ensures Unify(s + t) == Unify(s) + t
    decreases |t|
  {
    if t == [] {
      assert s + t == s && Unify(s) + t == Unify(s);
    } else {
      var (f, x) := (Front(t), Last(t));
      assert t == f + [x] && x in t;
      UnifyAppend(s, f);
      assert Front(s + t) == s + f && Last(s + t) == x;
      UnifyStep(s + t);
      ConcatAssoc(Unify(s), f, [x]);
    }
  }

  lemma {:induction false} UnifyEol(s: Bytes, eol: Bytes)
    requires eol in {[LF], [CR], [CR, LF]} && (eol == [LF] ==> !EndsCr(s))
    ensures Unify(s + eol) == Unify(s) + [LF]
  {
    if eol == [CR, LF] {
      assert Front(s + eol) == s + [CR] && Last(s + eol) == LF;
      UnifyStep(s + eol);
    }
    var one := s + [eol[0]];
    assert Front(one) == s && Last(one) == eol[0];
    UnifyStep(one);
    assert |eol| == 1 ==> s + eol == one;
  }

  /** However lines end, they read the same. */
  lemma {:induction false} EndedUnifies(lines: seq<Bytes>, eol: Bytes)
    requires AllPlain(lines) && eol in {[LF], [CR], [CR, LF]}
    ensures Unify(Ended(lines, eol)) == Wire(lines)
    ensures eol == [LF] ==> CR !in Ended(lines, eol)
    decreases |lines|
  {
    if lines != [] {
      var before := Ended(Front(lines), eol);
      EndedUnifies(Front(lines), eol);
      assert Plain(lines[|lines| - 1]);
      UnifyAppend(before, Last(lines));
      UnifyEol(before + Last(lines), eol);
    }
  }

  lemma {:induction false} EndedSize(a: seq<Bytes>, b: seq<Bytes>, eol: Bytes)
    ensures |Ended(a + b, eol)| == |Ended(a, eol)| + |Ended(b, eol)|
    decreases |b|
  {
    if b == [] {
      assert a + b == a;
    } else {
      assert Front(a + b) == a + Front(b) && Last(a + b) == Last(b);
      EndedSize(a, Front(b), eol);
      assert |Ended(a + b, eol)| == |Ended(a + Front(b), eol)| + |Last(b)| + |eol|;
    }
  }

  lemma {:induction false} DataTakesRoom(parts: seq<Bytes>, st: Style)
    requires Sound(st) && parts != []
    ensures |JoinData(parts)| <= |Ended(DataLines(parts, st), st.eol)|
    decreases |parts|
  {
    var (part, form) := (parts[0], st.form(DATA, parts[0]));
    var line := Line(DATA, part, form);
    assert Fitting(part, form) && |line| >= |part|;
    EndedSize([line], DataLines(parts[1..], st), st.eol);
    assert Front([line]) == [];
    if |parts| > 1 {
      DataTakesRoom(parts[1..], st);
    }
  }

  lemma {:induction false} EventTakesRoom(e: Event, st: Style)
    requires Sound(st)
    ensures |e.data| <= |Ended(EventLines(e, st), st.eol)|
  {
    var (n, d, l) := (st.noise, DataLines(Parts(e.data), st), LabelLines(e, st));
    DataTakesRoom(Parts(e.data), st);
    PartsJoin(e.data);
    EndedSize(n, d, st.eol);
    EndedSize(n + d, l, st.eol);
    EndedSize(n + d + l, [[]], st.eol);
  }

  lemma {:induction false} EachTakesRoom(es: seq<Event>, st: Style, i: nat)
    requires Sound(st) && i < |es|
    ensures |es[i].data| <= |Text(es, st)|
    decreases |es|
  {
    EndedSize(AllLines(Front(es), st), EventLines(Last(es), st), st.eol);
    if i == |es| - 1 {
      EventTakesRoom(es[i], st);
    } else {
      EachTakesRoom(Front(es), st, i);
    }
  }

  // ----- The round trip -----

  lemma {:induction false} TextReads(es: seq<Event>, st: Style, c: Config)
    requires Sound(st) && forall i :: 0 <= i < |es| ==> Writable(es[i], st, c)
    ensures Valid(Text(es, st)) && Lines(Text(es, st)) == AllLines(es, st) + [[]]
  {
    var lines := AllLines(es, st);
    AllLinesPlain(es, st, c);
    EndedUnifies(lines, st.eol);
    PlainWireIsValid(lines);
    Utf8Unify(Text(es, st));
    SplitOfWire(lines, []);
    assert Wire(lines) + [] == Wire(lines);
  }

  /** Events written by any server habit, with any line ends, any form of each line and any noise
      between, are read back as they were if they are acceptable and within the limits; otherwise the
      parser raises. */
  lemma {:induction false} WrittenIsRead(es: seq<Event>, st: Style, c: Config)
    requires Sound(st) && forall i :: 0 <= i < |es| ==> Writable(es[i], st, c)
    ensures ParseBatch(Text(es, st), c) ==
            if && 1 <= c.maxBytes && 1 <= c.maxEvents && |es| <= c.maxEvents && |Text(es, st)| <= c.maxBytes
               && AllAcceptable(es)
            then Some(es) else None
  {
    if 1 <= c.maxBytes && 1 <= c.maxEvents && |Text(es, st)| <= c.maxBytes {
      forall i | 0 <= i < |es| ensures |es[i].data| <= c.maxBytes {
        EachTakesRoom(es, st, i);
      }
      TextReads(es, st, c);
      AllFold(es, st, c);
      var all := AllLines(es, st);
      FoldConcat(Clean([]), all, [[]], c);
      FoldOne(FoldLines(Clean([]), all, c), [], c);
    }
  }

  lemma {:induction false} TextEndsBlank(es: seq<Event>, st: Style, c: Config)
    requires Sound(st) && forall i :: 0 <= i < |es| ==> Writable(es[i], st, c)
    ensures Cut(Text(es, st)) == Text(es, st)
  {
    var text := Text(es, st);
    assert text[..|text|] == text;
    if es != [] {
      TextReads(es, st, c);
      var all := AllLines(es, st);
      assert Terminated(text) == all && Rest(text) == [];
      assert Last(EventLines(Last(es), st)) == [] && Last(all) == [];
    }
  }

  /** The incremental decoder reads them back too, as they arrive. */
  lemma {:induction false} WrittenIsDecoded(es: seq<Event>, st: Style, c: Config)
    requires Sound(st) && forall i :: 0 <= i < |es| ==> Writable(es[i], st, c)
    requires 1 <= c.maxBytes && 1 <= c.maxEvents && |Text(es, st)| <= c.maxBytes
    ensures var d := Decode(Text(es, st), c);
            && (d.failed <==> |es| > c.maxEvents || !AllAcceptable(es))
            && (!d.failed ==> d.out == es)
  {
    WrittenIsRead(es, st, c);
    TextEndsBlank(es, st, c);
    DecoderAgreesWithBatch(Text(es, st), c);
  }
}

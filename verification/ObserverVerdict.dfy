/**
 What the observer's verdict says about the response itself: which evidence the
 collector heard, for every chunking, and exactly when a response is reported as
 available. The events of a stream are defined here from its bytes alone.
 */
module ObserverVerdict {
  import opened Octets
  import opened Options
  import opened EventStream
  import opened Observer
  import C = Completion

  // ---- The events of a stream ----

  /** The LF-terminated lines of `s`, the first of which began with `carry`. */
  function Terminated(carry: seq<Byte>, s: seq<Byte>): seq<seq<Byte>>
    decreases |s|
  {
    if s == [] then []
    else if s[0] == LF then [carry] + Terminated([], s[1..])
    else Terminated(carry + [s[0]], s[1..])
  }

  /** What follows the last LF. */
  function Leftover(carry: seq<Byte>, s: seq<Byte>): seq<Byte>
    decreases |s|
  {
    if s == [] then carry else if s[0] == LF then Leftover([], s[1..]) else Leftover(carry + [s[0]], s[1..])
  }

  function Bare(raw: seq<Byte>): seq<Byte> { if raw != [] && raw[|raw| - 1] == CR then raw[..|raw| - 1] else raw }

  /** An event under construction after one more line that is not empty. */
  function Extended(event: seq<Byte>, line: seq<Byte>): seq<Byte> {
    if !(DATA_COLON <= line) then event
    else if event == [] then Payload(line)
    else event + [LF] + Payload(line)
  }

  function Next(event: seq<Byte>, raw: seq<Byte>): seq<Byte> {
    if Bare(raw) == [] then [] else Extended(event, Bare(raw))
  }

  /** The data of each event that an empty line ends. */
  function Events(event: seq<Byte>, raws: seq<seq<Byte>>): seq<seq<Byte>>
    decreases |raws|
  {
    if raws == [] then []
    else (if Bare(raws[0]) == [] && event != [] then [event] else []) + Events(Next(event, raws[0]), raws[1..])
  }

  /** The data of an event that no empty line ends. */
  function Unfinished(event: seq<Byte>, raws: seq<seq<Byte>>): seq<Byte>
    decreases |raws|
  {
    if raws == [] then event else Unfinished(Next(event, raws[0]), raws[1..])
  }

  /** The data of every event stays within the bound. */
  predicate EventsFit(event: seq<Byte>, raws: seq<seq<Byte>>)
    decreases |raws|
  {
    |event| <= MAX_EVENT && (raws == [] || EventsFit(Next(event, raws[0]), raws[1..]))
  }

  function StreamEvents(s: seq<Byte>): seq<seq<Byte>> { Events([], Terminated([], s)) }

  /** Nothing of the stream is cut off: every line and event fits and is ended. */
  predicate Intact(s: seq<Byte>) {
    && Fits(0, s) && Leftover([], s) == []
    && EventsFit([], Terminated([], s)) && Unfinished([], Terminated([], s)) == []
  }

  /** What one event says. */
  function Testimony(event: seq<Byte>, decode: Decoder): C.Evidence {
    if IsDone(event) then C.Done
    else match decode(event) case Unparsable => C.GaveUp case Parsed(said, _, _, _, _) => Evidence(said)
  }

  function Testimonies(events: seq<seq<Byte>>, decode: Decoder): seq<C.Evidence> {
    if events == [] then [] else [Testimony(events[0], decode)] + Testimonies(events[1..], decode)
  }

  // ---- What the collector heard, for any chunking ----

  function HeardEvent(o: Obs, decode: Decoder): seq<C.Evidence> {
    if o.oversize || o.event == [] then [] else [Testimony(o.event, decode)]
  }

  function HeardLine(o: Obs, raw: seq<Byte>, decode: Decoder): seq<C.Evidence> {
    if Bare(raw) == [] then HeardEvent(o, decode)
    else if !o.oversize && |Extended(o.event, Bare(raw))| > MAX_EVENT then [C.GaveUp]
    else []
  }

  /** Complete lines in order, one GaveUp for each that does not fit. */
  function HeardChunk(o: Obs, value: seq<Byte>, decode: Decoder): seq<C.Evidence>
    requires Bounded(o)
    decreases |value|
  {
    var k := Newline(value);
    if k == |value| then if |o.line| + k <= MAX_EVENT then [] else [C.GaveUp]
    else
      (if |o.line| + k <= MAX_EVENT then HeardLine(o, o.line + value[..k], decode) else [C.GaveUp])
      + HeardChunk(CompleteLine(o, value[..k], decode), value[k + 1..], decode)
  }

  function HeardChunks(o: Obs, cs: seq<seq<Byte>>, decode: Decoder): seq<C.Evidence>
    requires Bounded(o)
    decreases |cs|
  {
    if cs == [] then [] else HeardChunk(o, cs[0], decode) + HeardChunks(Chunk(o, cs[0], decode), cs[1..], decode)
  }

  function HeardMark(o: Obs): seq<C.Evidence> { if CutOff(o) then [C.GaveUp] else [] }

  function HeardLast(o: Obs, decode: Decoder): seq<C.Evidence> { if o.line == [] then [] else HeardLine(o, o.line, decode) }

  /** The end: one GaveUp for what is unfinished, then what it still says. */
  function HeardClose(o: Obs, decode: Decoder): seq<C.Evidence>
    requires Bounded(o)
  {
    HeardMark(o) + (HeardLast(o, decode) + HeardEvent(LastLine(Mark(o), decode), decode))
  }

  function Heard(cs: seq<seq<Byte>>, decode: Decoder): seq<C.Evidence> {
    HeardChunks(NewObs, cs, decode) + HeardClose(Chunks(NewObs, cs, decode), decode)
  }

  predicate Knows(k: Sink, h: seq<C.Evidence>) { k.completion == C.Collect(h) }

  lemma Learns(k: Sink, h: seq<C.Evidence>, e: C.Evidence)
    requires SinkOk(k) && Knows(k, h)
    ensures Knows(Tell(k, e), h + [e])
  {
    assert (h + [e])[..|h|] == h;
  }

  lemma LearnsEvent(o: Obs, h: seq<C.Evidence>, decode: Decoder)
    requires Bounded(o) && Knows(o.sink, h)
    ensures Knows(ConsumeEvent(o, decode).sink, h + HeardEvent(o, decode))
  {
    if o.oversize || o.event == [] {
      assert h + [] == h;
    } else {
      Learns(o.sink, h, Testimony(o.event, decode));
    }
  }

  lemma LearnsLine(o: Obs, raw: seq<Byte>, h: seq<C.Evidence>, decode: Decoder)
    requires Bounded(o) && Knows(o.sink, h)
    ensures Knows(ConsumeLine(o, raw, decode).sink, h + HeardLine(o, raw, decode))
  {
    if Bare(raw) == [] {
      LearnsEvent(o, h, decode);
    } else {
      Learns(o.sink, h, C.GaveUp);
      assert h + [] == h;
    }
  }

  lemma LearnsComplete(o: Obs, piece: seq<Byte>, h: seq<C.Evidence>, decode: Decoder)
    requires Bounded(o) && Knows(o.sink, h)
    ensures Knows(CompleteLine(o, piece, decode).sink,
      h + if |o.line| + |piece| <= MAX_EVENT then HeardLine(o, o.line + piece, decode) else [C.GaveUp])
  {
    if |o.line| + |piece| <= MAX_EVENT {
      LearnsLine(o.(line := []), o.line + piece, h, decode);
    } else {
      Learns(o.sink, h, C.GaveUp);
    }
  }

  lemma {:induction false} LearnsChunk(o: Obs, value: seq<Byte>, h: seq<C.Evidence>, decode: Decoder)
    requires Bounded(o) && Knows(o.sink, h)
    ensures Knows(Chunk(o, value, decode).sink, h + HeardChunk(o, value, decode))
    decreases |value|
  {
    var k := Newline(value);
    assert h + [] == h;
    if k == |value| {
      Learns(o.sink, h, C.GaveUp);
    } else {
      var first := if |o.line| + k <= MAX_EVENT then HeardLine(o, o.line + value[..k], decode) else [C.GaveUp];
      var next := CompleteLine(o, value[..k], decode);
      LearnsComplete(o, value[..k], h, decode);
      LearnsChunk(next, value[k + 1..], h + first, decode);
      Assoc(h, first, HeardChunk(next, value[k + 1..], decode));
    }
  }

  lemma {:induction false} LearnsChunks(o: Obs, cs: seq<seq<Byte>>, h: seq<C.Evidence>, decode: Decoder)
    requires Bounded(o) && Knows(o.sink, h)
    ensures Knows(Chunks(o, cs, decode).sink, h + HeardChunks(o, cs, decode))
    decreases |cs|
  {
    if cs == [] {
      assert h + [] == h;
    } else {
      var first, next := HeardChunk(o, cs[0], decode), Chunk(o, cs[0], decode);
      LearnsChunk(o, cs[0], h, decode);
      LearnsChunks(next, cs[1..], h + first, decode);
      Assoc(h, first, HeardChunks(next, cs[1..], decode));
    }
  }

  lemma LearnsMark(o: Obs, h: seq<C.Evidence>)
    requires Bounded(o) && Knows(o.sink, h)
    ensures Knows(Mark(o).sink, h + HeardMark(o))
  {
    Learns(o.sink, h, C.GaveUp);
    assert h + [] == h;
  }

  lemma LearnsLast(o: Obs, h: seq<C.Evidence>, decode: Decoder)
    requires Bounded(o) && Knows(o.sink, h)
    ensures Knows(LastLine(o, decode).sink, h + HeardLast(o, decode))
  {
    if o.line == [] {
      assert h + [] == h;
    } else {
      LearnsLine(o.(line := []), o.line, h, decode);
    }
  }

  lemma LearnsClose(o: Obs, h: seq<C.Evidence>, decode: Decoder)
    requires Bounded(o) && Knows(o.sink, h)
    ensures Knows(Close(o, decode), h + HeardClose(o, decode))
  {
    var p := Mark(o);
    LearnsMark(o, h);
    LearnsLast(p, h + HeardMark(o), decode);
    var a, b, c := HeardMark(o), HeardLast(o, decode), HeardEvent(LastLine(p, decode), decode);
    LearnsEvent(LastLine(p, decode), h + a + b, decode);
    Assoc(h, a, b + c);
    Assoc(h + a, b, c);
  }

  lemma Assoc(a: seq<C.Evidence>, b: seq<C.Evidence>, c: seq<C.Evidence>)
    ensures a + b + c == a + (b + c)
  {}

  /** For every chunking of every stream the verdict is that of the evidence heard. */
  lemma VerdictIsOfTheEvidence(cs: seq<seq<Byte>>, decode: Decoder)
    ensures Close(Chunks(NewObs, cs, decode), decode).completion == C.Collect(Heard(cs, decode))
    ensures StreamReport(cs, decode).completion == C.Metadata(C.Collect(Heard(cs, decode)), true)
  {
    var o, h := Chunks(NewObs, cs, decode), HeardChunks(NewObs, cs, decode);
    LearnsChunks(NewObs, cs, [], decode);
    assert [] + h == h;
    LearnsClose(o, h, decode);
  }

  // ---- A loss anywhere is never forgotten ----

  lemma {:induction false} FitsPlain(n: nat, s: seq<Byte>, t: seq<Byte>)
    requires n + |s| <= MAX_EVENT && (forall i :: 0 <= i < |s| ==> s[i] != LF) && Fits(n + |s|, t)
    ensures Fits(n, s + t)
    decreases |s|
  {
    if s == [] {
      assert s + t == t;
    } else {
      assert (s + t)[0] == s[0] && (s + t)[1..] == s[1..] + t;
      FitsPlain(n + 1, s[1..], t);
    }
  }

  lemma {:induction false} FitsJoin(o: Obs, s: seq<Byte>, t: seq<Byte>, decode: Decoder)
    requires Bounded(o) && Fits(|o.line|, s) && Fits(|Bytes(o, s, decode).line|, t)
    ensures Fits(|o.line|, s + t)
    decreases |s|
  {
    if s == [] {
      assert s + t == t;
    } else {
      assert (s + t)[0] == s[0] && (s + t)[1..] == s[1..] + t;
      FitsJoin(OneByte(o, s[0], decode), s[1..], t, decode);
    }
  }

  lemma {:induction false} UnmarkedChunkFits(o: Obs, value: seq<Byte>, decode: Decoder)
    requires Bounded(o) && !Chunk(o, value, decode).sink.completion.partial
    ensures Fits(|o.line|, value)
    decreases |value|
  {
    var k := Newline(value);
    if k == |value| {
      assert value + [] == value;
      FitsPlain(|o.line|, value, []);
    } else {
      UnmarkedLineFits(o, value, k, decode);
      UnmarkedChunkFits(CompleteLine(o, value[..k], decode), value[k + 1..], decode);
      FitsLine(|o.line|, value, k);
    }
  }

  lemma {:induction false} UnmarkedLineFits(o: Obs, value: seq<Byte>, k: nat, decode: Decoder)
    requires Bounded(o) && !Chunk(o, value, decode).sink.completion.partial && k == Newline(value) < |value|
    ensures |o.line| + k <= MAX_EVENT
    ensures !Chunk(CompleteLine(o, value[..k], decode), value[k + 1..], decode).sink.completion.partial
  {
    var next := CompleteLine(o, value[..k], decode);
    assert Chunk(o, value, decode) == Chunk(next, value[k + 1..], decode);
    assert !next.sink.completion.partial;
  }

  lemma FitsLine(n: nat, value: seq<Byte>, k: nat)
    requires k < |value| && value[k] == LF && n + k <= MAX_EVENT && Fits(0, value[k + 1..])
    requires forall i :: 0 <= i < k ==> value[i] != LF
    ensures Fits(n, value)
  {
    var s, t := value[..k], value[k..];
    assert t[0] == LF && t[1..] == value[k + 1..] && value == s + t;
    FitsPlain(n, s, t);
  }

  lemma {:induction false} UnmarkedFits(o: Obs, cs: seq<seq<Byte>>, decode: Decoder)
    requires Bounded(o) && !Chunks(o, cs, decode).sink.completion.partial
    ensures Fits(|o.line|, Concat(cs))
    decreases |cs|
  {
    if cs != [] {
      var next := Chunk(o, cs[0], decode);
      UnmarkedChunkFits(o, cs[0], decode);
      ChunkIsBytes(o, cs[0], decode);
      UnmarkedFits(next, cs[1..], decode);
      FitsJoin(o, cs[0], Concat(cs[1..]), decode);
    }
  }

  // ---- Where the lines fit, the observer reads the events of the stream ----

  function ReadLines(o: Obs, raws: seq<seq<Byte>>, decode: Decoder): (r: Obs)
    requires Bounded(o)
    ensures Bounded(r) && r.line == o.line && (o.sink.completion.partial ==> r.sink.completion.partial)
    decreases |raws|
  {
    if raws == [] then o else ReadLines(ConsumeLine(o, raws[0], decode), raws[1..], decode)
  }

  lemma {:induction false} BytesAreLines(o: Obs, s: seq<Byte>, decode: Decoder)
    requires Bounded(o) && Fits(|o.line|, s)
    ensures |Leftover(o.line, s)| <= MAX_EVENT
    ensures Bytes(o, s, decode) == ReadLines(o.(line := []), Terminated(o.line, s), decode).(line := Leftover(o.line, s))
    decreases |s|
  {
    if s != [] {
      var p := OneByte(o, s[0], decode);
      BytesAreLines(p, s[1..], decode);
      if s[0] == LF {
        var raws := Terminated(o.line, s);
        assert raws[0] == o.line && raws[1..] == Terminated([], s[1..]);
      }
    }
  }

  lemma LineTells(o: Obs, raw: seq<Byte>, h: seq<C.Evidence>, decode: Decoder)
    requires Bounded(o) && !o.oversize && Knows(o.sink, h)
    ensures var r := ConsumeLine(o, raw, decode);
      |Next(o.event, raw)| <= MAX_EVENT ==>
        && !r.oversize && r.event == Next(o.event, raw)
        && HeardLine(o, raw, decode) == (if Bare(raw) == [] && o.event != [] then [Testimony(o.event, decode)] else [])
        && Knows(r.sink, h + HeardLine(o, raw, decode))
  {
    LearnsLine(o, raw, h, decode);
  }

  /** While the events fit, the lines tell exactly what the events say. */
  lemma {:induction false} LinesTell(o: Obs, raws: seq<seq<Byte>>, h: seq<C.Evidence>, decode: Decoder)
    requires Bounded(o) && !o.oversize && Knows(o.sink, h) && EventsFit(o.event, raws)
    ensures var r := ReadLines(o, raws, decode);
      && !r.oversize && r.event == Unfinished(o.event, raws)
      && Knows(r.sink, h + Testimonies(Events(o.event, raws), decode))
    decreases |raws|
  {
    if raws == [] {
      assert h + [] == h;
    } else {
      var next := ConsumeLine(o, raws[0], decode);
      var first := HeardLine(o, raws[0], decode);
      var rest := Events(Next(o.event, raws[0]), raws[1..]);
      LineTells(o, raws[0], h, decode);
      LinesTell(next, raws[1..], h + first, decode);
      Assoc(h, first, Testimonies(rest, decode));
      OneMore(o.event, rest, decode);
    }
  }

  lemma OneMore(event: seq<Byte>, rest: seq<seq<Byte>>, decode: Decoder)
    ensures Testimonies([event] + rest, decode) == [Testimony(event, decode)] + Testimonies(rest, decode)
    ensures [] + rest == rest && [] + Testimonies(rest, decode) == Testimonies(rest, decode)
  {
    assert ([event] + rest)[0] == event && ([event] + rest)[1..] == rest;
  }

  lemma {:induction false} LinesLose(o: Obs, raws: seq<seq<Byte>>, decode: Decoder)
    requires Bounded(o) && !o.oversize && !EventsFit(o.event, raws)
    ensures ReadLines(o, raws, decode).sink.completion.partial
    decreases |raws|
  {
    var next := ConsumeLine(o, raws[0], decode);
    if |Next(o.event, raws[0])| <= MAX_EVENT {
      assert next.event == Next(o.event, raws[0]) && !next.oversize;
      LinesLose(next, raws[1..], decode);
    }
  }

  lemma FittingStream(cs: seq<seq<Byte>>, decode: Decoder)
    requires Fits(0, Concat(cs))
    ensures var s := Concat(cs); var raws := Terminated([], s);
      && |Leftover([], s)| <= MAX_EVENT
      && Chunks(NewObs, cs, decode) == ReadLines(NewObs, raws, decode).(line := Leftover([], s))
  {
    ChunksAreBytes(NewObs, cs, decode);
    BytesAreLines(NewObs, Concat(cs), decode);
  }

  lemma IntactTells(cs: seq<seq<Byte>>, decode: Decoder)
    requires Intact(Concat(cs))
    ensures Close(Chunks(NewObs, cs, decode), decode).completion == C.Collect(Testimonies(StreamEvents(Concat(cs)), decode))
  {
    var raws := Terminated([], Concat(cs));
    FittingStream(cs, decode);
    LinesTell(NewObs, raws, [], decode);
    var es := Testimonies(Events([], raws), decode);
    assert [] + es == es;
  }

  /**
   Past any bound, for every chunking: a line or event that does not fit, or that
   nothing ends, makes the verdict partial, wherever in the stream it stood.
   */
  lemma DamagedIsPartial(cs: seq<seq<Byte>>, decode: Decoder)
    requires !Intact(Concat(cs))
    ensures StreamReport(cs, decode).completion.Partial?
  {
    var o := Chunks(NewObs, cs, decode);
    if !o.sink.completion.partial && !CutOff(o) {
      var raws := Terminated([], Concat(cs));
      UnmarkedFits(NewObs, cs, decode);
      FittingStream(cs, decode);
      if EventsFit([], raws) {
        LinesTell(NewObs, raws, [], decode);
      } else {
        LinesLose(NewObs, raws, decode);
      }
    }
  }

  /** The verdict and the reasons of an intact stream, from its events alone. */
  lemma IntactVerdict(cs: seq<seq<Byte>>, decode: Decoder, i: nat, r: C.Reason)
    requires Intact(Concat(cs))
    ensures var es := Testimonies(StreamEvents(Concat(cs)), decode); var report := StreamReport(cs, decode);
      && report.completion
         == (if !C.Sound(es, true) || (C.SomeSettled(es) && !C.EveryoneSettled(es)) then C.Partial
             else if C.SomeSettled(es) then C.Available else C.Unavailable)
      && ((i, r) in report.finishes <==> i < C.CHOICES && C.Reasons(es, i) == {r})
  {
    var es := Testimonies(StreamEvents(Concat(cs)), decode);
    IntactTells(cs, decode);
    C.VerdictExactly(es, true);
    C.FinishesExactly(es, i, r);
  }

  /**
   A stream is reported as available exactly when none of it is cut off, each of
   its events is clean JSON or [DONE], [DONE] comes once and last, and every
   choice mentioned has one reason of the closed five. Chunks play no part in it.
   */
  lemma AvailableExactly(cs: seq<seq<Byte>>, decode: Decoder)
    ensures StreamReport(cs, decode).completion.Available? <==>
      && Intact(Concat(cs))
      && var es := Testimonies(StreamEvents(Concat(cs)), decode);
         C.OnlyClean(es) && C.DoneLast(es) && C.HasDone(es) && C.EveryoneSettled(es) && C.SomeoneSeen(es)
  {
    if Intact(Concat(cs)) {
      IntactTells(cs, decode);
      C.AvailableMeans(Testimonies(StreamEvents(Concat(cs)), decode), true);
    } else {
      DamagedIsPartial(cs, decode);
    }
  }

  /** The same for a plain body: within its bound, it parses and is clean. */
  lemma BodyAvailableExactly(cs: seq<seq<Byte>>, decode: Decoder)
    ensures BodyReport(cs, decode).completion.Available? <==>
      && |Concat(cs)| <= MAX_JSON && decode(Concat(cs)).Parsed?
      && var es := [Evidence(decode(Concat(cs)).said)];
         C.OnlyClean(es) && C.EveryoneSettled(es) && C.SomeoneSeen(es)
  {
    var s := Concat(cs);
    BodyChunksMean(Body([], false, EmptySink), cs);
    assert [] + s == s;
    if |s| > MAX_JSON || decode(s).Unparsable? {
      OneTestimony(C.GaveUp);
    } else {
      OneTestimony(Evidence(decode(s).said));
    }
  }

  lemma OneTestimony(e: C.Evidence)
    ensures C.Collect([e]) == C.Observe(C.Empty, e) && Tell(EmptySink, e).completion == C.Collect([e])
    ensures C.Metadata(C.Collect([e]), false).Available? <==>
      C.OnlyClean([e]) && C.EveryoneSettled([e]) && C.SomeoneSeen([e])
    ensures e.GaveUp? ==> !C.OnlyClean([e])
  {
    var es := [e];
    assert es[..0] == [] && es[0] == e;
    C.AvailableMeans(es, false);
    assert C.DoneLast(es);
  }

  // ---- Counts past the bound do depend on the chunks ----

  lemma NewlineAt(s: seq<Byte>, t: seq<Byte>)
    requires forall i :: 0 <= i < |s| ==> s[i] != LF
    ensures Newline(s + [LF] + t) == |s| && (s + [LF] + t)[..|s|] == s && (s + [LF] + t)[|s| + 1..] == t
  {
    var all := s + [LF] + t;
    assert all[|s|] == LF;
  }

  lemma ReadFirst(o: Obs, s: seq<Byte>, t: seq<Byte>, decode: Decoder)
    requires Bounded(o) && forall i :: 0 <= i < |s| ==> s[i] != LF
    ensures Chunk(o, s + [LF] + t, decode) == Chunk(CompleteLine(o, s, decode), t, decode)
  {
    NewlineAt(s, t);
  }

  /** A data line and the empty line that ends its event. */
  function DataEvent(j: seq<Byte>): seq<Byte> { DATA_COLON + j + [LF] + [LF] }

  predicate OneDataLine(j: seq<Byte>) {
    && j != [] && j[0] != SPACE && j[|j| - 1] != CR && (forall i :: 0 <= i < |j| ==> j[i] != LF)
    && |j| + 5 <= MAX_EVENT && !IsDone(j)
  }

  lemma DataLineIs(j: seq<Byte>)
    requires OneDataLine(j)
    ensures var d := DATA_COLON + j;
      && Bare(d) == d && d != [] && DATA_COLON <= d && Payload(d) == j
      && forall i :: 0 <= i < |d| ==> d[i] != LF
  {
    var d := DATA_COLON + j;
    assert d[|d| - 1] == j[|j| - 1] && d[5] == j[0] && d[5..] == j;
  }

  /** A data line is kept, or passed over while the event is oversize. */
  lemma ReadDataLine(o: Obs, j: seq<Byte>, decode: Decoder)
    requires Bounded(o) && o.line == [] && o.event == [] && OneDataLine(j)
    ensures CompleteLine(o, DATA_COLON + j, decode) == o.(event := if o.oversize then [] else j)
  {
    var d := DATA_COLON + j;
    DataLineIs(j);
    assert [] + d == d;
  }

  lemma ReadEmptyLine(o: Obs, rest: seq<Byte>, decode: Decoder)
    requires Bounded(o) && o.line == []
    ensures Chunk(o, [LF] + rest, decode) == Chunk(ConsumeEvent(o, decode), rest, decode)
  {
    assert [] + [LF] + rest == [LF] + rest;
    ReadFirst(o, [], rest, decode);
    assert o.line + [] == [];
  }

  lemma ReadDataEvent(o: Obs, j: seq<Byte>, decode: Decoder)
    requires Bounded(o) && o.line == [] && o.event == [] && OneDataLine(j)
    ensures Chunk(o, DataEvent(j), decode)
         == Obs([], [], false, if o.oversize then o.sink else ObserveJSON(o.sink, decode, j, true))
  {
    DataLineIs(j);
    ReadFirst(o, DATA_COLON + j, [LF], decode);
    ReadDataLine(o, j, decode);
    var p := o.(event := if o.oversize then [] else j);
    assert [LF] + [] == [LF];
    ReadEmptyLine(p, [], decode);
  }

  lemma OverlongFirst(x: seq<Byte>, rest: seq<Byte>, decode: Decoder)
    requires |x| > MAX_EVENT && forall i :: 0 <= i < |x| ==> x[i] != LF
    ensures Chunk(NewObs, x + [LF] + rest, decode) == Chunk(Obs([], [], true, Tell(EmptySink, C.GaveUp)), rest, decode)
    ensures Chunk(Chunk(NewObs, x, decode), [LF] + rest, decode) == Chunk(Obs([], [], false, Tell(EmptySink, C.GaveUp)), rest, decode)
  {
    ReadFirst(NewObs, x, rest, decode);
    var p := Obs([], [], true, Tell(EmptySink, C.GaveUp));
    assert Chunk(NewObs, x, decode) == p;
    ReadEmptyLine(p, rest, decode);
  }

  /**
   The token count of a stream can depend on where its chunks end: after any line
   over the bound, a data event counts if a chunk ended just before that line's
   LF, and is skipped if none did.
   */
  lemma {:induction false} OverlongLineDependsOnChunking(x: seq<Byte>, j: seq<Byte>, decode: Decoder)
    requires |x| > MAX_EVENT && forall i :: 0 <= i < |x| ==> x[i] != LF
    requires OneDataLine(j) && decode(j).Parsed? && decode(j).usage.input.Some?
    ensures var rest := DataEvent(j);
      && Concat([x + [LF] + rest]) == Concat([x, [LF] + rest])
      && StreamReport([x + [LF] + rest], decode).tokens.input == None
      && StreamReport([x, [LF] + rest], decode).tokens.input == decode(j).usage.input
  {
    SkippedWhole(x, j, decode);
    CountedCut(x, j, decode);
    SameBytes(x, DataEvent(j));
  }

  lemma {:induction false} SameBytes(a: seq<Byte>, b: seq<Byte>)
    ensures Concat([a + [LF] + b]) == Concat([a, [LF] + b])
  {
    var one, two := [a + [LF] + b], [a, [LF] + b];
    var tail: seq<seq<Byte>> := two[1..];
    assert |one[1..]| == 0 && tail == [[LF] + b] && |tail[1..]| == 0;
    assert Concat(one) == a + [LF] + b + [];
    assert Concat(two) == a + ([LF] + b + []);
  }

  lemma {:induction false} SkippedWhole(x: seq<Byte>, j: seq<Byte>, decode: Decoder)
    requires |x| > MAX_EVENT && (forall i :: 0 <= i < |x| ==> x[i] != LF) && OneDataLine(j)
    ensures StreamReport([x + [LF] + DataEvent(j)], decode).tokens.input == None
  {
    var k := Tell(EmptySink, C.GaveUp);
    OverlongFirst(x, DataEvent(j), decode);
    ReadDataEvent(Obs([], [], true, k), j, decode);
    OneChunk(NewObs, x + [LF] + DataEvent(j), decode);
    InputReported(k, decode);
  }

  lemma {:induction false} CountedCut(x: seq<Byte>, j: seq<Byte>, decode: Decoder)
    requires |x| > MAX_EVENT && (forall i :: 0 <= i < |x| ==> x[i] != LF) && OneDataLine(j)
    requires decode(j).Parsed? && decode(j).usage.input.Some?
    ensures StreamReport([x, [LF] + DataEvent(j)], decode).tokens.input == decode(j).usage.input
  {
    var k := Tell(EmptySink, C.GaveUp);
    OverlongFirst(x, DataEvent(j), decode);
    ReadDataEvent(Obs([], [], false, k), j, decode);
    TwoChunks(NewObs, x, [LF] + DataEvent(j), decode);
    InputReported(ObserveJSON(k, decode, j, true), decode);
  }

  lemma OneChunk(o: Obs, a: seq<Byte>, decode: Decoder)
    requires Bounded(o)
    ensures Chunks(o, [a], decode) == Chunk(o, a, decode) && Concat([a]) == a
  {
    assert |[a][1..]| == 0;
    assert Concat([a]) == a + [];
  }

  lemma TwoChunks(o: Obs, a: seq<Byte>, b: seq<Byte>, decode: Decoder)
    requires Bounded(o)
    ensures Chunks(o, [a, b], decode) == Chunk(Chunk(o, a, decode), b, decode) && Concat([a, b]) == a + b
  {
    var cs := [a, b];
    assert cs[1..] == [b];
    OneChunk(Chunk(o, a, decode), b, decode);
  }

  lemma InputReported(k: Sink, decode: Decoder)
    requires SinkOk(k) && (k.tokens.input.None? ==> k.timings.prompt.None?)
    ensures Summary(Close(Obs([], [], false, k), decode), true).tokens.input == k.tokens.input
  {}
}

/**
 Which counts a report holds, from the events of the response: each count is the
 one that the last event with it reported, and timings fill in what usage never
 said. The events are those of `ObserverVerdict`, defined from the bytes.
 */
module ObserverCounts {
  import opened Octets
  import opened Options
  import opened EventStream
  import opened Observer
  import opened ObserverVerdict
  import C = Completion

  // ---- The objects of a response ----

  /** The events that are JSON objects, decoded, in order. */
  function Objects(events: seq<seq<Byte>>, decode: Decoder): seq<Decoded> {
    if events == [] then []
    else (if IsDone(events[0]) || decode(events[0]).Unparsable? then [] else [decode(events[0])]) + Objects(events[1..], decode)
  }

  /** What an object can report a count of. */
  datatype Item = Input | Output | Cached | Reasoning | CacheTiming | Prompt | Generated

  function Reported(d: Decoded, x: Item): Count {
    if d.Unparsable? then None
    else match x
      case Input => d.usage.input
      case Output => d.usage.output
      case Cached => d.usage.cached
      case Reasoning => d.usage.reasoning
      case CacheTiming => d.cacheTiming
      case Prompt => d.timings.prompt
      case Generated => d.timings.generated
  }

  /** What the last object that reports `x` says; None if none reports it. */
  function LastOf(ds: seq<Decoded>, x: Item): Count {
    if ds == [] then None
    else if Reported(ds[|ds| - 1], x).Some? then Reported(ds[|ds| - 1], x)
    else LastOf(ds[..|ds| - 1], x)
  }

  predicate Silent(ds: seq<Decoded>, x: Item, from: nat) {
    forall k :: from <= k < |ds| ==> Reported(ds[k], x).None?
  }

  /** The last report: some object makes it and none after that object makes one. */
  lemma {:induction false} LastMeans(ds: seq<Decoded>, x: Item)
    ensures LastOf(ds, x).None? <==> Silent(ds, x, 0)
    ensures LastOf(ds, x).Some? ==> exists i :: 0 <= i < |ds| && Reported(ds[i], x) == LastOf(ds, x) && Silent(ds, x, i + 1)
  {
    if ds != [] {
      var n := |ds| - 1;
      var p := ds[..n];
      LastMeans(p, x);
      assert forall i :: 0 <= i < n ==> p[i] == ds[i];
      if Reported(ds[n], x).Some? {
        assert Silent(ds, x, n + 1);
      } else if LastOf(p, x).Some? {
        var i :| 0 <= i < |p| && Reported(p[i], x) == LastOf(p, x) && Silent(p, x, i + 1);
        assert Reported(ds[i], x) == LastOf(ds, x) && Silent(ds, x, i + 1);
      }
    }
  }

  lemma LastSnoc(ds: seq<Decoded>, d: Decoded, x: Item)
    ensures LastOf(ds + [d], x) == Latest(LastOf(ds, x), Reported(d, x))
  {
    assert (ds + [d])[..|ds|] == ds;
  }

  predicate Generates(ds: seq<Decoded>) { exists i :: 0 <= i < |ds| && ds[i].Parsed? && ds[i].generates }

  // ---- What the observer has counted ----

  /** Usage outranks the cache timing; which of the two was counted is remembered. */
  predicate CachedIs(ds: seq<Decoded>, cached: Count, fromUsage: bool) {
    && (fromUsage <==> LastOf(ds, Cached).Some?)
    && cached == if fromUsage then LastOf(ds, Cached) else LastOf(ds, CacheTiming)
  }

  predicate Counted(k: Sink, ds: seq<Decoded>, stream: bool) {
    && k.tokens.input == LastOf(ds, Input) && k.tokens.output == LastOf(ds, Output)
    && k.tokens.reasoning == LastOf(ds, Reasoning)
    && k.timings.prompt == LastOf(ds, Prompt) && k.timings.generated == LastOf(ds, Generated)
    && CachedIs(ds, k.tokens.cached, k.cacheFromUsage)
    && (k.sawOutput <==> stream && Generates(ds))
  }

  lemma GeneratesSnoc(ds: seq<Decoded>, d: Decoded)
    ensures Generates(ds + [d]) <==> Generates(ds) || (d.Parsed? && d.generates)
  {
    var t := ds + [d];
    assert t[|ds|] == d && forall i :: 0 <= i < |ds| ==> t[i] == ds[i];
  }

  /** One more object is counted. */
  lemma CountStep(k: Sink, ds: seq<Decoded>, decode: Decoder, value: seq<Byte>, stream: bool)
    requires SinkOk(k) && Counted(k, ds, stream) && decode(value).Parsed?
    ensures Counted(ObserveJSON(k, decode, value, stream), ds + [decode(value)], stream)
  {
    var d := decode(value);
    LastSnoc(ds, d, Input);
    LastSnoc(ds, d, Output);
    LastSnoc(ds, d, Reasoning);
    LastSnoc(ds, d, Prompt);
    LastSnoc(ds, d, Generated);
    LastSnoc(ds, d, Cached);
    LastSnoc(ds, d, CacheTiming);
    GeneratesSnoc(ds, d);
  }

  /** Evidence alone changes no count. */
  lemma TellCounts(k: Sink, e: C.Evidence, ds: seq<Decoded>, stream: bool)
    requires SinkOk(k) && Counted(k, ds, stream)
    ensures Counted(Tell(k, e), ds, stream)
  {}

  lemma EventCounts(o: Obs, ds: seq<Decoded>, decode: Decoder)
    requires Bounded(o) && !o.oversize && Counted(o.sink, ds, true)
    ensures Counted(ConsumeEvent(o, decode).sink, ds + Objects(if o.event == [] then [] else [o.event], decode), true)
  {
    assert ds + [] == ds;
    if o.event != [] {
      var es := [o.event];
      assert es[0] == o.event && Objects(es[1..], decode) == [];
      TellCounts(o.sink, C.Done, ds, true);
      TellCounts(o.sink, C.GaveUp, ds, true);
      if !IsDone(o.event) && decode(o.event).Parsed? {
        CountStep(o.sink, ds, decode, o.event, true);
        assert [decode(o.event)] + [] == [decode(o.event)];
      }
    }
  }

  // ---- Over the lines of a stream ----

  /** One line that leaves the event within its bound. */
  lemma LineCounts(o: Obs, raw: seq<Byte>, ds: seq<Decoded>, decode: Decoder)
    requires Bounded(o) && !o.oversize && Counted(o.sink, ds, true) && |Next(o.event, raw)| <= MAX_EVENT
    ensures var r := ConsumeLine(o, raw, decode);
      && !r.oversize && r.event == Next(o.event, raw)
      && Counted(r.sink, ds + Objects(if Bare(raw) == [] && o.event != [] then [o.event] else [], decode), true)
  {
    EventCounts(o, ds, decode);
    assert ds + [] == ds;
  }

  lemma {:induction false} ObjectsConcat(a: seq<seq<Byte>>, b: seq<seq<Byte>>, decode: Decoder)
    ensures Objects(a + b, decode) == Objects(a, decode) + Objects(b, decode)
    decreases |a|
  {
    if a == [] {
      assert a + b == b;
      assert [] + Objects(b, decode) == Objects(b, decode);
    } else {
      assert (a + b)[0] == a[0] && (a + b)[1..] == a[1..] + b;
      ObjectsConcat(a[1..], b, decode);
    }
  }

  lemma ObjectsAfter(ds: seq<Decoded>, a: seq<seq<Byte>>, b: seq<seq<Byte>>, decode: Decoder)
    ensures ds + Objects(a, decode) + Objects(b, decode) == ds + Objects(a + b, decode)
  {
    ObjectsConcat(a, b, decode);
  }

  lemma {:induction false} LinesCount(o: Obs, raws: seq<seq<Byte>>, ds: seq<Decoded>, decode: Decoder)
    requires Bounded(o) && !o.oversize && Counted(o.sink, ds, true) && EventsFit(o.event, raws)
    ensures var r := ReadLines(o, raws, decode);
      && !r.oversize && r.event == Unfinished(o.event, raws)
      && Counted(r.sink, ds + Objects(Events(o.event, raws), decode), true)
    decreases |raws|
  {
    if raws == [] {
      assert ds + [] == ds;
    } else {
      var ended := if Bare(raws[0]) == [] && o.event != [] then [o.event] else [];
      var more := Events(Next(o.event, raws[0]), raws[1..]);
      LineCounts(o, raws[0], ds, decode);
      LinesCount(ConsumeLine(o, raws[0], decode), raws[1..], ds + Objects(ended, decode), decode);
      assert Events(o.event, raws) == ended + more;
      ObjectsAfter(ds, ended, more, decode);
    }
  }

  /** All lines of a stream, an unended last one included. */
  function AllLines(s: seq<Byte>): seq<seq<Byte>> {
    Terminated([], s) + if Leftover([], s) == [] then [] else [Leftover([], s)]
  }

  /** All events of a stream, an unended last one included. */
  function AllEvents(s: seq<Byte>): seq<seq<Byte>> {
    var rest := Unfinished([], AllLines(s));
    Events([], AllLines(s)) + if rest == [] then [] else [rest]
  }

  predicate Fitting(s: seq<Byte>) { Fits(0, s) && EventsFit([], AllLines(s)) }

  lemma {:induction false} ReadConcat(o: Obs, a: seq<seq<Byte>>, b: seq<seq<Byte>>, decode: Decoder)
    requires Bounded(o)
    ensures ReadLines(o, a + b, decode) == ReadLines(ReadLines(o, a, decode), b, decode)
    decreases |a|
  {
    if a == [] {
      assert a + b == b;
    } else {
      assert (a + b)[0] == a[0] && (a + b)[1..] == a[1..] + b;
      ReadConcat(ConsumeLine(o, a[0], decode), a[1..], b, decode);
    }
  }

  /** A sink that differs only in its evidence counts the same. */
  predicate SameCounts(k: Sink, l: Sink) { l == k.(completion := l.completion) }

  lemma ConsumeEventSame(o: Obs, p: Obs, decode: Decoder)
    requires Bounded(o) && Bounded(p) && p == o.(sink := p.sink) && SameCounts(o.sink, p.sink)
    ensures var r, q := ConsumeEvent(o, decode), ConsumeEvent(p, decode); q == r.(sink := q.sink) && SameCounts(r.sink, q.sink)
  {}

  lemma ConsumeLineSame(o: Obs, p: Obs, raw: seq<Byte>, decode: Decoder)
    requires Bounded(o) && Bounded(p) && p == o.(sink := p.sink) && SameCounts(o.sink, p.sink)
    ensures var r, q := ConsumeLine(o, raw, decode), ConsumeLine(p, raw, decode); q == r.(sink := q.sink) && SameCounts(r.sink, q.sink)
  {
    ConsumeEventSame(o, p, decode);
  }

  /** The end of the stream reads the last line and the last event, whatever it marks. */
  lemma {:induction false} CloseReads(o: Obs, line: seq<Byte>, decode: Decoder)
    requires Bounded(o) && o.line == [] && |line| <= MAX_EVENT
    ensures var last := ReadLines(o, if line == [] then [] else [line], decode);
      SameCounts(ConsumeEvent(last, decode).sink, Close(o.(line := line), decode))
  {
    var p := Mark(o.(line := line));
    var q := LastLine(p, decode);
    if line == [] {
      ConsumeEventSame(o, p, decode);
      assert o.(line := line) == o;
    } else {
      ConsumeLineSame(o, p.(line := []), line, decode);
      assert [line][0] == line && ReadLines(ConsumeLine(o, line, decode), [line][1..], decode) == ConsumeLine(o, line, decode);
      ConsumeEventSame(ConsumeLine(o, line, decode), q, decode);
    }
  }

  lemma {:induction false} CountsOfStream(cs: seq<seq<Byte>>, decode: Decoder)
    requires Fitting(Concat(cs))
    ensures Counted(Close(Chunks(NewObs, cs, decode), decode), Objects(AllEvents(Concat(cs)), decode), true)
  {
    var s := Concat(cs);
    var raws, line := Terminated([], s), Leftover([], s);
    var tail := if line == [] then [] else [line];
    FittingStream(cs, decode);
    var o := ReadLines(NewObs, raws, decode);
    CloseReads(o, line, decode);
    ReadConcat(NewObs, raws, tail, decode);
    LinesCount(NewObs, AllLines(s), [], decode);
    var last := ReadLines(NewObs, AllLines(s), decode);
    var ds := Objects(Events([], AllLines(s)), decode);
    assert [] + ds == ds;
    EventCounts(last, ds, decode);
    var rest := if last.event == [] then [] else [last.event];
    ObjectsConcat(Events([], AllLines(s)), rest, decode);
    CountedSame(ConsumeEvent(last, decode).sink, Close(Chunks(NewObs, cs, decode), decode), ds + Objects(rest, decode));
  }

  lemma CountedSame(k: Sink, l: Sink, ds: seq<Decoded>)
    requires Counted(k, ds, true) && SameCounts(k, l)
    ensures Counted(l, ds, true)
  {}

  // ---- The report ----

  /** The counts of a report, by what the objects of the response reported last. */
  predicate TrueCounts(r: Report, ds: seq<Decoded>) {
    && r.timings.prompt == LastOf(ds, Prompt) && r.timings.generated == LastOf(ds, Generated)
    && r.tokens.reasoning == LastOf(ds, Reasoning)
    && r.tokens.cached == (if LastOf(ds, Cached).Some? then LastOf(ds, Cached) else LastOf(ds, CacheTiming))
    && r.tokens.output == (if LastOf(ds, Output).Some? then LastOf(ds, Output) else LastOf(ds, Generated))
    && (LastOf(ds, Input).Some? ==> r.tokens.input == LastOf(ds, Input))
    && (LastOf(ds, Input).None? ==> r.tokens.input == Derived(LastOf(ds, Prompt), r.tokens.cached))
  }

  /** The prompt timing leaves out the cached prefix; their sum stands in only within 63 bits. */
  function Derived(prompt: Count, cached: Count): Count {
    if prompt.None? then None
    else
      var sum := prompt.value + if cached.Some? then cached.value else 0;
      if sum < 0x8000_0000_0000_0000 then Some(sum) else None
  }

  lemma SummaryCounts(k: Sink, ds: seq<Decoded>, stream: bool)
    requires SinkOk(k) && Counted(k, ds, stream)
    ensures TrueCounts(Summary(k, stream), ds) && (Summary(k, stream).sawOutput <==> stream && Generates(ds))
  {}

  /**
   For a stream whose lines and events fit, however it is chunked: every count of
   the report is the one that the last event with it reported.
   */
  lemma StreamCounts(cs: seq<seq<Byte>>, decode: Decoder)
    requires Fitting(Concat(cs))
    ensures var ds := Objects(AllEvents(Concat(cs)), decode); var r := StreamReport(cs, decode);
      TrueCounts(r, ds) && (r.sawOutput <==> Generates(ds))
  {
    CountsOfStream(cs, decode);
    SummaryCounts(Close(Chunks(NewObs, cs, decode), decode), Objects(AllEvents(Concat(cs)), decode), true);
  }

  /** For a plain body within its bound they are those of its one object, if it is one. */
  lemma BodyCounts(cs: seq<seq<Byte>>, decode: Decoder)
    ensures var s := Concat(cs); var r := BodyReport(cs, decode);
      && TrueCounts(r, if |s| > MAX_JSON || decode(s).Unparsable? then [] else [decode(s)])
      && !r.sawOutput
  {
    var s := Concat(cs);
    BodyChunksMean(Body([], false, EmptySink), cs);
    assert [] + s == s;
    TellCounts(EmptySink, C.GaveUp, [], false);
    if |s| <= MAX_JSON && decode(s).Parsed? {
      CountStep(EmptySink, [], decode, s, false);
      assert [] + [decode(s)] == [decode(s)];
      SummaryCounts(ObserveJSON(EmptySink, decode, s, false), [decode(s)], false);
    } else {
      SummaryCounts(Tell(EmptySink, C.GaveUp), [], false);
    }
  }
}

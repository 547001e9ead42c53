/**
 The response observer: it sees copies of the response in arbitrary chunks, keeps
 bounded buffers, and feeds whole events to the completion collector and to the
 token and timing counters. JSON decoding is a parameter.
 */
module Observer {
  import opened Octets
  import opened Options
  import opened EventStream
  import C = Completion

  const MAX_EVENT: nat := 262144
  const MAX_JSON: nat := 1048576
  const MAX_INT64: nat := 0x7fff_ffff_ffff_ffff

  type Count = Option<nat>

  datatype Tokens = Tokens(input: Count, output: Count, cached: Count, reasoning: Count)

  datatype Timings = Timings(prompt: Count, generated: Count)

  /** A decoded response object: what the collector and the counters read from it. */
  datatype Decoded =
    | Unparsable
    | Parsed(said: Said, usage: Tokens, timings: Timings, cacheTiming: Count, generates: bool)

  /** What an object says to the collector: its "choices", unless a key that matters is written twice. */
  datatype Said = Twice | Once(choices: C.Field)

  function Evidence(s: Said): C.Evidence { match s case Twice => C.DuplicateKey case Once(f) => C.Object(f) }

  type Decoder = seq<Byte> -> Decoded

  // ---- What events are fed into ----

  datatype Sink = Sink(completion: C.Collector, tokens: Tokens, timings: Timings, cacheFromUsage: bool, sawOutput: bool)

  predicate SinkOk(k: Sink) { C.WellFormed(k.completion) }

  const EmptySink := Sink(C.Empty, Tokens(None, None, None, None), Timings(None, None), false, false)

  function Latest(before: Count, now: Count): Count { if now.Some? then now else before }

  function Tell(k: Sink, e: C.Evidence): (r: Sink)
    requires SinkOk(k)
    ensures SinkOk(r) && (k.completion.partial ==> r.completion.partial)
  {
    PartialIsSticky(k.completion, e);
    k.(completion := C.Observe(k.completion, e))
  }

  lemma {:induction false} ChoicesSticky(c: C.Collector, xs: seq<C.Choice>)
    requires C.WellFormed(c) && c.partial
    ensures C.ObserveChoices(c, xs).partial
    decreases |xs|
  {
    if xs != [] { ChoicesSticky(c, xs[..|xs| - 1]); }
  }

  /** Nothing that arrives later removes a partial mark. */
  lemma PartialIsSticky(c: C.Collector, e: C.Evidence)
    requires C.WellFormed(c)
    ensures c.partial ==> C.Observe(c, e).partial
  {
    if c.partial && e.Object? && e.field.Elements? { ChoicesSticky(C.AfterDone(c), e.field.items); }
  }

  function ObserveJSON(k: Sink, decode: Decoder, value: seq<Byte>, stream: bool): (r: Sink)
    requires SinkOk(k)
    ensures SinkOk(r) && (k.completion.partial ==> r.completion.partial)
  {
    match decode(value)
    case Unparsable => Tell(k, C.GaveUp)
    case Parsed(said, u, t, cacheTiming, generates) =>
      var fromUsage := k.cacheFromUsage || u.cached.Some?;
      var cached := Latest(k.tokens.cached, u.cached);
      Tell(k, Evidence(said)).(
        sawOutput := k.sawOutput || (stream && generates),
        tokens := Tokens(Latest(k.tokens.input, u.input), Latest(k.tokens.output, u.output),
                         if fromUsage then cached else Latest(cached, cacheTiming),
                         Latest(k.tokens.reasoning, u.reasoning)),
        timings := Timings(Latest(k.timings.prompt, t.prompt), Latest(k.timings.generated, t.generated)),
        cacheFromUsage := fromUsage)
  }

  // ---- Event framing ----

  datatype Obs = Obs(line: seq<Byte>, event: seq<Byte>, oversize: bool, sink: Sink)

  /** The memory bound, whatever the input. */
  predicate Bounded(o: Obs) { |o.line| <= MAX_EVENT && |o.event| <= MAX_EVENT && SinkOk(o.sink) }

  /** The UTF-8 encodings of the characters bytes.TrimSpace removes. */
  predicate IsSpace(u: seq<Byte>) {
    || (|u| == 1 && (u[0] == 32 || 9 <= u[0] <= 13))
    || (|u| == 2 && u[0] == 0xC2 && (u[1] == 0x85 || u[1] == 0xA0))
    || (|u| == 3 && u[0] == 0xE1 && u[1] == 0x9A && u[2] == 0x80)
    || (|u| == 3 && u[0] == 0xE2 && u[1] == 0x80 && (0x80 <= u[2] <= 0x8A || u[2] == 0xA8 || u[2] == 0xA9 || u[2] == 0xAF))
    || (|u| == 3 && u[0] == 0xE2 && u[1] == 0x81 && u[2] == 0x9F)
    || (|u| == 3 && u[0] == 0xE3 && u[1] == 0x80 && u[2] == 0x80)
  }

  function TrimLeft(s: seq<Byte>): seq<Byte> {
    if |s| >= 1 && IsSpace(s[..1]) then TrimLeft(s[1..])
    else if |s| >= 2 && IsSpace(s[..2]) then TrimLeft(s[2..])
    else if |s| >= 3 && IsSpace(s[..3]) then TrimLeft(s[3..])
    else s
  }

  function TrimRight(s: seq<Byte>): seq<Byte> {
    var n := |s|;
    if n >= 1 && IsSpace(s[n - 1..]) then TrimRight(s[..n - 1])
    else if n >= 2 && IsSpace(s[n - 2..]) then TrimRight(s[..n - 2])
    else if n >= 3 && IsSpace(s[n - 3..]) then TrimRight(s[..n - 3])
    else s
  }

  predicate IsDone(event: seq<Byte>) { TrimRight(TrimLeft(event)) == DONE }

  const DONE: seq<Byte> := [91, 68, 79, 78, 69, 93]

  const DATA_COLON: seq<Byte> := [100, 97, 116, 97, 58]

  function ConsumeEvent(o: Obs, decode: Decoder): (r: Obs)
    requires Bounded(o)
    ensures Bounded(r) && (o.sink.completion.partial ==> r.sink.completion.partial)
  {
    var sink :=
      if o.oversize || o.event == [] then o.sink
      else if IsDone(o.event) then Tell(o.sink, C.Done)
      else ObserveJSON(o.sink, decode, o.event, true);
    Obs(o.line, [], false, sink)
  }

  function GiveUp(o: Obs): (r: Obs)
    requires SinkOk(o.sink)
    ensures SinkOk(r.sink) && r.sink.completion.partial && r.oversize && r.line == o.line && r.event == o.event
  {
    o.(oversize := true, sink := Tell(o.sink, C.GaveUp))
  }

  function Payload(line: seq<Byte>): (d: seq<Byte>)
    requires |line| >= 5
    ensures |d| <= |line| - 5
  {
    if |line| > 5 && line[5] == SPACE then line[6..] else line[5..]
  }

  /** A complete line, without its LF. */
  function ConsumeLine(o: Obs, raw: seq<Byte>, decode: Decoder): (r: Obs)
    requires Bounded(o)
    ensures Bounded(r) && r.line == o.line && (o.sink.completion.partial ==> r.sink.completion.partial)
  {
    var line := if raw != [] && raw[|raw| - 1] == CR then raw[..|raw| - 1] else raw;
    if line == [] then ConsumeEvent(o, decode)
    else if !(DATA_COLON <= line) || o.oversize then o
    else
      var data := Payload(line);
      var extra := if o.event == [] then |data| else |data| + 1;
      if |o.event| + extra > MAX_EVENT then GiveUp(o).(event := [])
      else o.(event := if o.event == [] then data else o.event + [LF] + data)
  }

  function Newline(s: seq<Byte>): (k: nat)
    ensures k <= |s| && (k < |s| ==> s[k] == LF) && forall i :: 0 <= i < k ==> s[i] != LF
  {
    if s == [] || s[0] == LF then 0 else 1 + Newline(s[1..])
  }

  /** One chunk, as observeSSE handles it. */
  function Chunk(o: Obs, value: seq<Byte>, decode: Decoder): (r: Obs)
    requires Bounded(o)
    ensures Bounded(r) && (o.sink.completion.partial ==> r.sink.completion.partial)
    decreases |value|
  {
    if value == [] then o
    else
      var k := Newline(value);
      if k == |value| then
        if |o.line| + |value| <= MAX_EVENT then o.(line := o.line + value) else GiveUp(o).(line := [])
      else
        Chunk(CompleteLine(o, value[..k], decode), value[k + 1..], decode)
  }

  function CompleteLine(o: Obs, piece: seq<Byte>, decode: Decoder): (r: Obs)
    requires Bounded(o)
    ensures Bounded(r) && r.line == [] && (o.sink.completion.partial ==> r.sink.completion.partial)
  {
    if |o.line| + |piece| <= MAX_EVENT then ConsumeLine(o.(line := []), o.line + piece, decode)
    else GiveUp(o).(line := [])
  }

  function Chunks(o: Obs, cs: seq<seq<Byte>>, decode: Decoder): (r: Obs)
    requires Bounded(o)
    ensures Bounded(r) && (o.sink.completion.partial ==> r.sink.completion.partial)
    decreases |cs|
  {
    if cs == [] then o else Chunks(Chunk(o, cs[0], decode), cs[1..], decode)
  }

  // ---- The same stream byte by byte ----

  function OneByte(o: Obs, b: Byte, decode: Decoder): (r: Obs)
    requires Bounded(o) && |o.line| < MAX_EVENT + (if b == LF then 1 else 0)
    ensures Bounded(r)
  {
    if b == LF then ConsumeLine(o.(line := []), o.line, decode) else o.(line := o.line + [b])
  }

  /** Every LF-delimited line fits, given what is already buffered. */
  predicate Fits(n: nat, s: seq<Byte>)
    decreases |s|
  {
    n <= MAX_EVENT && (s == [] || Fits(if s[0] == LF then 0 else n + 1, s[1..]))
  }

  function Bytes(o: Obs, s: seq<Byte>, decode: Decoder): (r: Obs)
    requires Bounded(o) && Fits(|o.line|, s)
    ensures Bounded(r)
    decreases |s|
  {
    if s == [] then o
    else
      assert Fits(if s[0] == LF then 0 else |o.line| + 1, s[1..]);
      Bytes(OneByte(o, s[0], decode), s[1..], decode)
  }

  lemma {:induction false} FitsSplit(n: nat, s: seq<Byte>, t: seq<Byte>, o: Obs, decode: Decoder)
    requires Bounded(o) && |o.line| == n && Fits(n, s + t)
    ensures Fits(n, s) && Fits(|Bytes(o, s, decode).line|, t)
    ensures Bytes(o, s + t, decode) == Bytes(Bytes(o, s, decode), t, decode)
    decreases |s|
  {
    if s == [] {
      assert s + t == t;
    } else {
      assert (s + t)[1..] == s[1..] + t;
      var p := OneByte(o, s[0], decode);
      FitsSplit(|p.line|, s[1..], t, p, decode);
    }
  }

  lemma {:induction false} PlainBytes(o: Obs, s: seq<Byte>, decode: Decoder)
    requires Bounded(o) && Fits(|o.line|, s) && forall i :: 0 <= i < |s| ==> s[i] != LF
    ensures |o.line| + |s| <= MAX_EVENT && Bytes(o, s, decode) == o.(line := o.line + s)
    decreases |s|
  {
    if s == [] {
      assert o.line + s == o.line;
    } else {
      PlainBytes(o.(line := o.line + [s[0]]), s[1..], decode);
      assert o.line + [s[0]] + s[1..] == o.line + s;
    }
  }

  /** Where the lines fit, a chunk is no more than its bytes. */
  lemma {:induction false} ChunkIsBytes(o: Obs, value: seq<Byte>, decode: Decoder)
    requires Bounded(o) && Fits(|o.line|, value)
    ensures Chunk(o, value, decode) == Bytes(o, value, decode)
    decreases |value|
  {
    if value != [] {
      var k := Newline(value);
      if k == |value| {
        PlainBytes(o, value, decode);
      } else {
        var s, t := value[..k], value[k..];
        assert value == s + t;
        FitsSplit(|o.line|, s, t, o, decode);
        PlainBytes(o, s, decode);
        var p := o.(line := o.line + s);
        assert t[0] == LF && t[1..] == value[k + 1..];
        assert CompleteLine(o, s, decode) == OneByte(p, LF, decode) by {
          assert p.(line := []) == o.(line := []);
        }
        ChunkIsBytes(OneByte(p, LF, decode), t[1..], decode);
      }
    }
  }

  function Concat(cs: seq<seq<Byte>>): seq<Byte> {
    if cs == [] then [] else cs[0] + Concat(cs[1..])
  }

  lemma {:induction false} ChunksAreBytes(o: Obs, cs: seq<seq<Byte>>, decode: Decoder)
    requires Bounded(o) && Fits(|o.line|, Concat(cs))
    ensures Chunks(o, cs, decode) == Bytes(o, Concat(cs), decode)
    decreases |cs|
  {
    if cs != [] {
      FitsSplit(|o.line|, cs[0], Concat(cs[1..]), o, decode);
      ChunkIsBytes(o, cs[0], decode);
      ChunksAreBytes(Bytes(o, cs[0], decode), cs[1..], decode);
    }
  }

  // ---- The end of the response ----

  datatype Report = Report(tokens: Tokens, timings: Timings, sawOutput: bool, completion: C.Observation, finishes: seq<(nat, C.Reason)>)

  /** Counts derived from timings fill in what the usage object did not say. */
  function Summary(k: Sink, stream: bool): (r: Report)
    requires SinkOk(k)
    ensures k.completion.partial ==> r.completion.Partial?
  {
    var cached := if k.tokens.cached.Some? then k.tokens.cached.value else 0;
    var input :=
      if k.tokens.input.None? && k.timings.prompt.Some? && k.timings.prompt.value + cached <= MAX_INT64
      then Some(k.timings.prompt.value + cached) else k.tokens.input;
    var output := if k.tokens.output.None? then k.timings.generated else k.tokens.output;
    Report(k.tokens.(input := input, output := output), k.timings, k.sawOutput,
           C.Metadata(k.completion, stream), C.Finishes(k.completion.choices))
  }

  /** EOF: an unfinished line or event is consumed, but marks the completion partial. */
  function Close(o: Obs, decode: Decoder): (r: Sink)
    requires Bounded(o)
    ensures SinkOk(r) && (o.sink.completion.partial || CutOff(o) ==> r.completion.partial)
  {
    ConsumeEvent(LastLine(Mark(o), decode), decode).sink
  }

  predicate CutOff(o: Obs) { o.line != [] || o.event != [] || o.oversize }

  function Mark(o: Obs): (r: Obs)
    requires Bounded(o)
    ensures Bounded(r) && (o.sink.completion.partial || CutOff(o) ==> r.sink.completion.partial)
  {
    if CutOff(o) then o.(sink := Tell(o.sink, C.GaveUp)) else o
  }

  function LastLine(o: Obs, decode: Decoder): (r: Obs)
    requires Bounded(o)
    ensures Bounded(r) && (o.sink.completion.partial ==> r.sink.completion.partial)
  {
    if o.line == [] then o else ConsumeLine(o.(line := []), o.line, decode)
  }

  const NewObs := Obs([], [], false, EmptySink)

  function StreamReport(cs: seq<seq<Byte>>, decode: Decoder): Report {
    Summary(Close(Chunks(NewObs, cs, decode), decode), true)
  }

  /** Any two chunkings of one stream whose lines all fit give the same report. */
  lemma ChunkingDoesNotMatter(cs: seq<seq<Byte>>, ds: seq<seq<Byte>>, decode: Decoder)
    requires Concat(cs) == Concat(ds) && Fits(0, Concat(cs))
    ensures StreamReport(cs, decode) == StreamReport(ds, decode)
  {
    ChunksAreBytes(NewObs, cs, decode);
    ChunksAreBytes(NewObs, ds, decode);
  }

  // ---- One JSON body ----

  datatype Body = Body(buffer: seq<Byte>, oversized: bool, sink: Sink)

  predicate BodyBounded(b: Body) { |b.buffer| <= MAX_JSON && SinkOk(b.sink) }

  function BodyChunk(b: Body, value: seq<Byte>): (r: Body)
    requires BodyBounded(b)
    ensures BodyBounded(r)
  {
    if b.oversized then b
    else if |b.buffer| + |value| > MAX_JSON then Body([], true, Tell(b.sink, C.GaveUp))
    else b.(buffer := b.buffer + value)
  }

  function BodyChunks(b: Body, cs: seq<seq<Byte>>): (r: Body)
    requires BodyBounded(b)
    ensures BodyBounded(r)
    decreases |cs|
  {
    if cs == [] then b else BodyChunks(BodyChunk(b, cs[0]), cs[1..])
  }

  function BodyReport(cs: seq<seq<Byte>>, decode: Decoder): Report {
    var b := BodyChunks(Body([], false, EmptySink), cs);
    Summary(if b.oversized then b.sink else ObserveJSON(b.sink, decode, b.buffer, false), false)
  }

  lemma {:induction false} BodyChunksMean(b: Body, cs: seq<seq<Byte>>)
    requires BodyBounded(b)
    ensures BodyChunks(b, cs) ==
      if b.oversized then b
      else if |b.buffer| + |Concat(cs)| > MAX_JSON then Body([], true, Tell(b.sink, C.GaveUp))
      else b.(buffer := b.buffer + Concat(cs))
    decreases |cs|
  {
    if cs == [] {
      assert b.buffer + [] == b.buffer;
    } else {
      BodyChunksMean(BodyChunk(b, cs[0]), cs[1..]);
      assert b.buffer + cs[0] + Concat(cs[1..]) == b.buffer + Concat(cs);
    }
  }

  /** For a JSON body of any size the chunking never matters. */
  lemma BodyChunkingDoesNotMatter(cs: seq<seq<Byte>>, ds: seq<seq<Byte>>, decode: Decoder)
    requires Concat(cs) == Concat(ds)
    ensures BodyReport(cs, decode) == BodyReport(ds, decode)
  {
    BodyChunksMean(Body([], false, EmptySink), cs);
    BodyChunksMean(Body([], false, EmptySink), ds);
  }

  // ---- The observer in place ----

  class ResponseObserver {
    const stream: bool
    const decode: Decoder
    var jsonBuffer: seq<Byte>
    var jsonOversized: bool
    var line: seq<Byte>
    var event: seq<Byte>
    var eventOversize: bool
    var sink: Sink

    ghost function Framing(): Obs
      reads this
    {
      Obs(line, event, eventOversize, sink)
    }

    ghost function Whole(): Body
      reads this
    {
      Body(jsonBuffer, jsonOversized, sink)
    }

    /** No buffer ever exceeds its bound. */
    ghost predicate Valid()
      reads this
    {
      Bounded(Framing()) && BodyBounded(Whole())
    }

    constructor (stream: bool, decode: Decoder)
      ensures Valid() && this.stream == stream && this.decode == decode
      ensures Framing() == NewObs && Whole() == Body([], false, EmptySink)
    {
      this.stream, this.decode := stream, decode;
      jsonBuffer, jsonOversized, line, event, eventOversize, sink := [], false, [], [], false, EmptySink;
    }

    method Observe(value: seq<Byte>)
      requires Valid()
      modifies this
      ensures Valid()
      ensures stream ==> Framing() == Chunk(old(Framing()), value, decode) && jsonBuffer == old(jsonBuffer)
      ensures !stream ==> Whole() == BodyChunk(old(Whole()), value) && line == old(line) && event == old(event)
    {
      if stream {
        ObserveSSE(value);
      } else if jsonOversized {
      } else if |jsonBuffer| + |value| > MAX_JSON {
        jsonBuffer, jsonOversized, sink := [], true, Tell(sink, C.GaveUp);
      } else {
        jsonBuffer := jsonBuffer + value;
      }
    }

    method ObserveSSE(chunk: seq<Byte>)
      requires Valid()
      modifies this`line, this`event, this`eventOversize, this`sink
      ensures Valid() && Framing() == Chunk(old(Framing()), chunk, decode)
    {
      var value := chunk;
      while |value| > 0
        invariant Valid()
        invariant Chunk(Framing(), value, decode) == Chunk(old(Framing()), chunk, decode)
        decreases |value|
      {
        var newline := Newline(value);
        if newline == |value| {
          if |line| + |value| <= MAX_EVENT {
            line := line + value;
          } else {
            line, eventOversize, sink := [], true, Tell(sink, C.GaveUp);
          }
          return;
        }
        if |line| + newline <= MAX_EVENT {
          var whole := line + value[..newline];
          line := [];
          ConsumeSSELine(whole);
        } else {
          line, eventOversize, sink := [], true, Tell(sink, C.GaveUp);
        }
        value := value[newline + 1..];
      }
    }

    method ConsumeSSELine(raw: seq<Byte>)
      requires Valid()
      modifies this`event, this`eventOversize, this`sink
      ensures Valid() && Framing() == ConsumeLine(old(Framing()), raw, decode)
    {
      var text := if raw != [] && raw[|raw| - 1] == CR then raw[..|raw| - 1] else raw;
      if text == [] {
        ConsumeSSEEvent();
        return;
      }
      if !(DATA_COLON <= text) || eventOversize { return; }
      var data := Payload(text);
      var additional := if event == [] then |data| else |data| + 1;
      if |event| + additional > MAX_EVENT {
        event, eventOversize, sink := [], true, Tell(sink, C.GaveUp);
        return;
      }
      if event != [] { event := event + [LF] + data; } else { event := data; }
    }

    method ConsumeSSEEvent()
      requires Valid()
      modifies this`event, this`eventOversize, this`sink
      ensures Valid() && Framing() == ConsumeEvent(old(Framing()), decode)
    {
      if !eventOversize && event != [] {
        if IsDone(event) {
          sink := Tell(sink, C.Done);
        } else {
          sink := ObserveJSON(sink, decode, event, true);
        }
      }
      event, eventOversize := [], false;
    }

    method Finish() returns (r: Report)
      requires Valid()
      modifies this
      ensures stream ==> r == Summary(Close(old(Framing()), decode), true)
      ensures !stream ==>
        r == Summary(if old(jsonOversized) then old(sink) else ObserveJSON(old(sink), decode, old(jsonBuffer), false), false)
    {
      if stream {
        if line != [] || event != [] || eventOversize { sink := Tell(sink, C.GaveUp); }
        if line != [] {
          var last := line;
          line := [];
          ConsumeSSELine(last);
        }
        ConsumeSSEEvent();
      } else if !jsonOversized {
        sink := ObserveJSON(sink, decode, jsonBuffer, false);
      }
      r := Summary(sink, stream);
    }
  }
}

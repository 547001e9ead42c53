/**
 The observer against a standard client: for every stream with LF or CRLF line
 ends whose data lines carry data, the events the observer reads are the events
 that section 9.2.6 of the WHATWG HTML Standard dispatches.
 */
module ObserverClient {
  import opened Octets
  import opened Options
  import opened EventStream
  import opened Observer
  import opened ObserverVerdict

  // ---- Lines ----

  /** A CR inside the stream is the first half of a CRLF. */
  predicate PairedCR(s: seq<Byte>) { forall i :: 0 <= i < |s| - 1 && s[i] == CR ==> s[i + 1] == LF }

  function Bares(raws: seq<seq<Byte>>): seq<seq<Byte>> { seq(|raws|, i requires 0 <= i < |raws| => Bare(raws[i])) }

  lemma BaresSnoc(raws: seq<seq<Byte>>, raw: seq<Byte>)
    ensures Bares(raws + [raw]) == Bares(raws) + [Bare(raw)]
  {}

  lemma {:induction false} TerminatedSnoc(carry: seq<Byte>, s: seq<Byte>, b: Byte)
    ensures Terminated(carry, s + [b]) == Terminated(carry, s) + (if b == LF then [Leftover(carry, s)] else [])
    ensures Leftover(carry, s + [b]) == if b == LF then [] else Leftover(carry, s) + [b]
    decreases |s|
  {
    var t := s + [b];
    if s == [] {
      assert t[0] == b && t[1..] == [];
    } else {
      assert t[0] == s[0] && t[1..] == s[1..] + [b];
      TerminatedSnoc(if s[0] == LF then [] else carry + [s[0]], s[1..], b);
    }
  }

  /** A line that a CR has ended but whose LF is still to come. */
  predicate HalfEnded(s: seq<Byte>) {
    && EndsCR(s) && Tail(s) == [] && Leftover([], s) != [] && Leftover([], s)[|Leftover([], s)| - 1] == CR
    && Lines(s) == Bares(Terminated([], s)) + [Bare(Leftover([], s))]
  }

  predicate SameLines(s: seq<Byte>) {
    && !EndsCR(s) && Tail(s) == Leftover([], s) && Lines(s) == Bares(Terminated([], s))
    && (Leftover([], s) != [] ==> Leftover([], s)[|Leftover([], s)| - 1] != CR)
  }

  lemma LineEnds(p: seq<Byte>)
    requires HalfEnded(p) || SameLines(p)
    ensures HalfEnded(p) ==> SameLines(p + [LF])
    ensures SameLines(p) ==> SameLines(p + [LF]) && HalfEnded(p + [CR])
  {
    LinesSnoc(p, LF);
    LinesSnoc(p, CR);
    TerminatedSnoc([], p, LF);
    TerminatedSnoc([], p, CR);
    BaresSnoc(Terminated([], p), Leftover([], p));
    assert Terminated([], p) + [] == Terminated([], p);
  }

  lemma LineGoesOn(p: seq<Byte>, b: Byte)
    requires SameLines(p) && b != LF && b != CR
    ensures SameLines(p + [b])
  {
    LinesSnoc(p, b);
    TerminatedSnoc([], p, b);
    assert Terminated([], p) + [] == Terminated([], p);
  }

  /** Both split such a stream into the same lines. */
  lemma {:induction false} LinesAgree(s: seq<Byte>)
    requires PairedCR(s)
    ensures if EndsCR(s) then HalfEnded(s) else SameLines(s)
    decreases |s|
  {
    if s == [] {
      assert Bares([]) == [];
    } else {
      var n := |s| - 1;
      var p, b := s[..n], s[n];
      assert s == p + [b];
      assert forall i :: 0 <= i < n - 1 && p[i] == CR ==> p[i + 1] == s[i + 1];
      LinesAgree(p);
      assert EndsCR(p) ==> s[n - 1] == CR && b == LF;
      if b == LF || b == CR { LineEnds(p); } else { LineGoesOn(p, b); }
    }
  }

  // ---- Events ----

  /** No data field is empty: neither a bare field name nor a name and a colon. */
  predicate CarriesData(line: seq<Byte>) { line != DATA && (DATA_COLON <= line ==> Payload(line) != []) }

  function Datas(es: seq<Event>): seq<seq<Byte>> { seq(|es|, i requires 0 <= i < |es| => es[i].data) }

  lemma {:induction false} UnfinishedSnoc(event: seq<Byte>, raws: seq<seq<Byte>>, raw: seq<Byte>)
    ensures Unfinished(event, raws + [raw]) == Next(Unfinished(event, raws), raw)
    decreases |raws|
  {
    var all := raws + [raw];
    if raws == [] {
      assert all[0] == raw && all[1..] == [];
    } else {
      assert all[0] == raws[0] && all[1..] == raws[1..] + [raw];
      UnfinishedSnoc(Next(event, raws[0]), raws[1..], raw);
    }
  }

  /** The event that a line ends, if any. */
  function Ended(event: seq<Byte>, raw: seq<Byte>): seq<seq<Byte>> {
    if Bare(raw) == [] && event != [] then [event] else []
  }

  lemma EventsFirst(event: seq<Byte>, raw: seq<Byte>, rest: seq<seq<Byte>>)
    ensures Events(event, [raw] + rest) == Ended(event, raw) + Events(Next(event, raw), rest)
  {
    assert ([raw] + rest)[0] == raw && ([raw] + rest)[1..] == rest;
  }

  lemma {:induction false} EventsSnoc(event: seq<Byte>, raws: seq<seq<Byte>>, raw: seq<Byte>)
    ensures Events(event, raws + [raw]) == Events(event, raws) + Ended(Unfinished(event, raws), raw)
    decreases |raws|
  {
    if raws == [] {
      EventsFirst(event, raw, []);
      assert raws + [raw] == [raw] + [];
      assert Ended(event, raw) + [] == [] + Ended(event, raw);
    } else {
      var next, rest := Next(event, raws[0]), raws[1..];
      EventsSnoc(next, rest, raw);
      EventsFirst(event, raws[0], rest + [raw]);
      assert raws + [raw] == [raws[0]] + (rest + [raw]);
      Assoc3(Ended(event, raws[0]), Events(next, rest), Ended(Unfinished(next, rest), raw));
    }
  }

  lemma Assoc3(a: seq<seq<Byte>>, b: seq<seq<Byte>>, c: seq<seq<Byte>>)
    ensures a + (b + c) == a + b + c
  {}

  /** The client's data buffer and its dispatched data, against the observer's. */
  predicate Agrees(src: Source, event: seq<Byte>, events: seq<seq<Byte>>) {
    src.data == (if event == [] then [] else event + [LF]) && Datas(src.events) == events
  }

  lemma ColonAt(line: seq<Byte>)
    ensures DATA_COLON <= line <==> |line| > 4 && line[..4] == DATA && IndexOf(line, COLON) == 4
  {
    if DATA_COLON <= line { DataColonIs(line); }
    if |line| > 4 && line[..4] == DATA && IndexOf(line, COLON) == 4 { IsDataColon(line); }
  }

  lemma {:induction false} DataColonIs(line: seq<Byte>)
    requires DATA_COLON <= line
    ensures line[..4] == DATA && IndexOf(line, COLON) == 4
  {
    var rest := [COLON] + line[5..];
    assert line[..4] == DATA;
    assert line == DATA + rest;
    FirstColon(DATA, rest);
  }

  lemma {:induction false} IsDataColon(line: seq<Byte>)
    requires |line| > 4 && line[..4] == DATA && line[4] == COLON
    ensures DATA_COLON <= line
  {
    assert DATA_COLON == DATA + [COLON];
    assert line[..5] == line[..4] + [line[4]];
  }

  lemma {:induction false} FirstColon(a: seq<Byte>, b: seq<Byte>)
    requires (forall i :: 0 <= i < |a| ==> a[i] != COLON) && b != [] && b[0] == COLON
    ensures IndexOf(a + b, COLON) == |a|
  {
    var s := a + b;
    if a == [] {
      assert s == b;
    } else {
      assert s[0] == a[0] && s[1..] == a[1..] + b;
      FirstColon(a[1..], b);
    }
  }

  lemma EmptyLineAgrees(src: Source, event: seq<Byte>, events: seq<seq<Byte>>)
    requires Agrees(src, event, events)
    ensures Agrees(Line(src, []), [], events + if event == [] then [] else [event])
  {
    if event != [] {
      assert (event + [LF])[..|event|] == event;
    }
    assert events + [] == events;
  }

  lemma DataLineAgrees(src: Source, event: seq<Byte>, events: seq<seq<Byte>>, line: seq<Byte>)
    requires Agrees(src, event, events) && DATA_COLON <= line && Payload(line) != []
    ensures Agrees(Line(src, line), Extended(event, line), events)
  {
    ColonAt(line);
    var value := Payload(line);
    assert Line(src, line) == Field(src, DATA, value) by {
      assert line[..4] == DATA;
      assert line[5..] != [] && line[5..][0] == SPACE ==> line[5..][1..] == line[6..];
    }
    if event == [] {
      assert [] + value + [LF] == value + [LF];
    } else {
      assert event + [LF] + value + [LF] == (event + [LF] + value) + [LF];
    }
  }

  lemma OtherLineAgrees(src: Source, event: seq<Byte>, events: seq<seq<Byte>>, line: seq<Byte>)
    requires Agrees(src, event, events) && line != [] && line != DATA && !(DATA_COLON <= line)
    ensures Agrees(Line(src, line), event, events)
  {
    ColonAt(line);
  }

  lemma {:induction false} FoldAgrees(raws: seq<seq<Byte>>)
    requires forall i :: 0 <= i < |raws| ==> CarriesData(Bare(raws[i]))
    ensures Agrees(Fold(Fresh, Bares(raws)), Unfinished([], raws), Events([], raws))
    decreases |raws|
  {
    if raws != [] {
      var n := |raws| - 1;
      var p, raw := raws[..n], raws[n];
      assert raws == p + [raw];
      FoldAgrees(p);
      EventsSnoc([], p, raw);
      UnfinishedSnoc([], p, raw);
      BaresSnoc(p, raw);
      FoldSnoc(Bares(p), Bare(raw));
      var src, event, events := Fold(Fresh, Bares(p)), Unfinished([], p), Events([], p);
      assert CarriesData(Bare(raw));
      if Bare(raw) == [] {
        EmptyLineAgrees(src, event, events);
      } else if DATA_COLON <= Bare(raw) {
        DataLineAgrees(src, event, events, Bare(raw));
      } else {
        OtherLineAgrees(src, event, events, Bare(raw));
      }
      assert events + [] == events;
    }
  }

  lemma FoldSnoc(lines: seq<seq<Byte>>, line: seq<Byte>)
    ensures Fold(Fresh, lines + [line]) == Line(Fold(Fresh, lines), line)
  {
    assert (lines + [line])[..|lines|] == lines;
  }

  /** What the agreement needs of a stream: it can be read off its lines. */
  predicate Regular(s: seq<Byte>) {
    && PairedCR(s) && !EndsCR(s) && !HasBOM(s)
    && forall i :: 0 <= i < |Terminated([], s)| ==> CarriesData(Bare(Terminated([], s)[i]))
  }

  /** The observer reads the data of exactly the events that a standard client dispatches. */
  lemma ObserverReadsClientEvents(s: seq<Byte>)
    requires Regular(s)
    ensures StreamEvents(s) == Datas(Interpret(s).events)
  {
    LinesAgree(s);
    FoldAgrees(Terminated([], s));
  }
}

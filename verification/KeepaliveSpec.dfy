/**
 Why inserting keepalive comments does not change a stream: what the one-pass
 framing of `streamBoundary` decides, and what a standard interpreter makes of a
 stream with whole comments inserted where that framing allows them.
 */
module KeepaliveSpec {
  import opened Octets
  import opened EventStream

  // ---- streamBoundary ----

  datatype Framing = Framing(boundary: bool, lineData: bool, afterCR: bool)

  const Opening := Framing(true, false, false)

  function FeedByte(f: Framing, c: Byte): Framing {
    if f.afterCR && c == LF then f.(afterCR := false)
    else if c == CR || c == LF then Framing(!f.lineData, false, c == CR)
    else Framing(false, true, false)
  }

  function Feed(f: Framing, s: seq<Byte>): Framing {
    if s == [] then f else FeedByte(Feed(f, s[..|s| - 1]), s[|s| - 1])
  }

  lemma FeedSnoc(f: Framing, s: seq<Byte>, b: Byte)
    ensures Feed(f, s + [b]) == FeedByte(Feed(f, s), b)
  {
    assert (s + [b])[..|s|] == s;
  }

  lemma {:induction false} FeedConcat(f: Framing, s: seq<Byte>, t: seq<Byte>)
    ensures Feed(f, s + t) == Feed(Feed(f, s), t)
    decreases |t|
  {
    if t == [] {
      assert s + t == s;
    } else {
      var n := |t| - 1;
      FeedConcat(f, s, t[..n]);
      FeedSnoc(f, s + t[..n], t[n]);
      assert s + t == s + t[..n] + [t[n]];
    }
  }

  /** The three flags mean what the reference splitter says, after any stream. */
  lemma {:induction false} FramingMeans(s: seq<Byte>)
    ensures Feed(Opening, s) == Framing(AtBoundary(s), Tail(s) != [], EndsCR(s))
    decreases |s|
  {
    if s != [] {
      var n := |s| - 1;
      var p, b := s[..n], s[n];
      assert s == p + [b];
      FramingMeans(p);
      LinesSnoc(p, b);
    }
  }

  // ---- Streams with comments inserted ----

  /** ": paracetamol gateway keepalive", then two line feeds. */
  const KEEPALIVE: seq<Byte> := [58, 32, 112, 97, 114, 97, 99, 101, 116, 97, 109, 111, 108, 32, 103, 97, 116, 101,
                                 119, 97, 121, 32, 107, 101, 101, 112, 97, 108, 105, 118, 101, 10, 10]

  predicate OneLine(s: seq<Byte>) { forall i :: 0 <= i < |s| ==> s[i] != CR && s[i] != LF }

  /** A comment line followed by an empty line. */
  predicate CommentBlock(c: seq<Byte>) {
    && |c| >= 3 && c[0] == COLON && OneLine(c[..|c| - 2])
    && c[|c| - 2] == LF && c[|c| - 1] == LF
  }

  lemma KeepaliveIsCommentBlock()
    ensures CommentBlock(KEEPALIVE)
  {}

  datatype Item = Relayed(b: Byte) | Comment(text: seq<Byte>)

  /** The bytes handed to the client. */
  function Emit(items: seq<Item>): seq<Byte> {
    if items == [] then []
    else Emit(items[..|items| - 1]) + match items[|items| - 1] case Relayed(b) => [b] case Comment(t) => t
  }

  /** The bytes that came from upstream. */
  function Sent(items: seq<Item>): seq<Byte> {
    if items == [] then []
    else Sent(items[..|items| - 1]) + match items[|items| - 1] case Relayed(b) => [b] case Comment(_) => []
  }

  /** Every comment is the whole block `c`, inserted where the framing of the upstream bytes is at rest. */
  predicate WellPlaced(items: seq<Item>, c: seq<Byte>) {
    items == [] ||
    (WellPlaced(items[..|items| - 1], c) && Placed(Sent(items[..|items| - 1]), items[|items| - 1], c))
  }

  predicate Placed(sent: seq<Byte>, x: Item, c: seq<Byte>) {
    x.Comment? ==> x.text == c && Feed(Opening, sent) == Opening
  }

  /** In the standard's terms: between events, and not between a CR and its LF. */
  lemma RestIsBoundary(s: seq<Byte>)
    ensures Feed(Opening, s) == Opening <==> AtBoundary(s) && !EndsCR(s)
  {
    FramingMeans(s);
  }

  lemma ItemsSnoc(items: seq<Item>, x: Item, c: seq<Byte>)
    ensures Emit(items + [x]) == Emit(items) + (if x.Relayed? then [x.b] else x.text)
    ensures Sent(items + [x]) == Sent(items) + (if x.Relayed? then [x.b] else [])
    ensures WellPlaced(items + [x], c) == (WellPlaced(items, c) && Placed(Sent(items), x, c))
  {
    assert (items + [x])[..|items|] == items;
  }

  // ---- The comment leaves the interpreter and the framing where they were ----

  lemma {:induction false} ScanText(c: Scan, t: seq<Byte>)
    requires OneLine(t)
    ensures ScanAll(c, t) == if t == [] then c else Scan(c.src, c.tail + t, false)
    decreases |t|
  {
    if t != [] {
      ScanText(ScanByte(c, t[0]), t[1..]);
      assert c.tail + [t[0]] + t[1..] == c.tail + t;
    }
  }

  lemma {:induction false} ScanSplit(c: Scan, s: seq<Byte>, t: seq<Byte>)
    ensures ScanAll(c, s + t) == ScanAll(ScanAll(c, s), t)
    decreases |s|
  {
    if s == [] {
      assert s + t == t;
    } else {
      assert (s + t)[1..] == s[1..] + t;
      ScanSplit(ScanByte(c, s[0]), s[1..], t);
    }
  }

  lemma CommentIsIgnored(d: Scan, c: seq<Byte>)
    requires AtRest(d.src) && d.tail == [] && !d.afterCR && CommentBlock(c)
    ensures ScanAll(d, c) == d
  {
    var text := c[..|c| - 2];
    assert c == text + ([LF] + [LF]) && text[0] == COLON;
    ScanSplit(d, text, [LF] + [LF]);
    ScanSplit(Scan(d.src, text, false), [LF], [LF]);
    ScanText(d, text);
    assert d.tail + text == text;
    var after := Scan(d.src, [], false);
    assert ScanAll(Scan(d.src, text, false), [LF]) == ScanByte(Scan(d.src, text, false), LF) == after by {
      assert Line(d.src, text) == d.src;
    }
    assert ScanAll(after, [LF]) == ScanByte(after, LF) == d;
  }

  lemma {:induction false} FeedText(t: seq<Byte>)
    requires OneLine(t) && t != []
    ensures Feed(Opening, t) == Framing(false, true, false)
    decreases |t|
  {
    if |t| > 1 { FeedText(t[..|t| - 1]); }
  }

  lemma CommentKeepsFraming(c: seq<Byte>)
    requires CommentBlock(c)
    ensures Feed(Opening, c) == Opening
  {
    var text := c[..|c| - 2];
    assert c == text + [LF] + [LF];
    FeedText(text);
    FeedSnoc(Opening, text, LF);
    FeedSnoc(Opening, text + [LF], LF);
  }

  /** Emitted and upstream bytes leave the same framing. */
  lemma {:induction false} FramingAgrees(items: seq<Item>, c: seq<Byte>)
    requires WellPlaced(items, c) && CommentBlock(c)
    ensures Feed(Opening, Emit(items)) == Feed(Opening, Sent(items))
    decreases |items|
  {
    if items != [] {
      var n := |items| - 1;
      var p := items[..n];
      FramingAgrees(p, c);
      if items[n].Comment? {
        FeedConcat(Opening, Emit(p), c);
        CommentKeepsFraming(c);
        assert Sent(items) == Sent(p);
      } else {
        FeedSnoc(Opening, Emit(p), items[n].b);
        FeedSnoc(Opening, Sent(p), items[n].b);
      }
    }
  }

  lemma CommentAdds(s: seq<Byte>, t: seq<Byte>, c: seq<Byte>)
    requires ScanOf(s) == ScanOf(t) && AtBoundary(t) && !EndsCR(t) && CommentBlock(c)
    ensures ScanOf(s + c) == ScanOf(t)
  {
    BoundaryIsAtRest(t);
    ScanConcat(s, c);
    CommentIsIgnored(ScanOf(t), c);
  }

  /** Byte for byte, the interpreter ends in the same state with and without the comments. */
  lemma {:induction false} CommentsDoNotMatter(items: seq<Item>, c: seq<Byte>)
    requires WellPlaced(items, c) && CommentBlock(c)
    ensures ScanOf(Emit(items)) == ScanOf(Sent(items))
    decreases |items|
  {
    if items != [] {
      var n := |items| - 1;
      var p := items[..n];
      CommentsDoNotMatter(p, c);
      if items[n].Comment? {
        RestIsBoundary(Sent(p));
        CommentAdds(Emit(p), Sent(p), c);
        assert Sent(items) == Sent(p);
      } else {
        ScanSnoc(Emit(p), items[n].b);
        ScanSnoc(Sent(p), items[n].b);
      }
    }
  }

  // ---- The byte order mark ----

  predicate LeadingComment(items: seq<Item>) { items != [] && items[0].Comment? }

  const BOM: seq<Byte> := [239, 187, 191]

  lemma {:induction false} EmitStarts(items: seq<Item>, c: seq<Byte>)
    requires LeadingComment(items) && WellPlaced(items, c) && CommentBlock(c)
    ensures Emit(items) != [] && Emit(items)[0] == COLON
    decreases |items|
  {
    if |items| > 1 {
      EmitStarts(items[..|items| - 1], c);
    } else {
      assert items[..0] == [];
    }
  }

  lemma {:induction false} ItemsPrefix(items: seq<Item>, k: nat)
    requires k <= |items|
    ensures Emit(items[..k]) <= Emit(items) && Sent(items[..k]) <= Sent(items)
    decreases |items|
  {
    if k == |items| {
      assert items[..k] == items;
    } else if k < |items| - 1 {
      var n := |items| - 1;
      ItemsPrefix(items[..n], k);
      assert items[..n][..k] == items[..k];
    }
  }

  lemma {:induction false} PlacedAt(items: seq<Item>, c: seq<Byte>, k: nat)
    requires WellPlaced(items, c) && k < |items|
    ensures Placed(Sent(items[..k]), items[k], c)
    decreases |items|
  {
    var n := |items| - 1;
    if k < n {
      PlacedAt(items[..n], c, k);
      assert items[..n][..k] == items[..k];
    }
  }

  lemma UnfinishedLine(s: seq<Byte>)
    requires s != [] && OneLine(s)
    ensures Feed(Opening, s) != Opening
  {
    FeedText(s);
  }

  lemma NoCommentInALine(items: seq<Item>, c: seq<Byte>, k: nat, line: seq<Byte>)
    requires WellPlaced(items, c) && !LeadingComment(items) && OneLine(line) && 0 < k <= |line| && k <= |items|
    requires Sent(items[..k - 1]) == line[..k - 1]
    ensures items[k - 1].Relayed?
  {
    if k > 1 {
      PlacedAt(items, c, k - 1);
      UnfinishedLine(line[..k - 1]);
    }
  }

  lemma NextByte(line: seq<Byte>, k: nat, b: Byte, s: seq<Byte>, t: seq<Byte>)
    requires 0 < k <= |line| && (line <= s || line <= t)
    requires line[..k - 1] + [b] <= s && line[..k - 1] + [b] <= t
    ensures line[..k - 1] + [b] == line[..k]
  {
    assert (line[..k - 1] + [b])[k - 1] == b;
  }

  lemma LongEnough(items: seq<Item>, k: nat, line: seq<Byte>)
    requires 0 < k <= |line| && k - 1 <= |items| && (line <= Emit(items) || line <= Sent(items))
    requires Sent(items[..k - 1]) == Emit(items[..k - 1]) == line[..k - 1]
    ensures k <= |items|
  {
    assert items[..|items|] == items;
  }

  lemma {:induction false} LineContinuesRelayed(items: seq<Item>, k: nat, line: seq<Byte>)
    requires 0 < k <= |line| && k <= |items| && items[k - 1].Relayed?
    requires line <= Emit(items) || line <= Sent(items)
    requires Sent(items[..k - 1]) == Emit(items[..k - 1]) == line[..k - 1]
    ensures Sent(items[..k]) == Emit(items[..k]) == line[..k]
  {
    var p, x := items[..k - 1], items[k - 1];
    ItemsPrefix(items, k);
    RelayedSnoc(p, x);
    assert items[..k] == p + [x];
    NextByte(line, k, x.b, Emit(items), Sent(items));
  }

  lemma RelayedSnoc(items: seq<Item>, x: Item)
    requires x.Relayed?
    ensures Emit(items + [x]) == Emit(items) + [x.b] && Sent(items + [x]) == Sent(items) + [x.b]
  {
    assert (items + [x])[..|items|] == items;
  }

  /** The first bytes of a line are upstream bytes: no comment is inserted among them. */
  lemma {:induction false} LineStartsRelayed(items: seq<Item>, c: seq<Byte>, k: nat, line: seq<Byte>)
    requires WellPlaced(items, c) && !LeadingComment(items) && OneLine(line) && k <= |line|
    requires line <= Emit(items) || line <= Sent(items)
    ensures k <= |items| && Sent(items[..k]) == Emit(items[..k]) == line[..k]
  {
    if k > 0 {
      LineStartsRelayed(items, c, k - 1, line);
      LongEnough(items, k, line);
      NoCommentInALine(items, c, k, line);
      LineContinuesRelayed(items, k, line);
    }
  }

  lemma {:induction false} FirstBreakDrop(s: seq<Byte>, d: nat)
    requires d <= FirstBreak(s)
    ensures FirstBreak(s[d..]) == FirstBreak(s) - d
  {
    if d > 0 {
      FirstBreakDrop(s[1..], d - 1);
      assert s[1..][d - 1..] == s[d..];
    }
  }

  lemma DropSplit(s: seq<Byte>, d: nat, k: nat, e: nat)
    requires 0 < d <= FirstBreak(s) == k < |s| && e == BreakEnd(s, k)
    ensures FirstBreak(s[d..]) == k - d && BreakEnd(s[d..], k - d) == e - d
    ensures s[d..][e - d..] == s[e..]
  {
    FirstBreakDrop(s, d);
    var t := s[d..];
    assert t[k - d] == s[k] && (k + 1 < |s| ==> t[k + 1 - d] == s[k + 1]);
  }

  lemma LaterLinesDecide(s: seq<Byte>, t: seq<Byte>, a: seq<Byte>, b: seq<Byte>, rest: seq<Byte>)
    requires Lines(s) == [a] + Lines(rest) && Tail(s) == Tail(rest) && a != []
    requires Lines(t) == [b] + Lines(rest) && Tail(t) == Tail(rest)
    ensures AtBoundary(s) ==> AtBoundary(t)
  {}

  lemma SameLaterLines(s: seq<Byte>, k: nat, e: nat, t: seq<Byte>, k': nat, e': nat)
    requires 0 < k < |s| && FirstBreak(s) == k && e == BreakEnd(s, k)
    requires k' < |t| && FirstBreak(t) == k' && e' == BreakEnd(t, k')
    requires s[e..] == t[e'..]
    ensures AtBoundary(s) ==> AtBoundary(t)
  {
    Unfold(s, k, e);
    Unfold(t, k', e');
    LaterLinesDecide(s, t, s[..k], t[..k'], s[e..]);
  }

  lemma EndsCRAfterDrop(s: seq<Byte>, d: nat)
    requires d < |s|
    ensures EndsCR(s[d..]) == EndsCR(s)
  {
    assert s[d..][|s| - d - 1] == s[|s| - 1];
  }

  /** Dropping part of a nonempty first line changes no later line. */
  lemma {:induction false} BoundaryAfterDrop(s: seq<Byte>, d: nat)
    requires 0 < d <= FirstBreak(s) && AtBoundary(s) && !EndsCR(s)
    ensures AtBoundary(s[d..]) && !EndsCR(s[d..])
  {
    var k := FirstBreak(s);
    assert k < |s|;
    var e := BreakEnd(s, k);
    DropSplit(s, d, k, e);
    SameLaterLines(s, k, e, s[d..], k - d, e - d);
    EndsCRAfterDrop(s, d);
  }

  lemma ByteAfterBOM(s: seq<Byte>, t: seq<Byte>, b: Byte)
    requires |s| >= 3 && |t| >= 3 && ScanOf(s[3..]) == ScanOf(t[3..])
    ensures ScanOf((s + [b])[3..]) == ScanOf((t + [b])[3..])
  {
    assert (s + [b])[3..] == s[3..] + [b] && (t + [b])[3..] == t[3..] + [b];
    ScanSnoc(s[3..], b);
    ScanSnoc(t[3..], b);
  }

  lemma FirstBreakAfterBOM(t: seq<Byte>)
    requires HasBOM(t)
    ensures FirstBreak(t) >= 3
  {
    assert t[0] == t[..3][0] && t[1] == t[..3][1] && t[2] == t[..3][2];
  }

  lemma RestPastBOM(t: seq<Byte>)
    requires HasBOM(t) && Feed(Opening, t) == Opening
    ensures AtBoundary(t[3..]) && !EndsCR(t[3..])
  {
    RestIsBoundary(t);
    FirstBreakAfterBOM(t);
    BoundaryAfterDrop(t, 3);
  }

  lemma {:induction false} CommentAfterBOM(s: seq<Byte>, t: seq<Byte>, c: seq<Byte>)
    requires |s| >= 3 && HasBOM(t) && Feed(Opening, t) == Opening && ScanOf(s[3..]) == ScanOf(t[3..]) && CommentBlock(c)
    ensures ScanOf((s + c)[3..]) == ScanOf(t[3..])
  {
    RestPastBOM(t);
    assert (s + c)[3..] == s[3..] + c;
    CommentAdds(s[3..], t[3..], c);
  }

  /** Both streams begin with the mark, and past it leave the interpreter in the same state. */
  predicate SamePastBOM(items: seq<Item>) {
    HasBOM(Emit(items)) && HasBOM(Sent(items)) && ScanOf(Emit(items)[3..]) == ScanOf(Sent(items)[3..])
  }

  lemma {:induction false} SameAfterOneMore(p: seq<Item>, x: Item, c: seq<Byte>)
    requires SamePastBOM(p) && Placed(Sent(p), x, c) && CommentBlock(c)
    ensures SamePastBOM(p + [x])
  {
    ItemsSnoc(p, x, c);
    if x.Comment? {
      CommentAfterBOM(Emit(p), Sent(p), c);
      assert Sent(p) + [] == Sent(p);
      assert (Emit(p) + c)[..3] == Emit(p)[..3];
    } else {
      ByteAfterBOM(Emit(p), Sent(p), x.b);
      assert (Emit(p) + [x.b])[..3] == Emit(p)[..3] && (Sent(p) + [x.b])[..3] == Sent(p)[..3];
    }
  }

  lemma {:induction false} JustBOM(items: seq<Item>)
    requires Sent(items) == Emit(items) == BOM
    ensures SamePastBOM(items)
  {
    assert BOM[..3] == BOM;
  }

  /** What one more item keeps, any well-placed items keep. */
  lemma {:induction false} ItemsKeep(P: seq<Item> -> bool, p: seq<Item>, rest: seq<Item>, c: seq<Byte>)
    requires P(p) && WellPlaced(p + rest, c)
    requires forall q: seq<Item>, x: Item :: P(q) && Placed(Sent(q), x, c) ==> P(q + [x])
    ensures P(p + rest)
    decreases |rest|
  {
    if rest == [] {
      assert p + rest == p;
    } else {
      var n := |rest| - 1;
      var q, x := p + rest[..n], rest[n];
      assert p + rest == q + [x];
      ItemsSnoc(q, x, c);
      ItemsKeep(P, p, rest[..n], c);
    }
  }

  lemma {:induction false} SameAfterBOM(items: seq<Item>, c: seq<Byte>)
    requires WellPlaced(items, c) && CommentBlock(c)
    requires |items| >= 3 && Sent(items[..3]) == Emit(items[..3]) == BOM
    ensures SamePastBOM(items)
  {
    JustBOM(items[..3]);
    forall q: seq<Item>, x: Item | SamePastBOM(q) && Placed(Sent(q), x, c) ensures SamePastBOM(q + [x]) {
      SameAfterOneMore(q, x, c);
    }
    assert items[..3] + items[3..] == items;
    ItemsKeep(q => SamePastBOM(q), items[..3], items[3..], c);
  }

  lemma InterpretWithBOM(items: seq<Item>, c: seq<Byte>)
    requires WellPlaced(items, c) && CommentBlock(c)
    requires !LeadingComment(items) && (HasBOM(Emit(items)) || HasBOM(Sent(items)))
    ensures Interpret(Emit(items)) == Interpret(Sent(items))
  {
    assert BOM <= Emit(items) || BOM <= Sent(items);
    LineStartsRelayed(items, c, 3, BOM);
    SameAfterBOM(items, c);
  }

  /**
   Exactly what a client makes of a stream with keepalives: the upstream stream,
   except that a comment before the very first byte hides a byte order mark.
   */
  lemma {:induction false} InterpretExactly(items: seq<Item>, c: seq<Byte>)
    requires WellPlaced(items, c) && CommentBlock(c)
    ensures Interpret(Emit(items)) == if LeadingComment(items) then Raw(Sent(items)) else Interpret(Sent(items))
  {
    if LeadingComment(items) {
      EmitStarts(items, c);
      CommentsDoNotMatter(items, c);
    } else if HasBOM(Emit(items)) || HasBOM(Sent(items)) {
      InterpretWithBOM(items, c);
    } else {
      CommentsDoNotMatter(items, c);
    }
  }

  /** Without a leading mark every client sees the same events, with and without comments. */
  lemma SameEventsWithoutBOM(items: seq<Item>, c: seq<Byte>)
    requires WellPlaced(items, c) && CommentBlock(c) && !HasBOM(Sent(items))
    ensures Interpret(Emit(items)) == Interpret(Sent(items))
  {
    InterpretExactly(items, c);
  }

  // ---- Relaying a block of upstream bytes ----

  function Relay(items: seq<Item>, s: seq<Byte>): seq<Item> {
    items + seq(|s|, i requires 0 <= i < |s| => Relayed(s[i]))
  }

  lemma {:induction false} RelayMeans(items: seq<Item>, s: seq<Byte>, c: seq<Byte>)
    ensures Emit(Relay(items, s)) == Emit(items) + s && Sent(Relay(items, s)) == Sent(items) + s
    ensures WellPlaced(items, c) ==> WellPlaced(Relay(items, s), c)
    decreases |s|
  {
    if s == [] {
      assert Relay(items, s) == items;
    } else {
      var n := |s| - 1;
      RelayMeans(items, s[..n], c);
      assert Relay(items, s) == Relay(items, s[..n]) + [Relayed(s[n])];
      ItemsSnoc(Relay(items, s[..n]), Relayed(s[n]), c);
      assert s == s[..n] + [s[n]];
    }
  }

  // ---- The mark can be lost ----

  lemma OneLineEvent(a: seq<Byte>)
    requires OneLine(a) && a != []
    ensures Raw(a + [LF] + [LF]) == Dispatch(Line(Fresh, a))
  {
    ScanConcat([], a);
    assert [] + a == a;
    ScanText(ScanOf([]), a);
    assert ScanOf([]).tail + a == a;
    ScanSnoc(a, LF);
    ScanSnoc(a + [LF], LF);
  }

  lemma {:induction false} NoColon(a: seq<Byte>)
    requires forall i :: 0 <= i < |a| ==> a[i] != COLON
    ensures IndexOf(a, COLON) == |a|
  {
    if a != [] { NoColon(a[1..]); }
  }

  lemma DataLine()
    ensures |Raw(DATA + [LF] + [LF]).events| == 1
  {
    DataIsPlain();
    OneLineEvent(DATA);
    DataField();
  }

  lemma DataIsPlain()
    ensures OneLine(DATA) && IndexOf(DATA, COLON) == |DATA|
  {
    NoColon(DATA);
  }

  lemma DataField()
    ensures Field(Fresh, DATA, []).data == [LF]
  {
    assert |DATA| == 4 && |EVENT| == 5;
    assert [] + [] + [LF] == [LF];
  }

  lemma MarkedDataLine()
    ensures Raw(BOM + DATA + [LF] + [LF]).events == []
  {
    var a := BOM + DATA;
    assert a == [239, 187, 191, 100, 97, 116, 97];
    OneLineEvent(a);
    NoColon(a);
    assert Line(Fresh, a) == Field(Fresh, a, []) == Fresh;
  }

  lemma CommentThen(s: seq<Byte>, c: seq<Byte>)
    ensures var items := Relay([Comment(c)], s); WellPlaced(items, c) && LeadingComment(items) && Sent(items) == s
  {
    ItemsSnoc([], Comment(c), c);
    assert [] + [Comment(c)] == [Comment(c)];
    RelayMeans([Comment(c)], s, c);
    assert Relay([Comment(c)], s)[0] == Comment(c);
    assert Sent([Comment(c)]) + s == s;
  }

  /** A keepalive sent before the first byte of a marked stream loses its first event. */
  lemma LeadingCommentCanLoseAnEvent(c: seq<Byte>)
    requires CommentBlock(c)
    ensures var items := Relay([Comment(c)], BOM + (DATA + [LF] + [LF]));
      WellPlaced(items, c) && Interpret(Emit(items)).events == [] && |Interpret(Sent(items)).events| == 1
  {
    var rest := DATA + [LF] + [LF];
    CommentThen(BOM + rest, c);
    InterpretExactly(Relay([Comment(c)], BOM + rest), c);
    assert BOM + rest == BOM + DATA + [LF] + [LF];
    MarkedDataLine();
    DataLine();
    assert (BOM + rest)[..3] == BOM && (BOM + rest)[3..] == rest;
  }

  // ---- What a partly delivered stream stands for ----

  /** `emitted` has been handed out, `rest` is pending, and the framing has seen `emitted`. */
  predicate Story(items: seq<Item>, c: seq<Byte>, emitted: seq<Byte>, rest: seq<Byte>, f: Framing) {
    CommentBlock(c) && WellPlaced(items, c) && Emit(items) == emitted + rest && f == Feed(Opening, emitted)
  }

  /** Where a comment may stand: an event has just ended, or none has begun, and not between CR and a possible LF. */
  predicate Allows(sent: seq<Byte>) { AtBoundary(sent) && !EndsCR(sent) }

  /** When nothing is pending, the flags decide by the upstream bytes alone. */
  lemma StoryAllows(items: seq<Item>, c: seq<Byte>, emitted: seq<Byte>, f: Framing)
    requires Story(items, c, emitted, [], f)
    ensures f.boundary && !f.afterCR <==> Allows(Sent(items))
  {
    assert emitted + [] == emitted;
    FramingAgrees(items, c);
    FramingMeans(Sent(items));
  }

  lemma StoryDrains(items: seq<Item>, c: seq<Byte>, emitted: seq<Byte>, bytes: seq<Byte>, rest: seq<Byte>, f: Framing)
    requires Story(items, c, emitted, bytes + rest, f)
    ensures Story(items, c, emitted + bytes, rest, Feed(f, bytes))
  {
    assert emitted + (bytes + rest) == emitted + bytes + rest;
    assert Feed(Opening, emitted + bytes) == Feed(f, bytes) by { FeedConcat(Opening, emitted, bytes); }
  }

  lemma StoryTicks(items: seq<Item>, c: seq<Byte>, emitted: seq<Byte>, f: Framing)
    requires Story(items, c, emitted, [], f) && f.boundary && !f.afterCR
    ensures Story(items + [Comment(c)], c, emitted, c, f) && Sent(items + [Comment(c)]) == Sent(items)
  {
    assert Emit(items) == emitted;
    FramingMeans(emitted);
    FramingAgrees(items, c);
    ItemsSnoc(items, Comment(c), c);
  }

  lemma StoryReceives(items: seq<Item>, c: seq<Byte>, emitted: seq<Byte>, block: seq<Byte>, f: Framing)
    requires Story(items, c, emitted, [], f)
    ensures Story(Relay(items, block), c, emitted, block, f) && Sent(Relay(items, block)) == Sent(items) + block
  {
    assert Emit(items) == emitted;
    RelayMeans(items, block, c);
  }
}

/**
 Event streams as the WHATWG HTML Standard defines them: section 9.2.5 splits a
 stream into lines, section 9.2.6 interprets the lines. This is the reference
 against which the gateway's framing and its inserted comments are judged. It
 works on bytes; every delimiter is ASCII, so decoding commutes with splitting.
 */
module EventStream {
  import opened Octets

  const LF: Byte := 10
  const CR: Byte := 13
  const COLON: Byte := 58
  const SPACE: Byte := 32

  // ---- Section 9.2.5: lines end with CRLF, LF or CR ----

  function FirstBreak(s: seq<Byte>): (k: nat)
    ensures k <= |s|
    ensures forall i :: 0 <= i < k ==> s[i] != CR && s[i] != LF
    ensures k < |s| ==> s[k] == CR || s[k] == LF
  {
    if s == [] || s[0] == CR || s[0] == LF then 0 else 1 + FirstBreak(s[1..])
  }

  function BreakEnd(s: seq<Byte>, k: nat): (e: nat)
    requires k < |s|
    ensures k < e <= |s|
  {
    if s[k] == CR && k + 1 < |s| && s[k + 1] == LF then k + 2 else k + 1
  }

  /** The terminated lines, without their terminators. */
  function Lines(s: seq<Byte>): seq<seq<Byte>>
    decreases |s|
  {
    var k := FirstBreak(s);
    if k == |s| then [] else [s[..k]] + Lines(s[BreakEnd(s, k)..])
  }

  /** What follows the last terminator. */
  function Tail(s: seq<Byte>): seq<Byte>
    decreases |s|
  {
    var k := FirstBreak(s);
    if k == |s| then s else Tail(s[BreakEnd(s, k)..])
  }

  predicate EndsCR(s: seq<Byte>) { s != [] && s[|s| - 1] == CR }

  /** The stream is between events: nothing yet, or just after an empty line. */
  predicate AtBoundary(s: seq<Byte>) {
    Tail(s) == [] && (Lines(s) == [] || Lines(s)[|Lines(s)| - 1] == [])
  }

  lemma {:induction false} FirstBreakSnoc(s: seq<Byte>, b: Byte)
    ensures FirstBreak(s) < |s| ==> FirstBreak(s + [b]) == FirstBreak(s)
    ensures FirstBreak(s) == |s| ==> FirstBreak(s + [b]) == if b == CR || b == LF then |s| else |s| + 1
  {
    if s != [] && s[0] != CR && s[0] != LF {
      FirstBreakSnoc(s[1..], b);
      assert (s + [b])[1..] == s[1..] + [b];
    }
  }

  /** The split of `s` once its first line is known to end at `k`. */
  lemma Unfold(s: seq<Byte>, k: nat, e: nat)
    requires FirstBreak(s) == k < |s| && e == BreakEnd(s, k)
    ensures Lines(s) == [s[..k]] + Lines(s[e..]) && Tail(s) == Tail(s[e..])
  {}

  lemma SnocOneLine(s: seq<Byte>, b: Byte)
    requires FirstBreak(s) == |s|
    ensures Lines(s) == [] && Tail(s) == s && !EndsCR(s)
    ensures b == CR || b == LF ==> Lines(s + [b]) == [s] && Tail(s + [b]) == []
    ensures b != CR && b != LF ==> Lines(s + [b]) == [] && Tail(s + [b]) == s + [b]
  {
    var t := s + [b];
    FirstBreakSnoc(s, b);
    if b == CR || b == LF {
      Unfold(t, |s|, |t|);
      assert t[..|s|] == s && t[|t|..] == [];
    }
  }

  lemma SnocJoins(s: seq<Byte>, k: nat)
    requires FirstBreak(s) == k == |s| - 1 && s[k] == CR
    ensures Lines(s + [LF]) == Lines(s) && Tail(s + [LF]) == Tail(s) == []
  {
    var t := s + [LF];
    FirstBreakSnoc(s, LF);
    Unfold(s, k, k + 1);
    Unfold(t, k, k + 2);
    assert s[k + 1..] == [] && t[k + 2..] == [] && t[..k] == s[..k];
  }

  predicate Snoc(s: seq<Byte>, b: Byte) {
    if b == LF && EndsCR(s) then Lines(s + [b]) == Lines(s) && Tail(s + [b]) == Tail(s) == []
    else if b == CR || b == LF then Lines(s + [b]) == Lines(s) + [Tail(s)] && Tail(s + [b]) == []
    else Lines(s + [b]) == Lines(s) && Tail(s + [b]) == Tail(s) + [b]
  }

  /** How one more byte changes the split. */
  lemma {:induction false} LinesSnoc(s: seq<Byte>, b: Byte)
    ensures Snoc(s, b)
    decreases |s|
  {
    var k := FirstBreak(s);
    if k == |s| {
      SnocOneLine(s, b);
    } else if k == |s| - 1 && s[k] == CR && b == LF {
      SnocJoins(s, k);
    } else {
      var e := BreakEnd(s, k);
      LinesSnoc(s[e..], b);
      SnocLater(s, b, k, e);
    }
  }

  lemma SplitSnoc(s: seq<Byte>, b: Byte, k: nat, e: nat)
    requires FirstBreak(s) == k < |s| && e == BreakEnd(s, k)
    requires !(k == |s| - 1 && s[k] == CR && b == LF)
    ensures FirstBreak(s + [b]) == k && BreakEnd(s + [b], k) == e
    ensures (s + [b])[..k] == s[..k] && (s + [b])[e..] == s[e..] + [b]
  {
    FirstBreakSnoc(s, b);
    SliceSnoc(s, b, k);
    SliceSnoc(s, b, e);
    var t := s + [b];
    assert t[k] == s[k];
    assert k + 1 < |s| ==> t[k + 1] == s[k + 1];
    assert BreakEnd(t, k) == e;
  }

  lemma SliceSnoc(s: seq<Byte>, b: Byte, k: nat)
    requires k <= |s|
    ensures (s + [b])[..k] == s[..k] && (s + [b])[k..] == s[k..] + [b]
  {}

  lemma EndsCRLater(s: seq<Byte>, b: Byte, k: nat, e: nat)
    requires k < |s| && e == BreakEnd(s, k) && (s[k] == CR || s[k] == LF)
    requires !(k == |s| - 1 && s[k] == CR && b == LF)
    ensures EndsCR(s[e..]) ==> EndsCR(s)
    ensures b == LF && EndsCR(s) ==> EndsCR(s[e..])
  {
    if e < |s| { assert s[e..][|s| - e - 1] == s[|s| - 1]; }
  }

  lemma SnocLater(s: seq<Byte>, b: Byte, k: nat, e: nat)
    requires FirstBreak(s) == k < |s| && e == BreakEnd(s, k) && Snoc(s[e..], b)
    requires !(k == |s| - 1 && s[k] == CR && b == LF)
    ensures Snoc(s, b)
  {
    SplitSnoc(s, b, k, e);
    EndsCRLater(s, b, k, e);
    Unfold(s, k, e);
    Unfold(s + [b], k, e);
    SnocPrefix(s[..k], s[e..], s, s + [b], b);
  }

  lemma SnocPrefix(line: seq<Byte>, rest: seq<Byte>, s: seq<Byte>, t: seq<Byte>, b: Byte)
    requires Snoc(rest, b) && t == s + [b]
    requires Lines(s) == [line] + Lines(rest) && Tail(s) == Tail(rest)
    requires Lines(t) == [line] + Lines(rest + [b]) && Tail(t) == Tail(rest + [b])
    requires b == LF && EndsCR(s) ==> EndsCR(rest)
    requires EndsCR(rest) ==> EndsCR(s)
    ensures Snoc(s, b)
  {}

  // ---- Section 9.2.6: interpreting the lines ----

  datatype Event = Event(kind: seq<Byte>, data: seq<Byte>, lastId: seq<Byte>)

  datatype Source = Source(
    data: seq<Byte>, kind: seq<Byte>, id: seq<Byte>,      // the buffers
    lastId: seq<Byte>, retry: seq<Byte>,
    events: seq<Event>)

  const Fresh := Source([], [], [], [], [], [])

  const DATA: seq<Byte> := [100, 97, 116, 97]
  const EVENT: seq<Byte> := [101, 118, 101, 110, 116]
  const ID: seq<Byte> := [105, 100]
  const RETRY: seq<Byte> := [114, 101, 116, 114, 121]
  const MESSAGE: seq<Byte> := [109, 101, 115, 115, 97, 103, 101]

  function IndexOf(line: seq<Byte>, b: Byte): (k: nat)
    ensures k <= |line|
    ensures k < |line| ==> line[k] == b
  {
    if line == [] || line[0] == b then 0 else 1 + IndexOf(line[1..], b)
  }

  function Dispatch(src: Source): Source {
    var src := src.(lastId := src.id);
    if src.data == [] then src.(kind := [])
    else
      var e := Event(if src.kind == [] then MESSAGE else src.kind, src.data[..|src.data| - 1], src.lastId);
      src.(data := [], kind := [], events := src.events + [e])
  }

  function Field(src: Source, name: seq<Byte>, value: seq<Byte>): Source {
    if name == EVENT then src.(kind := value)
    else if name == DATA then src.(data := src.data + value + [LF])
    else if name == ID then if 0 in value then src else src.(id := value)
    else if name == RETRY then
      if value != [] && forall b :: b in value ==> 48 <= b <= 57 then src.(retry := value) else src
    else src
  }

  function Line(src: Source, line: seq<Byte>): Source {
    if line == [] then Dispatch(src)
    else
      var k := IndexOf(line, COLON);
      if k == 0 then src
      else if k == |line| then Field(src, line, [])
      else
        var value := line[k + 1..];
        Field(src, line[..k], if value != [] && value[0] == SPACE then value[1..] else value)
  }

  function Fold(src: Source, lines: seq<seq<Byte>>): Source {
    if lines == [] then src else Line(Fold(src, lines[..|lines| - 1]), lines[|lines| - 1])
  }

  /** The source after a stream whose byte order mark, if any, has been dropped. */
  function Raw(s: seq<Byte>): Source { Fold(Fresh, Lines(s)) }

  predicate HasBOM(s: seq<Byte>) { |s| >= 3 && s[..3] == [239, 187, 191] }

  function StripBOM(s: seq<Byte>): seq<Byte> { if HasBOM(s) then s[3..] else s }

  /** What a client makes of a stream; an unfinished last event is discarded. */
  function Interpret(s: seq<Byte>): Source { Raw(StripBOM(s)) }

  // ---- The same, one byte at a time ----

  datatype Scan = Scan(src: Source, tail: seq<Byte>, afterCR: bool)

  function ScanOf(s: seq<Byte>): Scan { Scan(Raw(s), Tail(s), EndsCR(s)) }

  function ScanByte(c: Scan, b: Byte): Scan {
    if b == LF && c.afterCR then c.(afterCR := false)
    else if b == CR || b == LF then Scan(Line(c.src, c.tail), [], b == CR)
    else Scan(c.src, c.tail + [b], false)
  }

  function ScanAll(c: Scan, t: seq<Byte>): Scan
    decreases |t|
  {
    if t == [] then c else ScanAll(ScanByte(c, t[0]), t[1..])
  }

  lemma ScanSnoc(s: seq<Byte>, b: Byte)
    ensures ScanOf(s + [b]) == ScanByte(ScanOf(s), b)
  {
    LinesSnoc(s, b);
    if (b == LF && !EndsCR(s)) || b == CR {
      var lines := Lines(s) + [Tail(s)];
      assert lines[..|lines| - 1] == Lines(s);
    }
  }

  lemma {:induction false} ScanConcat(s: seq<Byte>, t: seq<Byte>)
    ensures ScanOf(s + t) == ScanAll(ScanOf(s), t)
    decreases |t|
  {
    if t == [] {
      assert s + t == s;
    } else {
      var u, v := s + [t[0]], t[1..];
      assert s + t == u + v;
      ScanSnoc(s, t[0]);
      ScanConcat(u, v);
    }
  }

  /** Between events every buffer that dispatching reads is already at rest. */
  predicate AtRest(src: Source) {
    src.data == [] && src.kind == [] && src.lastId == src.id
  }

  lemma BoundaryIsAtRest(s: seq<Byte>)
    requires AtBoundary(s)
    ensures AtRest(Raw(s))
  {
    var lines := Lines(s);
    if lines != [] { assert Raw(s) == Line(Fold(Fresh, lines[..|lines| - 1]), []); }
  }
}

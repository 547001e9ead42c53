/**
 * The values of the configuration parser (internal/config/parser.go): quoted
 * strings, one-line string arrays and decimal integers, each beside the printer
 * it reads back.  The printers are strconv.Quote and strconv.Itoa, which
 * DefaultContents uses (internal/config/config.go).
 */
module ConfigValues {
  import opened Options
  import opened ConfigText

  /** Why a value is refused; one constructor per error text. */
  datatype Reason =
    | ExpectedQuoted | MalformedLiteral | UnterminatedBasic | ControlCharacter
    | UnescapedQuote | UnterminatedEscape | BadUnicodeEscape | UnsupportedEscape | MalformedBasic
    | ExpectedArray | ElementNotQuoted | UnterminatedElement | ExpectedComma
    | ExpectedInteger | LeadingZero | ExpectedBoolean

  // ---------------------------------------------------------- hexadecimal digits

  predicate IsHex(c: char) { '0' <= c <= '9' || 'a' <= c <= 'f' || 'A' <= c <= 'F' }

  predicate AllHex(s: string) { forall i :: 0 <= i < |s| ==> IsHex(s[i]) }

  function HexDigit(n: nat): (c: char)
    requires n < 16
    ensures IsHex(c) && HexWeight(c) == n
  {
    if n < 10 then ('0' as int + n) as char else ('a' as int + n - 10) as char
  }

  function HexWeight(c: char): nat
    requires IsHex(c)
  {
    if c <= '9' then c as int - '0' as int
    else if c <= 'F' then c as int - 'A' as int + 10
    else c as int - 'a' as int + 10
  }

  function Power16(k: nat): nat { if k == 0 then 1 else 16 * Power16(k - 1) }

  function Hex(n: nat, k: nat): (s: string)
    ensures |s| == k && AllHex(s)
  {
    if k == 0 then [] else Hex(n / 16, k - 1) + [HexDigit(n % 16)]
  }

  function HexValue(s: string): nat
    requires AllHex(s)
  {
    if s == [] then 0 else 16 * HexValue(s[..|s| - 1]) + HexWeight(s[|s| - 1])
  }

  lemma {:induction false} HexRoundTrip(n: nat, k: nat)
    requires n < Power16(k)
    ensures HexValue(Hex(n, k)) == n
  {
    if k > 0 {
      HexRoundTrip(n / 16, k - 1);
      var s := Hex(n, k);
      assert s[..|s| - 1] == Hex(n / 16, k - 1);
    }
  }

  lemma FourAndEight()
    ensures Power16(4) == 0x1_0000 && Power16(8) == 0x1_0000_0000
  {
    assert Power16(2) == 256;
    assert Power16(4) == 0x1_0000;
    assert Power16(6) == 0x100_0000;
  }

  predicate Scalar(n: nat) { n < 0xD800 || 0xE000 <= n < 0x11_0000 }

  // --------------------------------------------------------------- basic strings

  predicate Disallowed(c: char) { (c < ' ' && c != '\t') || c as int == 0x7f }

  predicate HasControl(s: string) { exists i :: 0 <= i < |s| && Disallowed(s[i]) }

  predicate IsSimple(e: char) { e == 'b' || e == 't' || e == 'n' || e == 'f' || e == 'r' || e == '"' || e == '\\' }

  function Simple(e: char): char {
    if e == 'b' then 8 as char
    else if e == 't' then '\t'
    else if e == 'n' then '\n'
    else if e == 'f' then 12 as char
    else if e == 'r' then '\r'
    else e
  }

  /** How many hexadecimal digits follow the letter of an escape. */
  function Width(e: char): nat { if e == 'x' then 2 else if e == 'u' then 4 else if e == 'U' then 8 else 0 }

  /** validateConfigurationBasicString on what stands between the quotes. */
  function Check(s: string): Option<Reason> {
    if s == [] then None
    else if s[0] == '"' then Some(UnescapedQuote)
    else if s[0] != '\\' then if Disallowed(s[0]) then Some(ControlCharacter) else Check(s[1..])
    else if |s| < 2 then Some(UnterminatedEscape)
    else if IsSimple(s[1]) then Check(s[2..])
    else if s[1] == 'u' || s[1] == 'U' then
      var n := 2 + Width(s[1]);
      if |s| < n || !AllHex(s[2..n]) then Some(BadUnicodeEscape) else Check(s[n..])
    else Some(UnsupportedEscape)
  }

  function Prepend<T>(x: T, r: Option<seq<T>>): Option<seq<T>> {
    match r case None => None case Some(t) => Some([x] + t)
  }

  /** strconv.Unquote on a body that passed Check: only a code point that is no
    * character is left to refuse. */
  function Decode(s: string): Option<string>
    requires Check(s) == None
  {
    if s == [] then Some([])
    else if s[0] != '\\' then Prepend(s[0], Decode(s[1..]))
    else if IsSimple(s[1]) then Prepend(Simple(s[1]), Decode(s[2..]))
    else
      var n := 2 + Width(s[1]);
      var code := HexValue(s[2..n]);
      if !Scalar(code) then None else Prepend(code as char, Decode(s[n..]))
  }

  /** parseConfigurationString. */
  function ParseString(raw: string): Result<string, Reason> {
    var s := Trim(raw);
    if |s| < 2 then Err(ExpectedQuoted)
    else if s[0] == '\'' then
      if s[|s| - 1] != '\'' || !Lacks(s[1..|s| - 1], '\'') then Err(MalformedLiteral)
      else if HasControl(s[1..|s| - 1]) then Err(ControlCharacter)
      else Ok(s[1..|s| - 1])
    else if s[0] == '"' then
      if s[|s| - 1] != '"' then Err(UnterminatedBasic)
      else
        var body := s[1..|s| - 1];
        if Check(body).Some? then Err(Check(body).value)
        else match Decode(body) case None => Err(MalformedBasic) case Some(v) => Ok(v)
    else Err(ExpectedQuoted)
  }

  // --------------------------------------------------------------- strconv.Quote

  /** unicode.IsPrint; `visible` is its answer beyond ASCII. */
  predicate Printable(visible: set<char>, c: char) {
    if c as int < 0x80 then ' ' <= c <= '~' else c in visible
  }

  predicate Raw(visible: set<char>, c: char) { c != '"' && c != '\\' && Printable(visible, c) }

  function Letter(c: char): char {
    if c == '"' || c == '\\' then c
    else if c as int == 7 then 'a'
    else if c as int == 8 then 'b'
    else if c as int == 9 then 't'
    else if c as int == 10 then 'n'
    else if c as int == 11 then 'v'
    else if c as int == 12 then 'f'
    else if c as int == 13 then 'r'
    else if c < ' ' || c as int == 0x7f then 'x'
    else if c as int < 0x1_0000 then 'u'
    else 'U'
  }

  function Unit(visible: set<char>, c: char): string {
    if Raw(visible, c) then [c] else ['\\', Letter(c)] + Hex(c as int, Width(Letter(c)))
  }

  /** What strconv.Quote finds in a Go string: a character, or a byte that is part of none. */
  datatype Glyph = Rune(c: char) | Junk(b: nat)

  function Runes(s: string): seq<Glyph> { seq(|s|, i requires 0 <= i < |s| => Rune(s[i])) }

  /** The text of glyphs that are all characters. */
  function Spell(gs: seq<Glyph>): string {
    seq(|gs|, i requires 0 <= i < |gs| => if gs[i].Rune? then gs[i].c else '?')
  }

  function Mark(visible: set<char>, g: Glyph): string {
    match g case Rune(c) => Unit(visible, c) case Junk(b) => ['\\', 'x'] + Hex(b, 2)
  }

  function Escape(visible: set<char>, gs: seq<Glyph>): string {
    if gs == [] then [] else Mark(visible, gs[0]) + Escape(visible, gs[1..])
  }

  function Quote(visible: set<char>, gs: seq<Glyph>): string { "\"" + Escape(visible, gs) + "\"" }

  /** The characters whose Go escape the parser knows: strconv.Quote writes the
    * others as `\a`, `\v` or `\x` and two digits, which TOML does not have. */
  predicate Representable(c: char) {
    var n := c as int;
    !(n <= 7 || n == 11 || 14 <= n <= 31 || n == 127)
  }

  predicate AllRepresentable(s: string) { forall i :: 0 <= i < |s| ==> Representable(s[i]) }

  predicate Sound(g: Glyph) { g.Rune? && Representable(g.c) }

  predicate AllSound(gs: seq<Glyph>) { forall i :: 0 <= i < |gs| ==> Sound(gs[i]) }

  /** Nothing is lost between a text and its glyphs. */
  lemma SpellRunes(s: string)
    ensures Spell(Runes(s)) == s && (AllSound(Runes(s)) <==> AllRepresentable(s))
  {
    forall i | 0 <= i < |s| ensures Runes(s)[i] == Rune(s[i]) {}
    if AllSound(Runes(s)) {
      forall i | 0 <= i < |s| ensures Representable(s[i]) { assert Sound(Runes(s)[i]); }
    }
  }

  lemma RunesSpell(gs: seq<Glyph>)
    requires AllSound(gs)
    ensures Runes(Spell(gs)) == gs
  {
    forall i | 0 <= i < |gs| ensures gs[i] == Rune(gs[i].c) { assert Sound(gs[i]); }
  }

  lemma LetterMeans(visible: set<char>, c: char)
    requires !Raw(visible, c)
    ensures Representable(c) <==> IsSimple(Letter(c)) || Letter(c) == 'u' || Letter(c) == 'U'
    ensures IsSimple(Letter(c)) ==> Simple(Letter(c)) == c && Width(Letter(c)) == 0
    ensures Letter(c) == 'u' ==> c as int < 0x1_0000
  {}

  lemma CheckUnit(visible: set<char>, c: char, rest: string)
    ensures Check(Unit(visible, c) + rest) == if Representable(c) then Check(rest) else Some(UnsupportedEscape)
  {
    var u := Unit(visible, c);
    var s := u + rest;
    if Raw(visible, c) {
      assert s[0] == c && s[1..] == rest;
    } else {
      LetterMeans(visible, c);
      var n := 2 + Width(Letter(c));
      assert s[0] == '\\' && s[1] == Letter(c);
      assert s[2..n] == Hex(c as int, Width(Letter(c))) && s[n..] == rest;
    }
  }

  lemma DecodeUnit(visible: set<char>, c: char, rest: string)
    requires Representable(c) && Check(rest) == None
    ensures Check(Unit(visible, c) + rest) == None
    ensures Decode(Unit(visible, c) + rest) == Prepend(c, Decode(rest))
  {
    CheckUnit(visible, c, rest);
    var u := Unit(visible, c);
    var s := u + rest;
    if Raw(visible, c) {
      assert s[0] == c && s[1..] == rest;
    } else {
      LetterMeans(visible, c);
      var n := 2 + Width(Letter(c));
      assert s[0] == '\\' && s[1] == Letter(c);
      assert s[2..n] == Hex(c as int, Width(Letter(c))) && s[n..] == rest;
      if !IsSimple(s[1]) {
        FourAndEight();
        HexRoundTrip(c as int, Width(Letter(c)));
        assert HexValue(s[2..n]) == c as int;
      }
    }
  }

  lemma CheckMark(visible: set<char>, g: Glyph, rest: string)
    ensures Check(Mark(visible, g) + rest) == if Sound(g) then Check(rest) else Some(UnsupportedEscape)
  {
    match g
    case Rune(c) => CheckUnit(visible, c, rest);
    case Junk(b) =>
      var s := Mark(visible, g) + rest;
      assert s[0] == '\\' && s[1] == 'x';
  }

  lemma {:induction false} EscapeRoundTrip(visible: set<char>, gs: seq<Glyph>)
    ensures Check(Escape(visible, gs)) == if AllSound(gs) then None else Some(UnsupportedEscape)
    ensures AllSound(gs) ==> Decode(Escape(visible, gs)) == Some(Spell(gs))
  {
    if gs == [] {
      assert Spell(gs) == [];
    } else {
      var g, rest := gs[0], gs[1..];
      EscapeRoundTrip(visible, rest);
      CheckMark(visible, g, Escape(visible, rest));
      assert AllSound(gs) <==> Sound(g) && AllSound(rest);
      if AllSound(gs) {
        DecodeUnit(visible, g.c, Escape(visible, rest));
        assert Spell(gs) == [g.c] + Spell(rest);
      }
    }
  }

  /** Quoting and parsing is the identity exactly on the strings all of whose
    * glyphs have a TOML escape, and every other is refused, never changed. */
  lemma QuoteRoundTrip(visible: set<char>, gs: seq<Glyph>)
    ensures ParseString(Quote(visible, gs)) == if AllSound(gs) then Ok(Spell(gs)) else Err(UnsupportedEscape)
  {
    var q := Quote(visible, gs);
    TrimTight(q);
    assert q[1..|q| - 1] == Escape(visible, gs);
    EscapeRoundTrip(visible, gs);
  }

  // --------------------------------------------- quoted text and the other scans

  /** Text that a basic string can hold without being closed. */
  predicate Inside(s: string) { Lacks(s, '"') && Lacks(s, '\\') }

  lemma {:induction false} InsideRun(s: string)
    requires Inside(s)
    ensures After(Basic, s) == Basic && NoBareSign(Basic, s)
  {
    if s != [] {
      assert s[0] != '"' && s[0] != '\\';
      InsideRun(s[1..]);
    }
  }

  lemma HexIsInside(n: nat, k: nat)
    ensures Inside(Hex(n, k)) && Lacks(Hex(n, k), '\n')
  {
    var s := Hex(n, k);
    forall i | 0 <= i < |s| ensures s[i] != '"' && s[i] != '\\' && s[i] != '\n' { assert IsHex(s[i]); }
  }

  lemma UnitRun(visible: set<char>, c: char)
    ensures After(Basic, Unit(visible, c)) == Basic && NoBareSign(Basic, Unit(visible, c))
    ensures Lacks(Unit(visible, c), '\n')
  {
    var u := Unit(visible, c);
    if !Raw(visible, c) {
      var h := Hex(c as int, Width(Letter(c)));
      HexIsInside(c as int, Width(Letter(c)));
      InsideRun(h);
      assert u[1..] == [Letter(c)] + h && u[1..][1..] == h;
      assert Letter(c) != '\n';
    } else {
      assert u[1..] == [];
    }
  }

  lemma MarkRun(visible: set<char>, g: Glyph)
    ensures After(Basic, Mark(visible, g)) == Basic && NoBareSign(Basic, Mark(visible, g))
    ensures Lacks(Mark(visible, g), '\n')
  {
    match g
    case Rune(c) => UnitRun(visible, c);
    case Junk(b) =>
      var u, h := Mark(visible, g), Hex(b, 2);
      HexIsInside(b, 2);
      InsideRun(h);
      assert u[1..] == ['x'] + h && u[1..][1..] == h;
  }

  lemma {:induction false} EscapeRun(visible: set<char>, gs: seq<Glyph>)
    ensures After(Basic, Escape(visible, gs)) == Basic && NoBareSign(Basic, Escape(visible, gs))
    ensures Lacks(Escape(visible, gs), '\n')
  {
    if gs != [] {
      MarkRun(visible, gs[0]);
      EscapeRun(visible, gs[1..]);
      AfterConcat(Basic, Mark(visible, gs[0]), Escape(visible, gs[1..]));
    }
  }

  /** Text that the comment scan crosses: it opens and closes its strings, has no
    * number sign outside them, and stays on its line. */
  predicate Closed(s: string) { After(Plain, s) == Plain && NoBareSign(Plain, s) && Lacks(s, '\n') }

  lemma ClosedConcat(a: string, b: string)
    requires Closed(a) && Closed(b)
    ensures Closed(a + b)
  {
    AfterConcat(Plain, a, b);
  }

  lemma QuoteIsClosed(visible: set<char>, gs: seq<Glyph>)
    ensures Closed(Quote(visible, gs)) && Tight(Quote(visible, gs))
  {
    var e := Escape(visible, gs);
    EscapeRun(visible, gs);
    var q := Quote(visible, gs);
    assert q[0] == '"' && q[1..] == e + "\"";
    AfterConcat(Basic, e, "\"");
    assert After(Basic, "\"") == Plain && NoBareSign(Basic, "\"");
  }

  // -------------------------------------------------------------- literal strings

  function Apostrophes(s: string): string { "'" + s + "'" }

  lemma LiteralRoundTrip(s: string)
    requires Lacks(s, '\'')
    ensures ParseString(Apostrophes(s)) == if HasControl(s) then Err(ControlCharacter) else Ok(s)
  {
    var q := Apostrophes(s);
    TrimTight(q);
    assert q[1..|q| - 1] == s;
  }

  lemma {:induction false} LiteralRun(s: string)
    requires Lacks(s, '\'')
    ensures After(Literal, s) == Literal && NoBareSign(Literal, s)
  {
    if s != [] {
      assert s[0] != '\'';
      LiteralRun(s[1..]);
    }
  }

  lemma LiteralIsClosed(s: string)
    requires Lacks(s, '\'') && Lacks(s, '\n')
    ensures Closed(Apostrophes(s)) && Tight(Apostrophes(s))
  {
    var q := Apostrophes(s);
    LiteralRun(s);
    assert q[0] == '\'' && q[1..] == s + "'";
    AfterConcat(Literal, s, "'");
    assert After(Literal, "'") == Plain && NoBareSign(Literal, "'");
  }

  // ---------------------------------------------------------------------- arrays

  predicate IsBlank(c: char) { c == ' ' || c == '\t' || c == '\r' }

  function SkipBlanks(s: string): (r: string)
    ensures |r| <= |s|
  {
    if s != [] && IsBlank(s[0]) then SkipBlanks(s[1..]) else s
  }

  /** How far the search for the closing quote goes.  A backslash takes its
    * successor along, past the end if there is none. */
  function Close(quote: char, s: string): nat {
    if s == [] then 0
    else if quote == '"' && s[0] == '\\' then if |s| == 1 then 2 else 2 + Close(quote, s[2..])
    else if s[0] == quote then 1
    else 1 + Close(quote, s[1..])
  }

  function Then(v: string, r: Result<seq<string>, Reason>): Result<seq<string>, Reason> {
    match r case Err(_) => r case Ok(vs) => Ok([v] + vs)
  }

  /** One turn of the element loop: the list ends here, or with this element, or
    * goes on after it. */
  datatype Piece = Done | Last(v: string) | More(v: string, rest: string) | Bad(why: Reason)

  /** What stands after an element: nothing, or a comma and the rest. */
  function Follow(v: string, s: string): (p: Piece)
    ensures p.More? ==> |p.rest| < |s|
  {
    var t := SkipBlanks(s);
    if t == [] then Last(v) else if t[0] != ',' then Bad(ExpectedComma) else More(v, t[1..])
  }

  function FollowParsed(r: Result<string, Reason>, s: string): (p: Piece)
    ensures p.More? ==> |p.rest| < |s|
  {
    match r case Err(why) => Bad(why) case Ok(v) => Follow(v, s)
  }

  function Peel(s: string): (p: Piece)
    ensures p.More? ==> |p.rest| < |s|
  {
    var b := SkipBlanks(s);
    if b == [] then Done
    else if b[0] != '"' && b[0] != '\'' then Bad(ElementNotQuoted)
    else
      var n := 1 + Close(b[0], b[1..]);
      if n > |b| || b[n - 1] != b[0] then Bad(UnterminatedElement)
      else FollowParsed(ParseString(b[..n]), b[n..])
  }

  /** The element loop of parseConfigurationStringArray. */
  function Elements(s: string): Result<seq<string>, Reason>
    decreases |s|
  {
    match Peel(s)
    case Done => Ok([])
    case Last(v) => Ok([v])
    case More(v, rest) => Then(v, Elements(rest))
    case Bad(why) => Err(why)
  }

  /** parseConfigurationStringArray. */
  function ParseArray(raw: string): Result<seq<string>, Reason> {
    var s := Trim(raw);
    if |s| < 2 || s[0] != '[' || s[|s| - 1] != ']' then Err(ExpectedArray)
    else Elements(s[1..|s| - 1])
  }

  /** An element as a file can write it: a basic or a literal string, with blanks around it. */
  datatype Quotation = InQuotes(glyphs: seq<Glyph>) | InApostrophes(text: string)

  datatype Element = Element(before: string, body: Quotation, after: string)

  function ShowQuotation(visible: set<char>, q: Quotation): string {
    match q case InQuotes(gs) => Quote(visible, gs) case InApostrophes(s) => Apostrophes(s)
  }

  function ShowElement(visible: set<char>, e: Element): string {
    e.before + (ShowQuotation(visible, e.body) + e.after)
  }

  /** Elements and commas; `open` puts one after the last element too. */
  function Items(visible: set<char>, es: seq<Element>, open: bool, tail: string): string {
    if es == [] then tail
    else if |es| == 1 && !open then ShowElement(visible, es[0])
    else ShowElement(visible, es[0]) + ("," + Items(visible, es[1..], open, tail))
  }

  function Brackets(visible: set<char>, es: seq<Element>, open: bool, tail: string): string {
    "[" + Items(visible, es, open, tail) + "]"
  }

  predicate AllBlank(s: string) { forall i :: 0 <= i < |s| ==> IsBlank(s[i]) }

  predicate GoodQuotation(q: Quotation) { q.InApostrophes? ==> Lacks(q.text, '\'') && Lacks(q.text, '\n') }

  predicate GoodElement(e: Element) { AllBlank(e.before) && AllBlank(e.after) && GoodQuotation(e.body) }

  predicate GoodElements(es: seq<Element>) { forall i :: 0 <= i < |es| ==> GoodElement(es[i]) }

  /** What an element says. */
  function Says(q: Quotation): Result<string, Reason> {
    match q
    case InQuotes(gs) => if AllSound(gs) then Ok(Spell(gs)) else Err(UnsupportedEscape)
    case InApostrophes(s) => if HasControl(s) then Err(ControlCharacter) else Ok(s)
  }

  /** What a list says: all its elements, or the first mistake. */
  function SayAll(es: seq<Element>): Result<seq<string>, Reason> {
    if es == [] then Ok([]) else First(Says(es[0].body), SayAll(es[1..]))
  }

  function First(r: Result<string, Reason>, more: Result<seq<string>, Reason>): Result<seq<string>, Reason> {
    match r case Err(why) => Err(why) case Ok(v) => Then(v, more)
  }

  lemma {:induction false} CloseInside(h: string, rest: string)
    requires Inside(h)
    ensures Close('"', h + rest) == |h| + Close('"', rest)
  {
    if h == [] {
      assert h + rest == rest;
    } else {
      var s := h + rest;
      assert s[0] == h[0] && h[0] != '"' && h[0] != '\\' && s[1..] == h[1..] + rest;
      CloseInside(h[1..], rest);
    }
  }

  lemma CloseUnit(visible: set<char>, c: char, rest: string)
    ensures Close('"', Unit(visible, c) + rest) == |Unit(visible, c)| + Close('"', rest)
  {
    var s := Unit(visible, c) + rest;
    if Raw(visible, c) {
      assert s[0] == c && s[1..] == rest;
    } else {
      var h := Hex(c as int, Width(Letter(c)));
      HexIsInside(c as int, Width(Letter(c)));
      assert s[0] == '\\' && s[2..] == h + rest;
      CloseInside(h, rest);
    }
  }

  lemma CloseMark(visible: set<char>, g: Glyph, rest: string)
    ensures Close('"', Mark(visible, g) + rest) == |Mark(visible, g)| + Close('"', rest)
  {
    match g
    case Rune(c) => CloseUnit(visible, c, rest);
    case Junk(b) =>
      var s, h := Mark(visible, g) + rest, Hex(b, 2);
      HexIsInside(b, 2);
      assert s[0] == '\\' && s[2..] == h + rest;
      CloseInside(h, rest);
  }

  lemma {:induction false} CloseEscape(visible: set<char>, gs: seq<Glyph>, rest: string)
    ensures Close('"', Escape(visible, gs) + rest) == |Escape(visible, gs)| + Close('"', rest)
  {
    if gs == [] {
      assert Escape(visible, gs) + rest == rest;
    } else {
      var u, d := Mark(visible, gs[0]), Escape(visible, gs[1..]);
      CloseEscape(visible, gs[1..], rest);
      CloseMark(visible, gs[0], d + rest);
      assert (u + d) + rest == u + (d + rest);
    }
  }

  lemma {:induction false} CloseLiteral(s: string, rest: string)
    requires Lacks(s, '\'')
    ensures Close('\'', s + (['\''] + rest)) == |s| + 1
  {
    var all := s + (['\''] + rest);
    if s == [] {
      assert all[0] == '\'';
    } else {
      assert all[0] == s[0] && s[0] != '\'' && all[1..] == s[1..] + (['\''] + rest);
      CloseLiteral(s[1..], rest);
    }
  }

  lemma {:induction false} QuoteCloses(visible: set<char>, v: seq<Glyph>, t: string)
    ensures 1 + Close('"', Quote(visible, v)[1..] + t) == |Quote(visible, v)|
  {
    var end := ['"'] + t;
    CloseEscape(visible, v, end);
    assert end[0] == '"';
    assert Quote(visible, v)[1..] + t == Escape(visible, v) + end;
  }

  /** A quotation is one string to the search for its end and to the string parser. */
  lemma {:induction false} QuotationReads(visible: set<char>, body: Quotation, t: string)
    requires GoodQuotation(body)
    ensures var q := ShowQuotation(visible, body);
      && |q| >= 2 && (q[0] == '"' || q[0] == '\'') && q[|q| - 1] == q[0]
      && 1 + Close(q[0], q[1..] + t) == |q| && ParseString(q) == Says(body)
  {
    match body
    case InQuotes(gs) =>
      QuoteCloses(visible, gs, t);
      QuoteRoundTrip(visible, gs);
    case InApostrophes(s) =>
      assert Apostrophes(s)[1..] + t == s + (['\''] + t);
      CloseLiteral(s, t);
      LiteralRoundTrip(s);
  }

  lemma {:induction false} SkipPast(a: string, s: string)
    requires AllBlank(a) && (s == [] || !IsBlank(s[0]))
    ensures SkipBlanks(a + s) == s
  {
    if a == [] {
      assert a + s == s;
    } else {
      assert (a + s)[0] == a[0] && (a + s)[1..] == a[1..] + s;
      SkipPast(a[1..], s);
    }
  }

  lemma PeelBare(q: string, rest: string)
    requires |q| >= 2 && (q[0] == '"' || q[0] == '\'') && q[|q| - 1] == q[0] && 1 + Close(q[0], q[1..] + rest) == |q|
    ensures Peel(q + rest) == FollowParsed(ParseString(q), rest)
  {
    var s := q + rest;
    assert s[0] == q[0] && SkipBlanks(s) == s;
    assert s[1..] == q[1..] + rest;
    assert s[..|q|] == q && s[|q|..] == rest;
  }

  lemma PeelSkips(a: string, s: string)
    requires AllBlank(a) && s != [] && !IsBlank(s[0])
    ensures Peel(a + s) == Peel(s)
  {
    SkipPast(a, s);
    assert SkipBlanks(s) == s;
  }

  /** Reading one printed element in front of `t`. */
  lemma {:induction false} PeelElement(visible: set<char>, e: Element, t: string)
    requires GoodElement(e) && (t == [] || t[0] == ',')
    ensures Peel(ShowElement(visible, e) + t) == FollowParsed(Says(e.body), t)
  {
    var q := ShowQuotation(visible, e.body);
    QuotationReads(visible, e.body, e.after + t);
    PeelBare(q, e.after + t);
    PeelSkips(e.before, q + (e.after + t));
    assert ShowElement(visible, e) + t == e.before + (q + (e.after + t));
    SkipPast(e.after, t);
    assert SkipBlanks(t) == t;
  }

  lemma {:induction false} LastElement(visible: set<char>, e: Element)
    requires GoodElement(e)
    ensures Elements(ShowElement(visible, e)) == First(Says(e.body), Ok([]))
  {
    var s := ShowElement(visible, e);
    assert s + [] == s;
    PeelElement(visible, e, []);
    if Says(e.body).Ok? { assert [Says(e.body).value] + [] == [Says(e.body).value]; }
  }

  lemma {:induction false} MoreElements(visible: set<char>, e: Element, rest: string)
    requires GoodElement(e)
    ensures Elements(ShowElement(visible, e) + ("," + rest)) == First(Says(e.body), Elements(rest))
  {
    var t := "," + rest;
    PeelElement(visible, e, t);
    assert t[1..] == rest && SkipBlanks(t) == t;
  }

  lemma {:induction false} ItemsRoundTrip(visible: set<char>, es: seq<Element>, open: bool, tail: string)
    requires GoodElements(es) && AllBlank(tail)
    ensures Elements(Items(visible, es, open, tail)) == SayAll(es)
  {
    if es == [] {
      assert tail + [] == tail;
      SkipPast(tail, []);
    } else if |es| == 1 && !open {
      LastElement(visible, es[0]);
      assert SayAll(es[1..]) == Ok([]);
    } else {
      MoreElements(visible, es[0], Items(visible, es[1..], open, tail));
      ItemsRoundTrip(visible, es[1..], open, tail);
    }
  }

  /** Every printed list reads back, with any blanks and with or without a last
    * comma, or is refused for its first mistake. */
  lemma ArrayRoundTrip(visible: set<char>, es: seq<Element>, open: bool, tail: string)
    requires GoodElements(es) && AllBlank(tail)
    ensures ParseArray(Brackets(visible, es, open, tail)) == SayAll(es)
  {
    var s := Brackets(visible, es, open, tail);
    TrimTight(s);
    assert s[1..|s| - 1] == Items(visible, es, open, tail);
    ItemsRoundTrip(visible, es, open, tail);
  }

  lemma BlanksAreClosed(s: string)
    requires AllBlank(s)
    ensures Closed(s)
  {
    PlainRun(s);
  }

  lemma ElementIsClosed(visible: set<char>, e: Element)
    requires GoodElement(e)
    ensures Closed(ShowElement(visible, e))
  {
    match e.body {
      case InQuotes(gs) => QuoteIsClosed(visible, gs);
      case InApostrophes(s) => LiteralIsClosed(s);
    }
    BlanksAreClosed(e.before);
    BlanksAreClosed(e.after);
    ClosedConcat(ShowQuotation(visible, e.body), e.after);
    ClosedConcat(e.before, ShowQuotation(visible, e.body) + e.after);
  }

  lemma {:induction false} ItemsAreClosed(visible: set<char>, es: seq<Element>, open: bool, tail: string)
    requires GoodElements(es) && AllBlank(tail)
    ensures Closed(Items(visible, es, open, tail))
  {
    if es == [] {
      BlanksAreClosed(tail);
    } else {
      ElementIsClosed(visible, es[0]);
      if |es| > 1 || open {
        var rest := Items(visible, es[1..], open, tail);
        ItemsAreClosed(visible, es[1..], open, tail);
        PlainRun(",");
        ClosedConcat(",", rest);
        ClosedConcat(ShowElement(visible, es[0]), "," + rest);
      }
    }
  }

  lemma BracketsAreClosed(visible: set<char>, es: seq<Element>, open: bool, tail: string)
    requires GoodElements(es) && AllBlank(tail)
    ensures Closed(Brackets(visible, es, open, tail)) && Tight(Brackets(visible, es, open, tail))
  {
    ItemsAreClosed(visible, es, open, tail);
    PlainRun("[");
    PlainRun("]");
    ClosedConcat("[", Items(visible, es, open, tail));
    ClosedConcat("[" + Items(visible, es, open, tail), "]");
  }

  // -------------------------------------------------------------------- integers

  predicate IsDigit(c: char) { '0' <= c <= '9' }

  predicate AllDigits(s: string) { forall i :: 0 <= i < |s| ==> IsDigit(s[i]) }

  function Digit(n: nat): (c: char)
    requires n < 10
    ensures IsDigit(c) && c as int == '0' as int + n
  {
    ('0' as int + n) as char
  }

  function Digits(n: nat): (s: string)
    ensures s != [] && AllDigits(s)
  {
    if n < 10 then [Digit(n)] else Digits(n / 10) + [Digit(n % 10)]
  }

  function Itoa(n: int): string { if n < 0 then "-" + Digits(-n) else Digits(n) }

  function Value(s: string): int {
    if s == [] then 0 else 10 * Value(s[..|s| - 1]) + (s[|s| - 1] as int - '0' as int)
  }

  /** The shape the character loop of parseConfigurationInteger demands: digits,
    * and underscores only between two of them. */
  predicate DigitAt(s: string, i: nat)
    requires i < |s|
  {
    IsDigit(s[i]) || (s[i] == '_' && 0 < i < |s| - 1 && s[i - 1] != '_' && s[i + 1] != '_')
  }

  predicate Numeral(s: string) { s != [] && forall i :: 0 <= i < |s| ==> DigitAt(s, i) }

  function Without(s: string): string {
    if s == [] then []
    else if s[|s| - 1] == '_' then Without(s[..|s| - 1])
    else Without(s[..|s| - 1]) + [s[|s| - 1]]
  }

  predicate InRange(n: int) { -0x8000_0000_0000_0000 <= n < 0x8000_0000_0000_0000 }

  function Unsigned(s: string): string { if s != [] && (s[0] == '+' || s[0] == '-') then s[1..] else s }

  function Signed(s: string, n: int): int { if s != [] && s[0] == '-' then -n else n }

  /** parseConfigurationInteger, for a 64-bit int. */
  function ParseInteger(raw: string): Result<int, Reason> {
    var s := Trim(raw);
    var ds := Unsigned(s);
    if !Numeral(ds) then Err(ExpectedInteger)
    else
      var plain := Without(ds);
      if |plain| > 1 && plain[0] == '0' then Err(LeadingZero)
      else
        var n := Signed(s, Value(plain));
        if InRange(n) then Ok(n) else Err(ExpectedInteger)
  }

  predicate Canonical(s: string) { s != [] && AllDigits(s) && (|s| > 1 ==> s[0] != '0') }

  lemma {:induction false} DigitsValue(n: nat)
    ensures Value(Digits(n)) == n && Canonical(Digits(n)) && (n > 0 ==> Digits(n)[0] != '0')
  {
    var s := Digits(n);
    if n < 10 {
      assert s[..|s| - 1] == [];
      assert Value([]) == 0;
    } else {
      DigitsValue(n / 10);
      assert s[..|s| - 1] == Digits(n / 10);
    }
  }

  lemma {:induction false} ValueBounds(s: string)
    requires AllDigits(s)
    ensures Value(s) >= 0
    ensures s != [] && s[0] != '0' ==> Value(s) > 0
  {
    if s != [] { ValueBounds(s[..|s| - 1]); }
  }

  /** A numeral without a leading zero is the only one of its value. */
  lemma {:induction false} CanonicalDigits(s: string)
    requires Canonical(s)
    ensures Value(s) >= 0 && Digits(Value(s)) == s
  {
    var front, last := s[..|s| - 1], s[|s| - 1];
    assert IsDigit(last);
    ValueBounds(s);
    if |s| == 1 {
      assert Value(front) == 0;
      assert s == [Digit(Value(s))];
    } else {
      ValueBounds(front);
      CanonicalDigits(front);
      assert Value(s) / 10 == Value(front) && Digit(Value(s) % 10) == last;
      assert s == front + [last];
    }
  }

  lemma {:induction false} WithoutDigits(s: string)
    requires AllDigits(s)
    ensures Without(s) == s
  {
    if s != [] {
      WithoutDigits(s[..|s| - 1]);
      assert s == s[..|s| - 1] + [s[|s| - 1]];
    }
  }

  lemma {:induction false} WithoutNumeral(s: string)
    requires forall i :: 0 <= i < |s| ==> IsDigit(s[i]) || s[i] == '_'
    ensures AllDigits(Without(s))
    ensures s != [] && s[0] != '_' ==> Without(s) != []
  {
    if s != [] { WithoutNumeral(s[..|s| - 1]); }
  }

  function Magnitude(n: int): nat { if n < 0 then -n else n }

  /** The digits that remain once underscores are gone settle the value. */
  lemma PlainMeans(plain: string, n: nat)
    requires AllDigits(plain) && plain != []
    ensures Canonical(plain) && Value(plain) == n <==> plain == Digits(n)
  {
    DigitsValue(n);
    if Canonical(plain) { CanonicalDigits(plain); }
  }

  lemma NumeralPlain(ds: string)
    requires Numeral(ds)
    ensures AllDigits(Without(ds)) && Without(ds) != []
  {
    forall i | 0 <= i < |ds| ensures IsDigit(ds[i]) || ds[i] == '_' { assert DigitAt(ds, i); }
    assert DigitAt(ds, 0);
    WithoutNumeral(ds);
  }

  /** What the parser accepts, exactly: a 64-bit value whose canonical digits are
    * written, underscores between digits aside, after the sign it has. */
  lemma IntegerMeans(raw: string, n: int)
    ensures ParseInteger(raw) == Ok(n) <==>
      && Numeral(Unsigned(Trim(raw)))
      && Without(Unsigned(Trim(raw))) == Digits(Magnitude(n))
      && InRange(n)
      && n == Signed(Trim(raw), Magnitude(n))
  {
    var s := Trim(raw);
    if Numeral(Unsigned(s)) {
      var plain := Without(Unsigned(s));
      NumeralPlain(Unsigned(s));
      ValueBounds(plain);
      PlainMeans(plain, Magnitude(n));
    }
  }

  lemma DigitsNumeral(n: nat)
    ensures Numeral(Digits(n)) && Without(Digits(n)) == Digits(n)
  {
    WithoutDigits(Digits(n));
    var s := Digits(n);
    forall i | 0 <= i < |s| ensures DigitAt(s, i) { assert IsDigit(s[i]); }
  }

  lemma ItoaShape(n: int)
    ensures var s := Itoa(n); Tight(s) && Unsigned(s) == Digits(Magnitude(n)) && Signed(s, Magnitude(n)) == n
    ensures forall i :: 0 <= i < |Itoa(n)| ==> IsDigit(Itoa(n)[i]) || Itoa(n)[i] == '-'
  {
    var s := Itoa(n);
    var ds := Digits(Magnitude(n));
    assert IsDigit(ds[0]) && IsDigit(ds[|ds| - 1]);
    if n < 0 { assert s[1..] == ds; }
  }

  /** Every integer the width holds reads back; the others are refused. */
  lemma IntegerRoundTrip(n: int)
    ensures ParseInteger(Itoa(n)) == if InRange(n) then Ok(n) else Err(ExpectedInteger)
  {
    ItoaShape(n);
    TrimTight(Itoa(n));
    DigitsNumeral(Magnitude(n));
    DigitsValue(Magnitude(n));
  }

  lemma ItoaIsClosed(n: int)
    ensures Closed(Itoa(n)) && Tight(Itoa(n))
  {
    var s := Itoa(n);
    ItoaShape(n);
    forall i | 0 <= i < |s| ensures s[i] != '"' && s[i] != '\'' && s[i] != '#' && s[i] != '\n' {
      assert IsDigit(s[i]) || s[i] == '-';
    }
    PlainRun(s);
  }
}

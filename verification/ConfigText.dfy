/**
 * The lexical layer of the configuration parser (internal/config/parser.go):
 * lines, surrounding white space, the first `=`, and where a comment begins.
 *
 * The source walks over UTF-8 bytes.  Every byte it compares with is ASCII, so
 * on valid UTF-8 walking over characters takes the same branches.
 */
module ConfigText {
  import opened Options

  // ---------------------------------------------------------------- white space

  /** The characters strings.TrimSpace removes. */
  predicate IsSpace(c: char) {
    var n := c as int;
    9 <= n <= 13 || n == 32 || n == 0x85 || n == 0xA0 || n == 0x1680 || 0x2000 <= n <= 0x200A
    || n == 0x2028 || n == 0x2029 || n == 0x202F || n == 0x205F || n == 0x3000
  }

  function TrimLeft(s: string): string {
    if s != [] && IsSpace(s[0]) then TrimLeft(s[1..]) else s
  }

  function TrimRight(s: string): string {
    if s != [] && IsSpace(s[|s| - 1]) then TrimRight(s[..|s| - 1]) else s
  }

  function Trim(s: string): string { TrimRight(TrimLeft(s)) }

  /** Begins and ends with something that is not white space. */
  predicate Tight(s: string) { s != [] && !IsSpace(s[0]) && !IsSpace(s[|s| - 1]) }

  lemma TrimTight(s: string)
    requires Tight(s)
    ensures Trim(s) == s
  {}

  predicate AllSpace(s: string) { forall i :: 0 <= i < |s| ==> IsSpace(s[i]) }

  lemma {:induction false} TrimLeftPast(a: string, s: string)
    requires AllSpace(a) && (s == [] || !IsSpace(s[0]))
    ensures TrimLeft(a + s) == s
  {
    if a == [] {
      assert a + s == s;
    } else {
      assert (a + s)[0] == a[0] && (a + s)[1..] == a[1..] + s;
      TrimLeftPast(a[1..], s);
    }
  }

  lemma {:induction false} TrimRightPast(s: string, b: string)
    requires AllSpace(b) && (s == [] || !IsSpace(s[|s| - 1]))
    ensures TrimRight(s + b) == s
  {
    if b == [] {
      assert s + b == s;
    } else {
      var n := |b| - 1;
      var t := s + b;
      assert t[|t| - 1] == b[n] && t[..|t| - 1] == s + b[..n];
      TrimRightPast(s, b[..n]);
    }
  }

  /** White space on both sides is what is trimmed, and nothing else. */
  lemma TrimMargins(a: string, s: string, b: string)
    requires AllSpace(a) && AllSpace(b) && (s == [] || Tight(s))
    ensures Trim(a + s + b) == s
  {
    assert a + s + b == a + (s + b);
    if s == [] {
      assert AllSpace(a + b) && a + s + b == (a + b) + [];
      TrimLeftPast(a + b, []);
    } else {
      assert (s + b)[0] == s[0];
      TrimLeftPast(a, s + b);
      TrimRightPast(s, b);
    }
  }

  // ------------------------------------------------------------- lines and pairs

  predicate Lacks(s: string, c: char) { forall i :: 0 <= i < |s| ==> s[i] != c }

  /** strings.Split at line feeds: one line more than there are line feeds. */
  function Split(s: string): (lines: seq<string>)
    ensures lines != []
  {
    if s == [] then [[]]
    else
      var rest := Split(s[1..]);
      if s[0] == '\n' then [[]] + rest else [[s[0]] + rest[0]] + rest[1..]
  }

  lemma {:induction false} SplitLine(line: string, rest: string)
    requires Lacks(line, '\n')
    ensures Split(line + "\n" + rest) == [line] + Split(rest)
  {
    var all := line + "\n" + rest;
    if line == [] {
      assert all[0] == '\n' && all[1..] == rest;
    } else {
      assert all[0] == line[0] && all[1..] == line[1..] + "\n" + rest;
      SplitLine(line[1..], rest);
      var tail := [line[1..]] + Split(rest);
      assert tail[0] == line[1..] && tail[1..] == Split(rest);
      assert [line[0]] + line[1..] == line;
    }
  }

  /** strings.Cut at the first `=`. */
  function Cut(s: string): Option<(string, string)> {
    if s == [] then None
    else if s[0] == '=' then Some(([], s[1..]))
    else match Cut(s[1..]) case None => None case Some(p) => Some(([s[0]] + p.0, p.1))
  }

  lemma {:induction false} CutAt(a: string, b: string)
    requires Lacks(a, '=')
    ensures Cut(a + "=" + b) == Some((a, b))
  {
    var s := a + "=" + b;
    if a == [] {
      assert s[0] == '=' && s[1..] == b;
    } else {
      assert s[0] == a[0] && s[1..] == a[1..] + "=" + b;
      CutAt(a[1..], b);
      assert [a[0]] + a[1..] == a;
    }
  }

  // -------------------------------------------------------------------- comments

  /** Where a scan stands: outside strings, in a basic string, right after a
    * backslash in one, or in a literal string. */
  datatype Mode = Plain | Basic | Escaped | Literal

  function Advance(m: Mode, c: char): Mode {
    match m
    case Plain => if c == '"' then Basic else if c == '\'' then Literal else Plain
    case Basic => if c == '\\' then Escaped else if c == '"' then Plain else Basic
    case Escaped => Basic
    case Literal => if c == '\'' then Plain else Literal
  }

  function After(m: Mode, s: string): Mode
    decreases s
  {
    if s == [] then m else After(Advance(m, s[0]), s[1..])
  }

  /** No number sign stands outside the strings of `s`. */
  predicate NoBareSign(m: Mode, s: string)
    decreases s
  {
    s == [] || (!(m == Plain && s[0] == '#') && NoBareSign(Advance(m, s[0]), s[1..]))
  }

  lemma {:induction false} AfterConcat(m: Mode, a: string, b: string)
    ensures After(m, a + b) == After(After(m, a), b)
    ensures NoBareSign(m, a + b) <==> NoBareSign(m, a) && NoBareSign(After(m, a), b)
    decreases a
  {
    if a == [] {
      assert a + b == b;
    } else {
      var s := a + b;
      assert s[0] == a[0] && s[1..] == a[1..] + b;
      AfterConcat(Advance(m, a[0]), a[1..], b);
    }
  }

  /** Characters that mean nothing to the scan leave it outside strings. */
  lemma {:induction false} PlainRun(s: string)
    requires Lacks(s, '"') && Lacks(s, '\'') && Lacks(s, '#')
    ensures After(Plain, s) == Plain && NoBareSign(Plain, s)
  {
    if s != [] {
      assert s[0] != '"' && s[0] != '\'' && s[0] != '#';
      PlainRun(s[1..]);
    }
  }

  /** stripConfigurationComment, told by the scan: an error is an open quote. */
  function Strip(m: Mode, s: string): Option<string>
    decreases s
  {
    if s == [] then if m == Plain then Some([]) else None
    else if m == Plain && s[0] == '#' then Some([])
    else match Strip(Advance(m, s[0]), s[1..]) case None => None case Some(t) => Some([s[0]] + t)
  }

  /** What remains of a line after a scanned prefix without a bare number sign. */
  lemma {:induction false} StripPast(m: Mode, p: string, q: string)
    requires NoBareSign(m, p)
    ensures Strip(m, p + q)
         == match Strip(After(m, p), q) case None => None case Some(t) => Some(p + t)
    decreases p
  {
    if p == [] {
      assert p + q == q;
      match Strip(m, q) case None => case Some(t) => assert p + t == t;
    } else {
      var s := p + q;
      assert s[0] == p[0] && s[1..] == p[1..] + q;
      StripPast(Advance(m, p[0]), p[1..], q);
      match Strip(After(m, p), q) case None => case Some(t) => assert [p[0]] + (p[1..] + t) == p + t;
    }
  }

  /** `kept` is the part of `line` before its comment, in the words of the TOML
    * standard: strings closed, no number sign outside them, and either nothing
    * follows or a number sign does. */
  ghost predicate Uncommented(line: string, kept: string) {
    && kept <= line
    && NoBareSign(Plain, kept)
    && After(Plain, kept) == Plain
    && (|kept| < |line| ==> line[|kept|] == '#')
  }

  lemma StripFinds(line: string, kept: string)
    requires Uncommented(line, kept)
    ensures Strip(Plain, line) == Some(kept)
  {
    var rest := line[|kept|..];
    assert line == kept + rest;
    StripPast(Plain, kept, rest);
    assert Strip(Plain, rest) == Some([]);
    assert kept + [] == kept;
  }

  lemma {:induction false} StripSound(m: Mode, s: string)
    requires Strip(m, s).Some?
    ensures var t := Strip(m, s).value;
            && t <= s
            && NoBareSign(m, t)
            && After(m, t) == Plain
            && (|t| < |s| ==> s[|t|] == '#')
    decreases s
  {
    if s != [] && !(m == Plain && s[0] == '#') {
      StripSound(Advance(m, s[0]), s[1..]);
      var u := Strip(Advance(m, s[0]), s[1..]).value;
      var t := [s[0]] + u;
      assert t[1..] == u;
      assert t == s[..|t|];
    }
  }

  /** A comment is removed exactly: the line is rejected just when no prefix of
    * it is its uncommented part, and otherwise there is one such prefix. */
  lemma StripMeans(line: string)
    ensures forall kept :: Strip(Plain, line) == Some(kept) <==> Uncommented(line, kept)
  {
    forall kept
      ensures Strip(Plain, line) == Some(kept) <==> Uncommented(line, kept)
    {
      if Strip(Plain, line) == Some(kept) { StripSound(Plain, line); }
      if Uncommented(line, kept) { StripFinds(line, kept); }
    }
  }
}

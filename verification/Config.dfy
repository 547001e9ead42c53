/**
 * The loops of internal/config/parser.go, each proved against the function of
 * the same operation in ConfigText, ConfigValues or ConfigSpec.
 */
module Config {
  import opened Options
  import opened ConfigText
  import opened ConfigValues
  import opened ConfigSpec

  function ModeOf(quote: char, escaped: bool): Mode {
    if quote == '"' then if escaped then Escaped else Basic
    else if quote == '\'' then Literal
    else Plain
  }

  /** stripConfigurationComment; `quote` is the zero character outside strings. */
  method StripComment(line: string) returns (kept: Option<string>)
    ensures kept == Strip(Plain, line)
  {
    var none := 0 as char;
    var quote, escaped := none, false;
    for index := 0 to |line|
      invariant quote == none || quote == '"' || quote == '\''
      invariant escaped ==> quote == '"'
      invariant After(Plain, line[..index]) == ModeOf(quote, escaped)
      invariant NoBareSign(Plain, line[..index])
    {
      var character := line[index];
      AfterConcat(Plain, line[..index], [character]);
      assert line[..index + 1] == line[..index] + [character];
      if quote == '"' && escaped {
        escaped := false;
        continue;
      }
      if quote == '"' && character == '\\' {
        escaped := true;
        continue;
      }
      if quote != none {
        if character == quote { quote := none; }
        continue;
      }
      if character == '"' || character == '\'' {
        quote := character;
        continue;
      }
      if character == '#' {
        StripFinds(line, line[..index]);
        return Some(line[..index]);
      }
    }
    assert line[..|line|] == line;
    if quote != none || escaped {
      StripPast(Plain, line, []);
      assert line + [] == line;
      return None;
    }
    StripFinds(line, line);
    return Some(line);
  }

  lemma SliceOf(s: string, i: nat, j: nat, a: nat, b: nat)
    requires a <= b && i + b <= j <= |s|
    ensures s[i..j][a..b] == s[i + a..i + b] && s[i..j][b..] == s[i + b..j]
  {
    var t := s[i..j];
    assert |t[a..b]| == |s[i + a..i + b]| && forall k :: 0 <= k < b - a ==> t[a..b][k] == s[i + a..i + b][k];
    assert |t[b..]| == |s[i + b..j]| && forall k :: 0 <= k < |t| - b ==> t[b..][k] == s[i + b..j][k];
  }

  /** validateConfigurationBasicString. */
  method ValidateBasicString(raw: string) returns (problem: Option<Reason>)
    requires |raw| >= 2
    ensures problem == Check(raw[1..|raw| - 1])
  {
    var closing, index := |raw| - 1, 1;
    while index < closing
      invariant 1 <= index <= closing
      invariant Check(raw[1..closing]) == Check(raw[index..closing])
    {
      ghost var rest := raw[index..closing];
      var character := raw[index];
      assert rest[0] == character;
      if character == '"' { return Some(UnescapedQuote); }
      if character != '\\' {
        if Disallowed(character) { return Some(ControlCharacter); }
        assert rest[1..] == raw[index + 1..closing];
        index := index + 1;
        continue;
      }
      if index + 1 >= closing { return Some(UnterminatedEscape); }
      var escape := raw[index + 1];
      assert rest[1] == escape;
      if IsSimple(escape) {
        assert rest[2..] == raw[index + 2..closing];
        index := index + 2;
      } else if escape == 'u' || escape == 'U' {
        var digits := if escape == 'U' then 8 else 4;
        var end := index + 2 + digits;
        if end > closing { return Some(BadUnicodeEscape); }
        SliceOf(raw, index, closing, 2, 2 + digits);
        if !AllHex(raw[index + 2..end]) { return Some(BadUnicodeEscape); }
        index := end;
      } else {
        return Some(UnsupportedEscape);
      }
    }
    assert raw[index..closing] == [];
    return None;
  }

  /** parseConfigurationString. */
  method ReadString(raw: string) returns (r: Result<string, Reason>)
    ensures r == ParseString(raw)
  {
    var s := Trim(raw);
    if |s| < 2 { return Err(ExpectedQuoted); }
    if s[0] == '\'' {
      var value := s[1..|s| - 1];
      if s[|s| - 1] != '\'' || !Lacks(value, '\'') { return Err(MalformedLiteral); }
      return if HasControl(value) then Err(ControlCharacter) else Ok(value);
    }
    if s[0] != '"' { return Err(ExpectedQuoted); }
    if s[|s| - 1] != '"' { return Err(UnterminatedBasic); }
    var problem := ValidateBasicString(s);
    if problem.Some? { return Err(problem.value); }
    var value := Decode(s[1..|s| - 1]);
    return if value.None? then Err(MalformedBasic) else Ok(value.value);
  }

  method SkipBlanksAt(body: string, from: nat) returns (offset: nat)
    requires from <= |body|
    ensures from <= offset <= |body|
    ensures body[offset..] == SkipBlanks(body[from..])
    ensures offset < |body| ==> !IsBlank(body[offset])
  {
    offset := from;
    while offset < |body| && IsBlank(body[offset])
      invariant from <= offset <= |body|
      invariant SkipBlanks(body[offset..]) == SkipBlanks(body[from..])
    {
      assert body[offset..][1..] == body[offset + 1..];
      offset := offset + 1;
    }
  }

  /** The search for the quote that ends the element begun at `start`. */
  method FindClose(body: string, start: nat) returns (offset: nat)
    requires start < |body|
    ensures offset == start + 1 + Close(body[start], body[start + 1..])
    ensures start < offset <= |body| + 1
  {
    var quote := body[start];
    offset := start + 1;
    while offset < |body|
      invariant start < offset <= |body| + 1
      invariant start + 1 + Close(quote, body[start + 1..])
             == if offset > |body| then offset else offset + Close(quote, body[offset..])
    {
      ghost var rest := body[offset..];
      assert rest[0] == body[offset];
      if quote == '"' && body[offset] == '\\' {
        assert |rest| > 1 ==> rest[2..] == body[offset + 2..];
        offset := offset + 2;
        continue;
      }
      assert rest[1..] == body[offset + 1..];
      if body[offset] == quote {
        offset := offset + 1;
        break;
      }
      offset := offset + 1;
    }
  }

  function Onto(vs: seq<string>, r: Result<seq<string>, Reason>): Result<seq<string>, Reason> {
    match r case Err(_) => r case Ok(more) => Ok(vs + more)
  }

  lemma OntoNothing(r: Result<seq<string>, Reason>)
    ensures Onto([], r) == r
  {
    match r
    case Err(_) =>
    case Ok(more) => assert [] + more == more;
  }

  lemma OntoThen(vs: seq<string>, v: string, r: Result<seq<string>, Reason>)
    ensures Onto(vs, Then(v, r)) == Onto(vs + [v], r)
  {
    match r
    case Err(_) =>
    case Ok(more) => assert vs + ([v] + more) == vs + [v] + more;
  }

  /** parseConfigurationStringArray. */
  method ReadArray(raw: string) returns (r: Result<seq<string>, Reason>)
    ensures r == ParseArray(raw)
  {
    var s := Trim(raw);
    if |s| < 2 || s[0] != '[' || s[|s| - 1] != ']' { return Err(ExpectedArray); }
    r := ReadElements(s[1..|s| - 1]);
  }

  lemma SuffixOf(s: string, i: nat, j: nat)
    requires i < j && i < |s|
    ensures s[i..][0] == s[i] && s[i..][1..] == s[i + 1..]
    ensures j <= |s| ==> s[i..][j - i - 1] == s[j - 1] && s[i..][j - i..] == s[j..] && s[i..][..j - i] == s[i..j]
  {}

  method ReadPiece(body: string, from: nat) returns (p: Piece, next: nat)
    requires from <= |body|
    ensures p == Peel(body[from..])
    ensures p.More? ==> from < next <= |body| && p.rest == body[next..]
  {
    var start := SkipBlanksAt(body, from);
    next := start;
    if start == |body| { return Done, next; }
    if body[start] != '"' && body[start] != '\'' { return Bad(ElementNotQuoted), next; }
    var offset := FindClose(body, start);
    SuffixOf(body, start, offset);
    if offset > |body| || body[offset - 1] != body[start] { return Bad(UnterminatedElement), next; }
    var value := ReadString(body[start..offset]);
    if value.Err? { return Bad(value.error), next; }
    p, next := ReadFollow(value.value, body, offset);
  }

  method ReadFollow(v: string, body: string, offset: nat) returns (p: Piece, next: nat)
    requires offset <= |body|
    ensures p == Follow(v, body[offset..])
    ensures p.More? ==> offset < next <= |body| && p.rest == body[next..]
  {
    next := SkipBlanksAt(body, offset);
    if next == |body| { return Last(v), next; }
    if body[next] != ',' { return Bad(ExpectedComma), next; }
    assert body[next..][1..] == body[next + 1..];
    next := next + 1;
    return More(v, body[next..]), next;
  }

  method ReadElements(body: string) returns (r: Result<seq<string>, Reason>)
    ensures r == Elements(body)
  {
    var values: seq<string> := [];
    var offset := 0;
    assert body[0..] == body;
    OntoNothing(Elements(body));
    while true
      invariant 0 <= offset <= |body|
      invariant Elements(body) == Onto(values, Elements(body[offset..]))
      decreases |body| - offset
    {
      var piece, next := ReadPiece(body, offset);
      match piece {
        case Done =>
          assert values + [] == values;
          return Ok(values);
        case Last(v) => return Ok(values + [v]);
        case Bad(why) => return Err(why);
        case More(v, rest) =>
          OntoThen(values, v, Elements(rest));
          values, offset := values + [v], next;
      }
    }
  }

  /** The character loop of parseConfigurationInteger. */
  method IsNumeral(digits: string) returns (ok: bool)
    ensures ok == Numeral(digits)
  {
    if digits == "" { return false; }
    for index := 0 to |digits|
      invariant forall i :: 0 <= i < index ==> DigitAt(digits, i)
    {
      var character := digits[index];
      if '0' <= character <= '9' { continue; }
      if character != '_' || index == 0 || index == |digits| - 1 || digits[index - 1] == '_' || digits[index + 1] == '_' {
        assert !DigitAt(digits, index);
        return false;
      }
    }
    return true;
  }

  /** parseConfigurationInteger. */
  method ReadInteger(raw: string) returns (r: Result<int, Reason>)
    ensures r == ParseInteger(raw)
  {
    var s := Trim(raw);
    var digits := Unsigned(s);
    var ok := IsNumeral(digits);
    if !ok { return Err(ExpectedInteger); }
    var unsigned := Without(digits);
    if |unsigned| > 1 && unsigned[0] == '0' { return Err(LeadingZero); }
    var parsed := Signed(s, ConfigValues.Value(unsigned));
    return if InRange(parsed) then Ok(parsed) else Err(ExpectedInteger);
  }

  method ReadValue(k: Kind, raw: string) returns (r: Result<ConfigSpec.Value, Reason>)
    ensures r == ParseValue(k, raw)
  {
    match k {
      case AText => var v := ReadString(raw); r := if v.Err? then Err(v.error) else Ok(Text(v.value));
      case AList => var v := ReadArray(raw); r := if v.Err? then Err(v.error) else Ok(Texts(v.value));
      case ANumber => var v := ReadInteger(raw); r := if v.Err? then Err(v.error) else Ok(Number(v.value));
      case AFlag => r := ParseValue(k, raw);
    }
  }

  /** The body of the line loop of parseConfiguration. */
  method ReadLine(st: State, raw: string) returns (r: Result<State, Error>)
    ensures r == Step(st, raw)
  {
    var kept := StripComment(raw);
    if kept.None? { return Err(UnterminatedQuote); }
    var line := Trim(kept.value);
    if line == "" { return Ok(st); }
    if line[0] == '[' {
      var section := ParseSection(line);
      return if section.Err? then Err(section.error) else EnterSection(st, section.value);
    }
    var pair := Cut(line);
    if pair.None? { return Err(ExpectedKeyValue); }
    var key, value := Trim(pair.value.0), Trim(pair.value.1);
    if key == "" || value == "" { return Err(ExpectedKeyValue); }
    var target := Target(st, key);
    if target.Err? { return Err(target.error); }
    var parsed := ReadValue(KindOf(target.value), value);
    return Record(st, target.value, parsed);
  }

  /** parseConfiguration. */
  method ReadConfiguration(text: string) returns (r: Outcome)
    ensures r == Parse(text)
  {
    var st := Start();
    var lines := Split(text);
    assert lines[0..] == lines;
    for index := 0 to |lines|
      invariant Parse(text) == ParseLines(st, lines[index..], index + 1)
    {
      var next := ReadLine(st, lines[index]);
      assert lines[index..][0] == lines[index] && lines[index..][1..] == lines[index + 1..];
      if next.Err? { return Rejected(index + 1, next.error); }
      st := next.value;
    }
    return Parsed(st.config);
  }
}

/**
 * The configuration parser as a function of the text (parseConfiguration and
 * applyConfigurationSetting in internal/config/parser.go), and the theorem that
 * a printed document reads back as what it says.
 */
module ConfigSpec {
  import opened Options
  import opened ConfigText
  import opened ConfigValues

  // --------------------------------------------------------- the closed schema

  datatype Section = Storage | Gateway | Client | LlamaCpp | Statistics

  function Name(s: Section): string {
    match s
    case Storage => "storage"
    case Gateway => "gateway"
    case Client => "gateway.client"
    case LlamaCpp => "gateway.llama-cpp"
    case Statistics => "gateway.statistics"
  }

  function SectionOf(name: string): Option<Section> {
    if name == "storage" then Some(Storage)
    else if name == "gateway" then Some(Gateway)
    else if name == "gateway.client" then Some(Client)
    else if name == "gateway.llama-cpp" then Some(LlamaCpp)
    else if name == "gateway.statistics" then Some(Statistics)
    else None
  }

  datatype Setting =
    | DataDir
    | Applications | Profile | RenderNodes | Listen | Port | StartupTimeout | ApiKeyFile
    | ClientUrl | ClientApiKeyFile
    | Backend | ModelsMax | Slots
    | Enabled | RetentionDays

  /** The source switches over section + "." + key.  A key with a dot is refused
    * before, so that name stands for one pair (SettingNamesAreUnambiguous). */
  function SettingOf(s: Section, key: string): Option<Setting> {
    match s
    case Storage => if key == "data_dir" then Some(DataDir) else None
    case Gateway =>
      if key == "applications" then Some(Applications)
      else if key == "profile" then Some(Profile)
      else if key == "render_nodes" then Some(RenderNodes)
      else if key == "listen" then Some(Listen)
      else if key == "port" then Some(Port)
      else if key == "startup_timeout" then Some(StartupTimeout)
      else if key == "api_key_file" then Some(ApiKeyFile)
      else None
    case Client =>
      if key == "url" then Some(ClientUrl) else if key == "api_key_file" then Some(ClientApiKeyFile) else None
    case LlamaCpp =>
      if key == "backend" then Some(Backend)
      else if key == "models_max" then Some(ModelsMax)
      else if key == "slots" then Some(Slots)
      else None
    case Statistics =>
      if key == "enabled" then Some(Enabled)
      else if key == "retention_days" then Some(RetentionDays)
      else None
  }

  function LastDot(s: string): int {
    if s == [] then -1 else if s[|s| - 1] == '.' then |s| - 1 else LastDot(s[..|s| - 1])
  }

  lemma {:induction false} LastDotAt(a: string, key: string)
    requires Lacks(key, '.')
    ensures LastDot(a + "." + key) == |a|
  {
    var s := a + "." + key;
    if key != [] {
      assert s[|s| - 1] == key[|key| - 1];
      assert s[..|s| - 1] == a + "." + key[..|key| - 1];
      LastDotAt(a, key[..|key| - 1]);
    }
  }

  lemma NamesDiffer(s: Section, t: Section)
    requires Name(s) == Name(t)
    ensures s == t
  {
    SectionOfName(s);
    SectionOfName(t);
  }

  lemma SectionOfName(s: Section)
    ensures SectionOf(Name(s)) == Some(s)
  {
    var n := Name(s);
    match s
    case Storage =>
    case Gateway => assert n[0] != "storage"[0];
    case Client => assert |n| == 14;
    case LlamaCpp => assert |n| == 17;
    case Statistics => assert |n| == 18;
  }

  /** Two settings share a full name only if they are the same setting. */
  lemma SettingNamesAreUnambiguous(s: Section, key: string, t: Section, other: string)
    requires Lacks(key, '.') && Lacks(other, '.')
    requires Name(s) + "." + key == Name(t) + "." + other
    ensures s == t && key == other
  {
    var a, b := Name(s), Name(t);
    LastDotAt(a, key);
    LastDotAt(b, other);
    assert a == (a + "." + key)[..|a|] && b == (b + "." + other)[..|b|];
    assert key == (a + "." + key)[|a| + 1..] && other == (b + "." + other)[|b| + 1..];
    NamesDiffer(s, t);
  }

  datatype Kind = AText | AList | ANumber | AFlag

  function KindOf(x: Setting): Kind {
    match x
    case Applications | RenderNodes => AList
    case Port | ModelsMax | Slots | RetentionDays => ANumber
    case Enabled => AFlag
    case _ => AText
  }

  datatype Value = Text(text: string) | Texts(texts: seq<string>) | Number(number: int) | Flag(flag: bool)

  predicate Fits(k: Kind, v: Value) {
    match k case AText => v.Text? case AList => v.Texts? case ANumber => v.Number? case AFlag => v.Flag?
  }

  /** The fields of the source's Configuration, one per setting.  Each is a
    * pointer or a slice there; a field that is nil is a setting absent here. */
  type Configuration = map<Setting, Value>

  // ------------------------------------------------------------------ the parser

  datatype Error =
    | UnterminatedQuote
    | MalformedSection
    | UnknownSection
    | DuplicateSection(section: Section)
    | ExpectedKeyValue
    | OutsideSection
    | UnknownSetting
    | DuplicateSetting(setting: Setting)
    | InvalidValue(of: Setting, why: Reason)

  datatype State = State(
    config: Configuration,
    section: Option<Section>,
    seenSections: set<Section>,
    seenSettings: set<Setting>)

  function Start(): State { State(map[], None, {}, {}) }

  function ParseValue(k: Kind, raw: string): (r: Result<Value, Reason>)
    ensures r.Ok? ==> Fits(k, r.value)
  {
    match k
    case AText => (match ParseString(raw) case Err(e) => Err(e) case Ok(v) => Ok(Text(v)))
    case AList => (match ParseArray(raw) case Err(e) => Err(e) case Ok(v) => Ok(Texts(v)))
    case ANumber => (match ParseInteger(raw) case Err(e) => Err(e) case Ok(v) => Ok(Number(v)))
    case AFlag => if raw == "true" then Ok(Flag(true)) else if raw == "false" then Ok(Flag(false)) else Err(ExpectedBoolean)
  }

  /** parseConfigurationSection on a line that begins with a bracket. */
  function ParseSection(line: string): Result<Section, Error>
    requires line != [] && line[0] == '['
  {
    var n := |line|;
    if line[n - 1] != ']' || line[1] == '[' || line[n - 2] == ']' then Err(MalformedSection)
    else match SectionOf(Trim(line[1..n - 1])) case None => Err(UnknownSection) case Some(s) => Ok(s)
  }

  function EnterSection(st: State, s: Section): Result<State, Error> {
    if s in st.seenSections then Err(DuplicateSection(s))
    else Ok(st.(section := Some(s), seenSections := st.seenSections + {s}))
  }

  /** Which setting a key names here, if it may be set. */
  function Target(st: State, key: string): Result<Setting, Error> {
    if st.section == None then Err(OutsideSection)
    else if !Lacks(key, '.') then Err(UnknownSetting)
    else match SettingOf(st.section.value, key)
      case None => Err(UnknownSetting)
      case Some(x) => if x in st.seenSettings then Err(DuplicateSetting(x)) else Ok(x)
  }

  function Record(st: State, x: Setting, v: Result<Value, Reason>): Result<State, Error>
    requires v.Ok? ==> Fits(KindOf(x), v.value)
  {
    match v
    case Err(why) => Err(InvalidValue(x, why))
    case Ok(value) => Ok(st.(config := st.config[x := value], seenSettings := st.seenSettings + {x}))
  }

  function SetRaw(st: State, key: string, raw: string): Result<State, Error> {
    match Target(st, key) case Err(e) => Err(e) case Ok(x) => Record(st, x, ParseValue(KindOf(x), raw))
  }

  /** One turn of the line loop, after the comment is gone. */
  function StepBare(st: State, line: string): Result<State, Error> {
    if line == [] then Ok(st)
    else if line[0] == '[' then
      match ParseSection(line) case Err(e) => Err(e) case Ok(s) => EnterSection(st, s)
    else match Cut(line)
      case None => Err(ExpectedKeyValue)
      case Some(p) =>
        if Trim(p.0) == [] || Trim(p.1) == [] then Err(ExpectedKeyValue) else SetRaw(st, Trim(p.0), Trim(p.1))
  }

  function Step(st: State, raw: string): Result<State, Error> {
    match Strip(Plain, raw) case None => Err(UnterminatedQuote) case Some(line) => StepBare(st, Trim(line))
  }

  /** The outcome of the whole file; a rejection names the line, counted from 1. */
  datatype Outcome = Parsed(config: Configuration) | Rejected(line: nat, error: Error)

  function ParseLines(st: State, lines: seq<string>, number: nat): Outcome
    decreases |lines|
  {
    if lines == [] then Parsed(st.config)
    else match Step(st, lines[0])
      case Err(e) => Rejected(number, e)
      case Ok(next) => ParseLines(next, lines[1..], number + 1)
  }

  function Parse(text: string): Outcome { ParseLines(Start(), Split(text), 1) }

  /** Every stored value has the type of its field, and a setting is stored just
    * when it has been seen. */
  ghost predicate WellTyped(st: State) {
    st.config.Keys == st.seenSettings && forall x :: x in st.config ==> Fits(KindOf(x), st.config[x])
  }

  lemma StepKeepsTypes(st: State, raw: string)
    requires WellTyped(st) && Step(st, raw).Ok?
    ensures WellTyped(Step(st, raw).value)
    ensures st.seenSettings <= Step(st, raw).value.seenSettings
    ensures forall x :: x in st.config ==> Step(st, raw).value.config[x] == st.config[x]
  {}

  /** For every text: what is parsed is well typed, and a setting once stored is
    * never overwritten by a later line. */
  lemma {:induction false} ParsedIsWellTyped(st: State, lines: seq<string>, number: nat)
    requires WellTyped(st) && ParseLines(st, lines, number).Parsed?
    ensures forall x :: x in ParseLines(st, lines, number).config ==> Fits(KindOf(x), ParseLines(st, lines, number).config[x])
    ensures forall x :: x in st.config ==>
      x in ParseLines(st, lines, number).config && ParseLines(st, lines, number).config[x] == st.config[x]
    decreases |lines|
  {
    if lines != [] {
      StepKeepsTypes(st, lines[0]);
      ParsedIsWellTyped(Step(st, lines[0]).value, lines[1..], number + 1);
    }
  }

  // ------------------------------------------------------------------- documents

  /** A value as a file can write it. */
  datatype Written =
    | Quoted(glyphs: seq<Glyph>)
    | Verbatim(text: string)
    | Listed(elements: seq<Element>, open: bool, tail: string)
    | Numbered(number: int)
    | Flagged(flag: bool)

  datatype Content = Nothing | Header(section: Section) | Assign(key: string, value: Written)

  /** White space around a line and around what separates its parts. */
  datatype Spacing = Spacing(before: string, left: string, right: string, after: string)

  /** A line, with a comment or an empty note at its end. */
  datatype Line = Line(content: Content, spacing: Spacing, note: string)

  function Show(visible: set<char>, w: Written): string {
    match w
    case Quoted(gs) => Quote(visible, gs)
    case Verbatim(s) => Apostrophes(s)
    case Listed(es, open, tail) => Brackets(visible, es, open, tail)
    case Numbered(n) => Itoa(n)
    case Flagged(b) => if b then "true" else "false"
  }

  function PrintContent(visible: set<char>, content: Content, left: string, right: string): string {
    match content
    case Nothing => ""
    case Header(s) => "[" + (left + Name(s) + right) + "]"
    case Assign(key, value) => (key + left) + "=" + (right + Show(visible, value))
  }

  /** A line up to its note. */
  function PrintBare(visible: set<char>, line: Line): string {
    line.spacing.before + PrintContent(visible, line.content, line.spacing.left, line.spacing.right) + line.spacing.after
  }

  function Print(visible: set<char>, line: Line): string { PrintBare(visible, line) + line.note }

  function Unlines(lines: seq<string>): string {
    if lines == [] then [] else lines[0] + "\n" + Unlines(lines[1..])
  }

  function PrintAll(visible: set<char>, doc: seq<Line>): seq<string> {
    seq(|doc|, i requires 0 <= i < |doc| => Print(visible, doc[i]))
  }

  predicate GoodKey(key: string) {
    && Tight(key) && key[0] != '['
    && Lacks(key, '=') && Lacks(key, '#') && Lacks(key, '"') && Lacks(key, '\'') && Lacks(key, '\n')
  }

  predicate Margin(s: string) { AllSpace(s) && Lacks(s, '\n') }

  predicate GoodWritten(w: Written) {
    && (w.Verbatim? ==> Lacks(w.text, '\'') && Lacks(w.text, '\n'))
    && (w.Listed? ==> GoodElements(w.elements) && AllBlank(w.tail))
  }

  predicate GoodNote(note: string) { (note == [] || note[0] == '#') && Lacks(note, '\n') }

  /** What the syntax asks of a document: white space and comments stay on their
    * line, keys are bare, and a literal string does not contain its own quote. */
  predicate GoodLine(line: Line) {
    && Margin(line.spacing.before) && Margin(line.spacing.left) && Margin(line.spacing.right) && Margin(line.spacing.after)
    && GoodNote(line.note)
    && (line.content.Assign? ==> GoodKey(line.content.key) && GoodWritten(line.content.value))
  }

  predicate GoodDocument(doc: seq<Line>) { forall i :: 0 <= i < |doc| ==> GoodLine(doc[i]) }

  /** What a written value says, with no text in between. */
  function Denote(k: Kind, w: Written): (r: Result<Value, Reason>)
    ensures r.Ok? ==> Fits(k, r.value)
  {
    match k
    case AText =>
      if w.Quoted? then (if AllSound(w.glyphs) then Ok(Text(Spell(w.glyphs))) else Err(UnsupportedEscape))
      else if w.Verbatim? then (if HasControl(w.text) then Err(ControlCharacter) else Ok(Text(w.text)))
      else Err(ExpectedQuoted)
    case AList =>
      if !w.Listed? then Err(ExpectedArray)
      else (match SayAll(w.elements) case Err(why) => Err(why) case Ok(vs) => Ok(Texts(vs)))
    case ANumber => if w.Numbered? && InRange(w.number) then Ok(Number(w.number)) else Err(ExpectedInteger)
    case AFlag => if w.Flagged? then Ok(Flag(w.flag)) else Err(ExpectedBoolean)
  }

  function Perform(st: State, line: Line): Result<State, Error> {
    match line.content
    case Nothing => Ok(st)
    case Header(s) => EnterSection(st, s)
    case Assign(key, value) => SetWritten(st, key, value)
  }

  function SetWritten(st: State, key: string, w: Written): Result<State, Error> {
    match Target(st, key) case Err(e) => Err(e) case Ok(x) => Record(st, x, Denote(KindOf(x), w))
  }

  /** The lines of a document in order, up to the first mistake and its line. */
  function PerformAll(st: State, doc: seq<Line>, number: nat): Result<State, (nat, Error)>
    decreases |doc|
  {
    if doc == [] then Ok(st)
    else match Perform(st, doc[0])
      case Err(e) => Err((number, e))
      case Ok(next) => PerformAll(next, doc[1..], number + 1)
  }

  function Verdict(r: Result<State, (nat, Error)>): Outcome {
    match r case Err(e) => Rejected(e.0, e.1) case Ok(st) => Parsed(st.config)
  }

  /** What a document says. */
  function Meaning(doc: seq<Line>): Outcome { Verdict(PerformAll(Start(), doc, 1)) }

  // ------------------------------------------------------ printing, then parsing

  lemma ShowFirst(visible: set<char>, w: Written)
    ensures var s := Show(visible, w);
      && s != []
      && (w.Quoted? ==> s[0] == '"')
      && (w.Verbatim? ==> s[0] == '\'')
      && (w.Listed? ==> s[0] == '[')
      && (w.Numbered? ==> IsDigit(s[0]) || s[0] == '-')
      && (w.Flagged? ==> s[0] == 't' || s[0] == 'f')
  {
    if w.Numbered? { ItoaShape(w.number); }
  }

  lemma ShowIsClosed(visible: set<char>, w: Written)
    requires GoodWritten(w)
    ensures Closed(Show(visible, w)) && Tight(Show(visible, w))
  {
    match w
    case Quoted(s) => QuoteIsClosed(visible, s);
    case Verbatim(s) => LiteralIsClosed(s);
    case Listed(es, open, tail) => BracketsAreClosed(visible, es, open, tail);
    case Numbered(n) => ItoaIsClosed(n);
    case Flagged(b) => PlainRun(Show(visible, w));
  }

  lemma ShownText(visible: set<char>, w: Written)
    requires GoodWritten(w)
    ensures ParseValue(AText, Show(visible, w)) == Denote(AText, w)
  {
    ShowIsClosed(visible, w);
    ShowFirst(visible, w);
    TrimTight(Show(visible, w));
    match w
    case Quoted(s) => QuoteRoundTrip(visible, s);
    case Verbatim(s) => LiteralRoundTrip(s);
    case _ =>
  }

  lemma ShownList(visible: set<char>, w: Written)
    requires GoodWritten(w)
    ensures ParseValue(AList, Show(visible, w)) == Denote(AList, w)
  {
    ShowIsClosed(visible, w);
    ShowFirst(visible, w);
    TrimTight(Show(visible, w));
    if w.Listed? { ArrayRoundTrip(visible, w.elements, w.open, w.tail); }
  }

  lemma ShownNumber(visible: set<char>, w: Written)
    requires GoodWritten(w)
    ensures ParseValue(ANumber, Show(visible, w)) == Denote(ANumber, w)
  {
    ShowIsClosed(visible, w);
    ShowFirst(visible, w);
    var s := Show(visible, w);
    TrimTight(s);
    if w.Numbered? {
      IntegerRoundTrip(w.number);
    } else {
      assert Unsigned(s) == s;
      assert !DigitAt(s, 0);
      assert !Numeral(s);
    }
  }

  lemma ShownFlag(visible: set<char>, w: Written)
    ensures ParseValue(AFlag, Show(visible, w)) == Denote(AFlag, w)
  {
    ShowFirst(visible, w);
    if w.Flagged? && !w.flag { assert "false"[0] != "true"[0]; }
  }

  /** A printed value parses to what it says, whatever kind the setting wants. */
  lemma ShownValue(visible: set<char>, k: Kind, w: Written)
    requires GoodWritten(w)
    ensures ParseValue(k, Show(visible, w)) == Denote(k, w)
  {
    match k
    case AText => ShownText(visible, w);
    case AList => ShownList(visible, w);
    case ANumber => ShownNumber(visible, w);
    case AFlag => ShownFlag(visible, w);
  }

  lemma MarginIsClosed(s: string)
    requires Margin(s)
    ensures Closed(s)
  {
    PlainRun(s);
  }

  lemma NameIsPlain(s: Section)
    ensures var n := Name(s);
      && Tight(n) && n[0] != '[' && n[|n| - 1] != ']'
      && Lacks(n, '"') && Lacks(n, '\'') && Lacks(n, '#') && Lacks(n, '\n')
  {
    match s
    case Storage =>
    case Gateway =>
    case Client =>
    case LlamaCpp =>
    case Statistics =>
  }

  lemma HeaderIsClosed(s: Section, left: string, right: string)
    requires Margin(left) && Margin(right)
    ensures Closed("[" + (left + Name(s) + right) + "]")
  {
    MarginIsClosed(left);
    MarginIsClosed(right);
    NameIsPlain(s);
    PlainRun(Name(s));
    PlainRun("[");
    PlainRun("]");
    ClosedConcat(left, Name(s));
    ClosedConcat(left + Name(s), right);
    ClosedConcat("[", left + Name(s) + right);
    ClosedConcat("[" + (left + Name(s) + right), "]");
  }

  lemma AssignmentIsClosed(key: string, left: string, right: string, v: string)
    requires GoodKey(key) && Margin(left) && Margin(right) && Closed(v)
    ensures Closed((key + left) + "=" + (right + v))
  {
    MarginIsClosed(left);
    MarginIsClosed(right);
    PlainRun(key);
    PlainRun("=");
    ClosedConcat(key, left);
    ClosedConcat(right, v);
    ClosedConcat(key + left, "=");
    ClosedConcat((key + left) + "=", right + v);
  }

  lemma BareIsClosed(visible: set<char>, line: Line)
    requires GoodLine(line)
    ensures Closed(PrintBare(visible, line))
  {
    var sp := line.spacing;
    var body := PrintContent(visible, line.content, sp.left, sp.right);
    match line.content {
      case Nothing =>
      case Header(s) => HeaderIsClosed(s, sp.left, sp.right);
      case Assign(key, value) =>
        ShowIsClosed(visible, value);
        AssignmentIsClosed(key, sp.left, sp.right, Show(visible, value));
    }
    MarginIsClosed(sp.before);
    MarginIsClosed(sp.after);
    ClosedConcat(sp.before, body);
    ClosedConcat(sp.before + body, sp.after);
  }

  /** Of a printed line the note goes and the rest stays. */
  lemma StripPrinted(visible: set<char>, line: Line)
    requires GoodLine(line)
    ensures Strip(Plain, Print(visible, line)) == Some(PrintBare(visible, line))
  {
    var kept, all := PrintBare(visible, line), Print(visible, line);
    BareIsClosed(visible, line);
    assert kept == all[..|kept|];
    StripFinds(all, kept);
  }

  /** Cutting and trimming an assignment gives back its key and its value. */
  lemma CutAssignment(key: string, left: string, right: string, v: string)
    requires GoodKey(key) && Margin(left) && Margin(right) && Tight(v)
    ensures var body := (key + left) + "=" + (right + v);
      && Tight(body) && body[0] != '['
      && Cut(body) == Some((key + left, right + v)) && Trim(key + left) == key && Trim(right + v) == v
  {
    var body := (key + left) + "=" + (right + v);
    assert Lacks(left, '=');
    CutAt(key + left, right + v);
    assert [] + key + left == key + left && right + v + [] == right + v;
    TrimMargins([], key, left);
    TrimMargins(right, v, []);
    assert body[0] == key[0] && body[|body| - 1] == v[|v| - 1];
  }

  lemma BareAssignment(st: State, key: string, left: string, right: string, v: string)
    requires GoodKey(key) && Margin(left) && Margin(right) && Tight(v)
    ensures StepBare(st, (key + left) + "=" + (right + v)) == SetRaw(st, key, v)
  {
    CutAssignment(key, left, right, v);
  }

  lemma SetShown(visible: set<char>, st: State, key: string, w: Written)
    requires GoodWritten(w)
    ensures SetRaw(st, key, Show(visible, w)) == SetWritten(st, key, w)
  {
    if Target(st, key).Ok? { ShownValue(visible, KindOf(Target(st, key).value), w); }
  }

  lemma StepAssign(visible: set<char>, st: State, key: string, left: string, right: string, w: Written)
    requires GoodKey(key) && Margin(left) && Margin(right) && GoodWritten(w)
    ensures Tight(PrintContent(visible, Assign(key, w), left, right))
    ensures StepBare(st, PrintContent(visible, Assign(key, w), left, right)) == SetWritten(st, key, w)
  {
    ShowIsClosed(visible, w);
    CutAssignment(key, left, right, Show(visible, w));
    BareAssignment(st, key, left, right, Show(visible, w));
    SetShown(visible, st, key, w);
  }

  lemma ParsePrintedSection(s: Section, left: string, right: string)
    requires Margin(left) && Margin(right)
    ensures var body := "[" + (left + Name(s) + right) + "]"; Tight(body) && ParseSection(body) == Ok(s)
  {
    var inner := left + Name(s) + right;
    var body := "[" + inner + "]";
    NameIsPlain(s);
    assert inner[0] == (if left == [] then Name(s)[0] else left[0]);
    assert inner[|inner| - 1] == (if right == [] then Name(s)[|Name(s)| - 1] else right[|right| - 1]);
    assert body[1] == inner[0] && body[|body| - 2] == inner[|inner| - 1];
    assert body[1..|body| - 1] == inner;
    TrimMargins(left, Name(s), right);
    SectionOfName(s);
  }

  lemma StepContent(visible: set<char>, st: State, line: Line)
    requires GoodLine(line)
    ensures var body := PrintContent(visible, line.content, line.spacing.left, line.spacing.right);
      (body == [] || Tight(body)) && StepBare(st, body) == Perform(st, line)
  {
    match line.content
    case Nothing =>
    case Header(s) => ParsePrintedSection(s, line.spacing.left, line.spacing.right);
    case Assign(key, value) => StepAssign(visible, st, key, line.spacing.left, line.spacing.right, value);
  }

  lemma StepPrinted(visible: set<char>, st: State, line: Line)
    requires GoodLine(line)
    ensures Step(st, Print(visible, line)) == Perform(st, line)
  {
    StripPrinted(visible, line);
    StepContent(visible, st, line);
    var body := PrintContent(visible, line.content, line.spacing.left, line.spacing.right);
    TrimMargins(line.spacing.before, body, line.spacing.after);
  }

  lemma PrintOneLine(visible: set<char>, line: Line)
    requires GoodLine(line)
    ensures Lacks(Print(visible, line), '\n')
  {
    BareIsClosed(visible, line);
  }

  lemma {:induction false} MeaningFrom(visible: set<char>, st: State, doc: seq<Line>, number: nat)
    requires GoodDocument(doc)
    ensures ParseLines(st, Split(Unlines(PrintAll(visible, doc))), number) == Verdict(PerformAll(st, doc, number))
    decreases |doc|
  {
    if doc == [] {
      assert Split("") == [""];
      assert Step(st, "") == Ok(st);
      assert ParseLines(st, [""], number) == ParseLines(st, [], number + 1);
    } else {
      var line := Print(visible, doc[0]);
      var rest := PrintAll(visible, doc[1..]);
      var lines := PrintAll(visible, doc);
      assert lines[0] == line && lines[1..] == rest;
      PrintOneLine(visible, doc[0]);
      SplitLine(line, Unlines(rest));
      StepPrinted(visible, st, doc[0]);
      var split := [line] + Split(Unlines(rest));
      assert split[0] == line && split[1..] == Split(Unlines(rest));
      match Perform(st, doc[0])
      case Err(_) =>
      case Ok(next) => MeaningFrom(visible, next, doc[1..], number + 1);
    }
  }

  /**
   The round trip over whole files: the text of any document, with its spacing,
   comments, duplicates and mistakes, parses to what the document says, down to
   the line and the error of a rejection.
   */
  lemma ParsesToMeaning(visible: set<char>, doc: seq<Line>)
    requires GoodDocument(doc)
    ensures Parse(Unlines(PrintAll(visible, doc))) == Meaning(doc)
  {
    MeaningFrom(visible, Start(), doc, 1);
  }
}

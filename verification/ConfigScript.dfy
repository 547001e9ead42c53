/**
 * Documents that write each setting in its own section, told by settings rather
 * than by key texts.  Such a script has the effect of the document it stands for.
 */
module ConfigScript {
  import opened Options
  import opened ConfigText
  import opened ConfigValues
  import opened ConfigSpec

  function Home(x: Setting): Section {
    match x
    case DataDir => Storage
    case ClientUrl | ClientApiKeyFile => Client
    case Backend | ModelsMax | Slots => LlamaCpp
    case Enabled | RetentionDays => Statistics
    case _ => Gateway
  }

  function Key(x: Setting): string {
    match x
    case DataDir => "data_dir"
    case Applications => "applications"
    case Profile => "profile"
    case RenderNodes => "render_nodes"
    case Listen => "listen"
    case Port => "port"
    case StartupTimeout => "startup_timeout"
    case ApiKeyFile => "api_key_file"
    case ClientUrl => "url"
    case ClientApiKeyFile => "api_key_file"
    case Backend => "backend"
    case ModelsMax => "models_max"
    case Slots => "slots"
    case Enabled => "enabled"
    case RetentionDays => "retention_days"
  }

  function Set(x: Setting, w: Written): Line { Line(Assign(Key(x), w), Spacing("", " ", " ", ""), "") }

  function Head(s: Section): Line { Line(Header(s), Spacing("", "", "", ""), "") }

  /** A comment on a line of its own; an empty line if it is empty. */
  function Remark(text: string): Line { Line(Nothing, Spacing("", "", "", ""), text) }

  lemma PrintSet(visible: set<char>, x: Setting, w: Written)
    ensures Print(visible, Set(x, w)) == Key(x) + " = " + Show(visible, w)
  {}

  lemma PrintHead(visible: set<char>, s: Section)
    ensures Print(visible, Head(s)) == "[" + Name(s) + "]"
  {}

  lemma PrintRemark(visible: set<char>, text: string)
    ensures Print(visible, Remark(text)) == text
  {}

  lemma GatewayKeyMeans(x: Setting)
    requires Home(x) == Gateway
    ensures SettingOf(Gateway, Key(x)) == Some(x)
  {
    var k := Key(x);
    match x
    case Applications =>
    case RenderNodes => assert k[0] == 'r';
    case ApiKeyFile => assert k[2] == 'i' && k[0] == 'a';
    case _ =>
  }

  /** Every setting of the schema can be written, under one key in one section. */
  lemma KeyMeans(x: Setting)
    ensures SettingOf(Home(x), Key(x)) == Some(x)
  {
    if Home(x) == Gateway { GatewayKeyMeans(x); }
  }

  predicate Wordy(s: string) { s != [] && forall i :: 0 <= i < |s| ==> 'a' <= s[i] <= 'z' || s[i] == '_' }

  lemma WordyIsGood(s: string)
    requires Wordy(s)
    ensures GoodKey(s) && Lacks(s, '.')
  {}

  lemma KeyIsGood(x: Setting)
    ensures GoodKey(Key(x)) && Lacks(Key(x), '.')
  {
    assert Wordy(Key(x));
    WordyIsGood(Key(x));
  }

  // --------------------------------------------------------------------- scripts

  datatype Entry = Skip | Enters(section: Section) | Puts(setting: Setting, value: Written)

  predicate Writes(line: Line, e: Entry) {
    match e
    case Skip => GoodLine(line) && line.content.Nothing?
    case Enters(s) => line == Head(s)
    case Puts(x, w) => line == Set(x, w) && GoodWritten(w)
  }

  predicate WritesAll(doc: seq<Line>, es: seq<Entry>) {
    |doc| == |es| && forall i :: 0 <= i < |doc| ==> Writes(doc[i], es[i])
  }

  function Act(st: State, e: Entry): Result<State, Error> {
    match e
    case Skip => Ok(st)
    case Enters(s) => EnterSection(st, s)
    case Puts(x, w) =>
      if st.section != Some(Home(x)) then Err(OutsideSection)
      else if x in st.seenSettings then Err(DuplicateSetting(x))
      else Record(st, x, Denote(KindOf(x), w))
  }

  function ActAll(st: State, es: seq<Entry>, number: nat): Result<State, (nat, Error)>
    decreases |es|
  {
    if es == [] then Ok(st)
    else match Act(st, es[0])
      case Err(e) => Err((number, e))
      case Ok(next) => ActAll(next, es[1..], number + 1)
  }

  lemma WrittenIsGood(line: Line, e: Entry)
    requires Writes(line, e)
    ensures GoodLine(line)
  {
    if e.Puts? { KeyIsGood(e.setting); }
  }

  lemma ActMeans(st: State, line: Line, e: Entry)
    requires Writes(line, e) && Act(st, e) != Err(OutsideSection)
    ensures Perform(st, line) == Act(st, e)
  {
    if e.Puts? {
      KeyIsGood(e.setting);
      KeyMeans(e.setting);
    }
  }

  /** The document a script stands for is well formed and does the same. */
  lemma {:induction false} ScriptMeans(st: State, doc: seq<Line>, es: seq<Entry>, number: nat)
    requires WritesAll(doc, es)
    requires var r := ActAll(st, es, number); r.Err? ==> r.error.1 != OutsideSection
    ensures GoodDocument(doc)
    ensures PerformAll(st, doc, number) == ActAll(st, es, number)
    decreases |es|
  {
    forall i | 0 <= i < |doc| ensures GoodLine(doc[i]) { WrittenIsGood(doc[i], es[i]); }
    if es != [] {
      ActMeans(st, doc[0], es[0]);
      match Act(st, es[0])
      case Err(_) =>
      case Ok(next) => ScriptMeans(next, doc[1..], es[1..], number + 1);
    }
  }

  lemma WritesConcat(a: seq<Line>, b: seq<Line>, es: seq<Entry>, fs: seq<Entry>)
    requires WritesAll(a, es) && WritesAll(b, fs)
    ensures WritesAll(a + b, es + fs)
  {}

  lemma {:induction false} ActConcat(st: State, a: seq<Entry>, b: seq<Entry>, number: nat)
    ensures ActAll(st, a + b, number)
         == match ActAll(st, a, number) case Err(e) => Err(e) case Ok(next) => ActAll(next, b, number + |a|)
    decreases |a|
  {
    if a == [] {
      assert a + b == b;
    } else {
      assert (a + b)[0] == a[0] && (a + b)[1..] == a[1..] + b;
      match Act(st, a[0])
      case Err(_) =>
      case Ok(next) => ActConcat(next, a[1..], b, number + 1);
    }
  }

  // ------------------------------------------------------- following a script

  function Enter(st: State, s: Section): State {
    st.(section := Some(s), seenSections := st.seenSections + {s})
  }

  function Put(st: State, x: Setting, v: Value): State {
    st.(config := st.config[x := v], seenSettings := st.seenSettings + {x})
  }

  /** Nothing of this section has been read. */
  predicate Untouched(st: State, s: Section) {
    s !in st.seenSections && forall x :: x in st.seenSettings ==> Home(x) != s
  }

  lemma Pass(st: State, es: seq<Entry>, i: nat, number: nat)
    requires i < |es| && es[i] == Skip
    ensures ActAll(st, es[i..], number) == ActAll(st, es[i + 1..], number + 1)
  {
    assert es[i..][0] == es[i] && es[i..][1..] == es[i + 1..];
  }

  lemma Open(st: State, es: seq<Entry>, s: Section, number: nat)
    requires es != [] && es[0] == Enters(s) && Untouched(st, s)
    ensures ActAll(st, es, number) == ActAll(Enter(st, s), es[1..], number + 1)
  {}

  lemma Assigned(st: State, es: seq<Entry>, i: nat, number: nat, x: Setting, v: Value)
    requires i < |es| && es[i].Puts? && es[i].setting == x && Denote(KindOf(x), es[i].value) == Ok(v)
    requires st.section == Some(Home(x)) && x !in st.seenSettings
    ensures ActAll(st, es[i..], number) == ActAll(Put(st, x, v), es[i + 1..], number + 1)
  {
    assert es[i..][0] == es[i] && es[i..][1..] == es[i + 1..];
  }
}

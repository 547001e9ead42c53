/**
 * The file that DefaultContents writes (internal/config/config.go) and what the
 * parser makes of it, for every data directory.
 */
module ConfigDefault {
  import opened Options
  import opened ConfigText
  import opened ConfigValues
  import opened ConfigSpec
  import opened ConfigScript

  function DefaultGatewayPort(): int { 7455 }
  function DefaultGatewayURL(): string { "http://127.0.0.1:7455/v1" }
  function DefaultLlamaSlots(): int { 4 }
  function DefaultStatisticsRetentionDays(): int { 90 }

  // ------------------------------------------------------------- the file itself

  /** The comments of the file, in order. */
  datatype Notes = Notes(
    flags: string, environment: string, lists: string, loopback: string,
    bearer: string, key: string, credentials: string, pool: string, totals: string)

  // The texts are written in parts, at a phrase: the verifier reads a literal
  // character by character.

  function FlagsNote(): string { "# Paracetamol host configuration." + " Command-line flags" + " override corresponding" }

  function EnvironmentNote(): string { "# environment variables where defined;" + " both override these values." }

  function ListsNote(): string { "# Empty lists keep automatic backend" + " and render-node discovery." }

  function LoopbackNote(): string { "# Loopback is always available;" + " a non-loopback listen address" + " adds publication." }

  function BearerNote(): string { "# Optional Bearer authentication." + " Use a private file" + " containing a random key." }

  function KeyNote(): string { "# api_key_file = " + "\"/absolute/path/to/gateway.key\"" }

  function CredentialsNote(): string { "# Client credentials are separate," + " including for a local gateway." }

  function PoolNote(): string { "# Simultaneous requests" + " per loaded model," + " sharing its configured KV token pool." }

  function TotalsNote(): string { "# Private daily totals only;" + " no prompts, responses," + " or client identities." }

  function DefaultNotes(): Notes {
    Notes(FlagsNote(), EnvironmentNote(), ListsNote(), LoopbackNote(), BearerNote(), KeyNote(), CredentialsNote(),
          PoolNote(), TotalsNote())
  }

  function StorageLines(n: Notes, visible: set<char>, dataDir: seq<Glyph>): seq<string> {
    [ n.flags,
      n.environment,
      "",
      "[storage]",
      "data_dir = " + Quote(visible, dataDir),
      "" ]
  }

  function GatewayLines(n: Notes): seq<string> {
    [ "[gateway]",
      n.lists,
      n.loopback,
      "applications = []",
      "profile = \"auto\"",
      "render_nodes = []",
      "listen = \"127.0.0.1\"",
      "port = " + Itoa(DefaultGatewayPort()),
      "startup_timeout = \"30m\"",
      n.bearer,
      n.key,
      "" ]
  }

  function ClientLines(n: Notes, visible: set<char>): seq<string> {
    [ "[gateway.client]",
      "url = " + Quote(visible, Runes(DefaultGatewayURL())),
      n.credentials,
      n.key,
      "" ]
  }

  function LlamaLines(n: Notes): seq<string> {
    [ "[gateway.llama-cpp]",
      "backend = \"rocm\"",
      "models_max = 1",
      n.pool,
      "slots = " + Itoa(DefaultLlamaSlots()),
      "" ]
  }

  function StatisticsLines(n: Notes): seq<string> {
    [ "[gateway.statistics]",
      n.totals,
      "enabled = true",
      "retention_days = " + Itoa(DefaultStatisticsRetentionDays()) ]
  }

  function ContentsWith(n: Notes, visible: set<char>, dataDir: seq<Glyph>): string {
    Unlines(StorageLines(n, visible, dataDir) + GatewayLines(n) + ClientLines(n, visible) + LlamaLines(n) + StatisticsLines(n))
  }

  function DefaultContents(visible: set<char>, dataDir: seq<Glyph>): string {
    ContentsWith(DefaultNotes(), visible, dataDir)
  }

  // -------------------------------------------------------- the same, as a document

  /** The values of the file. */
  datatype Choices = Choices(
    dataDir: seq<Glyph>, profile: seq<Glyph>, listen: seq<Glyph>, port: int, timeout: seq<Glyph>, url: seq<Glyph>,
    backend: seq<Glyph>, models: int, slots: int, days: int)

  function DefaultChoices(dataDir: seq<Glyph>): Choices {
    Choices(dataDir, Runes("auto"), Runes("127.0.0.1"), DefaultGatewayPort(), Runes("30m"), Runes(DefaultGatewayURL()),
            Runes("rocm"), 1, DefaultLlamaSlots(), DefaultStatisticsRetentionDays())
  }

  function StorageBlock(n: Notes, c: Choices): seq<Line> {
    [ Remark(n.flags), Remark(n.environment), Remark(""), Head(Storage), Set(DataDir, Quoted(c.dataDir)), Remark("") ]
  }

  function GatewayBlock(n: Notes, c: Choices): seq<Line> {
    [ Head(Gateway),
      Remark(n.lists),
      Remark(n.loopback),
      Set(Applications, Listed([], false, "")),
      Set(Profile, Quoted(c.profile)),
      Set(RenderNodes, Listed([], false, "")),
      Set(Listen, Quoted(c.listen)),
      Set(Port, Numbered(c.port)),
      Set(StartupTimeout, Quoted(c.timeout)),
      Remark(n.bearer),
      Remark(n.key),
      Remark("") ]
  }

  function ClientBlock(n: Notes, c: Choices): seq<Line> {
    [ Head(Client), Set(ClientUrl, Quoted(c.url)), Remark(n.credentials), Remark(n.key), Remark("") ]
  }

  function LlamaBlock(n: Notes, c: Choices): seq<Line> {
    [ Head(LlamaCpp),
      Set(Backend, Quoted(c.backend)),
      Set(ModelsMax, Numbered(c.models)),
      Remark(n.pool),
      Set(Slots, Numbered(c.slots)),
      Remark("") ]
  }

  function StatisticsBlock(n: Notes, c: Choices): seq<Line> {
    [ Head(Statistics), Remark(n.totals), Set(Enabled, Flagged(true)), Set(RetentionDays, Numbered(c.days)) ]
  }

  function Document(n: Notes, c: Choices): seq<Line> {
    StorageBlock(n, c) + GatewayBlock(n, c) + ClientBlock(n, c) + LlamaBlock(n, c) + StatisticsBlock(n, c)
  }

  // --------------------------------------------------------------- the two agree

  lemma {:induction false} EscapeRaw(visible: set<char>, s: string)
    requires forall i :: 0 <= i < |s| ==> Raw(visible, s[i])
    ensures Escape(visible, Runes(s)) == s
  {
    if s != [] {
      EscapeRaw(visible, s[1..]);
      assert Runes(s)[0] == Rune(s[0]) && Runes(s)[1..] == Runes(s[1..]);
      assert [s[0]] + s[1..] == s;
    }
  }

  lemma OneDigit(n: nat)
    requires n < 10
    ensures Itoa(n) == [Digit(n)]
  {}

  lemma PrintedShortHeaders(visible: set<char>)
    ensures Print(visible, Head(Storage)) == "[storage]"
    ensures Print(visible, Head(Gateway)) == "[gateway]"
  {
    PrintHead(visible, Storage);
    PrintHead(visible, Gateway);
  }

  lemma PrintedClientHeader(visible: set<char>)
    ensures Print(visible, Head(Client)) == "[gateway.client]"
  {
    PrintHead(visible, Client);
  }

  lemma PrintedLlamaHeader(visible: set<char>)
    ensures Print(visible, Head(LlamaCpp)) == "[gateway.llama-cpp]"
  {
    PrintHead(visible, LlamaCpp);
  }

  lemma PrintedStatisticsHeader(visible: set<char>)
    ensures Print(visible, Head(Statistics)) == "[gateway.statistics]"
  {
    PrintHead(visible, Statistics);
  }

  lemma PrintedLists(visible: set<char>)
    ensures Print(visible, Set(Applications, Listed([], false, ""))) == "applications = []"
    ensures Print(visible, Set(RenderNodes, Listed([], false, ""))) == "render_nodes = []"
  {
    PrintSet(visible, Applications, Listed([], false, ""));
    PrintSet(visible, RenderNodes, Listed([], false, ""));
    assert Brackets(visible, [], false, "") == "[]";
  }

  /** A setting whose value needs no escapes. */
  lemma PrintPlain(visible: set<char>, x: Setting, s: string)
    requires forall i :: 0 <= i < |s| ==> Raw(visible, s[i])
    ensures Print(visible, Set(x, Quoted(Runes(s)))) == Key(x) + " = " + ("\"" + s + "\"")
  {
    PrintSet(visible, x, Quoted(Runes(s)));
    EscapeRaw(visible, s);
  }

  lemma PrintedProfile(visible: set<char>)
    ensures Print(visible, Set(Profile, Quoted(Runes("auto")))) == "profile = \"auto\""
  {
    PrintPlain(visible, Profile, "auto");
  }

  lemma PrintedListen(visible: set<char>)
    ensures Print(visible, Set(Listen, Quoted(Runes("127.0.0.1")))) == "listen = \"127.0.0.1\""
  {
    PrintPlain(visible, Listen, "127.0.0.1");
    ListenText();
  }

  lemma ListenText()
    ensures "listen" + " = " + ("\"" + "127.0.0.1" + "\"") == "listen = \"127.0.0.1\""
  {
    assert "listen" + " = " == "listen = ";
    assert "\"" + "127.0.0.1" + "\"" == "\"127.0.0.1\"";
  }

  lemma PrintedTimeout(visible: set<char>)
    ensures Print(visible, Set(StartupTimeout, Quoted(Runes("30m")))) == "startup_timeout = \"30m\""
  {
    PrintPlain(visible, StartupTimeout, "30m");
    assert "startup_timeout" + " = " + ("\"" + "30m" + "\"") == "startup_timeout = \"30m\"";
  }

  lemma PrintedBackend(visible: set<char>)
    ensures Print(visible, Set(Backend, Quoted(Runes("rocm")))) == "backend = \"rocm\""
  {
    PrintPlain(visible, Backend, "rocm");
  }

  lemma PrintedModels(visible: set<char>)
    ensures Print(visible, Set(ModelsMax, Numbered(1))) == "models_max = 1"
    ensures Print(visible, Set(Enabled, Flagged(true))) == "enabled = true"
  {
    PrintSet(visible, ModelsMax, Numbered(1));
    PrintSet(visible, Enabled, Flagged(true));
    OneDigit(1);
  }

  lemma PrintedDataDir(visible: set<char>, w: Written)
    ensures Print(visible, Set(DataDir, w)) == "data_dir = " + Show(visible, w)
  {
    PrintSet(visible, DataDir, w);
    assert "data_dir" + " = " == "data_dir = ";
  }

  lemma PrintedPort(visible: set<char>, w: Written)
    ensures Print(visible, Set(Port, w)) == "port = " + Show(visible, w)
  {
    PrintSet(visible, Port, w);
    assert "port" + " = " == "port = ";
  }

  lemma PrintedUrl(visible: set<char>, w: Written)
    ensures Print(visible, Set(ClientUrl, w)) == "url = " + Show(visible, w)
  {
    PrintSet(visible, ClientUrl, w);
    assert "url" + " = " == "url = ";
  }

  lemma PrintedSlots(visible: set<char>, w: Written)
    ensures Print(visible, Set(Slots, w)) == "slots = " + Show(visible, w)
  {
    PrintSet(visible, Slots, w);
    assert "slots" + " = " == "slots = ";
  }

  lemma PrintedDays(visible: set<char>, w: Written)
    ensures Print(visible, Set(RetentionDays, w)) == "retention_days = " + Show(visible, w)
  {
    PrintSet(visible, RetentionDays, w);
    assert "retention_days" + " = " == "retention_days = ";
  }

  lemma PrintedRemarks(visible: set<char>)
    ensures forall text: string :: Print(visible, Remark(text)) == text
  {
    forall text: string ensures Print(visible, Remark(text)) == text { PrintRemark(visible, text); }
  }

  lemma StorageIsPrinted(n: Notes, c: Choices, visible: set<char>)
    ensures PrintAll(visible, StorageBlock(n, c)) == StorageLines(n, visible, c.dataDir)
  {
    PrintedRemarks(visible);
    PrintedShortHeaders(visible);
    PrintedDataDir(visible, Quoted(c.dataDir));
  }

  lemma GatewayFirstLines(n: Notes, c: Choices, visible: set<char>)
    requires c == DefaultChoices(c.dataDir)
    ensures forall i :: 0 <= i < 6 ==> Print(visible, GatewayBlock(n, c)[i]) == GatewayLines(n)[i]
  {
    PrintedRemarks(visible);
    PrintedShortHeaders(visible);
    PrintedLists(visible);
    PrintedProfile(visible);
  }

  lemma GatewayLastLines(n: Notes, c: Choices, visible: set<char>)
    requires c == DefaultChoices(c.dataDir)
    ensures forall i :: 6 <= i < 12 ==> Print(visible, GatewayBlock(n, c)[i]) == GatewayLines(n)[i]
  {
    PrintedRemarks(visible);
    PrintedListen(visible);
    PrintedTimeout(visible);
    PrintedPort(visible, Numbered(c.port));
  }

  lemma GatewayIsPrinted(n: Notes, c: Choices, visible: set<char>)
    requires c == DefaultChoices(c.dataDir)
    ensures PrintAll(visible, GatewayBlock(n, c)) == GatewayLines(n)
  {
    GatewayFirstLines(n, c, visible);
    GatewayLastLines(n, c, visible);
    SamePrints(visible, GatewayBlock(n, c), GatewayLines(n));
  }

  lemma SamePrints(visible: set<char>, doc: seq<Line>, lines: seq<string>)
    requires |doc| == |lines| && forall i :: 0 <= i < |doc| ==> Print(visible, doc[i]) == lines[i]
    ensures PrintAll(visible, doc) == lines
  {}

  lemma ClientIsPrinted(n: Notes, c: Choices, visible: set<char>)
    requires c.url == Runes(DefaultGatewayURL())
    ensures PrintAll(visible, ClientBlock(n, c)) == ClientLines(n, visible)
  {
    PrintedRemarks(visible);
    PrintedClientHeader(visible);
    PrintedUrl(visible, Quoted(c.url));
  }

  lemma LlamaIsPrinted(n: Notes, c: Choices, visible: set<char>)
    requires c.backend == Runes("rocm") && c.models == 1 && c.slots == DefaultLlamaSlots()
    ensures PrintAll(visible, LlamaBlock(n, c)) == LlamaLines(n)
  {
    PrintedRemarks(visible);
    PrintedLlamaHeader(visible);
    PrintedBackend(visible);
    PrintedModels(visible);
    PrintedSlots(visible, Numbered(c.slots));
  }

  lemma StatisticsIsPrinted(n: Notes, c: Choices, visible: set<char>)
    requires c.days == DefaultStatisticsRetentionDays()
    ensures PrintAll(visible, StatisticsBlock(n, c)) == StatisticsLines(n)
  {
    PrintedRemarks(visible);
    PrintedStatisticsHeader(visible);
    PrintedModels(visible);
    PrintedDays(visible, Numbered(c.days));
  }

  lemma PrintConcat(visible: set<char>, a: seq<Line>, b: seq<Line>)
    ensures PrintAll(visible, a + b) == PrintAll(visible, a) + PrintAll(visible, b)
  {}

  lemma PrintFive(visible: set<char>, a: seq<Line>, b: seq<Line>, c: seq<Line>, d: seq<Line>, e: seq<Line>)
    ensures PrintAll(visible, a + b + c + d + e)
         == PrintAll(visible, a) + PrintAll(visible, b) + PrintAll(visible, c) + PrintAll(visible, d) + PrintAll(visible, e)
  {
    PrintConcat(visible, a, b);
    PrintConcat(visible, a + b, c);
    PrintConcat(visible, a + b + c, d);
    PrintConcat(visible, a + b + c + d, e);
  }

  lemma DocumentIsPrinted(n: Notes, c: Choices, visible: set<char>)
    requires c == DefaultChoices(c.dataDir)
    ensures ContentsWith(n, visible, c.dataDir) == Unlines(PrintAll(visible, Document(n, c)))
  {
    StorageIsPrinted(n, c, visible);
    GatewayIsPrinted(n, c, visible);
    ClientIsPrinted(n, c, visible);
    LlamaIsPrinted(n, c, visible);
    StatisticsIsPrinted(n, c, visible);
    PrintFive(visible, StorageBlock(n, c), GatewayBlock(n, c), ClientBlock(n, c), LlamaBlock(n, c), StatisticsBlock(n, c));
  }

  // --------------------------------------------------------- what the file says

  predicate GoodNotes(n: Notes) {
    && GoodNote(n.flags) && GoodNote(n.environment) && GoodNote(n.lists) && GoodNote(n.loopback)
    && GoodNote(n.bearer) && GoodNote(n.key) && GoodNote(n.credentials) && GoodNote(n.pool) && GoodNote(n.totals)
  }

  /** What the script needs of its values, the data directory aside. */
  predicate GoodChoices(c: Choices) {
    && AllSound(c.profile) && AllSound(c.listen) && AllSound(c.timeout) && AllSound(c.url) && AllSound(c.backend)
    && InRange(c.port) && InRange(c.models) && InRange(c.slots) && InRange(c.days)
  }

  function StorageScript(c: Choices): seq<Entry> {
    [ Skip, Skip, Skip, Enters(Storage), Puts(DataDir, Quoted(c.dataDir)), Skip ]
  }

  function GatewayScript(c: Choices): seq<Entry> {
    [ Enters(Gateway), Skip, Skip, Puts(Applications, Listed([], false, "")), Puts(Profile, Quoted(c.profile)),
      Puts(RenderNodes, Listed([], false, "")), Puts(Listen, Quoted(c.listen)), Puts(Port, Numbered(c.port)),
      Puts(StartupTimeout, Quoted(c.timeout)), Skip, Skip, Skip ]
  }

  function ClientScript(c: Choices): seq<Entry> {
    [ Enters(Client), Puts(ClientUrl, Quoted(c.url)), Skip, Skip, Skip ]
  }

  function LlamaScript(c: Choices): seq<Entry> {
    [ Enters(LlamaCpp), Puts(Backend, Quoted(c.backend)), Puts(ModelsMax, Numbered(c.models)), Skip,
      Puts(Slots, Numbered(c.slots)), Skip ]
  }

  function StatisticsScript(c: Choices): seq<Entry> {
    [ Enters(Statistics), Skip, Puts(Enabled, Flagged(true)), Puts(RetentionDays, Numbered(c.days)) ]
  }

  function Script(c: Choices): seq<Entry> {
    StorageScript(c) + GatewayScript(c) + ClientScript(c) + LlamaScript(c) + StatisticsScript(c)
  }

  lemma RemarkIsGood(text: string)
    requires GoodNote(text)
    ensures Writes(Remark(text), Skip)
  {}

  lemma StorageWritten(n: Notes, c: Choices)
    requires GoodNotes(n)
    ensures WritesAll(StorageBlock(n, c), StorageScript(c))
  {
    RemarkIsGood(n.flags);
    RemarkIsGood(n.environment);
    RemarkIsGood("");
  }

  lemma GatewayWritten(n: Notes, c: Choices)
    requires GoodNotes(n)
    ensures WritesAll(GatewayBlock(n, c), GatewayScript(c))
  {
    RemarkIsGood(n.lists);
    RemarkIsGood(n.loopback);
    RemarkIsGood(n.bearer);
    RemarkIsGood(n.key);
    RemarkIsGood("");
  }

  lemma ClientWritten(n: Notes, c: Choices)
    requires GoodNotes(n)
    ensures WritesAll(ClientBlock(n, c), ClientScript(c))
  {
    RemarkIsGood(n.credentials);
    RemarkIsGood(n.key);
    RemarkIsGood("");
  }

  lemma LlamaWritten(n: Notes, c: Choices)
    requires GoodNotes(n)
    ensures WritesAll(LlamaBlock(n, c), LlamaScript(c)) && WritesAll(StatisticsBlock(n, c), StatisticsScript(c))
  {
    RemarkIsGood(n.pool);
    RemarkIsGood(n.totals);
    RemarkIsGood("");
  }

  lemma DocumentWritten(n: Notes, c: Choices)
    requires GoodNotes(n)
    ensures WritesAll(Document(n, c), Script(c))
  {
    StorageWritten(n, c);
    GatewayWritten(n, c);
    ClientWritten(n, c);
    LlamaWritten(n, c);
    WritesFive(StorageBlock(n, c), GatewayBlock(n, c), ClientBlock(n, c), LlamaBlock(n, c), StatisticsBlock(n, c),
               StorageScript(c), GatewayScript(c), ClientScript(c), LlamaScript(c), StatisticsScript(c));
  }

  lemma WritesFive(d1: seq<Line>, d2: seq<Line>, d3: seq<Line>, d4: seq<Line>, d5: seq<Line>,
                   e1: seq<Entry>, e2: seq<Entry>, e3: seq<Entry>, e4: seq<Entry>, e5: seq<Entry>)
    requires WritesAll(d1, e1) && WritesAll(d2, e2) && WritesAll(d3, e3) && WritesAll(d4, e4) && WritesAll(d5, e5)
    ensures WritesAll(d1 + d2 + d3 + d4 + d5, e1 + e2 + e3 + e4 + e5)
  {
    WritesConcat(d1, d2, e1, e2);
    WritesConcat(d1 + d2, d3, e1 + e2, e3);
    WritesConcat(d1 + d2 + d3, d4, e1 + e2 + e3, e4);
    WritesConcat(d1 + d2 + d3 + d4, d5, e1 + e2 + e3 + e4, e5);
  }

  /** The configuration that choices make. */
  function ConfigurationOf(c: Choices): Configuration {
    map[
      DataDir := Text(Spell(c.dataDir)),
      Applications := Texts([]),
      Profile := Text(Spell(c.profile)),
      RenderNodes := Texts([]),
      Listen := Text(Spell(c.listen)),
      Port := Number(c.port),
      StartupTimeout := Text(Spell(c.timeout)),
      ClientUrl := Text(Spell(c.url)),
      Backend := Text(Spell(c.backend)),
      ModelsMax := Number(c.models),
      Slots := Number(c.slots),
      Enabled := Flag(true),
      RetentionDays := Number(c.days)]
  }

  function AfterStorage(c: Choices): State { Put(Enter(Start(), Storage), DataDir, Text(Spell(c.dataDir))) }

  lemma StorageActs(c: Choices)
    ensures ActAll(Start(), StorageScript(c), 1)
         == if AllSound(c.dataDir) then Ok(AfterStorage(c)) else Err((5, InvalidValue(DataDir, UnsupportedEscape)))
  {
    var es, s0, s1 := StorageScript(c), Start(), Enter(Start(), Storage);
    assert es[0..] == es;
    Pass(s0, es, 0, 1);
    Pass(s0, es, 1, 2);
    Pass(s0, es, 2, 3);
    Open(s0, es[3..], Storage, 4);
    assert es[3..][1..] == es[4..];
    if AllSound(c.dataDir) {
      Assigned(s1, es, 4, 5, DataDir, Text(Spell(c.dataDir)));
      Pass(AfterStorage(c), es, 5, 6);
    } else {
      assert es[4..][0] == Puts(DataDir, Quoted(c.dataDir));
    }
  }

  function Discovering(st: State, c: Choices): State {
    Put(Put(Put(Enter(st, Gateway), Applications, Texts([])), Profile, Text(Spell(c.profile))), RenderNodes, Texts([]))
  }

  function Serving(st: State, c: Choices): State {
    Put(Put(Put(st, Listen, Text(Spell(c.listen))), Port, Number(c.port)), StartupTimeout, Text(Spell(c.timeout)))
  }

  function AfterGateway(st: State, c: Choices): State { Serving(Discovering(st, c), c) }

  lemma Discovers(es: seq<Entry>, st: State, c: Choices, number: nat)
    requires GoodChoices(c) && Untouched(st, Gateway) && |es| > 6
    requires es[0] == Enters(Gateway) && es[1] == Skip && es[2] == Skip && es[3] == Puts(Applications, Listed([], false, ""))
    requires es[4] == Puts(Profile, Quoted(c.profile)) && es[5] == Puts(RenderNodes, Listed([], false, ""))
    ensures ActAll(st, es, number) == ActAll(Discovering(st, c), es[6..], number + 6)
  {
    var s0 := Enter(st, Gateway);
    Open(st, es, Gateway, number);
    Pass(s0, es, 1, number + 1);
    Pass(s0, es, 2, number + 2);
    Assigned(s0, es, 3, number + 3, Applications, Texts([]));
    var s1 := Put(s0, Applications, Texts([]));
    Assigned(s1, es, 4, number + 4, Profile, Text(Spell(c.profile)));
    var s2 := Put(s1, Profile, Text(Spell(c.profile)));
    Assigned(s2, es, 5, number + 5, RenderNodes, Texts([]));
  }

  lemma Serves(es: seq<Entry>, st: State, c: Choices, number: nat)
    requires GoodChoices(c) && st.section == Some(Gateway) && |es| == 12
    requires Listen !in st.seenSettings && Port !in st.seenSettings && StartupTimeout !in st.seenSettings
    requires es[6] == Puts(Listen, Quoted(c.listen)) && es[7] == Puts(Port, Numbered(c.port))
    requires es[8] == Puts(StartupTimeout, Quoted(c.timeout)) && es[9] == Skip && es[10] == Skip && es[11] == Skip
    ensures ActAll(st, es[6..], number) == Ok(Serving(st, c))
  {
    Assigned(st, es, 6, number, Listen, Text(Spell(c.listen)));
    var s1 := Put(st, Listen, Text(Spell(c.listen)));
    Assigned(s1, es, 7, number + 1, Port, Number(c.port));
    var s2 := Put(s1, Port, Number(c.port));
    Assigned(s2, es, 8, number + 2, StartupTimeout, Text(Spell(c.timeout)));
    var s3 := Serving(st, c);
    Pass(s3, es, 9, number + 3);
    Pass(s3, es, 10, number + 4);
    Pass(s3, es, 11, number + 5);
  }

  lemma GatewayActs(st: State, c: Choices, number: nat)
    requires GoodChoices(c) && Untouched(st, Gateway)
    ensures ActAll(st, GatewayScript(c), number) == Ok(AfterGateway(st, c))
  {
    Discovers(GatewayScript(c), st, c, number);
    Serves(GatewayScript(c), Discovering(st, c), c, number + 6);
  }

  function AfterClient(st: State, c: Choices): State { Put(Enter(st, Client), ClientUrl, Text(Spell(c.url))) }

  lemma ClientActs(st: State, c: Choices, number: nat)
    requires GoodChoices(c) && Untouched(st, Client)
    ensures ActAll(st, ClientScript(c), number) == Ok(AfterClient(st, c))
  {
    var es, s0, s1 := ClientScript(c), Enter(st, Client), AfterClient(st, c);
    Open(st, es, Client, number);
    Assigned(s0, es, 1, number + 1, ClientUrl, Text(Spell(c.url)));
    Pass(s1, es, 2, number + 2);
    Pass(s1, es, 3, number + 3);
    Pass(s1, es, 4, number + 4);
  }

  function AfterLlama(st: State, c: Choices): State {
    Put(Put(Put(Enter(st, LlamaCpp), Backend, Text(Spell(c.backend))), ModelsMax, Number(c.models)), Slots, Number(c.slots))
  }

  lemma Loads(es: seq<Entry>, st: State, c: Choices, number: nat)
    requires GoodChoices(c) && Untouched(st, LlamaCpp) && |es| == 6
    requires es[0] == Enters(LlamaCpp) && es[1] == Puts(Backend, Quoted(c.backend))
    requires es[2] == Puts(ModelsMax, Numbered(c.models)) && es[3] == Skip && es[4] == Puts(Slots, Numbered(c.slots))
    requires es[5] == Skip
    ensures ActAll(st, es, number) == Ok(AfterLlama(st, c))
  {
    var s0 := Enter(st, LlamaCpp);
    Open(st, es, LlamaCpp, number);
    Assigned(s0, es, 1, number + 1, Backend, Text(Spell(c.backend)));
    var s1 := Put(s0, Backend, Text(Spell(c.backend)));
    Assigned(s1, es, 2, number + 2, ModelsMax, Number(c.models));
    var s2 := Put(s1, ModelsMax, Number(c.models));
    Pass(s2, es, 3, number + 3);
    Assigned(s2, es, 4, number + 4, Slots, Number(c.slots));
    Pass(AfterLlama(st, c), es, 5, number + 5);
  }

  lemma LlamaActs(st: State, c: Choices, number: nat)
    requires GoodChoices(c) && Untouched(st, LlamaCpp)
    ensures ActAll(st, LlamaScript(c), number) == Ok(AfterLlama(st, c))
  {
    Loads(LlamaScript(c), st, c, number);
  }

  function AfterStatistics(st: State, c: Choices): State {
    Put(Put(Enter(st, Statistics), Enabled, Flag(true)), RetentionDays, Number(c.days))
  }

  lemma StatisticsActs(st: State, c: Choices, number: nat)
    requires GoodChoices(c) && Untouched(st, Statistics)
    ensures ActAll(st, StatisticsScript(c), number) == Ok(AfterStatistics(st, c))
  {
    var es, s0 := StatisticsScript(c), Enter(st, Statistics);
    Open(st, es, Statistics, number);
    Pass(s0, es, 1, number + 1);
    Assigned(s0, es, 2, number + 2, Enabled, Flag(true));
    var s1 := Put(s0, Enabled, Flag(true));
    Assigned(s1, es, 3, number + 3, RetentionDays, Number(c.days));
  }

  // -------------------------------------------------------- the blocks together

  lemma GatewayLeaves(st: State, c: Choices, s: Section)
    requires Untouched(st, s) && s != Gateway
    ensures Untouched(AfterGateway(st, c), s)
  {}

  lemma ClientLeaves(st: State, c: Choices, s: Section)
    requires Untouched(st, s) && s != Client
    ensures Untouched(AfterClient(st, c), s)
  {}

  lemma LlamaLeaves(st: State, c: Choices, s: Section)
    requires Untouched(st, s) && s != LlamaCpp
    ensures Untouched(AfterLlama(st, c), s)
  {}

  function AfterAll(st: State, c: Choices): State {
    AfterStatistics(AfterLlama(AfterClient(AfterGateway(st, c), c), c), c)
  }

  lemma ActFour(st: State, a: seq<Entry>, b: seq<Entry>, c: seq<Entry>, d: seq<Entry>, number: nat,
                s1: State, s2: State, s3: State, s4: State)
    requires ActAll(st, a, number) == Ok(s1)
    requires ActAll(s1, b, number + |a|) == Ok(s2)
    requires ActAll(s2, c, number + |a| + |b|) == Ok(s3)
    requires ActAll(s3, d, number + |a| + |b| + |c|) == Ok(s4)
    ensures ActAll(st, a + b + c + d, number) == Ok(s4)
  {
    ActConcat(st, a, b, number);
    ActConcat(st, a + b, c, number);
    ActConcat(st, a + b + c, d, number);
  }

  lemma TailActs(st: State, c: Choices, number: nat)
    requires GoodChoices(c)
    requires Untouched(st, Gateway) && Untouched(st, Client) && Untouched(st, LlamaCpp) && Untouched(st, Statistics)
    ensures ActAll(st, GatewayScript(c) + ClientScript(c) + LlamaScript(c) + StatisticsScript(c), number) == Ok(AfterAll(st, c))
  {
    var e1, e2, e3, e4 := GatewayScript(c), ClientScript(c), LlamaScript(c), StatisticsScript(c);
    var s1 := AfterGateway(st, c);
    var s2 := AfterClient(s1, c);
    var s3 := AfterLlama(s2, c);
    GatewayActs(st, c, number);
    GatewayLeaves(st, c, Client);
    ClientActs(s1, c, number + |e1|);
    GatewayLeaves(st, c, LlamaCpp);
    ClientLeaves(s1, c, LlamaCpp);
    LlamaActs(s2, c, number + |e1| + |e2|);
    GatewayLeaves(st, c, Statistics);
    ClientLeaves(s1, c, Statistics);
    LlamaLeaves(s2, c, Statistics);
    StatisticsActs(s3, c, number + |e1| + |e2| + |e3|);
    ActFour(st, e1, e2, e3, e4, number, s1, s2, s3, AfterAll(st, c));
  }

  lemma FinalConfiguration(c: Choices)
    ensures AfterAll(AfterStorage(c), c).config == ConfigurationOf(c)
  {}

  lemma ActFirst(st: State, a: seq<Entry>, b: seq<Entry>, c: seq<Entry>, d: seq<Entry>, e: seq<Entry>)
    ensures ActAll(st, a + b + c + d + e, 1)
         == match ActAll(st, a, 1) case Err(w) => Err(w) case Ok(next) => ActAll(next, b + c + d + e, 1 + |a|)
  {
    assert a + b + c + d + e == a + (b + c + d + e);
    ActConcat(st, a, b + c + d + e, 1);
  }

  lemma StorageLeaves(c: Choices, s: Section)
    requires s != Storage
    ensures Untouched(AfterStorage(c), s)
  {}

  lemma ScriptActs(c: Choices)
    requires GoodChoices(c)
    ensures Verdict(ActAll(Start(), Script(c), 1))
         == if AllSound(c.dataDir) then Parsed(ConfigurationOf(c))
            else Rejected(5, InvalidValue(DataDir, UnsupportedEscape))
  {
    ActFirst(Start(), StorageScript(c), GatewayScript(c), ClientScript(c), LlamaScript(c), StatisticsScript(c));
    StorageActs(c);
    if AllSound(c.dataDir) {
      StorageLeaves(c, Gateway);
      StorageLeaves(c, Client);
      StorageLeaves(c, LlamaCpp);
      StorageLeaves(c, Statistics);
      TailActs(AfterStorage(c), c, 7);
      FinalConfiguration(c);
    }
  }

  // ------------------------------------------------------------- the main result

  /** The configuration the file is meant to give. */
  function Defaults(dataDir: string): Configuration {
    map[
      DataDir := Text(dataDir),
      Applications := Texts([]),
      Profile := Text("auto"),
      RenderNodes := Texts([]),
      Listen := Text("127.0.0.1"),
      Port := Number(7455),
      StartupTimeout := Text("30m"),
      ClientUrl := Text("http://127.0.0.1:7455/v1"),
      Backend := Text("rocm"),
      ModelsMax := Number(1),
      Slots := Number(4),
      Enabled := Flag(true),
      RetentionDays := Number(90)]
  }

  lemma ContentsRoundTrip(n: Notes, c: Choices, visible: set<char>)
    requires GoodNotes(n) && GoodChoices(c) && c == DefaultChoices(c.dataDir)
    ensures Parse(ContentsWith(n, visible, c.dataDir))
         == if AllSound(c.dataDir) then Parsed(ConfigurationOf(c))
            else Rejected(5, InvalidValue(DataDir, UnsupportedEscape))
  {
    var doc := Document(n, c);
    DocumentIsPrinted(n, c, visible);
    DocumentWritten(n, c);
    ScriptActs(c);
    ScriptMeans(Start(), doc, Script(c), 1);
    ParsesToMeaning(visible, doc);
  }

  lemma DefaultChoicesAreGood(dataDir: seq<Glyph>)
    ensures GoodChoices(DefaultChoices(dataDir))
  {
    UrlIsSound();
    OthersAreSound();
  }

  lemma UrlIsSound()
    ensures AllSound(Runes(DefaultGatewayURL())) && Spell(Runes(DefaultGatewayURL())) == DefaultGatewayURL()
  {
    SpellRunes(DefaultGatewayURL());
  }

  lemma OthersAreSound()
    ensures AllSound(Runes("127.0.0.1")) && AllSound(Runes("auto")) && AllSound(Runes("30m")) && AllSound(Runes("rocm"))
    ensures Spell(Runes("127.0.0.1")) == "127.0.0.1" && Spell(Runes("auto")) == "auto"
    ensures Spell(Runes("30m")) == "30m" && Spell(Runes("rocm")) == "rocm"
  {
    SpellRunes("127.0.0.1");
    SpellRunes("auto");
    SpellRunes("30m");
    SpellRunes("rocm");
  }

  lemma DefaultConfiguration(dataDir: seq<Glyph>)
    ensures ConfigurationOf(DefaultChoices(dataDir)) == Defaults(Spell(dataDir))
  {
    UrlIsSound();
    OthersAreSound();
  }

  lemma FlagsNoteIsGood()
    ensures GoodNote(FlagsNote())
  {}

  lemma EnvironmentNoteIsGood()
    ensures GoodNote(EnvironmentNote())
  {}

  lemma ListsNoteIsGood()
    ensures GoodNote(ListsNote())
  {}

  lemma LoopbackNoteIsGood()
    ensures GoodNote(LoopbackNote())
  {}

  lemma BearerNoteIsGood()
    ensures GoodNote(BearerNote())
  {}

  lemma KeyNoteIsGood()
    ensures GoodNote(KeyNote())
  {}

  lemma CredentialsNoteIsGood()
    ensures GoodNote(CredentialsNote())
  {}

  lemma PoolNoteIsGood()
    ensures GoodNote(PoolNote())
  {}

  lemma TotalsNoteIsGood()
    ensures GoodNote(TotalsNote())
  {}

  lemma DefaultNotesAreGood()
    ensures GoodNotes(DefaultNotes())
  {
    FlagsNoteIsGood();
    EnvironmentNoteIsGood();
    ListsNoteIsGood();
    LoopbackNoteIsGood();
    BearerNoteIsGood();
    KeyNoteIsGood();
    CredentialsNoteIsGood();
    PoolNoteIsGood();
    TotalsNoteIsGood();
  }

  /**
   The whole file, for every data directory, valid UTF-8 or not: it parses to that
   directory and the stated defaults exactly if no part of the directory needs a
   Go escape that TOML does not have; otherwise its fifth line is rejected.
   */
  lemma DefaultsRoundTrip(visible: set<char>, dataDir: seq<Glyph>)
    ensures Parse(DefaultContents(visible, dataDir))
         == if AllSound(dataDir) then Parsed(Defaults(Spell(dataDir)))
            else Rejected(5, InvalidValue(DataDir, UnsupportedEscape))
    ensures AllSound(dataDir) ==> Runes(Spell(dataDir)) == dataDir
  {
    DefaultNotesAreGood();
    DefaultChoicesAreGood(dataDir);
    DefaultConfiguration(dataDir);
    ContentsRoundTrip(DefaultNotes(), DefaultChoices(dataDir), visible);
    if AllSound(dataDir) { RunesSpell(dataDir); }
  }

  /** In particular, every printable ASCII directory survives, number signs,
    * quotes and backslashes included. */
  lemma PrintableDirectorySurvives(visible: set<char>, dataDir: string)
    requires forall i :: 0 <= i < |dataDir| ==> ' ' <= dataDir[i] <= '~'
    ensures Parse(DefaultContents(visible, Runes(dataDir))) == Parsed(Defaults(dataDir))
  {
    SpellRunes(dataDir);
    DefaultsRoundTrip(visible, Runes(dataDir));
  }
}

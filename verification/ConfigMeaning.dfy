/**
 What a document means, said without a parser's state: which lines are legal given
 the lines before them, and which assignment gives each setting its value.
 */
module ConfigMeaning {
  import opened Options
  import opened ConfigText
  import opened ConfigValues
  import opened ConfigSpec
  import opened ConfigScript

  // -------------------------------------------------------------- the schema

  /** A section is known by its name and no other text. */
  lemma SectionsAreExact(name: string, s: Section)
    ensures SectionOf(name) == Some(s) <==> name == Name(s)
  {
    SectionOfName(s);
  }

  /** A setting is known by its key in its own section, and nowhere else. */
  lemma SettingsAreExact(s: Section, key: string, x: Setting)
    ensures SettingOf(s, key) == Some(x) <==> s == Home(x) && key == Key(x)
  {
    KeyMeans(x);
  }

  // ------------------------------------------------------------ legal documents

  /** The section that the lines before line `i` put it in. */
  function Governing(doc: seq<Line>, i: nat): Option<Section>
    requires i <= |doc|
  {
    if i == 0 then None
    else if doc[i - 1].content.Header? then Some(doc[i - 1].content.section)
    else Governing(doc, i - 1)
  }

  predicate Opens(doc: seq<Line>, i: nat, s: Section)
    requires i < |doc|
  {
    doc[i].content == Header(s)
  }

  /** Line `i` assigns setting `x`. */
  predicate Sets(doc: seq<Line>, i: nat, x: Setting)
    requires i < |doc|
  {
    doc[i].content.Assign? && Governing(doc, i) == Some(Home(x)) && doc[i].content.key == Key(x)
  }

  predicate OpenedBefore(doc: seq<Line>, i: nat, s: Section)
    requires i <= |doc|
  {
    exists j :: 0 <= j < i && Opens(doc, j, s)
  }

  predicate SetBefore(doc: seq<Line>, i: nat, x: Setting)
    requires i <= |doc|
  {
    exists j :: 0 <= j < i && Sets(doc, j, x)
  }

  predicate AssignsWell(doc: seq<Line>, i: nat, x: Setting)
    requires i < |doc|
  {
    Sets(doc, i, x) && !SetBefore(doc, i, x) && Denote(KindOf(x), doc[i].content.value).Ok?
  }

  /** A header opens a new section; an assignment gives a setting of its section, not given before, a value of its type. */
  predicate Legal(doc: seq<Line>, i: nat)
    requires i < |doc|
  {
    match doc[i].content
    case Nothing => true
    case Header(s) => !OpenedBefore(doc, i, s)
    case Assign(_, _) => exists x :: AssignsWell(doc, i, x)
  }

  // --------------------------------------------- the parser's state, after a prefix

  ghost predicate Tracks(doc: seq<Line>, i: nat, st: State)
    requires i <= |doc|
  {
    && st.section == Governing(doc, i)
    && (forall s :: s in st.seenSections <==> OpenedBefore(doc, i, s))
    && (forall x :: x in st.seenSettings <==> SetBefore(doc, i, x))
    && st.config.Keys == st.seenSettings
    && forall j, x :: 0 <= j < i && Sets(doc, j, x) ==> Denote(KindOf(x), doc[j].content.value) == Ok(st.config[x])
  }

  lemma BeforeNext(doc: seq<Line>, i: nat)
    requires i < |doc|
    ensures forall s :: OpenedBefore(doc, i + 1, s) <==> OpenedBefore(doc, i, s) || Opens(doc, i, s)
    ensures forall x :: SetBefore(doc, i + 1, x) <==> SetBefore(doc, i, x) || Sets(doc, i, x)
  {
    forall s ensures OpenedBefore(doc, i + 1, s) <==> OpenedBefore(doc, i, s) || Opens(doc, i, s) {
      if OpenedBefore(doc, i, s) {
        var j :| 0 <= j < i && Opens(doc, j, s);
        assert 0 <= j < i + 1 && Opens(doc, j, s);
      }
    }
    forall x ensures SetBefore(doc, i + 1, x) <==> SetBefore(doc, i, x) || Sets(doc, i, x) {
      if SetBefore(doc, i, x) {
        var j :| 0 <= j < i && Sets(doc, j, x);
        assert 0 <= j < i + 1 && Sets(doc, j, x);
      }
    }
  }

  /** The setting a line may assign is the one the parser finds for it. */
  lemma TargetIs(doc: seq<Line>, i: nat, st: State, x: Setting)
    requires i < |doc| && Tracks(doc, i, st) && doc[i].content.Assign?
    ensures Target(st, doc[i].content.key) == Ok(x) <==> Sets(doc, i, x) && !SetBefore(doc, i, x)
  {
    KeyIsGood(x);
    if st.section.Some? { SettingsAreExact(st.section.value, doc[i].content.key, x); }
  }

  lemma HeaderStep(doc: seq<Line>, i: nat, st: State)
    requires i < |doc| && Tracks(doc, i, st) && doc[i].content.Header?
    ensures Perform(st, doc[i]).Ok? <==> Legal(doc, i)
    ensures Perform(st, doc[i]).Ok? ==> Tracks(doc, i + 1, Perform(st, doc[i]).value)
  {
    BeforeNext(doc, i);
  }

  lemma AssignStep(doc: seq<Line>, i: nat, st: State)
    requires i < |doc| && Tracks(doc, i, st) && doc[i].content.Assign?
    ensures Perform(st, doc[i]).Ok? <==> Legal(doc, i)
    ensures Perform(st, doc[i]).Ok? ==> Tracks(doc, i + 1, Perform(st, doc[i]).value)
  {
    var key, w := doc[i].content.key, doc[i].content.value;
    if Target(st, key).Ok? {
      var x := Target(st, key).value;
      TargetIs(doc, i, st, x);
      OneSetting(doc, i, x);
      if Denote(KindOf(x), w).Ok? {
        assert AssignsWell(doc, i, x);
        BeforeNext(doc, i);
        Assigned(doc, i, st, x);
      }
    } else if x :| AssignsWell(doc, i, x) {
      TargetIs(doc, i, st, x);
    }
  }

  /** A line assigns one setting at most. */
  lemma OneSetting(doc: seq<Line>, i: nat, x: Setting)
    requires i < |doc| && Sets(doc, i, x)
    ensures forall y :: Sets(doc, i, y) ==> y == x
  {
    forall y | Sets(doc, i, y) ensures y == x {
      KeyMeans(x);
      KeyMeans(y);
    }
  }

  lemma Assigned(doc: seq<Line>, i: nat, st: State, x: Setting)
    requires i < |doc| && Tracks(doc, i, st) && AssignsWell(doc, i, x) && Target(st, doc[i].content.key) == Ok(x)
    requires forall y :: SetBefore(doc, i + 1, y) <==> SetBefore(doc, i, y) || Sets(doc, i, y)
    requires forall s :: OpenedBefore(doc, i + 1, s) <==> OpenedBefore(doc, i, s) || Opens(doc, i, s)
    requires forall y :: Sets(doc, i, y) ==> y == x
    ensures Perform(st, doc[i]).Ok? && Tracks(doc, i + 1, Perform(st, doc[i]).value)
  {
    var t := Perform(st, doc[i]).value;
    forall j, y | 0 <= j < i + 1 && Sets(doc, j, y)
      ensures Denote(KindOf(y), doc[j].content.value) == Ok(t.config[y])
    {
      if j < i { assert SetBefore(doc, i, y); }
    }
  }

  lemma LineStep(doc: seq<Line>, i: nat, st: State)
    requires i < |doc| && Tracks(doc, i, st)
    ensures Perform(st, doc[i]).Ok? <==> Legal(doc, i)
    ensures Perform(st, doc[i]).Ok? ==> Tracks(doc, i + 1, Perform(st, doc[i]).value)
  {
    match doc[i].content
    case Nothing => BeforeNext(doc, i);
    case Header(_) => HeaderStep(doc, i, st);
    case Assign(_, _) => AssignStep(doc, i, st);
  }

  predicate LegalFrom(doc: seq<Line>, i: nat) { forall j :: i <= j < |doc| ==> Legal(doc, j) }

  lemma RestStep(doc: seq<Line>, i: nat, st: State)
    requires i < |doc|
    ensures Perform(st, doc[i]).Err? ==> PerformAll(st, doc[i..], i + 1) == Err((i + 1, Perform(st, doc[i]).error))
    ensures Perform(st, doc[i]).Ok? ==> PerformAll(st, doc[i..], i + 1) == PerformAll(Perform(st, doc[i]).value, doc[i + 1..], i + 2)
  {
    assert doc[i..][0] == doc[i] && doc[i..][1..] == doc[i + 1..];
  }

  lemma {:induction false} RestLegal(doc: seq<Line>, i: nat, st: State)
    requires i <= |doc| && Tracks(doc, i, st)
    ensures PerformAll(st, doc[i..], i + 1).Ok? <==> LegalFrom(doc, i)
    decreases |doc| - i
  {
    if i < |doc| {
      LineStep(doc, i, st);
      RestStep(doc, i, st);
      LegalFirst(doc, i);
      if Perform(st, doc[i]).Ok? { RestLegal(doc, i + 1, Perform(st, doc[i]).value); }
    } else {
      assert doc[i..] == [];
    }
  }

  lemma LegalFirst(doc: seq<Line>, i: nat)
    requires i < |doc|
    ensures LegalFrom(doc, i) <==> Legal(doc, i) && LegalFrom(doc, i + 1)
  {}

  lemma {:induction false} RestTracks(doc: seq<Line>, i: nat, st: State)
    requires i <= |doc| && Tracks(doc, i, st) && PerformAll(st, doc[i..], i + 1).Ok?
    ensures Tracks(doc, |doc|, PerformAll(st, doc[i..], i + 1).value)
    decreases |doc| - i
  {
    if i < |doc| {
      LineStep(doc, i, st);
      RestStep(doc, i, st);
      RestTracks(doc, i + 1, Perform(st, doc[i]).value);
    } else {
      assert doc[i..] == [];
    }
  }

  /** Line `n`, counted from 1, is the first illegal one from line `i` on. */
  predicate FirstIllegal(doc: seq<Line>, i: nat, n: nat) {
    i < n <= |doc| && !Legal(doc, n - 1) && forall j :: i <= j < n - 1 ==> Legal(doc, j)
  }

  /** Why line `i` is illegal, if the lines before it are legal. */
  predicate Explains(doc: seq<Line>, i: nat, e: Error)
    requires i < |doc|
  {
    match doc[i].content
    case Nothing => false
    case Header(s) => e == DuplicateSection(s)
    case Assign(_, w) =>
      if Governing(doc, i).None? then e == OutsideSection
      else if forall x :: !Sets(doc, i, x) then e == UnknownSetting
      else exists x :: Sets(doc, i, x) && Faulty(doc, i, x, w, e)
  }

  predicate Faulty(doc: seq<Line>, i: nat, x: Setting, w: Written, e: Error)
    requires i < |doc|
  {
    if SetBefore(doc, i, x) then e == DuplicateSetting(x)
    else Denote(KindOf(x), w).Err? && e == InvalidValue(x, Denote(KindOf(x), w).error)
  }

  lemma NoSuchSetting(doc: seq<Line>, i: nat, s: Section, x: Setting)
    requires i < |doc| && doc[i].content.Assign? && Governing(doc, i) == Some(s)
    ensures Sets(doc, i, x) <==> Lacks(doc[i].content.key, '.') && SettingOf(s, doc[i].content.key) == Some(x)
  {
    KeyIsGood(x);
    SettingsAreExact(s, doc[i].content.key, x);
  }

  lemma ErrorExplains(doc: seq<Line>, i: nat, st: State)
    requires i < |doc| && Tracks(doc, i, st) && Perform(st, doc[i]).Err?
    ensures Explains(doc, i, Perform(st, doc[i]).error)
  {
    if doc[i].content.Assign? && st.section.Some? {
      var key, s := doc[i].content.key, st.section.value;
      forall x ensures Sets(doc, i, x) <==> Lacks(key, '.') && SettingOf(s, key) == Some(x) { NoSuchSetting(doc, i, s, x); }
      if Lacks(key, '.') && SettingOf(s, key).Some? {
        var x := SettingOf(s, key).value;
        assert Sets(doc, i, x) && Faulty(doc, i, x, doc[i].content.value, Perform(st, doc[i]).error);
      }
    }
  }

  lemma {:induction false} RestRejects(doc: seq<Line>, i: nat, st: State)
    requires i <= |doc| && Tracks(doc, i, st) && PerformAll(st, doc[i..], i + 1).Err?
    ensures FirstIllegal(doc, i, PerformAll(st, doc[i..], i + 1).error.0)
    decreases |doc| - i
  {
    if i < |doc| {
      LineStep(doc, i, st);
      RestStep(doc, i, st);
      if Perform(st, doc[i]).Ok? { RestRejects(doc, i + 1, Perform(st, doc[i]).value); }
    }
  }

  lemma {:induction false} RestExplains(doc: seq<Line>, i: nat, st: State)
    requires i <= |doc| && Tracks(doc, i, st) && PerformAll(st, doc[i..], i + 1).Err?
    ensures var r := PerformAll(st, doc[i..], i + 1).error; 0 < r.0 <= |doc| && Explains(doc, r.0 - 1, r.1)
    decreases |doc| - i
  {
    if i < |doc| {
      RestStep(doc, i, st);
      if Perform(st, doc[i]).Ok? {
        LineStep(doc, i, st);
        RestExplains(doc, i + 1, Perform(st, doc[i]).value);
      } else {
        ErrorExplains(doc, i, st);
      }
    }
  }

  /** The value a legal document gives a setting is that of its one assignment. */
  predicate Gives(doc: seq<Line>, x: Setting, v: Value) {
    exists i :: 0 <= i < |doc| && Sets(doc, i, x) && Denote(KindOf(x), doc[i].content.value) == Ok(v)
  }

  /**
   The meaning of a document: it is accepted exactly if every line is legal, a
   setting then has exactly the value its assignment gives, and otherwise the
   first illegal line is named with what is wrong with it.
   */
  lemma MeaningExactly(doc: seq<Line>)
    ensures Meaning(doc).Parsed? <==> LegalFrom(doc, 0)
    ensures Meaning(doc).Parsed? ==> forall x, v :: x in Meaning(doc).config && Meaning(doc).config[x] == v <==> Gives(doc, x, v)
    ensures Meaning(doc).Rejected? ==> FirstIllegal(doc, 0, Meaning(doc).line) && Explains(doc, Meaning(doc).line - 1, Meaning(doc).error)
  {
    RestLegal(doc, 0, Start());
    assert doc[0..] == doc;
    var r := PerformAll(Start(), doc, 1);
    if r.Err? {
      RestRejects(doc, 0, Start());
      RestExplains(doc, 0, Start());
    }
    if r.Ok? {
      RestTracks(doc, 0, Start());
      forall x, v ensures x in r.value.config && r.value.config[x] == v <==> Gives(doc, x, v) {
        forall j | 0 <= j < |doc| && Sets(doc, j, x) ensures x in r.value.config { assert SetBefore(doc, |doc|, x); }
        GivesMeans(doc, r.value.config, x, v);
      }
    }
  }

  lemma GivesMeans(doc: seq<Line>, config: Configuration, x: Setting, v: Value)
    requires x in config <==> SetBefore(doc, |doc|, x)
    requires forall j :: 0 <= j < |doc| && Sets(doc, j, x) ==> x in config && Denote(KindOf(x), doc[j].content.value) == Ok(config[x])
    ensures x in config && config[x] == v <==> Gives(doc, x, v)
  {}
}

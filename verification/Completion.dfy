/**
 The completion collector: what a response said about how each choice finished.
 JSON is abstracted to the decoded records the collector looks at.
 */
module Completion {
  import opened Options

  const CHOICES: nat := 16
  type Index = n: nat | n < CHOICES

  /** The closed five, and everything else. */
  datatype Reason = StopReason | LengthReason | ToolCalls | FunctionCall | ContentFilter | Other

  datatype ReasonField = NoReason | NotAString | Reported(reason: Reason)

  /** One element of "choices": unusable, or an index below 16 with its finish_reason. */
  datatype Choice = Unusable | Usable(index: Index, field: ReasonField)

  /** "choices": absent or null, not a bounded array, or elements up to the end or a decoding error. */
  datatype Field = NoChoices | NotAnArray | Elements(items: seq<Choice>, complete: bool)

  /** What the framing layer reports: an object, a [DONE], or bytes it had to give up on. */
  datatype Evidence = DuplicateKey | Object(field: Field) | Done | GaveUp

  datatype State = State(seen: bool, reason: Option<Reason>, conflict: bool)

  datatype Collector = Collector(choices: seq<State>, partial: bool, streamDone: bool)

  predicate WellFormed(c: Collector) { |c.choices| == CHOICES }

  const Unseen := State(false, None, false)

  const Empty := Collector(
    [Unseen, Unseen, Unseen, Unseen, Unseen, Unseen, Unseen, Unseen,
     Unseen, Unseen, Unseen, Unseen, Unseen, Unseen, Unseen, Unseen], false, false)

  // ---- The collector, step by step ----

  function Report(s: State, r: Reason): State {
    if s.conflict then s
    else if s.reason.Some? && s.reason.value != r then s.(reason := None, conflict := true)
    else s.(reason := Some(r))
  }

  /** Seeing this choice sets the partial mark. */
  predicate Marks(s: State, f: ReasonField) {
    f.NotAString? || (f.Reported? && (f.reason.Other? || (!s.conflict && Report(s, f.reason).conflict)))
  }

  function ObserveChoice(c: Collector, x: Choice): (r: Collector)
    requires WellFormed(c)
    ensures WellFormed(r)
  {
    if x.Unusable? then c.(partial := true)
    else
      var s := c.choices[x.index].(seen := true);
      var t := if x.field.Reported? then Report(s, x.field.reason) else s;
      c.(choices := c.choices[x.index := t], partial := c.partial || Marks(s, x.field))
  }

  function ObserveChoices(c: Collector, xs: seq<Choice>): (r: Collector)
    requires WellFormed(c)
    ensures WellFormed(r)
  {
    if xs == [] then c else ObserveChoice(ObserveChoices(c, xs[..|xs| - 1]), xs[|xs| - 1])
  }

  /** Any object after [DONE] is out of place. */
  function AfterDone(c: Collector): Collector { c.(partial := c.partial || c.streamDone) }

  function ObserveObject(c: Collector, f: Field): (r: Collector)
    requires WellFormed(c)
    ensures WellFormed(r)
  {
    match f
    case NoChoices => AfterDone(c)
    case NotAnArray => c.(partial := true)
    case Elements(items, complete) =>
      var r := ObserveChoices(AfterDone(c), items);
      r.(partial := r.partial || !complete)
  }

  function Observe(c: Collector, e: Evidence): (r: Collector)
    requires WellFormed(c)
    ensures WellFormed(r)
  {
    match e
    case DuplicateKey => c.(partial := true)
    case Object(f) => ObserveObject(c, f)
    case Done => c.(partial := c.partial || c.streamDone, streamDone := true)
    case GaveUp => c.(partial := true)
  }

  function Collect(es: seq<Evidence>): (r: Collector)
    ensures WellFormed(r)
  {
    if es == [] then Empty else Observe(Collect(es[..|es| - 1]), es[|es| - 1])
  }

  // ---- metadata ----

  datatype Observation = Available | Partial | Unavailable

  function Finishes(s: seq<State>): seq<(nat, Reason)> {
    if s == [] then []
    else Finishes(s[..|s| - 1]) + if s[|s| - 1].reason.Some? then [(|s| - 1, s[|s| - 1].reason.value)] else []
  }

  predicate Unfinished(s: seq<State>) {
    exists i :: 0 <= i < |s| && s[i].seen && s[i].reason.None?
  }

  function Metadata(c: Collector, stream: bool): Observation {
    if c.partial || (stream && !c.streamDone) || (Unfinished(c.choices) && Finishes(c.choices) != []) then Partial
    else if Finishes(c.choices) != [] then Available
    else Unavailable
  }

  // ---- The verdict, from the evidence as a set ----

  predicate IsChoice(x: Choice, i: nat) { x.Usable? && x.index == i }

  predicate Listed(xs: seq<Choice>, i: nat) { exists k :: 0 <= k < |xs| && IsChoice(xs[k], i) }

  /** Choice `i` was mentioned. */
  predicate Mentions(e: Evidence, i: nat) { e.Object? && e.field.Elements? && Listed(e.field.items, i) }

  function ReasonsIn(xs: seq<Choice>, i: nat): set<Reason> {
    set k | 0 <= k < |xs| && IsChoice(xs[k], i) && xs[k].field.Reported? :: xs[k].field.reason
  }

  function ReasonsOf(e: Evidence, i: nat): set<Reason> {
    if e.Object? && e.field.Elements? then ReasonsIn(e.field.items, i) else {}
  }

  /** Every reason ever reported for choice `i`, whatever the order. */
  function Reasons(es: seq<Evidence>, i: nat): set<Reason> {
    set k, r | 0 <= k < |es| && r in ReasonsOf(es[k], i) :: r
  }

  predicate Seen(es: seq<Evidence>, i: nat) {
    exists k :: 0 <= k < |es| && Mentions(es[k], i)
  }

  /** One reason wins only when it is the only one reported; contradictions never resolve. */
  predicate Sums(s: State, reasons: set<Reason>) {
    if s.conflict then s.reason.None? && exists a, b :: a in reasons && b in reasons && a != b
    else if s.reason.Some? then reasons == {s.reason.value}
    else reasons == {}
  }

  lemma ReportSums(s: State, reasons: set<Reason>, r: Reason)
    requires Sums(s, reasons)
    ensures Sums(Report(s, r), reasons + {r})
  {
    if s.reason.Some? && s.reason.value != r { assert s.reason.value in reasons + {r}; }
  }

  lemma ListedSnoc(p: seq<Choice>, x: Choice, i: nat)
    ensures Listed(p + [x], i) <==> Listed(p, i) || IsChoice(x, i)
  {
    var t := p + [x];
    assert t[|p|] == x && forall k :: 0 <= k < |p| ==> t[k] == p[k];
  }

  /** What one element reports for choice `i`. */
  function ReasonIn(x: Choice, i: nat): set<Reason> {
    if IsChoice(x, i) && x.field.Reported? then {x.field.reason} else {}
  }

  lemma ChoiceSums(c: Collector, x: Choice, i: nat, before: set<Reason>)
    requires WellFormed(c) && i < CHOICES && Sums(c.choices[i], before)
    ensures var s := ObserveChoice(c, x).choices[i];
      Sums(s, before + ReasonIn(x, i)) && (s.seen <==> c.choices[i].seen || IsChoice(x, i))
  {
    assert before + {} == before;
    if IsChoice(x, i) && x.field.Reported? { ReportSums(c.choices[i].(seen := true), before, x.field.reason); }
  }

  lemma {:induction false} ChoicesSum(c: Collector, xs: seq<Choice>, i: nat, before: set<Reason>)
    requires WellFormed(c) && i < CHOICES && Sums(c.choices[i], before)
    ensures var s := ObserveChoices(c, xs).choices[i];
      Sums(s, before + ReasonsIn(xs, i)) && (s.seen <==> c.choices[i].seen || Listed(xs, i))
    decreases |xs|
  {
    if xs == [] {
      assert before + ReasonsIn(xs, i) == before;
    } else {
      var n := |xs| - 1;
      var p, x := xs[..n], xs[n];
      assert xs == p + [x];
      ChoicesSum(c, p, i, before);
      ChoiceSums(ObserveChoices(c, p), x, i, before + ReasonsIn(p, i));
      ReasonsSnoc(p, x, i);
      ListedSnoc(p, x, i);
      assert before + ReasonsIn(p, i) + ReasonIn(x, i) == before + ReasonsIn(xs, i);
    }
  }

  lemma ReasonsSnoc(p: seq<Choice>, x: Choice, i: nat)
    ensures ReasonsIn(p + [x], i) == ReasonsIn(p, i) + ReasonIn(x, i)
  {
    var t := p + [x];
    forall r | r in ReasonsIn(p, i) ensures r in ReasonsIn(t, i) {
      var k :| 0 <= k < |p| && IsChoice(p[k], i) && p[k].field.Reported? && p[k].field.reason == r;
      assert t[k] == p[k];
    }
    assert t[|p|] == x;
  }

  lemma ReasonsOfSnoc(p: seq<Evidence>, e: Evidence, i: nat)
    ensures Reasons(p + [e], i) == Reasons(p, i) + ReasonsOf(e, i)
    ensures Seen(p + [e], i) <==> Seen(p, i) || Mentions(e, i)
  {
    var t := p + [e];
    assert forall k :: 0 <= k < |p| ==> t[k] == p[k];
    assert t[|p|] == e;
  }

  lemma EvidenceSums(c: Collector, e: Evidence, i: nat, before: set<Reason>)
    requires WellFormed(c) && i < CHOICES && Sums(c.choices[i], before)
    ensures var s := Observe(c, e).choices[i];
      Sums(s, before + ReasonsOf(e, i)) && (s.seen <==> c.choices[i].seen || Mentions(e, i))
  {
    if e.Object? && e.field.Elements? {
      ChoicesSum(AfterDone(c), e.field.items, i, before);
    } else {
      assert before + ReasonsOf(e, i) == before;
    }
  }

  /**
   The verdict on each choice depends only on which reasons were reported for it:
   any reordering of the same evidence gives the same reason or the same conflict.
   */
  lemma {:induction false} VerdictIgnoresOrder(es: seq<Evidence>, i: nat)
    requires i < CHOICES
    ensures Sums(Collect(es).choices[i], Reasons(es, i))
    ensures Collect(es).choices[i].seen <==> Seen(es, i)
    decreases |es|
  {
    if es == [] {
      assert Reasons(es, i) == {};
    } else {
      var n := |es| - 1;
      var p, e := es[..n], es[n];
      assert es == p + [e];
      VerdictIgnoresOrder(p, i);
      ReasonsOfSnoc(p, e, i);
      EvidenceSums(Collect(p), e, i, Reasons(p, i));
    }
  }

  lemma SumsDetermine(s: State, t: State, reasons: set<Reason>)
    requires Sums(s, reasons) && Sums(t, reasons)
    ensures s.reason == t.reason && s.conflict == t.conflict
  {
    if s.reason.Some? && t.reason.Some? { assert s.reason.value in reasons; }
  }

  lemma {:induction false} PermutedEvidence(es: seq<Evidence>, fs: seq<Evidence>, i: nat)
    requires i < CHOICES && multiset(es) == multiset(fs)
    ensures Collect(es).choices[i] == Collect(fs).choices[i]
  {
    SaysNoMore(es, fs, i);
    SaysNoMore(fs, es, i);
    VerdictIgnoresOrder(es, i);
    VerdictIgnoresOrder(fs, i);
    SumsDetermine(Collect(es).choices[i], Collect(fs).choices[i], Reasons(es, i));
  }

  lemma {:induction false} SaysNoMore(es: seq<Evidence>, fs: seq<Evidence>, i: nat)
    requires multiset(es) == multiset(fs)
    ensures Reasons(es, i) <= Reasons(fs, i) && (Seen(es, i) ==> Seen(fs, i))
  {
    SameMembers(es, fs);
    forall r | r in Reasons(es, i) ensures r in Reasons(fs, i) {
      var k :| 0 <= k < |es| && r in ReasonsOf(es[k], i);
      var j :| 0 <= j < |fs| && fs[j] == es[k];
    }
    if Seen(es, i) {
      var k :| 0 <= k < |es| && Mentions(es[k], i);
      var j :| 0 <= j < |fs| && fs[j] == es[k];
    }
  }

  lemma SameMembers(es: seq<Evidence>, fs: seq<Evidence>)
    requires multiset(es) == multiset(fs)
    ensures forall k :: 0 <= k < |es| ==> exists j :: 0 <= j < |fs| && fs[j] == es[k]
  {
    forall k | 0 <= k < |es| ensures exists j :: 0 <= j < |fs| && fs[j] == es[k] {
      assert es[k] in multiset(es);
      assert es[k] in multiset(fs);
    }
  }

  // ---- When "available" is claimed ----

  /** A choice element that by itself leaves no doubt. */
  predicate CleanChoice(x: Choice) {
    x.Usable? && !x.field.NotAString? && !(x.field.Reported? && x.field.reason.Other?)
  }

  predicate CleanObject(e: Evidence) {
    e.Object? && !e.field.NotAnArray? &&
    (e.field.Elements? ==> e.field.complete && forall k :: 0 <= k < |e.field.items| ==> CleanChoice(e.field.items[k]))
  }

  predicate NoConflict(s: seq<State>) { forall i :: 0 <= i < |s| ==> !s[i].conflict }

  predicate AllClean(xs: seq<Choice>) { forall k :: 0 <= k < |xs| ==> CleanChoice(xs[k]) }

  /** A conflict never goes unmarked. */
  predicate ConflictMarked(c: Collector) { NoConflict(c.choices) || c.partial }

  lemma ChoicePartial(c: Collector, x: Choice)
    requires WellFormed(c) && ConflictMarked(c)
    ensures var r := ObserveChoice(c, x);
      && ConflictMarked(r) && r.streamDone == c.streamDone
      && (!NoConflict(c.choices) ==> !NoConflict(r.choices))
      && (r.partial <==> c.partial || !CleanChoice(x) || !NoConflict(r.choices))
  {
    var r := ObserveChoice(c, x);
    if x.Usable? {
      assert r.choices[x.index].conflict <==> c.choices[x.index].conflict || (x.field.Reported? && Report(c.choices[x.index].(seen := true), x.field.reason).conflict);
      assert forall i :: 0 <= i < CHOICES && i != x.index ==> r.choices[i] == c.choices[i];
    }
  }

  lemma {:induction false} ChoicesPartial(c: Collector, xs: seq<Choice>)
    requires WellFormed(c) && ConflictMarked(c)
    ensures var r := ObserveChoices(c, xs);
      && ConflictMarked(r) && r.streamDone == c.streamDone
      && (!NoConflict(c.choices) ==> !NoConflict(r.choices))
      && (r.partial <==> c.partial || !AllClean(xs) || !NoConflict(r.choices))
    decreases |xs|
  {
    if xs != [] {
      var n := |xs| - 1;
      ChoicesPartial(c, xs[..n]);
      ChoicePartial(ObserveChoices(c, xs[..n]), xs[n]);
      assert AllClean(xs) <==> AllClean(xs[..n]) && CleanChoice(xs[n]) by {
        assert forall k :: 0 <= k < n ==> xs[..n][k] == xs[k];
      }
    }
  }

  predicate OnlyClean(es: seq<Evidence>) { forall k :: 0 <= k < |es| ==> es[k].Done? || CleanObject(es[k]) }

  predicate HasDone(es: seq<Evidence>) { exists k :: 0 <= k < |es| && es[k].Done? }

  /** [DONE] comes at most once, and nothing comes after it. */
  predicate DoneLast(es: seq<Evidence>) { es == [] || !HasDone(es[..|es| - 1]) }

  lemma EvidencePartial(c: Collector, e: Evidence)
    requires WellFormed(c) && ConflictMarked(c)
    ensures var r := Observe(c, e);
      && ConflictMarked(r) && (r.streamDone <==> c.streamDone || e.Done?)
      && (!NoConflict(c.choices) ==> !NoConflict(r.choices))
      && (r.partial <==> c.partial || (c.streamDone && (e.Done? || e.Object?)) || !(e.Done? || CleanObject(e)) || !NoConflict(r.choices))
  {
    if e.Object? && e.field.Elements? { ChoicesPartial(AfterDone(c), e.field.items); }
  }

  /** The partial mark is set exactly when something was lost, unclear, contradictory or out of place. */
  lemma {:induction false} PartialMeans(es: seq<Evidence>)
    ensures var c := Collect(es);
      && ConflictMarked(c) && (c.streamDone <==> HasDone(es))
      && (c.partial <==> !OnlyClean(es) || !DoneLast(es) || !NoConflict(c.choices))
    decreases |es|
  {
    if es != [] {
      var n := |es| - 1;
      var p, e := es[..n], es[n];
      PartialMeans(p);
      EvidencePartial(Collect(p), e);
      assert forall k :: 0 <= k < n ==> p[k] == es[k];
      assert HasDone(es) <==> HasDone(p) || e.Done?;
      assert OnlyClean(es) <==> OnlyClean(p) && (e.Done? || CleanObject(e));
      if !HasDone(p) { assert DoneLast(p) by { assert forall k :: 0 <= k < |p| - 1 ==> p[..|p| - 1][k] == p[k]; } }
    }
  }

  lemma {:induction false} FinishesMeans(s: seq<State>)
    ensures Finishes(s) == [] <==> forall i :: 0 <= i < |s| ==> s[i].reason.None?
    ensures forall f :: f in Finishes(s) <==> f.0 < |s| && s[f.0].reason == Some(f.1)
  {
    if s != [] {
      var n := |s| - 1;
      FinishesMeans(s[..n]);
      assert forall i :: 0 <= i < n ==> s[..n][i] == s[i];
    }
  }

  /** Exactly one reason was ever reported for choice `i`. */
  predicate Settled(es: seq<Evidence>, i: nat) {
    exists r :: r in Reasons(es, i) && Reasons(es, i) == {r}
  }

  lemma SettledMeans(es: seq<Evidence>, i: nat)
    requires i < CHOICES
    ensures var s := Collect(es).choices[i];
      && (s.seen <==> Seen(es, i)) && (s.reason.Some? <==> Settled(es, i)) && (s.reason.Some? ==> Seen(es, i))
      && (s.conflict ==> Seen(es, i) && !Settled(es, i))
  {
    VerdictIgnoresOrder(es, i);
    var s := Collect(es).choices[i];
    if s.reason.Some? { assert s.reason.value in Reasons(es, i); }
    if r :| r in Reasons(es, i) {
      var k :| 0 <= k < |es| && r in ReasonsOf(es[k], i);
      assert Mentions(es[k], i);
    }
  }

  predicate EveryoneSettled(es: seq<Evidence>) {
    forall i :: 0 <= i < CHOICES && Seen(es, i) ==> Settled(es, i)
  }

  predicate SomeoneSeen(es: seq<Evidence>) {
    exists i :: 0 <= i < CHOICES && Seen(es, i)
  }

  lemma FinishedMeans(es: seq<Evidence>)
    ensures var s := Collect(es).choices;
      NoConflict(s) && Finishes(s) != [] && !Unfinished(s) <==> EveryoneSettled(es) && SomeoneSeen(es)
  {
    var s := Collect(es).choices;
    forall i | 0 <= i < CHOICES
      ensures (s[i].seen <==> Seen(es, i)) && (s[i].reason.Some? <==> Settled(es, i))
      ensures (s[i].reason.Some? ==> Seen(es, i)) && (s[i].conflict ==> Seen(es, i) && !Settled(es, i))
    {
      SettledMeans(es, i);
    }
    FinishesMeans(s);
  }

  /**
   "available" is claimed exactly when nothing was truncated, unparsable or
   unclear, every choice mentioned reported one reason and always the same one,
   and a stream closed with its only [DONE].
   */
  lemma AvailableMeans(es: seq<Evidence>, stream: bool)
    ensures Metadata(Collect(es), stream).Available? <==>
      OnlyClean(es) && DoneLast(es) && (stream ==> HasDone(es)) && EveryoneSettled(es) && SomeoneSeen(es)
  {
    PartialMeans(es);
    FinishedMeans(es);
  }

  /** Two different reasons were reported for some choice. */
  predicate Contradicted(es: seq<Evidence>) {
    exists i, a, b :: 0 <= i < CHOICES && a in Reasons(es, i) && b in Reasons(es, i) && a != b
  }

  predicate SomeSettled(es: seq<Evidence>) { exists i :: 0 <= i < CHOICES && Settled(es, i) }

  lemma ConflictMeans(es: seq<Evidence>)
    ensures NoConflict(Collect(es).choices) <==> !Contradicted(es)
  {
    var s := Collect(es).choices;
    forall i | 0 <= i < CHOICES
      ensures s[i].conflict <==> exists a, b :: a in Reasons(es, i) && b in Reasons(es, i) && a != b
    {
      VerdictIgnoresOrder(es, i);
    }
  }

  /** Which reasons are reported: of each choice the one that was ever given for it. */
  lemma FinishesExactly(es: seq<Evidence>, i: nat, r: Reason)
    ensures (i, r) in Finishes(Collect(es).choices) <==> i < CHOICES && Reasons(es, i) == {r}
  {
    FinishesMeans(Collect(es).choices);
    if i < CHOICES {
      VerdictIgnoresOrder(es, i);
      if Reasons(es, i) == {r} { assert r in Reasons(es, i); }
      if Collect(es).choices[i].reason == Some(r) { assert r in {r}; }
    }
  }

  /** They are listed by choice, each choice once. */
  lemma {:induction false} FinishesAscend(s: seq<State>)
    ensures forall f :: f in Finishes(s) ==> f.0 < |s|
    ensures forall i, j :: 0 <= i < j < |Finishes(s)| ==> Finishes(s)[i].0 < Finishes(s)[j].0
  {
    if s != [] {
      var p := Finishes(s[..|s| - 1]);
      FinishesAscend(s[..|s| - 1]);
      assert forall i :: 0 <= i < |p| ==> p[i] in p;
    }
  }

  lemma SettledSomewhere(es: seq<Evidence>)
    ensures Finishes(Collect(es).choices) != [] <==> SomeSettled(es)
    ensures Unfinished(Collect(es).choices) <==> !EveryoneSettled(es)
  {
    var s := Collect(es).choices;
    FinishesMeans(s);
    forall i | 0 <= i < CHOICES
      ensures (s[i].seen <==> Seen(es, i)) && (s[i].reason.Some? <==> Settled(es, i))
    {
      SettledMeans(es, i);
    }
  }

  /** Clean evidence, complete and in place, with no contradiction. */
  predicate Sound(es: seq<Evidence>, stream: bool) {
    OnlyClean(es) && DoneLast(es) && (stream ==> HasDone(es)) && !Contradicted(es)
  }

  /** All three verdicts, exactly: partial unless sound, and partial too if only some choices settled. */
  lemma VerdictExactly(es: seq<Evidence>, stream: bool)
    ensures Metadata(Collect(es), stream)
         == if !Sound(es, stream) || (SomeSettled(es) && !EveryoneSettled(es)) then Partial
            else if SomeSettled(es) then Available else Unavailable
  {
    PartialMeans(es);
    ConflictMeans(es);
    SettledSomewhere(es);
  }

  // ---- The collector in place ----

  class InPlace {
    const choices: array<State>
    var partial: bool
    var streamDone: bool

    ghost function Abs(): (c: Collector)
      reads this, choices
    {
      Collector(choices[..], partial, streamDone)
    }

    constructor ()
      ensures fresh(choices) && choices.Length == CHOICES && Abs() == Empty
    {
      choices := new State[CHOICES](_ => Unseen);
      partial, streamDone := false, false;
    }

    method MarkStreamDone()
      requires choices.Length == CHOICES
      modifies this
      ensures Abs() == Observe(old(Abs()), Done)
    {
      if streamDone { partial := true; }
      streamDone := true;
    }

    method ObserveOne(x: Choice)
      requires choices.Length == CHOICES
      modifies this`partial, choices
      ensures Abs() == ObserveChoice(old(Abs()), x)
    {
      if x.Unusable? {
        partial := true;
        return;
      }
      var state := choices[x.index].(seen := true);
      choices[x.index] := state;
      if x.field.NoReason? { return; }
      if x.field.NotAString? {
        partial := true;
        return;
      }
      var reason := x.field.reason;
      if reason.Other? { partial := true; }
      if state.conflict { return; }
      if state.reason.Some? && state.reason.value != reason {
        choices[x.index] := state.(reason := None, conflict := true);
        partial := true;
        return;
      }
      choices[x.index] := state.(reason := Some(reason));
    }

    method ObserveField(f: Field)
      requires choices.Length == CHOICES
      modifies this`partial, choices
      ensures Abs() == ObserveObject(old(Abs()), f)
    {
      if streamDone { partial := true; }
      if f.NoChoices? { return; }
      if f.NotAnArray? {
        partial := true;
        return;
      }
      ghost var start := Abs();
      for i := 0 to |f.items|
        invariant Abs() == ObserveChoices(start, f.items[..i])
      {
        assert f.items[..i + 1][..i] == f.items[..i];
        ObserveOne(f.items[i]);
      }
      assert f.items[..|f.items|] == f.items;
      if !f.complete { partial := true; }
    }

    method Report(stream: bool) returns (observation: Observation, reasons: seq<(nat, Reason)>)
      requires choices.Length == CHOICES
      ensures observation == Metadata(Abs(), stream) && reasons == Finishes(choices[..])
    {
      var unsure, unfinished := partial || (stream && !streamDone), false;
      reasons := [];
      for i := 0 to CHOICES
        invariant reasons == Finishes(choices[..i])
        invariant unfinished <==> Unfinished(choices[..i])
      {
        assert choices[..i + 1][..i] == choices[..i];
        assert forall k :: 0 <= k < i ==> choices[..i + 1][k] == choices[..i][k];
        assert choices[..i + 1][i] == choices[i];
        if choices[i].reason.Some? {
          reasons := reasons + [(i, choices[i].reason.value)];
        } else if choices[i].seen {
          unfinished := true;
        }
      }
      assert choices[..CHOICES] == choices[..];
      observation := if unsure || (unfinished && reasons != []) then Partial
                     else if reasons != [] then Available else Unavailable;
    }
  }
}

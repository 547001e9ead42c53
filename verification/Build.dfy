/**
 The build dependency closure and the loop that relies on its order, for any
 finite table of build units.
 */
module Build {
  import opened Options

  type Id = nat

  datatype Unit = Unit(id: Id, prerequisites: seq<Id>)

  type Table = map<Id, Unit>

  predicate Keyed(table: Table) { forall k :: k in table ==> table[k].id == k }

  // ---- Reachability ----

  predicate Edge(table: Table, a: Id, b: Id) { a in table && b in table[a].prerequisites }

  predicate Path(table: Table, p: seq<Id>) {
    p != [] && forall i :: 0 <= i < |p| - 1 ==> Edge(table, p[i], p[i + 1])
  }

  ghost predicate Reaches(table: Table, from: Id, to: Id) {
    exists p :: Path(table, p) && p[0] == from && p[|p| - 1] == to
  }

  ghost predicate Needed(table: Table, targets: seq<Id>, id: Id) {
    exists t :: t in targets && Reaches(table, t, id)
  }

  /** `id` is its own transitive prerequisite. */
  ghost predicate OnCycle(table: Table, id: Id) {
    exists p :: Path(table, p) && |p| > 1 && p[0] == id && p[|p| - 1] == id
  }

  // ---- What an ordering must satisfy ----

  function Ids(us: seq<Unit>): set<Id> { set i | 0 <= i < |us| :: us[i].id }

  predicate Unique(us: seq<Unit>) { forall i, j :: 0 <= i < j < |us| ==> us[i].id != us[j].id }

  predicate PrerequisitesFirst(us: seq<Unit>) {
    forall i, k :: 0 <= i < |us| && 0 <= k < |us[i].prerequisites| ==> us[i].prerequisites[k] in Ids(us[..i])
  }

  predicate FromTable(table: Table, us: seq<Unit>) {
    forall i :: 0 <= i < |us| ==> us[i].id in table && us[i] == table[us[i].id]
  }

  predicate Ordered(table: Table, us: seq<Unit>) {
    Unique(us) && PrerequisitesFirst(us) && FromTable(table, us)
  }

  lemma IdsSnoc(us: seq<Unit>, u: Unit)
    ensures Ids(us + [u]) == Ids(us) + {u.id}
  {
    var t := us + [u];
    assert forall i :: 0 <= i < |us| ==> t[i] == us[i];
    assert t[|us|] == u;
  }

  lemma OrderedSnoc(table: Table, us: seq<Unit>, id: Id)
    requires Keyed(table) && Ordered(table, us) && id in table && id !in Ids(us)
    requires forall k :: 0 <= k < |table[id].prerequisites| ==> table[id].prerequisites[k] in Ids(us)
    ensures Ordered(table, us + [table[id]])
  {
    var t := us + [table[id]];
    assert forall i :: 0 <= i < |us| ==> t[i] == us[i] && t[..i] == us[..i];
    assert t[..|us|] == us;
  }

  // ---- The depth-first visit ----

  datatype Error = Unknown(id: Id) | Cycle(id: Id)

  /** The error is right: the unit named is needed, and is missing or on a cycle. */
  ghost predicate Justified(table: Table, targets: seq<Id>, e: Error) {
    Needed(table, targets, e.id) && if e.Unknown? then e.id !in table else OnCycle(table, e.id)
  }

  class Closure {
    const table: Table
    var state: map<Id, nat>       // 1: on the stack, 2: done
    var ordered: seq<Unit>

    constructor (table: Table)
      ensures this.table == table && state == map[] && ordered == []
    {
      this.table, state, ordered := table, map[], [];
    }

    ghost predicate Valid(targets: seq<Id>, stack: seq<Id>)
      reads this
    {
      && Keyed(table) && Ordered(table, ordered)
      && (forall id :: id in state ==> id in table && (state[id] == 1 || state[id] == 2))
      && (forall id :: id in Ids(ordered) <==> id in state && state[id] == 2)
      && (forall i :: 0 <= i < |stack| ==> stack[i] in state && state[stack[i]] == 1)
      && (forall id :: id in state && state[id] == 1 ==> id in stack)
      && (stack != [] ==> Path(table, stack) && stack[0] in targets)
      && (forall id :: id in Ids(ordered) ==> Needed(table, targets, id))
    }

    /** The next identifier is a target, or a prerequisite of the unit on top of the stack. */
    ghost predicate Follows(targets: seq<Id>, stack: seq<Id>, id: Id) {
      if stack == [] then id in targets else Edge(table, stack[|stack| - 1], id)
    }

    lemma Extends(targets: seq<Id>, stack: seq<Id>, id: Id)
      requires Follows(targets, stack, id) && (stack != [] ==> Path(table, stack) && stack[0] in targets)
      ensures Path(table, stack + [id]) && (stack + [id])[0] in targets && Needed(table, targets, id)
    {
      var p := stack + [id];
      assert Path(table, p);
      assert Reaches(table, p[0], id);
    }

    lemma BackEdge(targets: seq<Id>, stack: seq<Id>, id: Id)
      requires Follows(targets, stack, id) && id in stack && Path(table, stack)
      ensures OnCycle(table, id)
    {
      var k :| 0 <= k < |stack| && stack[k] == id;
      var p := stack[k..] + [id];
      assert Path(table, p) && |p| > 1 && p[0] == id && p[|p| - 1] == id;
    }

    method Visit(id: Id, ghost targets: seq<Id>, ghost stack: seq<Id>) returns (err: Option<Error>)
      requires Valid(targets, stack) && Follows(targets, stack, id)
      modifies this
      ensures err.Some? ==> Justified(table, targets, err.value)
      ensures err.None? ==> Valid(targets, stack) && id in Ids(ordered) && old(Ids(ordered)) <= Ids(ordered)
      ensures old(state.Keys) <= state.Keys
      decreases table.Keys - state.Keys, 1
    {
      Extends(targets, stack, id);
      if id !in table { return Some(Unknown(id)); }
      if id in state && state[id] == 2 { return None; }
      if id in state && state[id] == 1 {
        BackEdge(targets, stack, id);
        return Some(Cycle(id));
      }
      state := state[id := 1];
      assert table.Keys - state.Keys < old(table.Keys - state.Keys) by { assert id in old(table.Keys - state.Keys); }
      Pushed(targets, stack, id, old(state));
      err := VisitAll(id, targets, stack);
    }

    lemma Pushed(targets: seq<Id>, stack: seq<Id>, id: Id, was: map<Id, nat>)
      requires Keyed(table) && Ordered(table, ordered)
      requires id in table && id !in was && state == was[id := 1]
      requires forall id :: id in was ==> id in table && (was[id] == 1 || was[id] == 2)
      requires forall id :: id in Ids(ordered) <==> id in was && was[id] == 2
      requires forall i :: 0 <= i < |stack| ==> stack[i] in was && was[stack[i]] == 1
      requires forall id :: id in was && was[id] == 1 ==> id in stack
      requires Path(table, stack + [id]) && (stack + [id])[0] in targets
      requires forall id :: id in Ids(ordered) ==> Needed(table, targets, id)
      ensures Valid(targets, stack + [id])
    {
      var top := stack + [id];
      assert forall i :: 0 <= i < |top| ==> top[i] in state && state[top[i]] == 1;
      assert top[|stack|] == id;
    }

    /** The loop over prerequisites, then the unit itself. */
    method VisitAll(id: Id, ghost targets: seq<Id>, ghost stack: seq<Id>) returns (err: Option<Error>)
      requires Valid(targets, stack + [id]) && id !in stack && Needed(table, targets, id)
      modifies this
      ensures err.Some? ==> Justified(table, targets, err.value)
      ensures err.None? ==> Valid(targets, stack) && id in Ids(ordered) && old(Ids(ordered)) <= Ids(ordered)
      ensures old(state.Keys) <= state.Keys
      decreases table.Keys - state.Keys, 2
    {
      ghost var top := stack + [id];
      assert top[|stack|] == id;
      var unit := table[id];
      for i := 0 to |unit.prerequisites|
        invariant Valid(targets, top) && old(Ids(ordered)) <= Ids(ordered) && old(state.Keys) <= state.Keys
        invariant forall k :: 0 <= k < i ==> unit.prerequisites[k] in Ids(ordered)
      {
        assert Edge(table, id, unit.prerequisites[i]);
        err := Visit(unit.prerequisites[i], targets, top);
        if err.Some? { return; }
      }
      err := None;
      Complete(id, targets, stack);
    }

    method Complete(id: Id, ghost targets: seq<Id>, ghost stack: seq<Id>)
      requires Valid(targets, stack + [id]) && id !in stack && id in state && state[id] == 1 && Needed(table, targets, id)
      requires forall k :: 0 <= k < |table[id].prerequisites| ==> table[id].prerequisites[k] in Ids(ordered)
      modifies this
      ensures Valid(targets, stack) && Ids(ordered) == old(Ids(ordered)) + {id} && state.Keys == old(state.Keys)
    {
      OrderedSnoc(table, ordered, id);
      IdsSnoc(ordered, table[id]);
      ghost var top := stack + [id];
      assert forall i :: 0 <= i < |stack| ==> top[i] == stack[i];
      state := state[id := 2];
      ordered := ordered + [table[id]];
      assert stack != [] ==> Path(table, stack);
    }
  }

  // ---- The closure ----

  lemma PathTail(table: Table, p: seq<Id>)
    requires Path(table, p) && |p| > 1
    ensures Path(table, p[1..])
  {
    forall i | 0 <= i < |p[1..]| - 1 ensures Edge(table, p[1..][i], p[1..][i + 1]) {
      assert Edge(table, p[i + 1], p[i + 1 + 1]);
    }
  }

  /** Where a path from an ordered unit ends: strictly earlier with every edge. */
  lemma {:induction false} PathDescends(table: Table, us: seq<Unit>, p: seq<Id>, i: nat) returns (j: nat)
    requires Ordered(table, us) && Path(table, p) && i < |us| && us[i].id == p[0]
    ensures j + |p| <= i + 1 && us[j].id == p[|p| - 1]
    decreases |p|
  {
    if |p| == 1 {
      j := i;
    } else {
      assert Edge(table, p[0], p[1]) && us[i] == table[p[0]];
      var k :| 0 <= k < |us[i].prerequisites| && us[i].prerequisites[k] == p[1];
      assert p[1] in Ids(us[..i]);
      var h :| 0 <= h < i && us[..i][h].id == p[1];
      PathTail(table, p);
      j := PathDescends(table, us, p[1..], h);
    }
  }

  lemma OrderedReaches(table: Table, us: seq<Unit>, a: Id, b: Id)
    requires Ordered(table, us) && a in Ids(us) && Reaches(table, a, b)
    ensures b in Ids(us)
  {
    var i :| 0 <= i < |us| && us[i].id == a;
    var p :| Path(table, p) && p[0] == a && p[|p| - 1] == b;
    var j := PathDescends(table, us, p, i);
  }

  /** An ordering that contains the targets leaves no room for an error. */
  lemma OrderedHasNoError(table: Table, us: seq<Unit>, targets: seq<Id>, e: Error)
    requires Ordered(table, us) && forall t :: t in targets ==> t in Ids(us)
    ensures !Justified(table, targets, e)
  {
    if Justified(table, targets, e) {
      var t :| t in targets && Reaches(table, t, e.id);
      OrderedReaches(table, us, t, e.id);
      var i :| 0 <= i < |us| && us[i].id == e.id;
      if e.Cycle? {
        var p :| Path(table, p) && |p| > 1 && p[0] == e.id && p[|p| - 1] == e.id;
        var j := PathDescends(table, us, p, i);
        assert false;
      }
    }
  }

  lemma OrderedIsExact(table: Table, us: seq<Unit>, targets: seq<Id>, id: Id)
    requires Ordered(table, us) && (forall t :: t in targets ==> t in Ids(us)) && Needed(table, targets, id)
    ensures id in Ids(us)
  {
    var t :| t in targets && Reaches(table, t, id);
    OrderedReaches(table, us, t, id);
  }

  lemma CompleteOrder(table: Table, us: seq<Unit>, targets: seq<Id>)
    requires Ordered(table, us) && forall t :: t in targets ==> t in Ids(us)
    ensures forall e :: !Justified(table, targets, e)
    ensures forall id :: Needed(table, targets, id) ==> id in Ids(us)
  {
    forall e ensures !Justified(table, targets, e) { OrderedHasNoError(table, us, targets, e); }
    forall id | Needed(table, targets, id) ensures id in Ids(us) { OrderedIsExact(table, us, targets, id); }
  }

  function Index(units: seq<Unit>): Table {
    if units == [] then map[] else Index(units[..|units| - 1])[units[|units| - 1].id := units[|units| - 1]]
  }

  lemma {:induction false} IndexIsKeyed(units: seq<Unit>)
    ensures Keyed(Index(units))
  {
    if units != [] { IndexIsKeyed(units[..|units| - 1]); }
  }

  method BuildIndex(units: seq<Unit>) returns (index: Table)
    ensures index == Index(units)
  {
    index := map[];
    for i := 0 to |units|
      invariant index == Index(units[..i])
    {
      assert units[..i + 1][..i] == units[..i];
      index := index[units[i].id := units[i]];
    }
    assert units[..|units|] == units;
  }

  /**
   For every table: exactly the units needed, once each, prerequisites first; or
   an error, exactly when an unknown unit or a cycle is needed.
   */
  method BuildClosure(units: seq<Unit>, targets: seq<Id>) returns (r: Result<seq<Unit>, Error>)
    ensures r.Ok? ==> Ordered(Index(units), r.value)
    ensures r.Ok? ==> forall id :: id in Ids(r.value) <==> Needed(Index(units), targets, id)
    ensures r.Err? ==> Justified(Index(units), targets, r.error)
    ensures r.Err? <==> exists e :: Justified(Index(units), targets, e)
  {
    var index := BuildIndex(units);
    IndexIsKeyed(units);
    var closure := new Closure(index);
    for i := 0 to |targets|
      invariant closure.table == index && closure.Valid(targets, [])
      invariant forall k :: 0 <= k < i ==> targets[k] in Ids(closure.ordered)
    {
      var err := closure.Visit(targets[i], targets, []);
      if err.Some? { return Err(err.value); }
    }
    r := Ok(closure.ordered);
    CompleteOrder(index, closure.ordered, targets);
  }

  // ---- The build loop ----

  datatype Outcome = Built | Skipped | Failed

  /** Step `i` runs exactly when every direct prerequisite built; then its own run decides. */
  predicate Follows(steps: seq<Unit>, runs: seq<bool>, outs: seq<Outcome>)
    requires |outs| <= |steps| <= |runs|
  {
    forall i :: 0 <= i < |outs| ==>
      outs[i] == if Ready(steps, outs, i) then (if runs[i] then Built else Failed) else Skipped
  }

  predicate BuiltBefore(steps: seq<Unit>, outs: seq<Outcome>, i: nat, q: Id)
    requires i <= |outs| <= |steps|
  {
    exists j :: 0 <= j < i && steps[j].id == q && outs[j].Built?
  }

  predicate Ready(steps: seq<Unit>, outs: seq<Outcome>, i: nat)
    requires i < |steps| && i <= |outs| <= |steps|
  {
    forall k :: 0 <= k < |steps[i].prerequisites| ==> BuiltBefore(steps, outs, i, steps[i].prerequisites[k])
  }

  lemma ReadyKeeps(steps: seq<Unit>, outs: seq<Outcome>, more: seq<Outcome>, i: nat)
    requires i < |steps| && i <= |outs| <= |more| <= |steps| && outs <= more
    ensures Ready(steps, outs, i) == Ready(steps, more, i)
  {
    assert forall q :: BuiltBefore(steps, outs, i, q) ==> BuiltBefore(steps, more, i, q);
    assert forall q :: BuiltBefore(steps, more, i, q) ==> BuiltBefore(steps, outs, i, q);
  }

  /** The step loop of commandBuild; `runs` is what each command would do. */
  method RunSteps(steps: seq<Unit>, runs: seq<bool>) returns (outs: seq<Outcome>, failed: bool)
    requires |runs| == |steps| && Unique(steps)
    ensures |outs| == |steps| && Follows(steps, runs, outs)
    ensures failed <==> Failed in outs
  {
    var states: map<Id, Outcome> := map[];
    outs, failed := [], false;
    for i := 0 to |steps|
      invariant |outs| == i && Follows(steps, runs, outs) && (failed <==> Failed in outs)
      invariant forall q :: q in states ==> exists j :: 0 <= j < i && steps[j].id == q
      invariant forall j :: 0 <= j < i ==> steps[j].id in states && states[steps[j].id] == outs[j]
    {
      var step := steps[i];
      var blocked := Blocked(steps, outs, states, i);
      var out := if blocked then Skipped else if runs[i] then Built else Failed;
      states := states[step.id := out];
      if out.Failed? { failed := true; }
      ghost var before := outs;
      outs := outs + [out];
      forall k | 0 <= k < |outs|
        ensures outs[k] == if Ready(steps, outs, k) then (if runs[k] then Built else Failed) else Skipped
      {
        ReadyKeeps(steps, before, outs, k);
      }
    }
  }

  /** The scan for the first prerequisite that did not build. */
  method Blocked(steps: seq<Unit>, ghost outs: seq<Outcome>, states: map<Id, Outcome>, i: nat) returns (blocked: bool)
    requires i < |steps| && |outs| == i
    requires forall q :: q in states ==> exists j :: 0 <= j < i && steps[j].id == q
    requires forall j :: 0 <= j < i ==> steps[j].id in states && states[steps[j].id] == outs[j]
    ensures blocked <==> !Ready(steps, outs, i)
  {
    var needs := steps[i].prerequisites;
    for k := 0 to |needs|
      invariant forall n :: 0 <= n < k ==> BuiltBefore(steps, outs, i, needs[n])
    {
      if needs[k] !in states || !states[needs[k]].Built? {
        assert !BuiltBefore(steps, outs, i, needs[k]);
        return true;
      }
      ghost var j :| 0 <= j < i && steps[j].id == needs[k];
      assert outs[j].Built?;
    }
    return false;
  }

  /** In closure order a step runs only after every transitive prerequisite built. */
  lemma {:induction false} RunsAfterAllPrerequisites(table: Table, steps: seq<Unit>, runs: seq<bool>, outs: seq<Outcome>, i: nat, p: seq<Id>)
    requires |outs| == |steps| <= |runs| && Follows(steps, runs, outs) && Ordered(table, steps)
    requires i < |steps| && !outs[i].Skipped? && Path(table, p) && p[0] == steps[i].id && |p| > 1
    ensures BuiltBefore(steps, outs, i, p[|p| - 1])
    decreases |p|
  {
    assert Edge(table, p[0], p[1]) && steps[i] == table[p[0]];
    var k :| 0 <= k < |steps[i].prerequisites| && steps[i].prerequisites[k] == p[1];
    assert BuiltBefore(steps, outs, i, p[1]);
    var j :| 0 <= j < i && steps[j].id == p[1] && outs[j].Built?;
    if |p| > 2 {
      var q := p[1..];
      PathTail(table, p);
      RunsAfterAllPrerequisites(table, steps, runs, outs, j, q);
    }
  }

  /** In closure order nothing is skipped unless something failed, so success means every step built. */
  lemma {:induction false} SuccessMeansAllBuilt(table: Table, steps: seq<Unit>, runs: seq<bool>, outs: seq<Outcome>)
    requires |outs| == |steps| <= |runs| && Follows(steps, runs, outs) && Ordered(table, steps)
    ensures Failed !in outs <==> forall i :: 0 <= i < |outs| ==> outs[i].Built?
  {
    if Failed !in outs {
      forall i | 0 <= i < |outs| ensures outs[i].Built? { BuiltUpTo(table, steps, runs, outs, i); }
    }
  }

  lemma {:induction false} BuiltUpTo(table: Table, steps: seq<Unit>, runs: seq<bool>, outs: seq<Outcome>, i: nat)
    requires |outs| == |steps| <= |runs| && Follows(steps, runs, outs) && Ordered(table, steps) && Failed !in outs
    requires i < |outs|
    ensures outs[i].Built?
    decreases i
  {
    forall k | 0 <= k < |steps[i].prerequisites|
      ensures BuiltBefore(steps, outs, i, steps[i].prerequisites[k])
    {
      assert steps[i].prerequisites[k] in Ids(steps[..i]);
      var j :| 0 <= j < i && steps[..i][j].id == steps[i].prerequisites[k];
      BuiltUpTo(table, steps, runs, outs, j);
    }
    assert outs[i] in outs;
  }
}

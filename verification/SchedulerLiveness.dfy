/**
 Progress: once arrivals, cancellations and failures stop, operations succeed and
 leases are released, every waiter is granted a lease, in order, within a bounded
 number of turns and with at most one Start per run of equal allocations.
 */
module SchedulerLiveness {
  import opened Options
  import opened SchedulerTrace
  import opened SchedulerSpec
  import opened SchedulerSafety

  // ---- progress leaves nothing to do ----

  lemma {:induction false} PruneNothing(s: State, k: nat)
    requires k <= |s.queue|
    ensures Prune(s, k, {}) == s
    decreases |s.queue| - k
  {
    if k < |s.queue| { PruneNothing(s, k + 1); }
  }

  lemma {:induction false} GrantAllStops(cfg: Config, s: State)
    ensures var t := GrantAll(cfg, s, {});
      !Grantable(cfg, t) && SameButQueue(s, t) && t.active >= s.active && (Grantable(cfg, s) ==> t.active > s.active)
    decreases |s.queue|
  {
    if Grantable(cfg, s) { GrantAllStops(cfg, Grant(s)); }
  }

  lemma AdvanceTwice(cfg: Config, s: State)
    requires !s.shuttingDown && !MayGrant(s)
    ensures Advance(cfg, Advance(cfg, s, {}), {}) == Advance(cfg, s, {})
  {}

  /** All who would be served next lose their race, and someone waits for another allocation. */
  predicate RunRefused(q: seq<Waiter>, a: Allocation, refuse: set<RequestId>) {
    exists k :: 0 < k < |q| && q[k].alloc != a && forall i :: 0 <= i < k ==> q[i].alloc == a && q[i].id in refuse
  }

  /** Progress takes the branch that grants. */
  predicate MayGrant(u: State) {
    && !u.shuttingDown && !u.operation && u.cleanupError.None? && u.current.Some? && u.phase != Failed
    && u.queue != [] && u.queue[0].alloc == u.current.value
  }

  predicate Stalls(u: State, refuse: set<RequestId>) {
    MayGrant(u) && u.active == 0 && RunRefused(u.queue, u.current.value, refuse)
  }

  /** The front of the queue asks for another allocation. */
  predicate Switches(s: State) { s.queue != [] && s.current != Some(s.queue[0].alloc) }

  lemma RunRest(q: seq<Waiter>, a: Allocation, refuse: set<RequestId>)
    requires q != [] && q[0].alloc == a
    ensures RunRefused(q, a, refuse) <==>
      q[0].id in refuse && |q| > 1 && (q[1].alloc != a || RunRefused(q[1..], a, refuse))
  {
    var r := q[1..];
    if RunRefused(q, a, refuse) {
      var k :| 0 < k < |q| && q[k].alloc != a && forall i :: 0 <= i < k ==> q[i].alloc == a && q[i].id in refuse;
      assert q[0].id in refuse;
      if k > 1 { assert r[k - 1] == q[k] && forall i :: 0 <= i < k - 1 ==> r[i] == q[i + 1]; }
    }
    if q[0].id in refuse && |q| > 1 {
      if q[1].alloc != a {
        assert q[1].alloc != a && forall i :: 0 <= i < 1 ==> q[i].alloc == a && q[i].id in refuse;
      } else if RunRefused(r, a, refuse) {
        var k :| 0 < k < |r| && r[k].alloc != a && forall i :: 0 <= i < k ==> r[i].alloc == a && r[i].id in refuse;
        assert q[k + 1] == r[k];
        forall i | 0 <= i < k + 1 ensures q[i].alloc == a && q[i].id in refuse { if i > 0 { assert r[i - 1] == q[i]; } }
      }
    }
  }

  lemma {:induction false} GrantAllEnds(cfg: Config, s: State, refuse: set<RequestId>)
    requires s.current.Some?
    ensures var t := GrantAll(cfg, s, refuse); !Grantable(cfg, t) && SameButQueue(s, t) && t.active >= s.active
    decreases |s.queue|
  {
    if Grantable(cfg, s) {
      GrantAllEnds(cfg, if s.queue[0].id in refuse then Withdraw(s, 0) else Grant(s), refuse);
    }
  }

  /** The grant loop ends with a switch ahead and nothing granted exactly when the run was refused. */
  lemma {:induction false} GrantAllStrands(cfg: Config, s: State, refuse: set<RequestId>)
    requires s.current.Some? && s.queue != [] && s.queue[0].alloc == s.current.value
    ensures var t := GrantAll(cfg, s, refuse);
      Switches(t) && t.active == 0 <==> s.active == 0 && RunRefused(s.queue, s.current.value, refuse)
    decreases |s.queue|
  {
    GrantAllEnds(cfg, s, refuse);
    if s.active == 0 {
      RunRest(s.queue, s.current.value, refuse);
      assert Remove(s.queue, 0) == s.queue[1..] && Grantable(cfg, s);
      if s.queue[0].id !in refuse {
        GrantAllEnds(cfg, Grant(s), refuse);
      } else if |s.queue| > 1 && s.queue[1].alloc == s.current.value {
        GrantAllStrands(cfg, Withdraw(s, 0), refuse);
      }
    }
  }

  lemma ServeAgain(cfg: Config, u: State, refuse: set<RequestId>)
    requires MayGrant(u)
    ensures var t := Serve(cfg, u, refuse); Advance(cfg, t, {}) == t <==> !Stalls(u, refuse)
  {
    var r := GrantAll(cfg, u.(phase := Ready), refuse);
    GrantAllEnds(cfg, u.(phase := Ready), refuse);
    GrantAllStrands(cfg, u.(phase := Ready), refuse);
    var t := Serve(cfg, u, refuse);
    if !Switches(r) { assert t == r && GrantAll(cfg, t, {}) == t; }
  }

  /**
   Exactly when one pass of progress is not enough: everyone next in line lost the
   race for the lease, none is out, and another allocation is wanted.
   */
  lemma ProgressSettlesExactly(cfg: Config, s: State, dead: set<RequestId>, refuse: set<RequestId>)
    requires Progress(cfg, s, dead, refuse).running
    ensures var t := Progress(cfg, s, dead, refuse);
      Progress(cfg, t, {}, {}) == t <==> !Stalls(Prune(s, 0, dead), refuse)
  {
    var u, t := Prune(s, 0, dead), Progress(cfg, s, dead, refuse);
    PruneNothing(t, 0);
    if u.shuttingDown {
      DenyAllEmpties(u, ShuttingDown);
      assert DenyAll(t, ShuttingDown) == t;
    } else if MayGrant(u) {
      ServeAgain(cfg, u, refuse);
      GrantAllEnds(cfg, u.(phase := Ready), refuse);
    } else {
      assert Advance(cfg, u, refuse) == Advance(cfg, u, {});
      AdvanceTwice(cfg, u);
    }
  }

  /** In particular, when no offered lease is lost to a race. */
  lemma ProgressSettles(cfg: Config, s: State, dead: set<RequestId>)
    requires Progress(cfg, s, dead, {}).running
    ensures var t := Progress(cfg, s, dead, {}); Progress(cfg, t, {}, {}) == t
  {
    ProgressSettlesExactly(cfg, s, dead, {});
  }

  lemma {:induction false} DenyAllEmpties(s: State, err: Error)
    ensures DenyAll(s, err).queue == [] && SameButQueue(s, DenyAll(s, err))
    decreases |s.queue|
  {
    if s.queue != [] { DenyAllEmpties(Deny(s, 0, err), err); }
  }

  function TwoAllocations(): Config { Config(4, map[Registered(0) := 0]) }

  /** Two callers queue for two allocations; the first loses its race as its backend comes up. */
  function LostRace(): seq<Input> {
    [Input(Request(1, LlamaCpp), {}, {}),
     Input(Request(2, Registered(0)), {}, {}),
     Input(Result(StartKind, Lease(LlamaCpp, 1), Some(0), None), {}, {1})]
  }

  function FirstWaits(): State {
    Start0.(phase := PhaseStarting, current := Some(LlamaCpp), generation := 1, operation := true, operationCancel := true,
            queue := [Waiter(1, LlamaCpp)], log := [Accepted(1, LlamaCpp), Starting(Lease(LlamaCpp, 1))])
  }

  function BothWait(): State {
    FirstWaits().(queue := [Waiter(1, LlamaCpp), Waiter(2, Registered(0))],
                  log := FirstWaits().log + [Accepted(2, Registered(0))])
  }

  function Stranded(): State {
    BothWait().(phase := Draining, operation := false, operationCancel := false, upstream := Some(0),
                queue := [Waiter(2, Registered(0))], log := BothWait().log + [Started(0)] + [Withdrawn(1)])
  }

  lemma FirstTurn()
    ensures Turn(TwoAllocations(), Start0, LostRace()[0]) == FirstWaits()
    ensures Mon(FirstWaits().log).seen == {1}
  {
    var s := HandleRequest(TwoAllocations(), Start0, 1, LlamaCpp);
    assert s.queue == [Waiter(1, LlamaCpp)];
    PruneNothing(s, 0);
    LogSnoc(Start0, Accepted(1, LlamaCpp));
    LogSnoc(s, Starting(Lease(LlamaCpp, 1)));
  }

  lemma SecondTurn()
    ensures Turn(TwoAllocations(), FirstWaits(), LostRace()[1]) == BothWait()
    ensures Mon(BothWait().log).residency == Coming(LlamaCpp) && Mon(BothWait().log).gen == 1 && !Mon(BothWait().log).finished
  {
    var s := FirstWaits();
    PruneNothing(BothWait(), 0);
    LogSnoc(Start0, Accepted(1, LlamaCpp));
    LogSnoc(Note(Start0, Accepted(1, LlamaCpp)), Starting(Lease(LlamaCpp, 1)));
    LogSnoc(s, Accepted(2, Registered(0)));
  }

  lemma ThirdTurn()
    ensures Turn(TwoAllocations(), BothWait(), LostRace()[2]) == Stranded()
  {
    var cfg := TwoAllocations();
    var s := HandleResult(BothWait(), StartKind, Lease(LlamaCpp, 1), Some(0), None);
    PruneNothing(s, 0);
    var u := Withdraw(s, 0);
    assert u.queue == [Waiter(2, Registered(0))];
    assert GrantAll(cfg, s, {1}) == GrantAll(cfg, u, {1}) == u;
  }

  /**
   A lost race can leave progress unfinished: after this run the loop waits in
   draining with no lease and no operation. The loser's own cancel, which Acquire
   always sends, is the event that resumes the switch.
   */
  lemma LostRaceWaitsForItsCancel()
    ensures Feasible(TwoAllocations(), Start0, LostRace())
    ensures var t := Execute(TwoAllocations(), Start0, LostRace());
      && t.phase == Draining && t.active == 0 && !t.operation && t.queue == [Waiter(2, Registered(0))]
      && Turn(TwoAllocations(), t, Input(Cancel(1), {}, {})).phase == PhaseStopping
  {
    var cfg, ins := TwoAllocations(), LostRace();
    FirstTurn();
    SecondTurn();
    ThirdTurn();
    assert ins[1..][0] == ins[1] && ins[1..][1..][0] == ins[2] && ins[1..][1..][1..] == [];
    assert Execute(cfg, BothWait(), ins[1..][1..]) == Execute(cfg, Stranded(), []) == Stranded();
    assert Execute(cfg, FirstWaits(), ins[1..]) == Stranded();
    assert Feasible(cfg, BothWait(), ins[1..][1..]);
    assert Feasible(cfg, FirstWaits(), ins[1..]);
    var t := Stranded();
    assert CancelFrom(t, 1, 1) == t;
    assert CancelFrom(t, 0, 1) == t;
    PruneNothing(t, 0);
  }

  /** A failure report from an older generation is recorded and changes nothing. */
  lemma OldFailureChangesNothing(cfg: Config, s: State, id: RequestId, l: Lease, err: Error)
    requires Good(cfg, s) && s.running && Progress(cfg, s, {}, {}) == s && l.gen != s.generation
    ensures Turn(cfg, s, Input(Failure(id, l, err), {}, {})) == Note(s, LeaseFailed(l, err))
  {
    var e := LeaseFailed(l, err);
    PruneNothing(s, 0);
    PruneNothing(Note(s, e), 0);
    if s.shuttingDown {
      DenyAllEmpties(s, ShuttingDown);
      assert s.queue == [];
    } else if MayGrant(s) {
      GrantAllStops(cfg, s.(phase := Ready));
      assert !Grantable(cfg, s);
      assert GrantAll(cfg, Note(s, e).(phase := Ready), {}) == Note(s, e).(phase := Ready);
      assert GrantAll(cfg, s.(phase := Ready), {}) == s.(phase := Ready);
    }
  }

  // ---- Quiet runs ----

  predicate Live(cfg: Config, s: State) {
    && Good(cfg, s) && s.running && !s.shuttingDown && s.cleanupError.None?
    && Progress(cfg, s, {}, {}) == s
  }

  predicate QuietEvent(ev: Event) {
    || ev.Release?
    || (ev.Result? && ev.failure.None? && (ev.kind.StartKind? ==> ev.upstream.Some?))
  }

  predicate QuietInput(cfg: Config, s: State, input: Input) {
    QuietEvent(input.event) && Enabled(Mon(s.log), input.event) && input.dead == {} && input.refuse == {}
  }

  function Ids(q: seq<Waiter>): seq<RequestId> {
    if q == [] then [] else [q[0].id] + Ids(q[1..])
  }

  function Grants(log: seq<Entry>): seq<RequestId> {
    if log == [] then []
    else Grants(log[..|log| - 1]) + (if log[|log| - 1].Granted? then [log[|log| - 1].id] else [])
  }

  function Starts(log: seq<Entry>): nat {
    if log == [] then 0
    else Starts(log[..|log| - 1]) + (if log[|log| - 1].Starting? then 1 else 0)
  }

  lemma LogSnoc(s: State, e: Entry)
    ensures Grants(Note(s, e).log) == Grants(s.log) + (if e.Granted? then [e.id] else [])
    ensures Starts(Note(s, e).log) == Starts(s.log) + (if e.Starting? then 1 else 0)
    ensures Mon(Note(s, e).log) == Track(Mon(s.log), e)
  {
    assert (s.log + [e])[..|s.log|] == s.log;
  }

  /** Leases granted so far followed by the waiters still owed one. */
  function Owed(s: State): seq<RequestId> { Grants(s.log) + Ids(s.queue) }

  /** Maximal runs of equal allocations in a queue. */
  function Runs(q: seq<Waiter>): (n: nat)
    ensures q != [] ==> n >= 1
  {
    if q == [] then 0
    else if |q| > 1 && q[1].alloc == q[0].alloc then Runs(q[1..])
    else 1 + Runs(q[1..])
  }

  predicate Useful(m: Monitor, q: seq<Waiter>) {
    && q != []
    && (m.residency == Coming(q[0].alloc) || (m.residency == Up(q[0].alloc) && !m.poisoned))
  }

  /** Starts still needed: one per run, less the one already under way or resident. */
  function StartsToCome(s: State): int {
    Runs(s.queue) - if Useful(Mon(s.log), s.queue) then 1 else 0
  }

  function Rank(m: Monitor, q: seq<Waiter>): nat {
    if q == [] then if m.residency.Coming? || m.residency.Going? then 1 else 0
    else if m.residency.Coming? then if Useful(m, q) then 1 else 3
    else if m.residency.Up? && Useful(m, q) then 0
    else 2
  }

  function Weight(s: State): nat {
    8 * |s.queue| + 3 * s.active + Rank(Mon(s.log), s.queue)
  }

  lemma GrantServes(cfg: Config, s: State)
    requires Grantable(cfg, s) && Mon(s.log).residency == Up(s.queue[0].alloc) && !Mon(s.log).poisoned
    ensures var t := Grant(s);
      && Owed(t) == Owed(s) && Starts(t.log) == Starts(s.log) && StartsToCome(t) <= StartsToCome(s)
      && Mon(t.log).residency == Mon(s.log).residency && !Mon(t.log).poisoned
  {
    var e := Granted(s.queue[0].id, Lease(s.current.value, s.generation), s.upstream);
    LogSnoc(s, e);
    assert Ids(s.queue) == [e.id] + Ids(s.queue[1..]);
    assert Grants(s.log) + ([e.id] + Ids(s.queue[1..])) == Grants(s.log) + [e.id] + Ids(s.queue[1..]);
  }

  lemma {:induction false} GrantAllServes(cfg: Config, s: State)
    requires Mon(s.log).residency.Up? && !Mon(s.log).poisoned && s.current == Some(Mon(s.log).residency.alloc)
    ensures var t := GrantAll(cfg, s, {});
      && |t.queue| + t.active == |s.queue| + s.active
      && Owed(t) == Owed(s) && Starts(t.log) == Starts(s.log)
      && StartsToCome(t) <= StartsToCome(s)
      && Mon(t.log).residency == Mon(s.log).residency && !Mon(t.log).poisoned
    decreases |s.queue|
  {
    if Grantable(cfg, s) {
      GrantServes(cfg, s);
      GrantAllServes(cfg, Grant(s));
    }
  }

  /** What one call of progress does in a quiet turn. */
  predicate Serves(s: State, t: State) {
    && Owed(t) == Owed(s)
    && Starts(t.log) + StartsToCome(t) <= Starts(s.log) + StartsToCome(s)
  }

  /** An entry that grants nothing serves if a Start it begins is one that was to come. */
  lemma {:induction false} NoteServes(s: State, t: State, e: Entry)
    requires t.log == s.log + [e] && t.queue == s.queue && !e.Granted?
    requires var m, n := Mon(s.log), Track(Mon(s.log), e);
      if e.Starting? then !Useful(m, s.queue) && Useful(n, s.queue) else Useful(m, s.queue) ==> Useful(n, s.queue)
    ensures Serves(s, t) && Mon(t.log) == Track(Mon(s.log), e)
  {
    LogSnoc(s, e);
    assert Note(s, e).log == t.log;
    assert Grants(s.log) + [] == Grants(s.log);
  }

  lemma {:induction false} StopServes(cfg: Config, s: State)
    requires Good(cfg, s) && s.running && s.current.Some? && !s.operation
    requires s.queue == [] || !Useful(Mon(s.log), s.queue)
    ensures Serves(s, Stop(s)) && Mon(Stop(s).log).residency.Going?
  {
    NoteServes(s, Stop(s), Stopping(Lease(s.current.value, s.generation)));
  }

  lemma {:induction false} BeginServes(cfg: Config, s: State)
    requires Mon(s.log).residency.Vacant? && s.queue != []
    ensures Serves(s, Begin(s, s.queue[0].alloc))
    ensures Mon(Begin(s, s.queue[0].alloc).log).residency == Coming(s.queue[0].alloc)
  {
    var l := Lease(s.queue[0].alloc, s.generation + 1);
    StartIsUseful(Mon(s.log), s.queue, l);
    NoteServes(s, Begin(s, s.queue[0].alloc), Starting(l));
  }

  lemma StartIsUseful(m: Monitor, q: seq<Waiter>, l: Lease)
    requires m.residency.Vacant? && q != [] && q[0].alloc == l.alloc
    ensures !Useful(m, q) && Useful(Track(m, Starting(l)), q) && Track(m, Starting(l)).residency == Coming(l.alloc)
  {}

  lemma ServeServes(cfg: Config, s: State)
    requires Good(cfg, s) && s.running && !s.shuttingDown && Mon(s.log).residency.Up? && s.phase != Failed
    ensures var t := Serve(cfg, s, {}); Serves(s, t) && t.running && !t.shuttingDown && t.cleanupError.None?
  {
    if s.queue != [] && s.queue[0].alloc != s.current.value {
      if s.active == 0 { StopServes(cfg, s.(phase := Draining)); }
    } else if s.queue != [] {
      GrantAllServes(cfg, s.(phase := Ready));
      GrantAllStops(cfg, s.(phase := Ready));
    }
  }

  lemma AdvanceServes(cfg: Config, s: State)
    requires Good(cfg, s) && s.running && !s.shuttingDown && !s.operation && s.cleanupError.None?
    ensures var t := Advance(cfg, s, {}); Serves(s, t) && t.running && !t.shuttingDown && t.cleanupError.None?
  {
    if s.phase == Failed && s.current.Some? {
      if s.active == 0 { StopServes(cfg, s); }
    } else if s.current.None? {
      if s.queue != [] { BeginServes(cfg, s.(phase := Unloaded)); }
    } else {
      ServeServes(cfg, s);
    }
  }

  /** Progress of a resident allocation grants something, or keeps the queue and the rank. */
  predicate Lightens(s: State, t: State) {
    && |t.queue| + t.active == |s.queue| + s.active
    && Rank(Mon(t.log), t.queue) <= 2
    && (t.queue != s.queue ==> |t.queue| < |s.queue|)
    && (t.queue == s.queue ==> Rank(Mon(t.log), t.queue) <= Rank(Mon(s.log), s.queue) + if Mon(s.log).poisoned then 1 else 0)
  }

  lemma LightensWeight(s: State, t: State)
    requires Lightens(s, t)
    ensures Weight(t) <= Weight(s) + if Mon(s.log).poisoned then 1 else 0
  {}

  lemma ServeLightens(cfg: Config, s: State)
    requires Good(cfg, s) && s.running && !s.shuttingDown && Mon(s.log).residency.Up? && s.phase != Failed
    ensures Lightens(s, Serve(cfg, s, {}))
  {
    if s.queue != [] && s.queue[0].alloc != s.current.value {
      if s.active == 0 { StopServes(cfg, s.(phase := Draining)); }
    } else if s.queue != [] {
      GrantAllServes(cfg, s.(phase := Ready));
      GrantAllStops(cfg, s.(phase := Ready));
    }
  }

  lemma AdvanceLightens(cfg: Config, s: State)
    requires Good(cfg, s) && s.running && !s.shuttingDown && Mon(s.log).residency.Up?
    ensures Lightens(s, Advance(cfg, s, {}))
  {
    if s.phase == Failed {
      if s.active == 0 { StopServes(cfg, s); }
    } else {
      ServeLightens(cfg, s);
    }
  }

  /** The turn's event has been handled in a way that served; then progress runs. */
  lemma AdvanceCompletes(cfg: Config, s: State, u: State)
    requires Good(cfg, u) && u.running && !u.shuttingDown && Mon(u.log).residency.Up? && Serves(s, u)
    requires Weight(u) + (if Mon(u.log).poisoned then 1 else 0) < Weight(s)
    ensures var t := Progress(cfg, u, {}, {});
      Serves(s, t) && Weight(t) < Weight(s) && t.running && !t.shuttingDown && t.cleanupError.None?
  {
    PruneNothing(u, 0);
    AdvanceServes(cfg, u);
    AdvanceLightens(cfg, u);
    LightensWeight(u, Advance(cfg, u, {}));
  }

  lemma {:induction false} ReleaseServes(cfg: Config, s: State, id: RequestId, l: Lease)
    requires Good(cfg, s) && Enabled(Mon(s.log), Release(id, l))
    ensures var u := HandleRelease(s, id, l);
      && Serves(s, u) && Mon(u.log).residency.Up? && Weight(u) == Weight(s) - 3
      && u == Note(s, Released(id)).(active := s.active - 1)
  {
    var m := Mon(s.log);
    assert m.residency.Up? && s.active > 0;
    var u := HandleRelease(s, id, l);
    assert u == Note(s, Released(id)).(active := s.active - 1);
    NoteServes(s, u, Released(id));
    assert Rank(Mon(u.log), u.queue) == Rank(m, s.queue);
  }

  lemma StartedRank(m: Monitor, q: seq<Waiter>, up: Url)
    requires m.residency.Coming? && !m.poisoned
    ensures var n := Track(m, Started(up)); n.residency.Up? && !n.poisoned && Rank(n, q) < Rank(m, q) && Useful(n, q) == Useful(m, q)
  {}

  lemma {:induction false} StartServes(cfg: Config, s: State, l: Lease, up: Url)
    requires Good(cfg, s) && Enabled(Mon(s.log), Result(StartKind, l, Some(up), None))
    ensures var u := HandleResult(s, StartKind, l, Some(up), None);
      && Serves(s, u) && Mon(u.log).residency.Up? && !Mon(u.log).poisoned && Weight(u) < Weight(s)
      && u.running && u.shuttingDown == s.shuttingDown
  {
    ResultIsNeverStale(cfg, s, StartKind, l, Some(up), None);
    StartedRank(Mon(s.log), s.queue, up);
    var u := HandleResult(s, StartKind, l, Some(up), None);
    assert u == s.(operation := false, operationCancel := false, upstream := Some(up), phase := Ready,
                   lastError := None, log := s.log + [Started(up)]);
    NoteServes(s, u, Started(up));
  }

  lemma {:induction false} StoppedIs(cfg: Config, s: State, l: Lease, up: Option<Url>)
    requires Good(cfg, s) && Enabled(Mon(s.log), Result(StopKind, l, up, None))
    ensures var u := HandleResult(s, StopKind, l, up, None);
      && Good(cfg, u) && u.running && u.shuttingDown == s.shuttingDown && u.queue == s.queue && u.active == 0
      && u.current.None? && !u.operation && u.cleanupError.None? && u.log == s.log + [Stopped]
      && Serves(s, u) && Mon(u.log) == Mon(s.log).(residency := Vacant)
  {
    ResultIsNeverStale(cfg, s, StopKind, l, up, None);
    ResultKeeps(cfg, s, StopKind, l, up, None);
    NoteServes(s, HandleResult(s, StopKind, l, up, None), Stopped);
  }

  lemma {:induction false} QuietStopServes(cfg: Config, s: State, l: Lease, up: Option<Url>)
    requires Live(cfg, s) && Enabled(Mon(s.log), Result(StopKind, l, up, None))
    ensures var t := Turn(cfg, s, Input(Result(StopKind, l, up, None), {}, {}));
      Serves(s, t) && Weight(t) < Weight(s) && t.running && !t.shuttingDown && t.cleanupError.None?
  {
    var u := HandleResult(s, StopKind, l, up, None);
    StoppedIs(cfg, s, l, up);
    PruneNothing(u, 0);
    ServesTwice(s, u, Advance(cfg, u, {}));
    AdvanceServes(cfg, u);
    if s.queue != [] { BeginServes(cfg, u.(phase := Unloaded)); }
  }

  lemma ServesTwice(s: State, t: State, u: State)
    requires Serves(s, t)
    ensures Serves(t, u) ==> Serves(s, u)
  {}

  lemma QuietTurn(cfg: Config, s: State, input: Input)
    requires Live(cfg, s) && QuietInput(cfg, s, input)
    ensures var t := Turn(cfg, s, input); Live(cfg, t) && Serves(s, t) && Weight(t) < Weight(s)
  {
    HandleKeeps(cfg, s, input.event);
    match input.event {
      case Release(id, l) =>
        ReleaseServes(cfg, s, id, l);
        AdvanceCompletes(cfg, s, Handle(cfg, s, input.event));
      case Result(kind, l, up, err) =>
        if kind.StartKind? {
          StartServes(cfg, s, l, up.value);
          AdvanceCompletes(cfg, s, Handle(cfg, s, input.event));
        } else {
          QuietStopServes(cfg, s, l, up);
        }
    }
    TurnKeeps(cfg, s, input);
    ProgressSettles(cfg, Handle(cfg, s, input.event), {});
  }

  ghost predicate Exhausted(cfg: Config, s: State) {
    forall input :: !QuietInput(cfg, s, input)
  }

  /** While someone waits, an operation is in flight or a lease is out: never a dead end. */
  lemma WaitersAreNeverStranded(cfg: Config, s: State)
    requires Live(cfg, s) && s.queue != []
    ensures !Exhausted(cfg, s)
  {
    var m := Mon(s.log);
    PruneNothing(s, 0);
    if s.operation {
      var kind := if m.residency.Coming? then StartKind else StopKind;
      assert QuietInput(cfg, s, Input(Result(kind, Lease(m.residency.alloc, m.gen), Some(0), None), {}, {}));
    } else {
      GrantAllStops(cfg, s.(phase := Ready));
      assert s.active > 0;
      var id :| id in m.leases;
      assert QuietInput(cfg, s, Input(Release(id, m.issued[id]), {}, {}));
    }
  }

  predicate QuietRun(cfg: Config, s: State, inputs: seq<Input>)
    decreases |inputs|
  {
    inputs == [] || (QuietInput(cfg, s, inputs[0]) && QuietRun(cfg, Turn(cfg, s, inputs[0]), inputs[1..]))
  }

  lemma {:induction false} QuietRunKeeps(cfg: Config, s: State, inputs: seq<Input>)
    requires Live(cfg, s) && QuietRun(cfg, s, inputs)
    ensures var t := Execute(cfg, s, inputs); Live(cfg, t) && Serves(s, t) && Weight(t) + |inputs| <= Weight(s)
    decreases |inputs|
  {
    if inputs != [] {
      QuietTurn(cfg, s, inputs[0]);
      QuietRunKeeps(cfg, Turn(cfg, s, inputs[0]), inputs[1..]);
    }
  }

  lemma ServedMeans(s: State, t: State)
    requires Serves(s, t)
    ensures Starts(t.log) <= Starts(s.log) + Runs(s.queue)
    ensures t.queue == [] ==> Grants(t.log) == Grants(s.log) + Ids(s.queue)
  {
    if t.queue == [] { assert Owed(t) == Grants(t.log); }
  }

  /**
   Every quiet run is finite, and one that cannot be continued has granted a
   lease to every waiter, in queue order, with at most one Start per run of
   equal allocations in the queue it began with.
   */
  lemma QuietRunServesEveryone(cfg: Config, s: State, inputs: seq<Input>)
    requires Live(cfg, s) && QuietRun(cfg, s, inputs)
    ensures var t := Execute(cfg, s, inputs);
      && |inputs| <= Weight(s)
      && Starts(t.log) <= Starts(s.log) + Runs(s.queue)
      && (Exhausted(cfg, t) ==> t.queue == [] && Grants(t.log) == Grants(s.log) + Ids(s.queue))
  {
    QuietRunKeeps(cfg, s, inputs);
    var t := Execute(cfg, s, inputs);
    ServedMeans(s, t);
    if t.queue != [] { WaitersAreNeverStranded(cfg, t); }
  }

  /** Every reachable state that may still serve becomes such a start after one pass of progress. */
  lemma ReachableBecomesLive(cfg: Config, inputs: seq<Input>)
    requires Feasible(cfg, Start0, inputs)
    requires var s := Execute(cfg, Start0, inputs); s.running && !s.shuttingDown && s.cleanupError.None?
    ensures Live(cfg, Progress(cfg, Execute(cfg, Start0, inputs), {}, {}))
  {
    var s := Execute(cfg, Start0, inputs);
    EveryRunConforms(cfg, inputs);
    ProgressKeeps(cfg, s, {}, {});
    PruneNothing(s, 0);
    if !s.operation {
      AdvanceServes(cfg, s);
    }
    ProgressSettles(cfg, s, {});
  }
}

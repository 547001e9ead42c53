/**
 Nothing waits forever, whatever the outcomes: once arrivals and cancellations
 stop, every waiter is granted or denied, even if operations fail; and once
 shutdown is asked for, the loop ends within a bounded number of releases and
 results, whatever else is sent to it.
 */
module SchedulerEnding {
  import opened Options
  import opened SchedulerTrace
  import opened SchedulerSpec
  import opened SchedulerSafety
  import opened SchedulerLiveness

  // ---- Who has been answered ----

  /** The requests a trace grants or denies. */
  function Served(log: seq<Entry>): set<RequestId> {
    if log == [] then {}
    else if log[|log| - 1].Granted? || log[|log| - 1].Denied? then Served(log[..|log| - 1]) + {log[|log| - 1].id}
    else Served(log[..|log| - 1])
  }

  /** Whoever waited still waits or has been answered, and no answer is taken back. */
  predicate Accounted(s: State, t: State) {
    && Served(s.log) <= Served(t.log)
    && forall w :: w in s.queue ==> w in t.queue || w.id in Served(t.log)
  }

  lemma AccountedTwice(s: State, t: State, u: State)
    requires Accounted(s, t) && Accounted(t, u)
    ensures Accounted(s, u)
  {}

  lemma ServedSnoc(log: seq<Entry>, e: Entry)
    ensures Served(log + [e]) == Served(log) + if e.Granted? || e.Denied? then {e.id} else {}
  {
    assert (log + [e])[..|log|] == log;
  }

  lemma NoteAccounted(s: State, t: State, e: Entry)
    requires t.log == s.log + [e] && t.queue == s.queue
    ensures Accounted(s, t)
  {
    ServedSnoc(s.log, e);
  }

  /** One waiter leaves with an answer. */
  lemma AnswerAccounted(s: State, t: State, k: nat, e: Entry)
    requires k < |s.queue| && t.log == s.log + [e] && t.queue == Remove(s.queue, k)
    requires (e.Granted? || e.Denied?) && e.id == s.queue[k].id
    ensures Accounted(s, t)
  {
    ServedSnoc(s.log, e);
    forall w | w in s.queue ensures w in t.queue || w.id in Served(t.log) {
      var i :| 0 <= i < |s.queue| && s.queue[i] == w;
      if i < k { assert t.queue[i] == w; } else if i > k { assert t.queue[i - 1] == w; }
    }
  }

  lemma {:induction false} DenyAllAccounted(s: State, err: Error)
    ensures Accounted(s, DenyAll(s, err)) && DenyAll(s, err).queue == [] && SameButQueue(s, DenyAll(s, err))
    ensures DenyAll(s, err).active == s.active
    decreases |s.queue|
  {
    if s.queue != [] {
      var t := Deny(s, 0, err);
      AnswerAccounted(s, t, 0, Denied(s.queue[0].id, err));
      DenyAllAccounted(t, err);
      AccountedTwice(s, t, DenyAll(t, err));
    }
  }

  lemma {:induction false} DenyForAccounted(s: State, k: nat, a: Allocation, err: Error)
    requires k <= |s.queue|
    ensures Accounted(s, DenyFor(s, k, a, err))
    decreases |s.queue| - k
  {
    if k == |s.queue| {
    } else if s.queue[k].alloc == a {
      var t := Deny(s, k, err);
      AnswerAccounted(s, t, k, Denied(s.queue[k].id, err));
      DenyForAccounted(t, k, a, err);
      AccountedTwice(s, t, DenyFor(t, k, a, err));
    } else {
      DenyForAccounted(s, k + 1, a, err);
    }
  }

  lemma {:induction false} DenyForShrinks(s: State, k: nat, a: Allocation, err: Error)
    requires k <= |s.queue|
    ensures var t := DenyFor(s, k, a, err);
      && SameButQueue(s, t) && t.active == s.active
      && |t.queue| <= |s.queue| && (k < |s.queue| && s.queue[k].alloc == a ==> |t.queue| < |s.queue|)
    decreases |s.queue| - k
  {
    if k == |s.queue| {
    } else if s.queue[k].alloc == a {
      DenyForShrinks(Deny(s, k, err), k, a, err);
    } else {
      DenyForShrinks(s, k + 1, a, err);
    }
  }

  lemma {:induction false} GrantAllAccounted(cfg: Config, s: State)
    ensures Accounted(s, GrantAll(cfg, s, {}))
    decreases |s.queue|
  {
    if Grantable(cfg, s) {
      var t := Grant(s);
      assert Remove(s.queue, 0) == s.queue[1..];
      AnswerAccounted(s, t, 0, Granted(s.queue[0].id, Lease(s.current.value, s.generation), s.upstream));
      GrantAllAccounted(cfg, t);
      AccountedTwice(s, t, GrantAll(cfg, t, {}));
    }
  }

  lemma StopAccounted(s: State)
    requires s.current.Some?
    ensures Accounted(s, Stop(s))
  {
    NoteAccounted(s, Stop(s), Stopping(Lease(s.current.value, s.generation)));
  }

  lemma AdvanceAccounted(cfg: Config, s: State)
    ensures Accounted(s, Advance(cfg, s, {}))
  {
    if s.current.Some? {
      StopAccounted(s);
      StopAccounted(s.(phase := Draining));
      GrantAllAccounted(cfg, s.(phase := Ready));
    } else if s.queue != [] {
      NoteAccounted(s, Begin(s.(phase := Unloaded), s.queue[0].alloc), Starting(Lease(s.queue[0].alloc, s.generation + 1)));
    }
  }

  // ---- Releases and results of any outcome ----

  predicate Closes(ev: Event) { ev.Release? || ev.Result? }

  /** No one waits behind a failed cleanup. */
  predicate Emptied(s: State) { s.cleanupError.Some? ==> s.queue == [] }

  /** A state between turns that may still serve, or has failed to clean up. */
  predicate Settled(cfg: Config, s: State) {
    Good(cfg, s) && Emptied(s) && s.running && !s.shuttingDown && Progress(cfg, s, {}, {}) == s
  }

  predicate ClosingInput(s: State, input: Input) {
    Closes(input.event) && Enabled(Mon(s.log), input.event) && input.dead == {} && input.refuse == {}
  }

  /** A release or a result cannot come once cleanup has failed. */
  lemma NothingOutWhenStuck(cfg: Config, s: State, ev: Event)
    requires Settled(cfg, s) && Closes(ev) && Enabled(Mon(s.log), ev)
    ensures Live(cfg, s)
  {}

  lemma StartedAccounted(s: State, up: Option<Url>, err: Option<Error>)
    requires s.current.Some?
    ensures Accounted(s, HandleStarted(s, up, err))
  {
    var cause := if err.None? then NoUpstream else err.value;
    var a := s.current.value;
    var e := StartError(a, cause);
    if err.None? && up.Some? {
      NoteAccounted(s, HandleStarted(s, up, err), Started(up.value));
    } else {
      var t := Note(s, StartFailed(cause)).(lastError := Some(cause));
      var dirty := t.(phase := Failed, cleanupError := Some(e));
      var clean := t.(current := None, upstream := None, phase := Unloaded);
      NoteAccounted(s, dirty, StartFailed(cause));
      NoteAccounted(s, clean, StartFailed(cause));
      DenyAllAccounted(dirty, e);
      DenyForAccounted(clean, 0, a, e);
      if Dirty(cause) {
        AccountedTwice(s, dirty, DenyAll(dirty, e));
      } else {
        AccountedTwice(s, clean, DenyFor(clean, 0, a, e));
      }
    }
  }

  lemma StoppedAccounted(s: State, err: Option<Error>)
    requires s.current.Some? && !s.shuttingDown
    ensures Accounted(s, HandleStopped(s, err))
  {
    if err.None? {
      NoteAccounted(s, HandleStopped(s, err), Stopped);
    } else {
      var e := StopError(s.current.value, err.value);
      var t := Note(s, StopFailed(err.value)).(phase := Failed, lastError := err, cleanupError := Some(e));
      NoteAccounted(s, t, StopFailed(err.value));
      DenyAllAccounted(t, e);
      AccountedTwice(s, t, DenyAll(t, e));
    }
  }

  lemma HandleAccounted(cfg: Config, s: State, ev: Event)
    requires Good(cfg, s) && !s.shuttingDown && Closes(ev) && Enabled(Mon(s.log), ev)
    ensures Accounted(s, Handle(cfg, s, ev))
  {
    match ev {
      case Release(id, l) => NoteAccounted(s, HandleRelease(s, id, l), Released(id));
      case Result(kind, l, up, err) =>
        ResultIsNeverStale(cfg, s, kind, l, up, err);
        var t := s.(operation := false, operationCancel := false);
        if kind.StartKind? { StartedAccounted(t, up, err); } else { StoppedAccounted(t, err); }
    }
  }

  lemma TurnAccounted(cfg: Config, s: State, input: Input)
    requires Good(cfg, s) && s.running && !s.shuttingDown && ClosingInput(s, input)
    ensures var t := Turn(cfg, s, input); Accounted(s, t)
  {
    var u := Handle(cfg, s, input.event);
    HandleAccounted(cfg, s, input.event);
    if u.running {
      HandleKeepsOpen(cfg, s, input.event);
      PruneNothing(u, 0);
      AdvanceAccounted(cfg, u);
      AccountedTwice(s, u, Advance(cfg, u, {}));
    }
  }

  /** Outside shutdown no release or result ends the loop. */
  lemma HandleKeepsOpen(cfg: Config, s: State, ev: Event)
    requires Good(cfg, s) && s.running && !s.shuttingDown && Closes(ev) && Enabled(Mon(s.log), ev)
    ensures var u := Handle(cfg, s, ev); u.running && !u.shuttingDown
  {
    if ev.Result? {
      ResultIsNeverStale(cfg, s, ev.kind, ev.lease, ev.upstream, ev.failure);
      var t := s.(operation := false, operationCancel := false);
      if ev.kind.StopKind? && ev.failure.Some? {
        var e := StopError(s.current.value, ev.failure.value);
        DenyAllAccounted(Note(t, StopFailed(ev.failure.value))
          .(phase := Failed, lastError := ev.failure, cleanupError := Some(e)), e);
      } else if ev.kind.StartKind? {
        StartKeepsOpen(t, ev.upstream, ev.failure);
      }
    }
  }

  lemma StartKeepsOpen(s: State, up: Option<Url>, err: Option<Error>)
    requires s.current.Some?
    ensures var u := HandleStarted(s, up, err); u.running == s.running && u.shuttingDown == s.shuttingDown
  {
    var cause := if err.None? then NoUpstream else err.value;
    var e := StartError(s.current.value, cause);
    var t := Note(s, StartFailed(cause)).(lastError := Some(cause));
    DenyAllAccounted(t.(phase := Failed, cleanupError := Some(e)), e);
    DenyForShrinks(t.(current := None, upstream := None, phase := Unloaded), 0, s.current.value, e);
  }

  // ---- Failed operations use up weight too ----

  /** After a clean failure of a Start the next one begins, if anyone is left. */
  lemma {:induction false} CleanFailureLightens(cfg: Config, s: State, l: Lease, up: Option<Url>, err: Option<Error>)
    requires Live(cfg, s) && Enabled(Mon(s.log), Result(StartKind, l, up, err))
    requires if err.None? then up.None? else !Dirty(err.value)
    ensures Weight(Turn(cfg, s, Input(Result(StartKind, l, up, err), {}, {}))) < Weight(s)
  {
    var cause := if err.None? then NoUpstream else err.value;
    var a := s.current.value;
    ResultIsNeverStale(cfg, s, StartKind, l, up, err);
    var u := HandleResult(s, StartKind, l, up, err);
    ResultKeeps(cfg, s, StartKind, l, up, err);
    DenyForShrinks(Note(s, StartFailed(cause)).(operation := false, operationCancel := false,
      lastError := Some(cause), current := None, upstream := None, phase := Unloaded), 0, a, StartError(a, cause));
    assert u.current.None? && !u.operation && u.active == 0 && u.running && !u.shuttingDown && u.cleanupError.None?;
    PruneNothing(u, 0);
    FreshStartWeight(cfg, u);
    WeightWhileComing(s);
  }

  lemma {:induction false} FreshStartWeight(cfg: Config, u: State)
    requires Good(cfg, u) && u.current.None? && !u.operation && u.active == 0 && u.cleanupError.None?
    ensures Weight(Advance(cfg, u, {})) == if u.queue == [] then 0 else 8 * |u.queue| + 1
  {
    if u.queue != [] { BeginServes(cfg, u.(phase := Unloaded)); }
  }

  lemma WeightWhileComing(s: State)
    requires Mon(s.log).residency.Coming? && s.active == 0
    ensures Weight(s) >= 8 * |s.queue| + 1
    ensures s.queue != [] && s.queue[0].alloc != Mon(s.log).residency.alloc ==> Weight(s) == 8 * |s.queue| + 3
  {}

  /** A failed cleanup empties the queue and leaves nothing in flight. */
  lemma {:induction false} StuckIsLight(cfg: Config, s: State, t: State)
    requires Good(cfg, s) && (Mon(s.log).residency.Coming? || Mon(s.log).residency.Going?)
    requires Mon(t.log).residency.Stuck? && t.queue == [] && t.active == 0
    ensures Weight(t) < Weight(s)
  {}

  lemma {:induction false} DirtyFailureLightens(cfg: Config, s: State, l: Lease, up: Option<Url>, err: Error)
    requires Live(cfg, s) && Enabled(Mon(s.log), Result(StartKind, l, up, Some(err))) && Dirty(err)
    ensures Weight(Turn(cfg, s, Input(Result(StartKind, l, up, Some(err)), {}, {}))) < Weight(s)
  {
    var e := StartError(s.current.value, err);
    ResultIsNeverStale(cfg, s, StartKind, l, up, Some(err));
    ResultKeeps(cfg, s, StartKind, l, up, Some(err));
    var u := HandleResult(s, StartKind, l, up, Some(err));
    DenyAllAccounted(Note(s, StartFailed(err)).(operation := false, operationCancel := false,
      lastError := Some(err), phase := Failed, cleanupError := Some(e)), e);
    assert u.cleanupError.Some? && u.queue == [] && u.active == 0 && !u.operation && u.running && !u.shuttingDown;
    PruneNothing(u, 0);
    StuckIsLight(cfg, s, u);
  }

  lemma {:induction false} FailedStopLightens(cfg: Config, s: State, l: Lease, up: Option<Url>, err: Error)
    requires Live(cfg, s) && Enabled(Mon(s.log), Result(StopKind, l, up, Some(err)))
    ensures Weight(Turn(cfg, s, Input(Result(StopKind, l, up, Some(err)), {}, {}))) < Weight(s)
  {
    var e := StopError(s.current.value, err);
    ResultIsNeverStale(cfg, s, StopKind, l, up, Some(err));
    ResultKeeps(cfg, s, StopKind, l, up, Some(err));
    var u := HandleResult(s, StopKind, l, up, Some(err));
    DenyAllAccounted(Note(s, StopFailed(err)).(operation := false, operationCancel := false,
      lastError := Some(err), phase := Failed, cleanupError := Some(e)), e);
    assert u.cleanupError.Some? && u.queue == [] && u.active == 0 && !u.operation && u.running && !u.shuttingDown;
    PruneNothing(u, 0);
    StuckIsLight(cfg, s, u);
  }

  lemma ClosingLightens(cfg: Config, s: State, input: Input)
    requires Live(cfg, s) && ClosingInput(s, input)
    ensures Weight(Turn(cfg, s, input)) < Weight(s)
  {
    var ev := input.event;
    if QuietEvent(ev) {
      QuietTurn(cfg, s, input);
    } else if ev.kind.StopKind? {
      FailedStopLightens(cfg, s, ev.lease, ev.upstream, ev.failure.value);
    } else if ev.failure.Some? && Dirty(ev.failure.value) {
      DirtyFailureLightens(cfg, s, ev.lease, ev.upstream, ev.failure.value);
    } else {
      CleanFailureLightens(cfg, s, ev.lease, ev.upstream, ev.failure);
    }
  }

  lemma ClosingTurn(cfg: Config, s: State, input: Input)
    requires Settled(cfg, s) && ClosingInput(s, input)
    ensures var t := Turn(cfg, s, input); Settled(cfg, t) && Accounted(s, t) && Weight(t) < Weight(s)
  {
    NothingOutWhenStuck(cfg, s, input.event);
    ClosingLightens(cfg, s, input);
    TurnAccounted(cfg, s, input);
    TurnKeeps(cfg, s, input);
    HandleKeepsOpen(cfg, s, input.event);
    AdvanceStaysOpen(cfg, Handle(cfg, s, input.event));
    ProgressSettles(cfg, Handle(cfg, s, input.event), {});
    TurnEmptied(cfg, s, input);
  }

  lemma AdvanceStaysOpen(cfg: Config, u: State)
    requires u.running && !u.shuttingDown
    ensures var t := Progress(cfg, u, {}, {}); t.running && !t.shuttingDown
  {
    PruneNothing(u, 0);
    GrantAllStops(cfg, u.(phase := Ready));
  }

  // ---- Every state between turns ----

  lemma AdvanceEmptied(cfg: Config, s: State, refuse: set<RequestId>)
    requires Emptied(s)
    ensures Emptied(Advance(cfg, s, refuse))
  {
    if s.current.Some? { GrantAllEnds(cfg, s.(phase := Ready), refuse); }
  }

  lemma ProgressEmptied(cfg: Config, s: State, dead: set<RequestId>, refuse: set<RequestId>)
    requires Good(cfg, s) && s.running && Emptied(s)
    ensures Emptied(Progress(cfg, s, dead, refuse))
  {
    PruneKeeps(cfg, s, 0, dead);
    var p := Prune(s, 0, dead);
    DenyAllAccounted(p, ShuttingDown);
    AdvanceEmptied(cfg, p, refuse);
  }

  lemma StartedEmptied(s: State, up: Option<Url>, err: Option<Error>)
    requires s.current.Some? && s.cleanupError.None?
    ensures Emptied(HandleStarted(s, up, err))
  {
    var cause := if err.None? then NoUpstream else err.value;
    var e := StartError(s.current.value, cause);
    var t := Note(s, StartFailed(cause)).(lastError := Some(cause));
    DenyAllAccounted(t.(phase := Failed, cleanupError := Some(e)), e);
    DenyForShrinks(t.(current := None, upstream := None, phase := Unloaded), 0, s.current.value, e);
  }

  lemma HandleEmptied(cfg: Config, s: State, ev: Event)
    requires Good(cfg, s) && Emptied(s) && Enabled(Mon(s.log), ev)
    ensures Emptied(Handle(cfg, s, ev))
  {
    match ev {
      case Cancel(id) => CancelIsLocal(s, 0, id);
      case Result(kind, l, up, err) =>
        ResultIsNeverStale(cfg, s, kind, l, up, err);
        var t := s.(operation := false, operationCancel := false);
        if kind.StartKind? {
          StartedEmptied(t, up, err);
        } else if err.Some? {
          var e := StopError(s.current.value, err.value);
          DenyAllAccounted(Note(t, StopFailed(err.value)).(phase := Failed, lastError := err, cleanupError := Some(e)), e);
        }
      case _ =>
    }
  }

  lemma TurnEmptied(cfg: Config, s: State, input: Input)
    requires Good(cfg, s) && Emptied(s) && Enabled(Mon(s.log), input.event)
    ensures Emptied(Turn(cfg, s, input))
  {
    HandleKeeps(cfg, s, input.event);
    HandleEmptied(cfg, s, input.event);
    var u := Handle(cfg, s, input.event);
    if u.running { ProgressEmptied(cfg, u, input.dead, input.refuse); }
  }

  lemma {:induction false} RunEmptied(cfg: Config, s: State, inputs: seq<Input>)
    requires Good(cfg, s) && Emptied(s) && Feasible(cfg, s, inputs)
    ensures Emptied(Execute(cfg, s, inputs))
    decreases |inputs|
  {
    if inputs != [] {
      TurnKeeps(cfg, s, inputs[0]);
      TurnEmptied(cfg, s, inputs[0]);
      RunEmptied(cfg, Turn(cfg, s, inputs[0]), inputs[1..]);
    }
  }

  /** Every reachable state that is not shutting down is settled after one pass of progress. */
  lemma ReachableSettles(cfg: Config, inputs: seq<Input>)
    requires Feasible(cfg, Start0, inputs)
    requires var s := Execute(cfg, Start0, inputs); s.running && !s.shuttingDown
    ensures Settled(cfg, Progress(cfg, Execute(cfg, Start0, inputs), {}, {}))
  {
    var s := Execute(cfg, Start0, inputs);
    EveryRunConforms(cfg, inputs);
    RunEmptied(cfg, Start0, inputs);
    ProgressKeeps(cfg, s, {}, {});
    ProgressEmptied(cfg, s, {}, {});
    AdvanceStaysOpen(cfg, s);
    ProgressSettles(cfg, s, {});
  }

  // ---- Everyone is answered ----

  predicate ClosingRun(cfg: Config, s: State, inputs: seq<Input>)
    decreases |inputs|
  {
    inputs == [] || (ClosingInput(s, inputs[0]) && ClosingRun(cfg, Turn(cfg, s, inputs[0]), inputs[1..]))
  }

  lemma {:induction false} ClosingRunKeeps(cfg: Config, s: State, inputs: seq<Input>)
    requires Settled(cfg, s) && ClosingRun(cfg, s, inputs)
    ensures var t := Execute(cfg, s, inputs); Settled(cfg, t) && Accounted(s, t) && Weight(t) + |inputs| <= Weight(s)
    decreases |inputs|
  {
    if inputs != [] {
      var t := Turn(cfg, s, inputs[0]);
      ClosingTurn(cfg, s, inputs[0]);
      ClosingRunKeeps(cfg, t, inputs[1..]);
      AccountedTwice(s, t, Execute(cfg, t, inputs[1..]));
    }
  }

  /** Nothing is in flight and no lease is out. */
  ghost predicate Drained(s: State) { forall input :: !ClosingInput(s, input) }

  lemma WaitersAreNotDrained(cfg: Config, s: State)
    requires Settled(cfg, s) && s.queue != []
    ensures !Drained(s)
  {
    WaitersAreNeverStranded(cfg, s);
    var input :| QuietInput(cfg, s, input);
    assert ClosingInput(s, input);
  }

  /**
   Once arrivals, cancellations and reports of failure stop: if operations return,
   with any outcome, and leases are released, the run is finite, and when nothing
   is left to return every waiter has been granted or denied.
   */
  lemma EveryoneIsAnswered(cfg: Config, s: State, inputs: seq<Input>)
    requires Settled(cfg, s) && ClosingRun(cfg, s, inputs)
    ensures |inputs| <= Weight(s)
    ensures var t := Execute(cfg, s, inputs);
      Drained(t) ==> t.queue == [] && forall w :: w in s.queue ==> w.id in Served(t.log)
  {
    ClosingRunKeeps(cfg, s, inputs);
    var t := Execute(cfg, s, inputs);
    if t.queue != [] { WaitersAreNotDrained(cfg, t); }
  }

  // ---- Shutdown ends ----

  predicate Busy(s: State) { s.operation || s.active > 0 }

  /** Releases and results still to come: the leases, then a Start, then a Stop. */
  function Left(s: State): nat {
    var r := Mon(s.log).residency;
    if r.Going? then 1 else if r.Coming? then 2 else 1 + s.active
  }

  predicate Ending(cfg: Config, s: State) { Good(cfg, s) && s.running && s.shuttingDown && Busy(s) }

  /** `u` has as much to come as `s`. */
  predicate StillToCome(s: State, u: State) {
    && u.operation == s.operation && u.active == s.active && u.current == s.current
    && u.running == s.running && u.shuttingDown == s.shuttingDown && Mon(u.log).residency == Mon(s.log).residency
  }

  lemma WaitsMeans(s: State, u: State)
    requires StillToCome(s, u)
    ensures Busy(u) == Busy(s) && Left(u) == Left(s)
  {}

  /** Everyone still queued is denied; what is resident, and who holds a lease, stays. */
  lemma {:induction false} EmptyingWaits(cfg: Config, u: State, dead: set<RequestId>)
    requires Good(cfg, u) && u.running && u.shuttingDown
    ensures var q := DenyAll(Prune(u, 0, dead), ShuttingDown); StillToCome(u, q) && Good(cfg, q) && q.queue == []
  {
    PruneKeeps(cfg, u, 0, dead);
    DenyAllKeeps(cfg, Prune(u, 0, dead), ShuttingDown);
  }

  /** Progress under shutdown waits while busy, then stops what is resident, then ends. */
  lemma {:induction false} ProgressEnds(cfg: Config, u: State, dead: set<RequestId>, refuse: set<RequestId>)
    requires Good(cfg, u) && u.running && u.shuttingDown
    ensures var t := Progress(cfg, u, dead, refuse);
      && Good(cfg, t)
      && (Busy(u) || u.current.Some? ==> t.running)
      && (t.running ==> t.shuttingDown && Busy(t) && (Busy(u) || u.current.Some?) && Left(t) == if Busy(u) then Left(u) else 1)
  {
    ProgressKeeps(cfg, u, dead, refuse);
    EmptyingWaits(cfg, u, dead);
    var p := Prune(u, 0, dead);
    PruneKeeps(cfg, u, 0, dead);
    var q := DenyAll(p, ShuttingDown);
    WaitsMeans(u, q);
    if !Busy(q) && q.current.Some? { LogSnoc(q, Stopping(Lease(q.current.value, q.generation))); }
  }

  lemma {:induction false} NoteWaits(s: State, u: State, e: Entry)
    requires u.log == s.log + [e] && Track(Mon(s.log), e).residency == Mon(s.log).residency
    requires u == s.(phase := u.phase, lastError := u.lastError, replies := u.replies, log := u.log)
    ensures StillToCome(s, u)
  {
    LogSnoc(s, e);
    assert Note(s, e).log == u.log;
  }

  lemma {:induction false} CancelWaits(cfg: Config, s: State, id: RequestId)
    requires Good(cfg, s) && s.running
    ensures StillToCome(s, CancelFrom(s, 0, id))
  {
    CancelKeeps(cfg, s, 0, id);
    CancelIsLocal(s, 0, id);
  }

  /** Nothing but a release or a result changes what is to come. */
  lemma {:induction false} OtherEventsWait(cfg: Config, s: State, ev: Event)
    requires Ending(cfg, s) && Enabled(Mon(s.log), ev) && !Closes(ev)
    ensures StillToCome(s, Handle(cfg, s, ev))
  {
    match ev
    case Request(id, a) => NoteWaits(s, HandleRequest(cfg, s, id, a), TurnedAway(id, ShuttingDown));
    case Cancel(id) => CancelWaits(cfg, s, id);
    case Failure(_, l, err) => NoteWaits(s, HandleFailure(s, l, err), LeaseFailed(l, err));
    case Status =>
    case Shutdown(r) => NoteWaits(s, HandleShutdown(s, r), ShutdownAsked(r));
  }

  lemma {:induction false} CancelIsLocal(s: State, k: nat, id: RequestId)
    requires k <= |s.queue|
    ensures SameButQueue(s, CancelFrom(s, k, id)) && CancelFrom(s, k, id).active == s.active
    decreases |s.queue| - k
  {
    if k < |s.queue| && s.queue[k].id != id { CancelIsLocal(s, k + 1, id); }
  }

  lemma {:induction false} ReleaseEnds(cfg: Config, s: State, id: RequestId, l: Lease)
    requires Ending(cfg, s) && Enabled(Mon(s.log), Release(id, l))
    ensures var u := HandleRelease(s, id, l);
      u.running && u.shuttingDown && u.current.Some? && (if Busy(u) then Left(u) < Left(s) else Left(s) > 1)
  {
    assert Mon(s.log).residency.Up?;
    LogSnoc(s, Released(id));
  }

  lemma {:induction false} ResultEnds(cfg: Config, s: State, kind: OperationKind, l: Lease, up: Option<Url>, err: Option<Error>)
    requires Ending(cfg, s) && Enabled(Mon(s.log), Result(kind, l, up, err))
    ensures var u := HandleResult(s, kind, l, up, err);
      && (u.running ==> u.shuttingDown && !Busy(u))
      && (kind.StartKind? ==> Left(s) == 2) && (kind.StopKind? ==> !u.running || u.current.None?)
  {
    ResultIsNeverStale(cfg, s, kind, l, up, err);
    var t := s.(operation := false, operationCancel := false);
    if kind.StartKind? {
      StartKeepsOpen(t, up, err);
      StartEndsIdle(t, up, err);
    } else if err.Some? {
      var e := StopError(s.current.value, err.value);
      DenyAllAccounted(Note(t, StopFailed(err.value)).(phase := Failed, lastError := err, cleanupError := Some(e)), e);
    }
  }

  lemma StartEndsIdle(s: State, up: Option<Url>, err: Option<Error>)
    requires s.current.Some? && !Busy(s)
    ensures !Busy(HandleStarted(s, up, err))
  {
    var cause := if err.None? then NoUpstream else err.value;
    var e := StartError(s.current.value, cause);
    var t := Note(s, StartFailed(cause)).(lastError := Some(cause));
    DenyAllAccounted(t.(phase := Failed, cleanupError := Some(e)), e);
    DenyForShrinks(t.(current := None, upstream := None, phase := Unloaded), 0, s.current.value, e);
  }

  /** Any event leaves no more to come, and a release or a result leaves less or ends the loop. */
  lemma {:induction false} EndingTurn(cfg: Config, s: State, input: Input)
    requires Ending(cfg, s) && Enabled(Mon(s.log), input.event)
    ensures var t := Turn(cfg, s, input);
      && Good(cfg, t)
      && (t.running ==> Ending(cfg, t) && Left(t) <= Left(s) && (Closes(input.event) ==> Left(t) < Left(s)))
  {
    var u := Handle(cfg, s, input.event);
    HandleKeeps(cfg, s, input.event);
    match input.event {
      case Release(id, l) => ReleaseEnds(cfg, s, id, l);
      case Result(kind, l, up, err) => ResultEnds(cfg, s, kind, l, up, err);
      case _ =>
        OtherEventsWait(cfg, s, input.event);
        WaitsMeans(s, u);
    }
    if u.running { ProgressEnds(cfg, u, input.dead, input.refuse); }
  }

  /** The releases and results among the events of a run. */
  function Closings(inputs: seq<Input>): nat {
    if inputs == [] then 0 else Closings(inputs[1..]) + if Closes(inputs[0].event) then 1 else 0
  }

  lemma {:induction false} EndingRun(cfg: Config, s: State, inputs: seq<Input>)
    requires Ending(cfg, s) && Feasible(cfg, s, inputs)
    ensures var t := Execute(cfg, s, inputs);
      t.running ==> Ending(cfg, t) && Closings(inputs) + Left(t) <= Left(s)
    decreases |inputs|
  {
    if inputs != [] {
      var t := Turn(cfg, s, inputs[0]);
      EndingTurn(cfg, s, inputs[0]);
      if t.running {
        EndingRun(cfg, t, inputs[1..]);
      } else {
        assert inputs[1..] == [];
      }
    }
  }

  /** While it runs, a release or a result is always possible. */
  lemma EndingIsNeverStuck(cfg: Config, s: State)
    requires Ending(cfg, s)
    ensures !Drained(s)
  {
    var m := Mon(s.log);
    if s.operation {
      var kind := if m.residency.Coming? then StartKind else StopKind;
      assert ClosingInput(s, Input(Result(kind, Lease(m.residency.alloc, m.gen), Some(0), None), {}, {}));
    } else {
      var id :| id in m.leases;
      assert ClosingInput(s, Input(Release(id, m.issued[id]), {}, {}));
    }
  }

  /**
   Shutdown ends: asked for in any state the loop can be in, it ends at once or
   after at most active + 2 releases and results of any outcome, whatever else is
   sent meanwhile. FinishSettlesCallers and FinishAnswersShutdown say how.
   */
  lemma ShutdownEnds(cfg: Config, s: State, asked: Input, inputs: seq<Input>)
    requires Good(cfg, s) && s.running && asked.event.Shutdown?
    requires Feasible(cfg, s, [asked] + inputs)
    ensures var t := Execute(cfg, s, [asked] + inputs);
      && (t.running ==> Ending(cfg, t) && !Drained(t) && Closings(inputs) < s.active + 2)
      && (!t.running ==> Mon(t.log).finished)
  {
    var all := [asked] + inputs;
    assert all[0] == asked && all[1..] == inputs;
    var u := Handle(cfg, s, asked.event);
    HandleKeeps(cfg, s, asked.event);
    ProgressEnds(cfg, u, asked.dead, asked.refuse);
    var t := Turn(cfg, s, asked);
    LeftAtFirst(cfg, s, asked.event.reply);
    if t.running {
      EndingRun(cfg, t, inputs);
      if Execute(cfg, t, inputs).running { EndingIsNeverStuck(cfg, Execute(cfg, t, inputs)); }
    }
    RunKeeps(cfg, s, all);
  }

  lemma LeftAtFirst(cfg: Config, s: State, r: ReplyId)
    requires Good(cfg, s) && s.running
    ensures Left(HandleShutdown(s, r)) <= s.active + 2
  {
    LogSnoc(s, ShutdownAsked(r));
  }
}

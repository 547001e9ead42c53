/**
 Every run of the scheduler produces a conforming trace. `Inv` ties the loop's
 variables to what the trace shows; every micro-step and every turn keeps it.
 */
module SchedulerSafety {
  import opened Options
  import opened SchedulerTrace
  import opened SchedulerSpec
  import SchedulerTheorems

  predicate LeasesOfCurrent(s: State, m: Monitor) {
    forall id :: id in m.leases ==> id in m.issued && s.current.Some? && m.issued[id] == Lease(s.current.value, m.gen)
  }

  predicate IssuedInPast(m: Monitor) {
    forall id :: id in m.issued ==>
      && id in m.seen && m.issued[id].gen <= m.gen
      && (m.residency.Coming? ==> m.issued[id].gen < m.gen)
      && (!m.residency.Vacant? && m.issued[id].gen == m.gen ==> m.issued[id].alloc == m.residency.alloc)
  }

  predicate WaitingOnce(m: Monitor) {
    && Distinct(m.waiting)
    && forall i :: 0 <= i < |m.waiting| ==> m.waiting[i].id in m.seen && m.waiting[i].id !in m.issued
  }

  predicate ResidencyMatches(s: State, m: Monitor) {
    && s.current == (if m.residency.Vacant? then None else Some(m.residency.alloc))
    && s.operation == (m.residency.Coming? || m.residency.Going?)
    && (m.residency.Stuck? ==> s.cleanupError == Some(m.residency.err))
    && (s.cleanupError.Some? ==> m.residency.Stuck? || (m.residency.Going? && m.shut))
    && (!m.residency.Up? ==> s.active == 0)
    && (m.residency.Coming? ==> !m.poisoned)
    && (m.residency.Up? && !m.shut ==> (m.poisoned <==> s.phase == Failed))
    && (m.residency.Up? ==> s.upstream.Some? && s.upstream == m.url)
    && (m.residency.Vacant? ==> s.upstream.None?)
    && (m.residency.Coming? ==> s.phase == PhaseStarting)
    && (m.residency.Going? ==> s.phase == PhaseStopping || s.phase == Failed)
    && (m.residency.Stuck? ==> s.phase == Failed)
  }

  predicate ShutdownMatches(s: State, m: Monitor) {
    && s.shuttingDown == m.shut && s.replies == m.replies && s.running == !m.finished
    && (m.shut && m.stopFailure.None? && !m.residency.Vacant? && !m.residency.Going? ==> m.stops == 0)
    && (!m.shut ==> m.stops == 0 && m.stopFailure.None?)
  }

  predicate Rel(s: State, m: Monitor) {
    && s.queue == m.waiting
    && s.generation == m.gen
    && s.active == |m.leases|
    && LeasesOfCurrent(s, m)
    && IssuedInPast(m)
    && WaitingOnce(m)
    && ResidencyMatches(s, m)
    && ShutdownMatches(s, m)
  }

  predicate Inv(cfg: Config, s: State) {
    Conforms(cfg, s.log) && Rel(s, Mon(s.log))
  }

  /** `Inv` between turns: a Stop that fails during shutdown has ended the loop. */
  predicate Good(cfg: Config, s: State) {
    Inv(cfg, s) && (s.running ==> Mon(s.log).stopFailure.None?)
  }

  // ---- Leaving the queue ----

  lemma {:induction false} WithoutIndex(q: seq<Waiter>, k: nat)
    requires Distinct(q) && k < |q|
    ensures Without(q, q[k].id) == Remove(q, k)
  {
    var r := Remove(q, k);
    if k == 0 {
      assert r == q[1..];
    } else {
      var t := q[1..];
      assert q[0].id != q[k].id && t[k - 1] == q[k];
      forall i, j | 0 <= i < j < |t| ensures t[i].id != t[j].id { assert t[i] == q[i + 1] && t[j] == q[j + 1]; }
      WithoutIndex(t, k - 1);
      assert r == [q[0]] + Remove(t, k - 1);
    }
  }

  lemma RemoveKeepsWaitingOnce(m: Monitor, k: nat)
    requires WaitingOnce(m) && k < |m.waiting|
    ensures WaitingOnce(m.(waiting := Remove(m.waiting, k)))
  {
    var r := Remove(m.waiting, k);
    forall i | 0 <= i < |r|
      ensures r[i] == m.waiting[if i < k then i else i + 1]
    {}
  }

  lemma WithdrawKeeps(cfg: Config, s: State, k: nat)
    requires Inv(cfg, s) && s.running && k < |s.queue|
    ensures Inv(cfg, Withdraw(s, k))
    ensures Mon(Withdraw(s, k).log) == Mon(s.log).(waiting := Withdraw(s, k).queue)
  {
    var m := Mon(s.log);
    Extend(cfg, s.log, Withdrawn(s.queue[k].id));
    WithoutIndex(s.queue, k);
    RemoveKeepsWaitingOnce(m, k);
  }

  lemma DenyKeeps(cfg: Config, s: State, k: nat, err: Error)
    requires Inv(cfg, s) && s.running && k < |s.queue|
    requires MayDeny(Mon(s.log), s.queue[k], err)
    ensures Inv(cfg, Deny(s, k, err))
    ensures Mon(Deny(s, k, err).log) == Mon(s.log).(waiting := Deny(s, k, err).queue)
  {
    var m := Mon(s.log);
    Extend(cfg, s.log, Denied(s.queue[k].id, err));
    WithoutIndex(s.queue, k);
    RemoveKeepsWaitingOnce(m, k);
  }

  lemma GrantKeeps(cfg: Config, s: State)
    requires Inv(cfg, s) && s.running && Grantable(cfg, s)
    requires Mon(s.log).residency.Up? && !Mon(s.log).poisoned && !Mon(s.log).shut
    ensures Inv(cfg, Grant(s))
  {
    Extend(cfg, s.log, Granted(s.queue[0].id, Lease(s.current.value, s.generation), s.upstream));
    GrantRel(cfg, s, Mon(s.log));
  }

  lemma GrantRel(cfg: Config, s: State, m: Monitor)
    requires Rel(s, m) && Grantable(cfg, s) && m.residency.Up? && !m.poisoned && !m.shut
    ensures Rel(Grant(s), Track(m, Granted(s.queue[0].id, Lease(s.current.value, s.generation), s.upstream)))
    ensures s.queue[0].id !in m.leases
  {
    var l := Lease(s.current.value, s.generation);
    assert s.queue[0].id !in m.leases;
    GrantKeepsWaitingOnce(m, l, s.upstream);
  }

  lemma GrantKeepsWaitingOnce(m: Monitor, l: Lease, up: Option<Url>)
    requires WaitingOnce(m) && m.waiting != []
    ensures Without(m.waiting, m.waiting[0].id) == m.waiting[1..]
    ensures WaitingOnce(Track(m, Granted(m.waiting[0].id, l, up)))
  {
    RemoveKeepsWaitingOnce(m, 0);
    assert Remove(m.waiting, 0) == m.waiting[1..];
  }

  // ---- The loops ----

  /** The parts of the state that leaving the queue cannot change. */
  predicate SameButQueue(s: State, t: State) {
    t == s.(queue := t.queue, log := t.log, active := t.active)
  }

  /** `t` is `s` after callers left the queue, and nothing else. */
  predicate LeftQueue(cfg: Config, s: State, t: State) {
    Inv(cfg, t) && SameButQueue(s, t) && t.active == s.active && Mon(t.log) == Mon(s.log).(waiting := t.queue)
  }

  lemma LeaveKeeps(cfg: Config, s: State, k: nat)
    requires Inv(cfg, s) && s.running && k < |s.queue|
    ensures LeftQueue(cfg, s, Withdraw(s, k))
  {
    WithdrawKeeps(cfg, s, k);
  }

  lemma LeftTwice(cfg: Config, s: State, t: State, u: State)
    requires LeftQueue(cfg, s, t) && LeftQueue(cfg, t, u)
    ensures LeftQueue(cfg, s, u)
  {}

  lemma {:induction false} PruneKeeps(cfg: Config, s: State, k: nat, dead: set<RequestId>)
    requires Inv(cfg, s) && s.running && k <= |s.queue|
    ensures LeftQueue(cfg, s, Prune(s, k, dead))
    decreases |s.queue| - k
  {
    if k == |s.queue| {
    } else if s.queue[k].id in dead {
      var t := Withdraw(s, k);
      LeaveKeeps(cfg, s, k);
      PruneKeeps(cfg, t, k, dead);
      LeftTwice(cfg, s, t, Prune(t, k, dead));
    } else {
      PruneKeeps(cfg, s, k + 1, dead);
    }
  }

  /** Whoever waits for this allocation may be denied with this error. */
  ghost predicate Deniable(m: Monitor, a: Allocation, err: Error) {
    forall w: Waiter :: w.alloc == a ==> MayDeny(m, w, err)
  }

  lemma DeniableIgnoresQueue(m: Monitor, q: seq<Waiter>, a: Allocation, err: Error)
    ensures Deniable(m.(waiting := q), a, err) == Deniable(m, a, err)
  {
    assert forall w: Waiter :: MayDeny(m.(waiting := q), w, err) == MayDeny(m, w, err);
  }

  lemma {:induction false} DenyAllKeeps(cfg: Config, s: State, err: Error)
    requires Inv(cfg, s) && s.running
    requires forall a :: Deniable(Mon(s.log), a, err)
    ensures LeftQueue(cfg, s, DenyAll(s, err)) && DenyAll(s, err).queue == []
    decreases |s.queue|
  {
    if s.queue != [] {
      var t := Deny(s, 0, err);
      assert Deniable(Mon(s.log), s.queue[0].alloc, err);
      DenyKeeps(cfg, s, 0, err);
      forall a ensures Deniable(Mon(t.log), a, err) { DeniableIgnoresQueue(Mon(s.log), t.queue, a, err); }
      DenyAllKeeps(cfg, t, err);
      LeftTwice(cfg, s, t, DenyAll(t, err));
    }
  }

  lemma {:induction false} DenyForKeeps(cfg: Config, s: State, k: nat, a: Allocation, err: Error)
    requires Inv(cfg, s) && s.running && k <= |s.queue|
    requires Deniable(Mon(s.log), a, err)
    ensures LeftQueue(cfg, s, DenyFor(s, k, a, err))
    decreases |s.queue| - k
  {
    if k == |s.queue| {
    } else if s.queue[k].alloc == a {
      var t := Deny(s, k, err);
      DenyKeeps(cfg, s, k, err);
      DeniableIgnoresQueue(Mon(s.log), t.queue, a, err);
      DenyForKeeps(cfg, t, k, a, err);
      LeftTwice(cfg, s, t, DenyFor(t, k, a, err));
    } else {
      DenyForKeeps(cfg, s, k + 1, a, err);
    }
  }

  lemma {:induction false} CancelKeeps(cfg: Config, s: State, k: nat, id: RequestId)
    requires Inv(cfg, s) && s.running && k <= |s.queue|
    ensures Inv(cfg, CancelFrom(s, k, id))
    ensures Mon(CancelFrom(s, k, id).log) == Mon(s.log).(waiting := CancelFrom(s, k, id).queue)
    decreases |s.queue| - k
  {
    if k == |s.queue| {
    } else if s.queue[k].id == id {
      WithdrawKeeps(cfg, s, k);
    } else {
      CancelKeeps(cfg, s, k + 1, id);
    }
  }

  lemma {:induction false} GrantAllKeeps(cfg: Config, s: State, refuse: set<RequestId>)
    requires Inv(cfg, s) && s.running
    requires Mon(s.log).residency.Up? && !Mon(s.log).poisoned && !Mon(s.log).shut
    ensures Inv(cfg, GrantAll(cfg, s, refuse)) && SameButQueue(s, GrantAll(cfg, s, refuse))
    ensures var m := Mon(GrantAll(cfg, s, refuse).log); m.residency.Up? && !m.poisoned && !m.shut
    decreases |s.queue|
  {
    if !Grantable(cfg, s) {
    } else if s.queue[0].id in refuse {
      WithdrawKeeps(cfg, s, 0);
      Extend(cfg, s.log, Withdrawn(s.queue[0].id));
      GrantAllKeeps(cfg, Withdraw(s, 0), refuse);
    } else {
      GrantKeeps(cfg, s);
      Extend(cfg, s.log, Granted(s.queue[0].id, Lease(s.current.value, s.generation), s.upstream));
      GrantAllKeeps(cfg, Grant(s), refuse);
    }
  }

  // ---- start, stop, finish ----

  lemma BeginKeeps(cfg: Config, s: State)
    requires Inv(cfg, s) && s.running && !s.shuttingDown && s.current.None? && s.queue != []
    ensures Inv(cfg, Begin(s, s.queue[0].alloc))
  {
    Extend(cfg, s.log, Starting(Lease(s.queue[0].alloc, s.generation + 1)));
    assert Mon(s.log).leases == {};
  }

  lemma StopKeeps(cfg: Config, s: State)
    requires Inv(cfg, s) && s.running && s.current.Some? && !s.operation && s.active == 0
    requires Mon(s.log).stopFailure.None? && (s.cleanupError.Some? ==> s.shuttingDown)
    ensures Good(cfg, Stop(s))
  {
    Extend(cfg, s.log, Stopping(Lease(s.current.value, s.generation)));
    assert Mon(s.log).leases == {};
  }

  lemma FinishKeeps(cfg: Config, s: State, result: Option<Error>)
    requires Inv(cfg, s) && s.running && s.shuttingDown && s.queue == [] && s.active == 0
    requires var m := Mon(s.log);
      (m.residency.Vacant? && result.None?) || (m.residency.Stuck? && m.stopFailure.Some? && result == m.stopFailure)
    ensures Inv(cfg, Finish(s, result))
  {
    Extend(cfg, s.log, Finished(result, s.replies));
    FinishRel(s, Mon(s.log), result);
  }

  lemma FinishRel(s: State, m: Monitor, result: Option<Error>)
    requires Rel(s, m) && s.active == 0
    ensures Rel(Finish(s, result), Track(m, Finished(result, s.replies))) && m.leases == {}
  {}

  // ---- progress ----

  lemma ProgressShutdownKeeps(cfg: Config, s: State)
    requires Good(cfg, s) && s.running && s.shuttingDown
    ensures Good(cfg, ProgressShutdown(s))
  {
    DenyAllKeeps(cfg, s, ShuttingDown);
    var s := DenyAll(s, ShuttingDown);
    if s.operation || s.active > 0 {
    } else if s.current.Some? {
      StopKeeps(cfg, s);
    } else {
      FinishKeeps(cfg, s, None);
    }
  }

  lemma ServeKeeps(cfg: Config, s: State, refuse: set<RequestId>)
    requires Good(cfg, s) && s.running && !s.shuttingDown
    requires s.current.Some? && !s.operation && s.cleanupError.None? && s.phase != Failed
    ensures Good(cfg, Serve(cfg, s, refuse))
  {
    if s.queue == [] {
    } else if s.queue[0].alloc != s.current.value {
      var s := s.(phase := Draining);
      if s.active == 0 { StopKeeps(cfg, s); }
    } else {
      GrantAllKeeps(cfg, s.(phase := Ready), refuse);
    }
  }

  lemma AdvanceKeeps(cfg: Config, s: State, refuse: set<RequestId>)
    requires Good(cfg, s) && s.running && !s.shuttingDown
    ensures Good(cfg, Advance(cfg, s, refuse))
  {
    if s.operation || s.cleanupError.Some? {
    } else if s.phase == Failed && s.current.Some? {
      if s.active == 0 { StopKeeps(cfg, s); }
    } else if s.current.None? {
      if s.queue != [] { BeginKeeps(cfg, s.(phase := Unloaded)); }
    } else {
      ServeKeeps(cfg, s, refuse);
    }
  }

  lemma ProgressKeeps(cfg: Config, s: State, dead: set<RequestId>, refuse: set<RequestId>)
    requires Good(cfg, s) && s.running
    ensures Good(cfg, Progress(cfg, s, dead, refuse))
  {
    PruneKeeps(cfg, s, 0, dead);
    var s := Prune(s, 0, dead);
    if s.shuttingDown { ProgressShutdownKeeps(cfg, s); } else { AdvanceKeeps(cfg, s, refuse); }
  }

  // ---- events ----

  lemma AcceptKeeps(cfg: Config, s: State, id: RequestId, a: Allocation)
    requires Good(cfg, s) && s.running && id !in Mon(s.log).seen
    requires !s.shuttingDown && s.cleanupError.None? && |s.queue| < cfg.queueMax
    ensures Good(cfg, HandleRequest(cfg, s, id, a))
  {
    Extend(cfg, s.log, Accepted(id, a));
  }

  lemma TurnAwayKeeps(cfg: Config, s: State, id: RequestId, a: Allocation)
    requires Good(cfg, s) && s.running && id !in Mon(s.log).seen
    requires s.shuttingDown || s.cleanupError.Some? || |s.queue| >= cfg.queueMax
    ensures Good(cfg, HandleRequest(cfg, s, id, a))
  {
    Extend(cfg, s.log, TurnedAway(id, Refusal(Mon(s.log))));
  }

  lemma ReleaseKeeps(cfg: Config, s: State, id: RequestId, l: Lease)
    requires Good(cfg, s) && Enabled(Mon(s.log), Release(id, l))
    ensures Good(cfg, HandleRelease(s, id, l))
  {
    Extend(cfg, s.log, Released(id));
  }

  lemma FailureMatches(s: State, m: Monitor, l: Lease, err: Error)
    requires Rel(s, m)
    requires l.gen == m.gen && !m.residency.Vacant? ==> l.alloc == m.residency.alloc
    requires l.gen == m.gen ==> !m.residency.Coming?
    ensures ResidencyMatches(HandleFailure(s, l, err), Track(m, LeaseFailed(l, err)))
  {}

  lemma FailureRel(s: State, m: Monitor, id: RequestId, l: Lease, err: Error)
    requires Rel(s, m) && id in m.issued && m.issued[id] == l
    ensures Rel(HandleFailure(s, l, err), Track(m, LeaseFailed(l, err)))
  {
    var t, n := HandleFailure(s, l, err), Track(m, LeaseFailed(l, err));
    FailureMatches(s, m, l, err);
    assert n == m.(poisoned := n.poisoned);
    assert t == s.(phase := t.phase, lastError := t.lastError, log := s.log + [LeaseFailed(l, err)]);
    assert IssuedInPast(n) && WaitingOnce(n);
    assert LeasesOfCurrent(t, n) && ShutdownMatches(t, n);
  }

  lemma FailureKeeps(cfg: Config, s: State, id: RequestId, l: Lease, err: Error)
    requires Good(cfg, s) && Enabled(Mon(s.log), Failure(id, l, err))
    ensures Good(cfg, HandleFailure(s, l, err))
  {
    var m := Mon(s.log);
    Extend(cfg, s.log, LeaseFailed(l, err));
    assert WasIssued(m, l);
    FailureRel(s, m, id, l, err);
    assert HandleFailure(s, l, err).log == s.log + [LeaseFailed(l, err)];
  }

  /** The stale-result branch of the loop is never taken. */
  lemma ResultIsNeverStale(cfg: Config, s: State, kind: OperationKind, l: Lease, up: Option<Url>, err: Option<Error>)
    requires Inv(cfg, s) && Enabled(Mon(s.log), Result(kind, l, up, err))
    ensures s.operation && !Stale(s, l) && s.active == 0
  {}

  lemma StartOkKeeps(cfg: Config, s: State, up: Url)
    requires Good(cfg, s) && s.running && Mon(s.log).residency.Coming?
    ensures Good(cfg, HandleStarted(s.(operation := false, operationCancel := false), Some(up), None))
  {
    Extend(cfg, s.log, Started(up));
  }

  lemma StartDirtyKeeps(cfg: Config, s: State, up: Option<Url>, cause: Error)
    requires Good(cfg, s) && s.running && Mon(s.log).residency.Coming? && Dirty(cause)
    ensures Good(cfg, HandleStarted(s.(operation := false, operationCancel := false), up, Some(cause)))
  {
    var e := StartError(s.current.value, cause);
    Extend(cfg, s.log, StartFailed(cause));
    DenyAllKeeps(cfg, Note(s, StartFailed(cause)).(operation := false, operationCancel := false,
      lastError := Some(cause), phase := Failed, cleanupError := Some(e)), e);
  }

  lemma StartCleanKeeps(cfg: Config, s: State, up: Option<Url>, err: Option<Error>)
    requires Good(cfg, s) && s.running && Mon(s.log).residency.Coming?
    requires if err.None? then up.None? else !Dirty(err.value)
    ensures Good(cfg, HandleStarted(s.(operation := false, operationCancel := false), up, err))
  {
    var cause := if err.None? then NoUpstream else err.value;
    var a := s.current.value;
    Extend(cfg, s.log, StartFailed(cause));
    DenyForKeeps(cfg, Note(s, StartFailed(cause)).(operation := false, operationCancel := false,
      lastError := Some(cause), current := None, upstream := None, phase := Unloaded), 0, a, StartError(a, cause));
  }

  lemma StopOkKeeps(cfg: Config, s: State)
    requires Good(cfg, s) && s.running && Mon(s.log).residency.Going?
    ensures Good(cfg, HandleStopped(s.(operation := false, operationCancel := false), None))
  {
    Extend(cfg, s.log, Stopped);
  }

  lemma StopFailedKeeps(cfg: Config, s: State, err: Error)
    requires Good(cfg, s) && s.running && Mon(s.log).residency.Going?
    ensures Good(cfg, HandleStopped(s.(operation := false, operationCancel := false), Some(err)))
  {
    var e := StopError(s.current.value, err);
    var t := AfterStopFailed(s, err);
    StopFailedHolds(cfg, s, err);
    DenyAllKeeps(cfg, t, e);
    if t.shuttingDown { FinishKeeps(cfg, DenyAll(t, e), Some(err)); }
  }

  /** The state before the waiters are told. */
  function AfterStopFailed(s: State, err: Error): State
    requires s.current.Some?
  {
    Note(s, StopFailed(err)).(operation := false, operationCancel := false,
      phase := Failed, lastError := Some(err), cleanupError := Some(StopError(s.current.value, err)))
  }

  lemma StopFailedHolds(cfg: Config, s: State, err: Error)
    requires Good(cfg, s) && s.running && Mon(s.log).residency.Going?
    ensures var t := AfterStopFailed(s, err); var m := Mon(t.log);
      && Inv(cfg, t) && (forall a :: Deniable(m, a, StopError(s.current.value, err)))
      && m.residency.Stuck? && m.stopFailure == if t.shuttingDown then Some(err) else None
  {
    Extend(cfg, s.log, StopFailed(err));
  }

  lemma ResultKeeps(cfg: Config, s: State, kind: OperationKind, l: Lease, up: Option<Url>, err: Option<Error>)
    requires Good(cfg, s) && Enabled(Mon(s.log), Result(kind, l, up, err))
    ensures Good(cfg, HandleResult(s, kind, l, up, err))
  {
    ResultIsNeverStale(cfg, s, kind, l, up, err);
    if kind.StopKind? {
      if err.None? { StopOkKeeps(cfg, s); } else { StopFailedKeeps(cfg, s, err.value); }
    } else if err.None? && up.Some? {
      StartOkKeeps(cfg, s, up.value);
    } else if err.Some? && Dirty(err.value) {
      StartDirtyKeeps(cfg, s, up, err.value);
    } else {
      StartCleanKeeps(cfg, s, up, err);
    }
  }

  lemma ShutdownKeeps(cfg: Config, s: State, r: ReplyId)
    requires Good(cfg, s) && s.running
    ensures Good(cfg, HandleShutdown(s, r))
  {
    Extend(cfg, s.log, ShutdownAsked(r));
    ShutdownRel(s, Mon(s.log), r);
  }

  lemma ShutdownRel(s: State, m: Monitor, r: ReplyId)
    requires Rel(s, m) && s.running && m.stopFailure.None?
    ensures Rel(HandleShutdown(s, r), Track(m, ShutdownAsked(r)))
  {}

  lemma HandleKeeps(cfg: Config, s: State, ev: Event)
    requires Good(cfg, s) && Enabled(Mon(s.log), ev)
    ensures Good(cfg, Handle(cfg, s, ev))
  {
    match ev
    case Request(id, a) =>
      if !s.shuttingDown && s.cleanupError.None? && |s.queue| < cfg.queueMax {
        AcceptKeeps(cfg, s, id, a);
      } else {
        TurnAwayKeeps(cfg, s, id, a);
      }
    case Cancel(id) => CancelKeeps(cfg, s, 0, id);
    case Release(id, l) => ReleaseKeeps(cfg, s, id, l);
    case Failure(id, l, err) => FailureKeeps(cfg, s, id, l, err);
    case Result(kind, l, up, err) => ResultKeeps(cfg, s, kind, l, up, err);
    case Status =>
    case Shutdown(r) => ShutdownKeeps(cfg, s, r);
  }

  lemma TurnKeeps(cfg: Config, s: State, input: Input)
    requires Good(cfg, s) && Enabled(Mon(s.log), input.event)
    ensures Good(cfg, Turn(cfg, s, input))
  {
    HandleKeeps(cfg, s, input.event);
    var s := Handle(cfg, s, input.event);
    if s.running { ProgressKeeps(cfg, s, input.dead, input.refuse); }
  }

  lemma {:induction false} RunKeeps(cfg: Config, s: State, inputs: seq<Input>)
    requires Good(cfg, s) && Feasible(cfg, s, inputs)
    ensures Good(cfg, Execute(cfg, s, inputs))
    decreases |inputs|
  {
    if inputs != [] {
      TurnKeeps(cfg, s, inputs[0]);
      RunKeeps(cfg, Turn(cfg, s, inputs[0]), inputs[1..]);
    }
  }

  /** Every run: any events its environment can send, any cancellations, any races. */
  lemma EveryRunConforms(cfg: Config, inputs: seq<Input>)
    requires Feasible(cfg, Start0, inputs)
    ensures Good(cfg, Execute(cfg, Start0, inputs))
    ensures Conforms(cfg, Execute(cfg, Start0, inputs).log)
  {
    RunKeeps(cfg, Start0, inputs);
  }

  /**
   In every reachable state: `active` counts exactly the delivered leases that
   are not released, all of the current generation; it is zero during any
   operation; and the queue and a positive concurrency limit are respected.
   */
  lemma ActiveCountsLeases(cfg: Config, inputs: seq<Input>, held: set<RequestId>)
    requires Feasible(cfg, Start0, inputs)
    requires forall id :: id in held <==> SchedulerTheorems.Outstanding(Execute(cfg, Start0, inputs).log, id)
    ensures var s := Execute(cfg, Start0, inputs);
      && s.active == |held|
      && (s.operation ==> s.active == 0)
      && |s.queue| <= cfg.queueMax
      && (s.current.Some? && s.current.value in cfg.limits && cfg.limits[s.current.value] > 0 ==>
           s.active <= cfg.limits[s.current.value])
    ensures var s := Execute(cfg, Start0, inputs); forall id :: id in held ==>
      && id in Mon(s.log).issued && s.current.Some?
      && Mon(s.log).issued[id] == Lease(s.current.value, s.generation)
  {
    var s := Execute(cfg, Start0, inputs);
    EveryRunConforms(cfg, inputs);
    SchedulerTheorems.BoundsHold(cfg, s.log);
    forall id ensures id in held <==> id in Mon(s.log).leases { SchedulerTheorems.LeasesAreOutstanding(s.log, id); }
    assert held == Mon(s.log).leases;
  }
}

/**
 The scheduler's goroutine: its variables as fields, its closures and select cases
 as methods. `Abs` is the state of `SchedulerSpec`; every method is proved
 to compute exactly the corresponding step, so the theorems about runs hold of it.
 */
module Scheduler {
  import opened Options
  import opened SchedulerTrace
  import Spec = SchedulerSpec
  import Safety = SchedulerSafety

  // ---- What the queue loops keep and note ----

  function Others(q: seq<Waiter>, a: Allocation): seq<Waiter> {
    if q == [] then [] else (if q[0].alloc == a then [] else [q[0]]) + Others(q[1..], a)
  }

  function Denials(q: seq<Waiter>, a: Allocation, err: Error): seq<Entry> {
    if q == [] then [] else (if q[0].alloc == a then [Denied(q[0].id, err)] else []) + Denials(q[1..], a, err)
  }

  function Living(q: seq<Waiter>, dead: set<RequestId>): seq<Waiter> {
    if q == [] then [] else (if q[0].id in dead then [] else [q[0]]) + Living(q[1..], dead)
  }

  function Departures(q: seq<Waiter>, dead: set<RequestId>): seq<Entry> {
    if q == [] then [] else (if q[0].id in dead then [Withdrawn(q[0].id)] else []) + Departures(q[1..], dead)
  }

  lemma OthersStep(q: seq<Waiter>, i: nat, a: Allocation, err: Error)
    requires i < |q|
    ensures q[i].alloc == a ==>
      Others(q[i..], a) == Others(q[i + 1..], a) && Denials(q[i..], a, err) == [Denied(q[i].id, err)] + Denials(q[i + 1..], a, err)
    ensures q[i].alloc != a ==>
      Others(q[i..], a) == [q[i]] + Others(q[i + 1..], a) && Denials(q[i..], a, err) == Denials(q[i + 1..], a, err)
  {
    assert q[i..][0] == q[i] && q[i..][1..] == q[i + 1..];
  }

  lemma LivingStep(q: seq<Waiter>, i: nat, dead: set<RequestId>)
    requires i < |q|
    ensures q[i].id in dead ==>
      Living(q[i..], dead) == Living(q[i + 1..], dead) && Departures(q[i..], dead) == [Withdrawn(q[i].id)] + Departures(q[i + 1..], dead)
    ensures q[i].id !in dead ==>
      Living(q[i..], dead) == [q[i]] + Living(q[i + 1..], dead) && Departures(q[i..], dead) == Departures(q[i + 1..], dead)
  {
    assert q[i..][0] == q[i] && q[i..][1..] == q[i + 1..];
  }

  lemma AppendOne<T>(a: seq<T>, x: T, b: seq<T>)
    ensures a + ([x] + b) == a + [x] + b
  {}

  lemma RemoveAt(q: seq<Waiter>, k: nat)
    requires k < |q|
    ensures Spec.Remove(q, k)[..k] == q[..k] && Spec.Remove(q, k)[k..] == q[k + 1..] == q[k..][1..]
    ensures q[..k + 1] == q[..k] + [q[k]]
  {}

  lemma {:induction false} DenyForIs(s: Spec.State, k: nat, a: Allocation, err: Error)
    requires k <= |s.queue|
    ensures Spec.DenyFor(s, k, a, err)
         == s.(queue := s.queue[..k] + Others(s.queue[k..], a), log := s.log + Denials(s.queue[k..], a, err))
    decreases |s.queue| - k
  {
    if k < |s.queue| {
      RemoveAt(s.queue, k);
      OthersStep(s.queue, k, a, err);
      if s.queue[k].alloc == a {
        DenyForIs(Spec.Deny(s, k, err), k, a, err);
        AppendOne(s.log, Denied(s.queue[k].id, err), Denials(s.queue[k + 1..], a, err));
      } else {
        DenyForIs(s, k + 1, a, err);
        AppendOne(s.queue[..k], s.queue[k], Others(s.queue[k + 1..], a));
      }
    }
  }

  lemma {:induction false} PruneIs(s: Spec.State, k: nat, dead: set<RequestId>)
    requires k <= |s.queue|
    ensures Spec.Prune(s, k, dead)
         == s.(queue := s.queue[..k] + Living(s.queue[k..], dead), log := s.log + Departures(s.queue[k..], dead))
    decreases |s.queue| - k
  {
    if k < |s.queue| {
      RemoveAt(s.queue, k);
      LivingStep(s.queue, k, dead);
      if s.queue[k].id in dead {
        PruneIs(Spec.Withdraw(s, k), k, dead);
        AppendOne(s.log, Withdrawn(s.queue[k].id), Departures(s.queue[k + 1..], dead));
      } else {
        PruneIs(s, k + 1, dead);
        AppendOne(s.queue[..k], s.queue[k], Living(s.queue[k + 1..], dead));
      }
    }
  }

  lemma {:induction false} DenyAllIs(s: Spec.State, err: Error)
    ensures Spec.DenyAll(s, err) == s.(queue := [], log := s.log + Refusals(s.queue, err))
    decreases |s.queue|
  {
    if s.queue != [] {
      var t := Spec.Deny(s, 0, err);
      assert t.queue == s.queue[1..];
      DenyAllIs(t, err);
      assert t.log + Refusals(t.queue, err) == s.log + Refusals(s.queue, err);
    }
  }

  function Refusals(q: seq<Waiter>, err: Error): seq<Entry> {
    if q == [] then [] else [Denied(q[0].id, err)] + Refusals(q[1..], err)
  }

  lemma GrantStep(cfg: Config, s: Spec.State, refuse: set<RequestId>)
    requires Spec.Grantable(cfg, s)
    ensures Spec.GrantAll(cfg, s, refuse)
         == if s.queue[0].id in refuse
            then Spec.GrantAll(cfg, s.(queue := s.queue[1..], log := s.log + [Withdrawn(s.queue[0].id)]), refuse)
            else Spec.GrantAll(cfg, Spec.Grant(s), refuse)
  {
    assert Spec.Remove(s.queue, 0) == s.queue[1..];
  }

  class EventLoop {
    const cfg: Config
    var phase: Spec.Phase
    var current: Option<Allocation>
    var upstream: Option<Url>
    var generation: nat
    var active: nat
    var queue: seq<Waiter>
    var operation: bool
    var operationCancel: bool
    var shuttingDown: bool
    var replies: seq<ReplyId>
    var lastError: Option<Error>
    var cleanupError: Option<Error>
    var running: bool
    ghost var log: seq<Entry>

    ghost function Abs(): Spec.State
      reads this
    {
      Spec.State(phase, current, upstream, generation, active, queue, operation, operationCancel,
                 shuttingDown, replies, lastError, cleanupError, running, log)
    }

    ghost predicate Valid()
      reads this
    {
      Safety.Good(cfg, Abs())
    }

    constructor (cfg: Config)
      ensures this.cfg == cfg && Abs() == Spec.Start0 && Valid()
    {
      this.cfg := cfg;
      phase, current, upstream, generation, active := Spec.Unloaded, None, None, 0, 0;
      queue, operation, operationCancel, shuttingDown := [], false, false, false;
      replies, lastError, cleanupError, running, log := [], None, None, true, [];
    }

    // ---- the closures ----

    method Prune(dead: set<RequestId>)
      modifies this
      ensures Abs() == Spec.Prune(old(Abs()), 0, dead)
    {
      PruneIs(Abs(), 0, dead);
      assert queue[..0] == [];
      ghost var noted;
      queue, noted := KeepLiving(queue, dead);
      log := log + noted;
    }

    static method KeepLiving(all: seq<Waiter>, dead: set<RequestId>) returns (kept: seq<Waiter>, ghost noted: seq<Entry>)
      ensures kept == [] + Living(all[0..], dead) && noted == Departures(all[0..], dead)
    {
      kept, noted := [], [];
      for i := 0 to |all|
        invariant Living(all[0..], dead) == kept + Living(all[i..], dead)
        invariant Departures(all[0..], dead) == noted + Departures(all[i..], dead)
      {
        LivingStep(all, i, dead);
        if all[i].id !in dead {
          AppendOne(kept, all[i], Living(all[i + 1..], dead));
          kept := kept + [all[i]];
        } else {
          AppendOne(noted, Withdrawn(all[i].id), Departures(all[i + 1..], dead));
          noted := noted + [Withdrawn(all[i].id)];
        }
      }
    }

    method FailWaiters(err: Error)
      modifies this
      ensures Abs() == Spec.DenyAll(old(Abs()), err)
    {
      DenyAllIs(Abs(), err);
      ghost var noted := RefuseEach(queue, err);
      queue, log := [], log + noted;
    }

    static method RefuseEach(all: seq<Waiter>, err: Error) returns (ghost noted: seq<Entry>)
      ensures noted == Refusals(all, err)
    {
      noted := [];
      assert all[0..] == all;
      for i := 0 to |all|
        invariant Refusals(all, err) == noted + Refusals(all[i..], err)
      {
        assert all[i..][0] == all[i] && all[i..][1..] == all[i + 1..];
        AppendOne(noted, Denied(all[i].id, err), Refusals(all[i + 1..], err));
        noted := noted + [Denied(all[i].id, err)];
      }
      assert noted + [] == noted;
    }

    method FailWaitersFor(a: Allocation, err: Error)
      modifies this
      ensures Abs() == Spec.DenyFor(old(Abs()), 0, a, err)
    {
      DenyForIs(Abs(), 0, a, err);
      assert queue[..0] == [];
      ghost var noted;
      queue, noted := KeepOthers(queue, a, err);
      log := log + noted;
    }

    static method KeepOthers(all: seq<Waiter>, a: Allocation, err: Error) returns (kept: seq<Waiter>, ghost noted: seq<Entry>)
      ensures kept == [] + Others(all[0..], a) && noted == Denials(all[0..], a, err)
    {
      kept, noted := [], [];
      for i := 0 to |all|
        invariant Others(all[0..], a) == kept + Others(all[i..], a)
        invariant Denials(all[0..], a, err) == noted + Denials(all[i..], a, err)
      {
        OthersStep(all, i, a, err);
        if all[i].alloc == a {
          AppendOne(noted, Denied(all[i].id, err), Denials(all[i + 1..], a, err));
          noted := noted + [Denied(all[i].id, err)];
        } else {
          AppendOne(kept, all[i], Others(all[i + 1..], a));
          kept := kept + [all[i]];
        }
      }
    }

    method Start(a: Allocation)
      modifies this
      ensures Abs() == Spec.Begin(old(Abs()), a)
    {
      operation, phase, current, generation, operationCancel := true, Spec.PhaseStarting, Some(a), generation + 1, true;
      log := log + [Starting(Lease(a, generation))];
    }

    method Stop()
      requires current.Some?
      modifies this
      ensures Abs() == Spec.Stop(old(Abs()))
    {
      operation, phase, operationCancel := true, Spec.PhaseStopping, false;
      log := log + [Stopping(Lease(current.value, generation))];
    }

    method Finish(result: Option<Error>)
      modifies this
      ensures Abs() == Spec.Finish(old(Abs()), result)
    {
      running := false;
      log := log + [Finished(result, replies)];
    }

    method GrantWaiters(refuse: set<RequestId>)
      modifies this
      ensures Abs() == Spec.GrantAll(cfg, old(Abs()), refuse)
    {
      ghost var noted;
      queue, active, noted := Deliver(cfg, Abs(), current, generation, upstream, queue, active, refuse);
      log := noted;
    }

    static method Deliver(cfg: Config, ghost was: Spec.State, current: Option<Allocation>, generation: nat,
                          upstream: Option<Url>, all: seq<Waiter>, holding: nat, refuse: set<RequestId>)
      returns (queue: seq<Waiter>, active: nat, ghost noted: seq<Entry>)
      requires was.current == current && was.generation == generation && was.upstream == upstream
      requires was.queue == all && was.active == holding
      ensures Spec.GrantAll(cfg, was, refuse) == was.(queue := queue, active := active, log := noted)
    {
      queue, active, noted := all, holding, was.log;
      while queue != [] && current == Some(queue[0].alloc) &&
            (Limit(cfg, queue[0].alloc) == 0 || active < Limit(cfg, queue[0].alloc))
        invariant Spec.GrantAll(cfg, was, refuse)
               == Spec.GrantAll(cfg, was.(queue := queue, active := active, log := noted), refuse)
        decreases |queue|
      {
        var waiting := queue[0];
        GrantStep(cfg, was.(queue := queue, active := active, log := noted), refuse);
        queue := queue[1..];
        if waiting.id in refuse {
          noted := noted + [Withdrawn(waiting.id)];
        } else {
          active := active + 1;
          noted := noted + [Granted(waiting.id, Lease(current.value, generation), upstream)];
        }
      }
    }

    method Progress(dead: set<RequestId>, refuse: set<RequestId>)
      modifies this
      ensures Abs() == Spec.Progress(cfg, old(Abs()), dead, refuse)
    {
      Prune(dead);
      if shuttingDown {
        FailWaiters(ShuttingDown);
        if operation || active > 0 {
          if active > 0 && !operation { phase := Spec.Draining; }
        } else if current.Some? {
          Stop();
        } else {
          Finish(None);
        }
      } else if operation || cleanupError.Some? {
      } else if phase == Spec.Failed && current.Some? {
        if active == 0 { Stop(); }
      } else if current.None? {
        phase := Spec.Unloaded;
        if queue != [] { Start(queue[0].alloc); }
      } else {
        Serve(refuse);
      }
    }

    method Serve(refuse: set<RequestId>)
      requires current.Some?
      modifies this
      ensures Abs() == Spec.Serve(cfg, old(Abs()), refuse)
    {
      if queue == [] {
        phase := Spec.Ready;
      } else if queue[0].alloc != current.value {
        phase := Spec.Draining;
        if active == 0 { Stop(); }
      } else {
        phase := Spec.Ready;
        GrantWaiters(refuse);
        if queue != [] && current != Some(queue[0].alloc) { phase := Spec.Draining; }
      }
    }

    // ---- the select ----

    method OnRequest(id: RequestId, a: Allocation)
      modifies this
      ensures Abs() == Spec.HandleRequest(cfg, old(Abs()), id, a)
    {
      if shuttingDown {
        log := log + [TurnedAway(id, ShuttingDown)];
      } else if cleanupError.Some? {
        log := log + [TurnedAway(id, cleanupError.value)];
      } else if |queue| >= cfg.queueMax {
        log := log + [TurnedAway(id, QueueFull)];
      } else {
        queue := queue + [Waiter(id, a)];
        log := log + [Accepted(id, a)];
      }
    }

    method OnCancel(id: RequestId)
      modifies this
      ensures Abs() == Spec.CancelFrom(old(Abs()), 0, id)
    {
      var i := 0;
      while i < |queue|
        invariant i <= |queue| && Abs() == old(Abs())
        invariant Spec.CancelFrom(Abs(), 0, id) == Spec.CancelFrom(Abs(), i, id)
      {
        if queue[i].id == id {
          queue := queue[..i] + queue[i + 1..];
          log := log + [Withdrawn(id)];
          return;
        }
        i := i + 1;
      }
    }

    method OnRelease(id: RequestId, l: Lease)
      modifies this
      ensures Abs() == Spec.HandleRelease(old(Abs()), id, l)
    {
      if current == Some(l.alloc) && generation == l.gen && active > 0 { active := active - 1; }
      log := log + [Released(id)];
    }

    method OnFailure(l: Lease, err: Error)
      modifies this
      ensures Abs() == Spec.HandleFailure(old(Abs()), l, err)
    {
      if current == Some(l.alloc) && generation == l.gen && cleanupError.None? {
        phase, lastError := Spec.Failed, Some(err);
      }
      log := log + [LeaseFailed(l, err)];
    }

    method OnResult(kind: Spec.OperationKind, l: Lease, up: Option<Url>, err: Option<Error>)
      modifies this
      ensures Abs() == Spec.HandleResult(old(Abs()), kind, l, up, err)
    {
      operation, operationCancel := false, false;
      if l.gen != generation || current != Some(l.alloc) { return; }
      if kind.StartKind? { OnStarted(up, err); } else { OnStopped(err); }
    }

    method OnStarted(up: Option<Url>, err: Option<Error>)
      requires current.Some?
      modifies this
      ensures Abs() == Spec.HandleStarted(old(Abs()), up, err)
    {
      if err.None? && up.Some? {
        log := log + [Started(up.value)];
        upstream, phase, lastError := up, Spec.Ready, None;
        return;
      }
      OnStartFailed(if err.None? then NoUpstream else err.value);
    }

    method OnStartFailed(cause: Error)
      requires current.Some?
      modifies this
      ensures Abs() == Spec.HandleStarted(old(Abs()), None, Some(cause))
    {
      ghost var was := Abs();
      var failed := current.value;
      var err := StartError(failed, cause);
      lastError := Some(cause);
      log := log + [StartFailed(cause)];
      ghost var noted := Spec.Note(was, StartFailed(cause)).(lastError := Some(cause));
      assert Abs() == noted;
      if Dirty(cause) {
        phase, cleanupError := Spec.Failed, Some(err);
        assert Abs() == noted.(phase := Spec.Failed, cleanupError := Some(err));
        FailWaiters(err);
      } else {
        current, upstream, phase := None, None, Spec.Unloaded;
        assert Abs() == noted.(current := None, upstream := None, phase := Spec.Unloaded);
        FailWaitersFor(failed, err);
      }
    }

    method OnStopped(err: Option<Error>)
      requires current.Some?
      modifies this
      ensures Abs() == Spec.HandleStopped(old(Abs()), err)
    {
      ghost var was := Abs();
      if err.Some? {
        var e := StopError(current.value, err.value);
        log := log + [StopFailed(err.value)];
        phase, lastError, cleanupError := Spec.Failed, err, Some(e);
        assert Abs() == Spec.Note(was, StopFailed(err.value)).(phase := phase, lastError := err, cleanupError := Some(e));
        FailWaiters(e);
        if shuttingDown { Finish(err); }
      } else {
        log := log + [Stopped];
        current, upstream, phase, cleanupError := None, None, Spec.Unloaded, None;
      }
    }

    method OnShutdown(r: ReplyId)
      modifies this
      ensures Abs() == Spec.HandleShutdown(old(Abs()), r)
    {
      replies, shuttingDown := replies + [r], true;
      log := log + [ShutdownAsked(r)];
    }

    /** One turn of the loop: receive an event, then make progress. */
    method Turn(input: Spec.Input)
      requires Valid() && Spec.Enabled(Mon(log), input.event)
      modifies this
      ensures Valid() && Abs() == Spec.Turn(cfg, old(Abs()), input)
    {
      Safety.TurnKeeps(cfg, Abs(), input);
      match input.event {
        case Request(id, a) => OnRequest(id, a);
        case Cancel(id) => OnCancel(id);
        case Release(id, l) => OnRelease(id, l);
        case Failure(_, l, err) => OnFailure(l, err);
        case Result(kind, l, up, err) => OnResult(kind, l, up, err);
        case Status =>
        case Shutdown(r) => OnShutdown(r);
      }
      if running { Progress(input.dead, input.refuse); }
    }
  }
}

/**
 What the gateway scheduler is allowed to do, said about its trace alone.

 A trace records everything the scheduler's goroutine observes and everything it
 does. `Monitor` is what an outside observer knows after a trace, `Admissible`
 is the rule for the next entry, and `Conforms` says that a whole trace follows
 the rules. Nothing in this file mentions the scheduler's own variables.
 */
module SchedulerTrace {
  import opened Options

  datatype Allocation = LlamaCpp | Registered(tag: nat)
  type RequestId = nat
  type ReplyId = nat
  type Url = nat

  datatype Error =
    | QueueFull
    | ShuttingDown
    | NoUpstream
    | Lifecycle(code: nat, cleanup: bool)      // cleanup: wraps backendCleanupError
    | StartError(alloc: Allocation, cause: Error)
    | StopError(alloc: Allocation, cause: Error)

  datatype Config = Config(queueMax: nat, limits: map<Allocation, nat>)

  /** A limit of zero, or no limit at all, means unbounded concurrency. */
  function Limit(cfg: Config, a: Allocation): nat {
    if a in cfg.limits then cfg.limits[a] else 0
  }

  datatype Waiter = Waiter(id: RequestId, alloc: Allocation)
  datatype Lease = Lease(alloc: Allocation, gen: nat)

  datatype Entry =
    | Accepted(id: RequestId, alloc: Allocation)
    | TurnedAway(id: RequestId, err: Error)
    | Granted(id: RequestId, lease: Lease, up: Option<Url>)
    | Withdrawn(id: RequestId)                  // the caller's context is done
    | Denied(id: RequestId, err: Error)
    | Released(id: RequestId)
    | LeaseFailed(lease: Lease, err: Error)
    | Starting(lease: Lease)
    | Started(url: Url)
    | StartFailed(err: Error)
    | Stopping(lease: Lease)
    | Stopped
    | StopFailed(err: Error)
    | ShutdownAsked(reply: ReplyId)
    | Finished(result: Option<Error>, replies: seq<ReplyId>)

  datatype Residency =
    | Vacant
    | Coming(alloc: Allocation)
    | Up(alloc: Allocation)
    | Going(alloc: Allocation)
    | Stuck(alloc: Allocation, err: Error)      // cleanup failed: residency unknown

  datatype Monitor = Monitor(
    residency: Residency,
    gen: nat,
    url: Option<Url>,                           // what the last successful Start returned
    waiting: seq<Waiter>,                       // accepted, not yet answered, in arrival order
    seen: set<RequestId>,
    leases: set<RequestId>,                     // delivered, release not yet processed
    issued: map<RequestId, Lease>,              // delivered at any time
    poisoned: bool,                             // a lease of this generation reported failure
    startFailure: Option<Error>,                // the last completed Start failed cleanly
    shut: bool,
    replies: seq<ReplyId>,
    stops: nat,                                 // Stop calls since shutdown began
    stopFailure: Option<Error>,                 // a Stop that failed after shutdown began
    finished: bool)

  const Initially := Monitor(Vacant, 0, None, [], {}, {}, map[], false, None, false, [], 0, None, false)

  function Without(q: seq<Waiter>, id: RequestId): seq<Waiter> {
    if q == [] then []
    else if q[0].id == id then q[1..]
    else [q[0]] + Without(q[1..], id)
  }

  predicate Waits(q: seq<Waiter>, id: RequestId) {
    exists i :: 0 <= i < |q| && q[i].id == id
  }

  predicate Distinct(q: seq<Waiter>) {
    forall i, j :: 0 <= i < j < |q| ==> q[i].id != q[j].id
  }

  function Track(m: Monitor, e: Entry): Monitor {
    match e
    case Accepted(id, a) => m.(waiting := m.waiting + [Waiter(id, a)], seen := m.seen + {id})
    case TurnedAway(id, _) => m.(seen := m.seen + {id})
    case Granted(id, l, _) =>
      m.(waiting := Without(m.waiting, id), leases := m.leases + {id}, issued := m.issued[id := l])
    case Withdrawn(id) => m.(waiting := Without(m.waiting, id))
    case Denied(id, _) => m.(waiting := Without(m.waiting, id))
    case Released(id) => m.(leases := m.leases - {id})
    case LeaseFailed(l, _) => m.(poisoned := m.poisoned || l.gen == m.gen)
    case Starting(l) => m.(residency := Coming(l.alloc), gen := l.gen, poisoned := false, startFailure := None)
    case Started(up) =>
      m.(residency := if m.residency.Coming? then Up(m.residency.alloc) else m.residency, url := Some(up))
    case StartFailed(err) =>
      if !m.residency.Coming? then m
      else if Dirty(err) then m.(residency := Stuck(m.residency.alloc, StartError(m.residency.alloc, err)))
      else m.(residency := Vacant, startFailure := Some(StartError(m.residency.alloc, err)))
    case Stopping(l) => m.(residency := Going(l.alloc), stops := if m.shut then m.stops + 1 else m.stops)
    case Stopped => m.(residency := Vacant)
    case StopFailed(err) =>
      if !m.residency.Going? then m
      else m.(residency := Stuck(m.residency.alloc, StopError(m.residency.alloc, err)),
              stopFailure := if m.shut then Some(err) else None)
    case ShutdownAsked(r) => m.(shut := true, replies := m.replies + [r])
    case Finished(_, _) => m.(finished := true)
  }

  /** A failed start that could not clean up after itself keeps the allocation. */
  predicate Dirty(err: Error) {
    err.Lifecycle? && err.cleanup
  }

  /** The error for a request that is not queued, by precedence. */
  function Refusal(m: Monitor): Error {
    if m.shut then ShuttingDown else if m.residency.Stuck? then m.residency.err else QueueFull
  }

  predicate MayDeny(m: Monitor, w: Waiter, err: Error) {
    || (m.shut && err == ShuttingDown)
    || (m.residency.Stuck? && err == m.residency.err)
    || (m.residency.Vacant? && m.startFailure == Some(err) && err.StartError? && err.alloc == w.alloc)
  }

  predicate WasIssued(m: Monitor, l: Lease) {
    exists id :: id in m.issued && m.issued[id] == l
  }

  predicate Admissible(cfg: Config, m: Monitor, e: Entry) {
    && !m.finished
    && match e
       case Accepted(id, _) =>
         id !in m.seen && !m.shut && !m.residency.Stuck? && |m.waiting| < cfg.queueMax
       case TurnedAway(id, err) =>
         && id !in m.seen
         && err == Refusal(m)
         && (!m.shut && !m.residency.Stuck? ==> |m.waiting| >= cfg.queueMax)
       case Granted(id, l, up) =>
         && m.waiting != [] && m.waiting[0] == Waiter(id, l.alloc)
         && up.Some? && up == m.url
         && m.residency == Up(l.alloc) && l.gen == m.gen
         && !m.poisoned && !m.shut
         && id !in m.issued
         && (Limit(cfg, l.alloc) == 0 || |m.leases| < Limit(cfg, l.alloc))
       case Withdrawn(id) => Waits(m.waiting, id)
       case Denied(id, err) =>
         exists i :: 0 <= i < |m.waiting| && m.waiting[i].id == id && MayDeny(m, m.waiting[i], err)
       case Released(id) => id in m.leases
       case LeaseFailed(l, _) => WasIssued(m, l)
       case Starting(l) =>
         && m.residency.Vacant? && !m.shut && m.leases == {}
         && l.gen == m.gen + 1
         && m.waiting != [] && m.waiting[0].alloc == l.alloc
       case Started(_) => m.residency.Coming?
       case StartFailed(_) => m.residency.Coming?
       case Stopping(l) =>
         && l.gen == m.gen && m.leases == {}
         && (m.residency == Up(l.alloc) || (m.residency.Stuck? && m.residency.alloc == l.alloc && m.shut))
         && (m.shut ==> m.stops == 0)
       case Stopped => m.residency.Going?
       case StopFailed(_) => m.residency.Going?
       case ShutdownAsked(_) => true
       case Finished(result, replies) =>
         && m.shut && m.waiting == [] && m.leases == {} && replies == m.replies
         && (|| (m.residency.Vacant? && result == None)
             || (m.residency.Stuck? && m.stopFailure.Some? && result == m.stopFailure))
  }

  function Mon(log: seq<Entry>): Monitor {
    if log == [] then Initially else Track(Mon(log[..|log| - 1]), log[|log| - 1])
  }

  predicate Conforms(cfg: Config, log: seq<Entry>) {
    log == [] ||
    (Conforms(cfg, log[..|log| - 1]) && Admissible(cfg, Mon(log[..|log| - 1]), log[|log| - 1]))
  }

  lemma Extend(cfg: Config, log: seq<Entry>, e: Entry)
    ensures Mon(log + [e]) == Track(Mon(log), e)
    ensures Conforms(cfg, log + [e]) <==> Conforms(cfg, log) && Admissible(cfg, Mon(log), e)
  {
    assert (log + [e])[..|log|] == log;
  }
}

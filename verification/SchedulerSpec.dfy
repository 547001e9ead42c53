/**
 The scheduler's event loop as a function from state to state: one case of `Handle`
 per channel, then `Progress`, as one turn of the loop. The variables are those
 of the loop; `log` records what the turn did.
 */
module SchedulerSpec {
  import opened Options
  import opened SchedulerTrace

  datatype Phase = Unloaded | PhaseStarting | Ready | Draining | PhaseStopping | Failed

  datatype State = State(
    phase: Phase,
    current: Option<Allocation>,
    upstream: Option<Url>,
    generation: nat,
    active: nat,
    queue: seq<Waiter>,
    operation: bool,
    operationCancel: bool,                      // a cancel function is stored
    shuttingDown: bool,
    replies: seq<ReplyId>,
    lastError: Option<Error>,
    cleanupError: Option<Error>,
    running: bool,                              // done is not closed
    log: seq<Entry>)

  const Start0 := State(Unloaded, None, None, 0, 0, [], false, false, false, [], None, None, true, [])

  datatype OperationKind = StartKind | StopKind

  datatype Event =
    | Request(id: RequestId, alloc: Allocation)
    | Cancel(id: RequestId)
    | Release(id: RequestId, lease: Lease)
    | Failure(id: RequestId, lease: Lease, err: Error)
    | Result(kind: OperationKind, lease: Lease, upstream: Option<Url>, failure: Option<Error>)
    | Status
    | Shutdown(reply: ReplyId)

  /**
   One turn: an event, the callers whose contexts `prune` finds done, and the
   callers who lose the race between taking a lease and their context.
   */
  datatype Input = Input(event: Event, dead: set<RequestId>, refuse: set<RequestId>)

  // ---- Micro-steps, each of which adds entries to the log ----

  function Note(s: State, e: Entry): State { s.(log := s.log + [e]) }

  function Remove(q: seq<Waiter>, k: nat): (r: seq<Waiter>)
    requires k < |q|
    ensures |r| == |q| - 1
  {
    q[..k] + q[k + 1..]
  }

  function Withdraw(s: State, k: nat): State
    requires k < |s.queue|
  {
    Note(s, Withdrawn(s.queue[k].id)).(queue := Remove(s.queue, k))
  }

  function Deny(s: State, k: nat, err: Error): State
    requires k < |s.queue|
  {
    Note(s, Denied(s.queue[k].id, err)).(queue := Remove(s.queue, k))
  }

  function Grant(s: State): State
    requires s.queue != [] && s.current.Some?
  {
    Note(s, Granted(s.queue[0].id, Lease(s.current.value, s.generation), s.upstream))
    .(queue := s.queue[1..], active := s.active + 1)
  }

  // ---- The loops of the source, by recursion ----

  function Prune(s: State, k: nat, dead: set<RequestId>): State
    requires k <= |s.queue|
    decreases |s.queue| - k
  {
    if k == |s.queue| then s
    else if s.queue[k].id in dead then Prune(Withdraw(s, k), k, dead)
    else Prune(s, k + 1, dead)
  }

  function DenyAll(s: State, err: Error): State
    decreases |s.queue|
  {
    if s.queue == [] then s else DenyAll(Deny(s, 0, err), err)
  }

  function DenyFor(s: State, k: nat, a: Allocation, err: Error): State
    requires k <= |s.queue|
    decreases |s.queue| - k
  {
    if k == |s.queue| then s
    else if s.queue[k].alloc == a then DenyFor(Deny(s, k, err), k, a, err)
    else DenyFor(s, k + 1, a, err)
  }

  function CancelFrom(s: State, k: nat, id: RequestId): State
    requires k <= |s.queue|
    decreases |s.queue| - k
  {
    if k == |s.queue| then s
    else if s.queue[k].id == id then Withdraw(s, k)
    else CancelFrom(s, k + 1, id)
  }

  predicate Grantable(cfg: Config, s: State) {
    && s.queue != [] && s.current == Some(s.queue[0].alloc)
    && (Limit(cfg, s.queue[0].alloc) == 0 || s.active < Limit(cfg, s.queue[0].alloc))
  }

  function GrantAll(cfg: Config, s: State, refuse: set<RequestId>): State
    decreases |s.queue|
  {
    if !Grantable(cfg, s) then s
    else if s.queue[0].id in refuse then GrantAll(cfg, Withdraw(s, 0), refuse)
    else GrantAll(cfg, Grant(s), refuse)
  }

  // ---- start, stop and finish ----

  function Begin(s: State, a: Allocation): State {
    Note(s, Starting(Lease(a, s.generation + 1)))
    .(operation := true, phase := PhaseStarting, current := Some(a),
      generation := s.generation + 1, operationCancel := true)
  }

  function Stop(s: State): State
    requires s.current.Some?
  {
    Note(s, Stopping(Lease(s.current.value, s.generation)))
    .(operation := true, phase := PhaseStopping, operationCancel := false)
  }

  function Finish(s: State, result: Option<Error>): State {
    Note(s, Finished(result, s.replies)).(running := false)
  }

  // ---- progress ----

  function ProgressShutdown(s: State): State {
    var s := DenyAll(s, ShuttingDown);
    if s.operation || s.active > 0 then
      if s.active > 0 && !s.operation then s.(phase := Draining) else s
    else if s.current.Some? then Stop(s)
    else Finish(s, None)
  }

  function Serve(cfg: Config, s: State, refuse: set<RequestId>): State
    requires s.current.Some?
  {
    if s.queue == [] then s.(phase := Ready)
    else if s.queue[0].alloc != s.current.value then
      var s := s.(phase := Draining);
      if s.active == 0 then Stop(s) else s
    else
      var s := GrantAll(cfg, s.(phase := Ready), refuse);
      if s.queue != [] && s.current != Some(s.queue[0].alloc) then s.(phase := Draining) else s
  }

  function Advance(cfg: Config, s: State, refuse: set<RequestId>): State {
    if s.operation || s.cleanupError.Some? then s
    else if s.phase == Failed && s.current.Some? then
      if s.active == 0 then Stop(s) else s
    else if s.current.None? then
      var s := s.(phase := Unloaded);
      if s.queue != [] then Begin(s, s.queue[0].alloc) else s
    else Serve(cfg, s, refuse)
  }

  function Progress(cfg: Config, s: State, dead: set<RequestId>, refuse: set<RequestId>): State {
    var s := Prune(s, 0, dead);
    if s.shuttingDown then ProgressShutdown(s) else Advance(cfg, s, refuse)
  }

  // ---- the select ----

  function HandleRequest(cfg: Config, s: State, id: RequestId, a: Allocation): State {
    if s.shuttingDown then Note(s, TurnedAway(id, ShuttingDown))
    else if s.cleanupError.Some? then Note(s, TurnedAway(id, s.cleanupError.value))
    else if |s.queue| >= cfg.queueMax then Note(s, TurnedAway(id, QueueFull))
    else Note(s, Accepted(id, a)).(queue := s.queue + [Waiter(id, a)])
  }

  function HandleRelease(s: State, id: RequestId, l: Lease): State {
    var s := Note(s, Released(id));
    if s.current == Some(l.alloc) && s.generation == l.gen && s.active > 0 then s.(active := s.active - 1) else s
  }

  function HandleFailure(s: State, l: Lease, err: Error): State {
    var s := Note(s, LeaseFailed(l, err));
    if s.current == Some(l.alloc) && s.generation == l.gen && s.cleanupError.None? then
      s.(phase := Failed, lastError := Some(err))
    else s
  }

  predicate Stale(s: State, l: Lease) {
    l.gen != s.generation || s.current != Some(l.alloc)
  }

  function HandleStarted(s: State, up: Option<Url>, err: Option<Error>): State
    requires s.current.Some?
  {
    if err.None? && up.Some? then
      Note(s, Started(up.value)).(upstream := up, phase := Ready, lastError := None)
    else
      var cause := if err.None? then NoUpstream else err.value;
      var a := s.current.value;
      var s := Note(s, StartFailed(cause)).(lastError := Some(cause));
      if Dirty(cause) then
        DenyAll(s.(phase := Failed, cleanupError := Some(StartError(a, cause))), StartError(a, cause))
      else
        DenyFor(s.(current := None, upstream := None, phase := Unloaded), 0, a, StartError(a, cause))
  }

  function HandleStopped(s: State, err: Option<Error>): State
    requires s.current.Some?
  {
    if err.Some? then
      var e := StopError(s.current.value, err.value);
      var s := Note(s, StopFailed(err.value))
        .(phase := Failed, lastError := err, cleanupError := Some(e));
      var s := DenyAll(s, e);
      if s.shuttingDown then Finish(s, err) else s
    else
      Note(s, Stopped).(current := None, upstream := None, phase := Unloaded, cleanupError := None)
  }

  function HandleResult(s: State, kind: OperationKind, l: Lease, up: Option<Url>, err: Option<Error>): State {
    var s := s.(operation := false, operationCancel := false);
    if Stale(s, l) then s
    else if kind.StartKind? then HandleStarted(s, up, err)
    else HandleStopped(s, err)
  }

  function HandleShutdown(s: State, r: ReplyId): State {
    Note(s, ShutdownAsked(r)).(replies := s.replies + [r], shuttingDown := true)
  }

  function Handle(cfg: Config, s: State, ev: Event): State {
    match ev
    case Request(id, a) => HandleRequest(cfg, s, id, a)
    case Cancel(id) => CancelFrom(s, 0, id)
    case Release(id, l) => HandleRelease(s, id, l)
    case Failure(_, l, err) => HandleFailure(s, l, err)
    case Result(kind, l, up, err) => HandleResult(s, kind, l, up, err)
    case Status => s
    case Shutdown(r) => HandleShutdown(s, r)
  }

  function Turn(cfg: Config, s: State, input: Input): State {
    var s := Handle(cfg, s, input.event);
    if s.running then Progress(cfg, s, input.dead, input.refuse) else s
  }

  /**
   What the scheduler's callers and the Lifecycle may send: fresh request
   numbers, one release per delivered lease, failures of delivered leases, and
   the result of the operation in flight. Cancels are unrestricted.
   */
  predicate Enabled(m: Monitor, ev: Event) {
    && !m.finished
    && match ev
       case Request(id, _) => id !in m.seen
       case Release(id, l) => id in m.leases && id in m.issued && m.issued[id] == l
       case Failure(id, l, _) => id in m.issued && m.issued[id] == l
       case Result(kind, l, _, _) =>
         && l.gen == m.gen
         && m.residency == if kind.StartKind? then Coming(l.alloc) else Going(l.alloc)
       case Cancel(_) => true
       case Status => true
       case Shutdown(_) => true
  }

  function Execute(cfg: Config, s: State, inputs: seq<Input>): State
    decreases |inputs|
  {
    if inputs == [] then s else Execute(cfg, Turn(cfg, s, inputs[0]), inputs[1..])
  }

  predicate Feasible(cfg: Config, s: State, inputs: seq<Input>)
    decreases |inputs|
  {
    inputs == [] ||
    (Enabled(Mon(s.log), inputs[0].event) && Feasible(cfg, Turn(cfg, s, inputs[0]), inputs[1..]))
  }
}

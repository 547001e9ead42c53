/**
 What a caller can rely on: nobody leaves the queue unanswered but by cancelling,
 and a cancel removes exactly the caller who sent it.
 */
module SchedulerCallers {
  import opened Options
  import opened SchedulerTrace
  import opened SchedulerSpec
  import opened SchedulerSafety
  import opened SchedulerLiveness
  import opened SchedulerEnding

  // ---- A cancel removes its caller and no one else ----

  /** The queue in order, without the waiter of this number. */
  function OthersThan(q: seq<Waiter>, id: RequestId): seq<Waiter> {
    if q == [] then [] else (if q[0].id == id then [] else [q[0]]) + OthersThan(q[1..], id)
  }

  lemma {:induction false} NobodyElse(q: seq<Waiter>, id: RequestId)
    requires forall i :: 0 <= i < |q| ==> q[i].id != id
    ensures OthersThan(q, id) == q
  {
    if q != [] {
      NobodyElse(q[1..], id);
      assert [q[0]] + q[1..] == q;
    }
  }

  lemma {:induction false} OthersAt(q: seq<Waiter>, k: nat)
    requires Distinct(q) && k < |q|
    ensures OthersThan(q, q[k].id) == Remove(q, k)
  {
    var t := q[1..];
    forall i, j | 0 <= i < j < |t| ensures t[i].id != t[j].id { assert t[i] == q[i + 1] && t[j] == q[j + 1]; }
    if k == 0 {
      forall i | 0 <= i < |t| ensures t[i].id != q[0].id { assert t[i] == q[i + 1]; }
      NobodyElse(t, q[0].id);
      assert Remove(q, 0) == t;
    } else {
      assert q[0].id != q[k].id && t[k - 1] == q[k];
      OthersAt(t, k - 1);
      assert Remove(q, k) == [q[0]] + Remove(t, k - 1);
    }
  }

  lemma {:induction false} CancelFinds(s: State, k: nat, id: RequestId)
    requires k <= |s.queue| && Distinct(s.queue) && forall i :: 0 <= i < k ==> s.queue[i].id != id
    ensures CancelFrom(s, k, id)
         == s.(queue := OthersThan(s.queue, id), log := s.log + if Waits(s.queue, id) then [Withdrawn(id)] else [])
    decreases |s.queue| - k
  {
    if k == |s.queue| {
      NobodyElse(s.queue, id);
      assert s.log + [] == s.log;
    } else if s.queue[k].id == id {
      OthersAt(s.queue, k);
    } else {
      CancelFinds(s, k + 1, id);
    }
  }

  /** After a cancel the queue is the old one in order without exactly that caller, who is noted if he waited. */
  lemma CancelExactly(cfg: Config, s: State, id: RequestId)
    requires Good(cfg, s)
    ensures Handle(cfg, s, Cancel(id))
         == s.(queue := OthersThan(s.queue, id), log := s.log + if Waits(s.queue, id) then [Withdrawn(id)] else [])
  {
    CancelFinds(s, 0, id);
  }

  // ---- Who leaves the queue without an answer ----

  /** The requests a trace withdraws. */
  function Gone(log: seq<Entry>): set<RequestId> {
    if log == [] then {}
    else if log[|log| - 1].Withdrawn? then Gone(log[..|log| - 1]) + {log[|log| - 1].id}
    else Gone(log[..|log| - 1])
  }

  lemma GoneSnoc(log: seq<Entry>, e: Entry)
    ensures Gone(log + [e]) == if e.Withdrawn? then Gone(log) + {e.id} else Gone(log)
  {
    assert (log + [e])[..|log|] == log;
  }

  /** Callers whose context is done in this turn, or who cancel. */
  function Excused(input: Input): set<RequestId> {
    input.dead + input.refuse + if input.event.Cancel? then {input.event.id} else {}
  }

  /** Between `s` and `t` only these callers left unanswered. */
  predicate OnlyLeft(s: State, t: State, ids: set<RequestId>) { Gone(t.log) <= Gone(s.log) + ids }

  lemma NoteLeft(s: State, t: State, e: Entry, ids: set<RequestId>)
    requires t.log == s.log + [e] && (e.Withdrawn? ==> e.id in ids)
    ensures OnlyLeft(s, t, ids)
  {
    GoneSnoc(s.log, e);
  }

  /** After a prune nobody waits whose context is done. */
  lemma {:induction false} PruneDropsTheDone(s: State, k: nat, dead: set<RequestId>)
    requires k <= |s.queue| && forall i :: 0 <= i < k ==> s.queue[i].id !in dead
    ensures forall i :: 0 <= i < |Prune(s, k, dead).queue| ==> Prune(s, k, dead).queue[i].id !in dead
    decreases |s.queue| - k
  {
    if k < |s.queue| {
      PruneDropsTheDone(if s.queue[k].id in dead then Withdraw(s, k) else s, if s.queue[k].id in dead then k else k + 1, dead);
    }
  }

  lemma {:induction false} PruneLeft(s: State, k: nat, dead: set<RequestId>)
    requires k <= |s.queue|
    ensures OnlyLeft(s, Prune(s, k, dead), dead)
    decreases |s.queue| - k
  {
    if k == |s.queue| {
    } else if s.queue[k].id in dead {
      var t := Withdraw(s, k);
      NoteLeft(s, t, Withdrawn(s.queue[k].id), dead);
      PruneLeft(t, k, dead);
    } else {
      PruneLeft(s, k + 1, dead);
    }
  }

  lemma {:induction false} DenyAllLeft(s: State, err: Error)
    ensures OnlyLeft(s, DenyAll(s, err), {})
    decreases |s.queue|
  {
    if s.queue != [] {
      var t := Deny(s, 0, err);
      NoteLeft(s, t, Denied(s.queue[0].id, err), {});
      DenyAllLeft(t, err);
    }
  }

  lemma {:induction false} DenyForLeft(s: State, k: nat, a: Allocation, err: Error)
    requires k <= |s.queue|
    ensures OnlyLeft(s, DenyFor(s, k, a, err), {})
    decreases |s.queue| - k
  {
    if k == |s.queue| {
    } else if s.queue[k].alloc == a {
      var t := Deny(s, k, err);
      NoteLeft(s, t, Denied(s.queue[k].id, err), {});
      DenyForLeft(t, k, a, err);
    } else {
      DenyForLeft(s, k + 1, a, err);
    }
  }

  lemma {:induction false} GrantAllLeft(cfg: Config, s: State, refuse: set<RequestId>)
    ensures OnlyLeft(s, GrantAll(cfg, s, refuse), refuse)
    decreases |s.queue|
  {
    if Grantable(cfg, s) {
      var e := if s.queue[0].id in refuse then Withdrawn(s.queue[0].id)
               else Granted(s.queue[0].id, Lease(s.current.value, s.generation), s.upstream);
      var t := if s.queue[0].id in refuse then Withdraw(s, 0) else Grant(s);
      NoteLeft(s, t, e, refuse);
      GrantAllLeft(cfg, t, refuse);
    }
  }

  lemma {:induction false} CancelLeft(s: State, k: nat, id: RequestId)
    requires k <= |s.queue|
    ensures OnlyLeft(s, CancelFrom(s, k, id), {id})
    decreases |s.queue| - k
  {
    if k == |s.queue| {
    } else if s.queue[k].id == id {
      NoteLeft(s, Withdraw(s, k), Withdrawn(id), {id});
    } else {
      CancelLeft(s, k + 1, id);
    }
  }

  lemma StopLeft(s: State)
    requires s.current.Some?
    ensures OnlyLeft(s, Stop(s), {})
  {
    NoteLeft(s, Stop(s), Stopping(Lease(s.current.value, s.generation)), {});
  }

  lemma AdvanceLeft(cfg: Config, s: State, refuse: set<RequestId>)
    ensures OnlyLeft(s, Advance(cfg, s, refuse), refuse)
  {
    if s.current.Some? {
      StopLeft(s);
      StopLeft(s.(phase := Draining));
      GrantAllLeft(cfg, s.(phase := Ready), refuse);
    } else if s.queue != [] {
      NoteLeft(s, Begin(s.(phase := Unloaded), s.queue[0].alloc), Starting(Lease(s.queue[0].alloc, s.generation + 1)), {});
    }
  }

  lemma ShutdownLeft(s: State)
    ensures OnlyLeft(s, ProgressShutdown(s), {})
  {
    var t := DenyAll(s, ShuttingDown);
    DenyAllLeft(s, ShuttingDown);
    if t.current.Some? { StopLeft(t); }
    NoteLeft(t, Finish(t, None), Finished(None, t.replies), {});
  }

  lemma ProgressLeft(cfg: Config, s: State, dead: set<RequestId>, refuse: set<RequestId>)
    ensures OnlyLeft(s, Progress(cfg, s, dead, refuse), dead + refuse)
  {
    var p := Prune(s, 0, dead);
    PruneLeft(s, 0, dead);
    if p.shuttingDown { ShutdownLeft(p); } else { AdvanceLeft(cfg, p, refuse); }
  }

  lemma StartedLeft(s: State, up: Option<Url>, err: Option<Error>)
    requires s.current.Some?
    ensures OnlyLeft(s, HandleStarted(s, up, err), {})
  {
    var cause := if err.None? then NoUpstream else err.value;
    var a := s.current.value;
    var e := StartError(a, cause);
    if err.None? && up.Some? {
      NoteLeft(s, HandleStarted(s, up, err), Started(up.value), {});
    } else {
      var t := Note(s, StartFailed(cause)).(lastError := Some(cause));
      NoteLeft(s, t, StartFailed(cause), {});
      DenyAllLeft(t.(phase := Failed, cleanupError := Some(e)), e);
      DenyForLeft(t.(current := None, upstream := None, phase := Unloaded), 0, a, e);
    }
  }

  lemma StoppedLeft(s: State, err: Option<Error>)
    requires s.current.Some?
    ensures OnlyLeft(s, HandleStopped(s, err), {})
  {
    if err.None? {
      NoteLeft(s, HandleStopped(s, err), Stopped, {});
    } else {
      var e := StopError(s.current.value, err.value);
      var t := Note(s, StopFailed(err.value)).(phase := Failed, lastError := err, cleanupError := Some(e));
      NoteLeft(s, t, StopFailed(err.value), {});
      DenyAllLeft(t, e);
      var u := DenyAll(t, e);
      NoteLeft(u, Finish(u, err), Finished(err, u.replies), {});
    }
  }

  lemma HandleLeft(cfg: Config, s: State, ev: Event)
    ensures OnlyLeft(s, Handle(cfg, s, ev), if ev.Cancel? then {ev.id} else {})
  {
    match ev {
      case Request(id, a) =>
        var t := HandleRequest(cfg, s, id, a);
        NoteLeft(s, t, t.log[|s.log|], {});
      case Cancel(id) => CancelLeft(s, 0, id);
      case Release(id, l) => NoteLeft(s, HandleRelease(s, id, l), Released(id), {});
      case Failure(_, l, err) => NoteLeft(s, HandleFailure(s, l, err), LeaseFailed(l, err), {});
      case Result(kind, l, up, err) =>
        var t := s.(operation := false, operationCancel := false);
        if !Stale(t, l) {
          if kind.StartKind? { StartedLeft(t, up, err); } else { StoppedLeft(t, err); }
        }
      case Status =>
      case Shutdown(r) => NoteLeft(s, HandleShutdown(s, r), ShutdownAsked(r), {});
    }
  }

  /** In one turn only callers who cancel, or whose context is done, leave unanswered. */
  lemma TurnLeft(cfg: Config, s: State, input: Input)
    ensures OnlyLeft(s, Turn(cfg, s, input), Excused(input))
  {
    HandleLeft(cfg, s, input.event);
    var u := Handle(cfg, s, input.event);
    if u.running { ProgressLeft(cfg, u, input.dead, input.refuse); }
  }

  predicate EverExcused(inputs: seq<Input>, id: RequestId) { exists i :: 0 <= i < |inputs| && id in Excused(inputs[i]) }

  lemma {:induction false} RunLeft(cfg: Config, s: State, inputs: seq<Input>, id: RequestId)
    requires id in Gone(Execute(cfg, s, inputs).log)
    ensures id in Gone(s.log) || EverExcused(inputs, id)
    decreases |inputs|
  {
    if inputs != [] {
      var t := Turn(cfg, s, inputs[0]);
      TurnLeft(cfg, s, inputs[0]);
      RunLeft(cfg, t, inputs[1..], id);
      if EverExcused(inputs[1..], id) {
        var i :| 0 <= i < |inputs[1..]| && id in Excused(inputs[1..][i]);
        assert inputs[i + 1] == inputs[1..][i];
      }
    }
  }

  // ---- So everyone else is answered or still waits ----

  lemma {:induction false} WaitsStill(q: seq<Waiter>, id: RequestId, other: RequestId)
    requires Waits(q, id) && id != other
    ensures Waits(Without(q, other), id)
  {
    var i :| 0 <= i < |q| && q[i].id == id;
    var r := Without(q, other);
    if q[0].id == other {
      assert r[i - 1] == q[i];
    } else if i == 0 {
      assert r[0] == q[0];
    } else {
      assert q[1..][i - 1] == q[i];
      WaitsStill(q[1..], id, other);
      var j :| 0 <= j < |Without(q[1..], other)| && Without(q[1..], other)[j].id == id;
      assert r[j + 1] == Without(q[1..], other)[j];
    }
  }

  predicate WasAccepted(log: seq<Entry>, id: RequestId) { exists i :: 0 <= i < |log| && log[i].Accepted? && log[i].id == id }

  lemma WaitsNew(q: seq<Waiter>, w: Waiter, id: RequestId)
    ensures Waits(q + [w], id) <==> Waits(q, id) || w.id == id
  {
    var t := q + [w];
    assert t[|q|] == w && forall i :: 0 <= i < |q| ==> t[i] == q[i];
  }

  lemma {:induction false} AcceptedIsAccounted(log: seq<Entry>, id: RequestId)
    requires WasAccepted(log, id)
    ensures Waits(Mon(log).waiting, id) || id in Served(log) || id in Gone(log)
    decreases |log|
  {
    var n := |log| - 1;
    var p, e := log[..n], log[n];
    assert log == p + [e];
    ServedSnoc(p, e);
    GoneSnoc(p, e);
    if e.Accepted? { WaitsNew(Mon(p).waiting, Waiter(e.id, e.alloc), id); }
    if !(e.Accepted? && e.id == id) {
      var i :| 0 <= i < |log| && log[i].Accepted? && log[i].id == id;
      assert p[i] == log[i];
      AcceptedIsAccounted(p, id);
      if Waits(Mon(p).waiting, id) && (e.Granted? || e.Withdrawn? || e.Denied?) && e.id != id {
        WaitsStill(Mon(p).waiting, id, e.id);
      }
    }
  }

  /**
   Over every run: a caller who was accepted, never cancels and whose context is
   never done has been granted, has been denied, or still waits.
   */
  lemma NobodyIsForgotten(cfg: Config, inputs: seq<Input>, id: RequestId)
    requires Feasible(cfg, Start0, inputs) && WasAccepted(Execute(cfg, Start0, inputs).log, id)
    requires !EverExcused(inputs, id)
    ensures var s := Execute(cfg, Start0, inputs); Waits(s.queue, id) || id in Served(s.log)
  {
    var s := Execute(cfg, Start0, inputs);
    EveryRunConforms(cfg, inputs);
    AcceptedIsAccounted(s.log, id);
    if id in Gone(s.log) { RunLeft(cfg, Start0, inputs, id); }
  }

  // ---- What the loop was told ----

  /** Entries that record what was sent to the loop; the others record what it decided. */
  predicate IsHeard(e: Entry) {
    !(e.Granted? || e.Withdrawn? || e.Denied? || e.Starting? || e.Stopping? || e.Finished?)
  }

  /** What a trace says the loop was sent, in order. */
  function Heard(log: seq<Entry>): seq<Entry> {
    if log == [] then []
    else Heard(log[..|log| - 1]) + if IsHeard(log[|log| - 1]) then [log[|log| - 1]] else []
  }

  lemma HeardSnoc(log: seq<Entry>, e: Entry)
    ensures Heard(log + [e]) == Heard(log) + if IsHeard(e) then [e] else []
  {
    assert (log + [e])[..|log|] == log;
  }

  /** The entry is a true account of the event. */
  predicate Tells(e: Entry, ev: Event) {
    match ev
    case Request(id, a) => e == Accepted(id, a) || (e.TurnedAway? && e.id == id)
    case Cancel(_) => false
    case Release(id, _) => e == Released(id)
    case Failure(_, l, err) => e == LeaseFailed(l, err)
    case Result(StartKind, _, up, err) =>
      if err.Some? then e == StartFailed(err.value) else if up.Some? then e == Started(up.value) else e == StartFailed(NoUpstream)
    case Result(StopKind, _, _, err) => e == if err.Some? then StopFailed(err.value) else Stopped
    case Status => false
    case Shutdown(r) => e == ShutdownAsked(r)
  }

  /** Status requests leave no trace, and a cancel shows only in who leaves the queue. */
  predicate Silent(ev: Event) { ev.Cancel? || ev.Status? }

  function Sent(inputs: seq<Input>): seq<Event> {
    if inputs == [] then []
    else (if Silent(inputs[0].event) then [] else [inputs[0].event]) + Sent(inputs[1..])
  }

  predicate Told(es: seq<Entry>, evs: seq<Event>) {
    |es| == |evs| && forall i :: 0 <= i < |es| ==> Tells(es[i], evs[i])
  }

  // ---- The last error ----

  /** What an observer of the trace knows of errors: the last one, and whether a cleanup has failed since. */
  datatype Trouble = Trouble(last: Option<Error>, unclean: bool)

  /** A lease of what is resident now. */
  predicate Concerns(m: Monitor, l: Lease) { !m.residency.Vacant? && m.residency.alloc == l.alloc && m.gen == l.gen }

  function Worsen(t: Trouble, m: Monitor, e: Entry): Trouble {
    match e
    case Started(_) => t.(last := None)
    case StartFailed(err) => Trouble(Some(err), t.unclean || Dirty(err))
    case Stopped => t.(unclean := false)
    case StopFailed(err) => Trouble(Some(err), true)
    case LeaseFailed(l, err) => if Concerns(m, l) && !t.unclean then t.(last := Some(err)) else t
    case _ => t
  }

  function TroubleOf(log: seq<Entry>): Trouble {
    if log == [] then Trouble(None, false)
    else Worsen(TroubleOf(log[..|log| - 1]), Mon(log[..|log| - 1]), log[|log| - 1])
  }

  function Errors(s: State): Trouble { Trouble(s.lastError, s.cleanupError.Some?) }

  /** The loop's error variables say what the trace shows. */
  predicate Troubled(s: State) { TroubleOf(s.log) == Errors(s) }

  lemma TroubleSnoc(log: seq<Entry>, e: Entry)
    ensures TroubleOf(log + [e]) == Worsen(TroubleOf(log), Mon(log), e)
  {
    assert (log + [e])[..|log|] == log;
  }

  /** From `s` to `t` nothing was heard, and neither the trace nor the variables say anything new of errors. */
  predicate Untroubled(s: State, t: State) {
    && t.lastError == s.lastError && t.cleanupError == s.cleanupError
    && TroubleOf(t.log) == TroubleOf(s.log) && Heard(t.log) == Heard(s.log)
  }

  lemma HarmlessNote(s: State, t: State, e: Entry)
    requires t.log == s.log + [e] && !IsHeard(e) && t.lastError == s.lastError && t.cleanupError == s.cleanupError
    ensures Untroubled(s, t)
  {
    TroubleSnoc(s.log, e);
    HeardSnoc(s.log, e);
  }

  /** The event was noted truly, and the error variables follow it. */
  predicate Took(s: State, t: State, ev: Event) {
    && Troubled(t)
    && if Silent(ev) then Heard(t.log) == Heard(s.log)
       else |Heard(t.log)| == |Heard(s.log)| + 1 && Heard(t.log)[..|Heard(s.log)|] == Heard(s.log) && Tells(Heard(t.log)[|Heard(s.log)|], ev)
  }

  lemma TrueNote(s: State, t: State, u: State, e: Entry, ev: Event)
    requires Troubled(s) && t.log == s.log + [e] && IsHeard(e) && Tells(e, ev) && !Silent(ev) && Untroubled(t, u)
    requires Errors(t) == Worsen(Errors(s), Mon(s.log), e)
    ensures Took(s, u, ev)
  {
    HeardSnoc(s.log, e);
    TroubleSnoc(s.log, e);
  }

  lemma {:induction false} PruneHarmless(s: State, k: nat, dead: set<RequestId>)
    requires k <= |s.queue|
    ensures Untroubled(s, Prune(s, k, dead))
    decreases |s.queue| - k
  {
    if k == |s.queue| {
    } else if s.queue[k].id in dead {
      var t := Withdraw(s, k);
      HarmlessNote(s, t, Withdrawn(s.queue[k].id));
      PruneHarmless(t, k, dead);
    } else {
      PruneHarmless(s, k + 1, dead);
    }
  }

  lemma {:induction false} DenyAllHarmless(s: State, err: Error)
    ensures Untroubled(s, DenyAll(s, err))
    decreases |s.queue|
  {
    if s.queue != [] {
      var t := Deny(s, 0, err);
      HarmlessNote(s, t, Denied(s.queue[0].id, err));
      DenyAllHarmless(t, err);
    }
  }

  lemma {:induction false} DenyForHarmless(s: State, k: nat, a: Allocation, err: Error)
    requires k <= |s.queue|
    ensures Untroubled(s, DenyFor(s, k, a, err))
    decreases |s.queue| - k
  {
    if k == |s.queue| {
    } else if s.queue[k].alloc == a {
      var t := Deny(s, k, err);
      HarmlessNote(s, t, Denied(s.queue[k].id, err));
      DenyForHarmless(t, k, a, err);
    } else {
      DenyForHarmless(s, k + 1, a, err);
    }
  }

  lemma {:induction false} GrantAllHarmless(cfg: Config, s: State, refuse: set<RequestId>)
    ensures Untroubled(s, GrantAll(cfg, s, refuse))
    decreases |s.queue|
  {
    if Grantable(cfg, s) {
      var t := if s.queue[0].id in refuse then Withdraw(s, 0) else Grant(s);
      HarmlessNote(s, t, t.log[|s.log|]);
      GrantAllHarmless(cfg, t, refuse);
    }
  }

  lemma {:induction false} CancelHarmless(s: State, k: nat, id: RequestId)
    requires k <= |s.queue|
    ensures Untroubled(s, CancelFrom(s, k, id))
    decreases |s.queue| - k
  {
    if k == |s.queue| {
    } else if s.queue[k].id == id {
      HarmlessNote(s, Withdraw(s, k), Withdrawn(id));
    } else {
      CancelHarmless(s, k + 1, id);
    }
  }

  lemma StopHarmless(s: State)
    requires s.current.Some?
    ensures Untroubled(s, Stop(s))
  {
    HarmlessNote(s, Stop(s), Stopping(Lease(s.current.value, s.generation)));
  }

  lemma AdvanceHarmless(cfg: Config, s: State, refuse: set<RequestId>)
    ensures Untroubled(s, Advance(cfg, s, refuse))
  {
    if s.current.Some? {
      StopHarmless(s);
      StopHarmless(s.(phase := Draining));
      GrantAllHarmless(cfg, s.(phase := Ready), refuse);
    } else if s.queue != [] {
      HarmlessNote(s, Begin(s.(phase := Unloaded), s.queue[0].alloc), Starting(Lease(s.queue[0].alloc, s.generation + 1)));
    }
  }

  lemma ProgressHarmless(cfg: Config, s: State, dead: set<RequestId>, refuse: set<RequestId>)
    ensures Untroubled(s, Progress(cfg, s, dead, refuse))
  {
    var p := Prune(s, 0, dead);
    PruneHarmless(s, 0, dead);
    if p.shuttingDown {
      var t := DenyAll(p, ShuttingDown);
      DenyAllHarmless(p, ShuttingDown);
      if t.current.Some? { StopHarmless(t); }
      HarmlessNote(t, Finish(t, None), Finished(None, t.replies));
    } else {
      AdvanceHarmless(cfg, p, refuse);
    }
  }

  lemma StartDoneTook(s: State, l: Lease, up: Url)
    requires s.current.Some? && Troubled(s)
    ensures Took(s, HandleStarted(s, Some(up), None), Result(StartKind, l, Some(up), None))
  {
    var t := HandleStarted(s, Some(up), None);
    TrueNote(s, t, t, Started(up), Result(StartKind, l, Some(up), None));
  }

  lemma StartFailedSettles(s: State, a: Allocation, e: Error)
    ensures Untroubled(s, DenyAll(s, e)) && Untroubled(s, DenyFor(s, 0, a, e))
  {
    DenyAllHarmless(s, e);
    DenyForHarmless(s, 0, a, e);
  }

  lemma StartFailedTook(s: State, l: Lease, up: Option<Url>, err: Option<Error>, cause: Error)
    requires s.current.Some? && Troubled(s)
    requires if err.None? then up.None? && cause == NoUpstream else cause == err.value
    ensures Took(s, HandleStarted(s, up, err), Result(StartKind, l, up, err))
  {
    var a := s.current.value;
    var u := Note(s, StartFailed(cause)).(lastError := Some(cause));
    var t := HandleStarted(s, up, err);
    if Dirty(cause) {
      var v := u.(phase := Failed, cleanupError := Some(StartError(a, cause)));
      StartFailedSettles(v, a, StartError(a, cause));
      assert t == DenyAll(v, StartError(a, cause));
      TrueNote(s, v, t, StartFailed(cause), Result(StartKind, l, up, err));
    } else {
      var v := u.(current := None, upstream := None, phase := Unloaded);
      StartFailedSettles(v, a, StartError(a, cause));
      assert t == DenyFor(v, 0, a, StartError(a, cause));
      TrueNote(s, v, t, StartFailed(cause), Result(StartKind, l, up, err));
    }
  }

  lemma StopDoneTook(s: State, l: Lease, up: Option<Url>)
    requires s.current.Some? && Troubled(s)
    ensures Took(s, HandleStopped(s, None), Result(StopKind, l, up, None))
  {
    var t := HandleStopped(s, None);
    TrueNote(s, t, t, Stopped, Result(StopKind, l, up, None));
  }

  lemma StopFailedTook(s: State, l: Lease, up: Option<Url>, err: Error)
    requires s.current.Some? && Troubled(s)
    ensures Took(s, HandleStopped(s, Some(err)), Result(StopKind, l, up, Some(err)))
  {
    var e := StopError(s.current.value, err);
    var v := Note(s, StopFailed(err)).(phase := Failed, lastError := Some(err), cleanupError := Some(e));
    var t := HandleStopped(s, Some(err));
    assert t == var u := DenyAll(v, e); if u.shuttingDown then Finish(u, Some(err)) else u;
    StopFailedSettles(v, Some(err));
    TrueNote(s, v, t, StopFailed(err), Result(StopKind, l, up, Some(err)));
  }

  lemma StopFailedSettles(s: State, err: Option<Error>)
    requires s.cleanupError.Some?
    ensures var u := DenyAll(s, s.cleanupError.value); Untroubled(s, u) && Untroubled(s, Finish(u, err))
  {
    var u := DenyAll(s, s.cleanupError.value);
    DenyAllHarmless(s, s.cleanupError.value);
    HarmlessNote(u, Finish(u, err), Finished(err, u.replies));
  }

  lemma FailureTook(cfg: Config, s: State, id: RequestId, l: Lease, err: Error)
    requires Good(cfg, s) && Troubled(s)
    ensures Took(s, HandleFailure(s, l, err), Failure(id, l, err))
  {
    var t := HandleFailure(s, l, err);
    TrueNote(s, t, t, LeaseFailed(l, err), Failure(id, l, err));
  }

  lemma ResultTook(cfg: Config, s: State, ev: Event)
    requires Good(cfg, s) && Troubled(s) && ev.Result? && Enabled(Mon(s.log), ev)
    ensures Took(s, Handle(cfg, s, ev), ev)
  {
    var u := s.(operation := false, operationCancel := false);
    if ev.kind.StartKind? && ev.failure.None? && ev.upstream.Some? {
      StartDoneTook(u, ev.lease, ev.upstream.value);
    } else if ev.kind.StartKind? {
      StartFailedTook(u, ev.lease, ev.upstream, ev.failure, if ev.failure.None? then NoUpstream else ev.failure.value);
    } else if ev.failure.None? {
      StopDoneTook(u, ev.lease, ev.upstream);
    } else {
      StopFailedTook(u, ev.lease, ev.upstream, ev.failure.value);
    }
  }

  lemma RequestTook(cfg: Config, s: State, id: RequestId, a: Allocation)
    requires Troubled(s)
    ensures Took(s, HandleRequest(cfg, s, id, a), Request(id, a))
  {
    var t := HandleRequest(cfg, s, id, a);
    var e := t.log[|s.log|];
    assert t.log == s.log + [e] && t.lastError == s.lastError && t.cleanupError == s.cleanupError;
    assert Tells(e, Request(id, a));
    TrueNote(s, t, t, e, Request(id, a));
  }

  lemma ReleaseTook(s: State, id: RequestId, l: Lease)
    requires Troubled(s)
    ensures Took(s, HandleRelease(s, id, l), Release(id, l))
  {
    TrueNote(s, HandleRelease(s, id, l), HandleRelease(s, id, l), Released(id), Release(id, l));
  }

  lemma ShutdownTook(s: State, r: ReplyId)
    requires Troubled(s)
    ensures Took(s, HandleShutdown(s, r), Shutdown(r))
  {
    TrueNote(s, HandleShutdown(s, r), HandleShutdown(s, r), ShutdownAsked(r), Shutdown(r));
  }

  lemma HandleTook(cfg: Config, s: State, ev: Event)
    requires Good(cfg, s) && Troubled(s) && Enabled(Mon(s.log), ev)
    ensures Took(s, Handle(cfg, s, ev), ev)
  {
    match ev
    case Failure(id, l, err) => FailureTook(cfg, s, id, l, err);
    case Result(_, _, _, _) => ResultTook(cfg, s, ev);
    case Cancel(id) => CancelHarmless(s, 0, id);
    case Status =>
    case Request(id, a) => RequestTook(cfg, s, id, a);
    case Release(id, l) => ReleaseTook(s, id, l);
    case Shutdown(r) => ShutdownTook(s, r);
  }

  lemma TurnTook(cfg: Config, s: State, input: Input)
    requires Good(cfg, s) && Troubled(s) && Enabled(Mon(s.log), input.event)
    ensures Took(s, Turn(cfg, s, input), input.event)
  {
    var t := Handle(cfg, s, input.event);
    HandleTook(cfg, s, input.event);
    ProgressHarmless(cfg, t, input.dead, input.refuse);
  }

  /** From one state to another, these events were told. */
  predicate ToldSince(s: State, t: State, evs: seq<Event>) {
    var before, after := Heard(s.log), Heard(t.log);
    |before| <= |after| && after[..|before|] == before && Told(after[|before|..], evs)
  }

  lemma ToldThen(s: State, t: State, u: State, ev: Event, evs: seq<Event>)
    requires Took(s, t, ev) && ToldSince(t, u, evs)
    ensures ToldSince(s, u, (if Silent(ev) then [] else [ev]) + evs)
  {
    var a, b, c := Heard(s.log), Heard(t.log), Heard(u.log);
    if Silent(ev) {
      assert [] + evs == evs;
    } else {
      assert c[..|a|] == c[..|b|][..|a|];
      assert c[|a|..] == [b[|a|]] + c[|b|..];
    }
  }

  lemma {:induction false} RunTook(cfg: Config, s: State, inputs: seq<Input>)
    requires Good(cfg, s) && Troubled(s) && Feasible(cfg, s, inputs)
    ensures Troubled(Execute(cfg, s, inputs)) && ToldSince(s, Execute(cfg, s, inputs), Sent(inputs))
    decreases |inputs|
  {
    if inputs != [] {
      var t := Turn(cfg, s, inputs[0]);
      TurnTook(cfg, s, inputs[0]);
      TurnKeeps(cfg, s, inputs[0]);
      RunTook(cfg, t, inputs[1..]);
      ToldThen(s, t, Execute(cfg, t, inputs[1..]), inputs[0].event, Sent(inputs[1..]));
    }
  }

  /**
   Over every run the trace is a true account of what the loop was sent: each
   request, release, failure, result and shutdown is noted once, in order, for
   what it is. The protocol's theorems are therefore about the real events.
   */
  lemma TraceIsTruthful(cfg: Config, inputs: seq<Input>)
    requires Feasible(cfg, Start0, inputs)
    ensures Told(Heard(Execute(cfg, Start0, inputs).log), Sent(inputs))
  {
    RunTook(cfg, Start0, inputs);
    var h := Heard(Execute(cfg, Start0, inputs).log);
    assert h[0..] == h;
  }

  /** Over every run the last error is that of the last failed Start, Stop or lease of what is resident, until a Start succeeds. */
  lemma LastErrorIsTrue(cfg: Config, inputs: seq<Input>)
    requires Feasible(cfg, Start0, inputs)
    ensures var s := Execute(cfg, Start0, inputs); s.lastError == TroubleOf(s.log).last && s.cleanupError.Some? == TroubleOf(s.log).unclean
  {
    RunTook(cfg, Start0, inputs);
  }

  // ---- What Status reports ----

  datatype StatusReport = StatusReport(alloc: Option<Allocation>, phase: Phase, active: nat, queued: nat, last: Option<Error>, upstream: Option<Url>)

  /** The reply to a status request. */
  function StatusOf(s: State): StatusReport { StatusReport(s.current, s.phase, s.active, |s.queue|, s.lastError, s.upstream) }

  /** The first waiter wants something else than what is resident. */
  predicate Switching(m: Monitor) { m.residency.Up? && m.waiting != [] && m.waiting[0].alloc != m.residency.alloc }

  function TruePhase(m: Monitor): Phase {
    match m.residency
    case Vacant => Unloaded
    case Coming(_) => PhaseStarting
    case Going(_) => PhaseStopping
    case Stuck(_, _) => Failed
    case Up(_) => if m.shut then Draining else if m.poisoned then Failed else if Switching(m) then Draining else Ready
  }

  /**
   Between turns the status is what the trace shows: what is resident and where,
   who waits and who holds a lease, the last error, and the phase, except that a lease may report
   failure while its backend is already being stopped.
   */
  lemma StatusIsTrue(cfg: Config, inputs: seq<Input>)
    requires Feasible(cfg, Start0, inputs)
    requires var s := Execute(cfg, Start0, inputs); s.running && Progress(cfg, s, {}, {}) == s
    ensures var s := Execute(cfg, Start0, inputs); var m := Mon(s.log); var r := StatusOf(s);
      && r.alloc == (if m.residency.Vacant? then None else Some(m.residency.alloc))
      && r.active == |m.leases| && r.queued == |m.waiting| && r.last == TroubleOf(s.log).last
      && (m.residency.Up? ==> r.upstream == m.url && r.upstream.Some?) && (m.residency.Vacant? ==> r.upstream.None?)
      && (r.phase == TruePhase(m) || (m.residency.Going? && r.phase == Failed))
  {
    EveryRunConforms(cfg, inputs);
    LastErrorIsTrue(cfg, inputs);
    SettledPhase(cfg, Execute(cfg, Start0, inputs));
  }

  lemma SettledPhase(cfg: Config, s: State)
    requires Good(cfg, s) && s.running && Progress(cfg, s, {}, {}) == s
    ensures var m := Mon(s.log); s.phase == TruePhase(m) || (m.residency.Going? && s.phase == Failed)
  {
    PruneNothing(s, 0);
    if s.shuttingDown {
      DenyAllEmpties(s, ShuttingDown);
      assert s.queue == [];
    } else if MayGrant(s) {
      GrantAllStops(cfg, s.(phase := Ready));
      assert GrantAll(cfg, s.(phase := Ready), {}).log == s.log;
    }
  }

  /** A waiter whose allocation is up waits only for a slot that its limit denies. */
  lemma NoSlotIsIdle(cfg: Config, s: State)
    requires Live(cfg, s) && MayGrant(s)
    ensures var a := s.queue[0].alloc; a in cfg.limits && 0 < cfg.limits[a] <= s.active
  {
    PruneNothing(s, 0);
    GrantAllStops(cfg, s.(phase := Ready));
  }
}

/**
 The local stop protocol. `World` is what the processes of one user share: the lock
 file, the socket path and each process's place in its code. Inode numbers may be
 reused, so nothing rests on them; the lock alone must protect a live socket.
 */
module Control {
  import opened Options

  type Pid = nat
  type Inode = nat

  datatype Proc =
    | Absent
    // StartLocalControl and Close
    | Opened                      // the lock file is open, not locked
    | Locked
    | Cleared                     // no socket at the path any more
    | Running(inode: Inode)       // listening
    | Closed                      // listener closed, path not yet removed
    | Removed                     // path removed, lock not yet released
    // StopLocalGateway and clearStaleControl
    | Observed(inode: Inode)
    | Refused(inode: Inode)
    | Inspecting(inode: Inode)    // holds the lock
    | Confirmed                   // holds the lock, same file seen again

  predicate Holds(p: Proc) {
    p.Locked? || p.Cleared? || p.Running? || p.Closed? || p.Removed? || p.Inspecting? || p.Confirmed?
  }

  datatype World = World(lock: Option<Pid>, path: Option<Inode>, procs: map<Pid, Proc>)

  const Quiet := World(None, None, map[])

  function At(w: World, p: Pid): Proc { if p in w.procs then w.procs[p] else Absent }

  function Goto(w: World, p: Pid, to: Proc): World { w.(procs := w.procs[p := to]) }

  /** A process ends, by returning or by being killed: the kernel releases its lock and its listener. */
  function Exit(w: World, p: Pid): World {
    Goto(if w.lock == Some(p) then w.(lock := None) else w, p, Absent)
  }

  predicate Live(w: World, i: Inode) { exists p :: p in w.procs && w.procs[p] == Running(i) }

  datatype Step =
    | Open | TryLock | Clear | Bind(inode: Inode) | AbortBind | CloseListener | Remove | Unlock
    | Stat | Connect | TryStaleLock | Inspect | RemoveStale
    | Crash

  /** The process takes its next step. A failed check exits, as the source returns an error. */
  ghost function Next(w: World, p: Pid, s: Step): World {
    match (s, At(w, p))
    case (Open, Absent) => Goto(w, p, Opened)
    case (TryLock, Opened) => if w.lock.None? then Goto(w.(lock := Some(p)), p, Locked) else Exit(w, p)
    case (Clear, Locked) => Goto(w.(path := None), p, Cleared)
    case (Bind(i), Cleared) => if w.path.None? then Goto(w.(path := Some(i)), p, Running(i)) else Exit(w, p)
    case (AbortBind, Running(_)) => Exit(w.(path := None), p)          // chmod failed
    case (CloseListener, Running(_)) => Goto(w, p, Closed)
    case (Remove, Closed) => Goto(w.(path := None), p, Removed)
    case (Unlock, Removed) => Exit(w, p)
    case (Stat, Absent) => if w.path.Some? then Goto(w, p, Observed(w.path.value)) else w
    case (Connect, Observed(i)) =>
      if w.path.Some? && !Live(w, w.path.value) then Goto(w, p, Refused(i)) else Exit(w, p)
    case (TryStaleLock, Refused(i)) => if w.lock.None? then Goto(w.(lock := Some(p)), p, Inspecting(i)) else Exit(w, p)
    case (Inspect, Inspecting(i)) => if w.path == Some(i) then Goto(w, p, Confirmed) else Exit(w, p)
    case (RemoveStale, Confirmed) => Exit(w.(path := None), p)
    case (Crash, _) => Exit(w, p)
    case (_, _) => w
  }

  // ---- What every interleaving keeps ----

  predicate Inv(w: World) {
    && (forall p :: p in w.procs && Holds(w.procs[p]) ==> w.lock == Some(p))
    && (w.lock.Some? ==> w.lock.value in w.procs && Holds(w.procs[w.lock.value]))
    && (forall p :: p in w.procs && w.procs[p].Running? ==> w.path == Some(w.procs[p].inode))
  }

  lemma NextKeeps(w: World, p: Pid, s: Step)
    requires Inv(w)
    ensures Inv(Next(w, p, s))
  {
    var w' := Next(w, p, s);
    assert forall q :: q != p ==> At(w', q) == At(w, q);
    forall q | q in w'.procs && Holds(w'.procs[q]) ensures w'.lock == Some(q) {
      if q != p { assert w.procs[q] == w'.procs[q]; }
    }
  }

  /** Who may take the socket away: only the process that owns it, or one that holds the lock of a dead one. */
  lemma OnlyTheOwnerUnlinks(w: World, p: Pid, q: Pid, s: Step)
    requires Inv(w) && p in w.procs && w.procs[p].Running? && q != p
    ensures var w' := Next(w, q, s); w'.path == w.path && p in w'.procs && w'.procs[p] == w.procs[p] && w'.lock == Some(p)
  {
    assert w.lock == Some(p);
    if q in w.procs { assert !Holds(w.procs[q]); }
  }

  ghost function Run(w: World, steps: seq<(Pid, Step)>): World
    decreases |steps|
  {
    if steps == [] then w else Run(Next(w, steps[0].0, steps[0].1), steps[1..])
  }

  lemma {:induction false} RunKeeps(w: World, steps: seq<(Pid, Step)>)
    requires Inv(w)
    ensures Inv(Run(w, steps))
    decreases |steps|
  {
    if steps != [] {
      NextKeeps(w, steps[0].0, steps[0].1);
      RunKeeps(Next(w, steps[0].0, steps[0].1), steps[1..]);
    }
  }

  /** Across any interleaving of starts, crashes, closes and stop clients, one process at most holds the lock. */
  lemma OneHolder(steps: seq<(Pid, Step)>, p: Pid, q: Pid)
    requires var w := Run(Quiet, steps); p in w.procs && q in w.procs && Holds(w.procs[p]) && Holds(w.procs[q])
    ensures p == q
  {
    RunKeeps(Quiet, steps);
  }

  /** While a gateway runs, whatever the others do, its socket stays where clients look for it. */
  lemma {:induction false} LiveSocketSurvives(w: World, p: Pid, steps: seq<(Pid, Step)>)
    requires Inv(w) && p in w.procs && w.procs[p].Running? && forall i :: 0 <= i < |steps| ==> steps[i].0 != p
    ensures var w' := Run(w, steps); w'.path == w.path && p in w'.procs && w'.procs[p] == w.procs[p]
    decreases |steps|
  {
    if steps != [] {
      OnlyTheOwnerUnlinks(w, p, steps[0].0, steps[0].1);
      NextKeeps(w, steps[0].0, steps[0].1);
      LiveSocketSurvives(Next(w, steps[0].0, steps[0].1), p, steps[1..]);
    }
  }

  /** After any history, an unlocked start succeeds: a stale socket never blocks it. */
  lemma RestartSucceeds(w: World, p: Pid, i: Inode)
    requires Inv(w) && w.lock.None? && At(w, p).Absent?
    ensures var w' := Next(Next(Next(Next(w, p, Open), p, TryLock), p, Clear), p, Bind(i));
      At(w', p) == Running(i) && w'.path == Some(i) && w'.lock == Some(p)
  {
    var a := Next(w, p, Open);
    var b := Next(a, p, TryLock);
    var c := Next(b, p, Clear);
    assert At(a, p).Opened? && At(b, p).Locked? && At(c, p).Cleared?;
  }

  /** A stop client that finds a dead gateway's socket takes it away, and leaves nothing behind. */
  lemma StaleSocketIsCleared(w: World, p: Pid, i: Inode)
    requires Inv(w) && w.lock.None? && w.path == Some(i) && !Live(w, i) && At(w, p).Absent?
    ensures var v := Next(Next(Next(Next(Next(w, p, Stat), p, Connect), p, TryStaleLock), p, Inspect), p, RemoveStale);
      v.path.None? && v.lock.None? && At(v, p).Absent?
  {
    var a := Next(w, p, Stat);
    assert At(a, p) == Observed(i) && !Live(a, i);
    var b := Next(a, p, Connect);
    assert At(b, p) == Refused(i);
    var c := Next(b, p, TryStaleLock);
    var d := Next(c, p, Inspect);
    assert At(d, p).Confirmed?;
  }

  /** A file that was replaced in the meantime is left alone, and so is a live gateway's. */
  lemma OthersSocketIsLeft(w: World, p: Pid, i: Inode)
    requires Inv(w) && At(w, p) == Inspecting(i) && w.path != Some(i)
    ensures var v := Next(w, p, Inspect); v.path == w.path && At(v, p).Absent? && v.lock.None?
  {}

  /** A gateway that closes, or gives up on its socket, takes it away and releases the lock. */
  lemma CloseLeavesNothing(w: World, p: Pid, i: Inode)
    requires Inv(w) && At(w, p) == Running(i)
    ensures var v := Next(Next(Next(w, p, CloseListener), p, Remove), p, Unlock);
      v.path.None? && v.lock.None? && At(v, p).Absent?
    ensures var v := Next(w, p, AbortBind); v.path.None? && v.lock.None? && At(v, p).Absent?
  {
    var a := Next(w, p, CloseListener);
    var b := Next(a, p, Remove);
    assert At(a, p).Closed? && At(b, p).Removed?;
  }

  // ---- Answering stop requests before Finish returns ----

  type Conn = nat

  datatype Reply = InvalidCommand | StoppedReply | ErrorReply(err: nat)

  datatype Connection =
    | Reading                     // the handler runs, command not read yet
    | Waiting                     // a valid stop, waiting for done
    | Answered(reply: Reply)      // written, handler not finished
    | Over(reply: Reply)          // handler finished
    | TurnedAway                  // accepted after finishing: closed without a handler

  predicate Handled(c: Connection) { c.Reading? || c.Waiting? || c.Answered? }

  class LocalControl {
    var conns: map<Conn, Connection>
    var stopped: set<Conn>        // connections that sent a valid stop
    var handlers: nat             // the wait group
    var requested: bool           // the stop channel holds a token
    var finishing: bool
    var result: Option<nat>       // the shutdown error, set before done is closed

    ghost function Busy(): set<Conn>
      reads this
    {
      set c | c in conns && Handled(conns[c])
    }

    ghost predicate Valid()
      reads this
    {
      && handlers == |Busy()|
      && (forall c :: c in stopped ==> c in conns && !conns[c].Reading? && !conns[c].TurnedAway?)
      && (forall c :: c in conns && conns[c].Waiting? ==> c in stopped)
      && (forall c :: c in conns && (conns[c].Answered? || conns[c].Over?) ==>
            if c in stopped then finishing && conns[c].reply == Truth() else conns[c].reply == InvalidCommand)
      && (stopped != {} ==> requested)
    }

    /** The one answer every stop request gets. */
    ghost function Truth(): Reply
      reads this
    {
      if result.Some? then ErrorReply(result.value) else StoppedReply
    }

    constructor ()
      ensures Valid() && conns == map[] && !finishing && result.None?
    {
      conns, stopped, handlers, requested, finishing, result := map[], {}, 0, false, false, None;
    }

    method Accept(c: Conn)
      requires Valid() && c !in conns
      modifies this`conns, this`handlers
      ensures Valid() && conns == old(conns)[c := if finishing then TurnedAway else Reading]
    {
      ghost var busy := Busy();
      if finishing {
        conns := conns[c := TurnedAway];
        assert Busy() == busy;
      } else {
        handlers := handlers + 1;
        conns := conns[c := Reading];
        assert Busy() == busy + {c};
      }
    }

    method Command(c: Conn, valid: bool)
      requires Valid() && c in conns && conns[c].Reading?
      modifies this`conns, this`stopped, this`requested
      ensures Valid() && conns == old(conns)[c := if valid then Waiting else Answered(InvalidCommand)]
      ensures requested == (old(requested) || valid) && stopped == (if valid then old(stopped) + {c} else old(stopped))
    {
      ghost var busy := Busy();
      if valid {
        requested, stopped := true, stopped + {c};
        conns := conns[c := Waiting];
      } else {
        conns := conns[c := Answered(InvalidCommand)];
      }
      assert Busy() == busy;
    }

    method Answer(c: Conn)
      requires Valid() && c in conns && conns[c].Waiting? && finishing
      modifies this`conns
      ensures Valid() && conns == old(conns)[c := Answered(Truth())]
    {
      ghost var busy := Busy();
      conns := conns[c := Answered(if result.Some? then ErrorReply(result.value) else StoppedReply)];
      assert Busy() == busy;
    }

    method HandlerDone(c: Conn)
      requires Valid() && c in conns && conns[c].Answered?
      modifies this`conns, this`handlers
      ensures Valid() && conns == old(conns)[c := Over(old(conns[c].reply))] && handlers == old(handlers) - 1
    {
      ghost var busy := Busy();
      conns := conns[c := Over(conns[c].reply)];
      assert c in busy && Busy() == busy - {c};
      handlers := handlers - 1;
    }

    /** Finish, up to its wait: the result is published before done is closed. */
    method Finish(err: Option<nat>)
      requires Valid() && !finishing
      modifies this`finishing, this`result
      ensures Valid() && finishing && result == err
    {
      finishing, result := true, err;
    }

    /** When the wait returns, every connection with a handler has been answered, every stop with the true result. */
    method FinishReturns()
      requires Valid() && finishing && handlers == 0
      ensures forall c :: c in conns ==> conns[c].Over? || conns[c].TurnedAway?
      ensures forall c :: c in stopped ==> conns[c] == Over(Truth())
    {
      assert Busy() == {};
      forall c | c in conns ensures conns[c].Over? || conns[c].TurnedAway? { assert c !in Busy(); }
    }
  }
}

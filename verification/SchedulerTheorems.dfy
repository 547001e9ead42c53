/**
 What a conforming trace guarantees, between any two of its positions. These
 statements mention only trace entries; `EveryRunConforms` makes them statements
 about every run of the scheduler.
 */
module SchedulerTheorems {
  import opened Options
  import opened SchedulerTrace

  // ---- The monitor's states along a trace ----

  predicate Step(cfg: Config, m: Monitor, e: Entry, m': Monitor) {
    Admissible(cfg, m, e) && m' == Track(m, e)
  }

  predicate Observed(cfg: Config, log: seq<Entry>, ms: seq<Monitor>) {
    && |ms| == |log| + 1 && ms[0] == Initially
    && forall i :: 0 <= i < |log| ==> Step(cfg, ms[i], log[i], ms[i + 1])
  }

  lemma {:induction false} Observe(cfg: Config, log: seq<Entry>) returns (ms: seq<Monitor>)
    requires Conforms(cfg, log)
    ensures Observed(cfg, log, ms) && ms[|log|] == Mon(log)
    decreases |log|
  {
    if log == [] {
      ms := [Initially];
    } else {
      var n := |log| - 1;
      var ms' := Observe(cfg, log[..n]);
      ms := ms' + [Mon(log)];
      forall i | 0 <= i < |log| ensures Step(cfg, ms[i], log[i], ms[i + 1]) {
        if i < n { assert log[..n][i] == log[i]; }
      }
    }
  }

  // ---- One allocation, one operation ----

  /** Ends the residency of an allocation: a successful Stop or a clean failed Start. */
  predicate Frees(e: Entry) {
    e.Stopped? || (e.StartFailed? && !Dirty(e.err))
  }

  predicate BeginsOperation(e: Entry) { e.Starting? || e.Stopping? }

  predicate EndsOperation(e: Entry) { e.Started? || e.StartFailed? || e.Stopped? || e.StopFailed? }

  lemma {:induction false} HeldUntilFreed(cfg: Config, log: seq<Entry>, ms: seq<Monitor>, i: nat, j: nat)
    requires Observed(cfg, log, ms) && i < j <= |log| && log[i].Starting?
    requires forall k :: i < k < j ==> !Frees(log[k])
    ensures !ms[j].residency.Vacant?
    decreases j
  {
    assert Step(cfg, ms[j - 1], log[j - 1], ms[j]);
    if i < j - 1 { HeldUntilFreed(cfg, log, ms, i, j - 1); }
  }

  /** At most one allocation is resident: between two Starts the first one was freed. */
  lemma OneAllocation(cfg: Config, log: seq<Entry>, i: nat, j: nat)
    requires Conforms(cfg, log) && i < j < |log| && log[i].Starting? && log[j].Starting?
    ensures exists k :: i < k < j && Frees(log[k])
  {
    var ms := Observe(cfg, log);
    assert Step(cfg, ms[j], log[j], ms[j + 1]);
    if forall k :: i < k < j ==> !Frees(log[k]) { HeldUntilFreed(cfg, log, ms, i, j); }
  }

  lemma {:induction false} BusyUntilEnded(cfg: Config, log: seq<Entry>, ms: seq<Monitor>, i: nat, j: nat)
    requires Observed(cfg, log, ms) && i < j <= |log| && BeginsOperation(log[i])
    requires forall k :: i < k < j ==> !EndsOperation(log[k])
    ensures ms[j].residency.Coming? || ms[j].residency.Going?
    decreases j
  {
    assert Step(cfg, ms[j - 1], log[j - 1], ms[j]);
    if i < j - 1 { BusyUntilEnded(cfg, log, ms, i, j - 1); }
  }

  lemma OperationsNeverOverlap(cfg: Config, log: seq<Entry>, i: nat, j: nat)
    requires Conforms(cfg, log) && i < j < |log| && BeginsOperation(log[i]) && BeginsOperation(log[j])
    ensures exists k :: i < k < j && EndsOperation(log[k])
  {
    var ms := Observe(cfg, log);
    assert Step(cfg, ms[j], log[j], ms[j + 1]);
    if forall k :: i < k < j ==> !EndsOperation(log[k]) { BusyUntilEnded(cfg, log, ms, i, j); }
  }

  // ---- Leases ----

  lemma {:induction false} LeasedUntilReleased(cfg: Config, log: seq<Entry>, ms: seq<Monitor>, i: nat, j: nat)
    requires Observed(cfg, log, ms) && i < j <= |log| && log[i].Granted?
    requires forall k :: i < k < j ==> log[k] != Released(log[i].id)
    ensures log[i].id in ms[j].leases
    decreases j
  {
    assert Step(cfg, ms[j - 1], log[j - 1], ms[j]);
    if i < j - 1 { LeasedUntilReleased(cfg, log, ms, i, j - 1); }
  }

  lemma NeedsNoLease(cfg: Config, m: Monitor, e: Entry)
    requires Admissible(cfg, m, e) && (BeginsOperation(e) || e.Finished?)
    ensures m.leases == {}
  {}

  predicate ReleasedIn(log: seq<Entry>, i: nat, j: nat, id: RequestId)
    requires j <= |log|
  {
    exists k :: i < k < j && log[k] == Released(id)
  }

  /** No operation begins, and the loop does not end, under a live lease. */
  lemma NothingUnderALease(cfg: Config, log: seq<Entry>, i: nat, j: nat)
    requires Conforms(cfg, log) && i < j < |log| && log[i].Granted?
    requires BeginsOperation(log[j]) || log[j].Finished?
    ensures ReleasedIn(log, i, j, log[i].id)
  {
    if !ReleasedIn(log, i, j, log[i].id) {
      var ms := Observe(cfg, log);
      LeasedUntilReleased(cfg, log, ms, i, j);
      NeedsNoLease(cfg, ms[j], log[j]);
      assert false;
    }
  }

  /** The Start at `b` is the last one before `j`. */
  predicate LastStart(log: seq<Entry>, b: nat, j: nat)
    requires b < j <= |log|
  {
    log[b].Starting? && forall k :: b < k < j ==> !log[k].Starting?
  }

  predicate Present(m: Monitor) { m.residency.Coming? || m.residency.Up? }

  /** An allocation is present by a Start, or because it was. */
  lemma PresenceStep(cfg: Config, m: Monitor, e: Entry)
    requires Admissible(cfg, m, e) && Present(Track(m, e))
    ensures var n := Track(m, e);
      if e.Starting? then e.lease == Lease(n.residency.alloc, n.gen)
      else Present(m) && m.residency.alloc == n.residency.alloc && m.gen == n.gen
  {}

  /** While a Start is in flight, the last one in the trace is it. */
  lemma {:induction false} ComingIsLastStart(cfg: Config, log: seq<Entry>, ms: seq<Monitor>, j: nat) returns (b: nat)
    requires Observed(cfg, log, ms) && j <= |log| && Present(ms[j])
    ensures b < j && LastStart(log, b, j) && log[b].lease == Lease(ms[j].residency.alloc, ms[j].gen)
    decreases j
  {
    assert Step(cfg, ms[j - 1], log[j - 1], ms[j]);
    PresenceStep(cfg, ms[j - 1], log[j - 1]);
    if log[j - 1].Starting? {
      b := j - 1;
    } else {
      b := ComingIsLastStart(cfg, log, ms, j - 1);
    }
  }

  lemma {:induction false} UpHasStarted(cfg: Config, log: seq<Entry>, ms: seq<Monitor>, j: nat) returns (u: nat)
    requires Observed(cfg, log, ms) && j <= |log| && ms[j].residency.Up?
    ensures u < j && log[u].Started? && ms[j].url == Some(log[u].url)
    ensures forall k :: u < k < j ==> !log[k].Started? && !log[k].Starting?
    decreases j
  {
    assert Step(cfg, ms[j - 1], log[j - 1], ms[j]);
    if log[j - 1].Started? {
      u := j - 1;
    } else {
      u := UpHasStarted(cfg, log, ms, j - 1);
    }
  }

  predicate UpSince(log: seq<Entry>, b: nat, u: nat, j: nat)
    requires j < |log|
  {
    && b < u < j && LastStart(log, b, j) && log[u].Started?
    && forall k :: u < k < j ==> !log[k].Started?
  }

  /** A lease carries the upstream that the Start of its own generation returned. */
  lemma LeaseCarriesItsUpstream(cfg: Config, log: seq<Entry>, j: nat)
    requires Conforms(cfg, log) && j < |log| && log[j].Granted?
    ensures exists b: nat, u: nat :: UpSince(log, b, u, j) && log[b].lease == log[j].lease && log[j].up == Some(log[u].url)
  {
    var ms := Observe(cfg, log);
    assert Step(cfg, ms[j], log[j], ms[j + 1]);
    var b := ComingIsLastStart(cfg, log, ms, j);
    var u := UpHasStarted(cfg, log, ms, j);
    assert u != b;
    assert UpSince(log, b, u, j);
  }

  // ---- Failure fencing ----

  predicate IssuedSoFar(m: Monitor) {
    forall id :: id in m.issued ==> m.issued[id].gen <= m.gen
  }

  lemma IssuedStep(cfg: Config, m: Monitor, e: Entry)
    requires IssuedSoFar(m) && Admissible(cfg, m, e)
    ensures IssuedSoFar(Track(m, e))
    ensures e.LeaseFailed? ==> e.lease.gen <= m.gen
  {}

  predicate Fenced(m: Monitor, gen: nat) {
    m.gen > gen || (m.gen == gen && m.poisoned)
  }

  lemma FencedStep(cfg: Config, m: Monitor, e: Entry, gen: nat)
    requires Fenced(m, gen) && Admissible(cfg, m, e)
    ensures Fenced(Track(m, e), gen)
    ensures e.Granted? ==> e.lease.gen != gen
  {}

  lemma {:induction false} IssuedGenerations(cfg: Config, log: seq<Entry>, ms: seq<Monitor>, j: nat)
    requires Observed(cfg, log, ms) && j <= |log|
    ensures IssuedSoFar(ms[j])
  {
    if j > 0 {
      IssuedGenerations(cfg, log, ms, j - 1);
      assert Step(cfg, ms[j - 1], log[j - 1], ms[j]);
      IssuedStep(cfg, ms[j - 1], log[j - 1]);
    }
  }

  lemma {:induction false} FencedAfter(cfg: Config, log: seq<Entry>, ms: seq<Monitor>, i: nat, j: nat)
    requires Observed(cfg, log, ms) && i < j <= |log| && log[i].LeaseFailed?
    ensures Fenced(ms[j], log[i].lease.gen)
    decreases j
  {
    assert Step(cfg, ms[j - 1], log[j - 1], ms[j]);
    if i < j - 1 {
      FencedAfter(cfg, log, ms, i, j - 1);
      FencedStep(cfg, ms[j - 1], log[j - 1], log[i].lease.gen);
    } else {
      IssuedGenerations(cfg, log, ms, i);
      IssuedStep(cfg, ms[i], log[i]);
    }
  }

  /** Once a failure has been processed, no further lease of its generation is granted. */
  lemma FailureFences(cfg: Config, log: seq<Entry>, i: nat, j: nat)
    requires Conforms(cfg, log) && i < j < |log| && log[i].LeaseFailed? && log[j].Granted?
    ensures log[j].lease.gen != log[i].lease.gen
  {
    var ms := Observe(cfg, log);
    assert Step(cfg, ms[j], log[j], ms[j + 1]);
    FencedAfter(cfg, log, ms, i, j);
    FencedStep(cfg, ms[j], log[j], log[i].lease.gen);
  }

  // ---- Failed cleanup ----

  predicate CleanupFails(e: Entry) {
    e.StopFailed? || (e.StartFailed? && Dirty(e.err))
  }

  /** Until the next Start, the allocation last started is the only one there can be. */
  predicate Hosts(m: Monitor, l: Lease) {
    m.gen == l.gen && (m.residency.Vacant? || m.residency.alloc == l.alloc)
  }

  lemma HostsStep(cfg: Config, m: Monitor, e: Entry, l: Lease)
    requires Admissible(cfg, m, e)
    ensures e == Starting(l) || (Hosts(m, l) && !e.Starting?) ==> Hosts(Track(m, e), l)
  {}

  lemma {:induction false} HostsUntilNext(cfg: Config, log: seq<Entry>, ms: seq<Monitor>, b: nat, j: nat)
    requires Observed(cfg, log, ms) && b < j <= |log| && log[b].Starting?
    requires forall k :: b < k < j ==> !log[k].Starting?
    ensures Hosts(ms[j], log[b].lease)
    decreases j
  {
    assert Step(cfg, ms[j - 1], log[j - 1], ms[j]);
    HostsStep(cfg, ms[j - 1], log[j - 1], log[b].lease);
    if b < j - 1 { HostsUntilNext(cfg, log, ms, b, j - 1); }
  }

  predicate Confined(m: Monitor) {
    m.residency.Stuck? || (m.shut && (m.residency.Going? || m.residency.Vacant?))
  }

  /** What may still happen once residency is uncertain. */
  lemma ConfinedStep(cfg: Config, m: Monitor, e: Entry, l: Lease)
    requires Confined(m) && Admissible(cfg, m, e)
    ensures Confined(Track(m, e)) && !e.Starting? && !e.Granted? && !e.Accepted?
    ensures e.Stopping? ==> m.shut && (Hosts(m, l) ==> e.lease == l)
  {}

  lemma {:induction false} ConfinedAfter(cfg: Config, log: seq<Entry>, ms: seq<Monitor>, i: nat, j: nat)
    requires Observed(cfg, log, ms) && i < j <= |log| && CleanupFails(log[i])
    ensures Confined(ms[j])
    ensures forall k :: i < k < j ==> !log[k].Starting?
    decreases j
  {
    assert Step(cfg, ms[j - 1], log[j - 1], ms[j]);
    if i < j - 1 {
      ConfinedAfter(cfg, log, ms, i, j - 1);
      ConfinedStep(cfg, ms[j - 1], log[j - 1], Lease(LlamaCpp, 0));
    }
  }

  /**
   After cleanup of the allocation started at `b` fails there is no Start, no
   lease and no new waiter; a Stop comes only after shutdown was asked for, and
   it stops exactly that allocation.
   */
  lemma FailedCleanupConfines(cfg: Config, log: seq<Entry>, b: nat, i: nat, j: nat)
    requires Conforms(cfg, log) && b < i < j < |log| && CleanupFails(log[i])
    requires log[b].Starting? && forall k :: b < k < i ==> !log[k].Starting?
    ensures !log[j].Starting? && !log[j].Granted? && !log[j].Accepted?
    ensures log[j].Stopping? ==>
      log[j].lease == log[b].lease && exists k :: 0 <= k < j && log[k].ShutdownAsked?
  {
    var ms := Observe(cfg, log);
    assert Step(cfg, ms[j], log[j], ms[j + 1]);
    ConfinedAfter(cfg, log, ms, i, j);
    ConfinedStep(cfg, ms[j], log[j], log[b].lease);
    HostsUntilNext(cfg, log, ms, b, j);
    ShutMeansAsked(cfg, log, ms, j);
  }

  // ---- First come, first served ----

  predicate Resolves(e: Entry, id: RequestId) {
    (e.Granted? || e.Withdrawn? || e.Denied?) && e.id == id
  }

  /** `x` waits, and nothing up to it is `y`. */
  predicate Ahead(q: seq<Waiter>, x: RequestId, y: RequestId) {
    q != [] && q[0].id != y && (q[0].id == x || Ahead(q[1..], x, y))
  }

  lemma {:induction false} AheadStays(q: seq<Waiter>, x: RequestId, y: RequestId, id: RequestId)
    requires Ahead(q, x, y) && id != x
    ensures Ahead(Without(q, id), x, y)
  {
    if q[0].id != id && q[0].id != x { AheadStays(q[1..], x, y, id); }
  }

  lemma {:induction false} AheadAppend(q: seq<Waiter>, x: RequestId, y: RequestId, w: Waiter)
    requires Ahead(q, x, y)
    ensures Ahead(q + [w], x, y)
  {
    if q[0].id != x {
      AheadAppend(q[1..], x, y, w);
      assert (q + [w])[1..] == q[1..] + [w];
    }
  }

  lemma {:induction false} AheadNew(q: seq<Waiter>, x: Waiter, y: RequestId)
    requires y != x.id && !Waits(q, y)
    ensures Ahead(q + [x], x.id, y)
  {
    if q != [] {
      assert forall i :: 0 <= i < |q[1..]| ==> q[1..][i] == q[i + 1];
      AheadNew(q[1..], x, y);
      assert (q + [x])[1..] == q[1..] + [x];
    }
  }

  lemma {:induction false} WithoutIsPart(q: seq<Waiter>, id: RequestId)
    ensures |Without(q, id)| <= |q|
    ensures forall w :: w in Without(q, id) ==> w in q
  {
    if q != [] { WithoutIsPart(q[1..], id); }
  }

  predicate WaitersSeen(cfg: Config, m: Monitor) {
    |m.waiting| <= cfg.queueMax && forall w :: w in m.waiting ==> w.id in m.seen
  }

  lemma {:induction false} WaitingIsSeen(cfg: Config, log: seq<Entry>, ms: seq<Monitor>, j: nat)
    requires Observed(cfg, log, ms) && j <= |log|
    ensures WaitersSeen(cfg, ms[j])
  {
    if j > 0 {
      WaitingIsSeen(cfg, log, ms, j - 1);
      assert Step(cfg, ms[j - 1], log[j - 1], ms[j]);
      var e := log[j - 1];
      if e.Granted? || e.Withdrawn? || e.Denied? { WithoutIsPart(ms[j - 1].waiting, e.id); }
    }
  }

  lemma {:induction false} SeenGrows(cfg: Config, log: seq<Entry>, ms: seq<Monitor>, i: nat, j: nat)
    requires Observed(cfg, log, ms) && i <= j <= |log|
    ensures ms[i].seen <= ms[j].seen
    decreases j
  {
    if i < j {
      SeenGrows(cfg, log, ms, i, j - 1);
      assert Step(cfg, ms[j - 1], log[j - 1], ms[j]);
    }
  }

  lemma {:induction false} AheadUntilResolved(cfg: Config, log: seq<Entry>, ms: seq<Monitor>, i: nat, j: nat, y: RequestId)
    requires Observed(cfg, log, ms) && i < j <= |log| && log[i].Accepted?
    requires y !in ms[i].seen && y != log[i].id
    requires forall k :: i < k < j ==> !Resolves(log[k], log[i].id)
    ensures Ahead(ms[j].waiting, log[i].id, y)
    decreases j
  {
    var e, m := log[j - 1], ms[j - 1];
    assert Step(cfg, m, e, ms[j]);
    if i == j - 1 {
      WaitingIsSeen(cfg, log, ms, i);
      AheadNew(m.waiting, Waiter(e.id, e.alloc), y);
    } else {
      AheadUntilResolved(cfg, log, ms, i, j - 1, y);
      if e.Granted? || e.Withdrawn? || e.Denied? {
        AheadStays(m.waiting, log[i].id, y, e.id);
      } else if e.Accepted? {
        AheadAppend(m.waiting, log[i].id, y, Waiter(e.id, e.alloc));
      }
    }
  }

  /** No overtaking: a grant finds every earlier accepted request already answered. */
  lemma FirstComeFirstServed(cfg: Config, log: seq<Entry>, i: nat, j: nat, k: nat)
    requires Conforms(cfg, log) && i < j < k < |log|
    requires log[i].Accepted? && log[j].Accepted? && log[k].Granted? && log[k].id == log[j].id
    ensures exists n :: i < n < k && Resolves(log[n], log[i].id)
  {
    var ms := Observe(cfg, log);
    assert Step(cfg, ms[i], log[i], ms[i + 1]);
    assert Step(cfg, ms[j], log[j], ms[j + 1]);
    assert Step(cfg, ms[k], log[k], ms[k + 1]);
    SeenGrows(cfg, log, ms, i, j);
    SeenGrows(cfg, log, ms, i + 1, j);
    if forall n :: i < n < k ==> !Resolves(log[n], log[i].id) {
      AheadUntilResolved(cfg, log, ms, i, k, log[j].id);
    }
  }

  // ---- Bounds ----

  predicate LeasesBounded(cfg: Config, m: Monitor) {
    if m.residency.Up? then
      m.residency.alloc in cfg.limits && cfg.limits[m.residency.alloc] > 0 ==> |m.leases| <= cfg.limits[m.residency.alloc]
    else m.leases == {}
  }

  lemma BoundedStep(cfg: Config, m: Monitor, e: Entry)
    requires LeasesBounded(cfg, m) && Admissible(cfg, m, e)
    ensures LeasesBounded(cfg, Track(m, e))
  {
    if e.Granted? && e.id !in m.leases { assert |m.leases + {e.id}| == |m.leases| + 1; }
    if e.Released? { assert |m.leases - {e.id}| <= |m.leases|; }
  }

  lemma {:induction false} LeasesStayBounded(cfg: Config, log: seq<Entry>, ms: seq<Monitor>, j: nat)
    requires Observed(cfg, log, ms) && j <= |log|
    ensures LeasesBounded(cfg, ms[j])
  {
    if j > 0 {
      LeasesStayBounded(cfg, log, ms, j - 1);
      assert Step(cfg, ms[j - 1], log[j - 1], ms[j]);
      BoundedStep(cfg, ms[j - 1], log[j - 1]);
    }
  }

  /** The queue bound and, when positive, the concurrency limit hold after every trace. */
  lemma BoundsHold(cfg: Config, log: seq<Entry>)
    requires Conforms(cfg, log)
    ensures |Mon(log).waiting| <= cfg.queueMax
    ensures LeasesBounded(cfg, Mon(log))
  {
    var ms := Observe(cfg, log);
    WaitingIsSeen(cfg, log, ms, |log|);
    LeasesStayBounded(cfg, log, ms, |log|);
  }

  /** `id` was granted and its release has not been processed. */
  predicate Outstanding(log: seq<Entry>, id: RequestId) {
    exists i :: 0 <= i < |log| && log[i].Granted? && log[i].id == id && NotReleased(log, i, id)
  }

  predicate NotReleased(log: seq<Entry>, i: nat, id: RequestId) {
    forall k :: i < k < |log| ==> log[k] != Released(id)
  }

  lemma OutstandingSnoc(log: seq<Entry>, e: Entry, id: RequestId)
    ensures Outstanding(log + [e], id)
       <==> (e.Granted? && e.id == id) || (Outstanding(log, id) && e != Released(id))
  {
    var t := log + [e];
    if Outstanding(log, id) && e != Released(id) {
      var i :| 0 <= i < |log| && log[i].Granted? && log[i].id == id && NotReleased(log, i, id);
      assert t[i] == log[i] && NotReleased(t, i, id);
    }
    if e.Granted? && e.id == id { assert t[|log|] == e && NotReleased(t, |log|, id); }
    if Outstanding(t, id) && !(e.Granted? && e.id == id) {
      var i :| 0 <= i < |t| && t[i].Granted? && t[i].id == id && NotReleased(t, i, id);
      assert t[|log|] == e && t[i] == log[i];
      forall k | i < k < |log| ensures log[k] != Released(id) { assert t[k] == log[k]; }
    }
  }

  /** The monitor's leases are the outstanding ones of the trace. */
  lemma {:induction false} LeasesAreOutstanding(log: seq<Entry>, id: RequestId)
    ensures id in Mon(log).leases <==> Outstanding(log, id)
  {
    if log != [] {
      var front, e := log[..|log| - 1], log[|log| - 1];
      LeasesAreOutstanding(front, id);
      OutstandingSnoc(front, e, id);
      assert log == front + [e];
    }
  }

  // ---- Shutdown ----

  lemma {:induction false} ShutMeansAsked(cfg: Config, log: seq<Entry>, ms: seq<Monitor>, j: nat)
    requires Observed(cfg, log, ms) && j <= |log|
    ensures ms[j].shut <==> exists k :: 0 <= k < j && log[k].ShutdownAsked?
  {
    if j > 0 {
      ShutMeansAsked(cfg, log, ms, j - 1);
      assert Step(cfg, ms[j - 1], log[j - 1], ms[j]);
    }
  }

  lemma {:induction false} StopsCounted(cfg: Config, log: seq<Entry>, ms: seq<Monitor>, i: nat, j: nat)
    requires Observed(cfg, log, ms) && i < j <= |log| && log[i].Stopping? && ms[i].shut
    ensures ms[j].shut && ms[j].stops > 0
    decreases j
  {
    assert Step(cfg, ms[j - 1], log[j - 1], ms[j]);
    if i < j - 1 { StopsCounted(cfg, log, ms, i, j - 1); }
  }

  /** Once shutdown begins nothing is granted, accepted or started, and at most one Stop is issued. */
  lemma ShutdownIsFinal(cfg: Config, log: seq<Entry>, i: nat, j: nat, k: nat)
    requires Conforms(cfg, log) && i < j < |log| && log[i].ShutdownAsked?
    ensures !log[j].Granted? && !log[j].Starting? && !log[j].Accepted?
    ensures j < k < |log| && log[j].Stopping? ==> !log[k].Stopping?
  {
    var ms := Observe(cfg, log);
    assert Step(cfg, ms[j], log[j], ms[j + 1]);
    ShutMeansAsked(cfg, log, ms, j);
    if j < k < |log| && log[j].Stopping? {
      StopsCounted(cfg, log, ms, j, k);
      assert Step(cfg, ms[k], log[k], ms[k + 1]);
    }
  }

  lemma {:induction false} FinishedStays(cfg: Config, log: seq<Entry>, ms: seq<Monitor>, i: nat, j: nat)
    requires Observed(cfg, log, ms) && i < j <= |log| && log[i].Finished?
    ensures ms[j].finished && j == i + 1
    decreases j
  {
    assert Step(cfg, ms[j - 1], log[j - 1], ms[j]);
    if i < j - 1 { FinishedStays(cfg, log, ms, i, j - 1); }
  }

  /** The shutdown callers of a trace, in the order they asked. */
  function Asked(log: seq<Entry>): seq<ReplyId> {
    if log == [] then []
    else (if log[0].ShutdownAsked? then [log[0].reply] else []) + Asked(log[1..])
  }

  lemma {:induction false} AskedSnoc(log: seq<Entry>, e: Entry)
    ensures Asked(log + [e]) == Asked(log) + (if e.ShutdownAsked? then [e.reply] else [])
  {
    if log != [] {
      AskedSnoc(log[1..], e);
      assert (log + [e])[1..] == log[1..] + [e];
    }
  }

  lemma {:induction false} RepliesAreAsked(cfg: Config, log: seq<Entry>, ms: seq<Monitor>, j: nat)
    requires Observed(cfg, log, ms) && j <= |log|
    ensures ms[j].replies == Asked(log[..j])
  {
    if j > 0 {
      RepliesAreAsked(cfg, log, ms, j - 1);
      assert Step(cfg, ms[j - 1], log[j - 1], ms[j]);
      AskedSnoc(log[..j - 1], log[j - 1]);
      assert log[..j] == log[..j - 1] + [log[j - 1]];
    }
  }

  lemma StopFailureStep(cfg: Config, m: Monitor, e: Entry)
    requires Admissible(cfg, m, e) && Track(m, e).stopFailure.Some?
    ensures m.stopFailure == Track(m, e).stopFailure || (m.shut && e == StopFailed(Track(m, e).stopFailure.value))
  {}

  lemma {:induction false} StopFailureSeen(cfg: Config, log: seq<Entry>, ms: seq<Monitor>, j: nat)
    requires Observed(cfg, log, ms) && j <= |log| && ms[j].stopFailure.Some?
    ensures exists a, k :: 0 <= a < k < j && log[a].ShutdownAsked? && log[k] == StopFailed(ms[j].stopFailure.value)
  {
    var n := j - 1;
    assert Step(cfg, ms[n], log[n], ms[j]);
    StopFailureStep(cfg, ms[n], log[n]);
    if ms[n].stopFailure == ms[j].stopFailure {
      StopFailureSeen(cfg, log, ms, n);
    } else {
      ShutMeansAsked(cfg, log, ms, n);
      var a :| 0 <= a < n && log[a].ShutdownAsked?;
      assert log[n] == StopFailed(ms[j].stopFailure.value);
    }
  }

  lemma {:induction false} FreshAbove(s: set<RequestId>, lo: RequestId)
    ensures exists y: RequestId :: y > lo && y !in s
    decreases |s|
  {
    if lo + 1 in s {
      FreshAbove(s - {lo + 1}, lo + 1);
      var y: RequestId :| y > lo + 1 && y !in s - {lo + 1};
      assert y > lo && y !in s;
    } else {
      assert lo + 1 > lo;
    }
  }

  lemma WaitingUntilResolved(cfg: Config, log: seq<Entry>, ms: seq<Monitor>, i: nat, j: nat)
    requires Observed(cfg, log, ms) && i < j <= |log| && log[i].Accepted?
    requires forall k :: i < k < j ==> !Resolves(log[k], log[i].id)
    ensures ms[j].waiting != []
  {
    FreshAbove(ms[i].seen, log[i].id);
    var y: RequestId :| y > log[i].id && y !in ms[i].seen;
    AheadUntilResolved(cfg, log, ms, i, j, y);
  }

  /**
   The loop ends at most once, as its last act: by then every accepted request
   has been answered and every lease released.
   */
  lemma FinishSettlesCallers(cfg: Config, log: seq<Entry>, i: nat, j: nat)
    requires Conforms(cfg, log) && i < j < |log| && log[j].Finished?
    ensures j == |log| - 1
    ensures log[i].Accepted? ==> ResolvedIn(log, i, j, log[i].id)
    ensures log[i].Granted? ==> ReleasedIn(log, i, j, log[i].id)
  {
    FinishIsLast(cfg, log, j);
    if log[i].Accepted? { FinishAnswersCallers(cfg, log, i, j); }
    if log[i].Granted? { NothingUnderALease(cfg, log, i, j); }
  }

  lemma FinishIsLast(cfg: Config, log: seq<Entry>, j: nat)
    requires Conforms(cfg, log) && j < |log| && log[j].Finished?
    ensures j == |log| - 1
  {
    var ms := Observe(cfg, log);
    FinishedStays(cfg, log, ms, j, |log|);
  }

  predicate ResolvedIn(log: seq<Entry>, i: nat, j: nat, id: RequestId)
    requires j <= |log|
  {
    exists k :: i < k < j && Resolves(log[k], id)
  }

  lemma NeedsNobody(cfg: Config, m: Monitor, e: Entry)
    requires Admissible(cfg, m, e) && e.Finished?
    ensures m.waiting == []
  {}

  lemma FinishAnswersCallers(cfg: Config, log: seq<Entry>, i: nat, j: nat)
    requires Conforms(cfg, log) && i < j < |log| && log[j].Finished? && log[i].Accepted?
    ensures ResolvedIn(log, i, j, log[i].id)
  {
    if !ResolvedIn(log, i, j, log[i].id) {
      var ms := Observe(cfg, log);
      assert Step(cfg, ms[j], log[j], ms[j + 1]);
      WaitingUntilResolved(cfg, log, ms, i, j);
      NeedsNobody(cfg, ms[j], log[j]);
      assert false;
    }
  }

  /**
   Every shutdown caller gets the same answer: success only when every allocation
   ever started has been freed, otherwise the error of a Stop that failed after
   shutdown was asked for.
   */
  lemma FinishAnswersShutdown(cfg: Config, log: seq<Entry>, i: nat, j: nat)
    requires Conforms(cfg, log) && i < j < |log| && log[j].Finished?
    ensures log[j].replies == Asked(log[..j])
    ensures log[i].Starting? && log[j].result.None? ==> exists k :: i < k < j && Frees(log[k])
    ensures log[j].result.Some? ==>
      exists a, k :: 0 <= a < k < j && log[a].ShutdownAsked? && log[k] == StopFailed(log[j].result.value)
  {
    var ms := Observe(cfg, log);
    assert Step(cfg, ms[j], log[j], ms[j + 1]);
    RepliesAreAsked(cfg, log, ms, j);
    if log[i].Starting? && log[j].result.None? && forall k :: i < k < j ==> !Frees(log[k]) {
      HeldUntilFreed(cfg, log, ms, i, j);
    }
    if log[j].result.Some? { StopFailureSeen(cfg, log, ms, j); }
  }

  predicate NoStopFailure(m: Monitor) {
    !m.shut || m.residency.Coming? || m.residency.Up? ==> m.stopFailure.None?
  }

  lemma NoStopFailureStep(cfg: Config, m: Monitor, e: Entry)
    requires NoStopFailure(m) && Admissible(cfg, m, e)
    ensures NoStopFailure(Track(m, e))
  {}

  lemma {:induction false} NoStopFailureBefore(cfg: Config, log: seq<Entry>, ms: seq<Monitor>, j: nat)
    requires Observed(cfg, log, ms) && j <= |log|
    ensures NoStopFailure(ms[j])
  {
    if j > 0 {
      NoStopFailureBefore(cfg, log, ms, j - 1);
      assert Step(cfg, ms[j - 1], log[j - 1], ms[j]);
      NoStopFailureStep(cfg, ms[j - 1], log[j - 1]);
    }
  }

  lemma {:induction false} StuckUntilStop(cfg: Config, log: seq<Entry>, ms: seq<Monitor>, i: nat, j: nat)
    requires Observed(cfg, log, ms) && i < j <= |log| && CleanupFails(log[i]) && (log[i].StopFailed? ==> !ms[i].shut)
    requires forall k :: i < k < j ==> !log[k].Stopping?
    ensures ms[j].residency.Stuck? && ms[j].stopFailure.None?
    decreases j
  {
    assert Step(cfg, ms[j - 1], log[j - 1], ms[j]);
    if i < j - 1 {
      StuckUntilStop(cfg, log, ms, i, j - 1);
    } else {
      NoStopFailureBefore(cfg, log, ms, i);
    }
  }

  predicate OnlyStopIn(log: seq<Entry>, i: nat, j: nat, k: nat)
    requires j <= |log|
  {
    forall n :: i < n < j && n != k ==> !log[n].Stopping?
  }

  lemma OneStopAfterFailedCleanup(cfg: Config, log: seq<Entry>, b: nat, i: nat, j: nat, k: nat)
    requires Conforms(cfg, log) && b < i < j < k < |log| && CleanupFails(log[i])
    requires log[b].Starting? && forall n :: b < n < i ==> !log[n].Starting?
    ensures !(log[j].Stopping? && log[k].Stopping?)
  {
    if log[j].Stopping? && log[k].Stopping? {
      FailedCleanupConfines(cfg, log, b, i, j);
      var a :| 0 <= a < j && log[a].ShutdownAsked?;
      ShutdownIsFinal(cfg, log, a, j, k);
    }
  }

  /**
   An allocation whose cleanup failed gets exactly one Stop before the loop ends,
   unless what failed was already the Stop of a shutdown.
   */
  lemma {:induction false} StuckIsStoppedOnce(cfg: Config, log: seq<Entry>, b: nat, i: nat, j: nat)
    requires Conforms(cfg, log) && b < i < j < |log| && CleanupFails(log[i]) && log[j].Finished?
    requires log[b].Starting? && forall n :: b < n < i ==> !log[n].Starting?
    requires log[i].StopFailed? ==> forall k :: 0 <= k < i ==> !log[k].ShutdownAsked?
    ensures exists k :: i < k < j && log[k] == Stopping(log[b].lease) && OnlyStopIn(log, i, j, k)
  {
    var ms := Observe(cfg, log);
    ShutMeansAsked(cfg, log, ms, i);
    assert Step(cfg, ms[j], log[j], ms[j + 1]);
    if forall k :: i < k < j ==> !log[k].Stopping? { StuckUntilStop(cfg, log, ms, i, j); }
    var k :| i < k < j && log[k].Stopping?;
    FailedCleanupConfines(cfg, log, b, i, k);
    forall n | i < n < j && n != k
      ensures !log[n].Stopping?
    {
      OneStopAfterFailedCleanup(cfg, log, b, i, if n < k then n else k, if n < k then k else n);
    }
  }
}

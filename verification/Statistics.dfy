/**
 Loss accounting of the statistics store, as steps of its goroutines: recorders
 offering events to a bounded queue, one writer collecting batches and committing
 them, and losses counted in wrapping 64-bit arithmetic while a transaction that
 has already sampled the counter is still open.
 */
module Statistics {
  import opened Options
  import opened Counters

  const WRAP: nat := 0x1_0000_0000_0000_0000
  const BATCH: nat := 128

  function Wrap(x: int): (r: nat)
    ensures r < WRAP
  {
    x % WRAP
  }

  // ---- The statistics_health table ----

  datatype DayLoss = DayLoss(day: nat, dropped: nat)

  function Sum(h: seq<DayLoss>): nat { if h == [] then 0 else h[0].dropped + Sum(h[1..]) }

  function AddLoss(h: seq<DayLoss>, today: nat, delta: nat): seq<DayLoss> {
    if h == [] then [DayLoss(today, Cap(delta, MAX_INT64))]
    else if h[0].day == today then [DayLoss(today, CappedAdd(h[0].dropped, Cap(delta, MAX_INT64)))] + h[1..]
    else [h[0]] + AddLoss(h[1..], today, delta)
  }

  function Expire(h: seq<DayLoss>, cutoff: nat): seq<DayLoss> {
    if h == [] then [] else (if h[0].day < cutoff then [] else [h[0]]) + Expire(h[1..], cutoff)
  }

  // ---- State ----

  /** The writer: between transactions, inside one that has sampled `dropped`, or about to settle `pending`. */
  datatype Writer =
    | Idle
    | Sampled(sample: nat, final: bool)
    | Landed(count: nat, final: bool)
    | Stopped

  datatype Stats = Stats(
    queue: seq<Event>,
    recording: Option<Event>,                          // a Record call after its pending.Add(1)
    batch: seq<Event>,
    writer: Writer,
    pending: nat, dropped: nat, persisted: nat,        // 64-bit counters
    health: seq<DayLoss>,
    failed: bool, closed: bool,
    // what really happened
    offered: multiset<Event>,
    committed: seq<Batch>,
    lost: multiset<Event>,
    reported: nat,                                     // losses covered by committed transactions
    uncommitted: nat,                                  // losses not yet covered
    covered: nat)                                      // losses the open transaction's sample accounts for

  function Opened(health: seq<DayLoss>): Stats {
    Stats([], None, [], Idle, 0, Wrap(Sum(health)), Wrap(Sum(health)), health, false, false,
          multiset{}, [], multiset{}, 0, 0, 0)
  }

  // ---- Steps ----

  datatype Action =
    | Offer(e: Event)                                  // Record, up to pending.Add(1)
    | Settle                                           // the non-blocking send, or the drop
    | Take                                             // the writer receives one event
    | Sample(closing: bool)                            // a transaction reads `dropped`
    | CommitTx(today: nat, cutoff: nat)
    | FailTx                                           // writeBatch returns an error
    | Land                                             // pending.Add(-len(batch))
    | Close

  /** The table a commit would leave. */
  function NewHealth(s: Stats, today: nat, cutoff: nat): seq<DayLoss>
    requires s.writer.Sampled?
  {
    var delta := Wrap(s.writer.sample - s.persisted);
    Expire(if delta > 0 || s.failed then AddLoss(s.health, today, delta) else s.health, cutoff)
  }

  function CommitWith(s: Stats, health: seq<DayLoss>, cutoff: nat): Stats
    requires s.writer.Sampled?
  {
    var retained := Sum(health);
    s.(dropped := Wrap(s.dropped + retained - s.writer.sample), persisted := retained, health := health,
       committed := s.committed + [Batch(s.batch, cutoff)],
       reported := s.reported + s.covered, uncommitted := Less(s.uncommitted, s.covered),
       batch := [], writer := Landed(|s.batch|, s.writer.final))
  }

  predicate Enabled(s: Stats, a: Action) {
    match a
    case Offer(_) => !s.closed && s.recording.None?
    case Settle => s.recording.Some?
    case Take => s.writer.Idle? && s.queue != [] && |s.batch| < BATCH
    case Sample(closing) => s.writer.Idle? && (closing ==> s.closed && s.queue == [] && s.batch == [])
    case CommitTx(today, cutoff) => s.writer.Sampled? && Sum(NewHealth(s, today, cutoff)) <= MAX_INT64
    case FailTx => s.writer.Sampled?
    case Land => s.writer.Landed?
    case Close => !s.closed && s.recording.None?
  }

  function Apply(s: Stats, a: Action, capacity: nat): Stats
    requires Enabled(s, a)
  {
    match a
    case Offer(e) =>
      s.(recording := Some(e), pending := Wrap(s.pending + 1), offered := s.offered + multiset{e})
    case Settle =>
      var e := s.recording.value;
      if |s.queue| < capacity then s.(recording := None, queue := s.queue + [e])
      else s.(recording := None, pending := Wrap(s.pending - 1), dropped := Wrap(s.dropped + 1),
              lost := s.lost + multiset{e}, uncommitted := s.uncommitted + 1)
    case Take => s.(queue := s.queue[1..], batch := s.batch + [s.queue[0]])
    case Sample(closing) => s.(writer := Sampled(s.dropped, closing), covered := s.uncommitted)
    case CommitTx(today, cutoff) => CommitWith(s, NewHealth(s, today, cutoff), cutoff)
    case FailTx =>
      s.(dropped := Wrap(s.dropped + |s.batch|), failed := true,
         lost := s.lost + multiset(s.batch), uncommitted := s.uncommitted + |s.batch|,
         batch := [], writer := Landed(|s.batch|, s.writer.final))
    case Land => s.(pending := Wrap(s.pending - s.writer.count), writer := if s.writer.final then Stopped else Idle)
    case Close => s.(closed := true)
  }

  function Less(a: nat, b: nat): nat { if b <= a then a - b else 0 }

  // ---- The accounting invariant ----

  function Flight(s: Stats): nat {
    |s.queue| + |s.batch| + (if s.recording.Some? then 1 else 0) + (if s.writer.Landed? then s.writer.count else 0)
  }

  function Held(s: Stats): multiset<Event> {
    multiset(s.queue) + multiset(s.batch) + if s.recording.Some? then multiset{s.recording.value} else multiset{}
  }

  /** Every event offered is exactly one of: in flight, committed, or lost. */
  predicate Conserved(s: Stats) {
    s.offered == Held(s) + multiset(Flatten(s.committed)) + s.lost
  }

  /** The counters differ by the losses no transaction has covered, in wrapping arithmetic. */
  predicate LossesBalance(s: Stats) {
    Wrap(s.dropped - s.persisted) == Wrap(s.uncommitted) && |s.lost| == s.reported + s.uncommitted && s.dropped < WRAP
  }

  predicate Balanced(s: Stats) {
    LossesBalance(s) && s.pending == Wrap(Flight(s)) && s.persisted == Wrap(Sum(s.health))
  }

  predicate SampleHolds(s: Stats) {
    s.writer.Sampled? ==>
      && s.covered <= s.uncommitted
      && Wrap(s.writer.sample - s.persisted) == Wrap(s.covered)
      && (s.writer.final ==> s.closed && s.queue == [] && s.batch == [] && s.recording.None? && s.covered == s.uncommitted)
  }

  predicate ClosingHolds(s: Stats) {
    && (s.closed ==> s.recording.None?)
    && (s.writer.Stopped? || (s.writer.Landed? && s.writer.final) ==> s.closed && s.queue == [] && s.batch == [])
  }

  predicate Inv(s: Stats) { Conserved(s) && Balanced(s) && SampleHolds(s) && ClosingHolds(s) }

  lemma WrapCancels(x: int, y: int)
    ensures Wrap(Wrap(x) + y) == Wrap(x + y)
    ensures Wrap(y - Wrap(x)) == Wrap(y - x)
  {
    var q := x / WRAP;
    assert x == WRAP * q + Wrap(x);
    WrapMultiple(Wrap(x) + y, q);
    WrapMultiple(y - x, q);
  }

  lemma WrapMultiple(z: int, q: int)
    ensures Wrap(z + WRAP * q) == Wrap(z)
  {
    var a, b := z / WRAP, (z + WRAP * q) / WRAP;
    assert z == WRAP * a + Wrap(z) && z + WRAP * q == WRAP * b + Wrap(z + WRAP * q);
    var m := b - q - a;
    assert WRAP * m == Wrap(z) - Wrap(z + WRAP * q);
    assert m == 0;
  }

  lemma WrapEqual(x: int, y: int, d: int)
    requires Wrap(x) == Wrap(y)
    ensures Wrap(x + d) == Wrap(y + d)
  {
    WrapCancels(x, d);
    WrapCancels(y, d);
  }

  /** An overflow or a failed batch adds to `dropped` what it adds to the losses. */
  lemma LossBalances(dropped: nat, persisted: nat, uncommitted: nat, n: nat)
    requires Wrap(dropped - persisted) == Wrap(uncommitted)
    ensures Wrap(Wrap(dropped + n) - persisted) == Wrap(uncommitted + n)
  {
    WrapCancels(dropped + n, 0 - persisted);
    WrapEqual(dropped - persisted, uncommitted, n);
  }

  /** A commit moves exactly the sampled losses; overflows since the sample stay outstanding. */
  lemma CommitBalances(dropped: nat, sample: nat, retained: nat, persisted: nat, uncommitted: nat, covered: nat)
    requires Wrap(dropped - persisted) == Wrap(uncommitted) && Wrap(sample - persisted) == Wrap(covered)
    ensures Wrap(Wrap(dropped + retained - sample) - retained) == Wrap(uncommitted - covered)
  {
    WrapCancels(dropped + retained - sample, 0 - retained);
    WrapEqual(dropped - persisted, uncommitted, -(sample - persisted));
    WrapCancels(sample - persisted, uncommitted);
    WrapCancels(covered, uncommitted);
  }

  lemma TakeConserves(s: Stats)
    requires s.queue != []
    ensures multiset(s.queue[1..]) + multiset(s.batch + [s.queue[0]]) == multiset(s.queue) + multiset(s.batch)
  {
    assert s.queue == [s.queue[0]] + s.queue[1..];
  }

  lemma {:induction false} CommitConserves(s: Stats, health: seq<DayLoss>, cutoff: nat)
    requires Conserved(s) && s.writer.Sampled?
    ensures Conserved(CommitWith(s, health, cutoff))
  {
    var t := CommitWith(s, health, cutoff);
    FlattenSnoc(s.committed, Batch(s.batch, cutoff));
    assert multiset(Flatten(t.committed)) == multiset(Flatten(s.committed)) + multiset(s.batch);
    assert t.batch == [] && multiset(t.batch) == multiset{};
    assert Held(s) == Held(t) + multiset(s.batch);
  }

  lemma OfferConserves(s: Stats, e: Event, capacity: nat)
    requires Conserved(s) && Enabled(s, Offer(e))
    ensures Conserved(Apply(s, Offer(e), capacity))
  {
    assert Held(Apply(s, Offer(e), capacity)) == Held(s) + multiset{e};
  }

  lemma Shift(q: multiset<Event>, b: multiset<Event>, c: multiset<Event>, l: multiset<Event>, e: Event)
    ensures q + multiset{e} + b + multiset{} + c + l == q + b + multiset{e} + c + l
    ensures q + b + multiset{} + c + (l + multiset{e}) == q + b + multiset{e} + c + l
  {}

  lemma {:induction false} SettleConserves(s: Stats, capacity: nat)
    requires Conserved(s) && Enabled(s, Settle)
    ensures Conserved(Apply(s, Settle, capacity))
  {
    var t, e := Apply(s, Settle, capacity), s.recording.value;
    Shift(multiset(s.queue), multiset(s.batch), multiset(Flatten(s.committed)), s.lost, e);
    if |s.queue| < capacity { assert multiset(t.queue) == multiset(s.queue) + multiset{e}; }
  }

  lemma FailConserves(s: Stats, capacity: nat)
    requires Conserved(s) && Enabled(s, FailTx)
    ensures Conserved(Apply(s, FailTx, capacity))
  {
    assert Held(Apply(s, FailTx, capacity)) + multiset(s.batch) == Held(s);
  }

  lemma ConservedKeeps(s: Stats, a: Action, capacity: nat)
    requires Conserved(s) && Enabled(s, a)
    ensures Conserved(Apply(s, a, capacity))
  {
    match a
    case Offer(e) => OfferConserves(s, e, capacity);
    case Settle => SettleConserves(s, capacity);
    case Take =>
      TakeConserves(s);
      assert Held(Apply(s, a, capacity)) == Held(s);
    case Sample(_) =>
    case CommitTx(today, cutoff) => CommitConserves(s, NewHealth(s, today, cutoff), cutoff);
    case FailTx => FailConserves(s, capacity);
    case Land =>
    case Close =>
  }

  /** `pending` counts what is in flight. */
  lemma PendingKeeps(s: Stats, a: Action, capacity: nat)
    requires s.pending == Wrap(Flight(s)) && Enabled(s, a)
    ensures var t := Apply(s, a, capacity); t.pending == Wrap(Flight(t))
  {
    match a
    case Offer(e) => WrapCancels(Flight(s), 1);
    case Settle => WrapCancels(Flight(s), -1);
    case Land => WrapCancels(Flight(s), 0 - s.writer.count);
    case _ =>
  }

  lemma {:induction false} CommitKeepsLosses(s: Stats, health: seq<DayLoss>, cutoff: nat)
    requires LossesBalance(s) && SampleHolds(s) && s.writer.Sampled?
    ensures LossesBalance(CommitWith(s, health, cutoff))
  {
    CommitBalances(s.dropped, s.writer.sample, Sum(health), s.persisted, s.uncommitted, s.covered);
  }

  lemma SettleKeepsLosses(s: Stats, capacity: nat)
    requires LossesBalance(s) && Enabled(s, Settle)
    ensures LossesBalance(Apply(s, Settle, capacity))
  {
    LossBalances(s.dropped, s.persisted, s.uncommitted, 1);
  }

  lemma FailKeepsLosses(s: Stats, capacity: nat)
    requires LossesBalance(s) && Enabled(s, FailTx)
    ensures LossesBalance(Apply(s, FailTx, capacity))
  {
    LossBalances(s.dropped, s.persisted, s.uncommitted, |s.batch|);
  }

  lemma {:induction false} LossesKeep(s: Stats, a: Action, capacity: nat)
    requires LossesBalance(s) && SampleHolds(s) && Enabled(s, a)
    ensures LossesBalance(Apply(s, a, capacity))
  {
    match a
    case Settle => SettleKeepsLosses(s, capacity);
    case FailTx => FailKeepsLosses(s, capacity);
    case CommitTx(today, cutoff) => CommitKeepsLosses(s, NewHealth(s, today, cutoff), cutoff);
    case _ =>
  }

  lemma PersistedKeeps(s: Stats, a: Action, capacity: nat)
    requires s.persisted == Wrap(Sum(s.health)) && Enabled(s, a)
    ensures var t := Apply(s, a, capacity); t.persisted == Wrap(Sum(t.health))
  {}

  lemma SampleKeeps(s: Stats, a: Action, capacity: nat)
    requires LossesBalance(s) && SampleHolds(s) && ClosingHolds(s) && Enabled(s, a)
    ensures SampleHolds(Apply(s, a, capacity))
  {}

  lemma ClosingKeeps(s: Stats, a: Action, capacity: nat)
    requires SampleHolds(s) && ClosingHolds(s) && Enabled(s, a)
    ensures ClosingHolds(Apply(s, a, capacity))
  {}

  lemma ActionKeeps(s: Stats, a: Action, capacity: nat)
    requires Inv(s) && Enabled(s, a)
    ensures Inv(Apply(s, a, capacity))
  {
    ConservedKeeps(s, a, capacity);
    PendingKeeps(s, a, capacity);
    LossesKeep(s, a, capacity);
    PersistedKeeps(s, a, capacity);
    SampleKeeps(s, a, capacity);
    ClosingKeeps(s, a, capacity);
  }

  predicate Runs(s: Stats, actions: seq<Action>, capacity: nat)
    decreases |actions|
  {
    actions == [] || (Enabled(s, actions[0]) && Runs(Apply(s, actions[0], capacity), actions[1..], capacity))
  }

  function Final(s: Stats, actions: seq<Action>, capacity: nat): Stats
    requires Runs(s, actions, capacity)
    decreases |actions|
  {
    if actions == [] then s else Final(Apply(s, actions[0], capacity), actions[1..], capacity)
  }

  lemma {:induction false} RunKeeps(s: Stats, actions: seq<Action>, capacity: nat)
    requires Inv(s) && Runs(s, actions, capacity)
    ensures Inv(Final(s, actions, capacity))
    decreases |actions|
  {
    if actions != [] {
      ActionKeeps(s, actions[0], capacity);
      RunKeeps(Apply(s, actions[0], capacity), actions[1..], capacity);
    }
  }

  lemma {:induction false} OpenedHolds(health: seq<DayLoss>)
    ensures Inv(Opened(health))
  {
    var s := Opened(health);
    OpenedConserves(s);
    OpenedBalances(s);
  }

  lemma OpenedBalances(s: Stats)
    requires s.dropped == s.persisted < WRAP && s.lost == multiset{} && s.reported == 0 && s.uncommitted == 0
    requires s.queue == [] && s.batch == [] && s.recording.None? && s.writer.Idle? && s.pending == 0
    ensures LossesBalance(s) && s.pending == Wrap(Flight(s))
  {}

  lemma OpenedConserves(s: Stats)
    requires s.queue == [] && s.batch == [] && s.recording.None? && s.committed == []
    requires s.offered == multiset{} && s.lost == multiset{}
    ensures Conserved(s)
  {
    assert Held(s) == multiset{};
    assert Flatten(s.committed) == [];
  }

  lemma StoppedIsEmpty(s: Stats)
    requires Inv(s) && s.writer.Stopped?
    ensures s.offered == multiset(Flatten(s.committed)) + s.lost && s.pending == 0
  {
    assert Held(s) == multiset{};
    assert Flight(s) == 0;
  }

  /**
   In every run: the two counters differ by the losses not yet committed, even
   while overflows race an open transaction; `pending` is what is in flight; and
   once the writer has stopped every accepted event was committed or counted as
   lost, exactly once.
   */
  lemma LossesAreAccounted(health: seq<DayLoss>, actions: seq<Action>, capacity: nat)
    requires Runs(Opened(health), actions, capacity)
    ensures var s := Final(Opened(health), actions, capacity);
      && LossesBalance(s) && s.pending == Wrap(Flight(s)) && s.persisted == Wrap(Sum(s.health))
      && (s.writer.Stopped? ==> s.offered == multiset(Flatten(s.committed)) + s.lost && s.pending == 0)
  {
    OpenedHolds(health);
    RunKeeps(Opened(health), actions, capacity);
    var s := Final(Opened(health), actions, capacity);
    if s.writer.Stopped? { StoppedIsEmpty(s); }
  }

  /** The final transaction, if it commits, leaves no loss uncounted. */
  lemma FinalCommitSettlesEverything(s: Stats, today: nat, cutoff: nat, capacity: nat)
    requires Inv(s) && Enabled(s, CommitTx(today, cutoff)) && s.writer.final
    ensures var t := Apply(s, CommitTx(today, cutoff), capacity);
      t.uncommitted == 0 && t.reported == |t.lost| && t.dropped == t.persisted == Sum(t.health)
  {
    var health := NewHealth(s, today, cutoff);
    CommitKeepsLosses(s, health, cutoff);
    var t := CommitWith(s, health, cutoff);
    assert Wrap(t.dropped - t.persisted) == Wrap(0) == 0;
    WrapZero(t.dropped, t.persisted);
  }

  /** Level counters mean that no loss is outstanding. */
  lemma LevelMeansSettled(s: Stats)
    requires Inv(s)
    ensures s.dropped == s.persisted <==> Wrap(s.uncommitted) == 0
  {
    if Wrap(s.uncommitted) == 0 { WrapZero(s.dropped, s.persisted); }
  }

  lemma WrapZero(a: nat, b: nat)
    requires a < WRAP && b < WRAP && Wrap(a - b) == 0
    ensures a == b
  {}

  // ---- What the health table holds ----

  /** The loss recorded for a day, if the table has one row per day. */
  function LossOn(h: seq<DayLoss>, day: nat): nat {
    if h == [] then 0 else (if h[0].day == day then h[0].dropped else 0) + LossOn(h[1..], day)
  }

  predicate HasDay(h: seq<DayLoss>, day: nat) { exists i :: 0 <= i < |h| && h[i].day == day }

  /** The day is the primary key. */
  predicate OneRowPerDay(h: seq<DayLoss>) { forall i, j :: 0 <= i < j < |h| ==> h[i].day != h[j].day }

  lemma RestHasOneRow(h: seq<DayLoss>)
    requires OneRowPerDay(h) && h != []
    ensures OneRowPerDay(h[1..]) && !HasDay(h[1..], h[0].day)
    ensures forall day: nat :: HasDay(h, day) <==> day == h[0].day || HasDay(h[1..], day)
  {
    var t := h[1..];
    assert forall i :: 0 <= i < |t| ==> t[i] == h[i + 1];
    forall day: nat ensures HasDay(h, day) <==> day == h[0].day || HasDay(t, day) {
      if HasDay(h, day) && day != h[0].day {
        var i :| 0 <= i < |h| && h[i].day == day;
        assert t[i - 1] == h[i];
      }
      if HasDay(t, day) {
        var i :| 0 <= i < |t| && t[i].day == day;
        assert h[i + 1] == t[i];
      }
    }
  }

  lemma {:induction false} NoRowNoLoss(h: seq<DayLoss>, day: nat)
    requires !HasDay(h, day)
    ensures LossOn(h, day) == 0
  {
    if h != [] {
      assert h[0].day != day;
      forall i | 0 <= i < |h[1..]| ensures h[1..][i].day != day { assert h[i + 1] == h[1..][i]; }
      NoRowNoLoss(h[1..], day);
    }
  }

  lemma PrefixedRow(r: DayLoss, t: seq<DayLoss>)
    requires OneRowPerDay(t) && !HasDay(t, r.day)
    ensures OneRowPerDay([r] + t) && forall day: nat :: HasDay([r] + t, day) <==> day == r.day || HasDay(t, day)
    ensures forall day: nat :: LossOn([r] + t, day) == (if r.day == day then r.dropped else 0) + LossOn(t, day)
    ensures Sum([r] + t) == r.dropped + Sum(t)
  {
    var h := [r] + t;
    assert h[0] == r && h[1..] == t;
    forall i, j | 0 <= i < j < |h| ensures h[i].day != h[j].day {
      assert h[j] == t[j - 1];
      if i > 0 { assert h[i] == t[i - 1]; }
    }
    RestHasOneRow(h);
  }

  /** The upsert of a loss: into today's row, made if it is not there, capped; no other day changes. */
  lemma {:induction false} AddLossExactly(h: seq<DayLoss>, today: nat, delta: nat)
    requires OneRowPerDay(h)
    ensures var t := AddLoss(h, today, delta);
      && OneRowPerDay(t) && (forall day: nat :: HasDay(t, day) <==> day == today || HasDay(h, day))
      && LossOn(t, today) == Cap(LossOn(h, today) + Cap(delta, MAX_INT64), MAX_INT64)
      && (forall day: nat :: day != today ==> LossOn(t, day) == LossOn(h, day))
      && (LossOn(h, today) + delta <= MAX_INT64 ==> Sum(t) == Sum(h) + delta)
  {
    if h == [] {
      PrefixedRow(DayLoss(today, Cap(delta, MAX_INT64)), []);
      assert [DayLoss(today, Cap(delta, MAX_INT64))] + [] == AddLoss(h, today, delta);
    } else {
      RestHasOneRow(h);
      assert [h[0]] + h[1..] == h;
      PrefixedRow(h[0], h[1..]);
      NoRowNoLoss(h[1..], h[0].day);
      if h[0].day == today {
        PrefixedRow(DayLoss(today, CappedAdd(h[0].dropped, Cap(delta, MAX_INT64))), h[1..]);
      } else {
        AddLossExactly(h[1..], today, delta);
        PrefixedRow(h[0], AddLoss(h[1..], today, delta));
      }
    }
  }

  /** Expiry keeps exactly the days from the cutoff on, as they are. */
  lemma {:induction false} ExpireExactly(h: seq<DayLoss>, cutoff: nat)
    requires OneRowPerDay(h)
    ensures var t := Expire(h, cutoff);
      && OneRowPerDay(t) && (forall day: nat :: HasDay(t, day) <==> HasDay(h, day) && day >= cutoff)
      && (forall day: nat :: LossOn(t, day) == if day >= cutoff then LossOn(h, day) else 0)
      && ((forall day: nat :: HasDay(h, day) ==> day >= cutoff) ==> t == h)
  {
    if h != [] {
      RestHasOneRow(h);
      assert [h[0]] + h[1..] == h;
      PrefixedRow(h[0], h[1..]);
      ExpireExactly(h[1..], cutoff);
      if h[0].day >= cutoff {
        PrefixedRow(h[0], Expire(h[1..], cutoff));
      } else {
        assert [] + Expire(h[1..], cutoff) == Expire(h[1..], cutoff);
        NoRowNoLoss(h[1..], h[0].day);
      }
    }
  }

  /** A commit writes a row for today if there is a loss to report or something has failed. */
  predicate Reports(s: Stats)
    requires s.writer.Sampled?
  {
    Wrap(s.writer.sample - s.persisted) > 0 || s.failed
  }

  /** The table after a commit, day by day. */
  lemma CommitRecordsLosses(s: Stats, today: nat, cutoff: nat, day: nat)
    requires s.writer.Sampled? && OneRowPerDay(s.health)
    ensures var t := NewHealth(s, today, cutoff); var delta := Wrap(s.writer.sample - s.persisted);
      && OneRowPerDay(t)
      && (HasDay(t, day) <==> day >= cutoff && (HasDay(s.health, day) || (day == today && Reports(s))))
      && LossOn(t, day)
         == (if day < cutoff then 0
             else if day == today && Reports(s) then Cap(LossOn(s.health, day) + Cap(delta, MAX_INT64), MAX_INT64)
             else LossOn(s.health, day))
  {
    BeforeExpiry(s, today, day);
    ExpireExactly(Reported(s, today), cutoff);
  }

  /** The table before expiry. */
  function Reported(s: Stats, today: nat): seq<DayLoss>
    requires s.writer.Sampled?
  {
    if Reports(s) then AddLoss(s.health, today, Wrap(s.writer.sample - s.persisted)) else s.health
  }

  lemma BeforeExpiry(s: Stats, today: nat, day: nat)
    requires s.writer.Sampled? && OneRowPerDay(s.health)
    ensures var t := Reported(s, today); var delta := Wrap(s.writer.sample - s.persisted);
      && OneRowPerDay(t)
      && (HasDay(t, day) <==> HasDay(s.health, day) || (day == today && Reports(s)))
      && LossOn(t, day)
         == if day == today && Reports(s) then Cap(LossOn(s.health, day) + Cap(delta, MAX_INT64), MAX_INT64)
            else LossOn(s.health, day)
  {
    AddLossExactly(s.health, today, Wrap(s.writer.sample - s.persisted));
  }

  /** This commit caps nothing and expires nothing. */
  ghost predicate KeepsAll(s: Stats, today: nat, cutoff: nat) {
    && LossOn(s.health, today) + s.covered <= MAX_INT64
    && cutoff <= today && forall day: nat :: HasDay(s.health, day) ==> cutoff <= day
  }

  lemma {:induction false} CommitAdds(s: Stats, today: nat, cutoff: nat)
    requires s.writer.Sampled? && OneRowPerDay(s.health) && SampleHolds(s) && KeepsAll(s, today, cutoff)
    ensures Sum(NewHealth(s, today, cutoff)) == Sum(s.health) + s.covered
  {
    var delta := Wrap(s.writer.sample - s.persisted);
    assert delta == Wrap(s.covered) == s.covered;
    AddLossExactly(s.health, today, delta);
    ExpireExactly(if Reports(s) then AddLoss(s.health, today, delta) else s.health, cutoff);
  }

  ghost predicate KeepsAllAlong(s: Stats, actions: seq<Action>, capacity: nat)
    requires Runs(s, actions, capacity)
    decreases |actions|
  {
    actions == [] ||
    (&& (actions[0].CommitTx? ==> KeepsAll(s, actions[0].today, actions[0].cutoff))
     && KeepsAllAlong(Apply(s, actions[0], capacity), actions[1..], capacity))
  }

  /** The table holds what was there when `start` losses were in it, and all reported since. */
  predicate Recorded(s: Stats, start: nat) { OneRowPerDay(s.health) && Sum(s.health) == start + s.reported }

  lemma {:induction false} StepRecords(s: Stats, a: Action, capacity: nat, start: nat)
    requires Inv(s) && Enabled(s, a) && Recorded(s, start)
    requires a.CommitTx? ==> KeepsAll(s, a.today, a.cutoff)
    ensures Recorded(Apply(s, a, capacity), start)
  {
    if a.CommitTx? {
      CommitAdds(s, a.today, a.cutoff);
      CommitRecordsLosses(s, a.today, a.cutoff, a.today);
    }
  }

  lemma {:induction false} RunRecords(s: Stats, actions: seq<Action>, capacity: nat, start: nat)
    requires Inv(s) && Runs(s, actions, capacity) && KeepsAllAlong(s, actions, capacity) && Recorded(s, start)
    ensures Recorded(Final(s, actions, capacity), start)
    decreases |actions|
  {
    if actions != [] {
      ActionKeeps(s, actions[0], capacity);
      StepRecords(s, actions[0], capacity, start);
      RunRecords(Apply(s, actions[0], capacity), actions[1..], capacity, start);
    }
  }

  /**
   Over every run that caps and expires nothing, the table has grown by exactly
   the losses reported; so once none is outstanding it accounts for every loss.
   */
  lemma TableAccountsForLosses(health: seq<DayLoss>, actions: seq<Action>, capacity: nat)
    requires OneRowPerDay(health) && Runs(Opened(health), actions, capacity)
    requires KeepsAllAlong(Opened(health), actions, capacity)
    ensures var s := Final(Opened(health), actions, capacity);
      && Sum(s.health) == Sum(health) + s.reported
      && (s.uncommitted == 0 ==> Sum(s.health) == Sum(health) + |s.lost|)
  {
    OpenedHolds(health);
    RunKeeps(Opened(health), actions, capacity);
    RunRecords(Opened(health), actions, capacity, Sum(health));
  }

  // ---- What was lost, and why ----

  /** The queue and the writer's batch are bounded. */
  predicate Bounded(s: Stats, capacity: nat) { |s.queue| <= capacity && |s.batch| <= BATCH }

  /** What a step loses: an event that finds the queue full, or a batch that is not written. */
  function Costs(s: Stats, a: Action, capacity: nat): nat {
    match a
    case Settle => if |s.queue| >= capacity then 1 else 0
    case FailTx => |s.batch|
    case _ => 0
  }

  function CostsAlong(s: Stats, actions: seq<Action>, capacity: nat): nat
    requires Runs(s, actions, capacity)
    decreases |actions|
  {
    if actions == [] then 0
    else Costs(s, actions[0], capacity) + CostsAlong(Apply(s, actions[0], capacity), actions[1..], capacity)
  }

  /** The events handed to the store. */
  function OffersIn(actions: seq<Action>): multiset<Event> {
    if actions == [] then multiset{}
    else (if actions[0].Offer? then multiset{actions[0].e} else multiset{}) + OffersIn(actions[1..])
  }

  predicate Did(actions: seq<Action>, a: Action) { exists i :: 0 <= i < |actions| && actions[i] == a }

  lemma DidRest(actions: seq<Action>, a: Action)
    requires actions != []
    ensures Did(actions, a) <==> actions[0] == a || Did(actions[1..], a)
  {
    if Did(actions[1..], a) {
      var i :| 0 <= i < |actions[1..]| && actions[1..][i] == a;
      assert actions[i + 1] == a;
    }
    if Did(actions, a) && actions[0] != a {
      var i :| 0 <= i < |actions| && actions[i] == a;
      assert actions[1..][i - 1] == a;
    }
  }

  lemma {:induction false} StepExplains(s: Stats, a: Action, capacity: nat)
    requires Enabled(s, a) && Bounded(s, capacity)
    ensures var t := Apply(s, a, capacity);
      && Bounded(t, capacity) && |t.lost| == |s.lost| + Costs(s, a, capacity)
      && t.offered == s.offered + OffersIn([a])
      && (t.failed <==> s.failed || a.FailTx?) && (t.closed <==> s.closed || a.Close?)
  {
    assert OffersIn([a]) == (if a.Offer? then multiset{a.e} else multiset{}) + OffersIn([]);
  }

  lemma {:induction false} RunExplains(s: Stats, actions: seq<Action>, capacity: nat)
    requires Runs(s, actions, capacity) && Bounded(s, capacity)
    ensures var t := Final(s, actions, capacity);
      && Bounded(t, capacity) && |t.lost| == |s.lost| + CostsAlong(s, actions, capacity)
      && t.offered == s.offered + OffersIn(actions)
      && (t.failed <==> s.failed || Did(actions, FailTx)) && (t.closed <==> s.closed || Did(actions, Close))
    decreases |actions|
  {
    if actions != [] {
      DidRest(actions, FailTx);
      DidRest(actions, Close);
      StepExplains(s, actions[0], capacity);
      assert OffersIn(actions) == OffersIn([actions[0]]) + OffersIn(actions[1..]);
      RunExplains(Apply(s, actions[0], capacity), actions[1..], capacity);
    }
  }

  /**
   Over every run: queue and batch stay bounded, an event is lost only by finding
   the queue full or in a batch that failed, the events accounted for are those
   handed in, and the marks say what happened.
   */
  lemma LossesHaveCauses(health: seq<DayLoss>, actions: seq<Action>, capacity: nat)
    requires Runs(Opened(health), actions, capacity)
    ensures var s := Final(Opened(health), actions, capacity);
      && Bounded(s, capacity) && |s.lost| == CostsAlong(Opened(health), actions, capacity)
      && s.offered == OffersIn(actions)
      && (s.failed <==> Did(actions, FailTx)) && (s.closed <==> Did(actions, Close))
  {
    RunExplains(Opened(health), actions, capacity);
  }

  // ---- The store's goroutines, in place ----

  /** Some run from an opened store leads here. */
  ghost predicate Reached(s: Stats, capacity: nat) {
    exists health, actions ::
      Runs(Opened(health), actions, capacity) && s == Final(Opened(health), actions, capacity)
  }

  lemma ReachedAtStart(health: seq<DayLoss>, capacity: nat)
    ensures Reached(Opened(health), capacity)
  {
    assert Runs(Opened(health), [], capacity) && Opened(health) == Final(Opened(health), [], capacity);
  }

  lemma {:induction false} RunSnoc(s: Stats, actions: seq<Action>, a: Action, capacity: nat)
    requires Runs(s, actions, capacity) && Enabled(Final(s, actions, capacity), a)
    ensures Runs(s, actions + [a], capacity)
    ensures Final(s, actions + [a], capacity) == Apply(Final(s, actions, capacity), a, capacity)
    decreases |actions|
  {
    var all := actions + [a];
    if actions == [] {
      assert all == [a] && all[1..] == [];
    } else {
      assert all[0] == actions[0] && all[1..] == actions[1..] + [a];
      RunSnoc(Apply(s, actions[0], capacity), actions[1..], a, capacity);
    }
  }

  lemma ReachedStep(s: Stats, a: Action, capacity: nat)
    requires Reached(s, capacity) && Enabled(s, a)
    ensures Reached(Apply(s, a, capacity), capacity)
  {
    var health, actions :| Runs(Opened(health), actions, capacity) && s == Final(Opened(health), actions, capacity);
    RunSnoc(Opened(health), actions, a, capacity);
  }

  lemma RecordReached(s: Stats, e: Event, capacity: nat)
    requires Reached(s, capacity) && Enabled(s, Offer(e))
    ensures Enabled(Apply(s, Offer(e), capacity), Settle)
    ensures Reached(Apply(Apply(s, Offer(e), capacity), Settle, capacity), capacity)
  {
    ReachedStep(s, Offer(e), capacity);
    ReachedStep(Apply(s, Offer(e), capacity), Settle, capacity);
  }

  lemma CommitReached(s: Stats, today: nat, cutoff: nat, capacity: nat)
    requires Reached(s, capacity) && Enabled(s, CommitTx(today, cutoff))
    ensures var t := CommitWith(s, NewHealth(s, today, cutoff), cutoff);
      Reached(t, capacity) && t == Apply(s, CommitTx(today, cutoff), capacity)
  {
    ReachedStep(s, CommitTx(today, cutoff), capacity);
  }

  /** What every run keeps holds wherever the store is. */
  lemma ReachedIsSound(s: Stats, capacity: nat)
    requires Reached(s, capacity)
    ensures Inv(s)
  {
    var health, actions :| Runs(Opened(health), actions, capacity) && s == Final(Opened(health), actions, capacity);
    OpenedHolds(health);
    RunKeeps(Opened(health), actions, capacity);
  }

  /**
   The fields of the running store. `past` is the accounting state it stands for,
   which some run of the steps above leads to: every method takes one or more of
   them, so what holds over every run holds of the store.
   */
  class Recorder {
    const capacity: nat
    var queue: seq<Event>
    var batch: seq<Event>
    var writer: Writer
    var pending: nat
    var dropped: nat
    var persisted: nat
    var health: seq<DayLoss>
    var rows: Rows
    var failed: bool
    var closed: bool
    var maintenanceDay: nat
    ghost const found: Rows                            // the rows found when the store was opened
    ghost var past: Stats

    ghost predicate Mirrors()
      reads this
    {
      past == past.(queue := queue, recording := None, batch := batch, writer := writer, pending := pending,
                       dropped := dropped, persisted := persisted, health := health, failed := failed, closed := closed)
    }

    ghost predicate Valid()
      reads this
    {
      && Mirrors() && Reached(past, capacity) && rows == Store(found, past.committed) && RowsOk(found)
      && (forall e :: e in queue ==> EventOk(e)) && (forall e :: e in batch ==> EventOk(e))
    }

    /** open: the rows and losses that earlier runs left, without the days before `cutoff`. */
    constructor (capacity: nat, stored: Rows, losses: seq<DayLoss>, today: nat, cutoff: nat)
      requires RowsOk(stored)
      ensures Valid() && past == Opened(Expire(losses, cutoff)) && this.capacity == capacity
      ensures rows == Unexpired(stored, cutoff) && maintenanceDay == today
    {
      this.capacity := capacity;
      var health := Expire(losses, cutoff);
      ReachedAtStart(health, capacity);
      queue, batch, writer := [], [], Idle;
      pending, dropped, persisted := 0, Wrap(Sum(health)), Wrap(Sum(health));
      this.health, rows, failed, closed := health, Unexpired(stored, cutoff), false, false;
      maintenanceDay := today;
      found, past := Unexpired(stored, cutoff), Opened(health);
    }

    /** Record: never waits, never touches the database. */
    method Record(e: Event)
      requires Valid() && EventOk(e)
      modifies this`queue, this`pending, this`dropped, this`past
      ensures Valid()
      ensures past == if old(closed) then old(past) else Apply(Apply(old(past), Offer(e), capacity), Settle, capacity)
    {
      if closed { return; }
      RecordReached(past, e, capacity);
      Enqueue(e);
    }

    method Enqueue(e: Event)
      requires Mirrors() && !closed
      modifies this`queue, this`pending, this`dropped, this`past
      ensures Mirrors() && past == Apply(Apply(old(past), Offer(e), capacity), Settle, capacity)
      ensures past.committed == old(past.committed) && (queue == old(queue) || queue == old(queue) + [e])
    {
      past := Apply(Apply(past, Offer(e), capacity), Settle, capacity);
      pending := Wrap(pending + 1);
      if |queue| < capacity {
        queue := queue + [e];
      } else {
        pending, dropped := Wrap(pending - 1), Wrap(dropped + 1);
      }
    }

    /** The collecting loop: at most 128 events, without waiting. */
    method Collect()
      requires Valid() && writer.Idle?
      modifies this`queue, this`batch, this`past
      ensures Valid() && (queue == [] || |batch| >= BATCH)
      ensures old(batch) <= batch && batch + queue == old(batch + queue)
      ensures past == old(past).(queue := queue, batch := batch)
    {
      while |batch| < BATCH && queue != []
        invariant Valid() && old(batch) <= batch && batch + queue == old(batch + queue)
        invariant past == old(past).(queue := queue, batch := batch)
        decreases |queue|
      {
        TakeOne();
      }
    }

    method TakeOne()
      requires Valid() && writer.Idle? && queue != [] && |batch| < BATCH
      modifies this`queue, this`batch, this`past
      ensures Valid() && |queue| < |old(queue)| && old(batch) <= batch && batch + queue == old(batch + queue)
      ensures past == old(past).(queue := queue, batch := batch)
    {
      ReachedStep(past, Take, capacity);
      Shift();
    }

    method Shift()
      requires Mirrors() && writer.Idle? && queue != [] && |batch| < BATCH
      modifies this`queue, this`batch, this`past
      ensures Mirrors() && past == Apply(old(past), Take, capacity) == old(past).(queue := queue, batch := batch)
      ensures queue == old(queue)[1..] && batch == old(batch) + [old(queue)[0]] && batch + queue == old(batch + queue)
    {
      past := Apply(past, Take, capacity);
      assert queue == [queue[0]] + queue[1..];
      batch, queue := batch + [queue[0]], queue[1..];
    }

    /** The early return of writeBatch: an idle tick with nothing to report, or too soon after a failure. */
    method Skips(closing: bool, today: nat, waiting: bool) returns (skip: bool)
      requires Valid()
      ensures skip <==>
        && !closing && batch == []
        && ((failed && waiting) || (Wrap(past.uncommitted) == 0 && maintenanceDay == today))
    {
      ReachedIsSound(past, capacity);
      LevelMeansSettled(past);
      skip := !closing && batch == [] && ((failed && waiting) || (dropped == persisted && maintenanceDay == today));
    }

    method Begin(closing: bool)
      requires Valid() && writer.Idle? && (closing ==> closed && queue == [] && batch == [])
      modifies this`writer, this`past
      ensures Valid() && past == Apply(old(past), Sample(closing), capacity)
    {
      ReachedStep(past, Sample(closing), capacity);
      past := Apply(past, Sample(closing), capacity);
      writer := Sampled(dropped, closing);
    }

    /** writeBatch after its sample; SQLite's integer sum overflowing is an error like any other. */
    method Write(today: nat, cutoff: nat, works: bool) returns (ok: bool)
      requires Valid() && writer.Sampled?
      modifies this`batch, this`writer, this`dropped, this`persisted, this`health, this`rows, this`failed,
               this`maintenanceDay, this`past
      ensures Valid() && (ok <==> works && Enabled(old(past), CommitTx(today, cutoff)))
      ensures ok ==> past == Apply(old(past), CommitTx(today, cutoff), capacity)
      ensures !ok ==> past == Apply(old(past), FailTx, capacity)
      ensures maintenanceDay == if ok then today else old(maintenanceDay)
    {
      var delta := Wrap(writer.sample - persisted);
      var table := Expire(if delta > 0 || failed then AddLoss(health, today, delta) else health, cutoff);
      assert table == NewHealth(past, today, cutoff);
      ok := works && Sum(table) <= MAX_INT64;
      if ok {
        Commits(today, cutoff, table);
      } else {
        Dropped();
      }
    }

    method Commits(today: nat, cutoff: nat, table: seq<DayLoss>)
      requires Valid() && writer.Sampled? && table == NewHealth(past, today, cutoff) && Sum(table) <= MAX_INT64
      modifies this`batch, this`writer, this`dropped, this`persisted, this`health, this`rows, this`maintenanceDay, this`past
      ensures Valid() && past == Apply(old(past), CommitTx(today, cutoff), capacity) && maintenanceDay == today
    {
      CommitReached(past, today, cutoff, capacity);
      ghost var before, b := past.committed, Batch(batch, cutoff);
      StoreSnoc(found, before, b);
      rows := WriteRows(rows, batch, cutoff);
      assert rows == Store(found, before + [b]);
      Committed(cutoff, table);
      assert past.committed == before + [b];
      maintenanceDay := today;
    }

    method Committed(cutoff: nat, table: seq<DayLoss>)
      requires Mirrors() && writer.Sampled?
      modifies this`batch, this`writer, this`dropped, this`persisted, this`health, this`past
      ensures Mirrors() && batch == [] && past == CommitWith(old(past), table, cutoff)
      ensures past.committed == old(past.committed) + [Batch(old(batch), cutoff)]
    {
      past := CommitWith(past, table, cutoff);
      var retained := Sum(table);
      dropped := Wrap(dropped + retained - writer.sample);
      persisted, health := retained, table;
      writer, batch := Landed(|batch|, writer.final), [];
    }

    method Dropped()
      requires Valid() && writer.Sampled?
      modifies this`batch, this`writer, this`dropped, this`failed, this`past
      ensures Valid() && past == Apply(old(past), FailTx, capacity)
    {
      ReachedStep(past, FailTx, capacity);
      past := Apply(past, FailTx, capacity);
      dropped, failed := Wrap(dropped + |batch|), true;
      writer, batch := Landed(|batch|, writer.final), [];
    }

    method Settled()
      requires Valid() && writer.Landed?
      modifies this`pending, this`writer, this`past
      ensures Valid() && past == Apply(old(past), Land, capacity)
    {
      ReachedStep(past, Land, capacity);
      past := Apply(past, Land, capacity);
      pending, writer := Wrap(pending - writer.count), if writer.final then Stopped else Idle;
    }

    method Shut()
      requires Valid() && !closed
      modifies this`closed, this`past
      ensures Valid() && past == Apply(old(past), Close, capacity)
    {
      ReachedStep(past, Close, capacity);
      past := Apply(past, Close, capacity);
      closed := true;
    }
  }
}

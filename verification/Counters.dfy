/**
 Usage counters: saturating in memory at 64 bits unsigned, capped in the database at
 63 bits, and merged batch by batch. However the events are batched, a daily row
 holds the true sums, capped once.
 */
module Counters {
  import opened Options

  const WIDTH: nat := 19
  const MAX_UINT64: nat := 0xffff_ffff_ffff_ffff
  const MAX_INT64: nat := 0x7fff_ffff_ffff_ffff

  type Vector = v: seq<nat> | |v| == WIDTH witness Zero()

  function Zero(): seq<nat> { seq(WIDTH, _ => 0) }

  function Cap(x: nat, limit: nat): nat { if x > limit then limit else x }

  /** saturatingAdd, as the source guards it. */
  function SaturatingAdd(current: nat, value: nat): (r: nat)
    requires current <= MAX_UINT64
    ensures r == Cap(current + value, MAX_UINT64)
  {
    if MAX_UINT64 - current < value then MAX_UINT64 else current + value
  }

  predicate Fits(v: Vector) { forall i :: 0 <= i < WIDTH ==> v[i] <= MAX_UINT64 }

  /** The upsert's CASE expression on one column. */
  function CappedAdd(stored: nat, excluded: nat): (r: nat)
    requires excluded <= MAX_INT64
    ensures r == Cap(stored + excluded, MAX_INT64)
  {
    if stored > MAX_INT64 - excluded then MAX_INT64 else stored + excluded
  }

  function CapAll(v: Vector, limit: nat): (r: Vector)
    ensures forall i :: 0 <= i < WIDTH ==> r[i] == Cap(v[i], limit)
  {
    seq(WIDTH, i requires 0 <= i < WIDTH => Cap(v[i], limit))
  }

  function Plus(a: Vector, b: Vector): (r: Vector)
    ensures forall i :: 0 <= i < WIDTH ==> r[i] == a[i] + b[i]
  {
    seq(WIDTH, i requires 0 <= i < WIDTH => a[i] + b[i])
  }

  lemma Same(a: Vector, b: Vector)
    requires forall i :: 0 <= i < WIDTH ==> a[i] == b[i]
    ensures a == b
  {}

  /** Capping early or late makes no difference. */
  lemma CapTwice(a: Vector, b: Vector, inner: nat, outer: nat)
    requires outer <= inner
    ensures CapAll(Plus(CapAll(a, inner), b), outer) == CapAll(Plus(a, b), outer)
    ensures CapAll(Plus(a, CapAll(b, inner)), outer) == CapAll(Plus(a, b), outer)
  {
    Same(CapAll(Plus(CapAll(a, inner), b), outer), CapAll(Plus(a, b), outer));
    Same(CapAll(Plus(a, CapAll(b, inner)), outer), CapAll(Plus(a, b), outer));
  }

  /** statisticsCounters.add, in place. */
  method AddInPlace(c: array<nat>, other: Vector)
    requires c.Length == WIDTH && Fits(other) && Fits(c[..])
    modifies c
    ensures Fits(c[..]) && c[..] == CapAll(Plus(old(c[..]), other), MAX_UINT64)
  {
    for i := 0 to WIDTH
      invariant forall k :: 0 <= k < i ==> c[k] == Cap(old(c[k]) + other[k], MAX_UINT64)
      invariant forall k :: i <= k < WIDTH ==> c[k] == old(c[k])
    {
      c[i] := SaturatingAdd(c[i], other[i]);
    }
    assert forall k :: 0 <= k < WIDTH ==> c[..][k] == c[k];
    Same(c[..], CapAll(Plus(old(c[..]), other), MAX_UINT64));
  }

  // ---- Events, batches and daily rows ----

  datatype Key = Key(day: nat, model: nat, application: nat)

  datatype Event = Event(key: Key, counters: Vector)

  predicate EventOk(e: Event) { Fits(e.counters) }

  /** The true sums of all events of one key, unbounded. */
  function Total(es: seq<Event>, k: Key): Vector {
    if es == [] then Zero()
    else if es[|es| - 1].key == k then Plus(Total(es[..|es| - 1], k), es[|es| - 1].counters)
    else Total(es[..|es| - 1], k)
  }

  function Keys(es: seq<Event>): set<Key> { set i | 0 <= i < |es| :: es[i].key }

  type Rows = map<Key, Vector>

  /** One batch, merged in memory. */
  function Merged(es: seq<Event>): Rows {
    map k | k in Keys(es) :: CapAll(Total(es, k), MAX_UINT64)
  }

  function Stored(rows: Rows, k: Key): Vector { if k in rows then rows[k] else Zero() }

  /** The CASE expression over every column of one row. */
  function Upserted(stored: Vector, batch: Vector): (row: Vector)
    ensures row == CapAll(Plus(stored, CapAll(batch, MAX_INT64)), MAX_INT64)
  {
    var excluded := CapAll(batch, MAX_INT64);
    var row: Vector := seq(WIDTH, i requires 0 <= i < WIDTH => CappedAdd(stored[i], excluded[i]));
    Same(row, CapAll(Plus(stored, excluded), MAX_INT64));
    row
  }

  /** The transaction: upsert every merged key, then delete the days before `cutoff`. */
  function Commit(rows: Rows, es: seq<Event>, cutoff: nat): Rows {
    map k | k in rows.Keys + Keys(es) && k.day >= cutoff ::
      if k in Keys(es) then Upserted(Stored(rows, k), Merged(es)[k]) else rows[k]
  }

  lemma TotalSnoc(es: seq<Event>, e: Event, k: Key)
    ensures Total(es + [e], k) == if e.key == k then Plus(Total(es, k), e.counters) else Total(es, k)
  {
    assert (es + [e])[..|es|] == es;
  }

  lemma PlusAssociates(a: Vector, b: Vector, c: Vector)
    ensures Plus(Plus(a, b), c) == Plus(a, Plus(b, c))
  {
    Same(Plus(Plus(a, b), c), Plus(a, Plus(b, c)));
  }

  lemma KeysConcat(a: seq<Event>, b: seq<Event>)
    ensures Keys(a + b) == Keys(a) + Keys(b)
  {
    var t := a + b;
    forall k ensures k in Keys(t) <==> k in Keys(a) || k in Keys(b) {
      if k in Keys(a) {
        var i :| 0 <= i < |a| && a[i].key == k;
        assert t[i].key == k;
      }
      if k in Keys(b) {
        var i :| 0 <= i < |b| && b[i].key == k;
        assert t[|a| + i].key == k;
      }
    }
  }

  lemma {:induction false} TotalConcat(a: seq<Event>, b: seq<Event>, k: Key)
    ensures Total(a + b, k) == Plus(Total(a, k), Total(b, k))
    decreases |b|
  {
    if b == [] {
      assert a + b == a;
      Same(Plus(Total(a, k), Zero()), Total(a, k));
    } else {
      var n := |b| - 1;
      TotalConcat(a, b[..n], k);
      TotalSnoc(a + b[..n], b[n], k);
      assert a + b == a + b[..n] + [b[n]];
      TotalSnoc(b[..n], b[n], k);
      assert b == b[..n] + [b[n]];
      PlusAssociates(Total(a, k), Total(b[..n], k), b[n].counters);
    }
  }

  lemma {:induction false} NoKeyNoTotal(es: seq<Event>, k: Key)
    requires k !in Keys(es)
    ensures Total(es, k) == Zero()
  {
    if es != [] {
      var n := |es| - 1;
      TotalSnoc(es[..n], es[n], k);
      assert es == es[..n] + [es[n]];
      assert es[n].key in Keys(es);
      NoKeyNoTotal(es[..n], k);
    }
  }

  /** The merge loop of writeBatch computes the merged batch. */
  method MergeBatch(es: seq<Event>) returns (merged: Rows)
    requires forall e :: e in es ==> EventOk(e)
    ensures merged == Merged(es)
  {
    merged := map[];
    for i := 0 to |es|
      invariant merged == Merged(es[..i])
    {
      var p, e := es[..i], es[i];
      assert es[..i + 1] == p + [e] && e in es;
      var counters := new nat[WIDTH](j requires 0 <= j < WIDTH => if e.key in merged then merged[e.key][j] else 0);
      assert counters[..] == CapAll(Total(p, e.key), MAX_UINT64) by {
        if e.key !in merged { NoKeyNoTotal(p, e.key); }
        assert forall j :: 0 <= j < WIDTH ==> counters[..][j] == counters[j];
      }
      AddInPlace(counters, e.counters);
      MergeStep(p, e);
      merged := merged[e.key := counters[..]];
    }
    assert es[..|es|] == es;
  }

  lemma MergeStep(p: seq<Event>, e: Event)
    ensures Merged(p + [e]) == Merged(p)[e.key := CapAll(Plus(CapAll(Total(p, e.key), MAX_UINT64), e.counters), MAX_UINT64)]
  {
    TotalSnoc(p, e, e.key);
    CapTwice(Total(p, e.key), e.counters, MAX_UINT64, MAX_UINT64);
    forall k | k in Keys(p) && k != e.key ensures Total(p + [e], k) == Total(p, k) { TotalSnoc(p, e, k); }
  }

  datatype Batch = Batch(events: seq<Event>, cutoff: nat)

  function Flatten(bs: seq<Batch>): seq<Event> {
    if bs == [] then [] else Flatten(bs[..|bs| - 1]) + bs[|bs| - 1].events
  }

  /** The database opened with the rows `base`, after a sequence of committed batches. */
  function Store(base: Rows, bs: seq<Batch>): Rows {
    if bs == [] then base else Commit(Store(base, bs[..|bs| - 1]), bs[|bs| - 1].events, bs[|bs| - 1].cutoff)
  }

  /** The counters of the table are SQLite integers. */
  predicate RowsOk(rows: Rows) { forall k :: k in rows ==> rows[k] == CapAll(rows[k], MAX_INT64) }

  function Unexpired(rows: Rows, cutoff: nat): Rows { map k | k in rows && k.day >= cutoff :: rows[k] }

  /** No batch has expired this day. */
  predicate Kept(bs: seq<Batch>, day: nat) { forall i :: 0 <= i < |bs| ==> bs[i].cutoff <= day }

  /** The batches after the last one that expired this day. */
  function Since(bs: seq<Batch>, day: nat): seq<Batch> {
    if bs == [] || bs[|bs| - 1].cutoff > day then [] else Since(bs[..|bs| - 1], day) + [bs[|bs| - 1]]
  }

  /** What a row must add up to: what was there at the start unless that expired, and every event since. */
  function TrueSum(base: Rows, bs: seq<Batch>, k: Key): Vector {
    Plus(if Kept(bs, k.day) then Stored(base, k) else Zero(), Total(Flatten(Since(bs, k.day)), k))
  }

  predicate Present(base: Rows, bs: seq<Batch>, k: Key) {
    (Kept(bs, k.day) && k in base) || k in Keys(Flatten(Since(bs, k.day)))
  }

  /** Merging in memory, capping for the database and upserting add up to one cap of the sum. */
  lemma CapSum(a: Vector, b: Vector)
    ensures CapAll(Plus(CapAll(a, MAX_INT64), CapAll(CapAll(b, MAX_UINT64), MAX_INT64)), MAX_INT64) == CapAll(Plus(a, b), MAX_INT64)
  {
    Same(CapAll(Plus(CapAll(a, MAX_INT64), CapAll(CapAll(b, MAX_UINT64), MAX_INT64)), MAX_INT64), CapAll(Plus(a, b), MAX_INT64));
  }

  lemma KeptSnoc(p: seq<Batch>, b: Batch, day: nat)
    ensures Kept(p + [b], day) <==> Kept(p, day) && b.cutoff <= day
    ensures b.cutoff > day ==> Since(p + [b], day) == []
    ensures b.cutoff <= day ==> Flatten(Since(p + [b], day)) == Flatten(Since(p, day)) + b.events
  {
    var bs := p + [b];
    assert bs[..|p|] == p && bs[|p|] == b;
    assert forall i :: 0 <= i < |p| ==> bs[i] == p[i];
    var q := Since(p, day);
    assert (q + [b])[..|q|] == q;
  }

  lemma AbsentIsZero(base: Rows, bs: seq<Batch>, k: Key)
    requires !Present(base, bs, k)
    ensures TrueSum(base, bs, k) == Zero()
  {
    NoKeyNoTotal(Flatten(Since(bs, k.day)), k);
    Same(Plus(Zero(), Zero()), Zero());
  }

  lemma SumSnoc(base: Rows, p: seq<Batch>, b: Batch, k: Key)
    requires b.cutoff <= k.day
    ensures TrueSum(base, p + [b], k) == Plus(TrueSum(base, p, k), Total(b.events, k))
    ensures Present(base, p + [b], k) <==> Present(base, p, k) || k in Keys(b.events)
  {
    var es := Flatten(Since(p, k.day));
    KeptSnoc(p, b, k.day);
    TotalConcat(es, b.events, k);
    KeysConcat(es, b.events);
    PlusAssociates(if Kept(p, k.day) then Stored(base, k) else Zero(), Total(es, k), Total(b.events, k));
  }

  lemma UpsertSum(stored: Vector, sum: Vector, es: seq<Event>, k: Key)
    requires stored == CapAll(sum, MAX_INT64)
    ensures k in Keys(es) ==> Upserted(stored, Merged(es)[k]) == CapAll(Plus(sum, Total(es, k)), MAX_INT64)
    ensures k !in Keys(es) ==> stored == CapAll(Plus(sum, Total(es, k)), MAX_INT64)
  {
    if k in Keys(es) {
      CapSum(sum, Total(es, k));
    } else {
      NoKeyNoTotal(es, k);
      Same(Plus(sum, Zero()), sum);
    }
  }

  /**
   Every row after any committed batches, whatever their retention cutoffs: it is
   there exactly if something of it has not expired, and it is the capped sum of
   all that has not.
   */
  lemma {:induction false} RowIsExact(base: Rows, bs: seq<Batch>, k: Key)
    requires RowsOk(base)
    ensures k in Store(base, bs) <==> Present(base, bs, k)
    ensures Stored(Store(base, bs), k) == CapAll(if Present(base, bs, k) then TrueSum(base, bs, k) else Zero(), MAX_INT64)
    decreases |bs|
  {
    Same(Zero(), CapAll(Zero(), MAX_INT64));
    if bs == [] {
      Same(Plus(Stored(base, k), Zero()), Stored(base, k));
    } else {
      var n := |bs| - 1;
      var p, b := bs[..n], bs[n];
      assert bs == p + [b];
      RowIsExact(base, p, k);
      if b.cutoff > k.day {
        KeptSnoc(p, b, k.day);
      } else {
        SumSnoc(base, p, b, k);
        if !Present(base, p, k) { AbsentIsZero(base, p, k); }
        UpsertSum(Stored(Store(base, p), k), TrueSum(base, p, k), b.events, k);
      }
    }
  }

  predicate SameSince(bs: seq<Batch>, cs: seq<Batch>, day: nat) {
    (Kept(bs, day) <==> Kept(cs, day)) && Flatten(Since(bs, day)) == Flatten(Since(cs, day))
  }

  /** Two batchings that give each day the same events since its last expiry store the same rows. */
  lemma BatchingDoesNotMatter(base: Rows, bs: seq<Batch>, cs: seq<Batch>)
    requires RowsOk(base) && forall day :: SameSince(bs, cs, day)
    ensures Store(base, bs) == Store(base, cs)
  {
    var r, x := Store(base, bs), Store(base, cs);
    forall k ensures (k in r <==> k in x) && Stored(r, k) == Stored(x, k) {
      assert SameSince(bs, cs, k.day);
      RowIsExact(base, bs, k);
      RowIsExact(base, cs, k);
    }
    assert forall k :: k in r ==> r[k] == Stored(r, k) && x[k] == Stored(x, k);
  }

  /** In particular, cutting a batch in two anywhere changes nothing. */
  lemma {:induction false} SplittingABatch(base: Rows, p: seq<Batch>, a: seq<Event>, b: seq<Event>, cutoff: nat, q: seq<Batch>)
    requires RowsOk(base)
    ensures Store(base, p + [Batch(a + b, cutoff)] + q) == Store(base, p + [Batch(a, cutoff), Batch(b, cutoff)] + q)
  {
    var one, two := p + [Batch(a + b, cutoff)], p + [Batch(a, cutoff), Batch(b, cutoff)];
    forall day ensures SameSince(one, two, day) { SplitSince(p, a, b, cutoff, day); }
    BatchingDoesNotMatter(base, one, two);
    SameLater(base, one, two, q);
  }

  lemma StoreSnoc(base: Rows, bs: seq<Batch>, b: Batch)
    ensures Store(base, bs + [b]) == Commit(Store(base, bs), b.events, b.cutoff)
  {
    assert (bs + [b])[..|bs|] == bs;
  }

  lemma {:induction false} SameLater(base: Rows, bs: seq<Batch>, cs: seq<Batch>, q: seq<Batch>)
    requires Store(base, bs) == Store(base, cs)
    ensures Store(base, bs + q) == Store(base, cs + q)
    decreases |q|
  {
    if q == [] {
      assert bs + q == bs && cs + q == cs;
    } else {
      var n := |q| - 1;
      SameLater(base, bs, cs, q[..n]);
      StoreSnoc(base, bs + q[..n], q[n]);
      StoreSnoc(base, cs + q[..n], q[n]);
      assert bs + q == bs + q[..n] + [q[n]] && cs + q == cs + q[..n] + [q[n]];
    }
  }

  lemma SplitSince(p: seq<Batch>, a: seq<Event>, b: seq<Event>, cutoff: nat, day: nat)
    ensures SameSince(p + [Batch(a + b, cutoff)], p + [Batch(a, cutoff), Batch(b, cutoff)], day)
  {
    var x, y := Batch(a, cutoff), Batch(b, cutoff);
    assert p + [x, y] == p + [x] + [y];
    KeptSnoc(p, Batch(a + b, cutoff), day);
    KeptSnoc(p, x, day);
    KeptSnoc(p + [x], y, day);
    var es := Flatten(Since(p, day));
    assert es + (a + b) == es + a + b;
  }

  /** The retention cutoff never moves back. */
  predicate Advancing(bs: seq<Batch>) {
    forall i, j :: 0 <= i < j < |bs| ==> bs[i].cutoff <= bs[j].cutoff
  }

  /** Every retained key ever recorded, with its true sums capped once. */
  function Expected(es: seq<Event>, cutoff: nat): Rows {
    map k | k in Keys(es) && k.day >= cutoff :: CapAll(Total(es, k), MAX_INT64)
  }

  lemma {:induction false} AllSince(bs: seq<Batch>, day: nat)
    requires Kept(bs, day)
    ensures Since(bs, day) == bs
  {
    if bs != [] {
      var n := |bs| - 1;
      assert forall i :: 0 <= i < n ==> bs[..n][i] == bs[i];
      AllSince(bs[..n], day);
      assert bs == bs[..n] + [bs[n]];
    }
  }

  /** With a clock that never moves the cutoff back, a new store holds the capped sums of all its events. */
  lemma {:induction false} StoreIsExact(bs: seq<Batch>)
    requires Advancing(bs) && bs != []
    ensures Store(map[], bs) == Expected(Flatten(bs), bs[|bs| - 1].cutoff)
  {
    var r, x := Store(map[], bs), Expected(Flatten(bs), bs[|bs| - 1].cutoff);
    forall k ensures (k in r <==> k in x) && (k in r ==> r[k] == x[k]) { ExactKey(bs, k); }
  }

  lemma {:induction false} ExactKey(bs: seq<Batch>, k: Key)
    requires Advancing(bs) && bs != []
    ensures k in Store(map[], bs) <==> k in Keys(Flatten(bs)) && k.day >= bs[|bs| - 1].cutoff
    ensures k in Store(map[], bs) ==> Store(map[], bs)[k] == CapAll(Total(Flatten(bs), k), MAX_INT64)
  {
    var n := |bs| - 1;
    RowIsExact(map[], bs, k);
    if bs[n].cutoff <= k.day {
      assert Kept(bs, k.day);
      AllSince(bs, k.day);
      ZeroPlus(Total(Flatten(bs), k));
    } else {
      assert Since(bs, k.day) == [] && !Kept(bs, k.day);
    }
  }

  /** What came before a day expired no longer counts, wherever the cutoff moves afterwards. */
  lemma {:induction false} ExpiryForgets(base: Rows, p: seq<Batch>, b: Batch, a: Batch, k: Key)
    requires RowsOk(base) && a.cutoff <= k.day < b.cutoff
    ensures Stored(Store(base, p + [b] + [a]), k) == CapAll(Total(a.events, k), MAX_INT64)
  {
    var bs := p + [b] + [a];
    OnlySince(p, b, a, k.day);
    RowIsExact(base, bs, k);
    ZeroPlus(Total(a.events, k));
    if k !in Keys(a.events) { NoKeyNoTotal(a.events, k); }
  }

  lemma OnlySince(p: seq<Batch>, b: Batch, a: Batch, day: nat)
    requires a.cutoff <= day < b.cutoff
    ensures !Kept(p + [b] + [a], day) && Flatten(Since(p + [b] + [a], day)) == a.events
  {
    KeptSnoc(p, b, day);
    KeptSnoc(p + [b], a, day);
    assert [] + a.events == a.events;
  }

  lemma ZeroPlus(v: Vector)
    ensures Plus(Zero(), v) == v
  {
    Same(Plus(Zero(), v), v);
  }

  /** So with a clock that moves back, an event recorded before and after its expiry counts once. */
  lemma ClockMovedBack(e: Event, far: nat)
    requires e.key.day < far
    ensures var p, b, a := [Batch([e], 0)], Batch([], far), Batch([e], 0);
      && Stored(Store(map[], p + [b] + [a]), e.key) == CapAll(e.counters, MAX_INT64)
      && Total(Flatten(p + [b] + [a]), e.key) == Plus(e.counters, e.counters)
  {
    var p, b, a := [Batch([e], 0)], Batch([], far), Batch([e], 0);
    OneEvent(e);
    ExpiryForgets(map[], p, b, a, e.key);
    assert p[..0] == [];
    assert Flatten(p) == [] + [e];
    FlattenSnoc(p, b);
    FlattenSnoc(p + [b], a);
    assert Flatten(p + [b] + [a]) == [e] + [e];
    TotalSnoc([e], e, e.key);
  }

  lemma FlattenSnoc(bs: seq<Batch>, b: Batch)
    ensures Flatten(bs + [b]) == Flatten(bs) + b.events
  {
    assert (bs + [b])[..|bs|] == bs;
  }

  lemma OneEvent(e: Event)
    ensures Total([e], e.key) == e.counters && e.key in Keys([e])
  {
    TotalSnoc([], e, e.key);
    assert [] + [e] == [e];
    ZeroPlus(e.counters);
  }

  /** The upsert loop, in any order of the merged keys. */
  method UpsertAll(rows: Rows, merged: Rows) returns (after: Rows)
    ensures after.Keys == rows.Keys + merged.Keys
    ensures forall k :: k in merged ==> after[k] == Upserted(Stored(rows, k), merged[k])
    ensures forall k :: k in rows && k !in merged ==> after[k] == rows[k]
  {
    var todo := merged.Keys;
    after := rows;
    while todo != {}
      invariant todo <= merged.Keys && after.Keys == rows.Keys + (merged.Keys - todo)
      invariant forall k :: k in merged.Keys - todo ==> after[k] == Upserted(Stored(rows, k), merged[k])
      invariant forall k :: k in rows.Keys && k !in merged.Keys - todo ==> after[k] == rows[k]
      decreases todo
    {
      var k :| k in todo;
      assert Stored(after, k) == Stored(rows, k);
      todo := todo - {k};
      after := after[k := Upserted(Stored(after, k), merged[k])];
    }
  }

  lemma CommitIs(rows: Rows, es: seq<Event>, cutoff: nat, all: Rows, after: Rows)
    requires all.Keys == rows.Keys + Keys(es) && after == map k | k in all && k.day >= cutoff :: all[k]
    requires forall k :: k in Keys(es) ==> all[k] == Upserted(Stored(rows, k), Merged(es)[k])
    requires forall k :: k in rows && k !in Keys(es) ==> all[k] == rows[k]
    ensures after == Commit(rows, es, cutoff)
  {
    var c := Commit(rows, es, cutoff);
    assert after.Keys == c.Keys;
    forall k | k in c ensures after[k] == c[k] {}
  }

  /** The body of writeBatch's transaction. */
  method WriteRows(rows: Rows, es: seq<Event>, cutoff: nat) returns (after: Rows)
    requires forall e :: e in es ==> EventOk(e)
    ensures after == Commit(rows, es, cutoff)
  {
    var merged := MergeBatch(es);
    var all := UpsertAll(rows, merged);
    after := map k | k in all && k.day >= cutoff :: all[k];
    CommitIs(rows, es, cutoff, all, after);
  }

  // ---- Reading totals back ----

  function Projected(es: seq<Event>, f: Key -> Key): seq<Event> {
    seq(|es|, i requires 0 <= i < |es| => Event(f(es[i].key), es[i].counters))
  }

  function ByDay(k: Key): Key { Key(k.day, 0, 0) }
  function ByModel(k: Key): Key { Key(0, k.model, k.application) }
  function Everything(k: Key): Key { Key(0, 0, 0) }

  /** The accumulation of readSnapshot: one pass, three saturating totals. */
  method ReadTotals(rows: seq<Event>) returns (overall: Vector, daily: Rows, models: Rows)
    requires forall e :: e in rows ==> EventOk(e)
    ensures daily == Merged(Projected(rows, ByDay)) && models == Merged(Projected(rows, ByModel))
    ensures overall == CapAll(Total(Projected(rows, Everything), Key(0, 0, 0)), MAX_UINT64)
  {
    overall, daily, models := Zero(), map[], map[];
    Same(Zero(), CapAll(Zero(), MAX_UINT64));
    for i := 0 to |rows|
      invariant Fits(overall) && overall == CapAll(Total(Projected(rows[..i], Everything), Key(0, 0, 0)), MAX_UINT64)
      invariant daily == Merged(Projected(rows[..i], ByDay)) && models == Merged(Projected(rows[..i], ByModel))
    {
      var p, e := rows[..i], rows[i];
      assert rows[..i + 1] == p + [e] && e in rows;
      daily := Accumulate(daily, Projected(p, ByDay), Event(ByDay(e.key), e.counters));
      models := Accumulate(models, Projected(p, ByModel), Event(ByModel(e.key), e.counters));
      var all := new nat[WIDTH](j requires 0 <= j < WIDTH => overall[j]);
      assert all[..] == overall;
      AddInPlace(all, e.counters);
      overall := all[..];
      ProjectSnoc(p, e, ByDay);
      ProjectSnoc(p, e, ByModel);
      ProjectSnoc(p, e, Everything);
      TotalSnoc(Projected(p, Everything), Event(Key(0, 0, 0), e.counters), Key(0, 0, 0));
      CapTwice(Total(Projected(p, Everything), Key(0, 0, 0)), e.counters, MAX_UINT64, MAX_UINT64);
    }
    assert rows[..|rows|] == rows;
  }

  lemma ProjectSnoc(p: seq<Event>, e: Event, f: Key -> Key)
    ensures Projected(p + [e], f) == Projected(p, f) + [Event(f(e.key), e.counters)]
  {}

  method Accumulate(rows: Rows, ghost p: seq<Event>, e: Event) returns (r: Rows)
    requires rows == Merged(p) && EventOk(e)
    ensures r == Merged(p + [e])
  {
    var counters := new nat[WIDTH](j requires 0 <= j < WIDTH => if e.key in rows then rows[e.key][j] else 0);
    assert counters[..] == CapAll(Total(p, e.key), MAX_UINT64) by {
      if e.key !in rows { NoKeyNoTotal(p, e.key); }
      assert forall j :: 0 <= j < WIDTH ==> counters[..][j] == counters[j];
    }
    AddInPlace(counters, e.counters);
    MergeStep(p, e);
    r := rows[e.key := counters[..]];
  }

  // ---- Paired counters ----

  const CACHE_INPUT: nat := 16
  const CACHE_CACHED: nat := 17

  /** Reused tokens never exceed the input they were reused from. */
  predicate Paired(v: Vector) { v[CACHE_CACHED] <= v[CACHE_INPUT] }

  lemma {:induction false} TotalIsPaired(es: seq<Event>, k: Key)
    requires forall e :: e in es ==> Paired(e.counters)
    ensures Paired(Total(es, k))
  {
    if es != [] {
      TotalIsPaired(es[..|es| - 1], k);
      assert es[|es| - 1] in es;
    }
  }

  lemma {:induction false} SinceIsPart(bs: seq<Batch>, day: nat)
    ensures forall e :: e in Flatten(Since(bs, day)) ==> e in Flatten(bs)
  {
    if bs != [] {
      var n := |bs| - 1;
      SinceIsPart(bs[..n], day);
      assert bs == bs[..n] + [bs[n]];
      KeptSnoc(bs[..n], bs[n], day);
    }
  }

  lemma RowIsPaired(base: Rows, bs: seq<Batch>, k: Key)
    requires RowsOk(base) && k in Store(base, bs)
    requires (forall r :: r in base ==> Paired(base[r])) && forall e :: e in Flatten(bs) ==> Paired(e.counters)
    ensures Paired(Store(base, bs)[k])
  {
    RowIsExact(base, bs, k);
    SinceIsPart(bs, k.day);
    TotalIsPaired(Flatten(Since(bs, k.day)), k);
  }

  lemma ReadBackIsPaired(rows: seq<Event>, f: Key -> Key)
    requires forall e :: e in rows ==> Paired(e.counters)
    ensures forall k :: k in Merged(Projected(rows, f)) ==> Paired(Merged(Projected(rows, f))[k])
  {
    var es := Projected(rows, f);
    forall e | e in es ensures Paired(e.counters) {
      var i :| 0 <= i < |rows| && es[i] == e;
      assert rows[i] in rows;
    }
    forall k | k in Merged(es) ensures Paired(Merged(es)[k]) { TotalIsPaired(es, k); }
  }

  /** The pairing survives merging, the database cap, expiry, every batching and the totals read back. */
  lemma PairingSurvives(base: Rows, bs: seq<Batch>, rows: seq<Event>, f: Key -> Key)
    requires RowsOk(base)
    requires (forall k :: k in base ==> Paired(base[k])) && forall e :: e in Flatten(bs) ==> Paired(e.counters)
    requires forall e :: e in rows ==> e.key in Store(base, bs) && e.counters == Store(base, bs)[e.key]
    ensures forall k :: k in Store(base, bs) ==> Paired(Store(base, bs)[k])
    ensures forall k :: k in Merged(Projected(rows, f)) ==> Paired(Merged(Projected(rows, f))[k])
  {
    forall k | k in Store(base, bs) ensures Paired(Store(base, bs)[k]) { RowIsPaired(base, bs, k); }
    forall e | e in rows ensures Paired(e.counters) {}
    ReadBackIsPaired(rows, f);
  }

  // ---- From a request record to its counters ----

  datatype Outcome = Succeeded | Canceled | FailedOutcome

  /** A Go int64. */
  type Int64 = n: int | -0x8000_0000_0000_0000 <= n <= 0x7fff_ffff_ffff_ffff witness 0

  datatype Usage = Usage(input: Option<Int64>, output: Option<Int64>, cached: Option<Int64>, reasoning: Option<Int64>,
                         totalMs: Int64, firstOutputMs: Option<Int64>)

  function Observed(x: Option<Int64>): (n: nat)
    ensures n <= 1
  {
    if x.Some? && x.value >= 0 then 1 else 0
  }

  function Amount(x: Option<Int64>): (n: nat)
    ensures n <= MAX_INT64
  {
    if x.Some? && x.value >= 0 then x.value else 0
  }

  /** A part that claims to exceed its whole is not counted. */
  function Sane(part: Option<Int64>, whole: Option<Int64>): Option<Int64> {
    if part.Some? && whole.Some? && part.value > whole.value then None else part
  }

  datatype Metric = Metric(total: nat, observations: nat)

  function MetricOf(x: Option<Int64>): Metric { Metric(Amount(x), Observed(x)) }

  function OutcomeCounters(o: Outcome): seq<nat> {
    [1, if o.Succeeded? then 1 else 0, if o.FailedOutcome? then 1 else 0, if o.Canceled? then 1 else 0]
  }

  function MetricCounters(a: Metric, b: Metric, c: Metric, d: Metric, e: Metric, f: Metric): seq<nat> {
    [a.total, a.observations, b.total, b.observations, c.total, c.observations,
     d.total, d.observations, e.total, e.observations, f.total, f.observations]
  }

  /** Input and cached tokens count as reuse only together, and only if plausible. */
  function ReuseCounters(input: Option<Int64>, cached: Option<Int64>): seq<nat> {
    if Observed(input) == 1 && Observed(cached) == 1 && Amount(cached) <= Amount(input)
    then [Amount(input), Amount(cached), 1] else [0, 0, 0]
  }

  predicate Small(s: seq<nat>) { forall i :: 0 <= i < |s| ==> s[i] <= MAX_INT64 }

  lemma MetricsAreSmall(a: Metric, b: Metric, c: Metric, d: Metric, e: Metric, f: Metric)
    requires a.total <= MAX_INT64 && b.total <= MAX_INT64 && c.total <= MAX_INT64
    requires d.total <= MAX_INT64 && e.total <= MAX_INT64 && f.total <= MAX_INT64
    requires a.observations <= 1 && b.observations <= 1 && c.observations <= 1
    requires d.observations <= 1 && e.observations <= 1 && f.observations <= 1
    ensures Small(MetricCounters(a, b, c, d, e, f))
  {}

  lemma SmallConcat(a: seq<nat>, b: seq<nat>)
    requires Small(a) && Small(b)
    ensures Small(a + b)
  {}

  /** statisticsEventFromRecord's counters. */
  function EventCounters(o: Outcome, u: Usage): (v: Vector)
    ensures Fits(v) && Paired(v) && v[0] == 1 == v[1] + v[2] + v[3]
    ensures v[8] <= v[4] || v[5] == 0
    ensures v[10] <= v[6] || v[7] == 0
  {
    var cached, reasoning := Sane(u.cached, u.input), Sane(u.reasoning, u.output);
    var input, output, total, first := MetricOf(u.input), MetricOf(u.output), MetricOf(Some(u.totalMs)), MetricOf(u.firstOutputMs);
    MetricsAreSmall(input, output, MetricOf(cached), MetricOf(reasoning), total, first);
    var metrics := MetricCounters(input, output, MetricOf(cached), MetricOf(reasoning), total, first);
    SmallConcat(OutcomeCounters(o), metrics);
    SmallConcat(OutcomeCounters(o) + metrics, ReuseCounters(u.input, cached));
    OutcomeCounters(o) + metrics + ReuseCounters(u.input, cached)
  }

  // ---- Reading counters back ----

  datatype StoredUsage = StoredUsage(
    requests: nat, succeeded: nat, failed: nat, canceled: nat,
    input: Metric, output: Metric, cached: Metric, reasoning: Metric, total: Metric, firstOutput: Metric,
    reuseInput: nat, reuseCached: nat, reuses: nat)

  /** statisticsCounters.usage, without the ratio. */
  function UsageOf(c: Vector): StoredUsage {
    StoredUsage(c[0], c[1], c[2], c[3],
      Metric(c[4], c[5]), Metric(c[6], c[7]), Metric(c[8], c[9]), Metric(c[10], c[11]), Metric(c[12], c[13]), Metric(c[14], c[15]),
      c[16], c[17], c[18])
  }

  /** A value that is there and not negative is one observation of itself. */
  predicate Observes(m: Metric, x: Option<Int64>) {
    if x.Some? && x.value >= 0 then m.total == x.value && m.observations == 1 else m == Metric(0, 0)
  }

  /** A part larger than its whole is not believed. */
  predicate Plausible(part: Option<Int64>, whole: Option<Int64>) {
    part.Some? && whole.Some? ==> part.value <= whole.value
  }

  /** What one record says about itself. */
  predicate Describes(r: StoredUsage, o: Outcome, u: Usage) {
    && r.requests == 1
    && r.succeeded == (if o == Succeeded then 1 else 0)
    && r.failed == (if o == FailedOutcome then 1 else 0)
    && r.canceled == (if o == Canceled then 1 else 0)
    && Observes(r.input, u.input) && Observes(r.output, u.output)
    && Observes(r.cached, if Plausible(u.cached, u.input) then u.cached else None)
    && Observes(r.reasoning, if Plausible(u.reasoning, u.output) then u.reasoning else None)
    && Observes(r.total, Some(u.totalMs)) && Observes(r.firstOutput, u.firstOutputMs)
    && if u.input.Some? && u.cached.Some? && 0 <= u.cached.value <= u.input.value
       then r.reuseInput == u.input.value && r.reuseCached == u.cached.value && r.reuses == 1
       else r.reuseInput == 0 && r.reuseCached == 0 && r.reuses == 0
  }

  /** Writing the counters of a record and reading them back gives what the record says, column by column. */
  lemma CountersReadBack(o: Outcome, u: Usage)
    ensures Describes(UsageOf(EventCounters(o, u)), o, u)
  {
    var cached, reasoning := Sane(u.cached, u.input), Sane(u.reasoning, u.output);
    var metrics := MetricCounters(MetricOf(u.input), MetricOf(u.output), MetricOf(cached), MetricOf(reasoning),
                                  MetricOf(Some(u.totalMs)), MetricOf(u.firstOutputMs));
    ColumnsAre(OutcomeCounters(o), metrics, ReuseCounters(u.input, cached));
  }

  lemma ColumnsAre(a: seq<nat>, b: seq<nat>, c: seq<nat>)
    requires |a| == 4 && |b| == 12 && |c| == 3
    ensures UsageOf(a + b + c) == StoredUsage(a[0], a[1], a[2], a[3],
      Metric(b[0], b[1]), Metric(b[2], b[3]), Metric(b[4], b[5]), Metric(b[6], b[7]), Metric(b[8], b[9]), Metric(b[10], b[11]),
      c[0], c[1], c[2])
  {
    var v := a + b + c;
    assert forall i :: 0 <= i < 4 ==> v[i] == a[i];
    assert forall i :: 0 <= i < 12 ==> v[4 + i] == b[i];
    assert forall i :: 0 <= i < 3 ==> v[16 + i] == c[i];
  }
}

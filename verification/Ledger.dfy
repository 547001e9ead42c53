/**
 The request ledger in place: a ring of the newest 64 records, the session cache
 and the table of active requests, against the full history of completed requests.
 */
module Ledger {
  import opened Options
  import opened LedgerSpec

  datatype Entry = Entry(sequence: nat, record: Record)

  datatype SessionEntry = SessionEntry(lastSequence: nat)

  datatype Lookup = Completed(record: Record) | Active(phase: nat) | NotRetained

  class RequestLedger {
    const entries: array<Entry>
    var sequence: nat
    var active: map<RequestId, nat>
    var sessions: map<Session, SessionEntry>
    ghost var history: seq<Record>

    /** Slot `i % 64` holds record `i` for the newest 64; later slots are unused. */
    ghost predicate RingHolds(h: seq<Record>)
      reads this, entries
    {
      && entries.Length == RECENT && sequence == |h|
      && (forall i :: 0 <= i < |h| && |h| - i <= RECENT ==> entries[i % RECENT] == Entry(i + 1, h[i]))
      && (forall j :: |h| <= j < RECENT ==> entries[j].sequence == 0)
    }

    /** The cache holds exactly the sessions most recently used, with their last use. */
    ghost predicate SessionsValid()
      reads this
    {
      && sessions.Keys == Cached(history)
      && forall s :: s in sessions ==> sessions[s].lastSequence == LastUse(history, s)
    }

    ghost predicate Valid()
      reads this, entries
    {
      RingHolds(history) && SessionsValid() && |active| <= ACTIVE
    }

    constructor ()
      ensures Valid() && history == [] && active == map[] && fresh(entries)
    {
      entries := new Entry[RECENT](_ => Entry(0, Record(0, None, 0)));
      sequence, active, sessions, history := 0, map[], map[], [];
    }

    method Add(record: Record)
      requires Valid()
      modifies this, entries
      ensures Valid() && history == old(history) + [record] && active == old(active) - {record.id}
    {
      AddRing(record);
      AddUsage(record);
      RemoveShrinks(active, record.id);
      active, history := active - {record.id}, history + [record];
    }

    /** The newest record takes the slot of the one that is 64 older. */
    method AddRing(record: Record)
      requires RingHolds(history)
      modifies this`sequence, entries
      ensures RingHolds(history + [record])
    {
      sequence := sequence + 1;
      var index := (sequence - 1) % RECENT;
      entries[index] := Entry(sequence, record);
      RingStep(|history|);
    }

    lemma RingStep(n: nat)
      ensures forall i :: 0 <= i < n && n + 1 - i <= RECENT ==> i % RECENT != n % RECENT
      ensures n < RECENT ==> n % RECENT == n
    {}

    /** The session part of addUsage, for the record just numbered. */
    method AddUsage(record: Record)
      requires SessionsValid() && sequence == |history| + 1
      modifies this`sessions
      ensures sessions.Keys == Cached(history + [record])
      ensures forall s :: s in sessions ==> sessions[s].lastSequence == LastUse(history + [record], s)
    {
      UseStep(history, record);
      if record.session.None? { return; }
      var x := record.session.value;
      CachedCount(history);
      if x in sessions {
        UseCached(history, record);
      } else if |sessions| == RECENT {
        assert |sessions.Keys| == RECENT;
        var oldest := Oldest();
        UseEvicts(history, record);
        sessions := sessions - {oldest};
      } else {
        assert |sessions.Keys| != RECENT;
        UseNew(history, record);
      }
      sessions := sessions[x := SessionEntry(sequence)];
    }

    /** The scan for the least recently used session, in any order of the map. */
    method Oldest() returns (oldest: Session)
      requires SessionsValid() && |Recency(history)| >= RECENT
      ensures oldest in sessions && oldest == Recency(history)[RECENT - 1]
    {
      ghost var last := Recency(history)[RECENT - 1];
      var todo := sessions.Keys;
      var found: Option<Session> := None;
      while todo != {}
        invariant todo <= sessions.Keys
        invariant found.Some? ==> found.value in sessions.Keys - todo
        invariant forall s :: s in sessions.Keys - todo ==>
          found.Some? && sessions[found.value].lastSequence <= sessions[s].lastSequence
        decreases todo
      {
        var id :| id in todo;
        todo := todo - {id};
        if found.None? || sessions[id].lastSequence < sessions[found.value].lastSequence { found := Some(id); }
      }
      CachedMeans(history, RECENT - 1);
      assert last in sessions;
      oldest := found.value;
      ghost var k :| 0 <= k < |Recency(history)| && k < RECENT && Recency(history)[k] == oldest;
      assert k == RECENT - 1;
    }

    /** recentLocked: the newest records, newest first. */
    method Recent(limit: int) returns (result: seq<Record>)
      requires Valid()
      ensures limit <= 0 ==> result == []
      ensures limit > 0 ==> result == Newest(history, Min(Min(limit, RECENT), |history|))
    {
      if limit <= 0 { return []; }
      var n := Min(Min(limit, RECENT), sequence);
      result := [];
      for offset := 0 to n
        invariant |result| == offset && forall i :: 0 <= i < offset ==> result[i] == history[|history| - 1 - i]
      {
        var at := sequence - offset;
        var entry := entries[(at - 1) % RECENT];
        if entry.sequence == at { result := result + [entry.record]; }
      }
    }

    /** Snapshot's sessions: exactly those of the recent window, all found in the cache, latest use first. */
    method RecentSessions(limit: int) returns (found: seq<Session>)
      requires Valid()
      ensures forall s :: s in found ==> s in sessions
      ensures forall s :: s in found <==> limit > 0 && UsedIn(Newest(history, Min(Min(limit, RECENT), |history|)), s)
      ensures forall i, j :: 0 <= i < j < |found| ==> LastUse(history, found[i]) > LastUse(history, found[j])
    {
      var recent := Recent(limit);
      assert recent == Newest(history, |recent|);
      found := SessionsOf(history, recent);
      forall s | s in found ensures s in sessions {
        var i :| 0 <= i < |recent| && recent[i].session == Some(s);
        RecentSessionIsCached(history, |history| - 1 - i);
      }
    }

    /** The loop over the records, each session once. */
    static method SessionsOf(ghost h: seq<Record>, recent: seq<Record>) returns (found: seq<Session>)
      requires |recent| <= |h| && recent == Newest(h, |recent|)
      ensures forall s :: s in found <==> UsedIn(recent, s)
      ensures forall i, j :: 0 <= i < j < |found| ==> LastUse(h, found[i]) > LastUse(h, found[j])
    {
      found := [];
      for k := 0 to |recent|
        invariant forall s :: s in found ==> UsedIn(recent, s) && LastUse(h, s) > |h| - k
        invariant forall i :: 0 <= i < k && recent[i].session.Some? ==> recent[i].session.value in found
        invariant forall i, j :: 0 <= i < j < |found| ==> LastUse(h, found[i]) > LastUse(h, found[j])
      {
        var s := recent[k].session;
        if s.Some? && s.value !in found {
          NewestUse(h, recent, k, s.value);
          found := found + [s.value];
        }
      }
    }

    /** Best effort: a full table ignores new requests and keeps updating old ones. */
    method Track(id: RequestId, phase: nat)
      requires Valid()
      modifies this`active
      ensures Valid()
      ensures active == Tracked(old(active), id, phase)
    {
      if id !in active && |active| >= ACTIVE { return; }
      assert active[id := phase].Keys == active.Keys + {id};
      active := active[id := phase];
    }

    method Untrack(id: RequestId)
      requires Valid()
      modifies this`active
      ensures Valid() && active == old(active) - {id}
    {
      RemoveShrinks(active, id);
      active := active - {id};
    }

    /** Completed exactly for the newest 64 records, otherwise active, otherwise not retained. */
    method Find(id: RequestId) returns (r: Lookup)
      requires Valid()
      ensures r.Completed? <==> exists i :: 0 <= i < |history| && |history| - i <= RECENT && history[i].id == id
      ensures r.Completed? ==> r.record.id == id && exists i :: 0 <= i < |history| && |history| - i <= RECENT && history[i] == r.record
      ensures r.Active? ==> id in active && active[id] == r.phase
      ensures r.NotRetained? ==> id !in active
    {
      for j := 0 to RECENT
        invariant forall i :: 0 <= i < |history| && |history| - i <= RECENT && i % RECENT < j ==> history[i].id != id
      {
        if entries[j].sequence != 0 && entries[j].record.id == id {
          ghost var i := SlotOwner(j);
          return Completed(entries[j].record);
        }
      }
      if id in active { return Active(active[id]); }
      return NotRetained;
    }

    /** The record a used slot holds. */
    lemma SlotOwner(j: nat) returns (i: nat)
      requires RingHolds(history) && j < RECENT && entries[j].sequence != 0
      ensures i < |history| && |history| - i <= RECENT && i % RECENT == j && entries[j] == Entry(i + 1, history[i])
    {
      var n := |history|;
      if n <= RECENT {
        i := j;
      } else {
        var base := n - RECENT;
        var d := (j - base) % RECENT;
        i := base + d;
        SlotArithmetic(base, j, d);
      }
    }

    lemma SlotArithmetic(base: nat, j: nat, d: nat)
      requires j < RECENT && d == (j - base) % RECENT
      ensures (base + d) % RECENT == j
    {}
  }
}

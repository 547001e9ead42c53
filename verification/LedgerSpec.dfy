/**
 What the request ledger's bounded structures stand for, in terms of the whole
 history of completed requests: the newest records, and the sessions in order of
 their last use.
 */
module LedgerSpec {
  import opened Options

  const RECENT: nat := 64

  type RequestId = nat
  type Session = nat

  datatype Record = Record(id: RequestId, session: Option<Session>, payload: nat)

  function Min(a: nat, b: nat): nat { if a < b then a else b }

  /** The newest `n` records, newest first. */
  function Newest(h: seq<Record>, n: nat): (r: seq<Record>)
    requires n <= |h|
    ensures |r| == n
  {
    seq(n, i requires 0 <= i < n => h[|h| - 1 - i])
  }

  // ---- Sessions by last use ----

  function Drop(l: seq<Session>, x: Session): seq<Session> {
    if l == [] then [] else if l[0] == x then l[1..] else [l[0]] + Drop(l[1..], x)
  }

  /** All sessions ever used, most recently used first. */
  function Recency(h: seq<Record>): seq<Session> {
    if h == [] then []
    else
      var before := Recency(h[..|h| - 1]);
      var s := h[|h| - 1].session;
      if s.None? then before else [s.value] + Drop(before, s.value)
  }

  /** The position, counted from one, of the last record of a session; zero if there is none. */
  function LastUse(h: seq<Record>, s: Session): nat {
    if h == [] then 0
    else if h[|h| - 1].session == Some(s) then |h|
    else LastUse(h[..|h| - 1], s)
  }

  lemma {:induction false} LastUseBound(h: seq<Record>, s: Session)
    ensures LastUse(h, s) <= |h|
    ensures LastUse(h, s) > 0 ==> h[LastUse(h, s) - 1].session == Some(s)
    ensures forall i :: LastUse(h, s) <= i < |h| ==> h[i].session != Some(s)
  {
    if h != [] && h[|h| - 1].session != Some(s) { LastUseBound(h[..|h| - 1], s); }
  }

  /** The last record of a session is where no later one has it. */
  lemma LastUseIs(h: seq<Record>, at: nat, s: Session)
    requires at < |h| && h[at].session == Some(s) && forall i :: at < i < |h| ==> h[i].session != Some(s)
    ensures LastUse(h, s) == at + 1
  {
    LastUseBound(h, s);
  }

  predicate UsedIn(rs: seq<Record>, s: Session) { exists i :: 0 <= i < |rs| && rs[i].session == Some(s) }

  /** Newest first, the first record of a session is its last use. */
  lemma NewestUse(h: seq<Record>, recent: seq<Record>, k: nat, s: Session)
    requires k < |recent| <= |h| && recent == Newest(h, |recent|) && recent[k].session == Some(s)
    requires forall i :: 0 <= i < k ==> recent[i].session != Some(s)
    ensures LastUse(h, s) == |h| - k
  {
    var at := |h| - 1 - k;
    forall i | at < i < |h| ensures h[i].session != Some(s) { assert recent[|h| - 1 - i] == h[i]; }
    LastUseIs(h, at, s);
  }

  /** The sessions' last uses fall strictly, from below `top`. */
  predicate Falling(h: seq<Record>, l: seq<Session>, top: nat) {
    l == [] || (0 < LastUse(h, l[0]) < top && Falling(h, l[1..], LastUse(h, l[0])))
  }

  lemma {:induction false} FallingBelow(h: seq<Record>, l: seq<Session>, top: nat, s: Session)
    requires Falling(h, l, top) && s in l
    ensures 0 < LastUse(h, s) < top
  {
    if s != l[0] {
      assert s in l[1..];
      FallingBelow(h, l[1..], LastUse(h, l[0]), s);
    }
  }

  lemma {:induction false} DropFalling(h: seq<Record>, l: seq<Session>, top: nat, x: Session)
    requires Falling(h, l, top)
    ensures Falling(h, Drop(l, x), top)
    ensures forall s :: s in Drop(l, x) <==> s in l && s != x
  {
    if l != [] {
      var t := LastUse(h, l[0]);
      assert l == [l[0]] + l[1..];
      if l[0] == x {
        if x in l[1..] { FallingBelow(h, l[1..], t, x); }
        FallingRaise(h, l[1..], t, top);
      } else {
        DropFalling(h, l[1..], t, x);
      }
    }
  }

  lemma FallingRaise(h: seq<Record>, l: seq<Session>, low: nat, high: nat)
    requires Falling(h, l, low) && low <= high
    ensures Falling(h, l, high)
  {}

  lemma {:induction false} FallingLater(p: seq<Record>, h: seq<Record>, l: seq<Session>, top: nat)
    requires Falling(p, l, top) && forall s :: s in l ==> LastUse(h, s) == LastUse(p, s)
    ensures Falling(h, l, top)
  {
    if l != [] {
      assert l == [l[0]] + l[1..];
      FallingLater(p, h, l[1..], LastUse(p, l[0]));
    }
  }

  /** `Recency` lists exactly the sessions ever used, in strictly decreasing order of last use. */
  lemma {:induction false} RecencyFalls(h: seq<Record>)
    ensures Falling(h, Recency(h), |h| + 1)
    ensures forall s :: s in Recency(h) <==> LastUse(h, s) > 0
    decreases |h|
  {
    if h != [] {
      var p, r := h[..|h| - 1], h[|h| - 1].session;
      var l := Recency(p);
      RecencyFalls(p);
      if r.None? {
        FallingLater(p, h, l, |h|);
        FallingRaise(h, l, |h|, |h| + 1);
      } else {
        var d := Drop(l, r.value);
        DropFalling(p, l, |h|, r.value);
        FallingLater(p, h, d, |h|);
        assert ([r.value] + d)[1..] == d;
      }
    }
  }

  lemma {:induction false} FallingRank(h: seq<Record>, l: seq<Session>, top: nat, k: nat)
    requires Falling(h, l, top) && k < |l|
    ensures k + LastUse(h, l[k]) < top
    ensures forall i :: 0 <= i < k ==> LastUse(h, l[i]) > LastUse(h, l[k])
  {
    if k > 0 {
      FallingRank(h, l[1..], LastUse(h, l[0]), k - 1);
      assert l[1..][k - 1] == l[k];
      assert forall i :: 0 < i < k ==> l[i] == l[1..][i - 1];
    }
  }

  /** The sessions the cache should hold. */
  function Cached(h: seq<Record>): set<Session> {
    set i | 0 <= i < |Recency(h)| && i < RECENT :: Recency(h)[i]
  }

  /** A session is cached exactly when fewer than 64 others were used since its last use. */
  lemma CachedMeans(h: seq<Record>, k: nat)
    requires k < |Recency(h)|
    ensures Recency(h)[k] in Cached(h) <==> k < RECENT
    ensures forall i :: 0 <= i < |Recency(h)| ==> (LastUse(h, Recency(h)[i]) > LastUse(h, Recency(h)[k]) <==> i < k)
  {
    var l := Recency(h);
    RecencyFalls(h);
    FallingRank(h, l, |h| + 1, k);
    forall i | 0 <= i < |l|
      ensures LastUse(h, l[i]) > LastUse(h, l[k]) <==> i < k
      ensures l[i] == l[k] ==> i == k
    {
      FallingRank(h, l, |h| + 1, i);
    }
  }

  /** Any session of the newest 64 records is cached. */
  lemma RecentSessionIsCached(h: seq<Record>, i: nat)
    requires i < |h| && |h| - i <= RECENT && h[i].session.Some?
    ensures h[i].session.value in Cached(h)
  {
    var s := h[i].session.value;
    RecencyFalls(h);
    LastUseBound(h, s);
    assert LastUse(h, s) > i;
    var k :| 0 <= k < |Recency(h)| && Recency(h)[k] == s;
    FallingRank(h, Recency(h), |h| + 1, k);
  }

  lemma {:induction false} DropPrefix(l: seq<Session>, x: Session, n: nat)
    requires n <= |l| && forall i :: 0 <= i < n ==> l[i] != x
    ensures |Drop(l, x)| >= n && Drop(l, x)[..n] == l[..n]
  {
    if n > 0 {
      DropPrefix(l[1..], x, n - 1);
      assert l[..n] == [l[0]] + l[1..][..n - 1];
      assert Drop(l, x)[..n] == [l[0]] + Drop(l[1..], x)[..n - 1];
    }
  }

  lemma {:induction false} DropWithin(l: seq<Session>, x: Session, n: nat)
    requires n < |l| && (exists i :: 0 <= i <= n && l[i] == x)
    ensures |Drop(l, x)| == |l| - 1 && Drop(l, x)[..n] == Drop(l[..n + 1], x)
  {
    if l[0] == x {
      assert l[..n + 1][1..] == l[1..][..n];
    } else {
      assert n > 0;
      var i :| 0 <= i <= n && l[i] == x;
      assert l[1..][i - 1] == x;
      DropWithin(l[1..], x, n - 1);
      assert l[..n + 1][1..] == l[1..][..n];
      assert Drop(l, x)[..n] == [l[0]] + Drop(l[1..], x)[..n - 1];
    }
  }

  function Elements(l: seq<Session>): set<Session> { set s | s in l }

  lemma CachedIs(h: seq<Record>)
    ensures Cached(h) == Elements(Recency(h)[..Min(RECENT, |Recency(h)|)])
  {
    var l := Recency(h);
    var n := Min(RECENT, |l|);
    assert forall i :: 0 <= i < n ==> l[..n][i] == l[i];
  }

  // ---- How one more use changes the cache ----

  lemma {:induction false} DropMembers(l: seq<Session>, x: Session)
    ensures forall s :: s != x ==> (s in Drop(l, x) <==> s in l)
    ensures x !in l ==> Drop(l, x) == l
  {
    if l != [] {
      assert l == [l[0]] + l[1..];
      DropMembers(l[1..], x);
    }
  }

  lemma {:induction false} ElementsCount(h: seq<Record>, l: seq<Session>, top: nat)
    requires Falling(h, l, top)
    ensures |Elements(l)| == |l|
  {
    if l != [] {
      var t := LastUse(h, l[0]);
      ElementsCount(h, l[1..], t);
      if l[0] in l[1..] { FallingBelow(h, l[1..], t, l[0]); }
      assert l == [l[0]] + l[1..];
      assert Elements(l) == {l[0]} + Elements(l[1..]);
    }
  }

  lemma {:induction false} FallingPrefix(h: seq<Record>, l: seq<Session>, top: nat, n: nat)
    requires Falling(h, l, top) && n <= |l|
    ensures Falling(h, l[..n], top)
  {
    if n > 0 {
      FallingPrefix(h, l[1..], LastUse(h, l[0]), n - 1);
      assert l[..n][1..] == l[1..][..n - 1];
    }
  }

  lemma CachedCount(h: seq<Record>)
    ensures |Cached(h)| == Min(RECENT, |Recency(h)|)
  {
    var n := Min(RECENT, |Recency(h)|);
    RecencyFalls(h);
    FallingPrefix(h, Recency(h), |h| + 1, n);
    ElementsCount(h, Recency(h)[..n], |h| + 1);
    CachedIs(h);
  }

  lemma UseStep(h: seq<Record>, r: Record)
    ensures r.session.None? ==> Recency(h + [r]) == Recency(h) && Cached(h + [r]) == Cached(h)
    ensures r.session.Some? ==> Recency(h + [r]) == [r.session.value] + Drop(Recency(h), r.session.value)
    ensures forall s: Session :: LastUse(h + [r], s) == if r.session == Some(s) then |h| + 1 else LastUse(h, s)
  {
    assert (h + [r])[..|h|] == h;
  }

  /** Using a cached session changes nothing but its place. */
  lemma UseCached(h: seq<Record>, r: Record)
    requires r.session.Some? && r.session.value in Cached(h)
    ensures Cached(h + [r]) == Cached(h)
  {
    var x, l := r.session.value, Recency(h);
    var n := Min(RECENT, |l|);
    UseStep(h, r);
    CachedIs(h);
    CachedIs(h + [r]);
    DropWithin(l, x, n - 1);
    DropMembers(l[..n], x);
    var l' := [x] + Drop(l, x);
    assert l'[..n] == [x] + Drop(l, x)[..n - 1] == [x] + Drop(l[..n], x);
    assert Elements(l'[..n]) == Elements(l[..n]);
  }

  lemma UseNew(h: seq<Record>, r: Record)
    requires r.session.Some? && r.session.value !in Cached(h) && |Recency(h)| < RECENT
    ensures Cached(h + [r]) == Cached(h) + {r.session.value}
  {
    var x, l := r.session.value, Recency(h);
    UseStep(h, r);
    CachedIs(h);
    CachedIs(h + [r]);
    assert l[..|l|] == l;
    DropMembers(l, x);
    assert ([x] + l)[..|l| + 1] == [x] + l;
  }

  lemma FrontAfterDrop(l: seq<Session>, x: Session, n: nat)
    requires 0 < n <= |l| && x !in l[..n]
    ensures |Drop(l, x)| >= n && ([x] + Drop(l, x))[..n] == [x] + l[..n - 1]
  {
    assert forall i :: 0 <= i < n ==> l[i] == l[..n][i];
    DropPrefix(l, x, n);
    assert Drop(l, x)[..n - 1] == Drop(l, x)[..n][..n - 1];
  }

  lemma ReplaceLast(l: seq<Session>, x: Session, n: nat)
    requires 0 < n <= |l| && l[n - 1] !in l[..n - 1]
    ensures Elements([x] + l[..n - 1]) == Elements(l[..n]) - {l[n - 1]} + {x}
  {
    assert l[..n] == l[..n - 1] + [l[n - 1]];
  }

  /** With 64 sessions cached, a new one takes the place of the least recently used. */
  lemma UseEvicts(h: seq<Record>, r: Record)
    requires r.session.Some? && r.session.value !in Cached(h) && |Recency(h)| >= RECENT
    ensures Cached(h + [r]) == Cached(h) - {Recency(h)[RECENT - 1]} + {r.session.value}
  {
    var x, l := r.session.value, Recency(h);
    UseStep(h, r);
    CachedIs(h);
    CachedIs(h + [r]);
    FrontAfterDrop(l, x, RECENT);
    assert l[RECENT - 1] !in l[..RECENT - 1] by { CachedMeans(h, RECENT - 1); }
    ReplaceLast(l, x, RECENT);
  }

  // ---- Active requests ----

  const ACTIVE: nat := 128

  /** Best effort: a full table ignores new requests and keeps updating old ones. */
  function Tracked(active: map<RequestId, nat>, id: RequestId, phase: nat): map<RequestId, nat> {
    if id in active || |active| < ACTIVE then active[id := phase] else active
  }

  /** What the server does with one request: Track any number of times, Add at most once, Untrack. */
  datatype Op = Track(id: RequestId, phase: nat) | Add(record: Record) | Untrack(id: RequestId)

  datatype Stage = Open | Recorded | Closed

  datatype World = World(history: seq<Record>, active: map<RequestId, nat>, stages: map<RequestId, Stage>)

  predicate Allowed(w: World, op: Op) {
    match op
    case Track(id, _) => id in w.stages ==> w.stages[id].Open?
    case Add(r) => r.id in w.stages && w.stages[r.id].Open?
    case Untrack(id) => id in w.stages && !w.stages[id].Closed?
  }

  function Apply(w: World, op: Op): World {
    match op
    case Track(id, phase) => w.(active := Tracked(w.active, id, phase), stages := w.stages[id := Open])
    case Add(r) => World(w.history + [r], w.active - {r.id}, w.stages[r.id := Recorded])
    case Untrack(id) => w.(active := w.active - {id}, stages := w.stages[id := Closed])
  }

  predicate Obeys(w: World, ops: seq<Op>)
    decreases |ops|
  {
    ops == [] || (Allowed(w, ops[0]) && Obeys(Apply(w, ops[0]), ops[1..]))
  }

  function Play(w: World, ops: seq<Op>): World
    decreases |ops|
  {
    if ops == [] then w else Play(Apply(w, ops[0]), ops[1..])
  }

  /** Only open requests are active, and no request is recorded twice. */
  predicate Orderly(w: World) {
    && (forall id :: id in w.active ==> id in w.stages && w.stages[id].Open?)
    && (forall i :: 0 <= i < |w.history| ==> w.history[i].id in w.stages && !w.stages[w.history[i].id].Open?)
    && (forall i, j :: 0 <= i < j < |w.history| ==> w.history[i].id != w.history[j].id)
  }

  lemma {:induction false} PlayIsOrderly(w: World, ops: seq<Op>)
    requires Orderly(w) && Obeys(w, ops)
    ensures Orderly(Play(w, ops))
    decreases |ops|
  {
    if ops != [] {
      StepIsOrderly(w, ops[0]);
      PlayIsOrderly(Apply(w, ops[0]), ops[1..]);
    }
  }

  lemma StepIsOrderly(w: World, op: Op)
    requires Orderly(w) && Allowed(w, op)
    ensures Orderly(Apply(w, op))
  {
    if op.Add? {
      var h := w.history + [op.record];
      assert forall i :: 0 <= i < |w.history| ==> h[i] == w.history[i];
    }
  }

  /**
   Over every run of the server's calls: a request is never both completed and
   active, its completed record is unique, and nothing stays active once every
   request has been recorded or untracked.
   */
  lemma ReportsAreUnambiguous(ops: seq<Op>, id: RequestId)
    requires Obeys(World([], map[], map[]), ops)
    ensures var w := Play(World([], map[], map[]), ops);
      && (forall i :: 0 <= i < |w.history| && w.history[i].id == id ==> id !in w.active)
      && (forall i, j :: 0 <= i < |w.history| && 0 <= j < |w.history| && w.history[i].id == id && w.history[j].id == id ==> i == j)
      && ((forall k :: k in w.stages ==> !w.stages[k].Open?) ==> w.active == map[])
  {
    PlayIsOrderly(World([], map[], map[]), ops);
    var w := Play(World([], map[], map[]), ops);
    if forall k :: k in w.stages ==> !w.stages[k].Open? { assert w.active.Keys == {}; }
  }

  // ---- The bounded table against one without a bound ----

  lemma RemoveShrinks(m: map<RequestId, nat>, id: RequestId)
    ensures |m - {id}| <= |m|
  {
    assert (m - {id}).Keys <= m.Keys;
    SubsetSize((m - {id}).Keys, m.Keys);
  }

  lemma SubsetSize(a: set<RequestId>, b: set<RequestId>)
    requires a <= b
    ensures |a| <= |b|
  {
    if a != {} {
      var x :| x in a;
      SubsetSize(a - {x}, b - {x});
    }
  }

  /** The same call on a table that takes every request. */
  function Say(all: map<RequestId, nat>, op: Op): map<RequestId, nat> {
    match op
    case Track(id, phase) => all[id := phase]
    case Add(r) => all - {r.id}
    case Untrack(id) => all - {id}
  }

  function SayAll(all: map<RequestId, nat>, ops: seq<Op>): map<RequestId, nat>
    decreases |ops|
  {
    if ops == [] then all else SayAll(Say(all, ops[0]), ops[1..])
  }

  /** At no point are more than 128 requests open. */
  predicate NeverCrowded(all: map<RequestId, nat>, ops: seq<Op>)
    decreases |ops|
  {
    |all| <= ACTIVE && (ops == [] || NeverCrowded(Say(all, ops[0]), ops[1..]))
  }

  predicate PartOf(some: map<RequestId, nat>, all: map<RequestId, nat>) {
    |some| <= ACTIVE && forall id :: id in some ==> id in all && some[id] == all[id]
  }

  lemma {:induction false} DropOne(some: map<RequestId, nat>, all: map<RequestId, nat>, id: RequestId)
    requires PartOf(some, all)
    ensures PartOf(some - {id}, all - {id})
  {
    RemoveShrinks(some, id);
  }

  lemma {:induction false} SetOne(some: map<RequestId, nat>, all: map<RequestId, nat>, id: RequestId, phase: nat)
    requires PartOf(some, all)
    ensures PartOf(Tracked(some, id, phase), all[id := phase])
    ensures some == all && |all[id := phase]| <= ACTIVE ==> Tracked(some, id, phase) == all[id := phase]
  {
    if id in some { assert some[id := phase].Keys == some.Keys; }
    assert id !in all ==> |all[id := phase]| == |all| + 1;
  }

  lemma {:induction false} SayStep(w: World, all: map<RequestId, nat>, op: Op)
    requires PartOf(w.active, all)
    ensures PartOf(Apply(w, op).active, Say(all, op))
    ensures w.active == all && |Say(all, op)| <= ACTIVE ==> Apply(w, op).active == Say(all, op)
  {
    match op
    case Track(id, phase) => SetOne(w.active, all, id, phase);
    case Add(r) => DropOne(w.active, all, r.id);
    case Untrack(id) => DropOne(w.active, all, id);
  }

  lemma {:induction false} PlaySays(w: World, all: map<RequestId, nat>, ops: seq<Op>)
    requires PartOf(w.active, all)
    ensures PartOf(Play(w, ops).active, SayAll(all, ops))
    ensures w.active == all && NeverCrowded(all, ops) ==> Play(w, ops).active == SayAll(all, ops)
    decreases |ops|
  {
    if ops != [] {
      var next := Say(all, ops[0]);
      SayStep(w, all, ops[0]);
      assert NeverCrowded(all, ops) ==> NeverCrowded(next, ops[1..]);
      assert NeverCrowded(next, ops[1..]) ==> |next| <= ACTIVE;
      PlaySays(Apply(w, ops[0]), next, ops[1..]);
    }
  }

  /**
   Over every run of calls the table has at most 128 requests, each in the phase
   last said of it; and it has all of them if there were never more.
   */
  lemma ActiveIsCurrent(ops: seq<Op>)
    ensures var w := Play(World([], map[], map[]), ops);
      && PartOf(w.active, SayAll(map[], ops))
      && (NeverCrowded(map[], ops) ==> w.active == SayAll(map[], ops))
  {
    PlaySays(World([], map[], map[]), map[], ops);
  }
}

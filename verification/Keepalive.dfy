/**
 `streamKeepaliveBody`: the response body that inserts keepalive comments while a
 single background read is outstanding. The upstream bytes live in one fixed
 buffer that `pending` may alias, so the invariant also says when it may.
 */
module Keepalive {
  import opened Octets
  import opened Options
  import opened EventStream
  import opened KeepaliveSpec

  datatype Pending = Nothing | InBuffer(lo: nat, hi: nat) | InComment(rest: seq<Byte>)

  /** The reader goroutine: in its first select, inside upstream.Read, or offering a result. */
  datatype Worker = Selecting | InRead | Offering(count: nat, err: Option<nat>) | Exited

  /** What happens next, in an order chosen by the environment. */
  datatype Action =
    | Take                                             // the reader takes the request token
    | Scribble(at: nat, b: Byte)                       // upstream writes while its Read is running
    | Return(bytes: seq<Byte>, err: Option<nat>)       // upstream.Read returns
    | Exit                                             // the reader sees closed
    | Receive                                          // Read's select takes the result
    | Tick                                             // Read's select takes a tick
    | SeeClosed                                        // Read's select sees closed

  /** Why the wait of a Read ends: bytes, an error, a close, or not yet. */
  datatype Ending = Ready | Failing | Shut | Waiting

  datatype Outcome = Data(bytes: seq<Byte>) | Error(err: nat) | ClosedPipe | Blocked

  class Body {
    const buffer: array<Byte>
    const comment: seq<Byte>
    var pending: Pending
    var err: Option<nat>
    var reading: bool
    var framing: Framing
    var tokens: nat                                    // queued in the reads channel, capacity one
    var worker: Worker
    var closed: bool
    ghost var items: seq<Item>                         // everything emitted or pending
    ghost var emitted: seq<Byte>
    ghost var upstream: seq<Byte>                      // everything upstream.Read has returned

    ghost function PendingBytes(): seq<Byte>
      reads this, buffer
    {
      match pending
      case Nothing => []
      case InBuffer(lo, hi) => if lo <= hi <= buffer.Length then buffer[lo..hi] else []
      case InComment(rest) => rest
    }

    /** At most one upstream read is outstanding, and `reading` says whether it is. */
    ghost predicate OneRead()
      reads this
    {
      && (worker.Exited? ==> closed)
      && (!worker.Exited? ==> tokens + (if worker.Selecting? then 0 else 1) == if reading then 1 else 0)
      && (err.Some? ==> !reading)
    }

    /** `pending` aliases the buffer only while no upstream read can write to it. */
    ghost predicate NoAlias()
      reads this
    {
      match pending
      case Nothing => true
      case InBuffer(lo, hi) => lo < hi <= buffer.Length && !reading && tokens == 0
      case InComment(rest) => rest != []
    }

    ghost function Offered(): seq<Byte>
      reads this, buffer
    {
      if worker.Offering? && worker.count <= buffer.Length then buffer[..worker.count] else []
    }

    ghost predicate Valid()
      reads this, buffer
    {
      && OneRead() && NoAlias()
      && (worker.Offering? ==> worker.count <= buffer.Length)
      && Story(items, comment, emitted, PendingBytes(), framing)
      && (!worker.Exited? ==> Sent(items) + Offered() == upstream)
      && (err.Some? ==> Sent(items) == upstream)
    }

    constructor (size: nat)
      ensures Valid() && emitted == [] && items == [] && upstream == [] && fresh(buffer) && buffer.Length == size
      ensures comment == KEEPALIVE
    {
      buffer := new Byte[size](_ => 0);
      pending, err, reading, framing := Nothing, None, false, Opening;
      comment := KEEPALIVE;
      KeepaliveIsCommentBlock();
      tokens, worker, closed := 0, Selecting, false;
      items, emitted, upstream := [], [], [];
    }

    /** streamBoundary.observe */
    method Observe(s: seq<Byte>)
      modifies this`framing
      ensures framing == Feed(old(framing), s)
    {
      for i := 0 to |s|
        invariant framing == Feed(old(framing), s[..i])
      {
        assert s[..i + 1] == s[..i] + [s[i]];
        FeedSnoc(old(framing), s[..i], s[i]);
        var c := s[i];
        if framing.afterCR && c == LF {
          framing := framing.(afterCR := false);
        } else {
          framing := framing.(afterCR := false);
          if c == CR || c == LF {
            framing := Framing(!framing.lineData, false, c == CR);
          } else {
            framing := framing.(boundary := false, lineData := true);
          }
        }
      }
      assert s[..|s|] == s;
    }

    /** Hand out at most `n` pending bytes. */
    method Drain(n: nat) returns (bytes: seq<Byte>)
      requires Valid() && !pending.Nothing? && n > 0
      modifies this`pending, this`framing, this`emitted
      ensures Valid() && emitted == old(emitted) + bytes && 0 < |bytes| <= n && (|bytes| == n || pending.Nothing?)
    {
      ghost var all := PendingBytes();
      bytes := Advance(n);
      StoryDrains(items, comment, emitted, bytes, PendingBytes(), framing);
      Observe(bytes);
      emitted := emitted + bytes;
    }

    method Advance(n: nat) returns (bytes: seq<Byte>)
      requires NoAlias() && !pending.Nothing? && n > 0
      modifies this`pending
      ensures NoAlias() && old(PendingBytes()) == bytes + PendingBytes() && 0 < |bytes| <= n
      ensures |bytes| == n || pending.Nothing?
    {
      match pending {
        case InBuffer(lo, hi) =>
          var count := if n < hi - lo then n else hi - lo;
          bytes := buffer[lo..lo + count];
          pending := if lo + count == hi then Nothing else InBuffer(lo + count, hi);
        case InComment(rest) =>
          var count := if n < |rest| then n else |rest|;
          bytes := rest[..count];
          pending := if count == |rest| then Nothing else InComment(rest[count..]);
      }
    }

    /** A tick makes the whole comment pending exactly where the upstream bytes allow one. */
    method OnTick()
      requires Valid() && pending.Nothing?
      modifies this`pending, this`items
      ensures Valid()
      ensures items == old(items) + if Allows(Sent(old(items))) then [Comment(comment)] else []
      ensures PendingBytes() == if Allows(Sent(old(items))) then comment else []
    {
      StoryAllows(items, comment, emitted, framing);
      if framing.boundary && !framing.afterCR {
        StoryTicks(items, comment, emitted, framing);
        items := items + [Comment(comment)];
        pending := InComment(comment);
      }
    }

    /** The result of the outstanding read becomes the pending bytes. */
    method OnReceive()
      requires Valid() && pending.Nothing? && worker.Offering? && err.None?
      modifies this`pending, this`items, this`reading, this`worker, this`err
      ensures Valid() && items == Relay(old(items), buffer[..old(worker.count)]) && err == old(worker.err)
      ensures PendingBytes() == buffer[..old(worker.count)] && !worker.Offering?
    {
      var count := worker.count;
      ghost var block := buffer[..count];
      StoryReceives(items, comment, emitted, block, framing);
      items := Relay(items, block);
      reading, err, worker := false, worker.err, Selecting;
      pending := if count == 0 then Nothing else InBuffer(0, count);
      assert buffer[0..count] == block;
    }

    method Background(a: Action)
      requires Valid()
      modifies this`tokens, this`worker, this`upstream, buffer
      ensures Valid()
    {
      match a {
        case Take =>
          if worker.Selecting? && tokens > 0 { tokens, worker := tokens - 1, InRead; }
        case Scribble(at, b) =>
          if worker.InRead? && at < buffer.Length { Write(at, [b]); }
        case Return(bytes, e) =>
          if worker.InRead? && |bytes| <= buffer.Length { Returned(bytes, e); }
        case Exit =>
          if closed && (worker.Selecting? || worker.Offering?) { worker := Exited; }
        case _ =>
      }
    }

    /** The upstream read returns what it wrote to the front of the buffer. */
    method Returned(bytes: seq<Byte>, e: Option<nat>)
      requires Valid() && worker.InRead? && |bytes| <= buffer.Length
      modifies this`worker, this`upstream, buffer
      ensures Valid()
    {
      Write(0, bytes);
      assert buffer[..|bytes|] == buffer[0..|bytes|] == bytes;
      worker := Offering(|bytes|, e);
      upstream := upstream + bytes;
    }

    method Write(at: nat, bytes: seq<Byte>)
      requires Valid() && worker.InRead? && at + |bytes| <= buffer.Length
      modifies buffer
      ensures Valid() && buffer[at..at + |bytes|] == bytes
    {
      ghost var before := PendingBytes();
      Fill(buffer, at, bytes);
      assert !pending.InBuffer? && PendingBytes() == before;
    }

    static method Fill(buffer: array<Byte>, at: nat, bytes: seq<Byte>)
      requires at + |bytes| <= buffer.Length
      modifies buffer
      ensures buffer[at..at + |bytes|] == bytes
    {
      for i := 0 to |bytes|
        invariant buffer[at..at + i] == bytes[..i]
      {
        buffer[at + i] := bytes[i];
        assert buffer[at..at + i + 1] == buffer[at..at + i] + [bytes[i]];
        assert bytes[..i + 1] == bytes[..i] + [bytes[i]];
      }
    }

    /**
     Close, under any schedule of what the reader goroutine does meanwhile. It
     returns once that goroutine has ended; from then on the buffer is its own.
     */
    method Close(schedule: seq<Action>) returns (done: bool)
      requires Valid()
      modifies this`closed, this`tokens, this`worker, this`upstream, buffer
      ensures Valid() && closed && (done <==> worker.Exited?)
    {
      closed := true;
      var i := 0;
      while !worker.Exited? && i < |schedule|
        invariant Valid() && closed && i <= |schedule|
      {
        Background(schedule[i]);
        i := i + 1;
      }
      done := worker.Exited?;
    }

    /**
     Read, under any schedule of what happens while it waits. It returns as soon
     as there are bytes or an error; when the schedule ends first it is still
     waiting, and calling it again continues where it was.
     */
    method Read(n: nat, schedule: seq<Action>) returns (r: Outcome)
      requires Valid()
      modifies this`pending, this`err, this`reading, this`framing, this`tokens, this`worker, this`items,
               this`emitted, this`upstream, buffer
      ensures Valid()
      ensures old(items) <= items
      ensures emitted == old(emitted) + (if r.Data? then r.bytes else [])
      ensures r.Data? ==> |r.bytes| <= n && (n > 0 ==> r.bytes != [] && (|r.bytes| == n || pending.Nothing?))
      ensures n > 0 && old(!pending.Nothing?) ==> r.Data?
      ensures !r.Data? ==> items == old(items)
      ensures r.Blocked? && Tick in schedule ==> !Allows(Sent(items))
      ensures r.Blocked? && schedule != [] && schedule[|schedule| - 1].Receive? ==> !worker.Offering?
      ensures r.Error? ==> err == Some(r.err) && emitted == Emit(items) && Sent(items) == upstream
      ensures r.ClosedPipe? ==> closed
    {
      if n == 0 { return Data([]); }
      if pending.Nothing? {
        var end := Wait(schedule);
        match end {
          case Ready =>
          case Failing => return Error(err.value);
          case Shut => return ClosedPipe;
          case Waiting => return Blocked;
        }
      }
      var bytes := Drain(n);
      return Data(bytes);
    }

    /** The loop of Read while it has nothing to hand out. */
    method Wait(schedule: seq<Action>) returns (end: Ending)
      requires Valid() && pending.Nothing?
      modifies this`pending, this`err, this`reading, this`tokens, this`worker, this`items, this`upstream, buffer
      ensures Valid() && old(items) <= items && (end.Ready? <==> !pending.Nothing?)
      ensures !end.Ready? ==> items == old(items)
      ensures end.Failing? ==> err.Some?
      ensures end.Shut? ==> closed
      ensures end.Waiting? && Tick in schedule ==> !Allows(Sent(items))
      ensures end.Waiting? && schedule != [] && schedule[|schedule| - 1].Receive? ==> !worker.Offering?
    {
      var i := 0;
      while true
        invariant Valid() && i <= |schedule| && old(items) <= items && (pending.Nothing? ==> items == old(items))
        invariant pending.Nothing? && Tick in schedule[..i] ==> !Allows(Sent(items))
        invariant i > 0 && schedule[i - 1].Receive? ==> !worker.Offering?
        decreases |schedule| - i
      {
        if !pending.Nothing? { return Ready; }
        if err.Some? { return Failing; }
        if !reading {
          if closed && (tokens > 0 || (i < |schedule| && schedule[i].SeeClosed?)) { return Shut; }
          Request();
        }
        if i == |schedule| {
          assert schedule[..i] == schedule;
          return Waiting;
        }
        if closed && schedule[i].SeeClosed? { return Shut; }
        Wake(schedule[i]);
        assert schedule[..i + 1] == schedule[..i] + [schedule[i]];
        i := i + 1;
      }
    }

    /** One thing happens while Read waits in its select. */
    method Wake(a: Action)
      requires Valid() && pending.Nothing? && err.None?
      modifies this`pending, this`err, this`reading, this`tokens, this`worker, this`items, this`upstream, buffer
      ensures Valid() && old(items) <= items && (pending.Nothing? ==> items == old(items))
      ensures a.Tick? && pending.Nothing? ==> !Allows(Sent(items))
      ensures a.Receive? ==> !worker.Offering?
    {
      match a {
        case Receive => if worker.Offering? { OnReceive(); }
        case Tick => OnTick();
        case _ => Background(a);
      }
    }

    /** Ask the reader goroutine for one upstream read. */
    method Request()
      requires Valid() && pending.Nothing? && err.None? && !reading && (worker.Exited? ==> tokens == 0)
      modifies this`tokens, this`reading
      ensures Valid() && reading && tokens == 1
    {
      tokens, reading := tokens + 1, true;
    }

    /** When nothing is pending, the client has seen exactly the upstream events. */
    lemma ClientSeesUpstreamEvents()
      requires Valid() && pending.Nothing? && !HasBOM(Sent(items))
      ensures Interpret(emitted) == Interpret(Sent(items))
    {
      assert Emit(items) == emitted;
      SameEventsWithoutBOM(items, comment);
    }
  }
}

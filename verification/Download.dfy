/**
 The resumable exact-size download: one attempt against any server, and what any
 sequence of interrupted attempts leaves in the file when the server honours
 range requests (section 14.4 of RFC 9110).
 */
module Download {
  import opened Octets
  import opened Options

  const CHUNK: nat := 8388608

  /** A missing file has size zero. */
  type File = Option<seq<Byte>>

  function Content(f: File): seq<Byte> { if f.Some? then f.value else [] }

  /** `rangeStart`: N when Content-Range begins with "bytes N-". `body`: what arrives before EOF or a broken connection. */
  datatype Reply =
    | HttpError(code: nat)
    | Response(status: nat, rangeStart: Option<nat>, declared: Option<int>, body: seq<Byte>, broken: bool)

  /** The size a request resumes from; a file that is too long starts over. */
  function Offset(f: File, expected: nat): nat {
    if |Content(f)| > expected then 0 else |Content(f)|
  }

  predicate Appends(f: File, expected: nat, r: Reply)
    requires r.Response?
  {
    Offset(f, expected) > 0 && r.status == 206
  }

  function Base(f: File, expected: nat, r: Reply): nat
    requires r.Response?
  {
    if Appends(f, expected, r) then Offset(f, expected) else 0
  }

  /** Refused before the file is opened. */
  predicate Rejected(f: File, expected: nat, r: Reply)
    requires r.Response?
  {
    || (Appends(f, expected, r) && r.rangeStart != Some(Offset(f, expected)))
    || (r.declared.Some? && r.declared.value > expected - Base(f, expected, r))
  }

  function Kept(f: File, expected: nat, r: Reply): seq<Byte>
    requires r.Response?
  {
    if Appends(f, expected, r) then Content(f) else []
  }

  /** A leading part of the body was written after `kept`, within the expected size; all of it if it fits. */
  predicate Wrote(kept: seq<Byte>, base: nat, expected: nat, body: seq<Byte>, f: File) {
    exists k :: 0 <= k <= |body| && f == Some(kept + body[..k]) && base + k <= expected && (base + |body| <= expected ==> k == |body|)
  }

  /** What one attempt does, for any reply and any sizes of the blocks read. */
  predicate Attempted(f: File, expected: int, r: Reply, f': File, ok: bool) {
    if expected <= 0 then !ok && f' == f
    else if |Content(f)| == expected then ok && f' == f
    else if r.HttpError? || Rejected(f, expected, r) then !ok && f' == f
    else
      && Wrote(Kept(f, expected, r), Base(f, expected, r), expected, r.body, f')
      && (ok <==> !r.broken && Base(f, expected, r) + |r.body| == expected)
  }

  /** What a download with only a maximum size does: it starts over, and trusts a declared size. */
  predicate AttemptedBounded(f: File, maximum: int, r: Reply, f': File, ok: bool) {
    if maximum <= 0 || r.HttpError? || (r.declared.Some? && r.declared.value > maximum) then !ok && f' == f
    else
      && Wrote([], 0, maximum, r.body, f')
      && (ok <==> !r.broken && 0 < |r.body| <= maximum && (r.declared.Some? ==> r.declared.value == |r.body|))
  }

  class Target {
    var file: File

    constructor ()
      ensures file.None?
    {
      file := None;
    }

    /** download with an exact expected size; `sizes` bounds the blocks the connection delivers. */
    method Download(expected: int, reply: Reply, sizes: seq<nat>) returns (ok: bool)
      modifies this
      ensures Attempted(old(file), expected, reply, file, ok)
    {
      if expected <= 0 { return false; }
      var current := |Content(file)|;
      if current == expected { return true; }
      if current > expected { current := 0; }
      if reply.HttpError? { return reply.code == 416 && |Content(file)| == expected; }
      var append := current > 0 && reply.status == 206;
      if append && reply.rangeStart != Some(current) { return false; }
      var downloaded := if append then current else 0;
      if reply.declared.Some? && reply.declared.value > expected - downloaded { return false; }
      file := Some(if append then Content(file) else []);
      var received := Receive(expected, downloaded, reply, sizes);
      ok := received && |file.value| == expected;
    }

    /** _download_bounded; the sizes are checked by download before it. */
    method DownloadBounded(maximum: int, reply: Reply, sizes: seq<nat>) returns (ok: bool)
      modifies this
      ensures AttemptedBounded(old(file), maximum, reply, file, ok)
    {
      if maximum <= 0 || reply.HttpError? { return false; }
      if reply.declared.Some? && reply.declared.value > maximum { return false; }
      file := Some([]);
      var received := Receive(maximum, 0, reply, sizes);
      if !received { return false; }
      if reply.declared.Some? && |file.value| != reply.declared.value { return false; }
      ok := |file.value| > 0;
    }

    /** The block loop: probe one byte past the allowance, never write past it. */
    method Receive(expected: nat, start: nat, reply: Reply, sizes: seq<nat>) returns (received: bool)
      requires reply.Response? && file.Some? && |file.value| == start <= expected
      modifies this
      ensures Wrote(old(file).value, start, expected, reply.body, file)
      ensures received <==> !reply.broken && start + |reply.body| <= expected
      ensures received ==> file == Some(old(file).value + reply.body)
    {
      var downloaded, at, i := start, 0, 0;
      assert old(file).value + reply.body[..0] == old(file).value;
      while at < |reply.body|
        invariant at <= |reply.body| && downloaded == start + at <= expected
        invariant file == Some(old(file).value + reply.body[..at])
        decreases |reply.body| - at
      {
        var remaining := expected - downloaded;
        var limit := if CHUNK < remaining + 1 then CHUNK else remaining + 1;
        var size := if i < |sizes| && 0 < sizes[i] < limit then sizes[i] else limit;
        var block := reply.body[at..if at + size < |reply.body| then at + size else |reply.body|];
        i := i + 1;
        if |block| > remaining {
          assert file == Some(old(file).value + reply.body[..at]);
          return false;
        }
        assert reply.body[..at] + block == reply.body[..at + |block|];
        assert old(file).value + reply.body[..at] + block == old(file).value + (reply.body[..at] + block);
        file := Some(file.value + block);
        at, downloaded := at + |block|, downloaded + |block|;
      }
      assert file == Some(old(file).value + reply.body[..at]);
      assert reply.body[..at] == reply.body;
      return !reply.broken;
    }
  }

  // ---- Runs of attempts ----

  /** The server serves `content`: from the offset asked for when it answers 206, from the start otherwise. */
  predicate Honours(content: seq<Byte>, offset: nat, r: Reply) {
    r.Response? ==>
      if offset > 0 && r.status == 206
      then offset <= |content| && r.rangeStart == Some(offset) && r.body <= content[offset..]
      else r.body <= content
  }

  predicate IsPrefix(f: File, content: seq<Byte>) { Content(f) <= content }

  lemma PrefixExtends(content: seq<Byte>, p: seq<Byte>, body: seq<Byte>, k: nat)
    requires p <= content && body <= content[|p|..] && k <= |body|
    ensures p + body[..k] <= content
  {
    var t := p + body[..k];
    forall i | 0 <= i < |t| ensures t[i] == content[i] {
      if i >= |p| { assert content[|p|..][i - |p|] == body[i - |p|]; }
    }
    assert t == content[..|t|];
  }

  lemma AttemptKeepsPrefix(content: seq<Byte>, f: File, expected: int, r: Reply, f': File, ok: bool)
    requires IsPrefix(f, content) && Attempted(f, expected, r, f', ok)
    requires expected > 0 ==> Honours(content, Offset(f, expected), r)
    ensures IsPrefix(f', content)
    ensures ok ==> |Content(f')| == expected
    ensures ok && |content| == expected ==> Content(f') == content
  {
    if f' != f {
      var k :| 0 <= k <= |r.body| && f' == Some(Kept(f, expected, r) + r.body[..k]);
      if Appends(f, expected, r) {
        PrefixExtends(content, Content(f), r.body, k);
      } else {
        PrefixExtends(content, [], r.body, k);
      }
    }
  }

  /** A resumed attempt never loses what was already there, and nothing ever exceeds the expected size. */
  lemma AttemptNeverExceeds(f: File, expected: int, r: Reply, f': File, ok: bool)
    requires Attempted(f, expected, r, f', ok)
    ensures f' != f ==> |Content(f')| <= expected
    ensures expected > 0 && r.Response? && Appends(f, expected, r) ==> Content(f) <= Content(f')
  {}

  /** `files[i + 1]` is what attempt `i` leaves of `files[i]`. */
  predicate Attempts(content: seq<Byte>, expected: int, replies: seq<Reply>, files: seq<File>, oks: seq<bool>) {
    && |files| == |replies| + 1 && |oks| == |replies|
    && forall i :: 0 <= i < |replies| ==>
         && Attempted(files[i], expected, replies[i], files[i + 1], oks[i])
         && (expected > 0 ==> Honours(content, Offset(files[i], expected), replies[i]))
  }

  /** However often it is interrupted, the file stays a prefix of the content; success means equality. */
  lemma {:induction false} InterruptedDownloadsConverge(content: seq<Byte>, replies: seq<Reply>, files: seq<File>, oks: seq<bool>, i: nat)
    requires Attempts(content, |content|, replies, files, oks) && IsPrefix(files[0], content) && i <= |replies|
    ensures IsPrefix(files[i], content)
    ensures i > 0 && oks[i - 1] ==> Content(files[i]) == content
  {
    if i > 0 {
      InterruptedDownloadsConverge(content, replies, files, oks, i - 1);
      AttemptKeepsPrefix(content, files[i - 1], |content|, replies[i - 1], files[i], oks[i - 1]);
    }
  }

  /** A reply that continues a file of this size, by its own headers. */
  predicate Continues(size: nat, r: Reply, expected: nat) {
    && r.Response? && r.status == 206 && r.rangeStart == Some(size)
    && (r.declared.Some? ==> r.declared.value <= expected - size)
  }

  /** A reply that is not a part to append to a file of this size, and not too large by its own headers. */
  predicate StartsOver(size: nat, r: Reply, expected: nat) {
    && r.Response? && (r.status != 206 || size == 0 || size > expected)
    && (r.declared.Some? ==> r.declared.value <= expected)
  }

  /** Resuming: a file that is short keeps its bytes and gets the rest of an unbroken reply. */
  lemma ResumeCompletes(f: File, expected: nat, r: Reply, f': File, ok: bool)
    requires Attempted(f, expected, r, f', ok) && 0 < |Content(f)| < expected
    requires Continues(|Content(f)|, r, expected)
    ensures Content(f) <= Content(f')
    ensures |Content(f)| + |r.body| <= expected ==> f' == Some(Content(f) + r.body)
    ensures ok <==> !r.broken && |Content(f)| + |r.body| == expected
  {
    var k :| 0 <= k <= |r.body| && f' == Some(Content(f) + r.body[..k]) && |Content(f)| + k <= expected
      && (|Content(f)| + |r.body| <= expected ==> k == |r.body|);
    assert k == |r.body| ==> r.body[..k] == r.body;
  }

  /** Starting over: whatever was there is replaced. */
  lemma StartingOverReplaces(f: File, expected: nat, r: Reply, f': File, ok: bool)
    requires Attempted(f, expected, r, f', ok) && expected > 0 && |Content(f)| != expected && StartsOver(|Content(f)|, r, expected)
    ensures |r.body| <= expected ==> f' == Some(r.body)
    ensures ok <==> !r.broken && |r.body| == expected
  {
    var k :| 0 <= k <= |r.body| && f' == Some([] + r.body[..k]) && 0 + k <= expected
      && (0 + |r.body| <= expected ==> k == |r.body|);
    assert k == |r.body| ==> [] + r.body[..k] == r.body;
  }

  /** What is refused leaves the file as it was: a wrong range, a size too large, an error. */
  lemma RefusedLeavesFile(f: File, expected: nat, r: Reply, f': File, ok: bool)
    requires Attempted(f, expected, r, f', ok) && |Content(f)| != expected
    requires || r.HttpError?
             || (0 < |Content(f)| < expected && r.status == 206 && !Continues(|Content(f)|, r, expected))
             || ((r.status != 206 || |Content(f)| == 0 || |Content(f)| > expected) && !StartsOver(|Content(f)|, r, expected))
    ensures !ok && f' == f
  {}

  /** Progress: an unbroken reply with the rest of the content completes any prefix. */
  lemma UnbrokenReplyCompletes(content: seq<Byte>, f: File, r: Reply, f': File, ok: bool)
    requires IsPrefix(f, content) && Attempted(f, |content|, r, f', ok) && |Content(f)| < |content|
    requires r.Response? && !r.broken
    requires || (Content(f) != [] && Continues(|Content(f)|, r, |content|) && r.body == content[|Content(f)|..])
             || (StartsOver(|Content(f)|, r, |content|) && r.body == content)
    ensures ok && Content(f') == content
  {
    if r.status == 206 && Content(f) != [] {
      ResumeCompletes(f, |content|, r, f', ok);
      assert Content(f) + content[|Content(f)|..] == content;
    } else {
      StartingOverReplaces(f, |content|, r, f', ok);
    }
  }

  /**
   A bounded download either leaves the whole reply, not empty, within the bound
   and as long as declared, or fails; it never mixes in what was there before.
   */
  lemma BoundedIsWhole(f: File, maximum: int, r: Reply, f': File, ok: bool)
    requires AttemptedBounded(f, maximum, r, f', ok)
    ensures ok ==> f' == Some(r.body) && 0 < |r.body| <= maximum
    ensures f' != f ==> f'.Some? && f'.value <= r.body && |f'.value| <= maximum
  {
    if ok || f' != f {
      var k :| 0 <= k <= |r.body| && f' == Some([] + r.body[..k]) && 0 + k <= maximum && (0 + |r.body| <= maximum ==> k == |r.body|);
      assert [] + r.body[..k] == r.body[..k];
      assert k == |r.body| ==> r.body[..k] == r.body;
    }
  }

  /** With a declared size, success means the content itself, however the connection ends. */
  lemma DeclaredSizeProtects(content: seq<Byte>, f: File, maximum: int, r: Reply, f': File, ok: bool)
    requires AttemptedBounded(f, maximum, r, f', ok) && ok
    requires Honours(content, 0, r) && r.declared == Some(|content|)
    ensures f' == Some(content)
  {
    BoundedIsWhole(f, maximum, r, f', ok);
    assert r.body == content[..|r.body|];
    assert content[..|content|] == content;
  }
}

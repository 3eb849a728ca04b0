// The reader goroutine of a pseudo-terminal: it cuts the byte stream into
// chunks on rune boundaries, carrying an unfinished rune over to the next read.

module PtyReader {
  import opened Utf8
  import History

  const BUFFER_SIZE := 4100 // 4096 + utf8.UTFMax

  // What the kernel and the scheduler choose for one pass of the loop: how many
  // bytes it offers, whether Read reports an error with them, and whether the
  // select finds the process closed before a consumer takes the chunk.
  datatype Pass = Pass(offered: nat, failed: bool, closed: bool)

  // Blocked: the goroutine waits in its next Read. Finished: Read failed and
  // everything was handed over. Stopped: the process was closed first.
  datatype Outcome = Blocked | Finished | Stopped

  // How far one pass may emit: whole runes only, unless the stream has ended.
  function ScanEnd(s: seq<byte>, ended: bool): (end: nat)
    ensures end <= |s|
    ensures ended ==> end == |s|
    ensures !ended ==> |s| - end <= 3
    decreases |s|
  {
    if s == [] || !(ended || FullRune(s)) then 0
    else RuneSize(s) + ScanEnd(s[RuneSize(s)..], ended)
  }

  // The runes a consumer sees if it decodes chunk by chunk.
  function SegmentAll(chunks: seq<seq<byte>>): (runes: seq<seq<byte>>) {
    if chunks == [] then []
    else SegmentAll(chunks[..|chunks| - 1]) + Segment(chunks[|chunks| - 1])
  }

  lemma SegmentAllSnoc(chunks: seq<seq<byte>>, c: seq<byte>)
    ensures SegmentAll(chunks + [c]) == SegmentAll(chunks) + Segment(c)
  {
    assert (chunks + [c])[..|chunks|] == chunks;
  }

  function Min(a: nat, b: nat): nat {
    if a <= b then a else b
  }

  lemma {:induction false} ScanStopsAtPartialRune(s: seq<byte>)
    ensures !FullRune(s[ScanEnd(s, false)..])
    decreases |s|
  {
    if FullRune(s) {
      var k := RuneSize(s);
      ScanStopsAtPartialRune(s[k..]);
      assert s[ScanEnd(s, false)..] == s[k..][ScanEnd(s[k..], false)..];
    } else {
      assert s[0..] == s;
    }
  }

  lemma PeelRune(s: seq<byte>, ext: seq<byte>)
    requires FullRune(s)
    ensures var k := RuneSize(s); Segment(s + ext) == [s[..k]] + Segment(s[k..] + ext)
  {
    var k := RuneSize(s);
    RuneSizeStable(s, ext);
    assert (s + ext)[..k] == s[..k] && (s + ext)[k..] == s[k..] + ext;
  }

  lemma PeelRuneOfPrefix(s: seq<byte>, e: nat)
    requires s != [] && RuneSize(s) <= e <= |s|
    ensures var k := RuneSize(s); Segment(s[..e]) == [s[..k]] + Segment(s[k..][..e - k])
  {
    var k := RuneSize(s);
    RuneSizeOfPrefix(s, e);
    assert s[..e][..k] == s[..k] && s[..e][k..] == s[k..][..e - k];
  }

  // Whatever arrives later, the runes of the emitted part are final.
  lemma {:induction false} ScanIsFinal(s: seq<byte>, ext: seq<byte>)
    ensures var e := ScanEnd(s, false);
            Segment(s + ext) == Segment(s[..e]) + Segment(s[e..] + ext)
    decreases |s|
  {
    var e := ScanEnd(s, false);
    if FullRune(s) {
      var k := RuneSize(s);
      var t := s[k..];
      ScanIsFinal(t, ext);
      PeelRune(s, ext);
      PeelRuneOfPrefix(s, e);
      assert s[e..] == t[e - k..];
    } else {
      assert s[..e] == [] && s[e..] == s;
    }
  }

  lemma ConcatGrows(emitted: seq<seq<byte>>, chunk: seq<byte>, rest: seq<byte>)
    ensures Concat(emitted + [chunk]) + rest == Concat(emitted) + (chunk + rest)
  {
    ConcatSnoc(emitted, chunk);
  }

  // The invariant of the loop: nothing is lost, and decoding what was emitted
  // and then the rest is decoding the stream.
  ghost predicate Faithful(emitted: seq<seq<byte>>, rest: seq<byte>, read: seq<byte>) {
    && Concat(emitted) + rest == read
    && forall ext :: SameRunes(emitted, rest, read, ext)
  }

  ghost predicate SameRunes(emitted: seq<seq<byte>>, rest: seq<byte>, read: seq<byte>, ext: seq<byte>) {
    Segment(read + ext) == SegmentAll(emitted) + Segment(rest + ext)
  }

  lemma FaithfulAfterRead(emitted: seq<seq<byte>>, rest: seq<byte>, read: seq<byte>, data: seq<byte>)
    requires Faithful(emitted, rest, read)
    ensures Faithful(emitted, rest + data, read + data)
  {
    forall ext ensures SameRunes(emitted, rest + data, read + data, ext) {
      assert SameRunes(emitted, rest, read, data + ext);
      assert read + data + ext == read + (data + ext);
      assert rest + data + ext == rest + (data + ext);
    }
  }

  function Emit(emitted: seq<seq<byte>>, chunk: seq<byte>): (r: seq<seq<byte>>) {
    if chunk == [] then emitted else emitted + [chunk]
  }

  lemma FaithfulAfterEmit(emitted: seq<seq<byte>>, rest: seq<byte>, read: seq<byte>)
    requires Faithful(emitted, rest, read)
    ensures var e := ScanEnd(rest, false);
            Faithful(Emit(emitted, rest[..e]), rest[e..], read) && !FullRune(rest[e..])
  {
    hide FullRune, Concat, SegmentAll, Segment;
    var e := ScanEnd(rest, false);
    ScanStopsAtPartialRune(rest);
    if e == 0 {
      assert rest[0..] == rest;
    } else {
      var chunk, left := rest[..e], rest[e..];
      ConcatGrows(emitted, chunk, left);
      assert chunk + left == rest;
      SegmentAllSnoc(emitted, chunk);
      forall ext ensures SameRunes(emitted + [chunk], left, read, ext) {
        assert SameRunes(emitted, rest, read, ext);
        ScanIsFinal(rest, ext);
      }
    }
  }

  lemma FaithfulAtEnd(emitted: seq<seq<byte>>, rest: seq<byte>, read: seq<byte>)
    requires Faithful(emitted, rest, read)
    ensures Concat(Emit(emitted, rest)) + [] == read && SegmentAll(Emit(emitted, rest)) == Segment(read)
  {
    assert SameRunes(emitted, rest, read, []);
    assert read + [] == read && rest + [] == rest;
    ConcatSnoc(emitted, rest);
    SegmentAllSnoc(emitted, rest);
  }

  // One call of Read: the bytes land behind the carry-over.
  method Read(buffer: array<byte>, pending: nat, data: seq<byte>)
    requires pending + |data| <= buffer.Length
    modifies buffer
    ensures buffer[..pending + |data|] == old(buffer[..pending]) + data
  {
    forall j | 0 <= j < |data| {
      buffer[pending + j] := data[j];
    }
  }

  method ScanRunes(buffer: array<byte>, n: nat, ended: bool) returns (end: nat)
    requires n <= buffer.Length
    ensures end == ScanEnd(buffer[..n], ended)
  {
    end := 0;
    while end < n && (ended || FullRune(buffer[end..n]))
      invariant 0 <= end <= n
      invariant end + ScanEnd(buffer[end..n], ended) == ScanEnd(buffer[..n], ended)
    {
      var size := RuneSize(buffer[end..n]);
      assert buffer[end..n][size..] == buffer[end + size..n];
      end := end + size;
    }
  }

  // copy(buffer, buffer[end:n])
  method CarryOver(buffer: array<byte>, end: nat, n: nat) returns (pending: nat)
    requires end <= n <= buffer.Length
    modifies buffer
    ensures pending == n - end && buffer[..pending] == old(buffer[end..n])
  {
    pending := n - end;
    forall j | 0 <= j < pending {
      buffer[j] := buffer[end + j];
    }
  }

  datatype Reader = Reader(emitted: seq<seq<byte>>, rest: seq<byte>, used: nat, outcome: Outcome)

  // One pass of the loop, on values.
  function Advance(stream: seq<byte>, r: Reader, pass: Pass): (r': Reader)
    requires r.used <= |stream| && |r.rest| <= 3
    ensures r'.used <= |stream| && (r'.outcome.Blocked? ==> |r'.rest| <= 3)
  {
    var data := Offered(stream, r, pass);
    HandOver(r.emitted, r.rest + data, r.used + |data|, ScanEnd(r.rest + data, pass.failed), pass)
  }

  // The bytes one Read returns: as many as are offered and fit.
  function Offered(stream: seq<byte>, r: Reader, pass: Pass): (data: seq<byte>)
    requires r.used <= |stream| && |r.rest| <= 3
    ensures |data| <= BUFFER_SIZE - |r.rest| && r.used + |data| <= |stream|
    ensures data == stream[r.used..r.used + |data|]
  {
    stream[r.used..r.used + Min(pass.offered, Min(BUFFER_SIZE - |r.rest|, |stream| - r.used))]
  }

  // The end of a pass: hand over `got[..end]` and keep the rest.
  function HandOver(emitted: seq<seq<byte>>, got: seq<byte>, used: nat, end: nat, pass: Pass): (r: Reader)
    requires end <= |got|
    ensures r.used == used
    ensures r.outcome.Blocked? ==> !pass.failed && r.rest == got[end..]
  {
    if end > 0 && pass.closed then Reader(emitted, got, used, Stopped)
    else if pass.failed then Reader(Emit(emitted, got[..end]), [], used, Finished)
    else Reader(Emit(emitted, got[..end]), got[end..], used, Blocked)
  }

  function Run(stream: seq<byte>, passes: seq<Pass>): (r: Reader)
    ensures r.used <= |stream| && (r.outcome.Blocked? ==> |r.rest| <= 3)
  {
    if passes == [] then Reader([], [], 0, Blocked)
    else
      var r := Run(stream, passes[..|passes| - 1]);
      if r.outcome.Blocked? then Advance(stream, r, passes[|passes| - 1]) else r
  }

  lemma RunStep(stream: seq<byte>, passes: seq<Pass>, i: nat)
    requires i < |passes| && Run(stream, passes[..i]).outcome.Blocked?
    ensures Run(stream, passes[..i + 1]) == Advance(stream, Run(stream, passes[..i]), passes[i])
  {
    assert passes[..i + 1][..i] == passes[..i];
  }

  lemma {:induction false} RunStaysOver(stream: seq<byte>, passes: seq<Pass>, i: nat)
    requires i <= |passes| && !Run(stream, passes[..i]).outcome.Blocked?
    ensures Run(stream, passes) == Run(stream, passes[..i])
  {
    if i < |passes| {
      var init := passes[..|passes| - 1];
      assert init[..i] == passes[..i];
      RunStaysOver(stream, init, i);
    } else {
      assert passes[..i] == passes;
    }
  }

  ghost predicate ReaderInvariant(stream: seq<byte>, r: Reader) {
    && r.used <= |stream|
    && (forall c :: c in r.emitted ==> 0 < |c| <= BUFFER_SIZE)
    && Concat(r.emitted) + r.rest == stream[..r.used]
    && (r.outcome.Blocked? ==> |r.rest| <= 3 && !FullRune(r.rest))
    && (r.outcome.Finished? ==> r.rest == [] && SegmentAll(r.emitted) == Segment(stream[..r.used]))
    && (!r.outcome.Finished? ==> Faithful(r.emitted, r.rest, stream[..r.used]))
  }

  lemma AdvanceKeepsInvariant(stream: seq<byte>, r: Reader, pass: Pass)
    requires ReaderInvariant(stream, r) && r.outcome.Blocked?
    ensures ReaderInvariant(stream, Advance(stream, r, pass))
  {
    var data := Offered(stream, r, pass);
    var read := stream[..r.used + |data|];
    assert stream[..r.used] + data == read;
    FaithfulAfterRead(r.emitted, r.rest, stream[..r.used], data);
    PassKeepsInvariant(stream, r.emitted, r.rest + data, r.used + |data|, pass);
  }

  lemma PassKeepsInvariant(stream: seq<byte>, emitted: seq<seq<byte>>, got: seq<byte>, used: nat, pass: Pass)
    requires used <= |stream| && |got| <= BUFFER_SIZE
    requires Faithful(emitted, got, stream[..used])
    requires forall c :: c in emitted ==> 0 < |c| <= BUFFER_SIZE
    ensures ReaderInvariant(stream, HandOver(emitted, got, used, ScanEnd(got, pass.failed), pass))
  {
    var end := ScanEnd(got, pass.failed);
    if pass.failed {
      FaithfulAtEnd(emitted, got, stream[..used]);
      assert got[..end] == got;
    } else {
      FaithfulAfterEmit(emitted, got, stream[..used]);
    }
    HandOverKeepsInvariant(stream, emitted, got, used, end, pass);
  }

  lemma HandOverKeepsInvariant(stream: seq<byte>, emitted: seq<seq<byte>>, got: seq<byte>, used: nat, end: nat,
                               pass: Pass)
    requires used <= |stream| && end <= |got| <= BUFFER_SIZE
    requires Faithful(emitted, got, stream[..used])
    requires forall c :: c in emitted ==> 0 < |c| <= BUFFER_SIZE
    requires !pass.failed ==>
      |got| - end <= 3 && !FullRune(got[end..])
      && Faithful(Emit(emitted, got[..end]), got[end..], stream[..used])
    requires pass.failed ==>
      Concat(Emit(emitted, got[..end])) + [] == stream[..used]
      && SegmentAll(Emit(emitted, got[..end])) == Segment(stream[..used])
    ensures ReaderInvariant(stream, HandOver(emitted, got, used, end, pass))
  {
  }

  // For every byte stream and every way the reads split it: the chunks and the
  // carry-over are the bytes read, the carry-over is an unfinished rune of at
  // most 3 bytes, and the runes are those of the unsplit stream.
  lemma {:induction false} RunIsFaithful(stream: seq<byte>, passes: seq<Pass>)
    ensures ReaderInvariant(stream, Run(stream, passes))
  {
    if passes != [] {
      var init := passes[..|passes| - 1];
      RunIsFaithful(stream, init);
      if Run(stream, init).outcome.Blocked? {
        AdvanceKeepsInvariant(stream, Run(stream, init), passes[|passes| - 1]);
      }
    }
  }

  // The body of the loop, on the shared buffer.
  method OnePass(buffer: array<byte>, stream: seq<byte>, r: Reader, pass: Pass) returns (r': Reader)
    requires buffer.Length == BUFFER_SIZE
    requires r.used <= |stream| && |r.rest| <= 3 && buffer[..|r.rest|] == r.rest
    modifies buffer
    ensures r' == Advance(stream, r, pass)
    ensures r'.outcome.Blocked? ==> buffer[..|r'.rest|] == r'.rest
  {
    hide ScanEnd, FullRune, RuneSize;
    var pending := |r.rest|;
    assert BUFFER_SIZE - pending >= 4097; // every Read has room
    var n := Min(pass.offered, Min(BUFFER_SIZE - pending, |stream| - r.used));
    ghost var data := Offered(stream, r, pass);
    assert n == |data|;
    Read(buffer, pending, stream[r.used..r.used + n]);
    ghost var got := r.rest + data;
    n := n + pending;
    assert buffer[..n] == got;
    var used := r.used + n - pending;
    var end := ScanRunes(buffer, n, pass.failed);
    assert buffer[..end] == got[..end] && buffer[end..n] == got[end..];
    assert Advance(stream, r, pass) == HandOver(r.emitted, got, used, end, pass);
    hide Offered, Advance;
    var emitted := r.emitted;
    if end > 0 {
      if pass.closed {
        return Reader(emitted, buffer[..n], used, Stopped);
      }
      emitted := emitted + [buffer[..end]];
    }
    if pass.failed {
      return Reader(emitted, [], used, Finished);
    }
    assert emitted == Emit(r.emitted, got[..end]);
    pending := CarryOver(buffer, end, n);
    assert buffer[..pending] == got[end..];
    r' := Reader(emitted, buffer[..pending], used, Blocked);
  }

  method ReadLoop(stream: seq<byte>, passes: seq<Pass>) returns (r: Reader)
    ensures r == Run(stream, passes)
  {
    var buffer := new byte[BUFFER_SIZE](_ => 0);
    r := Reader([], [], 0, Blocked);
    for i := 0 to |passes|
      invariant r == Run(stream, passes[..i])
      invariant r.outcome.Blocked? && buffer[..|r.rest|] == r.rest
    {
      RunStep(stream, passes, i);
      r := OnePass(buffer, stream, r, passes[i]);
      if !r.outcome.Blocked? {
        RunStaysOver(stream, passes, i + 1);
        return;
      }
    }
    assert passes[..|passes|] == passes;
  }

  // ------------------------------------------------- what a consumer can rely on

  lemma {:induction false} ValidChunks(emitted: seq<seq<byte>>)
    requires AllChars(SegmentAll(emitted))
    ensures forall c :: c in emitted ==> Valid(c)
  {
    if emitted != [] {
      var init, last := emitted[..|emitted| - 1], emitted[|emitted| - 1];
      assert forall r :: r in SegmentAll(init) || r in Segment(last) ==> r in SegmentAll(emitted);
      ValidChunks(init);
      ValidBySegments(last);
      assert emitted == init + [last];
    }
  }

  // If the bytes read so far can still be completed to valid UTF-8, every chunk
  // already emitted is valid UTF-8 by itself.
  lemma EmittedChunksAreValid(emitted: seq<seq<byte>>, rest: seq<byte>, read: seq<byte>, ext: seq<byte>)
    requires Faithful(emitted, rest, read)
    requires Valid(read + ext)
    ensures forall c :: c in emitted ==> Valid(c)
    ensures Valid(rest + ext)
  {
    ValidBySegments(read + ext);
    assert SameRunes(emitted, rest, read, ext);
    assert forall r :: r in SegmentAll(emitted) || r in Segment(rest + ext) ==> r in Segment(read + ext);
    ValidChunks(emitted);
    ValidBySegments(rest + ext);
  }

  lemma FinishedChunksAreValid(emitted: seq<seq<byte>>, read: seq<byte>)
    requires SegmentAll(emitted) == Segment(read) && Valid(read)
    ensures forall c :: c in emitted ==> Valid(c)
  {
    ValidBySegments(read);
    ValidChunks(emitted);
  }

  // ------------------------------------------------------- the loop as a whole

  // Valid input gives only valid chunks, except that the end of the input may
  // come inside a character: then, and only then, the last chunk is not valid.
  lemma RunChunksAreValid(stream: seq<byte>, passes: seq<Pass>)
    requires Valid(stream)
    ensures var r := Run(stream, passes);
      (forall c :: c in r.emitted ==> Valid(c)) <==> (r.outcome.Finished? ==> Valid(stream[..r.used]))
  {
    hide Run, Valid, Segment, SegmentAll, Concat, FullRune;
    var r := Run(stream, passes);
    var read, ext := stream[..r.used], stream[r.used..];
    RunIsFaithful(stream, passes);
    assert read + ext == stream;
    if !r.outcome.Finished? {
      EmittedChunksAreValid(r.emitted, r.rest, read, ext);
    } else {
      if Valid(read) {
        FinishedChunksAreValid(r.emitted, read);
      }
      if forall c :: c in r.emitted ==> Valid(c) {
        ValidConcatAll(r.emitted);
        assert Concat(r.emitted) + [] == Concat(r.emitted);
      }
    }
  }

  // So it is at the real end of the input.
  lemma WholeRunIsValid(stream: seq<byte>, passes: seq<Pass>)
    requires Valid(stream) && Run(stream, passes).used == |stream|
    ensures forall c :: c in Run(stream, passes).emitted ==> Valid(c)
  {
    assert stream[..|stream|] == stream;
    RunChunksAreValid(stream, passes);
  }

  // Reader and replay buffer together, in every run: with a limit of at least
  // one reader buffer, a late viewer is shown the end of the byte stream, and
  // valid text if the stream is.
  lemma ReplayIsEndOfRun(stream: seq<byte>, passes: seq<Pass>, max: nat)
    requires max >= BUFFER_SIZE
    ensures var r := Run(stream, passes);
      && History.IsSuffix(Concat(History.Replay(r.emitted, max)) + r.rest, stream[..r.used])
      && (Valid(stream) && (r.outcome.Finished? ==> Valid(stream[..r.used])) ==>
            Valid(Concat(History.Replay(r.emitted, max))))
  {
    hide Run, Valid, Segment, SegmentAll, Concat, FullRune, History.Replay;
    var r := Run(stream, passes);
    RunIsFaithful(stream, passes);
    ReplayWithRest(r.emitted, r.rest, stream[..r.used], max);
    if Valid(stream) && (r.outcome.Finished? ==> Valid(stream[..r.used])) {
      RunChunksAreValid(stream, passes);
      History.DumpIsValidText(r.emitted, max);
    }
  }

  lemma ReplayWithRest(emitted: seq<seq<byte>>, rest: seq<byte>, read: seq<byte>, max: nat)
    requires Concat(emitted) + rest == read
    requires max >= BUFFER_SIZE && forall c :: c in emitted ==> |c| <= BUFFER_SIZE
    ensures History.IsSuffix(Concat(History.Replay(emitted, max)) + rest, read)
  {
    History.DumpIsSuffixOfOutput(emitted, max);
    var dump, all := Concat(History.Replay(emitted, max)), Concat(emitted);
    assert all == all[..|all| - |dump|] + dump;
    assert read == all[..|all| - |dump|] + (dump + rest);
  }

  // How a pass ends: the receiver being gone stops the loop when there is
  // something to hand over; else a failed read finishes it with everything
  // handed over, and otherwise the next read has room and takes what it gets.
  lemma PassEnds(stream: seq<byte>, r: Reader, pass: Pass)
    requires ReaderInvariant(stream, r) && r.outcome.Blocked?
    ensures var r' := Advance(stream, r, pass);
      && r'.used == r.used + Min(pass.offered, Min(BUFFER_SIZE - |r.rest|, |stream| - r.used))
      && BUFFER_SIZE - |r.rest| >= 4097
      && (r'.outcome.Stopped? ==> pass.closed && r'.emitted == r.emitted)
      && (!pass.closed && pass.failed ==>
            r'.outcome.Finished? && Concat(r'.emitted) == stream[..r'.used])
      && (!pass.closed && !pass.failed ==> r'.outcome.Blocked? && !FullRune(r'.rest))
  {
    hide Segment, SegmentAll, Concat, FullRune, Faithful;
    AdvanceKeepsInvariant(stream, r, pass);
    var r' := Advance(stream, r, pass);
    assert Concat(r'.emitted) + [] == Concat(r'.emitted);
  }
}

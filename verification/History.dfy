// The bounded replay buffer of a session: whole output chunks, oldest dropped
// first, and an oversize chunk clipped to its tail on a rune boundary.

module History {
  import opened Utf8

  ghost predicate IsSuffix(s: seq<byte>, t: seq<byte>) {
    |s| <= |t| && s == t[|t| - |s|..]
  }

  // -------------------------------------------------- what one Append keeps

  function Total(chunks: seq<seq<byte>>): (n: nat) {
    if chunks == [] then 0 else |chunks[0]| + Total(chunks[1..])
  }

  // Drops leading continuation bytes.
  function SkipTails(c: seq<byte>): (r: seq<byte>)
    ensures |r| <= |c|
  {
    if c == [] || RuneStart(c[0]) then c else SkipTails(c[1..])
  }

  function Clip(chunk: seq<byte>, max: nat): (r: seq<byte>)
    ensures |r| <= max && |r| <= |chunk|
  {
    if |chunk| <= max then chunk else SkipTails(chunk[|chunk| - max..])
  }

  lemma {:induction false} SkipTailsIsSuffix(c: seq<byte>)
    ensures IsSuffix(SkipTails(c), c)
    ensures SkipTails(c) != [] ==> RuneStart(SkipTails(c)[0])
  {
    if c != [] && !RuneStart(c[0]) {
      SkipTailsIsSuffix(c[1..]);
    }
  }

  lemma ClipIsSuffix(chunk: seq<byte>, max: nat)
    ensures IsSuffix(Clip(chunk, max), chunk)
    ensures |chunk| > max && Clip(chunk, max) != [] ==> RuneStart(Clip(chunk, max)[0])
  {
    if |chunk| > max {
      SkipTailsIsSuffix(chunk[|chunk| - max..]);
    }
  }

  // An oversize chunk keeps the longest of its ends that fits and starts a rune.
  lemma ClipIsLongest(chunk: seq<byte>, max: nat, n: nat)
    requires |Clip(chunk, max)| < n <= max && n <= |chunk|
    ensures !RuneStart(chunk[|chunk| - n])
  {
    if |chunk| > max {
      SkipTailsIsLongest(chunk[|chunk| - max..], max - n);
    }
  }

  lemma {:induction false} SkipTailsIsLongest(c: seq<byte>, i: nat)
    requires i < |c| - |SkipTails(c)|
    ensures !RuneStart(c[i])
  {
    if i > 0 {
      SkipTailsIsLongest(c[1..], i - 1);
    }
  }

  function TrimFront(chunks: seq<seq<byte>>, max: nat): (r: seq<seq<byte>>)
    ensures Total(r) <= max
  {
    if Total(chunks) <= max then chunks else TrimFront(chunks[1..], max)
  }

  function Appended(chunks: seq<seq<byte>>, chunk: seq<byte>, max: nat): (r: seq<seq<byte>>) {
    if chunk == [] then chunks else TrimFront(chunks + [Clip(chunk, max)], max)
  }

  // The buffer after a whole sequence of appends to an empty one.
  function Replay(output: seq<seq<byte>>, max: nat): (r: seq<seq<byte>>) {
    if output == [] then []
    else Appended(Replay(output[..|output| - 1], max), output[|output| - 1], max)
  }

  // What the constructor makes of any setting.
  type Limit = n: nat | 1 <= n witness 1

  class HistoryBuffer {
    const maxBytes: nat
    var chunks: seq<seq<byte>>
    var bytes: int

    ghost predicate Valid()
      reads this
    {
      maxBytes >= 1 && bytes == Total(chunks) <= maxBytes
    }

    constructor (limit: int)
      ensures Valid() && chunks == []
      ensures maxBytes == if limit <= 0 then 1 else limit
    {
      maxBytes := if limit <= 0 then 1 else limit;
      chunks := [];
      bytes := 0;
    }

    method Append(data: seq<byte>)
      requires Valid()
      modifies this
      ensures Valid()
      ensures chunks == Appended(old(chunks), data, maxBytes)
    {
      if data == [] {
        return;
      }
      ghost var before := chunks;
      var chunk := data;
      if |chunk| > maxBytes {
        chunk := chunk[|chunk| - maxBytes..];
        while |chunk| > 0 && !RuneStart(chunk[0])
          invariant |chunk| <= maxBytes
          invariant SkipTails(chunk) == SkipTails(data[|data| - maxBytes..])
        {
          chunk := chunk[1..];
        }
      }
      assert chunk == Clip(data, maxBytes);
      TotalSnoc(chunks, chunk);
      chunks := chunks + [chunk];
      bytes := bytes + |chunk|;
      ghost var goal := TrimFront(chunks, maxBytes);
      assert goal == Appended(before, data, maxBytes);
      while bytes > maxBytes && |chunks| > 0
        invariant bytes == Total(chunks)
        invariant TrimFront(chunks, maxBytes) == goal
        decreases |chunks|
      {
        var removed := chunks[0];
        chunks := chunks[1..];
        bytes := bytes - |removed|;
      }
    }

    function Dump(): (text: seq<byte>)
      reads this
    {
      Concat(chunks)
    }
  }

  // ------------------------------------------------------------- arithmetic

  lemma {:induction false} TotalAppend(a: seq<seq<byte>>, b: seq<seq<byte>>)
    ensures Total(a + b) == Total(a) + Total(b)
  {
    if a == [] {
      assert a + b == b;
    } else {
      TotalAppend(a[1..], b);
      assert (a + b)[1..] == a[1..] + b;
    }
  }

  lemma TotalSnoc(a: seq<seq<byte>>, c: seq<byte>)
    ensures Total(a + [c]) == Total(a) + |c|
  {
    TotalAppend(a, [c]);
    assert Total([c]) == |c| + Total([c][1..]);
  }

  lemma {:induction false} TotalIsLength(chunks: seq<seq<byte>>)
    ensures Total(chunks) == |Concat(chunks)|
  {
    if chunks != [] {
      TotalIsLength(chunks[1..]);
    }
  }

  // ------------------------------ online trimming is the offline best suffix

  function NonEmpty(output: seq<seq<byte>>): (r: seq<seq<byte>>) {
    if output == [] then []
    else NonEmpty(output[..|output| - 1])
         + (if output[|output| - 1] == [] then [] else [output[|output| - 1]])
  }

  // `kept` is the longest suffix of whole chunks of `all` within `max` bytes,
  // and it starts at chunk number `from`.
  ghost predicate LongestFit(kept: seq<seq<byte>>, all: seq<seq<byte>>, max: nat, from: nat) {
    && from <= |all|
    && kept == all[from..]
    && Total(kept) <= max
    && forall i :: 0 <= i < from ==> Total(all[i..]) > max
  }

  // TrimFront drops the fewest leading chunks; they are `chunks[..n]`.
  lemma {:induction false} TrimFrontDropsFewest(chunks: seq<seq<byte>>, max: nat) returns (n: nat)
    ensures LongestFit(TrimFront(chunks, max), chunks, max, n)
  {
    n := 0;
    if Total(chunks) > max {
      var rest := TrimFrontDropsFewest(chunks[1..], max);
      n := rest + 1;
      assert chunks[1..][rest..] == chunks[n..];
      forall i | 0 <= i < n ensures Total(chunks[i..]) > max {
        if i == 0 {
          assert chunks[0..] == chunks;
        } else {
          assert chunks[1..][i - 1..] == chunks[i..];
        }
      }
    } else {
      assert chunks[0..] == chunks;
    }
  }

  // One more chunk: trimming what was kept is trimming everything.
  lemma LongestFitStep(kept: seq<seq<byte>>, all: seq<seq<byte>>, last: seq<byte>, max: nat, before: nat)
    returns (from: nat)
    requires LongestFit(kept, all, max, before)
    ensures LongestFit(TrimFront(kept + [last], max), all + [last], max, from)
  {
    var n := TrimFrontDropsFewest(kept + [last], max);
    from := before + n;
    var all' := all + [last];
    assert kept + [last] == all'[before..];
    assert all'[before..][n..] == all'[from..];
    forall i | 0 <= i < from ensures Total(all'[i..]) > max {
      if i < before {
        assert all'[i..] == all[i..] + [last];
        TotalSnoc(all[i..], last);
      } else {
        assert all'[i..] == (kept + [last])[i - before..];
      }
    }
  }

  // For chunks within the limit, the online buffer is the offline answer over
  // everything ever appended (empty chunks are ignored).
  lemma {:induction false} OnlineIsOffline(output: seq<seq<byte>>, max: nat) returns (from: nat)
    requires forall c :: c in output ==> |c| <= max
    ensures LongestFit(Replay(output, max), NonEmpty(output), max, from)
  {
    if output == [] {
      from := 0;
    } else {
      var init, last := output[..|output| - 1], output[|output| - 1];
      assert last in output && forall c :: c in init ==> c in output;
      from := OnlineIsOffline(init, max);
      if last == [] {
        assert NonEmpty(output) == NonEmpty(init);
      } else {
        from := LongestFitStep(Replay(init, max), NonEmpty(init), last, max, from);
      }
    }
  }

  lemma {:induction false} NonEmptyKeepsText(output: seq<seq<byte>>)
    ensures Concat(NonEmpty(output)) == Concat(output)
  {
    if output != [] {
      var init, last := output[..|output| - 1], output[|output| - 1];
      NonEmptyKeepsText(init);
      ConcatSnoc(init, last);
      assert output == init + [last];
      ConcatSnoc(NonEmpty(init), last);
      assert last == [] ==> NonEmpty(init) + [] == NonEmpty(init);
    }
  }

  // ------------------------------ oversize chunks: exactly when it goes wrong

  // What a caller can check before appending: the chunk fits, or the byte at
  // which it has to be clipped starts a rune.
  predicate ClipsCleanly(chunk: seq<byte>, max: Limit) {
    |chunk| <= max || RuneStart(chunk[|chunk| - max])
  }

  ghost predicate AppendKeepsSuffix(chunk: seq<byte>, max: nat, chunks: seq<seq<byte>>, output: seq<byte>) {
    (IsSuffix(Concat(chunks), output) && Total(chunks) <= max) ==>
      IsSuffix(Concat(Appended(chunks, chunk, max)), output + chunk)
  }

  lemma CleanAppendKeepsSuffix(chunk: seq<byte>, max: Limit, chunks: seq<seq<byte>>, output: seq<byte>)
    requires ClipsCleanly(chunk, max)
    ensures AppendKeepsSuffix(chunk, max, chunks, output)
  {
    if chunk == [] {
      assert output + chunk == output;
    } else if IsSuffix(Concat(chunks), output) && Total(chunks) <= max {
      var cut := Clip(chunk, max);
      var n := TrimFrontDropsFewest(chunks + [cut], max);
      if |chunk| > max {
        ClipIsSuffix(chunk, max);
        OnlyFullChunkSurvives(chunks, cut, max, n);
      } else {
        var whole := chunks + [chunk];
        FittingChunkKeepsSuffix(chunks, chunk, output, whole[..n], whole[n..]);
      }
    }
  }

  lemma FittingChunkKeepsSuffix(chunks: seq<seq<byte>>, chunk: seq<byte>, output: seq<byte>,
                                lost: seq<seq<byte>>, left: seq<seq<byte>>)
    requires IsSuffix(Concat(chunks), output) && chunks + [chunk] == lost + left
    ensures IsSuffix(Concat(left), output + chunk)
  {
    ConcatAppend(lost, left);
    ConcatSnoc(chunks, chunk);
    var text := Concat(chunks);
    var pre := output[..|output| - |text|];
    assert output == pre + text;
    Reassociate(pre, text, chunk, Concat(lost), Concat(left));
    SuffixOf(pre + Concat(lost), Concat(left));
  }

  lemma Reassociate(pre: seq<byte>, text: seq<byte>, chunk: seq<byte>, lost: seq<byte>, left: seq<byte>)
    requires text + chunk == lost + left
    ensures (pre + text) + chunk == (pre + lost) + left
  {
    assert (pre + text) + chunk == pre + (text + chunk);
    assert (pre + lost) + left == pre + (lost + left);
  }

  lemma SuffixOf(pre: seq<byte>, s: seq<byte>)
    ensures IsSuffix(s, pre + s)
  {
  }

  // A clipped chunk of exactly `max` bytes leaves no room for older text.
  lemma OnlyFullChunkSurvives(chunks: seq<seq<byte>>, cut: seq<byte>, max: nat, n: nat)
    requires |cut| == max && n <= |chunks + [cut]|
    requires max >= 1 && Total((chunks + [cut])[n..]) <= max
    requires forall i :: 0 <= i < n ==> Total((chunks + [cut])[i..]) > max
    ensures Concat((chunks + [cut])[n..]) == cut
  {
    var whole := chunks + [cut];
    assert whole[|chunks|..] == [cut];
    TotalSnoc([], cut);
    assert [] + [cut] == [cut];
    ConcatSnoc([], cut);
    assert n <= |chunks|;
    assert whole[n..] == chunks[n..] + [cut];
    TotalSnoc(chunks[n..], cut);
    TotalIsLength(chunks[n..]);
    ConcatSnoc(chunks[n..], cut);
  }

  predicate AllClipCleanly(output: seq<seq<byte>>, max: Limit) {
    forall c :: c in output ==> ClipsCleanly(c, max)
  }

  ghost predicate DumpIsSuffix(output: seq<seq<byte>>, max: nat) {
    IsSuffix(Concat(Replay(output, max)), Concat(output))
  }

  lemma {:induction false} ReplayFits(output: seq<seq<byte>>, max: nat)
    ensures Total(Replay(output, max)) <= max
  {
    if output != [] {
      ReplayFits(output[..|output| - 1], max);
    }
  }

  // Hence what is replayed on attach is the end of everything the process
  // wrote, byte for byte, never more than the limit.
  lemma {:induction false} DumpIsSuffixOfOutput(output: seq<seq<byte>>, max: Limit)
    requires AllClipCleanly(output, max)
    ensures IsSuffix(Concat(Replay(output, max)), Concat(output))
    ensures |Concat(Replay(output, max))| <= max
    decreases |output|
  {
    ReplayFits(output, max);
    TotalIsLength(Replay(output, max));
    if output != [] {
      var init, last := output[..|output| - 1], output[|output| - 1];
      DumpIsSuffixOfOutput(init, max);
      ReplayFits(init, max);
      CleanAppendKeepsSuffix(last, max, Replay(init, max), Concat(init));
      assert AppendKeepsSuffix(last, max, Replay(init, max), Concat(init));
      assert output == init + [last];
      ConcatSnoc(init, last);
    }
  }

  // The failing family: a chunk clipped inside a rune leaves slack, a single
  // older byte survives in it, and the dump has a hole. Two appends to a new
  // buffer get there.
  lemma DirtyClipBreaksSuffix(chunk: seq<byte>, max: Limit) returns (survivor: byte)
    requires !ClipsCleanly(chunk, max)
    ensures !AppendKeepsSuffix(chunk, max, [[survivor]], [survivor])
    ensures Replay([[survivor]], max) == [[survivor]] && !DumpIsSuffix([[survivor], chunk], max)
  {
    ClipIsSuffix(chunk, max);
    var cut := Clip(chunk, max);
    assert |cut| < max;
    hide Clip, ClipsCleanly, Concat, Total, TrimFront, Appended, Replay;
    survivor := if chunk[|chunk| - |cut| - 1] == 0 then 1 else 0;
    BothStay(survivor, chunk, max);
    HoleShows(survivor, cut, chunk);
    ReplayOfTwo([survivor], chunk, max);
  }

  lemma BothStay(survivor: byte, chunk: seq<byte>, max: nat)
    requires |chunk| > max > |Clip(chunk, max)|
    ensures Appended([[survivor]], chunk, max) == [[survivor]] + [Clip(chunk, max)]
    ensures Concat([[survivor]]) == [survivor] && Total([[survivor]]) <= max
    ensures Concat(Appended([[survivor]], chunk, max)) == [survivor] + Clip(chunk, max)
  {
    hide Concat;
    var cut := Clip(chunk, max);
    TotalSnoc([[survivor]], cut);
    TotalSnoc([], [survivor]);
    assert [] + [[survivor]] == [[survivor]];
    ConcatSnoc([[survivor]], cut);
    ConcatSnoc([], [survivor]);
    ConcatOfNone();
  }

  lemma HoleShows(survivor: byte, cut: seq<byte>, chunk: seq<byte>)
    requires IsSuffix(cut, chunk) && |cut| < |chunk| && survivor != chunk[|chunk| - |cut| - 1]
    ensures !IsSuffix([survivor] + cut, [survivor] + chunk)
  {
    var dump, output := [survivor] + cut, [survivor] + chunk;
    assert output[|output| - |dump|] == chunk[|chunk| - |cut| - 1];
    assert dump[0] == survivor && output[|output| - |dump|..][0] == output[|output| - |dump|];
  }

  lemma ReplayOfTwo(a: seq<byte>, b: seq<byte>, max: nat)
    requires a != [] && |a| <= max
    ensures Replay([a], max) == [a] && Replay([a, b], max) == Appended([a], b, max) && Concat([a, b]) == a + b
  {
    assert [a][..0] == [] && [a, b][..1] == [a] && [] + [a] == [a];
    assert Total([a]) == |a| + Total([]) by { assert [a][1..] == []; }
    assert [a] + [b] == [a, b];
    ConcatSnoc([a], b);
    ConcatSnoc([], a);
  }

  // "The dump is a suffix of the output" survives appending a chunk, whatever
  // the buffer holds, if and only if the chunk clips cleanly.
  lemma AppendKeepsSuffixExactlyWhenClean(chunk: seq<byte>, max: Limit)
    ensures ClipsCleanly(chunk, max)
            <==> forall chunks, output :: AppendKeepsSuffix(chunk, max, chunks, output)
  {
    if ClipsCleanly(chunk, max) {
      forall chunks, output ensures AppendKeepsSuffix(chunk, max, chunks, output) {
        CleanAppendKeepsSuffix(chunk, max, chunks, output);
      }
    } else {
      var survivor := DirtyClipBreaksSuffix(chunk, max);
      assert !AppendKeepsSuffix(chunk, max, [[survivor]], [survivor]);
    }
  }

  // The same of buffers that appends lead to: the chunk may follow every clean
  // output if and only if it clips cleanly.
  lemma DumpIsSuffixExactlyWhenClean(chunk: seq<byte>, max: Limit)
    ensures ClipsCleanly(chunk, max)
            <==> forall before :: AllClipCleanly(before, max) ==> DumpIsSuffix(before + [chunk], max)
  {
    if ClipsCleanly(chunk, max) {
      forall before | AllClipCleanly(before, max) ensures DumpIsSuffix(before + [chunk], max) {
        DumpIsSuffixOfOutput(before + [chunk], max);
      }
    } else {
      var survivor := DirtyClipBreaksSuffix(chunk, max);
      assert AllClipCleanly([[survivor]], max);
      assert [[survivor]] + [chunk] == [[survivor], chunk];
      assert !DumpIsSuffix([[survivor]] + [chunk], max);
    }
  }

  // ------------------------------------------------- text stays valid UTF-8

  lemma ClipIsValid(chunk: seq<byte>, max: nat)
    requires Valid(chunk)
    ensures Valid(Clip(chunk, max))
  {
    ClipIsSuffix(chunk, max);
    var r := Clip(chunk, max);
    if |chunk| > max && r != [] {
      assert r[0] == chunk[|chunk| - |r|];
    }
    if |r| != |chunk| {
      ValidSuffix(chunk, |chunk| - |r|);
    } else {
      assert r == chunk;
    }
  }

  lemma {:induction false} ReplayChunksValid(output: seq<seq<byte>>, max: nat)
    requires forall c :: c in output ==> Valid(c)
    ensures forall c :: c in Replay(output, max) ==> Valid(c)
  {
    if output != [] {
      var init, last := output[..|output| - 1], output[|output| - 1];
      forall c | c in init ensures Valid(c) {
        assert c in output;
      }
      ReplayChunksValid(init, max);
      if last != [] {
        assert last in output;
        ClipIsValid(last, max);
        var whole := Replay(init, max) + [Clip(last, max)];
        var n := TrimFrontDropsFewest(whole, max);
      }
    }
  }

  // Oversize chunks included.
  lemma DumpIsValidText(output: seq<seq<byte>>, max: nat)
    requires forall c :: c in output ==> Valid(c)
    ensures Valid(Concat(Replay(output, max)))
  {
    ReplayChunksValid(output, max);
    ValidConcatAll(Replay(output, max));
  }
}

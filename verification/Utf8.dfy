// Rune boundaries of a byte string, as Go's unicode/utf8 finds them, and the
// byte grammar of section 4 of RFC 3629 they are measured against.

module Utf8 {

  type byte = b: int | 0 <= b < 256

  // The continuation bytes (UTF8-tail in the grammar).
  predicate IsTail(b: byte) {
    0x80 <= b <= 0xBF
  }

  // utf8.RuneStart: any byte that is not a continuation byte.
  predicate RuneStart(b: byte) {
    !IsTail(b)
  }

  // ---------------------------------------------------------------- grammar

  predicate Utf8One(s: seq<byte>) {
    |s| == 1 && s[0] <= 0x7F
  }

  predicate Utf8Two(s: seq<byte>) {
    |s| == 2 && 0xC2 <= s[0] <= 0xDF && IsTail(s[1])
  }

  predicate Utf8Three(s: seq<byte>) {
    && |s| == 3
    && (|| (s[0] == 0xE0 && 0xA0 <= s[1] <= 0xBF)
        || (0xE1 <= s[0] <= 0xEC && IsTail(s[1]))
        || (s[0] == 0xED && 0x80 <= s[1] <= 0x9F)
        || (0xEE <= s[0] <= 0xEF && IsTail(s[1])))
    && IsTail(s[2])
  }

  predicate Utf8Four(s: seq<byte>) {
    && |s| == 4
    && (|| (s[0] == 0xF0 && 0x90 <= s[1] <= 0xBF)
        || (0xF1 <= s[0] <= 0xF3 && IsTail(s[1]))
        || (s[0] == 0xF4 && 0x80 <= s[1] <= 0x8F))
    && IsTail(s[2]) && IsTail(s[3])
  }

  // One encoded character.
  predicate IsChar(s: seq<byte>) {
    Utf8One(s) || Utf8Two(s) || Utf8Three(s) || Utf8Four(s)
  }

  // UTF8-octets: any number of encoded characters, one after the other.
  ghost predicate Valid(s: seq<byte>)
    decreases |s|, 1
  {
    s == [] || exists k :: 1 <= k <= |s| && ValidAfter(s, k)
  }

  ghost predicate ValidAfter(s: seq<byte>, k: nat)
    requires 1 <= k <= |s|
    decreases |s|, 0
  {
    IsChar(s[..k]) && Valid(s[k..])
  }

  // ------------------------------------------------------- Go's rune decoder

  // The size announced by a first byte; 1 for ASCII and for a byte that can
  // start nothing.
  function LeadSize(b: byte): (n: nat)
    ensures 1 <= n <= 4
  {
    if 0xC2 <= b <= 0xDF then 2
    else if 0xE0 <= b <= 0xEF then 3
    else if 0xF0 <= b <= 0xF4 then 4
    else 1
  }

  // The range of second bytes that a first byte accepts.
  predicate AcceptsSecond(lead: byte, b: byte) {
    if lead == 0xE0 then 0xA0 <= b <= 0xBF
    else if lead == 0xED then 0x80 <= b <= 0x9F
    else if lead == 0xF0 then 0x90 <= b <= 0xBF
    else if lead == 0xF4 then 0x80 <= b <= 0x8F
    else IsTail(b)
  }

  // utf8.FullRune
  predicate FullRune(p: seq<byte>) {
    if p == [] then false
    else if |p| >= LeadSize(p[0]) then true
    else if |p| > 1 && !AcceptsSecond(p[0], p[1]) then true
    else |p| > 2 && !IsTail(p[2])
  }

  // The size that utf8.DecodeRune reports: an invalid encoding is one byte wide.
  function RuneSize(p: seq<byte>): (n: nat)
    requires p != []
    ensures 1 <= n <= |p| && n <= 4
  {
    var size := LeadSize(p[0]);
    if size == 1 || |p| < size || !AcceptsSecond(p[0], p[1]) then 1
    else if size == 2 then 2
    else if !IsTail(p[2]) then 1
    else if size == 3 then 3
    else if !IsTail(p[3]) then 1
    else 4
  }

  // The decoder against the grammar: it takes the encoded character that the
  // bytes start with, and one byte exactly when they start with none.
  lemma RuneSizeMatchesGrammar(p: seq<byte>)
    requires p != []
    ensures IsChar(p[..RuneSize(p)]) <==> exists k :: 0 <= k <= |p| && IsChar(p[..k])
    ensures forall k :: 0 <= k <= |p| && IsChar(p[..k]) ==> k == RuneSize(p)
    ensures !IsChar(p[..RuneSize(p)]) ==> RuneSize(p) == 1
  {
    forall k | 0 <= k <= |p| && IsChar(p[..k])
      ensures k == RuneSize(p)
    {
      assert p[..k][0] == p[0];
    }
  }

  // A completion of a rune that is not full yet.
  function Completion(p: seq<byte>): (ext: seq<byte>)
    requires p != [] && !FullRune(p)
    ensures IsChar(p + ext) && ext != []
  {
    var second: byte := if p[0] == 0xE0 then 0xA0 else if p[0] == 0xF0 then 0x90 else 0x80;
    var full := if |p| == 1 then p + [second] else p;
    if LeadSize(p[0]) == 2 then
      assert p + [second] == full;
      [second]
    else
      var tail: byte := 0x80;
      var ext := (full + [tail, tail])[|p|..LeadSize(p[0])];
      assert p + ext == (full + [tail, tail])[..LeadSize(p[0])];
      ext
  }

  // FullRune is exactly stability: no bytes that may still arrive can change
  // what the decoder takes.
  lemma FullRuneIsStability(p: seq<byte>)
    ensures FullRune(p) <==> p != [] && forall ext :: RuneSize(p + ext) == RuneSize(p)
  {
    if p != [] {
      if FullRune(p) {
        forall ext ensures RuneSize(p + ext) == RuneSize(p) {
          RuneSizeStable(p, ext);
        }
      } else {
        var ext := Completion(p);
        RuneSizeMatchesGrammar(p + ext);
        assert (p + ext)[..|p + ext|] == p + ext;
        assert RuneSize(p + ext) != RuneSize(p);
      }
    }
  }

  lemma RuneSizeStable(p: seq<byte>, ext: seq<byte>)
    requires FullRune(p)
    ensures RuneSize(p + ext) == RuneSize(p)
    ensures FullRune(p + ext)
  {
    assert (p + ext)[..|p|] == p;
  }

  // Cutting behind a decoded rune does not change it.
  lemma RuneSizeOfPrefix(p: seq<byte>, k: nat)
    requires p != [] && RuneSize(p) <= k <= |p|
    ensures RuneSize(p[..k]) == RuneSize(p)
  {
  }

  // ------------------------------------------------------------ segmentation

  // The runes of a complete byte string, one byte string each.
  function Segment(s: seq<byte>): (runes: seq<seq<byte>>)
    decreases |s|
  {
    if s == [] then []
    else [s[..RuneSize(s)]] + Segment(s[RuneSize(s)..])
  }

  function Concat(parts: seq<seq<byte>>): (s: seq<byte>) {
    if parts == [] then [] else parts[0] + Concat(parts[1..])
  }

  lemma {:induction false} ConcatAppend(a: seq<seq<byte>>, b: seq<seq<byte>>)
    ensures Concat(a + b) == Concat(a) + Concat(b)
  {
    if a == [] {
      assert a + b == b;
    } else {
      ConcatAppend(a[1..], b);
      assert (a + b)[1..] == a[1..] + b;
    }
  }

  lemma ConcatOfNone()
    ensures Concat([]) == []
  {
  }

  lemma ConcatCons(x: seq<byte>, parts: seq<seq<byte>>)
    ensures Concat([x] + parts) == x + Concat(parts)
  {
    assert ([x] + parts)[1..] == parts;
  }

  lemma ConcatSnoc(a: seq<seq<byte>>, x: seq<byte>)
    ensures Concat(a + [x]) == Concat(a) + x
  {
    ConcatAppend(a, [x]);
    assert [x][1..] == [];
    assert Concat([x]) == x;
  }

  // Segmenting loses and reorders nothing.
  lemma {:induction false} SegmentConcat(s: seq<byte>)
    ensures Concat(Segment(s)) == s
    decreases |s|
  {
    if s != [] {
      hide Concat, RuneSize;
      var n := RuneSize(s);
      SegmentConcat(s[n..]);
      ConcatCons(s[..n], Segment(s[n..]));
      assert s == s[..n] + s[n..];
    } else {
      assert Segment(s) == [];
    }
  }

  lemma FirstChar(s: seq<byte>) returns (k: nat)
    requires Valid(s) && s != []
    ensures 1 <= k <= |s| && k == RuneSize(s) && IsChar(s[..k]) && Valid(s[k..])
  {
    k :| 1 <= k <= |s| && ValidAfter(s, k);
    RuneSizeMatchesGrammar(s);
  }

  predicate AllChars(runes: seq<seq<byte>>) {
    forall r :: r in runes ==> IsChar(r)
  }

  // A string is valid UTF-8 exactly when the decoder sees only characters.
  lemma {:induction false} ValidBySegments(s: seq<byte>)
    ensures Valid(s) <==> AllChars(Segment(s))
    decreases |s|
  {
    if s != [] {
      var n := RuneSize(s);
      ValidBySegments(s[n..]);
      var tail := Segment(s[n..]);
      assert Segment(s) == [s[..n]] + tail;
      assert AllChars(Segment(s)) <==> IsChar(s[..n]) && AllChars(tail);
      if Valid(s) {
        var _ := FirstChar(s);
      } else {
        assert !ValidAfter(s, n);
      }
    }
  }

  lemma {:induction false} ValidConcat(a: seq<byte>, b: seq<byte>)
    requires Valid(a) && Valid(b)
    ensures Valid(a + b)
    decreases |a|
  {
    if a == [] {
      assert a + b == b;
    } else {
      var k := FirstChar(a);
      ValidConcat(a[k..], b);
      assert (a + b)[..k] == a[..k];
      assert (a + b)[k..] == a[k..] + b;
      assert ValidAfter(a + b, k);
    }
  }

  lemma {:induction false} ValidConcatAll(parts: seq<seq<byte>>)
    requires forall p :: p in parts ==> Valid(p)
    ensures Valid(Concat(parts))
  {
    if parts != [] {
      assert parts[0] in parts;
      ValidConcatAll(parts[1..]);
      ValidConcat(parts[0], Concat(parts[1..]));
    }
  }

  // No rune starts inside a character.
  lemma NoCutInside(s: seq<byte>, k: nat, cut: nat)
    requires k <= |s| && IsChar(s[..k]) && 0 < cut < |s| && RuneStart(s[cut])
    ensures k <= cut
  {
  }

  // A suffix of valid text that starts at a rune start is valid.
  lemma {:induction false} ValidSuffix(s: seq<byte>, cut: nat)
    requires Valid(s) && cut <= |s| && (cut < |s| ==> RuneStart(s[cut]))
    ensures Valid(s[cut..])
    decreases |s|
  {
    hide RuneStart, IsChar, RuneSize;
    if cut == 0 {
      assert s[cut..] == s;
    } else if cut == |s| {
      assert s[cut..] == [];
    } else {
      var k := FirstChar(s);
      NoCutInside(s, k, cut);
      ValidSuffix(s[k..], cut - k);
      assert s[k..][cut - k..] == s[cut..];
    }
  }
}

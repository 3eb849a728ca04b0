// The encoding whose length the outbox counts: a JavaScript string as the
// UTF-8 text that TextEncoder makes of it.

module TextEncoding {
  import opened Utf8
  import Outbox

  // Unpaired surrogates become this.
  const REPLACEMENT := 0xFFFD

  predicate IsScalar(c: int) {
    0 <= c < 0xD800 || 0xE000 <= c < 0x110000
  }

  // Section 3 of RFC 3629.
  function EncodeScalar(c: int): (s: seq<byte>)
    requires IsScalar(c)
  {
    if c < 0x80 then [c]
    else if c < 0x800 then [0xC0 + c / 64, 0x80 + c % 64]
    else
      var q := c / 64;
      if c < 0x10000 then [0xE0 + q / 64, 0x80 + q % 64, 0x80 + c % 64]
      else [0xF0 + q / 64 / 64, 0x80 + q / 64 % 64, 0x80 + q % 64, 0x80 + c % 64]
  }

  predicate IsHigh(u: Outbox.Unit) {
    0xD800 <= u < 0xDC00
  }

  predicate IsLow(u: Outbox.Unit) {
    0xDC00 <= u < 0xE000
  }

  // The scalar values of a string: a surrogate pair is one of them.
  function Scalars(s: Outbox.Text): (r: seq<int>)
    ensures forall i :: 0 <= i < |r| ==> IsScalar(r[i])
  {
    if s == [] then []
    else if |s| >= 2 && IsHigh(s[0]) && IsLow(s[1]) then
      [0x10000 + (s[0] as int - 0xD800) * 1024 + (s[1] as int - 0xDC00)] + Scalars(s[2..])
    else if IsHigh(s[0]) || IsLow(s[0]) then [REPLACEMENT] + Scalars(s[1..])
    else [s[0] as int] + Scalars(s[1..])
  }

  function EncodeAll(scalars: seq<int>): (s: seq<byte>)
    requires forall i :: 0 <= i < |scalars| ==> IsScalar(scalars[i])
  {
    if scalars == [] then [] else EncodeScalar(scalars[0]) + EncodeAll(scalars[1..])
  }

  lemma EncodedIsChar(c: int)
    requires IsScalar(c)
    ensures IsChar(EncodeScalar(c))
  {
    var q := c / 64;
    var p := q / 64;
    if 0x800 <= c < 0x10000 {
      assert p == 0 ==> q % 64 == q >= 32;
      assert p == 13 ==> c < 0xE000;
      assert Utf8Three(EncodeScalar(c));
    } else if c >= 0x10000 {
      assert p / 64 == 0 ==> p % 64 == p >= 16;
      assert p / 64 == 4 ==> p < 272;
      assert Utf8Four(EncodeScalar(c));
    }
  }

  // The outbox counts exactly the bytes of that encoding, which is valid.
  lemma {:induction false} CountsEncodedBytes(s: Outbox.Text)
    ensures Outbox.Utf8Length(s) == |EncodeAll(Scalars(s))| && Valid(EncodeAll(Scalars(s)))
    decreases |s|
  {
    hide IsChar, Valid, EncodeScalar;
    if s == [] {
      NothingIsValid();
    } else {
      var n := if |s| >= 2 && IsHigh(s[0]) && IsLow(s[1]) then 2 else 1;
      CountsEncodedBytes(s[n..]);
      var all := Scalars(s);
      assert all[1..] == Scalars(s[n..]);
      EncodedIsChar(all[0]);
      OneCharIsValid(EncodeScalar(all[0]));
      ValidConcat(EncodeScalar(all[0]), EncodeAll(all[1..]));
      EncodedLength(all[0]);
    }
  }

  lemma EncodedLength(c: int)
    requires IsScalar(c)
    ensures |EncodeScalar(c)| == if c < 0x80 then 1 else if c < 0x800 then 2 else if c < 0x10000 then 3 else 4
  {
  }

  lemma NothingIsValid()
    ensures Valid([])
  {
  }

  lemma OneCharIsValid(s: seq<byte>)
    requires IsChar(s)
    ensures Valid(s)
  {
    assert s[..|s|] == s && s[|s|..] == [];
    assert ValidAfter(s, |s|);
  }
}

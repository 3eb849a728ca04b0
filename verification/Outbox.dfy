// The queue for input that cannot be sent yet: a bounded FIFO on an array
// whose removed head is cut off lazily.

module Outbox {

  // A JavaScript string: UTF-16 code units.
  newtype Unit = x: int | 0 <= x < 0x10000
  type Text = seq<Unit>

  const MAX_BYTES := 512 * 1024

  datatype Message = Input(data: Text) | Resize(cols: int, rows: int)

  // The length of the encoding that TextEncoder makes; a lone surrogate is
  // encoded as the replacement character.
  function Utf8Length(s: Text): (n: nat)
    ensures |s| <= n <= 3 * |s|
  {
    if s == [] then 0
    else if s[0] < 0x80 then 1 + Utf8Length(s[1..])
    else if s[0] < 0x800 then 2 + Utf8Length(s[1..])
    else if |s| >= 2 && 0xD800 <= s[0] < 0xDC00 && 0xDC00 <= s[1] < 0xE000 then 4 + Utf8Length(s[2..])
    else 3 + Utf8Length(s[1..])
  }

  // ------------------------------------------------------- the bounded queue

  datatype Fifo = Fifo(live: seq<Text>, dropped: nat)

  function Bytes(live: seq<Text>): (n: nat) {
    if live == [] then 0 else Utf8Length(live[0]) + Bytes(live[1..])
  }

  // How many of the oldest chunks must go.
  function Excess(live: seq<Text>, max: nat): (k: nat)
    ensures k <= |live|
  {
    if live == [] || Bytes(live) <= max then 0 else 1 + Excess(live[1..], max)
  }

  function Enqueued(q: Fifo, chunk: Text, max: nat): (q': Fifo) {
    if chunk == [] then q
    else if Utf8Length(chunk) > max then q.(dropped := q.dropped + Utf8Length(chunk))
    else
      var all := q.live + [chunk];
      Fifo(all[Excess(all, max)..], q.dropped + Bytes(all[..Excess(all, max)]))
  }

  // How many of n sends in a row are accepted before the first is refused;
  // with no more answers the socket refuses.
  function Accepted(answers: seq<bool>, n: nat): (k: nat)
    ensures k <= n
  {
    if n == 0 || answers == [] || !answers[0] then 0 else 1 + Accepted(answers[1..], n - 1)
  }

  // The answers left after those sends.
  function Unused(answers: seq<bool>, n: nat): (rest: seq<bool>) {
    if n == 0 || answers == [] then answers
    else if answers[0] then Unused(answers[1..], n - 1)
    else answers[1..]
  }

  lemma {:induction false} BytesOfTwo(a: seq<Text>, b: seq<Text>)
    ensures Bytes(a + b) == Bytes(a) + Bytes(b)
  {
    if a == [] {
      assert a + b == b;
    } else {
      assert (a + b)[1..] == a[1..] + b;
      BytesOfTwo(a[1..], b);
    }
  }

  // The queue drops no more than it must: what stays fits, and one chunk more
  // would not.
  lemma {:induction false} ExcessIsLeast(live: seq<Text>, max: nat, k: nat)
    requires k <= |live|
    ensures k < Excess(live, max) ==> Bytes(live[k..]) > max
    ensures k >= Excess(live, max) ==> Bytes(live[k..]) <= max
  {
    if k > 0 {
      assert live[k..] == live[1..][k - 1..];
      ExcessIsLeast(live[1..], max, k - 1);
      if Excess(live, max) == 0 {
        assert Bytes(live[1..]) <= Bytes(live);
        ExcessOfFitting(live[1..], max);
      }
    } else {
      assert live[0..] == live;
    }
  }

  lemma ExcessOfFitting(live: seq<Text>, max: nat)
    requires Bytes(live) <= max
    ensures Excess(live, max) == 0
  {
  }

  predicate AllNonEmpty(live: seq<Text>) {
    forall i :: 0 <= i < |live| ==> live[i] != []
  }

  // One enqueue: nothing is lost from the books, the newest chunk is kept
  // unless it alone is too long, and the queue fits.
  lemma EnqueueKeepsBooks(q: Fifo, chunk: Text, max: nat)
    requires Bytes(q.live) <= max && AllNonEmpty(q.live)
    ensures var q' := Enqueued(q, chunk, max);
      && Bytes(q'.live) <= max && AllNonEmpty(q'.live)
      && Bytes(q'.live) + q'.dropped == Bytes(q.live) + q.dropped + Utf8Length(chunk)
      && (0 < Utf8Length(chunk) <= max ==> q'.live != [] && q'.live[|q'.live| - 1] == chunk)
      && (Utf8Length(chunk) > max ==> q'.live == q.live)
  {
    NoBytes();
    hide Bytes, Utf8Length, Excess;
    if 0 < Utf8Length(chunk) <= max {
      var all := q.live + [chunk];
      var k := Excess(all, max);
      ExcessIsLeast(all, max, k);
      ExcessIsLeast(all, max, |q.live|);
      assert all[|q.live|..] == [] + [chunk];
      BytesOfOneMore([], chunk);
      assert all == all[..k] + all[k..];
      BytesOfTwo(all[..k], all[k..]);
      BytesOfOneMore(q.live, chunk);
    } else if chunk == [] {
      assert Utf8Length(chunk) == 0;
    }
  }

  lemma BytesOfNonEmpty(live: seq<Text>)
    requires AllNonEmpty(live)
    ensures Bytes(live) == 0 <==> live == []
  {
  }

  // Sends go on up to the first refusal: all before it were accepted, and the
  // answers after it are still to come.
  lemma {:induction false} AcceptedUpToRefusal(answers: seq<bool>, n: nat)
    ensures var k := Accepted(answers, n);
      && k <= |answers| && (forall i :: 0 <= i < k ==> answers[i])
      && (k < n && k < |answers| ==> !answers[k])
      && (k < n ==> k == |answers| || Unused(answers, n) == answers[k + 1..])
      && (k < n && k == |answers| ==> Unused(answers, n) == [])
      && (k == n ==> Unused(answers, n) == answers[n..])
    decreases n
  {
    if n > 0 && answers != [] && answers[0] {
      AcceptedUpToRefusal(answers[1..], n - 1);
      var k := Accepted(answers[1..], n - 1);
      forall i | 0 <= i < k + 1 ensures answers[i] {
        assert i > 0 ==> answers[1..][i - 1];
      }
    }
  }

  // -------------------------------------------------------------- the object

  datatype Chunk = Chunk(data: Text, bytes: nat)

  function Texts(chunks: seq<Chunk>): (r: seq<Text>)
    ensures |r| == |chunks| && forall i :: 0 <= i < |chunks| ==> r[i] == chunks[i].data
  {
    seq(|chunks|, i requires 0 <= i < |chunks| => chunks[i].data)
  }

  predicate Measured(chunks: seq<Chunk>) {
    forall i :: 0 <= i < |chunks| ==> chunks[i].data != [] && chunks[i].bytes == Utf8Length(chunks[i].data)
  }

  // The socket side: `answers` are what the next sends will return.
  class Wire {
    var answers: seq<bool>
    var sent: seq<Message>

    method Send(m: Message) returns (ok: bool)
      modifies this
      ensures ok == (old(answers) != [] && old(answers)[0])
      ensures answers == if old(answers) == [] then [] else old(answers)[1..]
      ensures sent == if ok then old(sent) + [m] else old(sent)
    {
      ok := answers != [] && answers[0];
      if answers != [] {
        answers := answers[1..];
      }
      if ok {
        sent := sent + [m];
      }
    }
  }

  function Inputs(texts: seq<Text>): (r: seq<Message>)
    ensures |r| == |texts| && forall i :: 0 <= i < |texts| ==> r[i] == Input(texts[i])
  {
    seq(|texts|, i requires 0 <= i < |texts| => Input(texts[i]))
  }

  lemma BytesOfOneMore(live: seq<Text>, chunk: Text)
    ensures Bytes(live + [chunk]) == Bytes(live) + Utf8Length(chunk)
  {
    BytesOfTwo(live, [chunk]);
    assert Bytes([chunk]) == Utf8Length(chunk) + Bytes([]);
  }

  lemma OneSend(answers: seq<bool>, n: nat)
    requires n > 0
    ensures if answers != [] && answers[0]
            then Accepted(answers, n) == 1 + Accepted(answers[1..], n - 1)
              && Unused(answers, n) == Unused(answers[1..], n - 1)
            else Accepted(answers, n) == 0 && Unused(answers, n) == if answers == [] then [] else answers[1..]
  {
  }

  lemma NoSend(answers: seq<bool>)
    ensures Accepted(answers, 0) == 0 && Unused(answers, 0) == answers
  {
  }

  lemma NoBytes()
    ensures Bytes([]) == 0
  {
  }

  lemma OneOn(all: seq<Text>, start: nat, head: nat)
    requires start <= head < |all|
    ensures Bytes(all[head..]) == Utf8Length(all[head]) + Bytes(all[head + 1..])
    ensures Bytes(all[start..head + 1]) == Bytes(all[start..head]) + Utf8Length(all[head])
    ensures Inputs(all[start..head + 1]) == Inputs(all[start..head]) + [Input(all[head])]
  {
    assert all[head..][1..] == all[head + 1..];
    assert all[start..head + 1] == all[start..head] + [all[head]];
    BytesOfOneMore(all[start..head], all[head]);
  }

  lemma OneMoreExcess(all: seq<Text>, head: nat, max: nat)
    requires head < |all| && Bytes(all[head..]) > max
    ensures Excess(all[head..], max) == 1 + Excess(all[head + 1..], max)
  {
    assert all[head..][1..] == all[head + 1..];
  }

  lemma NoExcess(live: seq<Text>, max: nat)
    ensures Bytes(live) <= max || live == [] ==> Excess(live, max) == 0
  {
  }

  // What a flush has done when it reached `head`: `first` were the answers at
  // its start and `answers` are those left.
  ghost predicate Flushing(all: seq<Text>, start: nat, head: nat, before: seq<Message>, sent: seq<Message>,
                           sentBytes: nat, first: seq<bool>, answers: seq<bool>)
  {
    && start <= head <= |all| && sentBytes == Bytes(all[start..head])
    && sent == before + Inputs(all[start..head])
    && head - start + Accepted(answers, |all| - head) == Accepted(first, |all| - start)
    && Unused(answers, |all| - head) == Unused(first, |all| - start)
  }

  lemma FlushStarts(all: seq<Text>, start: nat, before: seq<Message>, first: seq<bool>)
    requires start <= |all|
    ensures Flushing(all, start, start, before, before, 0, first, first)
  {
    assert all[start..start] == [] && Inputs([]) == [];
  }

  lemma FlushEnds(all: seq<Text>, start: nat, head: nat, before: seq<Message>, sent: seq<Message>, sentBytes: nat,
                  first: seq<bool>, answers: seq<bool>)
    requires Flushing(all, start, head, before, sent, sentBytes, first, answers)
    ensures sentBytes == Bytes(all[start..head]) && sent == before + Inputs(all[start..head])
    ensures head == |all| ==> Accepted(first, |all| - start) == head - start && Unused(first, |all| - start) == answers
  {
    NoSend(answers);
  }

  lemma RestBytes(all: seq<Text>, head: nat)
    requires head < |all|
    ensures Bytes(all[head..]) == Utf8Length(all[head]) + Bytes(all[head + 1..])
  {
    OneOn(all, head, head);
  }

  lemma FlushGoesOn(all: seq<Text>, start: nat, head: nat, before: seq<Message>, sent: seq<Message>, sentBytes: nat,
                    first: seq<bool>, answers: seq<bool>)
    requires Flushing(all, start, head, before, sent, sentBytes, first, answers) && head < |all|
    ensures var m, n := Input(all[head]), |all| - start;
      if answers != [] && answers[0] then
        Flushing(all, start, head + 1, before, sent + [m], sentBytes + Utf8Length(all[head]), first, answers[1..])
      else
        Accepted(first, n) == head - start && Unused(first, n) == if answers == [] then [] else answers[1..]
  {
    hide Bytes, Utf8Length, Accepted, Unused, Inputs;
    OneOn(all, start, head);
    OneSend(answers, |all| - head);
    var since, m := Inputs(all[start..head]), Input(all[head]);
    assert (before + since) + [m] == before + (since + [m]);
  }

  class OutboxState {
    var chunks: seq<Chunk>
    var head: nat
    var bytes: int
    var droppedBytes: nat

    ghost function View(): (q: Fifo)
      reads this
      requires head <= |chunks|
    {
      Fifo(Texts(chunks)[head..], droppedBytes)
    }

    // Between operations the dead head is short.
    ghost predicate Compact()
      reads this
    {
      head == 0 || (head < 128 && 2 * head < |chunks|)
    }

    ghost predicate Counted()
      reads this
    {
      head <= |chunks| && Measured(chunks) && bytes == Bytes(View().live)
    }

    ghost predicate Valid()
      reads this
    {
      Counted() && Compact()
    }

    constructor ()
      ensures Valid() && View() == Fifo([], 0)
    {
      chunks, head, bytes, droppedBytes := [], 0, 0, 0;
    }

    method CompactOutbox()
      requires Counted()
      modifies this`chunks, this`head
      ensures Valid() && View() == old(View())
    {
      if head == 0 {
        return;
      }
      assert Texts(chunks[head..]) == Texts(chunks)[head..];
      if head >= |chunks| {
        chunks, head := [], 0;
        return;
      }
      if head < 128 && head * 2 < |chunks| {
        return;
      }
      chunks, head := chunks[head..], 0;
    }

    // The loop at the end of enqueueOutbox.
    method DropOldest(max: nat)
      requires Counted()
      modifies this`head, this`bytes, this`droppedBytes
      ensures Counted()
      ensures var live := old(View().live);
              View() == Fifo(live[Excess(live, max)..], old(droppedBytes) + Bytes(live[..Excess(live, max)]))
    {
      hide Bytes, Utf8Length, Excess;
      ghost var all, start := Texts(chunks), head;
      NoBytes();
      assert all[start..start] == [];
      while bytes > max && head < |chunks|
        invariant start <= head <= |chunks| && bytes == Bytes(all[head..])
        invariant droppedBytes == old(droppedBytes) + Bytes(all[start..head])
        invariant head + Excess(all[head..], max) == start + Excess(all[start..], max)
        decreases |chunks| - head
      {
        OneOn(all, start, head);
        OneMoreExcess(all, head, max);
        var removed := chunks[head];
        head := head + 1;
        bytes := bytes - removed.bytes;
        droppedBytes := droppedBytes + removed.bytes;
      }
      NoExcess(all[head..], max);
      assert all[start..head] == all[start..][..head - start] && all[head..] == all[start..][head - start..];
    }

    method Enqueue(chunk: Text, max: nat)
      requires Valid()
      modifies this
      ensures Valid() && View() == Enqueued(old(View()), chunk, max)
    {
      hide Bytes, Excess;
      if |chunk| == 0 {
        return;
      }
      var queued := Chunk(chunk, Utf8Length(chunk));
      if queued.bytes > max {
        droppedBytes := droppedBytes + queued.bytes;
        return;
      }
      ghost var live := View().live;
      chunks := chunks + [queued];
      bytes := bytes + queued.bytes;
      assert View().live == live + [chunk];
      BytesOfOneMore(live, chunk);
      DropOldest(max);
      CompactOutbox();
    }

    // The loop of flushOutbox.
    method SendWhileAccepted(wire: Wire) returns (sentBytes: nat)
      requires Counted()
      modifies this`head, this`bytes, wire
      ensures Counted()
      ensures var all, start, n, k := Texts(chunks), old(head), |chunks| - old(head), head - old(head);
              && 0 <= k == Accepted(old(wire.answers), n) && wire.answers == Unused(old(wire.answers), n)
              && sentBytes == Bytes(all[start..head]) && wire.sent == old(wire.sent) + Inputs(all[start..head])
    {
      hide Bytes, Utf8Length, Accepted, Unused, Texts, Inputs, Flushing;
      ghost var all, start, first, before := Texts(chunks), head, wire.answers, wire.sent;
      sentBytes := 0;
      FlushStarts(all, start, before, first);
      while head < |chunks|
        invariant start <= head <= |chunks| && bytes == Bytes(all[head..])
        invariant Flushing(all, start, head, before, wire.sent, sentBytes, first, wire.answers)
        decreases |chunks| - head
      {
        FlushGoesOn(all, start, head, before, wire.sent, sentBytes, first, wire.answers);
        FlushEnds(all, start, head, before, wire.sent, sentBytes, first, wire.answers);
        RestBytes(all, head);
        var queued := chunks[head];
        var delivered := wire.Send(Input(queued.data));
        if !delivered {
          return;
        }
        head := head + 1;
        sentBytes := sentBytes + queued.bytes;
        bytes := bytes - queued.bytes;
      }
      FlushEnds(all, start, head, before, wire.sent, sentBytes, first, wire.answers);
    }

    method Flush(wire: Wire) returns (sentBytes: nat)
      requires Valid()
      modifies this, wire
      ensures var live, answers := old(View().live), old(wire.answers);
              var k := Accepted(answers, |live|);
              && Valid() && View() == Fifo(live[k..], old(droppedBytes)) && sentBytes == Bytes(live[..k])
              && wire.sent == old(wire.sent) + Inputs(live[..k]) && wire.answers == Unused(answers, |live|)
    {
      hide Bytes, Utf8Length, Accepted, Unused;
      ghost var all, start := Texts(chunks), head;
      sentBytes := SendWhileAccepted(wire);
      assert all[start..head] == all[start..][..head - start] && all[head..] == all[start..][head - start..];
      // The clamp is the identity.
      assert bytes >= 0;
      bytes := if bytes > 0 then bytes else 0;
      CompactOutbox();
    }

    method Reset()
      modifies this
      ensures Valid() && View() == Fifo([], 0)
    {
      chunks, head, bytes, droppedBytes := [], 0, 0, 0;
    }
  }
}

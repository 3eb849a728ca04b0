// Typed input and terminal sizes on their way to the socket: what is sent at
// once, what waits in the outbox and what is lost.

module Backpressure {
  import opened Wrappers
  import opened Outbox

  datatype Size = Size(cols: int, rows: int)

  // The last six fields are logs. `typed`, `inputs` and the ids start anew with
  // every reset of the outbox: what was typed in control mode, what the socket
  // accepted of it, and which typed chunk each accepted and each queued chunk
  // is. `fits` are all sizes reported so far and `sizeIds` those sent.
  datatype Buffers = Buffers(
    queue: Fifo,
    pending: Option<Size>,
    fit: Size,
    shownQueued: nat,
    shownDropped: nat,
    typed: seq<Text>,
    inputs: seq<Text>,
    deliveredIds: seq<nat>,
    queuedIds: seq<nat>,
    fits: seq<Size>,
    sizeIds: seq<nat>)

  const FIRST_FIT := Size(80, 24)
  const EMPTY := Buffers(Fifo([], 0), None, FIRST_FIT, 0, 0, [], [], [], [], [FIRST_FIT], [])

  predicate Accepts(answers: seq<bool>) {
    answers != [] && answers[0]
  }

  function Shown(b: Buffers): (b': Buffers) {
    b.(shownQueued := Bytes(b.queue.live), shownDropped := b.queue.dropped)
  }

  // flushOutbox with the socket behind it
  function Flushed(b: Buffers, answers: seq<bool>): (b': Buffers) {
    var live := b.queue.live;
    var k := Accepted(answers, |live|);
    if k <= |b.queuedIds| then
      b.(queue := b.queue.(live := live[k..]), inputs := b.inputs + live[..k],
         deliveredIds := b.deliveredIds + b.queuedIds[..k], queuedIds := b.queuedIds[k..])
    else b.(queue := b.queue.(live := live[k..]), inputs := b.inputs + live[..k])
  }

  function Waiting(b: Buffers, data: Text): (b': Buffers) {
    var all, ids := b.queue.live + [data], b.queuedIds + [|b.typed|];
    var queue := Enqueued(b.queue, data, MAX_BYTES);
    var kept := if 0 < |data| && Utf8Length(data) <= MAX_BYTES then ids else b.queuedIds;
    b.(queue := queue, typed := b.typed + [data],
       queuedIds := if |queue.live| <= |kept| then kept[|kept| - |queue.live|..] else kept)
  }

  function OnInput(b: Buffers, watch: bool, data: Text, answers: seq<bool>): (b': Buffers) {
    if watch then b
    else
      var b1 := Flushed(b, answers);
      if Bytes(b1.queue.live) == 0 && Accepts(Unused(answers, |b.queue.live|)) then
        Shown(b1.(typed := b.typed + [data], inputs := b1.inputs + [data],
                  deliveredIds := b1.deliveredIds + [|b.typed|]))
      else Shown(Waiting(b1, data))
  }

  function ResetOutbox(b: Buffers): (b': Buffers) {
    b.(queue := Fifo([], 0), shownQueued := 0, shownDropped := 0,
       typed := [], inputs := [], deliveredIds := [], queuedIds := [])
  }

  function FlushQueued(b: Buffers, watch: bool, answers: seq<bool>): (b': Buffers) {
    if watch then ResetOutbox(b)
    else
      var b1 := Flushed(b, answers);
      if Bytes(b.queue.live[..Accepted(answers, |b.queue.live|)]) > 0 then Shown(b1) else b1
  }

  function SendResize(b: Buffers, watch: bool, size: Size, answers: seq<bool>): (b': Buffers) {
    var b1 := b.(fit := size, fits := b.fits + [size]);
    if watch then b1.(pending := None)
    else if Accepts(answers) then b1.(pending := None, sizeIds := b.sizeIds + [|b.fits|])
    else b1.(pending := Some(size))
  }

  function FlushPending(b: Buffers, answers: seq<bool>): (b': Buffers) {
    if b.pending.Some? && Accepts(answers) && b.fits != []
    then b.(pending := None, sizeIds := b.sizeIds + [|b.fits| - 1])
    else b
  }

  function ResetAll(b: Buffers): (b': Buffers) {
    ResetOutbox(b).(pending := None)
  }

  datatype Event =
    | Typed(watch: bool, data: Text, answers: seq<bool>)
    | Flush(watch: bool, answers: seq<bool>)
    | Fit(watch: bool, size: Size, answers: seq<bool>)
    | FlushResize(answers: seq<bool>)
    | Reset

  function Apply(b: Buffers, ev: Event): (b': Buffers) {
    match ev
    case Typed(watch, data, answers) => OnInput(b, watch, data, answers)
    case Flush(watch, answers) => FlushQueued(b, watch, answers)
    case Fit(watch, size, answers) => SendResize(b, watch, size, answers)
    case FlushResize(answers) => FlushPending(b, answers)
    case Reset => ResetAll(b)
  }

  function Run(b: Buffers, evs: seq<Event>): (b': Buffers)
    decreases evs
  {
    if evs == [] then b else Run(Apply(b, evs[0]), evs[1..])
  }

  // --------------------------------------------------------------- the books

  predicate Increasing(ids: seq<nat>) {
    forall i, j :: 0 <= i < j < |ids| ==> ids[i] < ids[j]
  }

  predicate Below(ids: seq<nat>, n: nat) {
    forall i :: 0 <= i < |ids| ==> ids[i] < n
  }

  // `texts` are the typed chunks with these ids.
  predicate Picks(texts: seq<Text>, typed: seq<Text>, ids: seq<nat>) {
    |texts| == |ids| && Below(ids, |typed|) && forall i :: 0 <= i < |ids| ==> texts[i] == typed[ids[i]]
  }

  // Delivered and then queued chunks are the typed chunks in order, less some;
  // the bytes of those are the dropped bytes.
  predicate Books(b: Buffers) {
    && Increasing(b.deliveredIds + b.queuedIds)
    && Picks(b.inputs + b.queue.live, b.typed, b.deliveredIds + b.queuedIds)
    && |b.inputs| == |b.deliveredIds|
    && Bytes(b.typed) == Bytes(b.inputs) + Bytes(b.queue.live) + b.queue.dropped
    && Bytes(b.queue.live) <= MAX_BYTES && AllNonEmpty(b.queue.live)
  }

  predicate ShowsTruth(b: Buffers) {
    b.shownQueued == Bytes(b.queue.live) && b.shownDropped == b.queue.dropped
  }

  // Every size is sent at most once and in the order reported; a pending one
  // is the latest, not yet sent.
  predicate Sizes(b: Buffers) {
    && b.fits != [] && b.fit == b.fits[|b.fits| - 1]
    && Increasing(b.sizeIds) && Below(b.sizeIds, |b.fits|)
    && (b.pending.Some? ==> b.pending.value == b.fit && Below(b.sizeIds, |b.fits| - 1))
  }

  lemma FlushedKeeps(b: Buffers, answers: seq<bool>)
    requires Books(b)
    ensures var b' := Flushed(b, answers); Books(b') && b'.typed == b.typed
  {
    hide Bytes, Utf8Length, Accepted;
    var k := Accepted(answers, |b.queue.live|);
    var b' := Flushed(b, answers);
    assert b.queue.live == b.queue.live[..k] + b.queue.live[k..];
    BytesOfTwo(b.queue.live[..k], b.queue.live[k..]);
    BytesOfTwo(b.inputs, b.queue.live[..k]);
    assert b'.deliveredIds + b'.queuedIds == b.deliveredIds + b.queuedIds;
    assert b'.inputs + b'.queue.live == b.inputs + b.queue.live;
  }

  lemma PicksMore(texts: seq<Text>, typed: seq<Text>, ids: seq<nat>, data: Text)
    requires Picks(texts, typed, ids)
    ensures Picks(texts, typed + [data], ids)
  {
  }

  lemma PicksNew(texts: seq<Text>, typed: seq<Text>, ids: seq<nat>, data: Text)
    requires Picks(texts, typed, ids) && Increasing(ids)
    ensures Picks(texts + [data], typed + [data], ids + [|typed|]) && Increasing(ids + [|typed|])
  {
  }

  // Striking out a piece in the middle.
  lemma PicksFewer(texts: seq<Text>, typed: seq<Text>, ids: seq<nat>, i: nat, j: nat)
    requires Picks(texts, typed, ids) && Increasing(ids) && i <= j <= |ids|
    ensures Picks(texts[..i] + texts[j..], typed, ids[..i] + ids[j..]) && Increasing(ids[..i] + ids[j..])
  {
    var kept := ids[..i] + ids[j..];
    forall p, q | 0 <= p < q < |kept| ensures kept[p] < kept[q] {
      var p', q' := if p < i then p else p - i + j, if q < i then q else q - i + j;
      assert kept[p] == ids[p'] && kept[q] == ids[q'];
    }
  }

  lemma SendKeeps(b: Buffers, data: Text)
    requires Books(b) && Bytes(b.queue.live) == 0
    ensures Books(b.(typed := b.typed + [data], inputs := b.inputs + [data],
                     deliveredIds := b.deliveredIds + [|b.typed|]))
  {
    hide Bytes, Utf8Length, Picks, Increasing, AllNonEmpty;
    BytesOfNonEmpty(b.queue.live);
    SameCount(b.inputs + b.queue.live, b.typed, b.deliveredIds + b.queuedIds);
    assert b.inputs + b.queue.live == b.inputs && b.deliveredIds + b.queuedIds == b.deliveredIds;
    PicksNew(b.inputs, b.typed, b.deliveredIds, data);
    assert (b.inputs + [data]) + b.queue.live == b.inputs + [data];
    assert (b.deliveredIds + [|b.typed|]) + b.queuedIds == b.deliveredIds + [|b.typed|];
    BytesOfOneMore(b.typed, data);
    BytesOfOneMore(b.inputs, data);
  }

  // A chunk is appended and the k oldest of the queue are struck out.
  lemma PicksShifted(inputs: seq<Text>, live: seq<Text>, typed: seq<Text>, delivered: seq<nat>,
                     queued: seq<nat>, data: Text, k: nat)
    requires Picks(inputs + live, typed, delivered + queued) && Increasing(delivered + queued)
    requires |inputs| == |delivered| && k <= |live| + 1
    ensures var all, ids := live + [data], queued + [|typed|];
      Picks(inputs + all[k..], typed + [data], delivered + ids[k..]) && Increasing(delivered + ids[k..])
  {
    hide Picks, Increasing;
    var all, ids, d := live + [data], queued + [|typed|], |inputs|;
    assert |ids| == |all| by { SameCount(inputs + live, typed, delivered + queued); }
    PicksNew(inputs + live, typed, delivered + queued, data);
    assert (inputs + live) + [data] == inputs + all && (delivered + queued) + [|typed|] == delivered + ids;
    PicksFewer(inputs + all, typed + [data], delivered + ids, d, d + k);
    assert (inputs + all)[..d] + (inputs + all)[d + k..] == inputs + all[k..];
    assert (delivered + ids)[..d] + (delivered + ids)[d + k..] == delivered + ids[k..];
  }

  lemma SameCount(texts: seq<Text>, typed: seq<Text>, ids: seq<nat>)
    requires Picks(texts, typed, ids)
    ensures |texts| == |ids|
  {
  }

  lemma EnqueueKeeps(b: Buffers, data: Text)
    requires Books(b) && data != [] && Utf8Length(data) <= MAX_BYTES
    ensures Books(Waiting(b, data))
  {
    hide Bytes, Utf8Length, Excess, Picks, Increasing, AllNonEmpty;
    var all, k := b.queue.live + [data], Excess(b.queue.live + [data], MAX_BYTES);
    SameCount(b.inputs + b.queue.live, b.typed, b.deliveredIds + b.queuedIds);
    PicksShifted(b.inputs, b.queue.live, b.typed, b.deliveredIds, b.queuedIds, data, k);
    EnqueueKeepsBooks(b.queue, data, MAX_BYTES);
    BytesOfOneMore(b.typed, data);
  }

  lemma WaitingKeeps(b: Buffers, data: Text)
    requires Books(b)
    ensures Books(Waiting(b, data))
  {
    hide Bytes, Utf8Length, Excess;
    if data != [] && Utf8Length(data) <= MAX_BYTES {
      EnqueueKeeps(b, data);
    } else {
      assert Utf8Length([]) == 0;
      PicksMore(b.inputs + b.queue.live, b.typed, b.deliveredIds + b.queuedIds, data);
      BytesOfOneMore(b.typed, data);
      assert Waiting(b, data).queue.live == b.queue.live;
      assert Waiting(b, data).queuedIds == b.queuedIds;
    }
  }

  lemma InputKeeps(b: Buffers, watch: bool, data: Text, answers: seq<bool>)
    requires Books(b) && ShowsTruth(b)
    ensures Books(OnInput(b, watch, data, answers)) && ShowsTruth(OnInput(b, watch, data, answers))
  {
    hide Bytes, Utf8Length, Flushed, Waiting, Accepted, Unused, Increasing, Picks, AllNonEmpty;
    if !watch {
      FlushedKeeps(b, answers);
      var b1 := Flushed(b, answers);
      if Bytes(b1.queue.live) == 0 && Accepts(Unused(answers, |b.queue.live|)) {
        SendKeeps(b1, data);
      } else {
        WaitingKeeps(b1, data);
      }
    }
  }

  lemma FlushKeeps(b: Buffers, watch: bool, answers: seq<bool>)
    requires Books(b) && ShowsTruth(b)
    ensures Books(FlushQueued(b, watch, answers)) && ShowsTruth(FlushQueued(b, watch, answers))
  {
    hide Utf8Length, Accepted;
    if !watch {
      var live, k := b.queue.live, Accepted(answers, |b.queue.live|);
      FlushedKeeps(b, answers);
      BytesOfNonEmpty(live[..k]);
      assert k == 0 ==> live[k..] == live;
    }
  }

  lemma StepKeeps(b: Buffers, ev: Event)
    requires Books(b) && ShowsTruth(b)
    ensures Books(Apply(b, ev)) && ShowsTruth(Apply(b, ev))
  {
    hide Books, OnInput, FlushQueued;
    match ev
    case Typed(watch, data, answers) => InputKeeps(b, watch, data, answers);
    case Flush(watch, answers) => FlushKeeps(b, watch, answers);
    case Reset => ResetKeeps(b);
    case _ => SizesAside(b, Apply(b, ev));
  }

  lemma ResetKeeps(b: Buffers)
    ensures Books(ResetAll(b)) && ShowsTruth(ResetAll(b))
  {
  }

  lemma SizesAside(b: Buffers, b': Buffers)
    requires Books(b) && b' == b.(pending := b'.pending, fit := b'.fit, fits := b'.fits, sizeIds := b'.sizeIds)
    ensures Books(b')
  {
    hide Bytes, Utf8Length, Increasing, Picks, AllNonEmpty;
  }

  lemma StepKeepsSizes(b: Buffers, ev: Event)
    requires Sizes(b)
    ensures Sizes(Apply(b, ev))
  {
    hide Bytes, Utf8Length, Accepted, Unused, Enqueued;
  }

  predicate AllAccepted(answers: seq<bool>, n: nat) {
    n <= |answers| && forall i :: 0 <= i < n ==> answers[i]
  }

  // What is typed is delivered at once, in its turn, exactly if the socket
  // accepts everything queued before it and then the chunk itself.
  lemma DeliveredAtOnceExactly(b: Buffers, data: Text, answers: seq<bool>)
    requires Books(b)
    ensures var b', all := OnInput(b, false, data, answers), b.inputs + b.queue.live;
      && b'.typed == b.typed + [data]
      && if AllAccepted(answers, |b.queue.live| + 1) then b'.inputs == all + [data] && b'.queue == b.queue.(live := [])
         else b'.inputs <= all
  {
    hide Bytes, Utf8Length, Enqueued, Accepted, Unused;
    var live, k := b.queue.live, Accepted(answers, |b.queue.live|);
    AcceptedUpToRefusal(answers, |live|);
    BytesOfNonEmpty(live[k..]);
    assert live[..k] + live[k..] == live;
    assert k == |live| ==> live[..k] == live && live[k..] == [];
    assert k == |live| < |answers| ==> answers[|live|..][0] == answers[|live|];
  }

  // A flush delivers, in order, everything up to the first refusal.
  lemma FlushDelivers(b: Buffers, answers: seq<bool>, n: nat)
    requires Books(b) && n <= |b.queue.live|
    ensures var b', live := FlushQueued(b, false, answers), b.queue.live;
      && b'.inputs + b'.queue.live == b.inputs + live && b'.queue.dropped == b.queue.dropped
      && (|b'.inputs| >= |b.inputs| + n <==> AllAccepted(answers, n))
  {
    hide Bytes, Utf8Length, Accepted, Unused;
    var live, k := b.queue.live, Accepted(answers, |b.queue.live|);
    AcceptedUpToRefusal(answers, |live|);
    assert live[..k] + live[k..] == live;
    var b' := FlushQueued(b, false, answers);
    assert b'.inputs == b.inputs + live[..k];
    assert b'.queue.live == live[k..];
  }

  // A watcher's typing changes nothing, and a flush in watch mode forgets all.
  lemma WatchersSendNothing(b: Buffers, data: Text, answers: seq<bool>, size: Size)
    ensures OnInput(b, true, data, answers) == b
    ensures FlushQueued(b, true, answers) == ResetOutbox(b)
    ensures SendResize(b, true, size, answers) == b.(fit := size, fits := b.fits + [size], pending := None)
  {
  }

  // A chunk that is not delivered at once is the last in the queue, unless it
  // is empty, or longer than 512 KiB and then dropped alone; only bytes that do
  // not fit are dropped for it, from the front.
  lemma WaitsOrIsDropped(b: Buffers, data: Text, answers: seq<bool>)
    requires Books(b) && !AllAccepted(answers, |b.queue.live| + 1)
    ensures var b', sent, n := OnInput(b, false, data, answers), Flushed(b, answers), Utf8Length(data);
      && b'.inputs == sent.inputs && Bytes(b'.queue.live) <= 524288
      && (0 < n <= 524288 ==>
            && b'.queue.live != [] && b'.queue.live[|b'.queue.live| - 1] == data
            && (Bytes(sent.queue.live) + n <= 524288 ==>
                  b'.queue == sent.queue.(live := sent.queue.live + [data])))
      && (n > 524288 ==> b'.queue == sent.queue.(dropped := sent.queue.dropped + n))
      && (n == 0 ==> b'.queue == sent.queue)
  {
    hide Bytes, Utf8Length, Accepted, Unused, Excess, Picks, Increasing;
    var live, k := b.queue.live, Accepted(answers, |b.queue.live|);
    FlushedKeeps(b, answers);
    AcceptedUpToRefusal(answers, |live|);
    BytesOfNonEmpty(live[k..]);
    assert k == |live| < |answers| ==> answers[|live|..][0] == answers[|live|];
    var sent := Flushed(b, answers);
    EnqueueKeepsBooks(sent.queue, data, MAX_BYTES);
    var all := sent.queue.live + [data];
    BytesOfOneMore(sent.queue.live, data);
    NoExcess(all, MAX_BYTES);
    NoBytes();
    assert all[0..] == all && all[..0] == [];
    assert Utf8Length([]) == 0 && (data == [] || Utf8Length(data) > 0) by { LengthIsPositive(data); }
  }

  lemma LengthIsPositive(data: Text)
    ensures Utf8Length([]) == 0 && (data != [] ==> Utf8Length(data) > 0)
  {
  }

  // A reset forgets the queue, the pending size and the counters.
  lemma ResetForgets(b: Buffers)
    ensures var b' := ResetAll(b);
      && b'.queue == Fifo([], 0) && b'.pending.None? && b'.shownQueued == b'.shownDropped == 0
      && b'.fit == b.fit && b'.sizeIds == b.sizeIds
  {
  }

  // A new size is sent at once if the socket accepts it, and otherwise pending
  // until a flush that the socket accepts.
  lemma SizeIsSentOrPending(b: Buffers, size: Size, answers: seq<bool>, later: seq<bool>)
    requires Sizes(b)
    ensures var b' := SendResize(b, false, size, answers);
      && b'.fit == size && b'.fits == b.fits + [size]
      && if Accepts(answers) then b'.pending.None? && b'.sizeIds == b.sizeIds + [|b.fits|]
         else
           && b'.pending == Some(size) && b'.sizeIds == b.sizeIds
           && var b2 := FlushPending(b', later);
              if Accepts(later) then b2.pending.None? && b2.sizeIds == b.sizeIds + [|b.fits|] else b2 == b'
  {
  }

  // Whatever is typed, flushed, resized and refused: the books balance and
  // the sizes arrive in order.
  lemma {:induction false} EveryRunBalances(evs: seq<Event>)
    ensures var b := Run(EMPTY, evs); Books(b) && ShowsTruth(b) && Sizes(b)
  {
    RunKeeps(EMPTY, evs);
  }

  lemma {:induction false} RunKeeps(b: Buffers, evs: seq<Event>)
    requires Books(b) && ShowsTruth(b) && Sizes(b)
    ensures Books(Run(b, evs)) && ShowsTruth(Run(b, evs)) && Sizes(Run(b, evs))
    decreases evs
  {
    hide Books, ShowsTruth, Sizes, Apply;
    if evs != [] {
      StepKeeps(b, evs[0]);
      StepKeepsSizes(b, evs[0]);
      RunKeeps(Apply(b, evs[0]), evs[1..]);
    }
  }
}

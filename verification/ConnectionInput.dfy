// The objects behind Backpressure: the outbox, the refs and the displayed
// counters of one connection.

module ConnectionInput {
  import opened Wrappers
  import opened Outbox
  import B = Backpressure

  // What the last sends added to the wire.
  function NewInputs(before: B.Buffers, after: B.Buffers): (r: seq<Message>) {
    if |before.inputs| <= |after.inputs| then Inputs(after.inputs[|before.inputs|..]) else []
  }

  function SizeMessage(s: B.Size): (m: Message) {
    Resize(s.cols, s.rows)
  }

  class ConnectionInputBackpressure {
    const outbox: OutboxState
    const wire: Wire
    var pendingResize: Option<B.Size>
    var runtimeFitSize: B.Size
    var queuedInputBytes: nat
    var droppedInputBytes: nat
    ghost var buffers: B.Buffers

    ghost predicate Valid()
      reads this, outbox
    {
      && outbox.Valid() && outbox.View() == buffers.queue
      && pendingResize == buffers.pending && runtimeFitSize == buffers.fit
      && queuedInputBytes == buffers.shownQueued && droppedInputBytes == buffers.shownDropped
      && B.Books(buffers) && B.ShowsTruth(buffers) && B.Sizes(buffers)
    }

    constructor (w: Wire)
      ensures Valid() && buffers == B.EMPTY && wire == w && fresh(outbox)
    {
      outbox := new OutboxState();
      wire := w;
      pendingResize, runtimeFitSize, queuedInputBytes, droppedInputBytes := None, B.FIRST_FIT, 0, 0;
      buffers := B.EMPTY;
    }

    method SendResize(watch: bool, size: B.Size)
      requires Valid()
      modifies this, wire
      ensures Valid() && buffers == B.SendResize(old(buffers), watch, size, old(wire.answers))
      ensures wire.sent ==
              if !watch && B.Accepts(old(wire.answers)) then old(wire.sent) + [SizeMessage(size)] else old(wire.sent)
    {
      hide B.Books, B.ShowsTruth, OutboxState.Valid;
      var b, answers := buffers, wire.answers;
      B.StepKeeps(b, B.Fit(watch, size, answers));
      B.StepKeepsSizes(b, B.Fit(watch, size, answers));
      buffers := B.SendResize(b, watch, size, answers);
      runtimeFitSize := size;
      if watch {
        pendingResize := None;
        return;
      }
      var sent := wire.Send(SizeMessage(size));
      pendingResize := if sent then None else Some(size);
    }

    // A pending size that is sent here is the latest one.
    method FlushPendingResize()
      requires Valid()
      modifies this, wire
      ensures Valid() && buffers == B.FlushPending(old(buffers), old(wire.answers))
      ensures wire.sent ==
              if old(pendingResize).Some? && B.Accepts(old(wire.answers))
              then old(wire.sent) + [SizeMessage(old(runtimeFitSize))] else old(wire.sent)
    {
      hide B.Books, B.ShowsTruth, OutboxState.Valid;
      var b, answers := buffers, wire.answers;
      B.StepKeeps(b, B.FlushResize(answers));
      B.StepKeepsSizes(b, B.FlushResize(answers));
      if pendingResize.None? {
        return;
      }
      buffers := B.FlushPending(b, answers);
      var sent := wire.Send(SizeMessage(pendingResize.value));
      if sent {
        pendingResize := None;
      }
    }

    method Show()
      modifies this`queuedInputBytes, this`droppedInputBytes
      requires outbox.Valid()
      ensures queuedInputBytes == Bytes(outbox.View().live) && droppedInputBytes == outbox.View().dropped
    {
      queuedInputBytes, droppedInputBytes := outbox.bytes, outbox.droppedBytes;
    }

    method HandleRuntimeInput(watch: bool, data: Text)
      requires Valid()
      modifies this, outbox, wire
      ensures Valid() && buffers == B.OnInput(old(buffers), watch, data, old(wire.answers))
      ensures wire.sent == old(wire.sent) + NewInputs(old(buffers), buffers)
    {
      hide B.Books, B.Sizes, OutboxState.Valid, Bytes, Accepted, Unused, Enqueued;
      ghost var b, answers := buffers, wire.answers;
      B.StepKeeps(b, B.Typed(watch, data, answers));
      B.StepKeepsSizes(b, B.Typed(watch, data, answers));
      if watch {
        return;
      }
      buffers := B.OnInput(b, watch, data, answers);
      var _ := outbox.Flush(wire);
      var sent := false;
      Look(outbox);
      if outbox.bytes == 0 {
        sent := wire.Send(Input(data));
      }
      if !sent {
        outbox.Enqueue(data, MAX_BYTES);
      }
      Show();
    }

    lemma Look(o: OutboxState)
      requires o.Valid()
      ensures o.bytes == Bytes(o.View().live) && o.head <= |o.chunks|
    {
    }

    method FlushQueuedInput(watch: bool)
      requires Valid()
      modifies this, outbox, wire
      ensures Valid() && buffers == B.FlushQueued(old(buffers), watch, old(wire.answers))
      ensures wire.sent == if watch then old(wire.sent) else old(wire.sent) + NewInputs(old(buffers), buffers)
    {
      hide B.Books, B.Sizes, OutboxState.Valid, Bytes, Accepted, Unused;
      ghost var b, answers := buffers, wire.answers;
      B.StepKeeps(b, B.Flush(watch, answers));
      B.StepKeepsSizes(b, B.Flush(watch, answers));
      buffers := B.FlushQueued(b, watch, answers);
      if watch {
        outbox.Reset();
        queuedInputBytes, droppedInputBytes := 0, 0;
        return;
      }
      var sentBytes := outbox.Flush(wire);
      if sentBytes > 0 {
        Show();
      }
    }

    method ResetQueuedBuffers()
      requires Valid()
      modifies this, outbox
      ensures Valid() && buffers == B.ResetAll(old(buffers))
    {
      hide B.Books, B.Sizes, OutboxState.Valid, Bytes;
      B.StepKeeps(buffers, B.Reset);
      B.StepKeepsSizes(buffers, B.Reset);
      buffers := B.ResetAll(buffers);
      outbox.Reset();
      pendingResize := None;
      queuedInputBytes, droppedInputBytes := 0, 0;
    }
  }
}

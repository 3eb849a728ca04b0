// From the terminal to the screen: the read loop, the replay buffer and the
// session protocol together.

module ProtocolStream {
  import opened Utf8
  import opened SessionTable
  import opened Protocol
  import opened ProtocolDelivery
  import opened ProtocolTheorems
  import ProtocolShape
  import History
  import PtyReader

  // The session of this attachment has forwarded some of the chunks that the
  // read loop emits, in order.
  predicate Forwards(s: State, att: Attachment, emitted: seq<seq<byte>>) {
    att.sid in s.table.heap ==> s.table.heap[att.sid].output <= emitted
  }

  lemma RunParts(stream: seq<byte>, passes: seq<PtyReader.Pass>)
    ensures var r := PtyReader.Run(stream, passes);
      && r.used <= |stream| && Concat(r.emitted) + r.rest == stream[..r.used]
      && forall c :: c in r.emitted ==> |c| <= PtyReader.BUFFER_SIZE
  {
    PtyReader.RunIsFaithful(stream, passes);
  }

  lemma ForwardedIsPrefix(output: seq<seq<byte>>, emitted: seq<seq<byte>>)
    requires output <= emitted
    ensures Concat(output) <= Concat(emitted)
  {
    assert emitted == output + emitted[|output|..];
    ConcatAppend(output, emitted[|output|..]);
  }

  lemma ForwardedIsClean(output: seq<seq<byte>>, emitted: seq<seq<byte>>, from: nat, max: History.Limit)
    requires output <= emitted && from <= |output|
    requires forall c :: c in emitted ==> |c| <= max
    ensures History.AllClipCleanly(output[..from], max)
  {
    forall c | c in output[..from] ensures History.ClipsCleanly(c, max) {
      var i :| 0 <= i < from && output[..from][i] == c;
      assert emitted[i] == c;
    }
  }

  // Whatever the terminal writes, however it is read, whoever attaches when:
  // the text of every attached socket is one contiguous piece of the bytes the
  // terminal wrote.
  lemma ViewerSeesThePiece(cfg: Config, s: State, c: ConnId, stream: seq<byte>, passes: seq<PtyReader.Pass>)
    returns (start: nat)
    requires Reachable(cfg, s) && c in s.clients && s.clients[c].att.Some?
    requires Forwards(s, s.clients[c].att.value, PtyReader.Run(stream, passes).emitted)
    requires cfg.max >= PtyReader.BUFFER_SIZE
    ensures var text := Text(SessionMsgs(s.clients[c].wire));
      start + |text| <= |stream| && text == stream[start..start + |text|]
  {
    hide Reachable, Text, SessionMsgs, Concat, PtyReader.Run, History.AllClipCleanly;
    hide Expected, Owed, ProtocolShape.Owes;
    var att, r := s.clients[c].att.value, PtyReader.Run(stream, passes);
    RunParts(stream, passes);
    StreamIsPrefix(cfg, s, c);
    var output := s.table.heap[att.sid].output;
    ForwardedIsClean(output, r.emitted, att.from, cfg.max);
    start := ReceivedTextIsContiguous(cfg, s, c);
    ForwardedIsPrefix(output, r.emitted);
    assert Concat(output) <= Concat(r.emitted) + r.rest;
    assert Concat(output) <= stream;
  }

  lemma {:induction false} OutputIsSessionMsg(wire: seq<Msg>, m: Msg)
    requires m in wire && m.Output?
    ensures m in SessionMsgs(wire)
  {
    var init, last := wire[..|wire| - 1], wire[|wire| - 1];
    assert wire == init + [last];
    if m != last {
      OutputIsSessionMsg(init, m);
    }
  }

  lemma ExpectedOutputs(session: Session, att: Attachment, m: Msg)
    requires att.from <= |session.output| && m in Expected(session, att) && m.Output?
    ensures m.data == att.snapshot || m.data in session.output
  {
    var since := session.output[att.from..];
    if m in Outputs(since) {
      var i :| 0 <= i < |since| && Outputs(since)[i] == m;
      assert m.data == session.output[att.from + i];
    }
  }

  // And if that is valid UTF-8 whose reading did not end inside a character,
  // every single message of text is.
  lemma ViewerGetsValidText(cfg: Config, s: State, c: ConnId, stream: seq<byte>, passes: seq<PtyReader.Pass>, m: Msg)
    requires Reachable(cfg, s) && c in s.clients && s.clients[c].att.Some?
    requires var r := PtyReader.Run(stream, passes);
      && Forwards(s, s.clients[c].att.value, r.emitted)
      && Valid(stream) && (r.outcome.Finished? ==> Valid(stream[..r.used]))
    requires m in s.clients[c].wire && m.Output?
    ensures Valid(m.data)
  {
    hide Reachable, SessionMsgs, Concat, PtyReader.Run, Expected, Owed, ProtocolShape.Owes, Valid, History.Replay;
    var att, r := s.clients[c].att.value, PtyReader.Run(stream, passes);
    StreamIsPrefix(cfg, s, c);
    OutputIsSessionMsg(s.clients[c].wire, m);
    var session := s.table.heap[att.sid];
    assert m in Expected(session, att);
    ExpectedOutputs(session, att, m);
    PtyReader.RunChunksAreValid(stream, passes);
    assert forall d :: d in session.output ==> d in r.emitted;
    History.DumpIsValidText(session.output[..att.from], cfg.max);
  }
}

/** The whole server side of one connection, read off the connection table's invariant. */
module Server {
  import opened Bytes
  import opened Framing
  import CM = ConnectionManager
  import Dispatcher
  import Registry
  import Codec

  /** What the services did with the frames handled so far. */
  function Calls(log: seq<CM.Exchange>): (calls: seq<Dispatcher.Services>)
    ensures |calls| == |log|
  {
    seq(|log|, i requires 0 <= i < |log| => log[i].call)
  }

  lemma {:induction false} RepliesAreAnswers(methods: CM.Methods, log: seq<CM.Exchange>)
    requires CM.Served(methods, log)
    ensures CM.Answers(log) == Dispatcher.Answers(methods, CM.Frames(log), Calls(log))
  {
    hide Dispatcher.OnFrame, Dispatcher.HandleFrame, Dispatcher.Answer, Codec.EncodeResponse;
    if log != [] {
      var e, rest := log[0], log[1..];
      Dispatcher.ExactlyOneAnswer(methods, e.frame, e.call);
      RepliesAreAnswers(methods, rest);
      assert CM.Frames(log)[1..] == CM.Frames(rest) && Calls(log)[1..] == Calls(rest);
      assert CM.Answers(log) == [CM.Answer(e)] + CM.Answers(rest);
    }
  }

  /** The answer to one handled frame. */
  lemma AnswerAt(methods: CM.Methods, log: seq<CM.Exchange>, k: nat)
    requires CM.Served(methods, log) && k < |log|
    ensures var e := log[k];
            && Codec.EncodeResponse(Dispatcher.Answer(methods, e.frame, e.call)) == Codec.Ok(CM.Answers(log)[k])
            && Dispatcher.Answer(methods, e.frame, e.call).id == Dispatcher.IdOf(e.frame)
            && (Dispatcher.PayloadFits(e.call) ==>
                  Codec.DecodeResponse(CM.Answers(log)[k]) == Codec.Ok(Dispatcher.Answer(methods, e.frame, e.call)))
  {
    hide Dispatcher.OnFrame, Dispatcher.Answer, Dispatcher.IdOf, Codec.EncodeResponse, Codec.DecodeResponse;
    var e := log[k];
    Dispatcher.ExactlyOneAnswer(methods, e.frame, e.call);
    if Dispatcher.PayloadFits(e.call) { Dispatcher.AnswerDecodes(methods, e.frame, e.call); }
  }

  /** In every state that the event handlers leave, on every open connection: the frames handled are those of the
      bytes received; the bytes on the wire followed by the unsent tail are exactly one answer per frame, in order;
      answer `k` encodes what dispatch makes of frame `k`, with that frame's id, or 0 when it does not decode, and
      decodes to it unless its payload is too large for the length field; and then it is the right answer for whatever
      was registered. */
  lemma Conversation(m: CM.ConnectionManager, fd: int)
    requires m.Valid() && fd in m.connections
    ensures fd in m.history
    ensures var c, h := m.connections[fd], m.history[fd];
            var frames, answers, calls := Split(h.received).frames, CM.Answers(h.log), Calls(h.log);
            && |frames| == |calls| == |answers|
            && answers == Dispatcher.Answers(m.methods, frames, calls)
            && c.sent <= |c.output| && h.wire + c.output[c.sent..] == Concat(answers)
            && (forall k :: 0 <= k < |frames| ==>
                  var answer := Dispatcher.Answer(m.methods, frames[k], calls[k]);
                  && Codec.EncodeResponse(answer) == Codec.Ok(answers[k])
                  && answer.id == Dispatcher.IdOf(frames[k])
                  && (Dispatcher.PayloadFits(calls[k]) ==> Codec.DecodeResponse(answers[k]) == Codec.Ok(answer)))
            && (forall log, k :: Registry.WellNamed(log) && Registry.Index(log) == m.methods && 0 <= k < |frames| ==>
                  Dispatcher.PayloadFits(calls[k]) ==>
                    && Codec.DecodeResponse(answers[k]).Ok?
                    && Dispatcher.RightAnswer(log, frames[k], calls[k], Codec.DecodeResponse(answers[k]).value))
            && Split(h.received).open && |c.input| < 4 + MAX_FRAME_BODY
  {
    hide Codec.DecodeResponse, Codec.EncodeResponse, Dispatcher.IdOf, Dispatcher.OnFrame, Dispatcher.Answer;
    var c, h := m.connections[fd], m.history[fd];
    assert CM.ConnectionOk(c, h, m.handlers[fd]) && CM.Served(m.methods, h.log);
    RepliesAreAnswers(m.methods, h.log);
    SplitSpells(c.input);
    assert CM.Frames(h.log) + [] == CM.Frames(h.log);
    forall k | 0 <= k < |h.log|
      ensures var e := h.log[k];
              var answer := Dispatcher.Answer(m.methods, e.frame, e.call);
              && Codec.EncodeResponse(answer) == Codec.Ok(CM.Answers(h.log)[k])
              && answer.id == Dispatcher.IdOf(e.frame)
              && (Dispatcher.PayloadFits(e.call) ==>
                    Codec.DecodeResponse(CM.Answers(h.log)[k]) == Codec.Ok(answer))
    {
      AnswerAt(m.methods, h.log, k);
    }
    hide CM.Served, Registry.Index, Registry.WellNamed, Dispatcher.RightAnswer;
    forall log, k |
      Registry.WellNamed(log) && Registry.Index(log) == m.methods && 0 <= k < |h.log|
      && Dispatcher.PayloadFits(h.log[k].call)
      ensures Codec.DecodeResponse(CM.Answers(h.log)[k]).Ok?
      ensures Dispatcher.RightAnswer(log, h.log[k].frame, h.log[k].call,
                                     Codec.DecodeResponse(CM.Answers(h.log)[k]).value)
    {
      RightAt(log, m.methods, h.log, k);
    }
  }

  lemma RightAt(log: seq<Registry.Registered>, methods: CM.Methods, exchanges: seq<CM.Exchange>, k: nat)
    requires Registry.WellNamed(log) && Registry.Index(log) == methods && CM.Served(methods, exchanges)
    requires k < |exchanges| && Dispatcher.PayloadFits(exchanges[k].call)
    ensures Codec.DecodeResponse(CM.Answers(exchanges)[k]).Ok?
    ensures Dispatcher.RightAnswer(log, exchanges[k].frame, exchanges[k].call,
                                   Codec.DecodeResponse(CM.Answers(exchanges)[k]).value)
  {
    hide Dispatcher.OnFrame, Codec.DecodeResponse, Dispatcher.RightAnswer;
    Dispatcher.AnswerIsRight(log, exchanges[k].frame, exchanges[k].call);
  }

  /** What a peer that reads everything sees: when no answer exceeds the accepted length, the stream splits back into
      exactly those answers. */
  lemma PeerReadsAnswers(m: CM.ConnectionManager, fd: int)
    requires m.Valid() && fd in m.connections
    requires forall k :: 0 <= k < |m.history[fd].log| ==> ValidFrame(CM.Answers(m.history[fd].log)[k])
    ensures var c, h := m.connections[fd], m.history[fd];
            c.sent <= |c.output| && Split(h.wire + c.output[c.sent..]) == Outcome(CM.Answers(h.log), [], true)
  {
    assert Settled([]);
    hide Split, ValidFrame, CM.InputOk, CM.InterestOk, CM.Served;
    var c, h := m.connections[fd], m.history[fd];
    assert CM.ConnectionOk(c, h, m.handlers[fd]);
    var answers := CM.Answers(h.log);
    ValidFramesDelivered(answers, []);
    assert Concat(answers) + [] == Concat(answers);
  }
}

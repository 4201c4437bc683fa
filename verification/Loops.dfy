/** The pipeline's steps against the code that makes them: the client's loops and the server's events, with whatever
    the system calls do, are runs of the step system. */
module Loops {
  import opened Bytes
  import opened Codec
  import opened Framing
  import opened Pipeline
  import opened ConnectionPool
  import ClientIo
  import CM = ConnectionManager
  import Dispatcher

  // ---------------------------------------------------------------- the client

  /** Every step is a send of thread `t`. */
  predicate Sends(steps: seq<Step>, t: nat)
  {
    forall i :: 0 <= i < |steps| ==> steps[i].SendSome? && steps[i].t == t
  }

  predicate Receives(steps: seq<Step>, t: nat)
  {
    forall i :: 0 <= i < |steps| ==> steps[i].RecvSome? && steps[i].t == t
  }

  /** The client's phase when `offset` bytes of its frame are out. */
  function SentUpTo(call: Call, key: Key, c: SocketId, offset: nat): (p: Phase)
  {
    if offset < |call.frame| then Sending(call, key, c, offset) else Receiving(call, key, c, [])
  }

  lemma SendStepApplies(servers: Servers, s: State, c: SocketId, t: nat, l: Link, call: Call,
                        key: Key, offset: nat, n: nat)
    requires 1 <= n && offset + n <= |call.frame|
    ensures Apply(servers, With(s, c, t, l, Sending(call, key, c, offset)), SendSome(t, n))
         == Some(With(s, c, t, Written(l, call, offset, offset + n), SentUpTo(call, key, c, offset + n)))
  {
    WithAgain(s, c, t, l, Sending(call, key, c, offset), Written(l, call, offset, offset + n),
              SentUpTo(call, key, c, offset + n));
  }

  /** The connection after the client has written a piece of its frame. */
  function Written(l: Link, call: Call, from: nat, to: nat): (l': Link)
    requires from <= to <= |call.frame|
  {
    l.(up := l.up + call.frame[from..to])
  }

  lemma WrittenTwice(l: Link, call: Call, a: nat, b: nat, c: nat)
    requires a <= b <= c <= |call.frame|
    ensures Written(Written(l, call, a, b), call, b, c) == Written(l, call, a, c) && Written(l, call, a, a) == l
  {
    var f := call.frame;
    assert f[a..b] + f[b..c] == f[a..c];
    assert (l.up + f[a..b]) + f[b..c] == l.up + f[a..c];
    assert l.up + f[a..a] == l.up;
  }

  /** The send loop, blocking or not, is a run of sends that puts exactly the bytes it reports on the connection. */
  lemma {:induction false} SendIsRun(servers: Servers, s: State, c: SocketId, t: nat, l: Link, call: Call,
                                     key: Key, offset: nat, async_: bool, io: seq<ClientIo.Io>)
      returns (steps: seq<Step>)
    requires offset < |call.frame|
    ensures var to := offset + ClientIo.Send(async_, io, |call.frame| - offset).offset;
            && Sends(steps, t)
            && Run(servers, With(s, c, t, l, Sending(call, key, c, offset)), steps)
               == Some(With(s, c, t, Written(l, call, offset, to), SentUpTo(call, key, c, to)))
    decreases |io|, 0
  {
    hide Apply, Run, With, ClientIo.Send, Written;
    var size := |call.frame| - offset;
    RunNone(servers, With(s, c, t, l, Sending(call, key, c, offset)));
    WrittenTwice(l, call, offset, offset, offset);
    ClientIo.SendUnfolds(async_, io, size);
    steps := [];
    if io != [] {
      match io[0] {
        case Interrupted => steps := SendIsRun(servers, s, c, t, l, call, key, offset, async_, io[1..]);
        case WouldBlock(ready) =>
          if async_ && ready { steps := SendIsRun(servers, s, c, t, l, call, key, offset, async_, io[1..]); }
        case Failed =>
        case Moved(count) =>
          var n := ClientIo.Least(count, size);
          if n != 0 { steps := SendMore(servers, s, c, t, l, call, key, offset, n, async_, io[1..]); }
      }
    }
  }

  /** One send of `n` bytes and then the rest of the loop. */
  lemma {:induction false} SendMore(servers: Servers, s: State, c: SocketId, t: nat, l: Link, call: Call,
                                    key: Key, offset: nat, n: nat, async_: bool, io: seq<ClientIo.Io>)
      returns (steps: seq<Step>)
    requires 1 <= n && offset + n <= |call.frame|
    ensures var to := offset + n + ClientIo.Send(async_, io, |call.frame| - offset - n).offset;
            && Sends(steps, t)
            && Run(servers, With(s, c, t, l, Sending(call, key, c, offset)), steps)
               == Some(With(s, c, t, Written(l, call, offset, to), SentUpTo(call, key, c, to)))
    decreases |io|, 1
  {
    hide Apply, Run, With, ClientIo.Send, Written;
    var start, at := With(s, c, t, l, Sending(call, key, c, offset)), offset + n;
    SendStepApplies(servers, s, c, t, l, call, key, offset, n);
    var l' := Written(l, call, offset, at);
    var to := at + ClientIo.Send(async_, io, |call.frame| - at).offset;
    WrittenTwice(l, call, offset, at, to);
    WrittenTwice(l', call, at, at, at);
    var rest: seq<Step> := [];
    if at < |call.frame| {
      rest := SendIsRun(servers, s, c, t, l', call, key, at, async_, io);
    } else {
      RunNone(servers, With(s, c, t, l', SentUpTo(call, key, c, at)));
    }
    RunFirst(servers, start, SendSome(t, n), rest);
    steps := [SendSome(t, n)] + rest;
  }

  /** Reading less than is wanted leaves the rest to want. */
  lemma WantShrinks(got: seq<Byte>, more: seq<Byte>)
    requires |more| < Want(got)
    ensures Want(got + more) == Want(got) - |more|
  {
    if |got| >= 4 {
      assert (got + more)[..4] == got[..4];
      assert GetU32(got + more) == GetU32((got + more)[..4]) == GetU32(got[..4]) == GetU32(got);
    }
  }

  /** The receive loop for what is wanted next is a run of receives that takes exactly the bytes it reports. */
  lemma {:induction false} ReceiveIsRun(servers: Servers, s: State, c: SocketId, t: nat, l: Link, p: Phase,
                                        async_: bool, io: seq<ClientIo.Io>) returns (steps: seq<Step>)
    requires p.Receiving? && p.conn == c && Want(p.got) > 0
    ensures var r := ClientIo.Receive(async_, io, l.down, Want(p.got));
            && Receives(steps, t)
            && Run(servers, With(s, c, t, l, p), steps)
               == Some(With(s, c, t, l.(down := r.stream), p.(got := p.got + r.got)))
    decreases |io|, 0
  {
    hide Apply, Run, With, Want, ClientIo.Receive;
    var want := Want(p.got);
    assert p.got + [] == p.got;
    RunNone(servers, With(s, c, t, l, p));
    ClientIo.ReceiveUnfolds(async_, io, l.down, want);
    steps := [];
    if io != [] {
      match io[0] {
        case Interrupted => steps := ReceiveIsRun(servers, s, c, t, l, p, async_, io[1..]);
        case WouldBlock(ready) =>
          if async_ && ready { steps := ReceiveIsRun(servers, s, c, t, l, p, async_, io[1..]); }
        case Failed =>
        case Moved(count) =>
          var n := ClientIo.Least(ClientIo.Least(count, want), |l.down|);
          if n != 0 {
            var later := ClientIo.Receive(async_, io[1..], l.down[n..], want - n).got;
            assert (p.got + l.down[..n]) + later == p.got + (l.down[..n] + later);
            steps := ReceiveMore(servers, s, c, t, l, p, n, async_, io[1..]);
          }
      }
    }
  }

  /** One receive of `n` bytes and then the rest of the loop. */
  lemma {:induction false} ReceiveMore(servers: Servers, s: State, c: SocketId, t: nat, l: Link, p: Phase, n: nat,
                                       async_: bool, io: seq<ClientIo.Io>) returns (steps: seq<Step>)
    requires p.Receiving? && p.conn == c && 1 <= n <= Want(p.got) && n <= |l.down|
    ensures var r := ClientIo.Receive(async_, io, l.down[n..], Want(p.got) - n);
            && Receives(steps, t)
            && Run(servers, With(s, c, t, l, p), steps)
               == Some(With(s, c, t, l.(down := r.stream), p.(got := (p.got + l.down[..n]) + r.got)))
    decreases |io|, 1
  {
    hide Apply, Run, With, Want, ClientIo.Receive;
    RecvStepApplies(servers, s, c, t, l, p, n);
    var l', p' := l.(down := l.down[n..]), p.(got := p.got + l.down[..n]);
    var rest: seq<Step> := [];
    if n < Want(p.got) {
      WantShrinks(p.got, l.down[..n]);
      rest := ReceiveIsRun(servers, s, c, t, l', p', async_, io);
    } else {
      ClientIo.ReceiveNothing(async_, io, l'.down);
      assert p'.got + [] == p'.got;
      RunNone(servers, With(s, c, t, l', p'));
    }
    RunFirst(servers, With(s, c, t, l, p), RecvSome(t, n), rest);
    steps := [RecvSome(t, n)] + rest;
  }

  /** A failed round trip: the socket is closed. */
  function Aborted(s: State, c: SocketId, t: nat, l: Link): (s': State)
  {
    s.(own := Close(s.own, c), links := s.links[c := l], threads := s.threads - {t})
  }

  lemma AbortStep(servers: Servers, s: State, c: SocketId, t: nat, l: Link, p: Phase)
    requires p.conn == c
    ensures Apply(servers, With(s, c, t, l, p), Abort(t)) == Some(Aborted(s, c, t, l))
  {
    assert s.threads[t := p] - {t} == s.threads - {t};
  }

  /** The body of a frame follows its prefix. */
  lemma WantBody(prefix: seq<Byte>)
    requires |prefix| == 4
    ensures Want([]) == 4
    ensures LengthAccepted(GetU32(prefix)) ==> Want(prefix) == GetU32(prefix) > 0
    ensures forall body :: LengthAccepted(GetU32(prefix)) && |body| == GetU32(prefix) ==> ValidFrame(prefix + body)
  {
    forall body: seq<Byte> | LengthAccepted(GetU32(prefix)) && |body| == GetU32(prefix)
      ensures ValidFrame(prefix + body)
    {
      assert (prefix + body)[..4] == prefix;
    }
  }

  /** A send loop that fails ends in a closed socket. */
  lemma FailedSendIsRun(servers: Servers, s: State, c: SocketId, t: nat, l: Link, call: Call,
                        key: Key, async_: bool, io: seq<ClientIo.Io>) returns (steps: seq<Step>)
    requires |call.frame| > 0 && !ClientIo.Send(async_, io, |call.frame|).ok
    ensures var sent := ClientIo.Send(async_, io, |call.frame|).offset;
            && |steps| > 0 && Sends(steps[..|steps| - 1], t) && steps[|steps| - 1] == Abort(t)
            && Run(servers, With(s, c, t, l, Sending(call, key, c, 0)), steps)
               == Some(Aborted(s, c, t, Written(l, call, 0, sent)))
  {
    hide Apply, Run, With, Aborted, Written;
    var sent := ClientIo.Send(async_, io, |call.frame|).offset;
    var first := SendIsRun(servers, s, c, t, l, call, key, 0, async_, io);
    var start := With(s, c, t, l, Sending(call, key, c, 0));
    AbortStep(servers, s, c, t, Written(l, call, 0, sent), SentUpTo(call, key, c, sent));
    RunStep(servers, start, first, Abort(t));
    steps := first + [Abort(t)];
  }

  /** The state after `ReceiveFrame` gave this result: the socket is returned with a frame, and closed without. */
  function Ended(s: State, c: SocketId, t: nat, l: Link, call: Call, key: Key, r: ClientIo.FrameResult): (s': State)
    requires |l.asked| > 0
  {
    var l' := l.(down := r.stream);
    if r.result.Ok? then Completed(s, c, t, l', call, key, r.result.value) else Aborted(s, c, t, l')
  }

  function LastStep(t: nat, result: Result<Frame>): (step: Step)
  {
    if result.Ok? then Finish(t) else Abort(t)
  }

  /** A run of receives of thread `t` and one last step. */
  ghost predicate ReceivesThen(servers: Servers, s: State, steps: seq<Step>, t: nat, last: Step, after: State)
  {
    && |steps| > 0 && Receives(steps[..|steps| - 1], t) && steps[|steps| - 1] == last
    && Run(servers, s, steps) == Some(after)
  }

  /** `ReceiveFrame` with the return or the close that follows it: a run of receives and then a finish, when it returned
      a frame, or an abort. */
  lemma ReceiveFrameIsRun(servers: Servers, s: State, c: SocketId, t: nat, l: Link, call: Call, key: Key, async_: bool,
                          io: seq<ClientIo.Io>)
    requires |l.asked| > 0
    ensures var r := ClientIo.ReceiveFrame(async_, io, l.down);
            exists steps :: ReceivesThen(servers, With(s, c, t, l, Receiving(call, key, c, [])), steps, t,
                                         LastStep(t, r.result), Ended(s, c, t, l, call, key, r))
  {
    var p := Receiving(call, key, c, []);
    var start := With(s, c, t, l, p);
    hide Apply, Run, With, Want, GetU32, LengthAccepted, ValidFrame, Aborted, Completed, ClientIo.Receive;
    WantBody([0, 0, 0, 0]);
    var r := ClientIo.ReceiveFrame(async_, io, l.down);
    var prefix := ClientIo.Receive(async_, io, l.down, 4);
    var first := ReceiveIsRun(servers, s, c, t, l, p, async_, io);
    assert [] + prefix.got == prefix.got;
    var l1, p1 := l.(down := prefix.stream), p.(got := prefix.got);
    var size := if prefix.ok then GetU32(prefix.got) else 0;
    if !prefix.ok || !LengthAccepted(size) {
      AbortStep(servers, s, c, t, l1, p1);
      RunStep(servers, start, first, Abort(t));
      assert r.result.Err? && r.stream == prefix.stream;
      assert ReceivesThen(servers, start, first + [Abort(t)], t, LastStep(t, r.result),
                          Ended(s, c, t, l, call, key, r));
    } else {
      WantBody(prefix.got);
      var body := ClientIo.Receive(async_, prefix.rest, prefix.stream, size);
      var second := ReceiveIsRun(servers, s, c, t, l1, p1, async_, prefix.rest);
      RunJoin(servers, start, first, second);
      var l2, p2 := l1.(down := body.stream), p1.(got := prefix.got + body.got);
      var last := if body.ok then Finish(t) else Abort(t);
      if body.ok { FinishStep(servers, s, c, t, l2, p2); } else { AbortStep(servers, s, c, t, l2, p2); }
      RunStep(servers, start, first + second, last);
      assert r.stream == body.stream && (body.ok ==> r.result == Ok(p2.got)) && (!body.ok ==> r.result.Err?);
      assert ReceivesThen(servers, start, first + second + [last], t, LastStep(t, r.result),
                          Ended(s, c, t, l, call, key, r));
    }
  }

  // ---------------------------------------------------------------- the server

  /** The pipeline's view of what happened on a connection. */
  function Exchanges(log: seq<CM.Exchange>): (es: seq<Exchange>)
    ensures |es| == |log|
  {
    seq(|log|, i requires 0 <= i < |log| => Exchange(log[i].frame, log[i].call, CM.Answer(log[i])))
  }

  /** The pipeline's view of a connection: `up` and `down` are the bytes in flight. */
  function LinkOf(c: CM.ConnectionState, h: CM.History, up: seq<Byte>, down: seq<Byte>, asked: seq<Call>): (l: Link)
    requires c.sent <= |c.output|
  {
    Link(up, c.input, c.output[c.sent..], down, true, asked, Exchanges(h.log))
  }

  /** A state with one link replaced. */
  function WithLink(s: State, k: SocketId, l: Link): (s': State)
  {
    s.(links := s.links[k := l])
  }

  predicate ServerOn(step: Step, k: SocketId)
  {
    match step
    case ServerRecv(c, _) => c == k
    case ServerHandle(c, _) => c == k
    case ServerSend(c, _) => c == k
    case _ => false
  }

  lemma ServerStepApplies(servers: Servers, s: State, k: SocketId, l: Link, step: Step)
    requires ServerOn(step, k)
    ensures Apply(servers, WithLink(s, k, l), step)
         == (match ServerStep(servers, s.own, k, l, step)
             case None => None
             case Some(l') => Some(WithLink(s, k, l')))
  {
    hide ServerStep;
    var r := ServerStep(servers, s.own, k, l, step);
    if r.Some? { assert s.links[k := l][k := r.value] == s.links[k := r.value]; }
  }

  function Replies(es: seq<Exchange>): (b: seq<Byte>)
  {
    if es == [] then [] else es[0].reply + Replies(es[1..])
  }

  function HandleSteps(k: SocketId, es: seq<Exchange>): (steps: seq<Step>)
    ensures |steps| == |es|
  {
    seq(|es|, i requires 0 <= i < |es| => ServerHandle(k, es[i].outcome))
  }

  /** The exchanges are what dispatch makes of the frames. */
  predicate Dispatched(methods: CM.Methods, frames: seq<Frame>, es: seq<Exchange>)
  {
    && |es| == |frames|
    && forall i :: 0 <= i < |es| ==>
         && es[i].frame == frames[i] && Dispatcher.PayloadFits(es[i].outcome)
         && Dispatcher.OnFrame(methods, frames[i], es[i].outcome) == Some(es[i].reply)
  }

  lemma HandleFront(servers: Servers, s: State, k: SocketId, l: Link, f: Frame, tail: seq<Byte>, e: Exchange)
    requires l.serverOpen && k in s.own.sockets && ValidFrame(f) && l.input == f + tail
    requires e.frame == f && Dispatcher.PayloadFits(e.outcome)
    requires Dispatcher.OnFrame(MethodsAt(servers, s.own.sockets[k].home), f, e.outcome) == Some(e.reply)
    ensures Apply(servers, WithLink(s, k, l), ServerHandle(k, e.outcome))
         == Some(WithLink(s, k, l.(input := tail, output := l.output + e.reply, log := l.log + [e])))
  {
    hide Dispatcher.OnFrame, MethodsAt;
    ServerStepApplies(servers, s, k, l, ServerHandle(k, e.outcome));
    assert l.input[..4] == f[..4];
    assert GetU32(l.input) == GetU32(l.input[..4]) == GetU32(f[..4]) == GetU32(f);
    assert l.input[..|f|] == f && l.input[|f|..] == tail;
  }

  lemma DispatchedFront(methods: CM.Methods, f: Frame, frames: seq<Frame>, es: seq<Exchange>)
    requires Dispatched(methods, [f] + frames, es)
    ensures |es| > 0 && es[0].frame == f && Dispatcher.PayloadFits(es[0].outcome)
    ensures Dispatcher.OnFrame(methods, f, es[0].outcome) == Some(es[0].reply) && Dispatched(methods, frames, es[1..])
  {
    hide Dispatcher.OnFrame;
    assert ([f] + frames)[1..] == frames;
    forall i | 0 <= i < |frames| ensures ([f] + frames)[i + 1] == frames[i] {}
  }

  /** The link after the split loop. */
  function Processed(l: Link, rest: seq<Byte>, es: seq<Exchange>): (l': Link)
  {
    l.(input := rest, output := l.output + Replies(es), log := l.log + es)
  }

  lemma ProcessedMore(l: Link, tail: seq<Byte>, rest: seq<Byte>, es: seq<Exchange>)
    requires es != []
    ensures Processed(l.(input := tail, output := l.output + es[0].reply, log := l.log + [es[0]]), rest, es[1..])
         == Processed(l, rest, es)
  {
    assert (l.output + es[0].reply) + Replies(es[1..]) == l.output + Replies(es);
    assert (l.log + [es[0]]) + es[1..] == l.log + es;
  }

  lemma ProcessedNone(l: Link)
    ensures Processed(l, l.input, []) == l
  {
    assert l.output + Replies([]) == l.output && l.log + [] == l.log;
  }

  /** The split loop is a run of handles. */
  lemma {:induction false} HandleAll(servers: Servers, s: State, k: SocketId, l: Link, es: seq<Exchange>)
    requires l.serverOpen && k in s.own.sockets && Split(l.input).open
    requires Dispatched(MethodsAt(servers, s.own.sockets[k].home), Split(l.input).frames, es)
    ensures Run(servers, WithLink(s, k, l), HandleSteps(k, es))
         == Some(WithLink(s, k, Processed(l, Split(l.input).rest, es)))
    decreases |l.input|
  {
    hide Split, Run, Apply, WithLink, MethodsAt, Processed, Dispatched, ValidFrame, GetU32, LengthAccepted, HandleSteps;
    if |l.input| >= 4 && LengthAccepted(GetU32(l.input)) && |l.input| >= 4 + GetU32(l.input) {
      var f, tail := FrontFrame(l.input);
      DispatchedFront(MethodsAt(servers, s.own.sockets[k].home), f, Split(tail).frames, es);
      var e, rest := es[0], es[1..];
      HandleFront(servers, s, k, l, f, tail, e);
      var l' := l.(input := tail, output := l.output + e.reply, log := l.log + [e]);
      HandleAll(servers, s, k, l', rest);
      HandleStepsFront(k, es);
      RunFirst(servers, WithLink(s, k, l), ServerHandle(k, e.outcome), HandleSteps(k, rest));
      ProcessedMore(l, tail, Split(tail).rest, es);
    } else {
      NothingToHandle(l.input);
      DispatchedNone(MethodsAt(servers, s.own.sockets[k].home), es);
      HandleStepsNone(k);
      RunNone(servers, WithLink(s, k, l));
      ProcessedNone(l);
    }
  }

  lemma DispatchedNone(methods: CM.Methods, es: seq<Exchange>)
    requires Dispatched(methods, [], es)
    ensures es == []
  {
  }

  lemma HandleStepsNone(k: SocketId)
    ensures HandleSteps(k, []) == []
  {
  }

  lemma HandleStepsFront(k: SocketId, es: seq<Exchange>)
    requires es != []
    ensures HandleSteps(k, es) == [ServerHandle(k, es[0].outcome)] + HandleSteps(k, es[1..])
  {
  }

  lemma NothingToHandle(input: seq<Byte>)
    requires Split(input).open
    requires !(|input| >= 4 && LengthAccepted(GetU32(input)) && |input| >= 4 + GetU32(input))
    ensures Split(input) == Outcome([], input, true)
  {
  }

  // ---------------------------------------------------------------- events

  /** What an event adds to the log. */
  function News(h: CM.History, h': CM.History): (log: seq<CM.Exchange>)
    requires h.log <= h'.log
  {
    h'.log[|h.log|..]
  }

  lemma ExchangesAppend(a: seq<CM.Exchange>, b: seq<CM.Exchange>)
    ensures Exchanges(a + b) == Exchanges(a) + Exchanges(b)
  {
  }

  /** The frames that an event logs are those that the splitter finds in the buffer with the new bytes. */
  lemma NewFrames(c: CM.ConnectionState, h: CM.History, c': CM.ConnectionState, h': CM.History, bytes: seq<Byte>)
    requires CM.InputOk(c, h) && Settled(c.input) && CM.InputOk(c', h') && Settled(c'.input)
    requires h.log <= h'.log && h'.received == h.received + bytes
    ensures Split(c.input + bytes) == Outcome(CM.Frames(News(h, h')), c'.input, true)
  {
    CM.InputGrows(c, h, bytes);
    var before, news := CM.Frames(h.log), CM.Frames(News(h, h'));
    assert CM.Frames(h'.log) == before + news;
    var o := Split(c.input + bytes);
    assert Prepend(before, o) == Prepend(before + news, Outcome([], c'.input, true));
    assert before + o.frames == (before + news) + [];
    assert o.frames == (before + o.frames)[|before|..] == news;
  }

  lemma {:induction false} RepliesAre(log: seq<CM.Exchange>)
    ensures Replies(Exchanges(log)) == CM.Sent(log)
  {
    if log != [] {
      RepliesAre(log[1..]);
      assert Exchanges(log)[1..] == Exchanges(log[1..]) && CM.Answers(log)[1..] == CM.Answers(log[1..]);
    }
  }

  lemma SentAppend(a: seq<CM.Exchange>, b: seq<CM.Exchange>)
    ensures CM.Sent(a + b) == CM.Sent(a) + CM.Sent(b)
  {
    assert CM.Answers(a + b) == CM.Answers(a) + CM.Answers(b);
    ConcatAppend(CM.Answers(a), CM.Answers(b));
  }

  /** The bytes that an event puts on the wire come off the front of the old tail and the new answers. */
  lemma NewBytes(c: CM.ConnectionState, h: CM.History, c': CM.ConnectionState, h': CM.History)
    requires CM.OutputOk(c, h) && CM.OutputOk(c', h') && CM.Grows(h, h')
    ensures c.output[c.sent..] + Replies(Exchanges(News(h, h')))
         == h'.wire[|h.wire|..] + c'.output[c'.sent..]
  {
    var news := News(h, h');
    assert h'.log == h.log + news;
    SentAppend(h.log, news);
    RepliesAre(news);
    var all := CM.Sent(h'.log);
    assert h'.wire == h.wire + h'.wire[|h.wire|..];
    assert all == h.wire + (c.output[c.sent..] + CM.Sent(news));
    assert all == h.wire + (h'.wire[|h.wire|..] + c'.output[c'.sent..]);
    assert all[|h.wire|..] == c.output[c.sent..] + CM.Sent(news);
  }

  lemma NewsDispatched(methods: CM.Methods, h: CM.History, h': CM.History)
    requires h.log <= h'.log && CM.Served(methods, h'.log)
    requires forall e :: e in News(h, h') ==> Dispatcher.PayloadFits(e.call)
    ensures Dispatched(methods, CM.Frames(News(h, h')), Exchanges(News(h, h')))
  {
    hide Dispatcher.OnFrame;
    var news := News(h, h');
    forall i | 0 <= i < |news|
      ensures Dispatcher.PayloadFits(news[i].call)
      ensures Dispatcher.OnFrame(methods, news[i].frame, news[i].call) == Some(CM.Answer(news[i]))
    {
      assert news[i] in news && h'.log[|h.log| + i] == news[i];
      Dispatcher.ExactlyOneAnswer(methods, news[i].frame, news[i].call);
    }
  }

  /** The steps of an event: receive what arrived, handle the frames that are now complete, send what the kernel
      took. */
  function EventSteps(k: SocketId, bytes: nat, es: seq<Exchange>, wire: nat): (steps: seq<Step>)
  {
    [ServerRecv(k, bytes)] + (HandleSteps(k, es) + [ServerSend(k, wire)])
  }

  /** An event on a connection is a run of the step system, whatever the system calls did in it: from the pipeline's
      view of the connection before, its steps lead to the view after. */
  lemma EventIsRun(servers: Servers, s: State, k: SocketId, c: CM.ConnectionState, h: CM.History,
                   i: CM.Interest, c': CM.ConnectionState, h': CM.History, i': CM.Interest, bytes: seq<Byte>,
                   up: seq<Byte>, down: seq<Byte>, asked: seq<Call>)
    requires k in s.own.sockets && CM.ConnectionOk(c, h, i) && CM.ConnectionOk(c', h', i')
    requires CM.Grows(h, h') && h'.received == h.received + bytes
    requires CM.Served(MethodsAt(servers, s.own.sockets[k].home), h'.log)
    requires forall e :: e in News(h, h') ==> Dispatcher.PayloadFits(e.call)
    ensures var wire := h'.wire[|h.wire|..];
            Run(servers, WithLink(s, k, LinkOf(c, h, bytes + up, down, asked)),
                EventSteps(k, |bytes|, Exchanges(News(h, h')), |wire|))
              == Some(WithLink(s, k, LinkOf(c', h', up, down + wire, asked)))
  {
    hide CM.Served, CM.InputOk, CM.OutputOk, Settled, Split, Run, Apply, Dispatched, MethodsAt, CM.InterestOk, Replies;
    var es, wire := Exchanges(News(h, h')), h'.wire[|h.wire|..];
    NewFrames(c, h, c', h', bytes);
    NewBytes(c, h, c', h');
    NewsDispatched(MethodsAt(servers, s.own.sockets[k].home), h, h');
    SentBounds(c, h);
    SentBounds(c', h');
    assert h'.log == h.log + News(h, h');
    ExchangesAppend(h.log, News(h, h'));
    var l0 := LinkOf(c, h, bytes + up, down, asked);
    var l1 := l0.(up := up, input := c.input + bytes);
    ReceiveStep(servers, s, k, l0, bytes, up);
    HandleAll(servers, s, k, l1, es);
    var l2 := Processed(l1, c'.input, es);
    var l3 := LinkOf(c', h', up, down + wire, asked);
    FlushStep(servers, s, k, l2, wire, c'.output[c'.sent..]);
    assert l2.(output := c'.output[c'.sent..], down := down + wire) == l3;
    hide WithLink, LinkOf, Processed, HandleSteps;
    RunStep(servers, WithLink(s, k, l1), HandleSteps(k, es), ServerSend(k, |wire|));
    RunFirst(servers, WithLink(s, k, l0), ServerRecv(k, |bytes|), HandleSteps(k, es) + [ServerSend(k, |wire|)]);
  }

  lemma SentBounds(c: CM.ConnectionState, h: CM.History)
    requires CM.OutputOk(c, h)
    ensures c.sent <= |c.output|
  {
  }

  lemma ReceiveStep(servers: Servers, s: State, k: SocketId, l: Link, bytes: seq<Byte>, up: seq<Byte>)
    requires l.serverOpen && l.up == bytes + up
    ensures Apply(servers, WithLink(s, k, l), ServerRecv(k, |bytes|))
         == Some(WithLink(s, k, l.(up := up, input := l.input + bytes)))
  {
    ServerStepApplies(servers, s, k, l, ServerRecv(k, |bytes|));
    assert l.up[|bytes|..] == up && l.up[..|bytes|] == bytes;
  }

  lemma FlushStep(servers: Servers, s: State, k: SocketId, l: Link, wire: seq<Byte>, tail: seq<Byte>)
    requires l.serverOpen && l.output == wire + tail
    ensures Apply(servers, WithLink(s, k, l), ServerSend(k, |wire|))
         == Some(WithLink(s, k, l.(output := tail, down := l.down + wire)))
  {
    ServerStepApplies(servers, s, k, l, ServerSend(k, |wire|));
    assert l.output[|wire|..] == tail && l.output[..|wire|] == wire;
  }

  /** So every reactor event that leaves its connection open is one: what `Dispatch` and `HandleReadable` ensure is what
      is required here. */
  twostate lemma ReactorEventIsRun(m: CM.ConnectionManager, fd: int, servers: Servers, s: State,
                                   k: SocketId, bytes: seq<Byte>, up: seq<Byte>, down: seq<Byte>,
                                   asked: seq<Call>)
    requires old(m.Valid()) && m.Valid() && m.OnlyTouched(fd) && fd in old(m.connections) && fd in m.connections
    requires k in s.own.sockets && MethodsAt(servers, s.own.sockets[k].home) == m.methods
    requires m.history[fd].received == old(m.history[fd]).received + bytes
    requires forall e :: e in News(old(m.history[fd]), m.history[fd]) ==> Dispatcher.PayloadFits(e.call)
    ensures var h, h' := old(m.history[fd]), m.history[fd];
            var wire := h'.wire[|h.wire|..];
            Run(servers, WithLink(s, k, LinkOf(old(m.connections[fd]), h, bytes + up, down, asked)),
                EventSteps(k, |bytes|, Exchanges(News(h, h')), |wire|))
              == Some(WithLink(s, k, LinkOf(m.connections[fd], h', up, down + wire, asked)))
  {
    hide CM.ConnectionOk, CM.Served, Run, EventSteps, LinkOf, Exchanges, MethodsAt;
    EventIsRun(servers, s, k, old(m.connections[fd]), old(m.history[fd]), old(m.handlers[fd]), m.connections[fd],
               m.history[fd], m.handlers[fd], bytes, up, down, asked);
  }
}

/** The server's connection table, with the dispatcher as its frame handler: byte buffers in place, frames in, answers
    out. */
module ConnectionManager {
  import opened Bytes
  import opened Framing
  import Dispatcher
  import Registry

  // Results that the kernel gives to one system call. A script that runs out stands for EAGAIN.
  datatype RecvResult = Received(bytes: seq<Byte>) | EndOfStream | RecvInterrupted | RecvAgain | RecvFailed
  datatype SendResult = Wrote(count: nat) | SendInterrupted | SendAgain | SendFailed
  datatype AcceptResult = Accepted(fd: int, nonBlocking: bool) | AcceptInterrupted | AcceptStopped

  // How a flush ends: everything sent, the kernel full, or the connection unusable.
  datatype Verdict = Drained | Blocked | Broken

  datatype Interest = ReadOnly | ReadWrite

  datatype ConnectionState = ConnectionState(input: seq<Byte>, output: seq<Byte>, sent: nat)

  type Methods = map<Registry.Name, Registry.Registered>

  /** A delivered frame, what the services would do with a call at that moment, and the frame that the handler passed to
      `Send`, if any. */
  datatype Exchange = Exchange(frame: Frame, call: Dispatcher.Services, reply: Option<Frame>)

  /** Everything that happened on a connection: bytes received, frames handled, bytes put on the wire. */
  datatype History = History(received: seq<Byte>, log: seq<Exchange>, wire: seq<Byte>)

  predicate Grows(h: History, h': History)
  {
    h.received <= h'.received && h.log <= h'.log && h.wire <= h'.wire
  }

  const FRESH: ConnectionState := ConnectionState([], [], 0)
  const NOTHING: History := History([], [], [])

  function Frames(log: seq<Exchange>): (fs: seq<Frame>)
    ensures |fs| == |log|
  {
    seq(|log|, i requires 0 <= i < |log| => log[i].frame)
  }

  function Answer(e: Exchange): (b: seq<Byte>)
  {
    match e.reply case None => [] case Some(reply) => reply
  }

  function Answers(log: seq<Exchange>): (bs: seq<seq<Byte>>)
    ensures |bs| == |log|
  {
    seq(|log|, i requires 0 <= i < |log| => Answer(log[i]))
  }

  /** All bytes ever handed to `Send` on a connection. */
  function Sent(log: seq<Exchange>): (b: seq<Byte>)
  {
    Concat(Answers(log))
  }

  /** The bytes on the wire followed by the unsent tail are the answers to the frames handled. */
  ghost predicate OutputOk(c: ConnectionState, h: History)
  {
    c.sent <= |c.output| && h.wire + c.output[c.sent..] == Sent(h.log)
  }

  ghost predicate InterestOk(c: ConnectionState, i: Interest)
  {
    i == ReadWrite <==> c.sent < |c.output|
  }

  /** The frames handled followed by what is still in the buffer are the received stream. */
  ghost predicate InputOk(c: ConnectionState, h: History)
  {
    Split(h.received) == Prepend(Frames(h.log), Split(c.input))
  }

  /** Every logged reply is what `OnFrame` sends for its frame. */
  predicate Served(methods: Methods, log: seq<Exchange>)
  {
    forall i :: 0 <= i < |log| ==> log[i].reply == Dispatcher.OnFrame(methods, log[i].frame, log[i].call)
  }

  ghost predicate ConnectionOk(c: ConnectionState, h: History, i: Interest)
  {
    OutputOk(c, h) && InterestOk(c, i) && InputOk(c, h) && Settled(c.input)
  }

  lemma SentSnoc(log: seq<Exchange>, e: Exchange)
    ensures Sent(log + [e]) == Sent(log) + Answer(e)
  {
    assert Answers(log + [e]) == Answers(log) + [Answer(e)];
    ConcatSnoc(Answers(log), Answer(e));
  }

  lemma OutputGrows(c: ConnectionState, h: History, e: Exchange, reply: Frame)
    requires e.reply == Some(reply)
    requires |h.log| > 0 && h.log[|h.log| - 1] == e
    requires OutputOk(c, h.(log := h.log[..|h.log| - 1]))
    ensures OutputOk(c.(output := c.output + reply), h)
  {
    var front := h.log[..|h.log| - 1];
    SentSnoc(front, e);
    assert front + [e] == h.log;
    assert (c.output + reply)[c.sent..] == c.output[c.sent..] + reply;
    assert h.wire + (c.output[c.sent..] + reply) == (h.wire + c.output[c.sent..]) + reply;
  }

  lemma SilentRun(c: ConnectionState, h: History, e: Exchange)
    requires OutputOk(c, h) && e.reply == None
    ensures OutputOk(c, h.(log := h.log + [e]))
  {
    SentSnoc(h.log, e);
    assert Sent(h.log) + [] == Sent(h.log);
  }

  lemma WireStep(c: ConnectionState, h: History, n: nat)
    requires OutputOk(c, h) && c.sent + n <= |c.output|
    ensures OutputOk(c.(sent := c.sent + n), h.(wire := h.wire + c.output[c.sent..c.sent + n]))
  {
    assert c.output[c.sent..] == c.output[c.sent..c.sent + n] + c.output[c.sent + n..];
  }

  /** Moving the front frame from the buffer to the log keeps the input relation. */
  lemma InputStep(c: ConnectionState, h: History, call: Dispatcher.Services, reply: Option<Frame>)
    requires InputOk(c, h)
    requires |c.input| >= 4 && LengthAccepted(GetU32(c.input)) && |c.input| >= 4 + GetU32(c.input)
    ensures var n := 4 + GetU32(c.input);
            InputOk(c.(input := c.input[n..]), h.(log := h.log + [Exchange(c.input[..n], call, reply)]))
  {
    hide Split, Prepend, GetU32, LengthAccepted;
    var n := 4 + GetU32(c.input);
    SplitOpen(c.input);
    PrependTwice(Frames(h.log), [c.input[..n]], Split(c.input[n..]));
    FramesSnoc(h.log, Exchange(c.input[..n], call, reply));
  }

  lemma FramesSnoc(log: seq<Exchange>, e: Exchange)
    ensures Frames(log + [e]) == Frames(log) + [e.frame]
  {
  }

  /** The output relation does not mention the input side. */
  lemma OutputKept(c: ConnectionState, h: History, input: seq<Byte>, received: seq<Byte>)
    requires OutputOk(c, h)
    ensures OutputOk(c.(input := input), h.(received := received))
  {
  }

  lemma InterestKept(c: ConnectionState, i: Interest, input: seq<Byte>)
    requires InterestOk(c, i)
    ensures InterestOk(c.(input := input), i)
  {
  }

  lemma BadLength(c: ConnectionState, h: History)
    requires InputOk(c, h) && |c.input| >= 4 && !LengthAccepted(GetU32(c.input))
    ensures !Split(h.received).open
  {
  }

  lemma InputSettled(c: ConnectionState, h: History)
    requires InputOk(c, h)
    requires |c.input| < 4 || (LengthAccepted(GetU32(c.input)) && |c.input| < 4 + GetU32(c.input))
    ensures Settled(c.input) && Split(h.received).open
  {
  }

  /** The input relation depends only on the buffer, the stream and the frames. */
  lemma InputIs(c: ConnectionState, h: History, c': ConnectionState, h': History)
    requires InputOk(c, h) && c'.input == c.input && h'.received == h.received && h'.log == h.log
    ensures InputOk(c', h')
  {
  }

  /** Bytes appended to the buffer are bytes appended to the received stream. */
  lemma InputGrows(c: ConnectionState, h: History, more: seq<Byte>)
    requires InputOk(c, h) && Settled(c.input)
    ensures InputOk(c.(input := c.input + more), h.(received := h.received + more))
  {
    SplitAppend(h.received, more);
    assert Frames(h.log) + [] == Frames(h.log);
  }

  /** The bytes that one readable event delivers; None when the event ends the connection. */
  function EventBytes(script: seq<RecvResult>): (b: Option<seq<Byte>>)
  {
    if script == [] || script[0].RecvAgain? then Some([])
    else if script[0].EndOfStream? || script[0].RecvFailed? then None
    else
      var chunk := if script[0].Received? then script[0].bytes else [];
      match EventBytes(script[1..])
      case None => None
      case Some(rest) => Some(chunk + rest)
  }

  /** The bytes of receive results. */
  function Chunks(results: seq<RecvResult>): (b: seq<Byte>)
  {
    if results == [] then []
    else (if results[0].Received? then results[0].bytes else []) + Chunks(results[1..])
  }

  /** An event delivers everything received up to EAGAIN, interruptions aside, and nothing when the stream ends or fails
      before that. */
  lemma {:induction false} EventBytesAre(front: seq<RecvResult>, rest: seq<RecvResult>)
    requires forall i :: 0 <= i < |front| ==> front[i].Received? || front[i].RecvInterrupted?
    requires rest == [] || rest[0].RecvAgain? || rest[0].EndOfStream? || rest[0].RecvFailed?
    ensures EventBytes(front + rest)
         == (if rest == [] || rest[0].RecvAgain? then Some(Chunks(front)) else None)
  {
    if front == [] {
      assert front + rest == rest;
    } else {
      assert (front + rest)[1..] == front[1..] + rest;
      EventBytesAre(front[1..], rest);
    }
  }

  predicate NoSendFails(sends: seq<SendResult>)
  {
    forall i :: 0 <= i < |sends| ==> !sends[i].SendFailed? && sends[i] != Wrote(0)
  }

  /** The accepts that one event sees. */
  function BeforeStop(script: seq<AcceptResult>): (r: seq<AcceptResult>)
  {
    if script == [] || script[0].AcceptStopped? then [] else [script[0]] + BeforeStop(script[1..])
  }

  /** An open connection's descriptor is not handed out again. */
  predicate Disjoint(accepts: seq<AcceptResult>)
  {
    forall i, j :: 0 <= i < j < |accepts| && accepts[i].Accepted? && accepts[i].nonBlocking && accepts[j].Accepted? ==>
                     accepts[i].fd != accepts[j].fd
  }

  lemma FrontAccept(seen: seq<AcceptResult>, rest: seq<AcceptResult>, all: seq<AcceptResult>)
    requires rest != [] && !rest[0].AcceptStopped? && seen + BeforeStop(rest) == all && Disjoint(all)
    ensures rest[0] in all && (seen + [rest[0]]) + BeforeStop(rest[1..]) == all
    ensures rest[0].Accepted? ==> Accepted(rest[0].fd, true) !in seen
  {
    hide Disjoint;
    assert seen + ([rest[0]] + BeforeStop(rest[1..])) == (seen + [rest[0]]) + BeforeStop(rest[1..]);
    assert all[|seen|] == rest[0];
    hide BeforeStop;
    if rest[0].Accepted? { NotSeen(seen, rest[0], BeforeStop(rest[1..])); }
  }

  lemma NotSeen(seen: seq<AcceptResult>, a: AcceptResult, tail: seq<AcceptResult>)
    requires a.Accepted? && Disjoint((seen + [a]) + tail)
    ensures Accepted(a.fd, true) !in seen
  {
    var all := (seen + [a]) + tail;
    assert all[|seen|] == a;
    forall i | 0 <= i < |seen|
      ensures seen[i] != Accepted(a.fd, true)
    {
      assert all[i] == seen[i];
    }
  }

  /** What the services would do at the next dispatch. */
  function NextCall(calls: seq<Dispatcher.Services>): (call: Dispatcher.Services)
  {
    if calls == [] then map[] else calls[0]
  }

  /** The exchange that handling a frame produces. */
  function Handled(methods: Methods, frame: Frame, calls: seq<Dispatcher.Services>): (e: Exchange)
  {
    Exchange(frame, NextCall(calls), Dispatcher.OnFrame(methods, frame, NextCall(calls)))
  }

  lemma ServedMore(methods: Methods, log: seq<Exchange>, frame: Frame, calls: seq<Dispatcher.Services>)
    requires Served(methods, log)
    ensures Served(methods, log + [Handled(methods, frame, calls)])
  {
  }

  // ---------------------------------------------------------------- what the kernel takes

  /** How many bytes the coming `send` calls take before one of them ends the flush. */
  function Taken(sends: seq<SendResult>): (n: nat)
  {
    if sends == [] then 0
    else
      match sends[0]
      case SendInterrupted => Taken(sends[1..])
      case SendAgain => 0
      case SendFailed => 0
      case Wrote(count) => if count == 0 then 0 else count + Taken(sends[1..])
  }

  /** The call that ends it is a failure or a zero write. */
  predicate Fails(sends: seq<SendResult>)
  {
    sends != [] &&
    match sends[0]
    case SendInterrupted => Fails(sends[1..])
    case SendAgain => false
    case SendFailed => true
    case Wrote(count) => count == 0 || Fails(sends[1..])
  }

  function Least(a: nat, b: nat): (m: nat)
    ensures m <= a && m <= b && (m == a || m == b)
  {
    if a <= b then a else b
  }

  /** The calls left after a flush of `unsent` bytes. */
  function Unused(sends: seq<SendResult>, unsent: nat): (rest: seq<SendResult>)
    decreases |sends|
  {
    if unsent == 0 || sends == [] then sends
    else
      match sends[0]
      case SendInterrupted => Unused(sends[1..], unsent)
      case SendAgain => sends[1..]
      case SendFailed => sends[1..]
      case Wrote(count) => if count == 0 then sends[1..] else Unused(sends[1..], unsent - Least(count, unsent))
  }

  /** The bytes that a flush of this connection puts on the wire. */
  function Sendable(c: ConnectionState, sends: seq<SendResult>): (b: seq<Byte>)
    requires c.sent <= |c.output|
  {
    c.output[c.sent..][..Least(|c.output| - c.sent, Taken(sends))]
  }

  lemma NoFailures(sends: seq<SendResult>)
    requires NoSendFails(sends)
    ensures !Fails(sends)
  {
    if sends != [] { NoFailures(sends[1..]); }
  }

  /** One turn of the flush loop. */
  lemma TakenUnfolds(sends: seq<SendResult>, unsent: nat)
    requires sends != [] && unsent > 0
    ensures match sends[0]
            case SendInterrupted =>
              && Taken(sends) == Taken(sends[1..]) && Fails(sends) == Fails(sends[1..])
              && Unused(sends, unsent) == Unused(sends[1..], unsent)
            case SendAgain => Taken(sends) == 0 && !Fails(sends) && Unused(sends, unsent) == sends[1..]
            case SendFailed => Taken(sends) == 0 && Fails(sends) && Unused(sends, unsent) == sends[1..]
            case Wrote(count) =>
              if count == 0 then Taken(sends) == 0 && Fails(sends) && Unused(sends, unsent) == sends[1..]
              else
                && Taken(sends) == count + Taken(sends[1..]) && Fails(sends) == Fails(sends[1..])
                && Unused(sends, unsent) == Unused(sends[1..], unsent - Least(count, unsent))
  {
  }

  lemma Further(wire: seq<Byte>, output: seq<Byte>, start: nat, sent: nat, n: nat)
    requires start <= sent && sent + n <= |output|
    ensures (wire + output[start..][..sent - start]) + output[sent..sent + n]
         == wire + output[start..][..sent + n - start]
  {
    var unsent, done := output[start..], sent - start;
    assert unsent[..done] + output[sent..sent + n] == unsent[..done + n];
    assert (wire + unsent[..done]) + output[sent..sent + n] == wire + (unsent[..done] + output[sent..sent + n]);
  }

  lemma NothingTaken(left: nat)
    ensures Taken([]) == 0 && !Fails([]) && Unused([], left) == []
  {
  }

  lemma UnusedNone(sends: seq<SendResult>)
    ensures Unused(sends, 0) == sends
  {
  }

  lemma OutputBounds(c: ConnectionState, h: History)
    requires OutputOk(c, h)
    ensures c.sent <= |c.output|
  {
  }

  lemma FlushedAll(c: ConnectionState, h: History)
    requires OutputOk(c, h) && c.sent == |c.output|
    ensures OutputOk(ConnectionState(c.input, [], 0), h)
  {
    assert c.output[c.sent..] == [];
  }

  class ConnectionManager {
    var connections: map<int, ConnectionState>
    // The reactor's handler table: every registered descriptor with the events it asked for.
    var handlers: map<int, Interest>
    var listenFd: int
    // The registry is filled before the server runs.
    const methods: Methods
    // The results of the `send` calls still to come, and what the services would do at the coming dispatches.
    var sends: seq<SendResult>
    var calls: seq<Dispatcher.Services>
    ghost var history: map<int, History>

    /** The handler keys are the live connections plus the listening descriptor. */
    ghost predicate Shape()
      reads this
    {
      && handlers.Keys == connections.Keys + (if listenFd >= 0 then {listenFd} else {})
      && history.Keys == connections.Keys
      && listenFd !in connections
      && forall fd :: fd in connections ==> fd >= 0
    }

    ghost predicate OthersOk(except: int)
      reads this
    {
      && Shape()
      && forall fd :: fd in connections && fd != except ==>
                        ConnectionOk(connections[fd], history[fd], handlers[fd]) && Served(methods, history[fd].log)
    }

    ghost predicate Valid()
      reads this
    {
      && Shape()
      && forall fd :: fd in connections ==>
                        ConnectionOk(connections[fd], history[fd], handlers[fd]) && Served(methods, history[fd].log)
    }

    /** Between two frames of one buffer: as Valid, but the buffer may still hold frames. */
    ghost predicate Working(fd: int)
      reads this
    {
      && OthersOk(fd)
      && (fd in connections ==>
            && OutputOk(connections[fd], history[fd])
            && InterestOk(connections[fd], handlers[fd])
            && InputOk(connections[fd], history[fd])
            && Served(methods, history[fd].log))
    }

    /** Nothing about any other descriptor changed, and nothing that happened on this one is undone. */
    twostate predicate OnlyTouched(fd: int)
      reads this
    {
      && connections - {fd} == old(connections) - {fd}
      && handlers - {fd} == old(handlers) - {fd}
      && history - {fd} == old(history) - {fd}
      && (fd in connections ==> fd in old(connections))
      && (fd in history ==> fd in old(history) && Grows(old(history)[fd], history[fd]))
      && listenFd == old(listenFd)
    }

    /** The connection, when its buffers are `c`, was flushed as far as the kernel takes, and lives unless a send
        failed. */
    twostate predicate Flushed(fd: int, c: ConnectionState)
      reads this
    {
      && c.sent <= |c.output| && fd in old(history)
      && sends == Unused(old(sends), |c.output| - c.sent)
      && (fd in connections <==> |c.output| - c.sent <= Taken(old(sends)) || !Fails(old(sends)))
      && (fd in connections ==>
            fd in history && history[fd].wire == old(history)[fd].wire + Sendable(c, old(sends)))
    }

    constructor (methods: Methods)
      ensures Valid() && connections == map[] && listenFd == -1 && this.methods == methods
    {
      this.methods := methods;
      connections, handlers, history := map[], map[], map[];
      listenFd, sends, calls := -1, [], [];
    }

    /** Registers the listening descriptor. */
    method Listen(fd: int)
      requires Valid() && listenFd == -1 && fd >= 0 && fd !in connections
      modifies this
      ensures Valid() && listenFd == fd && connections == old(connections) && history == old(history)
    {
      listenFd := fd;
      handlers := handlers[fd := ReadOnly];
    }

    method Close(fd: int)
      requires Shape()
      modifies this
      ensures Shape() && fd !in handlers && fd !in connections
      ensures connections == old(connections) - {fd}
      ensures handlers == old(handlers) - {fd}
      ensures history == old(history) - {fd}
      ensures listenFd == (if fd == old(listenFd) then -1 else old(listenFd))
      ensures sends == old(sends) && calls == old(calls)
    {
      if fd == listenFd {
        handlers := handlers - {fd};
        listenFd := -1;
        return;
      }
      if fd !in connections { return; }
      handlers := handlers - {fd};
      connections := connections - {fd};
      history := history - {fd};
    }

    /** Flushes as much as the kernel takes; afterwards write interest is set exactly when bytes remain. */
    method HandleWritable(fd: int)
      requires OthersOk(fd)
      requires fd in connections ==> OutputOk(connections[fd], history[fd])
      modifies this
      ensures OthersOk(fd) && OnlyTouched(fd) && calls == old(calls)
      ensures fd in connections ==>
                && OutputOk(connections[fd], history[fd])
                && InterestOk(connections[fd], handlers[fd])
                && connections[fd].input == old(connections[fd].input)
                && history[fd].received == old(history[fd].received)
                && history[fd].log == old(history[fd].log)
      ensures fd in old(connections) ==> Flushed(fd, old(connections[fd]))
      ensures NoSendFails(old(sends)) ==> NoSendFails(sends) && (fd in old(connections) ==> fd in connections)
    {
      hide Split, OutputOk, ConnectionOk, Taken, Fails, Unused;
      if fd !in connections { return; }
      OutputBounds(connections[fd], history[fd]);
      var state, verdict;
      ghost var h;
      state, h, verdict := Flush(connections[fd], history[fd]);
      if verdict == Broken {
        Close(fd);
        return;
      }
      Store(fd, state, h, if verdict == Blocked then ReadWrite else ReadOnly);
    }

    method Store(fd: int, state: ConnectionState, ghost h: History, interest: Interest)
      requires OthersOk(fd) && fd in connections && Grows(history[fd], h)
      modifies this`connections, this`handlers, this`history
      ensures OthersOk(fd) && OnlyTouched(fd)
      ensures fd in connections && connections[fd] == state && history[fd] == h && handlers[fd] == interest
    {
      hide ConnectionOk;
      PutKeeps(connections, fd, state);
      PutKeeps(history, fd, h);
      PutKeeps(handlers, fd, interest);
      connections := connections[fd := state];
      history := history[fd := h];
      handlers := handlers[fd := interest];
    }

    /** The send loop on one connection's buffer: exactly as much goes out as the kernel takes. */
    method Flush(before: ConnectionState, ghost h: History)
      returns (state: ConnectionState, ghost h': History, verdict: Verdict)
      requires OutputOk(before, h)
      modifies this`sends
      ensures OutputOk(state, h') && state.input == before.input && before.sent <= |before.output|
      ensures var unsent := before.output[before.sent..];
              && h' == h.(wire := h.wire + unsent[..Least(|unsent|, Taken(old(sends)))])
              && (verdict == Drained <==> |unsent| <= Taken(old(sends)))
              && (verdict == Broken <==> |unsent| > Taken(old(sends)) && Fails(old(sends)))
              && sends == Unused(old(sends), |unsent|)
      ensures verdict == Drained ==> state.output == [] && state.sent == 0
      ensures verdict == Blocked ==> state.sent < |state.output|
      ensures NoSendFails(old(sends)) ==> NoSendFails(sends) && verdict != Broken
    {
      hide Taken, Fails, Unused, OutputOk;
      OutputBounds(before, h);
      state, h' := before, h;
      ghost var unsent := before.output[before.sent..];
      assert h.wire + unsent[..0] == h.wire;
      if NoSendFails(sends) { NoFailures(sends); }
      while state.sent < |state.output|
        invariant before.sent <= state.sent <= |state.output| && OutputOk(state, h')
        invariant state == before.(sent := state.sent)
        invariant h' == h.(wire := h.wire + unsent[..state.sent - before.sent])
        invariant var left := |state.output| - state.sent;
                  && Least(|unsent|, Taken(old(sends))) == state.sent - before.sent + Least(left, Taken(sends))
                  && (|unsent| <= Taken(old(sends)) <==> left <= Taken(sends))
                  && Fails(old(sends)) == Fails(sends) && Unused(old(sends), |unsent|) == Unused(sends, left)
        invariant NoSendFails(old(sends)) ==> NoSendFails(sends)
        decreases |sends|
      {
        ghost var left := |state.output| - state.sent;
        if sends == [] {
          NothingTaken(left);
          return state, h', Blocked;
        }
        TakenUnfolds(sends, left);
        var written := sends[0];
        sends := sends[1..];
        if written.SendInterrupted? { continue; }
        if written.SendAgain? { return state, h', Blocked; }
        if written.SendFailed? || written == Wrote(0) { return state, h', Broken; }
        var n := Least(written.count, |state.output| - state.sent);
        WireStep(state, h', n);
        Further(h.wire, before.output, before.sent, state.sent, n);
        h' := h'.(wire := h'.wire + state.output[state.sent..state.sent + n]);
        state := state.(sent := state.sent + n);
      }
      FlushedAll(state, h');
      UnusedNone(sends);
      return ConnectionState(state.input, [], 0), h', Drained;
    }

    /** Appends a frame to the output and flushes. `e` is the exchange that the frame answers. */
    method Send(fd: int, frame: Frame, ghost e: Exchange)
      requires OthersOk(fd)
      requires e.reply == Some(frame)
      requires fd in connections ==>
                 && |history[fd].log| > 0 && history[fd].log[|history[fd].log| - 1] == e
                 && OutputOk(connections[fd], history[fd].(log := history[fd].log[..|history[fd].log| - 1]))
      modifies this
      ensures OthersOk(fd) && OnlyTouched(fd) && calls == old(calls)
      ensures fd in connections ==>
                && OutputOk(connections[fd], history[fd])
                && InterestOk(connections[fd], handlers[fd])
                && connections[fd].input == old(connections[fd].input)
                && history[fd].received == old(history[fd].received)
                && history[fd].log == old(history[fd].log)
      ensures fd in old(connections) ==>
                Flushed(fd, old(connections[fd]).(output := old(connections[fd]).output + frame))
      ensures NoSendFails(old(sends)) ==> NoSendFails(sends) && (fd in old(connections) ==> fd in connections)
    {
      hide Split, OutputOk, ConnectionOk, InterestOk, Taken, Fails, Unused, Sendable;
      if fd !in connections { return; }
      var state := connections[fd];
      ghost var log := history[fd].log;
      OutputGrows(state, history[fd], e, frame);
      assert log[..|log| - 1] + [e] == log;
      connections := connections[fd := state.(output := state.output + frame)];
      handlers := handlers[fd := ReadWrite];
      HandleWritable(fd);
    }

    /** Runs the dispatcher on a frame and sends its answer. */
    method RunHandler(fd: int, frame: Frame)
      requires OthersOk(fd)
      requires fd in connections ==>
                 OutputOk(connections[fd], history[fd]) && InterestOk(connections[fd], handlers[fd])
      modifies this
      ensures OthersOk(fd) && OnlyTouched(fd)
      ensures calls == (if old(calls) == [] then [] else old(calls)[1..])
      ensures fd in connections ==>
                && OutputOk(connections[fd], history[fd])
                && InterestOk(connections[fd], handlers[fd])
                && connections[fd].input == old(connections[fd].input)
                && history[fd].received == old(history[fd].received)
                && history[fd].log == old(history[fd].log) + [Handled(methods, frame, old(calls))]
                && (old(calls) != [] ==> history[fd].log[|old(history[fd].log)|].call == old(calls)[0])
      ensures fd in old(connections) && Handled(methods, frame, old(calls)).reply.Some? ==>
                var reply := Handled(methods, frame, old(calls)).reply.value;
                Flushed(fd, old(connections[fd]).(output := old(connections[fd]).output + reply))
      ensures NoSendFails(old(sends)) ==> NoSendFails(sends) && (fd in old(connections) ==> fd in connections)
    {
      hide OutputOk, ConnectionOk, InterestOk, Dispatcher.OnFrame, Served, Taken, Fails, Unused, Sendable;
      if fd in connections { OutputBounds(connections[fd], history[fd]); }
      ghost var e := Handled(methods, frame, calls);
      var reply := Dispatcher.OnFrame(methods, frame, NextCall(calls));
      calls := if calls == [] then [] else calls[1..];
      if fd in connections {
        ghost var h := history[fd];
        if reply == None { SilentRun(connections[fd], h, e); }
        history := history[fd := h.(log := h.log + [e])];
        assert h.(log := (h.log + [e])[..|h.log|]) == h;
      }
      if reply.Some? {
        Send(fd, reply.value, e);
      }
    }

    /** Takes every complete frame out of the buffer. The source keeps a reference into the connection across
        the handler call; here the loop stops when the handler has closed the connection. */
    method ProcessInput(fd: int)
      requires Working(fd)
      modifies this
      ensures Valid() && OnlyTouched(fd)
      ensures fd in connections ==>
                fd in old(connections) && history[fd].received == old(history[fd].received)
                && Split(history[fd].received).open
      ensures NoSendFails(old(sends)) ==> NoSendFails(sends)
      ensures (&& NoSendFails(old(sends)) && fd in old(connections)
               && Split(old(history[fd]).received).open) ==> fd in connections
    {
      hide OutputOk, Split, Settled, InputOk, InterestOk, ConnectionOk, Served, Dispatcher.OnFrame;
      hide GetU32, LengthAccepted, NoSendFails;
      while fd in connections && |connections[fd].input| >= 4
        invariant Working(fd) && OnlyTouched(fd)
        invariant fd in connections ==> history[fd].received == old(history[fd].received)
        invariant NoSendFails(old(sends)) ==> NoSendFails(sends) && (fd in old(connections) ==> fd in connections)
        decreases if fd in connections then 1 + |connections[fd].input| else 0
      {
        var size := GetU32(connections[fd].input);
        if !LengthAccepted(size) {
          BadLength(connections[fd], history[fd]);
          Close(fd);
          return;
        }
        if |connections[fd].input| < 4 + size { break; }
        ProcessFrame(fd, size);
      }
      AllSettled(fd);
    }

    lemma AllSettled(fd: int)
      requires Working(fd)
      requires fd in connections ==>
                 var input := connections[fd].input;
                 |input| < 4 || (LengthAccepted(GetU32(input)) && |input| < 4 + GetU32(input))
      ensures Valid() && (fd in connections ==> Split(history[fd].received).open)
    {
      if fd in connections { InputSettled(connections[fd], history[fd]); }
    }

    /** Takes the front frame out of the buffer and runs the handler on it. */
    method ProcessFrame(fd: int, size: int)
      requires Working(fd) && fd in connections
      requires var input := connections[fd].input;
               |input| >= 4 && size == GetU32(input) && LengthAccepted(size) && |input| >= 4 + size
      modifies this
      ensures Working(fd) && OnlyTouched(fd)
      ensures fd in connections ==>
                && history[fd].received == old(history[fd].received)
                && |connections[fd].input| < old(|connections[fd].input|)
      ensures NoSendFails(old(sends)) ==> NoSendFails(sends) && fd in connections
    {
      hide OutputOk, Split, Settled, InputOk, InterestOk, ConnectionOk, Served, Dispatcher.OnFrame;
      var state := connections[fd];
      ghost var h := history[fd];
      var frame, tail := state.input[..4 + size], state.input[4 + size..];
      ghost var e := Handled(methods, frame, calls);
      InterestKept(state, handlers[fd], tail);
      OutputKept(state, h, tail, h.received);
      Store(fd, state.(input := tail), h, handlers[fd]);
      RunHandler(fd, frame);
      if fd in connections {
        InputStep(state, h, e.call, e.reply);
        ServedMore(methods, h.log, frame, old(calls));
        InputIs(state.(input := tail), h.(log := history[fd].log), connections[fd], history[fd]);
      }
    }

    /** One readable event: read until EAGAIN, then split. End of stream or an error closes the connection
        at once, with whatever complete frames the same event had delivered. */
    method HandleReadable(fd: int, script: seq<RecvResult>)
      requires Valid()
      modifies this
      ensures Valid() && OnlyTouched(fd)
      ensures fd in connections ==>
                && EventBytes(script).Some?
                && history[fd].received == old(history[fd].received) + EventBytes(script).value
                && Split(history[fd].received).open
      ensures (&& NoSendFails(old(sends)) && fd in old(connections) && EventBytes(script).Some?
               && Split(old(history[fd].received) + EventBytes(script).value).open) ==> fd in connections
      ensures NoSendFails(old(sends)) ==> NoSendFails(sends)
    {
      hide OutputOk, Split, InputOk, Settled;
      if fd !in connections { return; }
      var state := connections[fd];
      ghost var h := history[fd];
      var got := ReceiveAll(script);
      if got == None {
        Close(fd);
        return;
      }
      InputGrows(state, h, got.value);
      OutputKept(state, h, state.input + got.value, h.received + got.value);
      InterestKept(state, handlers[fd], state.input + got.value);
      Store(fd, state.(input := state.input + got.value), h.(received := h.received + got.value), handlers[fd]);
      ProcessInput(fd);
    }

    /** The receive loop: everything up to EAGAIN, or None when the peer is gone. */
    method ReceiveAll(script: seq<RecvResult>) returns (got: Option<seq<Byte>>)
      ensures got == EventBytes(script)
    {
      var buffer: seq<Byte> := [];
      var rest := script;
      assert forall b: seq<Byte> :: buffer + b == b;
      while rest != [] && !rest[0].RecvAgain?
        invariant EventBytes(script)
               == (match EventBytes(rest) case None => None case Some(b) => Some(buffer + b))
        decreases |rest|
      {
        if rest[0].EndOfStream? || rest[0].RecvFailed? { return None; }
        var chunk := if rest[0].Received? then rest[0].bytes else [];
        ghost var later := EventBytes(rest[1..]);
        assert later.Some? ==> buffer + (chunk + later.value) == (buffer + chunk) + later.value;
        buffer := buffer + chunk;
        rest := rest[1..];
      }
      assert buffer + [] == buffer;
      return Some(buffer);
    }

    /** Accepts until the kernel has no more; a descriptor that cannot be made non-blocking is closed, so that the next
        accept may return the same number. */
    method AcceptLoop(script: seq<AcceptResult>)
      requires Valid()
      requires forall a :: a in BeforeStop(script) && a.Accepted? ==>
                             a.fd >= 0 && a.fd !in connections && a.fd != listenFd
      requires Disjoint(BeforeStop(script))
      modifies this
      ensures Valid() && listenFd == old(listenFd)
      ensures forall fd :: fd in connections <==> fd in old(connections) || Accepted(fd, true) in BeforeStop(script)
      ensures forall fd :: fd in old(connections) ==>
                             connections[fd] == old(connections)[fd] && history[fd] == old(history)[fd]
      ensures forall fd :: fd in connections && fd !in old(connections) ==> history[fd] == NOTHING
    {
      hide ConnectionOk, Served;
      var rest := script;
      ghost var seen: seq<AcceptResult> := [];
      assert seen + BeforeStop(rest) == BeforeStop(script);
      while rest != [] && !rest[0].AcceptStopped?
        invariant seen + BeforeStop(rest) == BeforeStop(script)
        invariant Valid() && listenFd == old(listenFd)
        invariant forall fd :: fd in connections <==> fd in old(connections) || Accepted(fd, true) in seen
        invariant forall fd :: fd in old(connections) ==>
                    connections[fd] == old(connections)[fd] && history[fd] == old(history)[fd]
        invariant forall fd :: fd in connections && fd !in old(connections) ==> history[fd] == NOTHING
        decreases |rest|
      {
        var got := rest[0];
        FrontAccept(seen, rest, BeforeStop(script));
        if got.Accepted? && got.nonBlocking {
          AddConnection(got.fd);
        }
        seen := seen + [got];
        rest := rest[1..];
      }
      assert seen == BeforeStop(script);
    }

    method AddConnection(fd: int)
      requires Valid() && fd >= 0 && fd !in connections && fd != listenFd
      modifies this`connections, this`handlers, this`history
      ensures Valid()
      ensures connections == old(connections)[fd := FRESH] && history == old(history)[fd := NOTHING]
    {
      FreshConnectionOk();
      hide ConnectionOk;
      PutKeeps(connections, fd, FRESH);
      PutKeeps(history, fd, NOTHING);
      PutKeeps(handlers, fd, ReadOnly);
      connections := connections[fd := FRESH];
      handlers := handlers[fd := ReadOnly];
      history := history[fd := NOTHING];
    }

    /** One ready event of the reactor loop. Error and hang-up win over everything else; the source looks the
        handler up once, here a connection closed by the read is not written to. */
    method Dispatch(fd: int, error: bool, readable: bool, writable: bool, script: seq<RecvResult>)
      requires Valid() && fd != listenFd
      modifies this
      ensures Valid() && OnlyTouched(fd)
      ensures error ==> fd !in connections && fd !in handlers
      ensures fd in connections && readable ==>
                && EventBytes(script).Some?
                && history[fd].received == old(history[fd].received) + EventBytes(script).value
      ensures fd in connections && !readable ==>
                history[fd].received == old(history[fd].received) && history[fd].log == old(history[fd].log)
      ensures fd in old(connections) && !error && !readable && writable ==> Flushed(fd, old(connections[fd]))
      ensures (&& NoSendFails(old(sends)) && fd in old(connections) && !error
               && (readable ==>
                     && EventBytes(script).Some?
                     && Split(old(history[fd]).received + EventBytes(script).value).open)) ==> fd in connections
    {
      hide OutputOk, InputOk, InterestOk, Settled, Served, Split, EventBytes, Taken, Fails, Unused, Sendable;
      if fd in connections { OutputBounds(connections[fd], history[fd]); }
      if fd !in handlers { return; }
      if error {
        Close(fd);
        return;
      }
      if readable { HandleReadable(fd, script); }
      if writable && fd in connections {
        ghost var c, h := connections[fd], history[fd];
        HandleWritable(fd);
        if fd in connections { InputIs(c, h, connections[fd], history[fd]); }
      }
    }
  }

  lemma PutKeeps<V>(m: map<int, V>, k: int, v: V)
    ensures m[k := v] - {k} == m - {k}
    ensures m[k := v].Keys == m.Keys + {k}
  {
  }

  lemma FreshConnectionOk()
    ensures ConnectionOk(FRESH, NOTHING, ReadOnly)
  {
    assert Frames([]) == [];
    PrependNone(Split([]));
    assert FRESH.output[0..] == [];
  }
}

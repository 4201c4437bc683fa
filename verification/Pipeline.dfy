/** The whole RPC pipeline as a step system: any number of client threads share pooled connections, bytes travel in
    arbitrary pieces, and any side may close at any time. The client never compares request ids; that every
    successful round trip returns the answer to its own request is an invariant. */
module Pipeline {
  import opened Bytes
  import opened Headers
  import opened Codec
  import opened Framing
  import opened ConnectionPool
  import Dispatcher
  import Registry

  // ---------------------------------------------------------------- state

  /** A request in flight and its encoded frame. */
  datatype Call = Call(request: Request, frame: Frame)

  /** A frame that the server handled, what the services would do with a call at that moment, and the reply appended to
      the output. */
  datatype Exchange = Exchange(frame: Frame, outcome: Dispatcher.Services, reply: Frame)

  /** One connection, both ends and both directions: `up` and `down` are the bytes in flight, `input` and `output` the
      server's buffers. `asked` lists the calls made on it, `log` what the server did. */
  datatype Link = Link(
    up: seq<Byte>, input: seq<Byte>, output: seq<Byte>, down: seq<Byte>, serverOpen: bool,
    asked: seq<Call>, log: seq<Exchange>)

  /** Where a client thread stands in `RoundTrip`. */
  datatype Phase =
    | Sending(call: Call, key: Key, conn: SocketId, offset: nat)
    | Receiving(call: Call, key: Key, conn: SocketId, got: seq<Byte>)

  /** A successful round trip: the call, the endpoint it was made to, and the response frame that was returned. */
  datatype Completion = Completion(call: Call, key: Key, conn: SocketId, index: nat, response: Frame)

  datatype State = State(
    own: Ownership, links: map<SocketId, Link>, threads: map<nat, Phase>, done: seq<Completion>, nextId: nat)

  type Servers = map<Key, map<Registry.Name, Registry.Registered>>

  const NEW_LINK: Link := Link([], [], [], [], true, [], [])
  const INITIAL: State := State(NO_SOCKETS, map[], map[], [], 1)

  // ---------------------------------------------------------------- steps

  /** Threads are named by `t`, connections by `c`. Starting on a fresh connection is allowed even when an idle one
      exists, which only adds runs. */
  datatype Step =
    | StartReuse(t: nat, key: Key, request: Request)
    | StartFresh(t: nat, key: Key, request: Request)
    | SendSome(t: nat, n: nat)
    | RecvSome(t: nat, n: nat)
    | Finish(t: nat)
    | Abort(t: nat)
    | ServerRecv(c: SocketId, n: nat)
    | ServerHandle(c: SocketId, outcome: Dispatcher.Services)
    | ServerSend(c: SocketId, n: nat)
    | ServerClose(c: SocketId)
    | LinkReset(c: SocketId)
    | DiscardIdle(key: Key)
    | DestroyPool

  /** `InvokeAsync` up to the send: the request gets the next id, and the sizes fit their length fields. */
  predicate MayStart(s: State, t: nat, request: Request)
  {
    t !in s.threads && request.id == s.nextId % U64 && RequestFits(request) && EncodeRequest(request).Ok?
  }

  function Start(s: State, own: Ownership, c: SocketId, link: Link, t: nat, key: Key, call: Call): (s': State)
  {
    State(own, s.links[c := link.(asked := link.asked + [call])], s.threads[t := Sending(call, key, c, 0)], s.done,
          s.nextId + 1)
  }

  /** How many bytes `ReceiveFrame` asks for next; 0 when it has a frame or a bad length. */
  function Want(got: seq<Byte>): (n: nat)
  {
    if |got| < 4 then 4 - |got|
    else if LengthAccepted(GetU32(got)) && |got| < 4 + GetU32(got) then 4 + GetU32(got) - |got|
    else 0
  }

  function SendStep(link: Link, phase: Phase, n: nat): (r: (Link, Phase))
    requires phase.Sending? && phase.offset + n <= |phase.call.frame|
  {
    var end := phase.offset + n;
    (link.(up := link.up + phase.call.frame[phase.offset..end]),
     if end < |phase.call.frame| then phase.(offset := end) else Receiving(phase.call, phase.key, phase.conn, []))
  }

  function RecvStep(link: Link, phase: Phase, n: nat): (r: (Link, Phase))
    requires phase.Receiving? && n <= |link.down|
  {
    (link.(down := link.down[n..]), phase.(got := phase.got + link.down[..n]))
  }

  /** One round of `ProcessInput` with `OnFrame` as the handler. */
  function HandleStep(link: Link, methods: map<Registry.Name, Registry.Registered>, outcome: Dispatcher.Services)
    : (l: Option<Link>)
  {
    if |link.input| < 4 || !LengthAccepted(GetU32(link.input)) || |link.input| < 4 + GetU32(link.input) then None
    else
      var n := 4 + GetU32(link.input);
      var frame := link.input[..n];
      match Dispatcher.OnFrame(methods, frame, outcome)
      case None => None
      case Some(reply) =>
        Some(link.(input := link.input[n..], output := link.output + reply,
                   log := link.log + [Exchange(frame, outcome, reply)]))
  }

  function MethodsAt(servers: Servers, key: Key): (m: map<Registry.Name, Registry.Registered>)
  {
    if key in servers then servers[key] else map[]
  }

  function ServerStep(servers: Servers, own: Ownership, c: SocketId, link: Link, step: Step): (l: Option<Link>)
  {
    match step
    case ServerRecv(_, n) =>
      if link.serverOpen && n <= |link.up| then
        Some(link.(up := link.up[n..], input := link.input + link.up[..n]))
      else None
    case ServerHandle(_, outcome) =>
      if link.serverOpen && c in own.sockets && Dispatcher.PayloadFits(outcome) then
        HandleStep(link, MethodsAt(servers, own.sockets[c].home), outcome)
      else None
    case ServerSend(_, n) =>
      if link.serverOpen && n <= |link.output| then
        Some(link.(output := link.output[n..], down := link.down + link.output[..n]))
      else None
    case ServerClose(_) => Some(link.(serverOpen := false, up := [], input := [], output := []))
    case LinkReset(_) => Some(link.(serverOpen := false, up := [], input := [], output := [], down := []))
    case _ => None
  }

  /** The state after a step, or None where the step is not enabled. */
  function Apply(servers: Servers, s: State, step: Step): (r: Option<State>)
  {
    match step
    case StartReuse(t, key, request) =>
      if !MayStart(s, t, request) then None
      else
        (match Take(s.own, key)
         case None => None
         case Some((own, c)) =>
           if c !in s.links then None
           else Some(Start(s, own, c, s.links[c], t, key, Call(request, EncodeRequest(request).value))))
    case StartFresh(t, key, request) =>
      if !MayStart(s, t, request) then None
      else
        var (own, c) := Connect(s.own, key);
        Some(Start(s, own, c, NEW_LINK, t, key, Call(request, EncodeRequest(request).value)))
    case SendSome(t, n) =>
      if t in s.threads && s.threads[t].Sending? && s.threads[t].conn in s.links
         && 1 <= n <= |s.threads[t].call.frame| - s.threads[t].offset then
        var phase := s.threads[t];
        var (link, phase') := SendStep(s.links[phase.conn], phase, n);
        Some(s.(links := s.links[phase.conn := link], threads := s.threads[t := phase']))
      else None
    case RecvSome(t, n) =>
      if t in s.threads && s.threads[t].Receiving? && s.threads[t].conn in s.links
         && 1 <= n <= |s.links[s.threads[t].conn].down| && n <= Want(s.threads[t].got) then
        var phase := s.threads[t];
        var (link, phase') := RecvStep(s.links[phase.conn], phase, n);
        Some(s.(links := s.links[phase.conn := link], threads := s.threads[t := phase']))
      else None
    case Finish(t) =>
      if t in s.threads && s.threads[t].Receiving? && s.threads[t].conn in s.links
         && ValidFrame(s.threads[t].got) && |s.links[s.threads[t].conn].asked| > 0 then
        var p := s.threads[t];
        Some(s.(own := GiveBack(s.own, p.key, p.conn), threads := s.threads - {t},
                done := s.done + [Completion(p.call, p.key, p.conn, |s.links[p.conn].asked| - 1, p.got)]))
      else None
    case Abort(t) =>
      if t in s.threads then Some(s.(own := Close(s.own, s.threads[t].conn), threads := s.threads - {t})) else None
    case DiscardIdle(key) =>
      (match Take(s.own, key)
       case None => None
       case Some((own, c)) => Some(s.(own := Close(own, c))))
    case DestroyPool => Some(s.(own := Destroy(s.own)))
    case _ =>
      if step.c !in s.links then None
      else
        match ServerStep(servers, s.own, step.c, s.links[step.c], step)
        case None => None
        case Some(link) => Some(s.(links := s.links[step.c := link]))
  }

  /** The state after a whole run, or None if some step was not enabled. */
  function Run(servers: Servers, s: State, steps: seq<Step>): (r: Option<State>)
  {
    if steps == [] then Some(s)
    else
      match Run(servers, s, steps[..|steps| - 1])
      case None => None
      case Some(before) => Apply(servers, before, steps[|steps| - 1])
  }

  // ---------------------------------------------------------------- invariant

  ghost predicate Answered(e: Exchange)
  {
    && SelfDelimiting(e.reply)
    && DecodeResponse(e.reply).Ok? && DecodeResponse(e.reply).value.id == Dispatcher.IdOf(e.frame)
  }

  ghost predicate LogOk(l: Link)
  {
    forall i :: 0 <= i < |l.log| ==> Answered(l.log[i])
  }

  ghost predicate CallOk(call: Call)
  {
    SelfDelimiting(call.frame) && DecodeRequest(call.frame) == Ok(call.request)
  }

  /** The first `n` calls were answered, in order. */
  ghost predicate Matched(l: Link, n: nat)
  {
    n <= |l.asked| && n <= |l.log| && forall i :: 0 <= i < n ==> l.log[i].frame == l.asked[i].frame
  }

  /** Nothing in flight in either direction and every call answered. */
  ghost predicate Quiet(l: Link)
  {
    && l.up == l.input == l.output == l.down == []
    && |l.log| == |l.asked| && Matched(l, |l.asked|)
  }

  /** The last call is not handled yet; `sent` is the part of its frame that the client has written. */
  ghost predicate Unhandled(l: Link, sent: seq<Byte>)
  {
    && |l.log| + 1 == |l.asked| && Matched(l, |l.log|)
    && l.output == l.down == []
    && (l.serverOpen ==> l.input + l.up == sent)
  }

  /** The last call is handled; `got` is the part of the reply that the client has read. */
  ghost predicate Handled(l: Link, got: seq<Byte>)
  {
    && |l.log| == |l.asked| && |l.log| > 0 && Matched(l, |l.asked|)
    && l.up == l.input == []
    && (l.serverOpen ==> got + (l.down + l.output) == l.log[|l.log| - 1].reply)
    && (!l.serverOpen ==> l.output == [] && got + l.down <= l.log[|l.log| - 1].reply)
  }

  ghost predicate PhaseOk(l: Link, p: Phase)
  {
    && |l.asked| > 0 && l.asked[|l.asked| - 1] == p.call && CallOk(p.call)
    && (match p
        case Sending(call, _, _, offset) => offset < |call.frame| && Unhandled(l, call.frame[..offset])
        case Receiving(call, _, _, got) => (got == [] && Unhandled(l, call.frame)) || Handled(l, got))
  }

  /** The response is the reply that the server logged for exactly this call on this connection. */
  ghost predicate CompletionOk(d: Completion, links: map<SocketId, Link>)
  {
    && d.conn in links
    && d.index < |links[d.conn].asked| && links[d.conn].asked[d.index] == d.call
    && d.index < |links[d.conn].log|
    && links[d.conn].log[d.index].frame == d.call.frame && links[d.conn].log[d.index].reply == d.response
    && CallOk(d.call)
  }

  ghost predicate ThreadOk(s: State, t: nat)
  {
    t in s.threads ==>
      var p := s.threads[t];
      && p.conn in s.own.borrowed && p.conn in s.own.sockets && s.own.sockets[p.conn].home == p.key
      && p.conn in s.links && PhaseOk(s.links[p.conn], p)
  }

  /** Threads own distinct connections. */
  ghost predicate Exclusive(threads: map<nat, Phase>)
  {
    forall t, t' :: t in threads && t' in threads && t != t' ==> threads[t].conn != threads[t'].conn
  }

  /** Every borrowed socket belongs to a thread that will return or close it. */
  ghost predicate NoLeak(threads: map<nat, Phase>, borrowed: set<SocketId>)
  {
    forall c :: c in borrowed ==> exists t :: t in threads && threads[t].conn == c
  }

  ghost predicate IdleQuiet(pool: Pool, links: map<SocketId, Link>)
  {
    forall k, c :: Holds(pool, k, c) ==> c in links && Quiet(links[c])
  }

  ghost predicate LogsOk(links: map<SocketId, Link>)
  {
    forall c :: c in links ==> LogOk(links[c])
  }

  ghost predicate DoneOk(done: seq<Completion>, links: map<SocketId, Link>)
  {
    forall i :: 0 <= i < |done| ==> CompletionOk(done[i], links)
  }

  ghost predicate Inv(s: State)
  {
    && Owned(s.own) && s.links.Keys == s.own.sockets.Keys
    && IdleQuiet(s.own.pool, s.links)
    && (forall t :: ThreadOk(s, t))
    && Exclusive(s.threads) && NoLeak(s.threads, s.own.borrowed)
    && LogsOk(s.links) && DoneOk(s.done, s.links)
  }

  // ---------------------------------------------------------------- links under server steps

  /** A step of the server or the network keeps what the client side relies on. */
  ghost predicate LinkKeeps(l: Link, l': Link)
  {
    && l'.asked == l.asked && l.log <= l'.log
    && (LogOk(l) ==> LogOk(l'))
    && (Quiet(l) ==> Quiet(l'))
    && (forall p :: LogOk(l) && PhaseOk(l, p) ==> PhaseOk(l', p))
  }

  /** A complete frame in the server's buffer is the whole frame of the one call in flight. */
  lemma OnlyWholeFrame(l: Link, frame: Frame, sent: seq<Byte>)
    requires SelfDelimiting(frame) && sent <= frame && l.input + l.up == sent
    requires |l.input| >= 4 && |l.input| >= 4 + GetU32(l.input)
    ensures l.input == frame && l.up == [] && sent == frame
  {
    assert l.input[..4] == frame[..4];
    assert GetU32(l.input) == GetU32(frame);
  }

  lemma HandleKeepsPhase(l: Link, l': Link, p: Phase, outcome: Dispatcher.Services, reply: Frame)
    requires l.serverOpen && PhaseOk(l, p)
    requires |l.input| >= 4 && |l.input| >= 4 + GetU32(l.input)
    requires var n := 4 + GetU32(l.input);
             l' == l.(input := l.input[n..], output := l.output + reply,
                      log := l.log + [Exchange(l.input[..n], outcome, reply)])
    ensures PhaseOk(l', p)
  {
    var sent := if p.Sending? then p.call.frame[..p.offset] else p.call.frame;
    OnlyWholeFrame(l, p.call.frame, sent);
    assert p.Receiving? && p.got == [];
    var n := 4 + GetU32(l.input);
    assert l.input[n..] == [] && l.input[..n] == p.call.frame;
    assert [] + (l'.down + l'.output) == reply;
    assert Matched(l', |l'.asked|);
  }

  lemma HandleKeeps(l: Link, methods: map<Registry.Name, Registry.Registered>, outcome: Dispatcher.Services)
    requires l.serverOpen && HandleStep(l, methods, outcome).Some?
    requires Dispatcher.PayloadFits(outcome)
    ensures LinkKeeps(l, HandleStep(l, methods, outcome).value)
  {
    hide Dispatcher.OnFrame, Answered, PhaseOk;
    var l' := HandleStep(l, methods, outcome).value;
    var n := 4 + GetU32(l.input);
    ReplyAnswered(methods, l.input[..n], outcome);
    var reply := Dispatcher.OnFrame(methods, l.input[..n], outcome).value;
    forall p | PhaseOk(l, p)
      ensures PhaseOk(l', p)
    {
      HandleKeepsPhase(l, l', p, outcome, reply);
    }
  }

  lemma ReplyAnswered(methods: map<Registry.Name, Registry.Registered>, frame: Frame, outcome: Dispatcher.Services)
    requires Dispatcher.PayloadFits(outcome)
    ensures Dispatcher.OnFrame(methods, frame, outcome).Some?
    ensures Answered(Exchange(frame, outcome, Dispatcher.OnFrame(methods, frame, outcome).value))
  {
    hide Dispatcher.OnFrame, Dispatcher.Answer, Dispatcher.IdOf, DecodeResponse;
    Dispatcher.AnswerDecodes(methods, frame, outcome);
  }

  lemma RecvKeeps(l: Link, n: nat)
    requires n <= |l.up|
    ensures LinkKeeps(l, l.(up := l.up[n..], input := l.input + l.up[..n]))
  {
    assert (l.input + l.up[..n]) + l.up[n..] == l.input + l.up;
    hide Answered, CallOk;
  }

  lemma SendKeeps(l: Link, n: nat)
    requires n <= |l.output|
    ensures LinkKeeps(l, l.(output := l.output[n..], down := l.down + l.output[..n]))
  {
    assert (l.down + l.output[..n]) + l.output[n..] == l.down + l.output;
    hide Answered, CallOk;
    var l' := l.(output := l.output[n..], down := l.down + l.output[..n]);
    forall p | PhaseOk(l, p)
      ensures PhaseOk(l', p)
    {
      if !l.serverOpen { assert l.output[..n] == [] || l.output != []; }
    }
  }

  lemma CloseKeeps(l: Link, down: seq<Byte>)
    requires down == l.down || down == []
    ensures LinkKeeps(l, l.(serverOpen := false, up := [], input := [], output := [], down := down))
  {
    hide Answered, PhaseOk;
    var l' := l.(serverOpen := false, up := [], input := [], output := [], down := down);
    forall p | PhaseOk(l, p)
      ensures PhaseOk(l', p)
    {
      CloseKeepsPhase(l, down, p);
    }
  }

  lemma CloseKeepsPhase(l: Link, down: seq<Byte>, p: Phase)
    requires PhaseOk(l, p) && (down == l.down || down == [])
    ensures PhaseOk(l.(serverOpen := false, up := [], input := [], output := [], down := down), p)
  {
    hide CallOk;
    if p.Receiving? && Handled(l, p.got) {
      var b := l.log[|l.log| - 1].reply;
      if l.serverOpen { assert p.got + (l.down + l.output) == (p.got + l.down) + l.output; }
      assert p.got + l.down <= b;
      assert p.got + down <= b;
    }
  }

  lemma ServerStepKeeps(servers: Servers, own: Ownership, c: SocketId, l: Link, step: Step)
    requires ServerStep(servers, own, c, l, step).Some?
    ensures LinkKeeps(l, ServerStep(servers, own, c, l, step).value)
  {
    hide LinkKeeps, HandleStep;
    match step {
      case ServerRecv(_, n) => RecvKeeps(l, n);
      case ServerHandle(_, outcome) =>
        HandleKeeps(l, MethodsAt(servers, own.sockets[c].home), outcome);
      case ServerSend(_, n) => SendKeeps(l, n);
      case ServerClose(_) => CloseKeeps(l, l.down);
      case LinkReset(_) => CloseKeeps(l, []);
      case _ =>
    }
  }

  lemma CompletionKept(d: Completion, links: map<SocketId, Link>, c: SocketId, l': Link)
    requires CompletionOk(d, links) && c in links
    requires links[c].asked <= l'.asked && links[c].log <= l'.log
    ensures CompletionOk(d, links[c := l'])
  {
    if d.conn == c {
      assert l'.asked[d.index] == links[c].asked[d.index];
      assert l'.log[d.index] == links[c].log[d.index];
    }
  }

  lemma DoneKept(done: seq<Completion>, links: map<SocketId, Link>, c: SocketId, l': Link)
    requires DoneOk(done, links) && c in links
    requires links[c].asked <= l'.asked && links[c].log <= l'.log
    ensures DoneOk(done, links[c := l'])
  {
    hide CompletionOk;
    forall i | 0 <= i < |done|
      ensures CompletionOk(done[i], links[c := l'])
    {
      CompletionKept(done[i], links, c, l');
    }
  }

  lemma LinkStepInv(s: State, c: SocketId, l': Link)
    requires Inv(s) && c in s.links && LinkKeeps(s.links[c], l')
    ensures Inv(s.(links := s.links[c := l']))
  {
    var s' := s.(links := s.links[c := l']);
    DoneKept(s.done, s.links, c, l');
    hide Owned, Quiet, PhaseOk, LogOk, CompletionOk;
    assert LogOk(s.links[c]);
    forall t
      ensures ThreadOk(s', t)
    {
      assert ThreadOk(s, t);
    }
  }

  // ---------------------------------------------------------------- client steps

  lemma SendKeepsPhase(l: Link, p: Phase, n: nat)
    requires p.Sending? && 1 <= n <= |p.call.frame| - p.offset && PhaseOk(l, p)
    ensures var (l', p') := SendStep(l, p, n);
            PhaseOk(l', p') && l'.asked == l.asked && l'.log == l.log
  {
    hide CallOk;
    var end := p.offset + n;
    var f := p.call.frame;
    assert f[..p.offset] + f[p.offset..end] == f[..end];
    assert l.input + (l.up + f[p.offset..end]) == (l.input + l.up) + f[p.offset..end];
    if end == |f| { assert f[..end] == f; }
  }

  lemma RecvKeepsPhase(l: Link, p: Phase, n: nat)
    requires p.Receiving? && 1 <= n <= |l.down| && PhaseOk(l, p)
    ensures var (l', p') := RecvStep(l, p, n);
            PhaseOk(l', p') && l'.asked == l.asked && l'.log == l.log
  {
    hide CallOk;
    assert Handled(l, p.got);
    assert l.down == l.down[..n] + l.down[n..];
    assert (p.got + l.down[..n]) + (l.down[n..] + l.output) == p.got + (l.down + l.output);
    assert (p.got + l.down[..n]) + l.down[n..] == p.got + l.down;
  }

  lemma ThreadStepInv(s: State, t: nat, l': Link, p': Phase)
    requires Inv(s) && t in s.threads
    requires var p := s.threads[t];
             && p.conn in s.links && p'.conn == p.conn && p'.key == p.key && PhaseOk(l', p')
             && l'.asked == s.links[p.conn].asked && l'.log == s.links[p.conn].log
    ensures Inv(s.(links := s.links[s.threads[t].conn := l'], threads := s.threads[t := p']))
  {
    hide Owned, Quiet, PhaseOk, LogOk, CompletionOk;
    var c := s.threads[t].conn;
    var s' := s.(links := s.links[c := l'], threads := s.threads[t := p']);
    assert ThreadOk(s, t);
    DoneKept(s.done, s.links, c, l');
    SameLog(s.links[c], l');
    BorrowedNotIdle(s.own, c);
    NoLeakKept(s.threads, s.own.borrowed, t, p');
    forall u
      ensures ThreadOk(s', u)
    {
      assert ThreadOk(s, u);
    }
  }

  lemma SameLog(l: Link, l': Link)
    requires l'.log == l.log
    ensures LogOk(l) <==> LogOk(l')
  {
  }

  lemma BorrowedNotIdle(o: Ownership, c: SocketId)
    requires Owned(o) && c in o.borrowed
    ensures c in o.sockets && forall k :: !Holds(o.pool, k, c)
  {
  }

  lemma NoLeakKept(threads: map<nat, Phase>, borrowed: set<SocketId>, t: nat, p': Phase)
    requires NoLeak(threads, borrowed) && t in threads && p'.conn == threads[t].conn
    ensures NoLeak(threads[t := p'], borrowed)
  {
    var after := threads[t := p'];
    forall c | c in borrowed
      ensures exists u :: u in after && after[u].conn == c
    {
      var u :| u in threads && threads[u].conn == c;
      assert u in after && after[u].conn == c;
    }
  }

  lemma NoLeakAdded(threads: map<nat, Phase>, borrowed: set<SocketId>, t: nat, p: Phase)
    requires NoLeak(threads, borrowed) && t !in threads
    ensures NoLeak(threads[t := p], borrowed + {p.conn})
  {
    var after := threads[t := p];
    forall c | c in borrowed + {p.conn}
      ensures exists u :: u in after && after[u].conn == c
    {
      if c == p.conn {
        assert t in after && after[t].conn == c;
      } else {
        var u :| u in threads && threads[u].conn == c;
        assert u in after && after[u].conn == c;
      }
    }
  }

  lemma NoLeakRemoved(threads: map<nat, Phase>, borrowed: set<SocketId>, t: nat)
    requires NoLeak(threads, borrowed) && t in threads
    ensures NoLeak(threads - {t}, borrowed - {threads[t].conn})
  {
    var after := threads - {t};
    forall c | c in borrowed - {threads[t].conn}
      ensures exists u :: u in after && after[u].conn == c
    {
      var u :| u in threads && threads[u].conn == c;
      assert u in after && after[u].conn == c;
    }
  }

  /** A call begins on a quiet link. */
  lemma StartPhase(l: Link, call: Call, key: Key, c: SocketId)
    requires Quiet(l) && LogOk(l) && CallOk(call)
    ensures var l' := l.(asked := l.asked + [call]);
            PhaseOk(l', Sending(call, key, c, 0)) && LogOk(l') && l.asked <= l'.asked && l'.log == l.log
  {
    hide Answered;
    assert call.frame[..0] == [];
  }

  lemma StartCall(s: State, t: nat, request: Request)
    requires MayStart(s, t, request)
    ensures t !in s.threads && EncodeRequest(request).Ok?
    ensures CallOk(Call(request, EncodeRequest(request).value))
  {
    RequestFitsRoundTrip(request);
  }

  /** What starting needs of the ownership after the borrow. */
  ghost predicate Borrowed(before: Ownership, after: Ownership, key: Key, c: SocketId)
  {
    && Owned(after) && c !in before.borrowed && after.borrowed == before.borrowed + {c}
    && after.sockets.Keys == before.sockets.Keys + {c} && after.sockets[c].home == key
    && (forall x :: x in before.sockets ==> x in after.sockets && after.sockets[x] == before.sockets[x])
    && (forall k, x :: Holds(after.pool, k, x) ==> Holds(before.pool, k, x) && x != c)
  }

  lemma StartDone(done: seq<Completion>, links: map<SocketId, Link>, c: SocketId, l: Link, call: Call)
    requires DoneOk(done, links) && (c in links ==> l == links[c])
    ensures DoneOk(done, links[c := l.(asked := l.asked + [call])])
  {
    var l' := l.(asked := l.asked + [call]);
    if c in links { DoneKept(done, links, c, l'); }
  }

  lemma StartInv(s: State, own: Ownership, c: SocketId, link: Link, t: nat, key: Key, call: Call)
    requires Inv(s) && t !in s.threads && Borrowed(s.own, own, key, c) && CallOk(call)
    requires Quiet(link) && LogOk(link) && (c in s.links ==> link == s.links[c])
    ensures Inv(State(own, s.links[c := link.(asked := link.asked + [call])],
                      s.threads[t := Sending(call, key, c, 0)], s.done, s.nextId + 1))
  {
    hide CallOk, Answered;
    var p := Sending(call, key, c, 0);
    var l' := link.(asked := link.asked + [call]);
    StartPhase(link, call, key, c);
    StartDone(s.done, s.links, c, link, call);
    NoLeakAdded(s.threads, s.own.borrowed, t, p);
    ExclusiveAdded(s, t, p);
    var s' := State(own, s.links[c := l'], s.threads[t := p], s.done, s.nextId + 1);
    hide Owned, Quiet, PhaseOk, LogOk, CallOk, CompletionOk;
    forall u
      ensures ThreadOk(s', u)
    {
      assert ThreadOk(s, u);
    }
  }

  lemma ExclusiveAdded(s: State, t: nat, p: Phase)
    requires Inv(s) && p.conn !in s.own.borrowed
    ensures Exclusive(s.threads[t := p])
  {
    forall u | u in s.threads
      ensures s.threads[u].conn != p.conn
    {
      assert ThreadOk(s, u);
    }
  }

  lemma StartReuseInv(s: State, t: nat, key: Key, call: Call)
    requires Inv(s) && t !in s.threads && CallOk(call) && Take(s.own, key).Some?
    ensures var (own, c) := Take(s.own, key).value;
            c in s.links && Inv(Start(s, own, c, s.links[c], t, key, call))
  {
    hide Inv, CallOk, Take, Quiet, LogOk, Borrowed;
    var (own, c) := Take(s.own, key).value;
    InvOwned(s);
    ReuseBorrow(s.own, key);
    IdleLink(s, key, c);
    StartInv(s, own, c, s.links[c], t, key, call);
  }

  lemma InvOwned(s: State)
    requires Inv(s)
    ensures Owned(s.own)
  {
  }

  lemma IdleLink(s: State, key: Key, c: SocketId)
    requires Inv(s) && Holds(s.own.pool, key, c)
    ensures c in s.links && Quiet(s.links[c]) && LogOk(s.links[c])
  {
  }

  lemma StartFreshInv(s: State, t: nat, key: Key, call: Call)
    requires Inv(s) && t !in s.threads && CallOk(call)
    ensures var (own, c) := Connect(s.own, key);
            Inv(Start(s, own, c, NEW_LINK, t, key, call))
  {
    hide Inv, Owned, CallOk, Borrowed, Connect, Quiet, LogOk;
    var (own, c) := Connect(s.own, key);
    InvOwned(s);
    LinksKnown(s);
    FreshBorrow(s.own, key);
    NewLinkQuiet();
    StartInv(s, own, c, NEW_LINK, t, key, call);
  }

  lemma NewLinkQuiet()
    ensures Quiet(NEW_LINK) && LogOk(NEW_LINK)
  {
  }

  lemma ReuseBorrow(o: Ownership, key: Key)
    requires Owned(o) && Take(o, key).Some?
    ensures Borrowed(o, Take(o, key).value.0, key, Take(o, key).value.1)
    ensures Holds(o.pool, key, Take(o, key).value.1)
  {
    TakeOwned(o, key);
  }

  lemma FreshBorrow(o: Ownership, key: Key)
    requires Owned(o)
    ensures Borrowed(o, Connect(o, key).0, key, Connect(o, key).1) && Connect(o, key).1 !in o.sockets
  {
    ConnectOwned(o, key);
  }

  /** A complete frame in hand is exactly the reply, and nothing is left in flight. */
  lemma CompleteFrameIsReply(l: Link, p: Phase)
    requires p.Receiving? && PhaseOk(l, p) && LogOk(l) && SelfDelimiting(p.got)
    ensures Quiet(l) && |l.asked| > 0
    ensures l.asked[|l.asked| - 1] == p.call
    ensures l.log[|l.log| - 1].frame == p.call.frame && l.log[|l.log| - 1].reply == p.got
  {
    hide CallOk, DecodeResponse, Dispatcher.IdOf;
    assert Handled(l, p.got);
    var b := l.log[|l.log| - 1].reply;
    assert Answered(l.log[|l.log| - 1]);
    if l.serverOpen { assert p.got + (l.down + l.output) == b; }
    assert p.got <= b;
    PrefixFree(p.got, b);
  }

  lemma FinishedCall(links: map<SocketId, Link>, p: Phase)
    requires p.Receiving? && p.conn in links && PhaseOk(links[p.conn], p) && LogOk(links[p.conn]) && ValidFrame(p.got)
    ensures Quiet(links[p.conn]) && |links[p.conn].asked| > 0
    ensures CompletionOk(Completion(p.call, p.key, p.conn, |links[p.conn].asked| - 1, p.got), links)
  {
    hide Answered, LogOk, CallOk;
    CompleteFrameIsReply(links[p.conn], p);
  }

  lemma GiveBackBorrowed(o: Ownership, key: Key, c: SocketId)
    requires Owned(o) && c in o.borrowed
    ensures GiveBack(o, key, c).borrowed == o.borrowed - {c}
  {
  }

  lemma FinishInv(s: State, t: nat)
    requires Inv(s) && t in s.threads && s.threads[t].Receiving? && ValidFrame(s.threads[t].got)
    ensures var p := s.threads[t];
            && p.conn in s.links && |s.links[p.conn].asked| > 0
            && Inv(s.(own := GiveBack(s.own, p.key, p.conn), threads := s.threads - {t},
                      done := s.done + [Completion(p.call, p.key, p.conn, |s.links[p.conn].asked| - 1, p.got)]))
  {
    hide Owned, GiveBack, Quiet, PhaseOk, LogOk, CompletionOk;
    var p := s.threads[t];
    assert ThreadOk(s, t);
    var l := s.links[p.conn];
    FinishedCall(s.links, p);
    GiveBackOwned(s.own, p.key, p.conn);
    GiveBackBorrowed(s.own, p.key, p.conn);
    NoLeakRemoved(s.threads, s.own.borrowed, t);
    var own := GiveBack(s.own, p.key, p.conn);
    var d := Completion(p.call, p.key, p.conn, |l.asked| - 1, p.got);
    var s' := s.(own := own, threads := s.threads - {t}, done := s.done + [d]);
    forall u
      ensures ThreadOk(s', u)
    {
      assert ThreadOk(s, u);
    }
  }

  lemma AbortInv(s: State, t: nat)
    requires Inv(s) && t in s.threads
    ensures Inv(s.(own := Close(s.own, s.threads[t].conn), threads := s.threads - {t}))
  {
    var c := s.threads[t].conn;
    assert ThreadOk(s, t);
    CloseOwned(s.own, c);
    NoLeakRemoved(s.threads, s.own.borrowed, t);
    var own := Close(s.own, c);
    assert own.sockets.Keys == s.own.sockets.Keys;
    var s' := s.(own := own, threads := s.threads - {t});
    hide Owned, Quiet, PhaseOk, LogOk, CompletionOk;
    forall u
      ensures ThreadOk(s', u)
    {
      assert ThreadOk(s, u);
    }
  }

  lemma DiscardInv(s: State, key: Key)
    requires Inv(s) && Take(s.own, key).Some?
    ensures var (own, c) := Take(s.own, key).value;
            Inv(s.(own := Close(own, c)))
  {
    TakeOwned(s.own, key);
    var (own, c) := Take(s.own, key).value;
    CloseOwned(own, c);
    var own' := Close(own, c);
    assert own'.borrowed == s.own.borrowed;
    assert own'.sockets.Keys == s.own.sockets.Keys;
    var s' := s.(own := own');
    hide Owned, Take, Quiet, PhaseOk, LogOk, CompletionOk;
    forall u
      ensures ThreadOk(s', u)
    {
      assert ThreadOk(s, u);
    }
  }

  lemma DestroyInv(s: State)
    requires Inv(s)
    ensures Inv(s.(own := Destroy(s.own)))
  {
    DestroyOwned(s.own);
    var s' := s.(own := Destroy(s.own));
    hide Owned, Destroy, Quiet, PhaseOk, LogOk, CompletionOk;
    forall u
      ensures ThreadOk(s', u)
    {
      assert ThreadOk(s, u);
    }
  }

  // ---------------------------------------------------------------- runs

  lemma StepInv(servers: Servers, s: State, step: Step)
    requires Inv(s) && Apply(servers, s, step).Some?
    ensures Inv(Apply(servers, s, step).value)
  {
    hide Inv, Take, Connect, Close, GiveBack, Destroy, EncodeRequest, CallOk, RequestFits;
    hide ServerStep, SendStep, RecvStep, Start, ValidFrame, Want;
    match step {
      case StartReuse(t, key, request) =>
        StartCall(s, t, request);
        StartReuseInv(s, t, key, Call(request, EncodeRequest(request).value));
      case StartFresh(t, key, request) =>
        StartCall(s, t, request);
        StartFreshInv(s, t, key, Call(request, EncodeRequest(request).value));
      case SendSome(t, n) =>
        var p := s.threads[t];
        ThreadPhase(s, t);
        SendKeepsPhase(s.links[p.conn], p, n);
        var (l', p') := SendStep(s.links[p.conn], p, n);
        SendStepConn(s.links[p.conn], p, n);
        ThreadStepInv(s, t, l', p');
      case RecvSome(t, n) =>
        var p := s.threads[t];
        ThreadPhase(s, t);
        RecvKeepsPhase(s.links[p.conn], p, n);
        var (l', p') := RecvStep(s.links[p.conn], p, n);
        RecvStepConn(s.links[p.conn], p, n);
        ThreadStepInv(s, t, l', p');
      case Finish(t) => FinishInv(s, t);
      case Abort(t) => AbortInv(s, t);
      case DiscardIdle(key) => DiscardInv(s, key);
      case DestroyPool => DestroyInv(s);
      case _ =>
        ServerStepKeeps(servers, s.own, step.c, s.links[step.c], step);
        LinkStepInv(s, step.c, ServerStep(servers, s.own, step.c, s.links[step.c], step).value);
    }
  }

  lemma ThreadPhase(s: State, t: nat)
    requires Inv(s) && t in s.threads
    ensures s.threads[t].conn in s.links && PhaseOk(s.links[s.threads[t].conn], s.threads[t])
  {
    assert ThreadOk(s, t);
  }

  lemma SendStepConn(l: Link, p: Phase, n: nat)
    requires p.Sending? && p.offset + n <= |p.call.frame|
    ensures SendStep(l, p, n).1.conn == p.conn && SendStep(l, p, n).1.key == p.key
  {
  }

  lemma RecvStepConn(l: Link, p: Phase, n: nat)
    requires p.Receiving? && n <= |l.down|
    ensures RecvStep(l, p, n).1.conn == p.conn && RecvStep(l, p, n).1.key == p.key
  {
  }

  lemma {:induction false} RunInv(servers: Servers, steps: seq<Step>)
    requires Run(servers, INITIAL, steps).Some?
    ensures Inv(Run(servers, INITIAL, steps).value)
  {
    if steps != [] {
      RunInv(servers, steps[..|steps| - 1]);
      StepInv(servers, Run(servers, INITIAL, steps[..|steps| - 1]).value, steps[|steps| - 1]);
    }
  }

  /** Where replies come from: every logged frame has an accepted length and every logged reply is what dispatch at the
      socket's own endpoint makes of it; every completed call was made on a socket of the endpoint that it was addressed
      to, and its response has an accepted length. */
  ghost predicate Origin(servers: Servers, s: State)
  {
    && (forall c :: c in s.links ==> c in s.own.sockets
                                     && LogOrigin(MethodsAt(servers, s.own.sockets[c].home), s.links[c].log))
    && (forall i :: 0 <= i < |s.done| ==>
                      && s.done[i].conn in s.own.sockets && s.own.sockets[s.done[i].conn].home == s.done[i].key
                      && ValidFrame(s.done[i].response))
  }

  predicate LogOrigin(methods: map<Registry.Name, Registry.Registered>, log: seq<Exchange>)
  {
    forall i :: 0 <= i < |log| ==>
                  && ValidFrame(log[i].frame) && Dispatcher.PayloadFits(log[i].outcome)
                  && Dispatcher.OnFrame(methods, log[i].frame, log[i].outcome) == Some(log[i].reply)
  }

  lemma ServerStepOrigin(servers: Servers, own: Ownership, c: SocketId, l: Link, step: Step)
    requires ServerStep(servers, own, c, l, step).Some? && c in own.sockets
    requires LogOrigin(MethodsAt(servers, own.sockets[c].home), l.log)
    ensures LogOrigin(MethodsAt(servers, own.sockets[c].home), ServerStep(servers, own, c, l, step).value.log)
  {
    if step.ServerHandle? && |l.input| >= 4 && |l.input| >= 4 + GetU32(l.input) { TakenFrame(l.input); }
    hide Dispatcher.OnFrame, MethodsAt, ValidFrame, GetU32;
  }

  lemma TakenFrame(input: seq<Byte>)
    requires |input| >= 4 && |input| >= 4 + GetU32(input)
    ensures LengthAccepted(GetU32(input)) ==> ValidFrame(input[..4 + GetU32(input)])
  {
    var f := input[..4 + GetU32(input)];
    assert f[..4] == input[..4];
    assert GetU32(f) == GetU32(f[..4]) == GetU32(input[..4]) == GetU32(input);
  }

  /** No socket is forgotten or moves to another endpoint. */
  ghost predicate HomesKept(o: Ownership, o': Ownership)
  {
    forall c :: c in o.sockets ==> c in o'.sockets && o'.sockets[c].home == o.sockets[c].home
  }

  lemma OwnershipKeepsHomes(o: Ownership, key: Key, c: SocketId)
    requires Owned(o)
    ensures HomesKept(o, Connect(o, key).0) && HomesKept(o, Close(o, c)) && HomesKept(o, GiveBack(o, key, c))
    ensures Take(o, key).Some? ==>
              HomesKept(o, Take(o, key).value.0) && HomesKept(o, Close(Take(o, key).value.0, Take(o, key).value.1))
  {
  }

  lemma DestroyKeepsHomes(o: Ownership)
    ensures HomesKept(o, Destroy(o))
  {
  }

  lemma StepHomes(servers: Servers, s: State, step: Step)
    requires Apply(servers, s, step).Some? && Inv(s)
    ensures HomesKept(s.own, Apply(servers, s, step).value.own)
  {
    InvOwned(s);
    hide Inv, Apply, HomesKept, Owned;
    HomesSame(s.own);
    if step.StartReuse? || step.StartFresh? {
      StartHomes(servers, s, step);
    } else if step.Finish? || step.Abort? {
      EndHomes(servers, s, step);
    } else if step.DiscardIdle? || step.DestroyPool? {
      PoolHomes(servers, s, step);
    } else {
      SameOwnership(servers, s, step);
    }
  }

  lemma StartHomes(servers: Servers, s: State, step: Step)
    requires (step.StartReuse? || step.StartFresh?) && Apply(servers, s, step).Some? && Owned(s.own)
    ensures HomesKept(s.own, Apply(servers, s, step).value.own)
  {
    hide HomesKept, MayStart, EncodeRequest, Take, Connect, Close, GiveBack, Destroy, Owned;
    OwnershipKeepsHomes(s.own, step.key, 0);
  }

  lemma EndHomes(servers: Servers, s: State, step: Step)
    requires (step.Finish? || step.Abort?) && Apply(servers, s, step).Some? && Owned(s.own)
    ensures HomesKept(s.own, Apply(servers, s, step).value.own)
  {
    hide HomesKept, ValidFrame, Take, Connect, Close, GiveBack, Destroy, Owned;
    OwnershipKeepsHomes(s.own, s.threads[step.t].key, s.threads[step.t].conn);
  }

  lemma PoolHomes(servers: Servers, s: State, step: Step)
    requires (step.DiscardIdle? || step.DestroyPool?) && Apply(servers, s, step).Some? && Owned(s.own)
    ensures HomesKept(s.own, Apply(servers, s, step).value.own)
  {
    hide HomesKept, Take, Connect, Close, GiveBack, Destroy, Owned;
    if step.DiscardIdle? { OwnershipKeepsHomes(s.own, step.key, 0); } else { DestroyKeepsHomes(s.own); }
  }

  predicate TouchesSockets(step: Step)
  {
    match step
    case StartReuse(_, _, _) => true
    case StartFresh(_, _, _) => true
    case Finish(_) => true
    case Abort(_) => true
    case DiscardIdle(_) => true
    case DestroyPool => true
    case _ => false
  }

  lemma SameOwnership(servers: Servers, s: State, step: Step)
    requires !TouchesSockets(step) && Apply(servers, s, step).Some?
    ensures Apply(servers, s, step).value.own == s.own && Apply(servers, s, step).value.done == s.done
  {
    hide ServerStep, SendStep, RecvStep, Want;
  }

  lemma HomesSame(o: Ownership)
    ensures HomesKept(o, o)
  {
  }

  /** Only the server writes a connection's log. */
  lemma StepLog(servers: Servers, s: State, step: Step, c: SocketId)
    requires Apply(servers, s, step).Some? && c in Apply(servers, s, step).value.links
    ensures var l := Apply(servers, s, step).value.links[c];
            || l.log == []
            || (c in s.links && l.log == s.links[c].log)
            || (c in s.links && ServerStep(servers, s.own, c, s.links[c], step) == Some(l))
  {
    hide EncodeRequest, RequestFits, ServerStep, ValidFrame, Want, Take, Connect, Close, GiveBack, Destroy;
  }

  lemma LinksKnown(s: State)
    requires Inv(s)
    ensures s.links.Keys == s.own.sockets.Keys
  {
  }

  lemma LogsStep(servers: Servers, s: State, s': State, step: Step, c: SocketId)
    requires Origin(servers, s) && HomesKept(s.own, s'.own) && c in s'.own.sockets && c in s'.links
    requires s.links.Keys == s.own.sockets.Keys
    requires || s'.links[c].log == []
             || (c in s.links && s'.links[c].log == s.links[c].log)
             || (c in s.links && ServerStep(servers, s.own, c, s.links[c], step) == Some(s'.links[c]))
    ensures LogOrigin(MethodsAt(servers, s'.own.sockets[c].home), s'.links[c].log)
  {
    if s'.links[c].log != [] {
      hide LogOrigin, MethodsAt, ServerStep;
      if s'.links[c].log != s.links[c].log { ServerStepOrigin(servers, s.own, c, s.links[c], step); }
    }
  }

  lemma StepOrigin(servers: Servers, s: State, step: Step)
    requires Inv(s) && Origin(servers, s) && Apply(servers, s, step).Some?
    ensures Origin(servers, Apply(servers, s, step).value)
  {
    hide Apply, Inv, ServerStep, MethodsAt, LogOrigin, ValidFrame;
    var s' := Apply(servers, s, step).value;
    StepInv(servers, s, step);
    LinksKnown(s);
    LinksKnown(s');
    StepHomes(servers, s, step);
    StepDone(servers, s, step);
    forall c | c in s'.links
      ensures LogOrigin(MethodsAt(servers, s'.own.sockets[c].home), s'.links[c].log)
    {
      StepLog(servers, s, step, c);
      LogsStep(servers, s, s', step, c);
    }
  }

  /** A completed call was made to the endpoint of the socket that it was borrowed for. */
  lemma StepDone(servers: Servers, s: State, step: Step)
    requires Inv(s) && Apply(servers, s, step).Some?
    ensures var s' := Apply(servers, s, step).value;
            forall i :: 0 <= i < |s'.done| ==>
              (i < |s.done| && s'.done[i] == s.done[i])
              || (&& s'.done[i].conn in s.own.sockets && s.own.sockets[s'.done[i].conn].home == s'.done[i].key
                  && ValidFrame(s'.done[i].response))
  {
    if step.Finish? && step.t in s.threads { assert ThreadOk(s, step.t); }
    hide Inv, ThreadOk;
    if !TouchesSockets(step) {
      SameOwnership(servers, s, step);
    } else {
      hide MayStart, EncodeRequest, ValidFrame, Take, Connect, Close, GiveBack, Destroy;
    }
  }

  lemma {:induction false} RunOrigin(servers: Servers, steps: seq<Step>)
    requires Run(servers, INITIAL, steps).Some?
    ensures Origin(servers, Run(servers, INITIAL, steps).value)
  {
    hide Apply, Inv, Origin;
    if steps == [] {
      InitialOrigin(servers);
    } else {
      var front := steps[..|steps| - 1];
      RunInv(servers, front);
      RunOrigin(servers, front);
      StepOrigin(servers, Run(servers, INITIAL, front).value, steps[|steps| - 1]);
    }
  }

  lemma InitialOrigin(servers: Servers)
    ensures Origin(servers, INITIAL)
  {
  }

  /** In every run, every successful round trip returned what dispatch at the endpoint that was called makes of this
      very request, given what the services would do: it is the encoding of that answer, it decodes to it, the id in it
      is the one that was sent, and it is the right answer for whatever was registered at that endpoint. */
  lemma RoundTripsMatch(servers: Servers, steps: seq<Step>, i: nat)
      returns (outcome: Dispatcher.Services)
    requires Run(servers, INITIAL, steps).Some? && i < |Run(servers, INITIAL, steps).value.done|
    ensures var s := Run(servers, INITIAL, steps).value;
            var d := s.done[i];
            var methods := MethodsAt(servers, d.key);
            && d.conn in s.own.sockets && s.own.sockets[d.conn].home == d.key
            && d.conn in s.links && d.index < |s.links[d.conn].asked| && s.links[d.conn].asked[d.index] == d.call
            && d.index < |s.links[d.conn].log|
            && s.links[d.conn].log[d.index] == Exchange(d.call.frame, outcome, d.response)
            && DecodeRequest(d.call.frame) == Ok(d.call.request)
            && Dispatcher.OnFrame(methods, d.call.frame, outcome) == Some(d.response)
            && DecodeResponse(d.response) == Ok(Dispatcher.Answer(methods, d.call.frame, outcome))
            && DecodeResponse(d.response).value.id == d.call.request.id
            && (forall log :: Registry.WellNamed(log) && Registry.Index(log) == methods ==>
                  Dispatcher.RightAnswer(log, d.call.frame, outcome, DecodeResponse(d.response).value))
  {
    hide Run, Dispatcher.OnFrame, Dispatcher.Answer, DecodeRequest, DecodeResponse;
    RunInv(servers, steps);
    RunOrigin(servers, steps);
    var s := Run(servers, INITIAL, steps).value;
    var d := s.done[i];
    assert CompletionOk(d, s.links);
    outcome := s.links[d.conn].log[d.index].outcome;
    Dispatcher.AnswerDecodes(MethodsAt(servers, d.key), d.call.frame, outcome);
    IdOfDecoded(d.call);
    hide Registry.Index, Registry.WellNamed, Dispatcher.RightAnswer, MethodsAt;
    forall log | Registry.WellNamed(log) && Registry.Index(log) == MethodsAt(servers, d.key)
      ensures Dispatcher.RightAnswer(log, d.call.frame, outcome, DecodeResponse(d.response).value)
    {
      Dispatcher.AnswerIsRight(log, d.call.frame, outcome);
    }
  }

  /** What `InvokeAsync` makes of a response frame: the payload for the caller, or an error. */
  function Delivered(frame: Frame): (r: Result<seq<Byte>>)
  {
    match DecodeResponse(frame)
    case Err(e) => Err(e)
    case Ok(response) =>
      if response.status == OK then Ok(response.payload) else Err(RpcError(response.status, response.errorText))
  }

  /** End to end, in every run: what was registered last at the endpoint under exactly the requested names was called
      with the request's own metadata and payload, and the caller gets its reply, or the error of the stage that
      failed. */
  lemma CallerGets(servers: Servers, steps: seq<Step>, i: nat, log: seq<Registry.Registered>)
      returns (services: Dispatcher.Services)
    requires Run(servers, INITIAL, steps).Some? && i < |Run(servers, INITIAL, steps).value.done|
    requires Registry.WellNamed(log)
    requires MethodsAt(servers, Run(servers, INITIAL, steps).value.done[i].key) == Registry.Index(log)
    ensures var d := Run(servers, INITIAL, steps).value.done[i];
            var request := d.call.request;
            var links := Run(servers, INITIAL, steps).value.links;
            && d.conn in links && d.index < |links[d.conn].log|
            && links[d.conn].log[d.index] == Exchange(d.call.frame, services, d.response)
            && Delivered(d.response)
              == (match Registry.LastMatch(log, request.service, request.method_)
                  case None =>
                    if exists k :: 0 <= k < |log| && log[k].service == request.service
                    then Err(RpcError(UNKNOWN_METHOD, Ascii("unknown method")))
                    else Err(RpcError(UNKNOWN_SERVICE, Ascii("unknown service")))
                  case Some(target) =>
                    match Dispatcher.Invoke(services,
                                            Dispatcher.Invocation(target, request.metadata, request.payload))
                    case Replied(payload) => Ok(payload)
                    case DeserializeFailed => Err(RpcError(DESERIALIZE_ERROR, Ascii("protobuf deserialize failed")))
                    case DoneNotCalled =>
                      Err(RpcError(INTERNAL_ERROR, Ascii("asynchronous server callbacks are unsupported")))
                    case SerializeFailed => Err(RpcError(SERIALIZE_ERROR, Ascii("protobuf serialize failed"))))
  {
    hide Run, DecodeRequest, DecodeResponse, Dispatcher.OnFrame, Dispatcher.Answer, Registry.Index;
    hide Registry.LastMatch, Registry.WellNamed, MethodsAt, Dispatcher.Invoke;
    services := RoundTripsMatch(servers, steps, i);
  }

  lemma IdOfDecoded(call: Call)
    requires CallOk(call)
    ensures Dispatcher.IdOf(call.frame) == call.request.id
  {
  }

  /** In every run, every completed call had a request and a response within the accepted length. */
  lemma CompletedCallsFit(servers: Servers, steps: seq<Step>, i: nat)
    requires Run(servers, INITIAL, steps).Some? && i < |Run(servers, INITIAL, steps).value.done|
    ensures var d := Run(servers, INITIAL, steps).value.done[i];
            ValidFrame(d.call.frame) && ValidFrame(d.response)
  {
    hide Run, ValidFrame;
    RunInv(servers, steps);
    RunOrigin(servers, steps);
    var s := Run(servers, INITIAL, steps).value;
    assert CompletionOk(s.done[i], s.links);
  }

  /** In every run, an idle pooled connection has no byte in flight in either direction, and every call made on it was
      answered, in order. */
  lemma IdleConnectionsAreQuiet(servers: Servers, steps: seq<Step>, key: Key, c: SocketId)
    requires Run(servers, INITIAL, steps).Some? && Holds(Run(servers, INITIAL, steps).value.own.pool, key, c)
    ensures var s := Run(servers, INITIAL, steps).value;
            && c in s.links
            && s.links[c].up == s.links[c].input == s.links[c].output == s.links[c].down == []
            && |s.links[c].log| == |s.links[c].asked|
            && forall i :: 0 <= i < |s.links[c].log| ==> s.links[c].log[i].frame == s.links[c].asked[i].frame
  {
    RunInv(servers, steps);
  }

  /** In every run, each client socket is idle in one bucket of its own endpoint, or held by exactly one thread, or
      closed exactly once; buckets hold one to eight. */
  lemma SocketsHaveOneOwner(servers: Servers, steps: seq<Step>, c: SocketId)
    requires Run(servers, INITIAL, steps).Some? && c in Run(servers, INITIAL, steps).value.own.sockets
    ensures var s := Run(servers, INITIAL, steps).value;
            var info := s.own.sockets[c];
            var idle := Holds(s.own.pool, info.home, c);
            var held := exists t :: t in s.threads && s.threads[t].conn == c;
            && info.closes <= 1
            && (info.closes == 0 <==> idle || held) && !(idle && held)
            && (forall k :: Holds(s.own.pool, k, c) ==> k == info.home)
            && (forall t, u :: t in s.threads && u in s.threads && s.threads[t].conn == c && s.threads[u].conn == c ==>
                                 t == u)
            && (forall k :: k in s.own.pool ==> 1 <= |s.own.pool[k]| <= MAX_IDLE)
  {
    RunInv(servers, steps);
    var s := Run(servers, INITIAL, steps).value;
    if t :| t in s.threads && s.threads[t].conn == c { assert ThreadOk(s, t); }
  }

  // ---------------------------------------------------------------- request ids

  /** Call number `i` on connection `c` was sent with this id. */
  ghost predicate AskedWith(s: State, c: SocketId, i: int, id: int)
  {
    c in s.links && 0 <= i < |s.links[c].asked| && s.links[c].asked[i].request.id == id
  }

  ghost predicate IdsOk(s: State)
  {
    && s.nextId >= 1
    && (forall c, i, id :: AskedWith(s, c, i, id) ==> 1 <= id < s.nextId)
    && (forall c, i, d, j, id :: AskedWith(s, c, i, id) && AskedWith(s, d, j, id) ==> c == d && i == j)
  }

  predicate Starts(step: Step)
  {
    step.StartReuse? || step.StartFresh?
  }

  /** A step that starts no call sends no id. */
  lemma OtherAsked(servers: Servers, s: State, step: Step, c: SocketId)
    requires Apply(servers, s, step).Some? && !Starts(step) && c in Apply(servers, s, step).value.links
    ensures Apply(servers, s, step).value.nextId == s.nextId
    ensures c in s.links && Apply(servers, s, step).value.links[c].asked == s.links[c].asked
  {
    hide EncodeRequest, RequestFits, ValidFrame, Want, Take, Connect, Close, GiveBack, Destroy, ServerStep;
    if c in s.links && ServerStep(servers, s.own, c, s.links[c], step).Some? {
      ServerKeepsAsked(servers, s.own, c, s.links[c], step);
    }
  }

  lemma ServerKeepsAsked(servers: Servers, own: Ownership, c: SocketId, l: Link, step: Step)
    requires ServerStep(servers, own, c, l, step).Some?
    ensures ServerStep(servers, own, c, l, step).value.asked == l.asked
  {
    hide Dispatcher.OnFrame, MethodsAt, GetU32, LengthAccepted;
  }

  /** A step that starts a call sends the next id, on one connection. */
  lemma StartAsked(servers: Servers, s: State, step: Step) returns (c: SocketId)
    requires Apply(servers, s, step).Some? && Starts(step)
    ensures var s' := Apply(servers, s, step).value;
            && s'.nextId == s.nextId + 1 && c in s'.links && |s'.links[c].asked| > 0
            && s'.links[c].asked[|s'.links[c].asked| - 1].request.id == s.nextId % U64
            && (|s'.links[c].asked| > 1 ==> c in s.links)
            && (c in s.links && |s'.links[c].asked| > 1 ==>
                  s'.links[c].asked[..|s'.links[c].asked| - 1] == s.links[c].asked)
            && (forall d :: d in s'.links && d != c ==> d in s.links && s'.links[d] == s.links[d])
  {
    hide EncodeRequest, RequestFits, Take, Connect;
    c := if step.StartReuse? then Take(s.own, step.key).value.1 else Connect(s.own, step.key).1;
  }

  lemma IdsStep(servers: Servers, s: State, step: Step)
    requires IdsOk(s) && Apply(servers, s, step).Some? && Apply(servers, s, step).value.nextId <= U64
    ensures IdsOk(Apply(servers, s, step).value)
  {
    hide Apply;
    var s' := Apply(servers, s, step).value;
    if Starts(step) {
      var c := StartAsked(servers, s, step);
      var last := |s'.links[c].asked| - 1;
      forall d, i, id | AskedWith(s', d, i, id)
        ensures AskedWith(s, d, i, id) || (d == c && i == last && id == s.nextId)
      {
        if d == c && i < last { assert s'.links[c].asked[..last][i] == s'.links[c].asked[i]; }
      }
    } else {
      SameIds(servers, s, step);
    }
  }

  lemma SameIds(servers: Servers, s: State, step: Step)
    requires Apply(servers, s, step).Some? && !Starts(step)
    ensures Apply(servers, s, step).value.nextId == s.nextId
    ensures forall c, i, id :: AskedWith(Apply(servers, s, step).value, c, i, id) ==> AskedWith(s, c, i, id)
  {
    KeepsNext(servers, s, step);
    hide Apply;
    var s' := Apply(servers, s, step).value;
    forall c, i, id | AskedWith(s', c, i, id) ensures AskedWith(s, c, i, id) { OtherAsked(servers, s, step, c); }
  }

  lemma KeepsNext(servers: Servers, s: State, step: Step)
    requires Apply(servers, s, step).Some?
    ensures Apply(servers, s, step).value.nextId == s.nextId + (if Starts(step) then 1 else 0)
  {
    hide EncodeRequest, RequestFits, ValidFrame, Want, Take, Connect, Close, GiveBack, Destroy, ServerStep, SendStep;
    hide RecvStep;
  }

  lemma {:induction false} RunIds(servers: Servers, steps: seq<Step>)
    requires Run(servers, INITIAL, steps).Some? && Run(servers, INITIAL, steps).value.nextId <= U64
    ensures IdsOk(Run(servers, INITIAL, steps).value)
  {
    hide Apply;
    if steps != [] {
      var front := steps[..|steps| - 1];
      KeepsNext(servers, Run(servers, INITIAL, front).value, steps[|steps| - 1]);
      RunIds(servers, front);
      IdsStep(servers, Run(servers, INITIAL, front).value, steps[|steps| - 1]);
    }
  }

  /** In every run of fewer than 2^64 calls, no two calls carry the same id, and none carries 0. */
  lemma IdsDistinct(servers: Servers, steps: seq<Step>, c: SocketId, i: nat, d: SocketId, j: nat)
    requires Run(servers, INITIAL, steps).Some? && Run(servers, INITIAL, steps).value.nextId <= U64
    requires var links := Run(servers, INITIAL, steps).value.links;
             c in links && i < |links[c].asked| && d in links && j < |links[d].asked| && (c != d || i != j)
    ensures var links := Run(servers, INITIAL, steps).value.links;
            && links[c].asked[i].request.id != 0
            && links[c].asked[i].request.id != links[d].asked[j].request.id
  {
    hide Run;
    RunIds(servers, steps);
    var s := Run(servers, INITIAL, steps).value;
    assert AskedWith(s, c, i, s.links[c].asked[i].request.id) && AskedWith(s, d, j, s.links[d].asked[j].request.id);
  }

  // ---------------------------------------------------------------- completing runs

  lemma RunStep(servers: Servers, s: State, steps: seq<Step>, step: Step)
    requires Run(servers, s, steps).Some?
    ensures Run(servers, s, steps + [step]) == Apply(servers, Run(servers, s, steps).value, step)
  {
    hide Apply;
    assert (steps + [step])[..|steps|] == steps;
  }

  lemma RunNone(servers: Servers, s: State)
    ensures Run(servers, s, []) == Some(s)
  {
  }

  /** A state with one link and one thread replaced. */
  function With(s: State, c: SocketId, t: nat, l: Link, p: Phase): (s': State)
  {
    s.(links := s.links[c := l], threads := s.threads[t := p])
  }

  lemma WithAgain(s: State, c: SocketId, t: nat, l: Link, p: Phase, l': Link, p': Phase)
    ensures var w := With(s, c, t, l, p);
            && w.(links := w.links[c := l'], threads := w.threads[t := p']) == With(s, c, t, l', p')
            && w.(links := w.links[c := l']) == With(s, c, t, l', p)
  {
    assert s.links[c := l][c := l'] == s.links[c := l'];
    assert s.threads[t := p][t := p'] == s.threads[t := p'];
  }

  lemma StartStep(servers: Servers, s: State, t: nat, key: Key, request: Request)
    requires MayStart(s, t, request)
    ensures var (own, c) := Connect(s.own, key);
            var call := Call(request, EncodeRequest(request).value);
            && Apply(servers, s, StartFresh(t, key, request))
               == Some(With(s.(own := own, nextId := s.nextId + 1), c, t, NEW_LINK.(asked := [call]),
                            Sending(call, key, c, 0)))
            && c in own.sockets && own.sockets[c].home == key
  {
    hide EncodeRequest, RequestFits;
    assert [] + [Call(request, EncodeRequest(request).value)] == [Call(request, EncodeRequest(request).value)];
  }

  lemma ReuseStep(servers: Servers, s: State, t: nat, key: Key, request: Request)
    requires Inv(s) && MayStart(s, t, request) && Take(s.own, key).Some?
    ensures var (own, c) := Take(s.own, key).value;
            var call := Call(request, EncodeRequest(request).value);
            && c in s.links && Quiet(s.links[c])
            && Apply(servers, s, StartReuse(t, key, request))
               == Some(With(s.(own := own, nextId := s.nextId + 1), c, t,
                            s.links[c].(asked := s.links[c].asked + [call]), Sending(call, key, c, 0)))
            && c in own.sockets && own.sockets[c].home == key
  {
    hide Inv, EncodeRequest, RequestFits, Take, Quiet, LogOk, Owned;
    var (own, c) := Take(s.own, key).value;
    InvOwned(s);
    TakeOwned(s.own, key);
    IdleLink(s, key, c);
  }

  lemma SendAllStep(servers: Servers, s: State, c: SocketId, t: nat, l: Link, call: Call, key: Key)
    requires |call.frame| > 0 && l.up == []
    ensures Apply(servers, With(s, c, t, l, Sending(call, key, c, 0)), SendSome(t, |call.frame|))
         == Some(With(s, c, t, l.(up := call.frame), Receiving(call, key, c, [])))
  {
    assert [] + call.frame[0..|call.frame|] == call.frame;
    WithAgain(s, c, t, l, Sending(call, key, c, 0), l.(up := call.frame), Receiving(call, key, c, []));
  }

  lemma ServerRecvStep(servers: Servers, s: State, c: SocketId, t: nat, l: Link, p: Phase, n: nat)
    requires l.serverOpen && l.input == [] && n <= |l.up|
    ensures Apply(servers, With(s, c, t, l, p), ServerRecv(c, n))
         == Some(With(s, c, t, l.(up := l.up[n..], input := l.up[..n]), p))
  {
    assert [] + l.up[..n] == l.up[..n];
    WithAgain(s, c, t, l, p, l.(up := l.up[n..], input := l.up[..n]), p);
  }

  lemma ServerHandleStep(servers: Servers, s: State, c: SocketId, t: nat, l: Link, p: Phase,
                         outcome: Dispatcher.Services)
    requires l.serverOpen && l.output == [] && ValidFrame(l.input) && c in s.own.sockets
    requires Dispatcher.PayloadFits(outcome)
    ensures var reply := Dispatcher.OnFrame(MethodsAt(servers, s.own.sockets[c].home), l.input, outcome);
            && reply.Some?
            && Apply(servers, With(s, c, t, l, p), ServerHandle(c, outcome))
               == Some(With(s, c, t, l.(input := [], output := reply.value,
                                        log := l.log + [Exchange(l.input, outcome, reply.value)]), p))
  {
    hide Dispatcher.OnFrame, Answered;
    ReplyAnswered(MethodsAt(servers, s.own.sockets[c].home), l.input, outcome);
    var n := 4 + GetU32(l.input);
    assert l.input[..n] == l.input && l.input[n..] == [];
    var reply := Dispatcher.OnFrame(MethodsAt(servers, s.own.sockets[c].home), l.input, outcome).value;
    assert [] + reply == reply;
    WithAgain(s, c, t, l, p, l.(input := [], output := reply, log := l.log + [Exchange(l.input, outcome, reply)]), p);
  }

  lemma ServerSendStep(servers: Servers, s: State, c: SocketId, t: nat, l: Link, p: Phase)
    requires l.serverOpen && l.down == []
    ensures Apply(servers, With(s, c, t, l, p), ServerSend(c, |l.output|))
         == Some(With(s, c, t, l.(output := [], down := l.output), p))
  {
    assert l.output[|l.output|..] == [] && [] + l.output[..|l.output|] == l.output;
    WithAgain(s, c, t, l, p, l.(output := [], down := l.output), p);
  }

  lemma RecvStepApplies(servers: Servers, s: State, c: SocketId, t: nat, l: Link, p: Phase, n: nat)
    requires p.Receiving? && p.conn == c && 1 <= n <= |l.down| && n <= Want(p.got)
    ensures Apply(servers, With(s, c, t, l, p), RecvSome(t, n))
         == Some(With(s, c, t, l.(down := l.down[n..]), p.(got := p.got + l.down[..n])))
  {
    WithAgain(s, c, t, l, p, l.(down := l.down[n..]), p.(got := p.got + l.down[..n]));
  }

  /** The state after thread `t` has finished a call on connection `c`. */
  function Completed(s: State, c: SocketId, t: nat, l: Link, call: Call, key: Key, reply: Frame): (s': State)
    requires |l.asked| > 0
  {
    State(GiveBack(s.own, key, c), s.links[c := l], s.threads - {t},
          s.done + [Completion(call, key, c, |l.asked| - 1, reply)], s.nextId)
  }

  /** A connection on which nothing is in flight. */
  predicate Silent(l: Link)
  {
    l.up == l.input == l.output == l.down == []
  }

  /** A call that has begun on a silent connection can run to its end: the server handles the front frame of what the
      client sends, and the client takes the reply for its own. `extra` is what the server has not looked at. */
  lemma CompleteFrom(servers: Servers, s: State, c: SocketId, t: nat, l: Link, call: Call, key: Key, front: Frame,
                     extra: seq<Byte>, outcome: Dispatcher.Services) returns (steps: seq<Step>)
    requires call.frame == front + extra && ValidFrame(front) && Dispatcher.PayloadFits(outcome)
    requires l.serverOpen && Silent(l) && |l.asked| > 0 && c in s.own.sockets && s.own.sockets[c].home == key
    requires var reply := Dispatcher.OnFrame(MethodsAt(servers, key), front, outcome);
             reply.Some? ==> ValidFrame(reply.value)
    ensures var reply := Dispatcher.OnFrame(MethodsAt(servers, key), front, outcome);
            && reply.Some?
            && var l' := l.(up := extra, log := l.log + [Exchange(front, outcome, reply.value)]);
            Run(servers, With(s, c, t, l, Sending(call, key, c, 0)), steps)
              == Some(Completed(s, c, t, l', call, key, reply.value))
  {
    assert |front| > 0;
    var start := With(s, c, t, l, Sending(call, key, c, 0));
    hide Apply, Run, With, Completed, Dispatcher.OnFrame, MethodsAt, GetU32, ValidFrame;
    RunNone(servers, start);
    steps := [];
    SendAllStep(servers, s, c, t, l, call, key);
    RunStep(servers, start, steps, SendSome(t, |call.frame|));
    steps := steps + [SendSome(t, |call.frame|)];

    var p := Receiving(call, key, c, []);
    assert call.frame[..|front|] == front && call.frame[|front|..] == extra;
    ServerRecvStep(servers, s, c, t, l.(up := call.frame), p, |front|);
    RunStep(servers, start, steps, ServerRecv(c, |front|));
    steps := steps + [ServerRecv(c, |front|)];

    ServerHandleStep(servers, s, c, t, l.(up := extra, input := front), p, outcome);
    RunStep(servers, start, steps, ServerHandle(c, outcome));
    steps := steps + [ServerHandle(c, outcome)];
    var reply := Dispatcher.OnFrame(MethodsAt(servers, key), front, outcome).value;
    var l' := l.(up := extra, log := l.log + [Exchange(front, outcome, reply)]);

    ServerSendStep(servers, s, c, t, l'.(output := reply), p);
    RunStep(servers, start, steps, ServerSend(c, |reply|));
    steps := steps + [ServerSend(c, |reply|)];

    var rest := ReceiveReply(servers, s, c, t, l', p, reply);
    RunJoin(servers, start, steps, rest);
    steps := steps + rest;
  }

  lemma {:induction false} RunJoin(servers: Servers, s: State, first: seq<Step>, second: seq<Step>)
    requires Run(servers, s, first).Some?
    ensures Run(servers, s, first + second) == Run(servers, Run(servers, s, first).value, second)
  {
    hide Apply;
    if second == [] {
      assert first + second == first;
    } else {
      var front := second[..|second| - 1];
      RunJoin(servers, s, first, front);
      assert (first + second)[..|first + second| - 1] == first + front;
    }
  }

  lemma RunFirst(servers: Servers, s: State, first: Step, rest: seq<Step>)
    requires Apply(servers, s, first).Some?
    ensures Run(servers, s, [first] + rest) == Run(servers, Apply(servers, s, first).value, rest)
  {
    hide Apply;
    assert [first][..0] == [];
    assert Run(servers, s, [first]) == Apply(servers, s, first);
    RunJoin(servers, s, [first], rest);
  }

  lemma WholeReply(reply: Frame)
    requires ValidFrame(reply)
    ensures |reply| >= 8 && [] + reply[..4] == reply[..4] && reply[..4] + reply[4..] == reply
    ensures Want([]) == 4 && Want(reply[..4]) == |reply| - 4
  {
    assert GetU32(reply[..4]) == GetU32(reply);
  }

  /** The client reads a whole reply and finishes. */
  lemma ReceiveReply(servers: Servers, s: State, c: SocketId, t: nat, l: Link, p: Phase, reply: Frame)
      returns (steps: seq<Step>)
    requires p.Receiving? && p.conn == c && p.got == [] && ValidFrame(reply) && |l.asked| > 0 && l.down == []
    ensures Run(servers, With(s, c, t, l.(down := reply), p), steps)
         == Some(Completed(s, c, t, l, p.call, p.key, reply))
  {
    hide Run, Apply, With, Completed, Want, ValidFrame, GetU32;
    var n := |reply|;
    WholeReply(reply);
    var head := reply[..4];
    var s0 := With(s, c, t, l.(down := reply), p);
    RunNone(servers, s0);
    steps := [];
    RecvStepApplies(servers, s, c, t, l.(down := reply), p, 4);
    RunStep(servers, s0, steps, RecvSome(t, 4));
    steps := steps + [RecvSome(t, 4)];
    assert reply[4..][..n - 4] == reply[4..] && reply[4..][n - 4..] == [];
    RecvStepApplies(servers, s, c, t, l.(down := reply[4..]), p.(got := head), n - 4);
    RunStep(servers, s0, steps, RecvSome(t, n - 4));
    steps := steps + [RecvSome(t, n - 4)];
    FinishStep(servers, s, c, t, l, p.(got := reply));
    RunStep(servers, s0, steps, Finish(t));
    steps := steps + [Finish(t)];
  }

  lemma FinishStep(servers: Servers, s: State, c: SocketId, t: nat, l: Link, p: Phase)
    requires p.Receiving? && p.conn == c && ValidFrame(p.got) && |l.asked| > 0
    ensures Apply(servers, With(s, c, t, l, p), Finish(t)) == Some(Completed(s, c, t, l, p.call, p.key, p.got))
  {
    hide GiveBack, ValidFrame;
    assert s.threads[t := p] - {t} == s.threads - {t};
  }

  /** Nothing in the step system blocks: from any state at all, a free thread can complete a call on a fresh connection
      with exactly the reply that dispatch computes for it, whatever the other threads hold. */
  lemma CallCanComplete(
      servers: Servers, s: State, t: nat, key: Key, request: Request, outcome: Dispatcher.Services)
      returns (steps: seq<Step>)
    requires MayStart(s, t, request) && ValidFrame(EncodeRequest(request).value)
    requires Dispatcher.PayloadFits(outcome)
    requires var reply := Dispatcher.OnFrame(MethodsAt(servers, key), EncodeRequest(request).value, outcome);
             reply.Some? ==> ValidFrame(reply.value)
    ensures var r := Run(servers, s, steps);
            var call := Call(request, EncodeRequest(request).value);
            var reply := Dispatcher.OnFrame(MethodsAt(servers, key), call.frame, outcome);
            && r.Some? && reply.Some?
            && r.value.done == s.done + [Completion(call, key, Connect(s.own, key).1, 0, reply.value)]
            && (|IdleAt(s.own.pool, key)| < MAX_IDLE ==> Holds(r.value.own.pool, key, Connect(s.own, key).1))
  {
    hide Apply, Run, Dispatcher.OnFrame, MethodsAt, Connect, EncodeRequest, MayStart, ValidFrame, With;
    EncodesWhenStarted(s, t, request);
    var call := Call(request, EncodeRequest(request).value);
    var (own, c) := Connect(s.own, key);
    StartStep(servers, s, t, key, request);
    assert call.frame + [] == call.frame;
    var s1 := s.(own := own, nextId := s.nextId + 1);
    var rest := CompleteFrom(servers, s1, c, t, NEW_LINK.(asked := [call]), call, key, call.frame, [], outcome);
    RunFirst(servers, s, StartFresh(t, key, request), rest);
    steps := [StartFresh(t, key, request)] + rest;
    PooledAgain(s.own, key);
  }

  lemma PooledAgain(o: Ownership, key: Key)
    ensures var (own, c) := Connect(o, key);
            |IdleAt(o.pool, key)| < MAX_IDLE ==> Holds(GiveBack(own, key, c).pool, key, c)
  {
    var (own, c) := Connect(o, key);
    GiveBackIs(own, key, c);
  }

  lemma TakenAgain(o: Ownership, key: Key)
    requires Owned(o) && Take(o, key).Some?
    ensures var (own, c) := Take(o, key).value;
            GiveBack(own, key, c).pool == o.pool && GiveBack(own, key, c).sockets == o.sockets
  {
    ReturnIs(o, key, true, true);
  }

  lemma QuietIsSilent(l: Link)
    requires Quiet(l)
    ensures Silent(l)
  {
  }

  /** The same on a pooled connection that the server has not closed, in any state that a run can reach. */
  lemma CallCanCompleteReused(
      servers: Servers, s: State, t: nat, key: Key, request: Request, outcome: Dispatcher.Services)
      returns (steps: seq<Step>)
    requires Inv(s) && MayStart(s, t, request) && ValidFrame(EncodeRequest(request).value)
    requires Take(s.own, key).Some? && Take(s.own, key).value.1 in s.links
    requires s.links[Take(s.own, key).value.1].serverOpen && Dispatcher.PayloadFits(outcome)
    requires var reply := Dispatcher.OnFrame(MethodsAt(servers, key), EncodeRequest(request).value, outcome);
             reply.Some? ==> ValidFrame(reply.value)
    ensures var r := Run(servers, s, steps);
            var call := Call(request, EncodeRequest(request).value);
            var reply := Dispatcher.OnFrame(MethodsAt(servers, key), call.frame, outcome);
            var c := Take(s.own, key).value.1;
            && r.Some? && reply.Some?
            && r.value.done == s.done + [Completion(call, key, c, |s.links[c].asked|, reply.value)]
            && r.value.own.pool == s.own.pool && r.value.own.sockets == s.own.sockets
  {
    hide Inv, Apply, Run, Dispatcher.OnFrame, MethodsAt, Take, EncodeRequest, MayStart, ValidFrame, Quiet, With;
    EncodesWhenStarted(s, t, request);
    var call := Call(request, EncodeRequest(request).value);
    var (own, c) := Take(s.own, key).value;
    ReuseStep(servers, s, t, key, request);
    QuietIsSilent(s.links[c]);
    assert call.frame + [] == call.frame;
    var s1 := s.(own := own, nextId := s.nextId + 1);
    var l := s.links[c].(asked := s.links[c].asked + [call]);
    var rest := CompleteFrom(servers, s1, c, t, l, call, key, call.frame, [], outcome);
    RunFirst(servers, s, StartReuse(t, key, request), rest);
    steps := [StartReuse(t, key, request)] + rest;
    InvOwned(s);
    TakenAgain(s.own, key);
  }

  /** Some completion in the run is this one. */
  ghost predicate Completes(servers: Servers, steps: seq<Step>, call: Call, key: Key, response: Frame)
  {
    && Run(servers, INITIAL, steps).Some?
    && exists d :: d in Run(servers, INITIAL, steps).value.done && d.call == call && d.key == key
                   && d.response == response
  }

  lemma EncodesWhenStarted(s: State, t: nat, request: Request)
    requires MayStart(s, t, request)
    ensures EncodeRequest(request).Ok?
  {
  }

  /** Exactly when a call can complete: after any run, a call that a free thread may start has a continuation that
      completes it with the reply of dispatch if and only if request and reply are within the accepted length. */
  lemma CompletesExactly(
      servers: Servers, before: seq<Step>, t: nat, key: Key, request: Request, outcome: Dispatcher.Services)
    requires Run(servers, INITIAL, before).Some? && MayStart(Run(servers, INITIAL, before).value, t, request)
    requires Dispatcher.PayloadFits(outcome)
    ensures var call := Call(request, EncodeRequest(request).value);
            var reply := Dispatcher.OnFrame(MethodsAt(servers, key), call.frame, outcome);
            && reply.Some?
            && ((exists steps :: Completes(servers, before + steps, call, key, reply.value)) <==>
                ValidFrame(call.frame) && ValidFrame(reply.value))
  {
    hide Run, Dispatcher.OnFrame, MethodsAt, EncodeRequest, MayStart, ValidFrame, Answered, Connect;
    EncodesWhenStarted(Run(servers, INITIAL, before).value, t, request);
    var call := Call(request, EncodeRequest(request).value);
    ReplyAnswered(MethodsAt(servers, key), call.frame, outcome);
    var reply := Dispatcher.OnFrame(MethodsAt(servers, key), call.frame, outcome).value;
    if steps :| Completes(servers, before + steps, call, key, reply) {
      var done := Run(servers, INITIAL, before + steps).value.done;
      var d :| d in done && d.call == call && d.key == key && d.response == reply;
      var i :| 0 <= i < |done| && done[i] == d;
      CompletedCallsFit(servers, before + steps, i);
    }
    if ValidFrame(call.frame) && ValidFrame(reply) {
      var s := Run(servers, INITIAL, before).value;
      var steps := CallCanComplete(servers, s, t, key, request, outcome);
      RunJoin(servers, INITIAL, before, steps);
      var done := Run(servers, INITIAL, before + steps).value.done;
      assert done[|done| - 1] in done;
      assert Completes(servers, before + steps, call, key, reply);
    }
  }

  lemma ReplyFits(methods: map<Registry.Name, Registry.Registered>, frame: Frame, outcome: Dispatcher.Services)
    requires Dispatcher.RepliesWithin(outcome, MAX_FRAME_BODY - Dispatcher.REPLY_OVERHEAD)
    ensures Dispatcher.PayloadFits(outcome)
    ensures Dispatcher.OnFrame(methods, frame, outcome).Some?
    ensures ValidFrame(Dispatcher.OnFrame(methods, frame, outcome).value)
  {
    hide Dispatcher.OnFrame, Dispatcher.Answer, DecodeResponse;
    Dispatcher.AnswerDecodes(methods, frame, outcome);
    Dispatcher.AnswerLength(methods, frame, outcome, MAX_FRAME_BODY - Dispatcher.REPLY_OVERHEAD);
  }

  /** Why calls must fit: what `StartFresh` would do with a request whose metadata is a multiple of 2^32 bytes long. The
      lengths wrap, the server answers a shorter request that nobody made, and the client takes that answer for its own
      and pools the connection with the rest of its frame still in flight. */
  lemma TruncationBreaksMatching(
      servers: Servers, s: State, t: nat, key: Key, request: Request, outcome: Dispatcher.Services)
      returns (other: Request, front: Frame, steps: seq<Step>)
    requires |request.metadata| >= U32 && |request.metadata| % U32 == 0
    requires 4 + RequestHeaderSize(HeaderOf(request)) + |request.payload| <= MAX_FRAME_BODY
    requires Dispatcher.RepliesWithin(outcome, MAX_FRAME_BODY - Dispatcher.REPLY_OVERHEAD)
    ensures EncodeRequest(request).Ok?
    ensures var call := Call(request, EncodeRequest(request).value);
            var (own, c) := Connect(s.own, key);
            var s1 := s.(own := own, nextId := s.nextId + 1);
            var r := Run(servers, With(s1, c, t, NEW_LINK.(asked := [call]), Sending(call, key, c, 0)), steps);
            && DecodeRequest(front) == Ok(other) && other.id == request.id && other != request
            && r.Some? && |r.value.done| == |s.done| + 1 && c in r.value.links && r.value.links[c].up != []
            && var d := r.value.done[|s.done|];
            && d.call == call && d.key == key
            && Dispatcher.OnFrame(MethodsAt(servers, key), front, outcome) == Some(d.response)
            && r.value.own == GiveBack(own, key, c)
  {
    hide RequestHeaderSize;
    NamesWithin(HeaderOf(request));
    var extra;
    front, extra, other := TruncatedRequest(request);
    var call := Call(request, EncodeRequest(request).value);
    var (own, c) := Connect(s.own, key);
    ReplyFits(MethodsAt(servers, key), front, outcome);
    var s1 := s.(own := own, nextId := s.nextId + 1);
    assert c in own.sockets && own.sockets[c].home == key;
    hide Run, Dispatcher.OnFrame, MethodsAt, Connect, EncodeRequest, ValidFrame, GiveBack, DecodeRequest;
    steps := CompleteFrom(servers, s1, c, t, NEW_LINK.(asked := [call]), call, key, front, extra, outcome);
  }
}

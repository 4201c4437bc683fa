/** The client's send and receive loops on one socket. */
module ClientIo {
  import opened Bytes
  import opened Codec
  import opened Framing

  /** Result of one `send` or `recv`: it moved bytes, was interrupted, would have blocked (and the wait that the
      asynchronous loop then makes ends ready or not), or failed. A script that runs out stands for a failure. */
  datatype Io = Moved(count: nat) | Interrupted | WouldBlock(ready: bool) | Failed

  /** What a receive loop leaves: whether it filled its buffer, the bytes it got, the rest of the stream and the
      results not yet used. */
  datatype Received = Received(ok: bool, got: seq<Byte>, stream: seq<Byte>, rest: seq<Io>)

  datatype Sent = Sent(ok: bool, offset: nat, rest: seq<Io>)

  function Least(a: nat, b: nat): (m: nat)
    ensures m <= a && m <= b
  {
    if a <= b then a else b
  }

  /** Receiving `want` bytes. A would-block is an error for the blocking loop (its socket timed out) and a wait for
      the asynchronous one. */
  function Receive(async_: bool, io: seq<Io>, stream: seq<Byte>, want: nat): (r: Received)
    ensures |r.got| <= want && r.got + r.stream == stream
    ensures r.ok <==> |r.got| == want
    decreases |io|
  {
    if want == 0 then Received(true, [], stream, io)
    else if io == [] then Received(false, [], stream, [])
    else
      match io[0]
      case Interrupted => Receive(async_, io[1..], stream, want)
      case WouldBlock(ready) =>
        if async_ && ready then Receive(async_, io[1..], stream, want) else Received(false, [], stream, io[1..])
      case Failed => Received(false, [], stream, io[1..])
      case Moved(count) =>
        var n := Least(Least(count, want), |stream|);
        if n == 0 then Received(false, [], stream, io[1..])
        else
          var r := Receive(async_, io[1..], stream[n..], want - n);
          assert stream == stream[..n] + stream[n..];
          assert (stream[..n] + r.got) + r.stream == stream[..n] + (r.got + r.stream);
          Received(r.ok, stream[..n] + r.got, r.stream, r.rest)
  }

  function Send(async_: bool, io: seq<Io>, size: nat): (r: Sent)
    ensures r.offset <= size
    ensures r.ok <==> r.offset == size
    decreases |io|
  {
    if size == 0 then Sent(true, 0, io)
    else if io == [] then Sent(false, 0, [])
    else
      match io[0]
      case Interrupted => Send(async_, io[1..], size)
      case WouldBlock(ready) =>
        if async_ && ready then Send(async_, io[1..], size) else Sent(false, 0, io[1..])
      case Failed => Sent(false, 0, io[1..])
      case Moved(count) =>
        var n := Least(count, size);
        if n == 0 then Sent(false, 0, io[1..])
        else
          var r := Send(async_, io[1..], size - n);
          Sent(r.ok, n + r.offset, r.rest)
  }

  datatype FrameResult = FrameResult(result: Result<Frame>, stream: seq<Byte>)

  const NETWORK: RpcError := RpcError(NETWORK_ERROR, Ascii("recv failed"))
  const BAD_LENGTH: RpcError := RpcError(INVALID_PACKET, Ascii("response frame length is invalid"))

  function ReceiveFrame(async_: bool, io: seq<Io>, stream: seq<Byte>): (r: FrameResult)
  {
    var prefix := Receive(async_, io, stream, 4);
    if !prefix.ok then FrameResult(Err(NETWORK), prefix.stream)
    else
      var size := GetU32(prefix.got);
      if !LengthAccepted(size) then FrameResult(Err(BAD_LENGTH), prefix.stream)
      else
        var body := Receive(async_, prefix.rest, prefix.stream, size);
        FrameResult(if body.ok then Ok(prefix.got + body.got) else Err(NETWORK), body.stream)
  }

  /** How many bytes the system calls would move before they stop for good. */
  function Budget(async_: bool, io: seq<Io>): (n: nat)
  {
    if io == [] then 0
    else
      match io[0]
      case Interrupted => Budget(async_, io[1..])
      case WouldBlock(ready) => if async_ && ready then Budget(async_, io[1..]) else 0
      case Failed => 0
      case Moved(count) => if count == 0 then 0 else count + Budget(async_, io[1..])
  }

  /** A receive loop gets all that is wanted, available and moved: nothing else can make it stop short. */
  lemma {:induction false} ReceiveGets(async_: bool, io: seq<Io>, stream: seq<Byte>, want: nat)
    ensures |Receive(async_, io, stream, want).got| == Least(Least(want, |stream|), Budget(async_, io))
    ensures Receive(async_, io, stream, want).ok <==> want <= |stream| && want <= Budget(async_, io)
    decreases |io|
  {
    hide Receive;
    if want == 0 { ReceiveNothing(async_, io, stream); } else { ReceiveUnfolds(async_, io, stream, want); }
    if want != 0 && io != [] {
      match io[0] {
        case Moved(count) =>
          var n := Least(Least(count, want), |stream|);
          if n != 0 { ReceiveGets(async_, io[1..], stream[n..], want - n); }
        case Interrupted => ReceiveGets(async_, io[1..], stream, want);
        case WouldBlock(ready) => ReceiveGets(async_, io[1..], stream, want);
        case Failed =>
      }
    }
  }

  /** While the stream lasts, receiving uses up the results that sending as much would. */
  lemma {:induction false} ReceiveUses(async_: bool, io: seq<Io>, stream: seq<Byte>, want: nat)
    requires want <= |stream|
    ensures Receive(async_, io, stream, want).rest == Send(async_, io, want).rest
    decreases |io|
  {
    if want != 0 && io != [] {
      match io[0] {
        case Moved(count) =>
          var n := Least(count, want);
          if n != 0 { ReceiveUses(async_, io[1..], stream[n..], want - n); }
        case Interrupted => ReceiveUses(async_, io[1..], stream, want);
        case WouldBlock(ready) => ReceiveUses(async_, io[1..], stream, want);
        case Failed =>
      }
    }
  }

  /** A send loop moves all that the system calls take. */
  lemma {:induction false} SendMoves(async_: bool, io: seq<Io>, size: nat)
    ensures Send(async_, io, size).offset == Least(size, Budget(async_, io))
    ensures Send(async_, io, size).ok <==> size <= Budget(async_, io)
    decreases |io|
  {
    if size != 0 && io != [] {
      match io[0] {
        case Moved(count) => SendMoves(async_, io[1..], size - Least(count, size));
        case Interrupted => SendMoves(async_, io[1..], size);
        case WouldBlock(ready) => SendMoves(async_, io[1..], size);
        case Failed =>
      }
    }
  }

  /** The system calls deliver the length prefix and, with those that are left, the body. */
  predicate Delivers(async_: bool, io: seq<Io>, body: nat)
  {
    4 <= Budget(async_, io) && body <= Budget(async_, Send(async_, io, 4).rest)
  }

  /** On every stream, every segmentation and every failure, the client agrees with the server's splitter: it returns
      the splitter's first frame and consumes exactly its bytes, if and only if there is one and the system calls
      deliver it; it rejects a length if and only if the splitter closes there; and nothing else ends in a network
      error. */
  lemma ReceiveMatchesSplitter(async_: bool, io: seq<Io>, stream: seq<Byte>)
    ensures var r, o := ReceiveFrame(async_, io, stream), Split(stream);
            && (r.result.Ok? <==> o.frames != [] && Delivers(async_, io, |o.frames[0]| - 4))
            && (r.result.Ok? ==>
                  && r.result.value == o.frames[0] && ValidFrame(r.result.value)
                  && stream == r.result.value + r.stream
                  && o == Prepend([r.result.value], Split(r.stream)))
            && (r.result == Err(BAD_LENGTH) <==> o == Outcome([], [], false) && 4 <= Budget(async_, io))
            && (r.result == Err(NETWORK) <==> !r.result.Ok? && r.result != Err(BAD_LENGTH))
  {
    hide Receive, Send, Budget, ValidFrame, Split, Prepend, GetU32, LengthAccepted;
    var prefix := Receive(async_, io, stream, 4);
    ReceiveGets(async_, io, stream, 4);
    ErrorsDiffer();
    if prefix.ok {
      ReceiveUses(async_, io, stream, 4);
      assert stream[..4] == prefix.got && prefix.stream == stream[4..];
      var size := GetU32(prefix.got);
      SamePrefix(stream);
      if LengthAccepted(size) {
        ReceiveGets(async_, prefix.rest, prefix.stream, size);
        FrontOf(stream, size);
        var body := Receive(async_, prefix.rest, prefix.stream, size);
        if body.ok { WholeFrame(stream, prefix.got, body.got, body.stream); }
      } else {
        ClosedAt(stream);
      }
    } else {
      NotDelivered(stream);
    }
  }

  lemma SamePrefix(stream: seq<Byte>)
    requires |stream| >= 4
    ensures GetU32(stream[..4]) == GetU32(stream) >= 0
  {
  }

  lemma ErrorsDiffer()
    ensures NETWORK != BAD_LENGTH
  {
    assert NETWORK.code != BAD_LENGTH.code;
  }

  lemma ClosedAt(stream: seq<Byte>)
    requires |stream| >= 4 && !LengthAccepted(GetU32(stream))
    ensures Split(stream) == Outcome([], [], false)
  {
  }

  /** The splitter has a first frame exactly when a whole one is there. */
  lemma FrontOf(stream: seq<Byte>, size: int)
    requires |stream| >= 4 && size == GetU32(stream) && LengthAccepted(size)
    ensures Split(stream).frames != [] <==> |stream| >= 4 + size
    ensures Split(stream).frames != [] ==> |Split(stream).frames[0]| == 4 + size
    ensures Split(stream) != Outcome([], [], false)
  {
  }

  lemma NotDelivered(stream: seq<Byte>)
    ensures |stream| < 4 ==> Split(stream).frames == [] && Split(stream).open
  {
  }

  lemma WholeFrame(stream: seq<Byte>, prefix: seq<Byte>, body: seq<Byte>, rest: seq<Byte>)
    requires |prefix| == 4 && stream == prefix + (body + rest)
    requires LengthAccepted(GetU32(prefix)) && |body| == GetU32(prefix)
    ensures var f := prefix + body;
            && ValidFrame(f) && stream == f + rest && Split(stream) == Prepend([f], Split(rest))
            && Split(stream).frames != [] && Split(stream).frames[0] == f
  {
    var f := prefix + body;
    assert f[..4] == prefix;
    assert GetU32(f) == GetU32(prefix);
    assert f + rest == prefix + (body + rest);
    hide Split;
    SplitFront(f, rest);
  }

  /** The waits that ended ready, taken out. */
  function WithoutWaits(io: seq<Io>): (r: seq<Io>)
  {
    if io == [] then []
    else if io[0].WouldBlock? then WithoutWaits(io[1..])
    else [io[0]] + WithoutWaits(io[1..])
  }

  predicate NoWaitTimesOut(io: seq<Io>)
  {
    WouldBlock(false) !in io
  }

  /** Unless a wait times out, the asynchronous loops are the blocking ones. */
  lemma {:induction false} AsyncReceive(io: seq<Io>, stream: seq<Byte>, want: nat)
    requires NoWaitTimesOut(io)
    ensures var a, s := Receive(true, io, stream, want), Receive(false, WithoutWaits(io), stream, want);
            a.ok == s.ok && a.got == s.got && a.stream == s.stream && WithoutWaits(a.rest) == s.rest
            && NoWaitTimesOut(a.rest)
    decreases |io|
  {
    hide Receive;
    if want == 0 {
      ReceiveNothing(true, io, stream);
      ReceiveNothing(false, WithoutWaits(io), stream);
    } else {
      ReceiveUnfolds(true, io, stream, want);
      ReceiveUnfolds(false, WithoutWaits(io), stream, want);
    }
    if want != 0 && io != [] {
      match io[0] {
        case Moved(count) =>
          assert WithoutWaits(io)[1..] == WithoutWaits(io[1..]);
          var n := Least(Least(count, want), |stream|);
          AsyncReceive(io[1..], stream[n..], want - n);
        case Interrupted =>
          assert WithoutWaits(io)[1..] == WithoutWaits(io[1..]);
          AsyncReceive(io[1..], stream, want);
        case WouldBlock(ready) =>
          assert io[0] in io;
          AsyncReceive(io[1..], stream, want);
        case Failed =>
          assert WithoutWaits(io)[1..] == WithoutWaits(io[1..]);
      }
    }
  }

  lemma {:induction false} AsyncSend(io: seq<Io>, size: nat)
    requires NoWaitTimesOut(io)
    ensures var a, s := Send(true, io, size), Send(false, WithoutWaits(io), size);
            a.ok == s.ok && a.offset == s.offset && WithoutWaits(a.rest) == s.rest
    decreases |io|
  {
    if size != 0 && io != [] {
      match io[0] {
        case Moved(count) =>
          assert WithoutWaits(io)[1..] == WithoutWaits(io[1..]);
          AsyncSend(io[1..], size - Least(count, size));
        case Interrupted =>
          assert WithoutWaits(io)[1..] == WithoutWaits(io[1..]);
          AsyncSend(io[1..], size);
        case WouldBlock(ready) =>
          assert io[0] in io;
          AsyncSend(io[1..], size);
        case Failed =>
          assert WithoutWaits(io)[1..] == WithoutWaits(io[1..]);
      }
    }
  }

  lemma AsyncReceiveFrame(io: seq<Io>, stream: seq<Byte>)
    requires NoWaitTimesOut(io)
    ensures ReceiveFrame(true, io, stream) == ReceiveFrame(false, WithoutWaits(io), stream)
  {
    AsyncReceive(io, stream, 4);
    var prefix := Receive(true, io, stream, 4);
    if prefix.ok && LengthAccepted(GetU32(prefix.got)) {
      AsyncReceive(prefix.rest, prefix.stream, GetU32(prefix.got));
    }
  }

  lemma ReceiveNothing(async_: bool, io: seq<Io>, stream: seq<Byte>)
    ensures Receive(async_, io, stream, 0) == Received(true, [], stream, io)
  {
  }

  /** One turn of the receive loop. */
  lemma ReceiveUnfolds(async_: bool, io: seq<Io>, stream: seq<Byte>, want: nat)
    requires want > 0
    ensures var r := Receive(async_, io, stream, want);
            if io == [] then r == Received(false, [], stream, [])
            else
              match io[0]
              case Interrupted => r == Receive(async_, io[1..], stream, want)
              case WouldBlock(ready) =>
                r == (if async_ && ready then Receive(async_, io[1..], stream, want)
                      else Received(false, [], stream, io[1..]))
              case Failed => r == Received(false, [], stream, io[1..])
              case Moved(count) =>
                var n := Least(Least(count, want), |stream|);
                var later := Receive(async_, io[1..], stream[n..], want - n);
                r == (if n == 0 then Received(false, [], stream, io[1..])
                      else Received(later.ok, stream[..n] + later.got, later.stream, later.rest))
  {
  }

  /** One turn of the send loop. */
  lemma SendUnfolds(async_: bool, io: seq<Io>, size: nat)
    requires size > 0
    ensures var r := Send(async_, io, size);
            if io == [] then r == Sent(false, 0, [])
            else
              match io[0]
              case Interrupted => r == Send(async_, io[1..], size)
              case WouldBlock(ready) =>
                r == (if async_ && ready then Send(async_, io[1..], size) else Sent(false, 0, io[1..]))
              case Failed => r == Sent(false, 0, io[1..])
              case Moved(count) =>
                var n := Least(count, size);
                var later := Send(async_, io[1..], size - n);
                r == (if n == 0 then Sent(false, 0, io[1..]) else Sent(later.ok, n + later.offset, later.rest))
  {
  }

  /** One client socket: the bytes still to be read from it, the bytes written to it, and the results of the system
      calls to come. */
  class Socket {
    var stream: seq<Byte>
    var written: seq<Byte>
    var io: seq<Io>

    constructor (stream: seq<Byte>, io: seq<Io>)
      ensures this.stream == stream && this.io == io && written == []
    {
      this.stream, this.io, written := stream, io, [];
    }

    /** The send loop, blocking or asynchronous: success means every byte went out, failure that a proper prefix
        did. */
    method SendAll(async_: bool, data: seq<Byte>) returns (ok: bool)
      modifies this`written, this`io
      ensures var r := Send(async_, old(io), |data|);
              ok == r.ok && written == old(written) + data[..r.offset] && io == r.rest
      ensures ok ==> written == old(written) + data
      ensures !ok ==> exists k :: 0 <= k < |data| && written == old(written) + data[..k]
    {
      var offset := 0;
      assert old(written) + data[..0] == old(written);
      while offset < |data|
        invariant 0 <= offset <= |data| && written == old(written) + data[..offset]
        invariant var r, all := Send(async_, io, |data| - offset), Send(async_, old(io), |data|);
                  all.ok == r.ok && all.offset == offset + r.offset && all.rest == r.rest
        decreases |io|
      {
        if io == [] { return false; }
        var result := io[0];
        io := io[1..];
        match result {
          case Interrupted =>
          case WouldBlock(ready) => if !(async_ && ready) { return false; }
          case Failed => return false;
          case Moved(count) =>
            var n := Least(count, |data| - offset);
            if n == 0 { return false; }
            written := written + data[offset..offset + n];
            assert data[..offset] + data[offset..offset + n] == data[..offset + n];
            offset := offset + n;
        }
      }
      assert data[..offset] == data;
      return true;
    }

    /** The receive loop into a buffer of `want` bytes. */
    method RecvAll(async_: bool, want: nat) returns (ok: bool, buffer: seq<Byte>)
      modifies this`stream, this`io
      ensures var r := Receive(async_, old(io), old(stream), want);
              ok == r.ok && buffer == r.got && stream == r.stream && io == r.rest
    {
      hide Receive, Least;
      buffer := [];
      assert Receive(async_, io, stream, want).got == buffer + Receive(async_, io, stream, want).got;
      while |buffer| < want
        invariant |buffer| <= want
        invariant var r := Receive(async_, io, stream, want - |buffer|);
                  var all := Receive(async_, old(io), old(stream), want);
                  all.ok == r.ok && all.got == buffer + r.got && all.stream == r.stream && all.rest == r.rest
        decreases |io|
      {
        ReceiveUnfolds(async_, io, stream, want - |buffer|);
        assert buffer + [] == buffer;
        if io == [] { return false, buffer; }
        var result := io[0];
        io := io[1..];
        match result {
          case Interrupted =>
          case WouldBlock(ready) => if !(async_ && ready) { return false, buffer; }
          case Failed => return false, buffer;
          case Moved(count) =>
            var n := Least(Least(count, want - |buffer|), |stream|);
            if n == 0 { return false, buffer; }
            ghost var later := Receive(async_, io, stream[n..], want - |buffer| - n).got;
            assert buffer + (stream[..n] + later) == (buffer + stream[..n]) + later;
            buffer := buffer + stream[..n];
            stream := stream[n..];
        }
      }
      ReceiveNothing(async_, io, stream);
      assert buffer + [] == buffer;
      return true, buffer;
    }

    /** Length prefix first, then the body. */
    method ReceiveOne(async_: bool) returns (result: Result<Frame>)
      modifies this`stream, this`io
      ensures FrameResult(result, stream) == ReceiveFrame(async_, old(io), old(stream))
    {
      var ok, prefix := RecvAll(async_, 4);
      if !ok { return Err(NETWORK); }
      var size := GetU32(prefix);
      if !LengthAccepted(size) { return Err(BAD_LENGTH); }
      var body;
      ok, body := RecvAll(async_, size);
      if !ok { return Err(NETWORK); }
      return Ok(prefix + body);
    }
  }
}

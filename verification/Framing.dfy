/** Cutting a byte stream into frames. */
module Framing {
  import opened Bytes
  import Codec

  const MAX_FRAME_BODY: int := 4 * 1024 * 1024

  type Frame = seq<Byte>

  /** Frames delivered, bytes kept, and whether the connection survives. */
  datatype Outcome = Outcome(frames: seq<Frame>, rest: seq<Byte>, open: bool)

  predicate LengthAccepted(n: int)
  {
    4 <= n <= MAX_FRAME_BODY
  }

  /** A frame that the splitter delivers. */
  predicate ValidFrame(f: Frame)
  {
    Codec.SelfDelimiting(f) && LengthAccepted(GetU32(f))
  }

  /** What `ProcessInput` does to a buffer, without the loop. */
  function Split(input: seq<Byte>): (o: Outcome)
    decreases |input|
  {
    if |input| < 4 then Outcome([], input, true)
    else
      var n := GetU32(input);
      if !LengthAccepted(n) then Outcome([], [], false)
      else if |input| < 4 + n then Outcome([], input, true)
      else Prepend([input[..4 + n]], Split(input[4 + n..]))
  }

  function Prepend(frames: seq<Frame>, o: Outcome): (r: Outcome)
  {
    Outcome(frames + o.frames, o.rest, o.open)
  }

  lemma PrependTwice(a: seq<Frame>, b: seq<Frame>, o: Outcome)
    ensures Prepend(a, Prepend(b, o)) == Prepend(a + b, o)
  {
    assert a + (b + o.frames) == (a + b) + o.frames;
  }

  lemma PrependNone(o: Outcome)
    ensures Prepend([], o) == o
  {
    assert [] + o.frames == o.frames;
  }

  /** A buffer that holds no complete frame and no bad length. */
  predicate Settled(input: seq<Byte>)
  {
    Split(input) == Outcome([], input, true)
  }

  lemma SplitOpen(input: seq<Byte>)
    requires |input| >= 4 && LengthAccepted(GetU32(input)) && |input| >= 4 + GetU32(input)
    ensures Split(input) == Prepend([input[..4 + GetU32(input)]], Split(input[4 + GetU32(input)..]))
  {
  }

  lemma SplitFront(f: Frame, rest: seq<Byte>)
    requires ValidFrame(f)
    ensures Split(f + rest) == Prepend([f], Split(rest))
  {
    var whole := f + rest;
    assert whole[..4] == f[..4];
    assert GetU32(whole) == GetU32(f);
    assert whole[..|f|] == f && whole[|f|..] == rest;
    SplitOpen(whole);
  }

  /** The first frame of a buffer, when there is one. */
  lemma FrontFrame(input: seq<Byte>) returns (f: Frame, tail: seq<Byte>)
    requires |input| >= 4 && LengthAccepted(GetU32(input)) && |input| >= 4 + GetU32(input)
    ensures ValidFrame(f) && input == f + tail && |tail| < |input|
    ensures Split(input) == Prepend([f], Split(tail))
  {
    var n := GetU32(input);
    f, tail := input[..4 + n], input[4 + n..];
    assert f[..4] == input[..4];
    assert GetU32(f) == n;
  }

  /** Bytes that arrive later only ever extend what was already decided. */
  lemma {:induction false} SplitAppend(a: seq<Byte>, b: seq<Byte>)
    ensures Split(a + b)
         == (if Split(a).open then Prepend(Split(a).frames, Split(Split(a).rest + b)) else Split(a))
    decreases |a|
  {
    if |a| >= 4 && LengthAccepted(GetU32(a)) && |a| >= 4 + GetU32(a) {
      var f, tail := FrontFrame(a);
      hide Split;
      assert a + b == f + (tail + b);
      SplitFront(f, tail + b);
      SplitAppend(tail, b);
      PrependTwice([f], Split(tail).frames, Split(Split(tail).rest + b));
    } else {
      SplitAppendIncomplete(a, b);
    }
  }

  lemma SplitAppendIncomplete(a: seq<Byte>, b: seq<Byte>)
    requires !(|a| >= 4 && LengthAccepted(GetU32(a)) && |a| >= 4 + GetU32(a))
    ensures Split(a + b)
         == (if Split(a).open then Prepend(Split(a).frames, Split(Split(a).rest + b)) else Split(a))
  {
    PrependNone(Split(a + b));
    if |a| >= 4 {
      assert (a + b)[..4] == a[..4];
      assert GetU32(a + b) == GetU32(a);
    }
  }

  /** One readable event: the bytes join the buffer and the buffer is split. */
  function Feed(o: Outcome, chunk: seq<Byte>): (r: Outcome)
  {
    if !o.open then o else Prepend(o.frames, Split(o.rest + chunk))
  }

  function FeedAll(o: Outcome, chunks: seq<seq<Byte>>): (r: Outcome)
    decreases |chunks|
  {
    if chunks == [] then o else FeedAll(Feed(o, chunks[0]), chunks[1..])
  }

  lemma {:induction false} FeedAllSplit(seen: seq<Byte>, chunks: seq<seq<Byte>>)
    ensures FeedAll(Split(seen), chunks) == Split(seen + Concat(chunks))
    decreases |chunks|
  {
    hide Split;
    if chunks == [] {
      assert seen + Concat(chunks) == seen;
    } else {
      SplitAppend(seen, chunks[0]);
      assert Feed(Split(seen), chunks[0]) == Split(seen + chunks[0]);
      FeedAllSplit(seen + chunks[0], chunks[1..]);
      assert seen + chunks[0] + Concat(chunks[1..]) == seen + (chunks[0] + Concat(chunks[1..]));
    }
  }

  /** However a stream is cut into readable events, the frames, the leftover and the open or closed
      outcome are those of splitting the whole stream at once. */
  lemma SegmentationIndependent(chunks: seq<seq<Byte>>)
    ensures FeedAll(Outcome([], [], true), chunks) == Split(Concat(chunks))
  {
    FeedAllSplit([], chunks);
    assert [] + Concat(chunks) == Concat(chunks);
  }

  lemma ConcatFront(f: Frame, frames: seq<Frame>, tail: seq<Byte>)
    ensures Concat([f] + frames) == f + Concat(frames)
    ensures Concat([f] + frames) + tail == f + (Concat(frames) + tail)
  {
    assert ([f] + frames)[1..] == frames;
  }

  /** A stream of valid frames followed by an incomplete one yields exactly those frames. */
  lemma {:induction false} ValidFramesDelivered(frames: seq<Frame>, tail: seq<Byte>)
    requires forall i :: 0 <= i < |frames| ==> ValidFrame(frames[i])
    requires Settled(tail)
    ensures Split(Concat(frames) + tail) == Outcome(frames, tail, true)
  {
    if frames == [] {
      assert Concat(frames) + tail == tail;
    } else {
      ValidFramesDelivered(frames[1..], tail);
      assert [frames[0]] + frames[1..] == frames;
      ConcatFront(frames[0], frames[1..], tail);
      SplitFront(frames[0], Concat(frames[1..]) + tail);
    }
  }

  /** Frames already complete are delivered, whatever follows them. */
  lemma {:induction false} ValidFramesFirst(frames: seq<Frame>, tail: seq<Byte>)
    requires forall i :: 0 <= i < |frames| ==> ValidFrame(frames[i])
    ensures Split(Concat(frames) + tail) == Prepend(frames, Split(tail))
  {
    if frames == [] {
      assert Concat(frames) + tail == tail;
      PrependNone(Split(tail));
    } else {
      ValidFramesFirst(frames[1..], tail);
      assert [frames[0]] + frames[1..] == frames;
      hide Split;
      ConcatFront(frames[0], frames[1..], tail);
      SplitFront(frames[0], Concat(frames[1..]) + tail);
      PrependTwice([frames[0]], frames[1..], Split(tail));
    }
  }

  /** A length below 4 or above 4 MiB closes the connection, after the frames before it, as soon as it has arrived. */
  lemma BadLengthCloses(frames: seq<Frame>, tail: seq<Byte>)
    requires forall i :: 0 <= i < |frames| ==> ValidFrame(frames[i])
    requires |tail| >= 4 && !(4 <= GetU32(tail) <= 4194304)
    ensures Split(Concat(frames) + tail) == Outcome(frames, [], false)
  {
    ValidFramesFirst(frames, tail);
    assert frames + [] == frames;
  }

  /** Any length from 4 to 4 MiB is accepted. */
  lemma GoodLengthOpens(tail: seq<Byte>)
    requires |tail| >= 4 && 4 <= GetU32(tail) <= 4194304
    ensures |tail| < 4 + GetU32(tail) ==> Split(tail) == Outcome([], tail, true)
    ensures |tail| == 4 + GetU32(tail) ==> Split(tail) == Outcome([tail], [], true)
  {
    if |tail| == 4 + GetU32(tail) {
      SplitOpen(tail);
      assert tail[..|tail|] == tail && tail[|tail|..] == [];
      assert [tail] + [] == [tail];
    }
  }

  /** Only valid frames are delivered. */
  lemma {:induction false} DeliveredValid(input: seq<Byte>)
    ensures forall i :: 0 <= i < |Split(input).frames| ==> ValidFrame(Split(input).frames[i])
    decreases |input|
  {
    if |input| >= 4 && LengthAccepted(GetU32(input)) && |input| >= 4 + GetU32(input) {
      var f, tail := FrontFrame(input);
      DeliveredValid(tail);
    }
  }

  /** Nothing is lost or invented: the frames and the leftover of an open connection spell the stream,
      the leftover is shorter than the largest frame, and a closed connection delivered a prefix. */
  lemma {:induction false} SplitSpells(input: seq<Byte>)
    ensures Split(input).open ==> Concat(Split(input).frames) + Split(input).rest == input
    ensures Split(input).open ==> Settled(Split(input).rest) && |Split(input).rest| < 4 + MAX_FRAME_BODY
    ensures !Split(input).open ==> Concat(Split(input).frames) <= input
    decreases |input|
  {
    if |input| >= 4 && LengthAccepted(GetU32(input)) && |input| >= 4 + GetU32(input) {
      var f, tail := FrontFrame(input);
      SplitSpells(tail);
      ConcatFront(f, Split(tail).frames, Split(tail).rest);
    }
  }
}

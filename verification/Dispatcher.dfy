/** What the server answers to one frame. */
module Dispatcher {
  import opened Bytes
  import opened Headers
  import opened Codec
  import Registry

  type Frame = seq<Byte>
  type Methods = map<Registry.Name, Registry.Registered>

  /** What serializer and service code do with one call. A failure that the controller recorded does not appear: the
      dispatcher does not look at it. */
  datatype CallOutcome =
    | DeserializeFailed
    | DoneNotCalled
    | SerializeFailed
    | Replied(payload: seq<Byte>)

  /** A call into service code: which registration, with which metadata and which argument bytes. */
  datatype Invocation = Invocation(target: Registry.Registered, metadata: seq<Byte>, args: seq<Byte>)

  /** What the services would do with any call at the moment of one dispatch. Services may keep state, so every dispatch
      has its own; a call that is not listed ends without its callback. */
  type Services = map<Invocation, CallOutcome>

  function Invoke(services: Services, call: Invocation): (outcome: CallOutcome)
  {
    if call in services then services[call] else DoneNotCalled
  }

  function HandleFrame(methods: Methods, frame: Frame, services: Services): (r: Result<Frame>)
  {
    match DecodeRequest(frame)
    case Err(e) => Err(e)
    case Ok(request) =>
      match Registry.Lookup(methods, request.service, request.method_)
      case Err(e) => Err(e)
      case Ok(registered) =>
        match Invoke(services, Invocation(registered, request.metadata, request.payload))
        case DeserializeFailed => Err(RpcError(DESERIALIZE_ERROR, Ascii("protobuf deserialize failed")))
        case DoneNotCalled => Err(RpcError(INTERNAL_ERROR, Ascii("asynchronous server callbacks are unsupported")))
        case SerializeFailed => Err(RpcError(SERIALIZE_ERROR, Ascii("protobuf serialize failed")))
        case Replied(payload) => EncodeResponse(Response(request.id, OK, [], payload))
  }

  /** The request id that an answer must carry. */
  function IdOf(frame: Frame): (id: Uint64)
  {
    match DecodeRequest(frame) case Ok(r) => r.id case Err(_) => 0
  }

  /** `OnFrame`: the frame handed to `Send`, if any. */
  function OnFrame(methods: Methods, frame: Frame, services: Services): (r: Option<Frame>)
  {
    match HandleFrame(methods, frame, services)
    case Ok(reply) => Some(reply)
    case Err(e) =>
      match EncodeResponse(Response(IdOf(frame), e.code, e.message, []))
      case Ok(reply) => Some(reply)
      case Err(_) => None
  }

  // ---------------------------------------------------------------- what an answer must be

  /** The answer that the registrations and the services call for. */
  ghost predicate RightAnswer(log: seq<Registry.Registered>, frame: Frame, services: Services, answer: Response)
  {
    match DecodeRequest(frame)
    case Err(e) => answer == Response(0, INVALID_PACKET, e.message, [])
    case Ok(request) =>
      && answer.id == request.id
      && (match Registry.LastMatch(log, request.service, request.method_)
          case None =>
            answer == (if exists i :: 0 <= i < |log| && log[i].service == request.service
                       then Response(request.id, UNKNOWN_METHOD, Ascii("unknown method"), [])
                       else Response(request.id, UNKNOWN_SERVICE, Ascii("unknown service"), []))
          case Some(target) =>
            match Invoke(services, Invocation(target, request.metadata, request.payload))
            case Replied(payload) => answer == Response(request.id, OK, [], payload)
            case DeserializeFailed =>
              answer == Response(request.id, DESERIALIZE_ERROR, Ascii("protobuf deserialize failed"), [])
            case DoneNotCalled =>
              answer == Response(request.id, INTERNAL_ERROR, Ascii("asynchronous server callbacks are unsupported"), [])
            case SerializeFailed =>
              answer == Response(request.id, SERIALIZE_ERROR, Ascii("protobuf serialize failed"), []))
  }

  /** The response that an answer encodes, whatever its size. */
  function Answer(methods: Methods, frame: Frame, services: Services): (r: Response)
  {
    match HandleFrame(methods, frame, services)
    case Err(e) => Response(IdOf(frame), e.code, e.message, [])
    case Ok(_) =>
      match DecodeRequest(frame)
      case Err(_) => Response(0, OK, [], [])
      case Ok(request) => Response(request.id, OK, [], PayloadOf(methods, request, services))
  }

  function PayloadOf(methods: Methods, request: Request, services: Services): (payload: seq<Byte>)
  {
    match Registry.Lookup(methods, request.service, request.method_)
    case Err(_) => []
    case Ok(registered) =>
      match Invoke(services, Invocation(registered, request.metadata, request.payload))
      case Replied(payload) => payload
      case _ => []
  }

  // Header and length fields of any answer without error text.
  const REPLY_OVERHEAD: int := 38

  /** No service replies with more than `limit` bytes. */
  predicate RepliesWithin(services: Services, limit: int)
  {
    forall call :: call in services && services[call].Replied? ==> |services[call].payload| <= limit
  }

  /** Every reply leaves room for the header. */
  predicate PayloadFits(services: Services)
  {
    RepliesWithin(services, U32 - REPLY_OVERHEAD - 1)
  }

  /** Every dispatch error has a short text. */
  lemma ErrorsAreShort(methods: Methods, frame: Frame, services: Services)
    requires HandleFrame(methods, frame, services).Err?
    ensures |HandleFrame(methods, frame, services).error.message| <= 64
  {
    match DecodeRequest(frame)
    case Err(e) => DecodeErrors(frame);
    case Ok(request) =>
      hide DecodeRequest, EncodeResponse;
      match Registry.Lookup(methods, request.service, request.method_)
      case Err(e) =>
      case Ok(registered) =>
        match Invoke(services, Invocation(registered, request.metadata, request.payload))
        case Replied(payload) => SmallHeader(Response(request.id, OK, [], payload));
        case _ =>
  }

  lemma DecodeErrors(frame: Frame)
    requires DecodeRequest(frame).Err?
    ensures DecodeRequest(frame).error.code == INVALID_PACKET && |DecodeRequest(frame).error.message| <= 64
  {
    hide ParseRequestHeader;
  }

  lemma SmallHeader(r: Response)
    requires |r.errorText| <= 64
    ensures ResponseHeaderSize(ResponseHeaderOf(r)) <= 34 + |r.errorText|
    ensures EncodeResponse(r).Ok?
  {
    ResponseHeaderSmall(ResponseHeaderOf(r));
    ResponseSize(ResponseHeaderOf(r));
  }

  /** Whatever stage fails, exactly one answer is sent; it is the encoding of a response that carries the
      frame's request id, or 0 when the frame does not decode. */
  lemma ExactlyOneAnswer(methods: Methods, frame: Frame, services: Services)
    ensures OnFrame(methods, frame, services).Some?
    ensures EncodeResponse(Answer(methods, frame, services)) == Ok(OnFrame(methods, frame, services).value)
    ensures Answer(methods, frame, services).id == IdOf(frame)
    ensures |Answer(methods, frame, services).errorText| <= 64
  {
    if HandleFrame(methods, frame, services).Err? {
      ErrorsAreShort(methods, frame, services);
      hide HandleFrame, EncodeResponse;
      SmallHeader(Answer(methods, frame, services));
    } else {
      hide DecodeRequest, EncodeResponse, Registry.Lookup;
    }
  }

  lemma AnswerPayload(methods: Methods, frame: Frame, services: Services, limit: int)
    requires RepliesWithin(services, limit) && limit >= 0
    ensures |Answer(methods, frame, services).payload| <= limit
  {
    hide HandleFrame, Registry.Lookup, DecodeRequest;
  }

  /** An answer whose payload leaves room for the header decodes to its response and is delimited by its own
      length prefix. */
  lemma AnswerDecodes(methods: Methods, frame: Frame, services: Services)
    requires PayloadFits(services)
    ensures OnFrame(methods, frame, services).Some?
    ensures SelfDelimiting(OnFrame(methods, frame, services).value)
    ensures DecodeResponse(OnFrame(methods, frame, services).value) == Ok(Answer(methods, frame, services))
    ensures Answer(methods, frame, services).id == IdOf(frame)
  {
    hide OnFrame, Answer, DecodeResponse, EncodeResponse, SelfDelimiting;
    ExactlyOneAnswer(methods, frame, services);
    var a := Answer(methods, frame, services);
    SmallHeader(a);
    AnswerPayload(methods, frame, services, U32 - REPLY_OVERHEAD - 1);
    AnswerShort(methods, frame, services);
    ResponseFitsRoundTrip(a);
  }

  /** An answer has an error text or a payload, not both. */
  lemma AnswerShort(methods: Methods, frame: Frame, services: Services)
    ensures var a := Answer(methods, frame, services); a.errorText == [] || a.payload == []
  {
    hide HandleFrame, DecodeRequest, PayloadOf;
  }

  /** The meaning of dispatch: for every sequence of registrations, every frame and everything that the services may do,
      the one answer that is sent decodes to the right one. The last registration of exactly the requested names gets
      the call, with the request's metadata and payload. */
  lemma AnswerIsRight(log: seq<Registry.Registered>, frame: Frame, services: Services)
    requires Registry.WellNamed(log) && PayloadFits(services)
    ensures OnFrame(Registry.Index(log), frame, services).Some?
    ensures DecodeResponse(OnFrame(Registry.Index(log), frame, services).value).Ok?
    ensures RightAnswer(log, frame, services,
                        DecodeResponse(OnFrame(Registry.Index(log), frame, services).value).value)
  {
    AnswerDecodes(Registry.Index(log), frame, services);
    AnswerMeans(log, frame, services);
  }

  lemma AnswerMeans(log: seq<Registry.Registered>, frame: Frame, services: Services)
    requires Registry.WellNamed(log)
    ensures RightAnswer(log, frame, services, Answer(Registry.Index(log), frame, services))
  {
    if DecodeRequest(frame).Err? {
      DecodeErrors(frame);
    } else {
      hide DecodeRequest, EncodeResponse, Registry.Lookup, Registry.Index, Registry.LastMatch;
      var request := DecodeRequest(frame).value;
      Registry.LookupIsScan(log, request.service, request.method_);
      if Registry.Lookup(Registry.Index(log), request.service, request.method_).Ok? {
        var target := Registry.Lookup(Registry.Index(log), request.service, request.method_).value;
        match Invoke(services, Invocation(target, request.metadata, request.payload))
        case Replied(payload) => SmallHeader(Response(request.id, OK, [], payload));
        case _ =>
      }
    }
  }

  /** How long an answer can be. */
  lemma AnswerLength(methods: Methods, frame: Frame, services: Services, limit: int)
    requires RepliesWithin(services, limit) && limit >= 64
    ensures OnFrame(methods, frame, services).Some?
    ensures 8 <= |OnFrame(methods, frame, services).value| <= 4 + REPLY_OVERHEAD + limit
  {
    hide OnFrame, Answer;
    ExactlyOneAnswer(methods, frame, services);
    var a := Answer(methods, frame, services);
    SmallHeader(a);
    ResponseSize(ResponseHeaderOf(a));
    AnswerPayload(methods, frame, services, limit);
    AnswerShort(methods, frame, services);
    FrameFields(SerializeResponseHeader(ResponseHeaderOf(a)).value, a.payload);
  }

  // ---------------------------------------------------------------- a sequence of frames

  /** The answers to a sequence of frames. */
  function Answers(methods: Methods, frames: seq<Frame>, calls: seq<Services>): (replies: seq<Frame>)
    requires |frames| == |calls|
  {
    if frames == [] then []
    else
      (match OnFrame(methods, frames[0], calls[0]) case Some(reply) => [reply] case None => [])
      + Answers(methods, frames[1..], calls[1..])
  }

  predicate PayloadsFit(calls: seq<Services>)
  {
    forall i :: 0 <= i < |calls| ==> PayloadFits(calls[i])
  }

  /** A connection gets one answer per frame, in order, each carrying its frame's request id. */
  lemma {:induction false} AnswersInOrder(methods: Methods, frames: seq<Frame>, calls: seq<Services>)
    requires |frames| == |calls| && PayloadsFit(calls)
    ensures |Answers(methods, frames, calls)| == |frames|
    ensures forall i :: 0 <= i < |frames| ==>
              && DecodeResponse(Answers(methods, frames, calls)[i]).Ok?
              && DecodeResponse(Answers(methods, frames, calls)[i]).value.id == IdOf(frames[i])
  {
    hide OnFrame, Answer, IdOf, DecodeResponse;
    if frames != [] {
      AnswerDecodes(methods, frames[0], calls[0]);
      var fs, cs := frames[1..], calls[1..];
      AnswersInOrder(methods, fs, cs);
      var reply := OnFrame(methods, frames[0], calls[0]).value;
      assert Answers(methods, frames, calls) == [reply] + Answers(methods, fs, cs);
      forall i | 0 <= i < |frames|
        ensures DecodeResponse(Answers(methods, frames, calls)[i]).Ok?
        ensures DecodeResponse(Answers(methods, frames, calls)[i]).value.id == IdOf(frames[i])
      {
        if i > 0 { assert frames[i] == fs[i - 1]; }
      }
    }
  }
}

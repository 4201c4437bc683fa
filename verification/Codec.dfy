/** The frame codec: [frame size][header size][header][metadata and payload]. */
module Codec {
  import opened Bytes
  import opened Wire
  import opened Headers

  const OK: Int32 := 0
  const INVALID_PACKET: Int32 := 1
  const UNKNOWN_SERVICE: Int32 := 2
  const UNKNOWN_METHOD: Int32 := 3
  const SERIALIZE_ERROR: Int32 := 4
  const DESERIALIZE_ERROR: Int32 := 5
  const NETWORK_ERROR: Int32 := 6
  const INTERNAL_ERROR: Int32 := 8

  datatype RpcError = RpcError(code: Int32, message: seq<Byte>)

  datatype Result<+T> = Ok(value: T) | Err(error: RpcError)

  datatype Request = Request(
    id: Uint64, service: seq<Byte>, method_: seq<Byte>, metadata: seq<Byte>, payload: seq<Byte>)

  datatype Response = Response(id: Uint64, status: Int32, errorText: seq<Byte>, payload: seq<Byte>)

  function InvalidPacket(message: string): (e: RpcError)
  {
    RpcError(INVALID_PACKET, Ascii(message))
  }

  /** A byte string that its own length prefix describes. */
  predicate SelfDelimiting(b: seq<Byte>)
  {
    |b| >= 4 && |b| == 4 + GetU32(b)
  }

  /** Both length fields are truncated to 32 bits by the cast. */
  function EncodeFrame(header: seq<Byte>, payload: seq<Byte>): (frame: seq<Byte>)
  {
    PutU32((4 + |header| + |payload|) % U32) + PutU32(|header| % U32) + header + payload
  }

  function SplitFrame(frame: seq<Byte>): (r: Result<(seq<Byte>, seq<Byte>)>)
  {
    if |frame| < 8 then Err(InvalidPacket("frame is too small"))
    else if |frame| != 4 + GetU32(frame) then Err(InvalidPacket("frame length prefix does not match"))
    else
      var headerSize := GetU32(frame[4..]);
      if |frame| < 8 + headerSize then Err(InvalidPacket("header length exceeds frame size"))
      else Ok((frame[8..8 + headerSize], frame[8 + headerSize..]))
  }

  function HeaderOf(r: Request): (h: RequestHeader)
  {
    RequestHeader(r.id, r.service, r.method_, |r.payload| % U32, |r.metadata| % U32)
  }

  function EncodeRequest(r: Request): (f: Result<seq<Byte>>)
  {
    match SerializeRequestHeader(HeaderOf(r))
    case None => Err(RpcError(SERIALIZE_ERROR, Ascii("failed to serialize request header")))
    case Some(header) => Ok(EncodeFrame(header, r.metadata + r.payload))
  }

  function DecodeRequest(frame: seq<Byte>): (r: Result<Request>)
  {
    match SplitFrame(frame)
    case Err(e) => Err(e)
    case Ok((header, body)) =>
      match ParseRequestHeader(header)
      case None => Err(InvalidPacket("failed to parse request header"))
      case Some(h) =>
        if |body| != h.metaSize + h.argsSize then Err(InvalidPacket("request payload length mismatch"))
        else Ok(Request(h.requestId, h.serviceName, h.methodName, body[..h.metaSize], body[h.metaSize..]))
  }

  function ResponseHeaderOf(r: Response): (h: ResponseHeader)
  {
    ResponseHeader(r.id, r.status, r.errorText, |r.payload| % U32)
  }

  function EncodeResponse(r: Response): (f: Result<seq<Byte>>)
  {
    match SerializeResponseHeader(ResponseHeaderOf(r))
    case None => Err(RpcError(SERIALIZE_ERROR, Ascii("failed to serialize response header")))
    case Some(header) => Ok(EncodeFrame(header, r.payload))
  }

  function DecodeResponse(frame: seq<Byte>): (r: Result<Response>)
  {
    match SplitFrame(frame)
    case Err(e) => Err(e)
    case Ok((header, body)) =>
      match ParseResponseHeader(header)
      case None => Err(InvalidPacket("failed to parse response header"))
      case Some(h) =>
        if |body| != h.payloadSize then Err(InvalidPacket("response payload length mismatch"))
        else Ok(Response(h.requestId, h.statusCode, h.errorText, body))
  }

  // ---------------------------------------------------------------- frames

  lemma FrameFields(header: seq<Byte>, payload: seq<Byte>)
    ensures var f := EncodeFrame(header, payload);
            && |f| == 8 + |header| + |payload|
            && GetU32(f) == (4 + |header| + |payload|) % U32
            && GetU32(f[4..]) == |header| % U32
            && f[8..8 + |header|] == header
            && f[8 + |header|..] == payload
  {
    var f := EncodeFrame(header, payload);
    var p := PutU32((4 + |header| + |payload|) % U32);
    var q := PutU32(|header| % U32);
    assert f[..4] == p;
    assert f[4..8] == q;
  }

  /** The frame layer loses nothing exactly when the body length fits its 32-bit field. */
  lemma FrameRoundTrip(header: seq<Byte>, payload: seq<Byte>)
    ensures SelfDelimiting(EncodeFrame(header, payload)) <==> 4 + |header| + |payload| < U32
    ensures SplitFrame(EncodeFrame(header, payload)).Ok? <==> 4 + |header| + |payload| < U32
    ensures 4 + |header| + |payload| < U32 ==>
              SplitFrame(EncodeFrame(header, payload)) == Ok((header, payload))
  {
    FrameFields(header, payload);
    hide EncodeFrame, GetU32;
  }

  // ---------------------------------------------------------------- requests

  /** What a caller can check before encoding: every length fits its field. */
  predicate RequestFits(r: Request)
  {
    && |r.service| <= MAX_FIELD_LENGTH
    && |r.method_| <= MAX_FIELD_LENGTH
    && RequestHeaderSize(HeaderOf(r)) <= INT_MAX
    && 4 + RequestHeaderSize(HeaderOf(r)) + |r.metadata| + |r.payload| < U32
  }

  lemma DecodeParts(frame: seq<Byte>, header: seq<Byte>, r: Request)
    requires SplitFrame(frame) == Ok((header, r.metadata + r.payload))
    requires ParseRequestHeader(header) == Some(HeaderOf(r))
    requires |r.metadata| < U32 && |r.payload| < U32
    ensures DecodeRequest(frame) == Ok(r)
  {
    hide SplitFrame, ParseRequestHeader;
    assert (r.metadata + r.payload)[..|r.metadata|] == r.metadata;
    assert (r.metadata + r.payload)[|r.metadata|..] == r.payload;
  }

  lemma RequestFitsRoundTrip(r: Request)
    requires RequestFits(r)
    ensures EncodeRequest(r).Ok? && SelfDelimiting(EncodeRequest(r).value)
    ensures DecodeRequest(EncodeRequest(r).value) == Ok(r)
  {
    var h := HeaderOf(r);
    var header := HeaderBytes(h);
    FrameRoundTrip(header, r.metadata + r.payload);
    DecodeParts(EncodeFrame(header, r.metadata + r.payload), header, r);
  }

  lemma HeaderBytes(h: RequestHeader) returns (header: seq<Byte>)
    requires RequestNamesFit(h) && RequestHeaderSize(h) <= INT_MAX
    ensures SerializeRequestHeader(h) == Some(header)
    ensures |header| == RequestHeaderSize(h) && ParseRequestHeader(header) == Some(h)
  {
    RequestSize(h);
    RequestHeaderRoundTrip(h);
    header := SerializeRequestHeader(h).value;
  }

  /** What the server makes of a request whose metadata is a multiple of 2^32 bytes long: both lengths wrap, and the
      front of the frame is the frame of a request with no metadata and another payload. */
  lemma TruncatedRequest(r: Request) returns (front: seq<Byte>, extra: seq<Byte>, other: Request)
    requires |r.payload| < U32 <= |r.metadata| && |r.metadata| % U32 == 0
    requires |r.service| <= MAX_FIELD_LENGTH && |r.method_| <= MAX_FIELD_LENGTH
    requires RequestHeaderSize(HeaderOf(r)) <= INT_MAX && 4 + RequestHeaderSize(HeaderOf(r)) + |r.payload| < U32
    ensures EncodeRequest(r) == Ok(front + extra) && extra != []
    ensures SelfDelimiting(front) && |front| == 8 + RequestHeaderSize(HeaderOf(r)) + |r.payload|
    ensures other == Request(r.id, r.service, r.method_, [], r.metadata[..|r.payload|]) && other != r
    ensures DecodeRequest(front) == Ok(other)
  {
    hide EncodeFrame, DecodeRequest, RequestHeaderSize, EncodeRequest, SelfDelimiting;
    var q := r.metadata[..|r.payload|];
    other := Request(r.id, r.service, r.method_, [], q);
    extra := r.metadata[|r.payload|..] + r.payload;
    SameHeader(r, other);
    hide HeaderOf;
    RequestFitsRoundTrip(other);
    front := EncodeRequest(other).value;
    assert |extra| == |r.metadata|;
    assert r.metadata + r.payload == q + extra && [] + q == q;
    WrappedRequest(r, other, extra);
  }

  lemma SameHeader(r: Request, other: Request)
    requires |r.metadata| % U32 == 0 && other.metadata == [] && |other.payload| == |r.payload|
    requires other.id == r.id && other.service == r.service && other.method_ == r.method_
    ensures HeaderOf(other) == HeaderOf(r)
  {
  }

  lemma WrappedRequest(r: Request, other: Request, extra: seq<Byte>)
    requires HeaderOf(other) == HeaderOf(r) && EncodeRequest(other).Ok? && |extra| % U32 == 0
    requires r.metadata + r.payload == (other.metadata + other.payload) + extra
    ensures EncodeRequest(r) == Ok(EncodeRequest(other).value + extra)
    ensures |EncodeRequest(other).value| == 8 + RequestHeaderSize(HeaderOf(r)) + |other.metadata| + |other.payload|
  {
    hide EncodeFrame, RequestHeaderSize;
    var header := SerializeRequestHeader(HeaderOf(r)).value;
    WrappedFrame(header, other.metadata + other.payload, extra);
    FrameFields(header, other.metadata + other.payload);
    RequestSize(HeaderOf(r));
  }

  lemma WrappedFrame(header: seq<Byte>, payload: seq<Byte>, extra: seq<Byte>)
    requires |extra| % U32 == 0
    ensures EncodeFrame(header, payload + extra) == EncodeFrame(header, payload) + extra
  {
    hide PutU32;
    assert (4 + |header| + |payload + extra|) % U32 == (4 + |header| + |payload|) % U32;
  }

  /** A request survives the wire exactly when its sizes fit. */
  lemma RequestRoundTrip(r: Request)
    ensures RequestFits(r) <==>
              EncodeRequest(r).Ok? && DecodeRequest(EncodeRequest(r).value) == Ok(r)
  {
    var h := HeaderOf(r);
    RequestSize(h);
    if RequestFits(r) {
      RequestFitsRoundTrip(r);
    } else if RequestHeaderSize(h) <= INT_MAX {
      FrameRoundTrip(SerializeRequestHeader(h).value, r.metadata + r.payload);
      if !RequestNamesFit(h) { OversizedNameRejected(h); }
    }
  }

  // ---------------------------------------------------------------- responses

  predicate ResponseFits(r: Response)
  {
    && |r.errorText| <= MAX_FIELD_LENGTH
    && ResponseHeaderSize(ResponseHeaderOf(r)) <= INT_MAX
    && 4 + ResponseHeaderSize(ResponseHeaderOf(r)) + |r.payload| < U32
  }

  lemma ResponseFitsRoundTrip(r: Response)
    requires ResponseFits(r)
    ensures EncodeResponse(r).Ok? && SelfDelimiting(EncodeResponse(r).value)
    ensures DecodeResponse(EncodeResponse(r).value) == Ok(r)
  {
    var header := ResponseHeaderBytes(ResponseHeaderOf(r));
    FrameRoundTrip(header, r.payload);
    DecodeResponseParts(EncodeFrame(header, r.payload), header, r);
  }

  lemma DecodeResponseParts(frame: seq<Byte>, header: seq<Byte>, r: Response)
    requires SplitFrame(frame) == Ok((header, r.payload))
    requires ParseResponseHeader(header) == Some(ResponseHeaderOf(r))
    requires |r.payload| < U32
    ensures DecodeResponse(frame) == Ok(r)
  {
  }

  lemma ResponseHeaderBytes(h: ResponseHeader) returns (header: seq<Byte>)
    requires |h.errorText| <= MAX_FIELD_LENGTH && ResponseHeaderSize(h) <= INT_MAX
    ensures SerializeResponseHeader(h) == Some(header)
    ensures |header| == ResponseHeaderSize(h) && ParseResponseHeader(header) == Some(h)
  {
    ResponseSize(h);
    ResponseHeaderRoundTrip(h);
    header := SerializeResponseHeader(h).value;
  }

  /** A response survives the wire exactly when its sizes fit. */
  lemma ResponseRoundTrip(r: Response)
    ensures ResponseFits(r) <==>
              EncodeResponse(r).Ok? && DecodeResponse(EncodeResponse(r).value) == Ok(r)
  {
    var h := ResponseHeaderOf(r);
    ResponseSize(h);
    if ResponseFits(r) {
      ResponseFitsRoundTrip(r);
    } else if ResponseHeaderSize(h) <= INT_MAX {
      FrameRoundTrip(SerializeResponseHeader(h).value, r.payload);
      if |h.errorText| > MAX_FIELD_LENGTH { OversizedTextRejected(h); }
    }
  }

  // ---------------------------------------------------------------- unique decodability

  /** Two self-delimiting byte strings, one of which starts with the other, are equal. */
  lemma PrefixFree(a: seq<Byte>, b: seq<Byte>)
    requires SelfDelimiting(a) && SelfDelimiting(b) && a <= b
    ensures a == b
  {
    assert a[..4] == b[..4];
    assert GetU32(a) == GetU32(a[..4]) == GetU32(b[..4]) == GetU32(b);
  }

  /** No encoded request is a proper prefix of another, and distinct requests have distinct frames. */
  lemma RequestsUniquelyDecodable(r1: Request, r2: Request)
    requires RequestFits(r1) && RequestFits(r2)
    requires EncodeRequest(r1).Ok? && EncodeRequest(r2).Ok?
    requires EncodeRequest(r1).value <= EncodeRequest(r2).value
    ensures r1 == r2
  {
    RequestFitsRoundTrip(r1);
    RequestFitsRoundTrip(r2);
    PrefixFree(EncodeRequest(r1).value, EncodeRequest(r2).value);
  }

  /** The lengths of any accepted frame add up, and metadata and payload are its suffix. */
  lemma AcceptedRequest(frame: seq<Byte>)
    requires DecodeRequest(frame).Ok?
    ensures SelfDelimiting(frame) && |frame| >= 8
    ensures var r := DecodeRequest(frame).value;
            var headerSize := GetU32(frame[4..]);
            && 8 + headerSize + |r.metadata| + |r.payload| == |frame|
            && frame[8 + headerSize..] == r.metadata + r.payload
            && ParseRequestHeader(frame[8..8 + headerSize]).Some?
            && ParseRequestHeader(frame[8..8 + headerSize]).value == HeaderOf(r)
  {
    hide ParseRequestHeader;
    var (header, body) := SplitFrame(frame).value;
    var h := ParseRequestHeader(header).value;
    assert body == body[..h.metaSize] + body[h.metaSize..];
  }

  /** Exactly which frames are taken for requests. */
  lemma RequestAccepted(frame: seq<Byte>)
    ensures DecodeRequest(frame).Ok? <==>
              && SelfDelimiting(frame) && |frame| >= 8 && 8 + GetU32(frame[4..]) <= |frame|
              && var size := GetU32(frame[4..]);
              && ParseRequestHeader(frame[8..8 + size]).Some?
              && var h := ParseRequestHeader(frame[8..8 + size]).value;
              |frame| == 8 + size + h.metaSize + h.argsSize
    ensures DecodeRequest(frame).Err? ==> DecodeRequest(frame).error.code == INVALID_PACKET
  {
    hide ParseRequestHeader;
  }

  /** Exactly which frames are taken for responses, and what they say. */
  lemma ResponseAccepted(frame: seq<Byte>)
    ensures DecodeResponse(frame).Ok? <==>
              && SelfDelimiting(frame) && |frame| >= 8 && 8 + GetU32(frame[4..]) <= |frame|
              && var size := GetU32(frame[4..]);
              && ParseResponseHeader(frame[8..8 + size]).Some?
              && |frame| == 8 + size + ParseResponseHeader(frame[8..8 + size]).value.payloadSize
    ensures DecodeResponse(frame).Err? ==> DecodeResponse(frame).error.code == INVALID_PACKET
    ensures DecodeResponse(frame).Ok? ==>
              var r, size := DecodeResponse(frame).value, GetU32(frame[4..]);
              && ParseResponseHeader(frame[8..8 + size]) == Some(ResponseHeaderOf(r)) && frame[8 + size..] == r.payload
  {
    hide ParseResponseHeader;
  }
}

/** The two protobuf headers of the RPC protocol, written and parsed as the generated code does. */
module Headers {
  import opened Bytes
  import opened Wire

  datatype RequestHeader = RequestHeader(
    requestId: Uint64, serviceName: seq<Byte>, methodName: seq<Byte>, argsSize: Uint32, metaSize: Uint32)

  datatype ResponseHeader = ResponseHeader(
    requestId: Uint64, statusCode: Int32, errorText: seq<Byte>, payloadSize: Uint32)

  const EMPTY_REQUEST: RequestHeader := RequestHeader(0, [], [], 0, 0)
  const EMPTY_RESPONSE: ResponseHeader := ResponseHeader(0, 0, [], 0)

  // ---------------------------------------------------------------- request header

  function RequestFields(h: RequestHeader): (rs: seq<Record>)
    ensures forall i :: 0 <= i < |rs| ==> !rs[i].Skipped?
  {
    NumberField(1, h.requestId)
    + (DataField(2, h.serviceName)
       + (DataField(3, h.methodName)
          + (NumberField(4, h.argsSize) + NumberField(5, h.metaSize))))
  }

  function RequestHeaderSize(h: RequestHeader): (n: nat)
  {
    NumberFieldSize(h.requestId) + DataFieldSize(|h.serviceName|) + DataFieldSize(|h.methodName|)
    + NumberFieldSize(h.argsSize) + NumberFieldSize(h.metaSize)
  }

  /** `SerializeToString`: refuses a message of more than INT_MAX bytes. */
  function SerializeRequestHeader(h: RequestHeader): (r: Option<seq<Byte>>)
  {
    var b := EncodeRecords(RequestFields(h));
    if |b| > INT_MAX then None else Some(b)
  }

  /** The bytes of a header, field by field: 0x08, 0x12, 0x1a, 0x20 and 0x28 are the tags of fields 1 to 5. */
  lemma RequestHeaderLayout(h: RequestHeader)
    ensures EncodeRecords(RequestFields(h))
         == ScalarBytes(0x08, h.requestId)
            + (TextBytes(0x12, h.serviceName)
               + (TextBytes(0x1a, h.methodName) + (ScalarBytes(0x20, h.argsSize) + ScalarBytes(0x28, h.metaSize))))
  {
    var f1, f2, f3 := NumberField(1, h.requestId), DataField(2, h.serviceName), DataField(3, h.methodName);
    var f4, f5 := NumberField(4, h.argsSize), NumberField(5, h.metaSize);
    EncodeRecordsAppend(f4, f5);
    EncodeRecordsAppend(f3, f4 + f5);
    EncodeRecordsAppend(f2, f3 + (f4 + f5));
    EncodeRecordsAppend(f1, f2 + (f3 + (f4 + f5)));
    NumberBytes(1, h.requestId);
    DataBytes(2, h.serviceName);
    DataBytes(3, h.methodName);
    NumberBytes(4, h.argsSize);
    NumberBytes(5, h.metaSize);
  }

  function ApplyRequest(h: RequestHeader, r: Record): (h': Option<RequestHeader>)
  {
    match r
    case Number(f, v) =>
      Some(if f == 1 then h.(requestId := v % U64)
           else if f == 4 then h.(argsSize := v % U32)
           else if f == 5 then h.(metaSize := v % U32)
           else h)
    case Data(f, d) =>
      Some(if f == 2 then h.(serviceName := d) else if f == 3 then h.(methodName := d) else h)
    case Skipped(_) => Some(h)
  }

  /** `ParseFromArray` into a fresh header. Its length argument is an int. */
  function ParseRequestHeader(b: seq<Byte>): (r: Option<RequestHeader>)
  {
    if |b| > INT_MAX then None else ParseFields(b, EMPTY_REQUEST, ApplyRequest, RECURSION_LIMIT)
  }

  /** Any 64-bit varint is taken for a number field, and truncated to the field's width. */
  lemma RequestNumbersRead(v: Uint64)
    ensures ParseRequestHeader([0x08] + Varint(v)) == Some(EMPTY_REQUEST.(requestId := v))
    ensures ParseRequestHeader([0x20] + Varint(v)) == Some(EMPTY_REQUEST.(argsSize := v % U32))
    ensures ParseRequestHeader([0x28] + Varint(v)) == Some(EMPTY_REQUEST.(metaSize := v % U32))
  {
    hide ParseFields, EncodeRecord, Varint;
    NumberRecordBytes(1, v);
    NumberRecordBytes(4, v);
    NumberRecordBytes(5, v);
    VarintWidths(v);
    ParseOne(Number(1, v), EMPTY_REQUEST, ApplyRequest, RECURSION_LIMIT);
    ParseOne(Number(4, v), EMPTY_REQUEST, ApplyRequest, RECURSION_LIMIT);
    ParseOne(Number(5, v), EMPTY_REQUEST, ApplyRequest, RECURSION_LIMIT);
  }

  /** Fields set in `h` replace those of `acc`; the others stay. */
  function MergeRequest(acc: RequestHeader, h: RequestHeader): (m: RequestHeader)
  {
    RequestHeader(
      if h.requestId != 0 then h.requestId else acc.requestId,
      if h.serviceName != [] then h.serviceName else acc.serviceName,
      if h.methodName != [] then h.methodName else acc.methodName,
      if h.argsSize != 0 then h.argsSize else acc.argsSize,
      if h.metaSize != 0 then h.metaSize else acc.metaSize)
  }

  predicate RequestNamesFit(h: RequestHeader)
  {
    |h.serviceName| <= MAX_FIELD_LENGTH && |h.methodName| <= MAX_FIELD_LENGTH
  }

  lemma RequestSize(h: RequestHeader)
    ensures |EncodeRecords(RequestFields(h))| == RequestHeaderSize(h)
  {
    FieldSizes(1, h.requestId, []);
    FieldSizes(2, 0, h.serviceName);
    FieldSizes(3, 0, h.methodName);
    FieldSizes(4, h.argsSize, []);
    FieldSizes(5, h.metaSize, []);
    FiveSizes(NumberField(1, h.requestId), DataField(2, h.serviceName), DataField(3, h.methodName),
              NumberField(4, h.argsSize), NumberField(5, h.metaSize));
  }

  lemma NamesWithin(h: RequestHeader)
    ensures |h.serviceName| <= RequestHeaderSize(h) && |h.methodName| <= RequestHeaderSize(h)
  {
  }

  lemma FiveSizes(f1: seq<Record>, f2: seq<Record>, f3: seq<Record>, f4: seq<Record>, f5: seq<Record>)
    requires forall i :: 0 <= i < |f1| ==> !f1[i].Skipped?
    requires forall i :: 0 <= i < |f2| ==> !f2[i].Skipped?
    requires forall i :: 0 <= i < |f3| ==> !f3[i].Skipped?
    requires forall i :: 0 <= i < |f4| ==> !f4[i].Skipped?
    requires forall i :: 0 <= i < |f5| ==> !f5[i].Skipped?
    ensures |EncodeRecords(f1 + (f2 + (f3 + (f4 + f5))))|
         == |EncodeRecords(f1)| + |EncodeRecords(f2)| + |EncodeRecords(f3)| + |EncodeRecords(f4)| + |EncodeRecords(f5)|
  {
    EncodedSize(f1, f2 + (f3 + (f4 + f5)));
    EncodedSize(f2, f3 + (f4 + f5));
    EncodedSize(f3, f4 + f5);
    EncodedSize(f4, f5);
  }

  lemma FoldNumber(field: nat, value: nat, acc: RequestHeader)
    ensures Fold(NumberField(field, value), acc, ApplyRequest)
         == (if value == 0 then Some(acc) else ApplyRequest(acc, Number(field, value)))
  {
    if value != 0 { FoldField(Number(field, value), acc, ApplyRequest); }
  }

  lemma FoldData(field: nat, d: seq<Byte>, acc: RequestHeader)
    ensures Fold(DataField(field, d), acc, ApplyRequest)
         == (if d == [] then Some(acc) else ApplyRequest(acc, Data(field, d)))
  {
    if d != [] { FoldField(Data(field, d), acc, ApplyRequest); }
  }

  lemma FoldRequest(h: RequestHeader, acc: RequestHeader)
    ensures Fold(RequestFields(h), acc, ApplyRequest) == Some(MergeRequest(acc, h))
  {
    hide Fold;
    var f1, f2, f3 := NumberField(1, h.requestId), DataField(2, h.serviceName), DataField(3, h.methodName);
    var f4, f5 := NumberField(4, h.argsSize), NumberField(5, h.metaSize);
    var a1 := if h.requestId != 0 then acc.(requestId := h.requestId) else acc;
    var a2 := if h.serviceName != [] then a1.(serviceName := h.serviceName) else a1;
    var a3 := if h.methodName != [] then a2.(methodName := h.methodName) else a2;
    var a4 := if h.argsSize != 0 then a3.(argsSize := h.argsSize) else a3;
    FoldAppend(f1, f2 + (f3 + (f4 + f5)), acc, ApplyRequest);
    FoldAppend(f2, f3 + (f4 + f5), a1, ApplyRequest);
    FoldAppend(f3, f4 + f5, a2, ApplyRequest);
    FoldAppend(f4, f5, a3, ApplyRequest);
    FoldNumber(1, h.requestId, acc);
    FoldData(2, h.serviceName, a1);
    FoldData(3, h.methodName, a2);
    FoldNumber(4, h.argsSize, a3);
    FoldNumber(5, h.metaSize, a4);
  }

  lemma RequestFieldsWritable(h: RequestHeader)
    requires RequestNamesFit(h)
    ensures AllWritable(RequestFields(h))
  {
    hide EncodeRecord, EncodeRecords;
    var f1, f2, f3 := NumberField(1, h.requestId), DataField(2, h.serviceName), DataField(3, h.methodName);
    var f4, f5 := NumberField(4, h.argsSize), NumberField(5, h.metaSize);
    assert AllWritable(f1) && AllWritable(f2) && AllWritable(f3) && AllWritable(f4) && AllWritable(f5);
    hide NumberField, DataField;
    WritableAppend(f4, f5);
    WritableAppend(f3, f4 + f5);
    WritableAppend(f2, f3 + (f4 + f5));
    WritableAppend(f1, f2 + (f3 + (f4 + f5)));
  }

  lemma WritableAppend(a: seq<Record>, b: seq<Record>)
    requires AllWritable(a) && AllWritable(b)
    ensures AllWritable(a + b)
  {
  }

  /** Header bytes parse back to the header that was serialized. */
  lemma RequestHeaderRoundTrip(h: RequestHeader)
    requires RequestNamesFit(h) && RequestHeaderSize(h) <= INT_MAX
    ensures SerializeRequestHeader(h).Some?
    ensures ParseRequestHeader(SerializeRequestHeader(h).value) == Some(h)
  {
    RequestSize(h);
    RequestFieldsWritable(h);
    ParseEncoded(RequestFields(h), EMPTY_REQUEST, ApplyRequest, RECURSION_LIMIT);
    FoldRequest(h, EMPTY_REQUEST);
  }

  /** Parsing one header's bytes followed by another's merges the second into the first. */
  lemma RequestHeaderMerge(h1: RequestHeader, h2: RequestHeader)
    requires RequestNamesFit(h1) && RequestNamesFit(h2)
    requires RequestHeaderSize(h1) + RequestHeaderSize(h2) <= INT_MAX
    ensures SerializeRequestHeader(h1).Some? && SerializeRequestHeader(h2).Some?
    ensures ParseRequestHeader(SerializeRequestHeader(h1).value + SerializeRequestHeader(h2).value)
         == Some(MergeRequest(h1, h2))
  {
    RequestSize(h1);
    RequestSize(h2);
    RequestHeaderRoundTrip(h1);
    var b1, b2 := EncodeRecords(RequestFields(h1)), EncodeRecords(RequestFields(h2));
    ParseAppend(b1, b2, EMPTY_REQUEST, ApplyRequest, RECURSION_LIMIT);
    RequestFieldsWritable(h2);
    ParseEncoded(RequestFields(h2), h1, ApplyRequest, RECURSION_LIMIT);
    FoldRequest(h2, h1);
  }

  /** A name beyond the field limit makes the header unreadable. */
  lemma OversizedNameRejected(h: RequestHeader)
    requires !RequestNamesFit(h) && RequestHeaderSize(h) <= INT_MAX
    ensures ParseRequestHeader(EncodeRecords(RequestFields(h))) == None
  {
    if |h.serviceName| > MAX_FIELD_LENGTH { OversizedService(h); } else { OversizedMethod(h); }
  }

  lemma OversizedService(h: RequestHeader)
    requires MAX_FIELD_LENGTH < |h.serviceName| <= INT_MAX
    ensures ParseFields(EncodeRecords(RequestFields(h)), EMPTY_REQUEST, ApplyRequest, RECURSION_LIMIT) == None
  {
    hide EncodeRecords, ParseFields, Fold;
    var f1 := NumberField(1, h.requestId);
    var rest := DataField(3, h.methodName) + (NumberField(4, h.argsSize) + NumberField(5, h.metaSize));
    RequestFoldTotal(f1, EMPTY_REQUEST);
    OversizedRejected(f1, 2, h.serviceName, rest, EMPTY_REQUEST, ApplyRequest, RECURSION_LIMIT);
  }

  lemma OversizedMethod(h: RequestHeader)
    requires |h.serviceName| <= MAX_FIELD_LENGTH < |h.methodName| <= INT_MAX
    ensures ParseFields(EncodeRecords(RequestFields(h)), EMPTY_REQUEST, ApplyRequest, RECURSION_LIMIT) == None
  {
    hide EncodeRecords, ParseFields, Fold;
    var f1, f2 := NumberField(1, h.requestId), DataField(2, h.serviceName);
    var rest := NumberField(4, h.argsSize) + NumberField(5, h.metaSize);
    assert AllWritable(f1 + f2);
    RequestFoldTotal(f1 + f2, EMPTY_REQUEST);
    OversizedRejected(f1 + f2, 3, h.methodName, rest, EMPTY_REQUEST, ApplyRequest, RECURSION_LIMIT);
    Reassociate(f1, f2, [Data(3, h.methodName)] + rest);
  }

  lemma Reassociate(a: seq<Record>, b: seq<Record>, c: seq<Record>)
    ensures (a + b) + c == a + (b + c)
  {
  }

  lemma {:induction false} RequestFoldTotal(rs: seq<Record>, acc: RequestHeader)
    ensures Fold(rs, acc, ApplyRequest).Some?
  {
    if rs != [] { RequestFoldTotal(rs[1..], ApplyRequest(acc, rs[0]).value); }
  }

  // ---------------------------------------------------------------- response header

  function ResponseFields(h: ResponseHeader): (rs: seq<Record>)
    ensures forall i :: 0 <= i < |rs| ==> !rs[i].Skipped?
  {
    NumberField(1, h.requestId)
    + (NumberField(2, SignExtend(h.statusCode))
       + (DataField(3, h.errorText) + NumberField(4, h.payloadSize)))
  }

  function ResponseHeaderSize(h: ResponseHeader): (n: nat)
  {
    NumberFieldSize(h.requestId) + NumberFieldSize(SignExtend(h.statusCode))
    + DataFieldSize(|h.errorText|) + NumberFieldSize(h.payloadSize)
  }

  function SerializeResponseHeader(h: ResponseHeader): (r: Option<seq<Byte>>)
  {
    var b := EncodeRecords(ResponseFields(h));
    if |b| > INT_MAX then None else Some(b)
  }

  /** The bytes of a response header: 0x08, 0x10, 0x1a and 0x20 are the tags of fields 1 to 4. */
  lemma ResponseHeaderLayout(h: ResponseHeader)
    ensures EncodeRecords(ResponseFields(h))
         == ScalarBytes(0x08, h.requestId)
            + (ScalarBytes(0x10, SignExtend(h.statusCode))
               + (TextBytes(0x1a, h.errorText) + ScalarBytes(0x20, h.payloadSize)))
  {
    var f1, f2 := NumberField(1, h.requestId), NumberField(2, SignExtend(h.statusCode));
    var f3, f4 := DataField(3, h.errorText), NumberField(4, h.payloadSize);
    EncodeRecordsAppend(f3, f4);
    EncodeRecordsAppend(f2, f3 + f4);
    EncodeRecordsAppend(f1, f2 + (f3 + f4));
    NumberBytes(1, h.requestId);
    NumberBytes(2, SignExtend(h.statusCode));
    DataBytes(3, h.errorText);
    NumberBytes(4, h.payloadSize);
  }

  function ApplyResponse(h: ResponseHeader, r: Record): (h': Option<ResponseHeader>)
  {
    match r
    case Number(f, v) =>
      Some(if f == 1 then h.(requestId := v % U64)
           else if f == 2 then h.(statusCode := ToInt32(v))
           else if f == 4 then h.(payloadSize := v % U32)
           else h)
    case Data(f, d) => Some(if f == 3 then h.(errorText := d) else h)
    case Skipped(_) => Some(h)
  }

  function ParseResponseHeader(b: seq<Byte>): (r: Option<ResponseHeader>)
  {
    if |b| > INT_MAX then None else ParseFields(b, EMPTY_RESPONSE, ApplyResponse, RECURSION_LIMIT)
  }

  /** Any 64-bit varint is taken for a number field; a status keeps its low 32 bits as a signed number. */
  lemma ResponseNumbersRead(v: Uint64)
    ensures ParseResponseHeader([0x08] + Varint(v)) == Some(EMPTY_RESPONSE.(requestId := v))
    ensures ParseResponseHeader([0x20] + Varint(v)) == Some(EMPTY_RESPONSE.(payloadSize := v % U32))
    ensures var r := ParseResponseHeader([0x10] + Varint(v));
            r.Some? && r.value == EMPTY_RESPONSE.(statusCode := r.value.statusCode)
            && (v - r.value.statusCode) % U32 == 0
  {
    hide ParseFields, EncodeRecord, Varint, ToInt32;
    Int32Congruent(v);
    NumberRecordBytes(1, v);
    NumberRecordBytes(2, v);
    NumberRecordBytes(4, v);
    VarintWidths(v);
    ParseOne(Number(1, v), EMPTY_RESPONSE, ApplyResponse, RECURSION_LIMIT);
    ParseOne(Number(2, v), EMPTY_RESPONSE, ApplyResponse, RECURSION_LIMIT);
    ParseOne(Number(4, v), EMPTY_RESPONSE, ApplyResponse, RECURSION_LIMIT);
  }

  lemma ResponseSize(h: ResponseHeader)
    ensures |EncodeRecords(ResponseFields(h))| == ResponseHeaderSize(h)
  {
    FieldSizes(1, h.requestId, []);
    FieldSizes(2, SignExtend(h.statusCode), []);
    FieldSizes(3, 0, h.errorText);
    FieldSizes(4, h.payloadSize, []);
    FiveSizes([], NumberField(1, h.requestId), NumberField(2, SignExtend(h.statusCode)),
              DataField(3, h.errorText), NumberField(4, h.payloadSize));
    assert [] + ResponseFields(h) == ResponseFields(h);
  }

  lemma FoldResponseNumber(field: nat, value: nat, acc: ResponseHeader)
    ensures Fold(NumberField(field, value), acc, ApplyResponse)
         == (if value == 0 then Some(acc) else ApplyResponse(acc, Number(field, value)))
  {
    if value != 0 { FoldField(Number(field, value), acc, ApplyResponse); }
  }

  lemma FoldResponseData(field: nat, d: seq<Byte>, acc: ResponseHeader)
    ensures Fold(DataField(field, d), acc, ApplyResponse)
         == (if d == [] then Some(acc) else ApplyResponse(acc, Data(field, d)))
  {
    if d != [] { FoldField(Data(field, d), acc, ApplyResponse); }
  }

  /** What parsing `h` into `acc` means: fields that are set replace. */
  function MergeResponse(acc: ResponseHeader, h: ResponseHeader): (m: ResponseHeader)
  {
    ResponseHeader(if h.requestId != 0 then h.requestId else acc.requestId,
                   if h.statusCode != 0 then h.statusCode else acc.statusCode,
                   if h.errorText != [] then h.errorText else acc.errorText,
                   if h.payloadSize != 0 then h.payloadSize else acc.payloadSize)
  }

  lemma FoldResponse(h: ResponseHeader, acc: ResponseHeader)
    ensures Fold(ResponseFields(h), acc, ApplyResponse) == Some(MergeResponse(acc, h))
  {
    hide Fold;
    var f1, f2 := NumberField(1, h.requestId), NumberField(2, SignExtend(h.statusCode));
    var f3, f4 := DataField(3, h.errorText), NumberField(4, h.payloadSize);
    var a1 := if h.requestId != 0 then acc.(requestId := h.requestId) else acc;
    var a2 := if h.statusCode != 0 then a1.(statusCode := h.statusCode) else a1;
    var a3 := if h.errorText != [] then a2.(errorText := h.errorText) else a2;
    Int32RoundTrip(h.statusCode);
    FoldAppend(f1, f2 + (f3 + f4), acc, ApplyResponse);
    FoldAppend(f2, f3 + f4, a1, ApplyResponse);
    FoldAppend(f3, f4, a2, ApplyResponse);
    FoldResponseNumber(1, h.requestId, acc);
    FoldResponseNumber(2, SignExtend(h.statusCode), a1);
    FoldResponseData(3, h.errorText, a2);
    FoldResponseNumber(4, h.payloadSize, a3);
  }

  lemma ResponseFieldsWritable(h: ResponseHeader)
    requires |h.errorText| <= MAX_FIELD_LENGTH
    ensures AllWritable(ResponseFields(h))
  {
  }

  lemma ResponseHeaderRoundTrip(h: ResponseHeader)
    requires |h.errorText| <= MAX_FIELD_LENGTH && ResponseHeaderSize(h) <= INT_MAX
    ensures SerializeResponseHeader(h).Some?
    ensures ParseResponseHeader(SerializeResponseHeader(h).value) == Some(h)
  {
    ResponseSize(h);
    ResponseFieldsWritable(h);
    ParseEncoded(ResponseFields(h), EMPTY_RESPONSE, ApplyResponse, RECURSION_LIMIT);
    FoldResponse(h, EMPTY_RESPONSE);
  }

  /** Parsing one response header's bytes followed by another's merges the second into the first. */
  lemma ResponseHeaderMerge(h1: ResponseHeader, h2: ResponseHeader)
    requires |h1.errorText| <= MAX_FIELD_LENGTH && |h2.errorText| <= MAX_FIELD_LENGTH
    requires ResponseHeaderSize(h1) + ResponseHeaderSize(h2) <= INT_MAX
    ensures SerializeResponseHeader(h1).Some? && SerializeResponseHeader(h2).Some?
    ensures ParseResponseHeader(SerializeResponseHeader(h1).value + SerializeResponseHeader(h2).value)
         == Some(MergeResponse(h1, h2))
  {
    ResponseSize(h1);
    ResponseSize(h2);
    ResponseHeaderRoundTrip(h1);
    hide ParseFields, Fold, EncodeRecords;
    var b1, b2 := EncodeRecords(ResponseFields(h1)), EncodeRecords(ResponseFields(h2));
    ParseAppend(b1, b2, EMPTY_RESPONSE, ApplyResponse, RECURSION_LIMIT);
    ResponseFieldsWritable(h2);
    ParseEncoded(ResponseFields(h2), h1, ApplyResponse, RECURSION_LIMIT);
    FoldResponse(h2, h1);
  }

  lemma OversizedTextRejected(h: ResponseHeader)
    requires |h.errorText| > MAX_FIELD_LENGTH && ResponseHeaderSize(h) <= INT_MAX
    ensures ParseResponseHeader(EncodeRecords(ResponseFields(h))) == None
  {
    hide EncodeRecords, ParseFields, Fold;
    var before := NumberField(1, h.requestId) + NumberField(2, SignExtend(h.statusCode));
    var after := NumberField(4, h.payloadSize);
    ResponseSize(h);
    assert ResponseFields(h) == before + ([Data(3, h.errorText)] + after);
    ResponseFoldTotal(before, EMPTY_RESPONSE);
    OversizedRejected(before, 3, h.errorText, after, EMPTY_RESPONSE, ApplyResponse, RECURSION_LIMIT);
  }

  lemma {:induction false} ResponseFoldTotal(rs: seq<Record>, acc: ResponseHeader)
    ensures Fold(rs, acc, ApplyResponse).Some?
  {
    if rs != [] { ResponseFoldTotal(rs[1..], ApplyResponse(acc, rs[0]).value); }
  }

  /** A response header adds at most 34 bytes to its error text. */
  lemma ResponseHeaderSmall(h: ResponseHeader)
    requires |h.errorText| <= INT_MAX
    ensures ResponseHeaderSize(h) <= 34 + |h.errorText|
  {
    VarintWidths(h.requestId);
    VarintWidths(SignExtend(h.statusCode));
    VarintWidths(h.payloadSize);
    VarintWidths(|h.errorText|);
    VarintLength(h.requestId);
    VarintLength(SignExtend(h.statusCode));
    VarintLength(h.payloadSize);
    VarintLength(|h.errorText|);
  }
}

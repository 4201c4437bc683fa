/** Generated message code of the demo service: values, then the objects whose fields the parse,
    merge and clear code updates in place. */
module UserMessages {
  import opened Bytes
  import opened Wire

  datatype ResultCodeValue = ResultCodeValue(errcode: Int32, errmsg: seq<Byte>)
  datatype LoginResponseValue = LoginResponseValue(result: Option<ResultCodeValue>, success: bool)
  datatype RegisterRequestValue = RegisterRequestValue(id: Uint32, name: seq<Byte>, pwd: seq<Byte>)

  const NO_RESULT: ResultCodeValue := ResultCodeValue(0, [])
  const NO_LOGIN: LoginResponseValue := LoginResponseValue(None, false)
  const NO_REGISTER: RegisterRequestValue := RegisterRequestValue(0, [], [])

  // ---------------------------------------------------------------- ResultCode

  function ResultFields(m: ResultCodeValue): (rs: seq<Record>)
    ensures forall i :: 0 <= i < |rs| ==> !rs[i].Skipped?
  {
    NumberField(1, SignExtend(m.errcode)) + DataField(2, m.errmsg)
  }

  function ResultSize(m: ResultCodeValue): (n: nat)
  {
    DataFieldSize(|m.errmsg|) + NumberFieldSize(SignExtend(m.errcode))
  }

  function ApplyResult(m: ResultCodeValue, r: Record): (m': Option<ResultCodeValue>)
  {
    match r
    case Number(f, v) => Some(if f == 1 then m.(errcode := ToInt32(v)) else m)
    case Data(f, d) => Some(if f == 2 then m.(errmsg := d) else m)
    case Skipped(_) => Some(m)
  }

  function MergeResult(to: ResultCodeValue, from: ResultCodeValue): (m: ResultCodeValue)
  {
    ResultCodeValue(if from.errcode != 0 then from.errcode else to.errcode,
                    if from.errmsg != [] then from.errmsg else to.errmsg)
  }

  lemma ResultLength(m: ResultCodeValue)
    ensures |EncodeRecords(ResultFields(m))| == ResultSize(m)
  {
    FieldSizes(1, SignExtend(m.errcode), []);
    FieldSizes(2, 0, m.errmsg);
    EncodedSize(NumberField(1, SignExtend(m.errcode)), DataField(2, m.errmsg));
  }

  /** The bytes of a result: fields 1 and 2 behind the tags 0x08 and 0x12. */
  lemma ResultLayout(m: ResultCodeValue)
    ensures EncodeRecords(ResultFields(m)) == ScalarBytes(0x08, SignExtend(m.errcode)) + TextBytes(0x12, m.errmsg)
  {
    EncodeRecordsAppend(NumberField(1, SignExtend(m.errcode)), DataField(2, m.errmsg));
    NumberBytes(1, SignExtend(m.errcode));
    DataBytes(2, m.errmsg);
  }

  lemma FoldResult(m: ResultCodeValue, acc: ResultCodeValue)
    ensures Fold(ResultFields(m), acc, ApplyResult) == Some(MergeResult(acc, m))
  {
    var f1, f2 := NumberField(1, SignExtend(m.errcode)), DataField(2, m.errmsg);
    var a1 := if m.errcode != 0 then acc.(errcode := m.errcode) else acc;
    Int32RoundTrip(m.errcode);
    FoldAppend(f1, f2, acc, ApplyResult);
    if m.errcode != 0 { FoldField(Number(1, SignExtend(m.errcode)), acc, ApplyResult); }
    if m.errmsg != [] { FoldField(Data(2, m.errmsg), a1, ApplyResult); }
  }

  /** Parsing a serialized result into any message merges it: the round trip is the case of an
      empty message. Negative codes travel as ten-byte varints. */
  lemma ResultMerges(m: ResultCodeValue, acc: ResultCodeValue, depth: nat)
    requires |m.errmsg| <= MAX_FIELD_LENGTH
    ensures ParseFields(EncodeRecords(ResultFields(m)), acc, ApplyResult, depth) == Some(MergeResult(acc, m))
    ensures MergeResult(NO_RESULT, m) == m
  {
    ParseEncoded(ResultFields(m), acc, ApplyResult, depth);
    FoldResult(m, acc);
  }

  /** "Last One Wins": the bytes of two results end to end parse to their merge. */
  lemma ResultConcatenation(m1: ResultCodeValue, m2: ResultCodeValue, depth: nat)
    requires |m1.errmsg| <= MAX_FIELD_LENGTH && |m2.errmsg| <= MAX_FIELD_LENGTH
    ensures ParseFields(EncodeRecords(ResultFields(m1)) + EncodeRecords(ResultFields(m2)), NO_RESULT, ApplyResult,
                        depth)
         == Some(MergeResult(m1, m2))
  {
    hide ParseFields, EncodeRecords;
    ResultMerges(m1, NO_RESULT, depth);
    ParseAppend(EncodeRecords(ResultFields(m1)), EncodeRecords(ResultFields(m2)), NO_RESULT, ApplyResult, depth);
    ResultMerges(m2, m1, depth);
  }

  // ---------------------------------------------------------------- LoginResponse

  function LoginFields(m: LoginResponseValue): (rs: seq<Record>)
    ensures forall i :: 0 <= i < |rs| ==> !rs[i].Skipped?
  {
    (match m.result
     case None => []
     case Some(r) => [Data(1, EncodeRecords(ResultFields(r)))])
    + NumberField(2, if m.success then 1 else 0)
  }

  function LoginSize(m: LoginResponseValue): (n: nat)
  {
    (match m.result
     case None => 0
     case Some(r) => 1 + VarintSize(ResultSize(r)) + ResultSize(r))
    + (if m.success then 2 else 0)
  }

  /** Field 1 is parsed into the nested message that is already there, one level deeper. */
  function ApplyLogin(m: LoginResponseValue, r: Record): (m': Option<LoginResponseValue>)
  {
    match r
    case Number(f, v) => Some(if f == 2 then m.(success := v != 0) else m)
    case Data(f, d) =>
      if f != 1 then Some(m)
      else
        var nested := if m.result.Some? then m.result.value else NO_RESULT;
        (match ParseFields(d, nested, ApplyResult, RECURSION_LIMIT - 1)
         case None => None
         case Some(n) => Some(m.(result := Some(n))))
    case Skipped(_) => Some(m)
  }

  function MergeLogin(to: LoginResponseValue, from: LoginResponseValue): (m: LoginResponseValue)
  {
    LoginResponseValue(
      match from.result
      case None => to.result
      case Some(r) => Some(MergeResult(if to.result.Some? then to.result.value else NO_RESULT, r)),
      from.success || to.success)
  }

  predicate LoginFits(m: LoginResponseValue)
  {
    m.result.Some? ==> |m.result.value.errmsg| <= MAX_FIELD_LENGTH && ResultSize(m.result.value) <= MAX_FIELD_LENGTH
  }

  lemma LoginLength(m: LoginResponseValue)
    ensures |EncodeRecords(LoginFields(m))| == LoginSize(m)
  {
    var b := NumberField(2, if m.success then 1 else 0);
    FieldSizes(2, if m.success then 1 else 0, []);
    match m.result
    case None => assert LoginFields(m) == b;
    case Some(r) => NestedLength(r, b);
  }

  /** The bytes of a login response: the nested result behind 0x0a, even when it is empty, and the flag behind 0x10. */
  lemma LoginLayout(m: LoginResponseValue)
    ensures EncodeRecords(LoginFields(m))
         == (match m.result
             case None => []
             case Some(r) =>
               var nested := EncodeRecords(ResultFields(r));
               [0x0a] + (Varint(|nested|) + nested))
            + (if m.success then [0x10, 0x01] else [])
  {
    var b := NumberField(2, if m.success then 1 else 0);
    NumberBytes(2, if m.success then 1 else 0);
    assert Varint(1) == [1] && [0x10] + [1] == [0x10, 0x01];
    match m.result
    case None =>
      assert LoginFields(m) == b && [] + EncodeRecords(b) == EncodeRecords(b);
    case Some(r) =>
      var nested := EncodeRecords(ResultFields(r));
      assert LoginFields(m) == [Data(1, nested)] + b;
      assert ([Data(1, nested)] + b)[1..] == b;
  }

  /** Any nonzero varint is read as true. */
  lemma FlagRead(v: Uint64)
    ensures ParseFields([0x10] + Varint(v), NO_LOGIN, ApplyLogin, RECURSION_LIMIT)
         == Some(NO_LOGIN.(success := v != 0))
  {
    ParseOne(Number(2, v), NO_LOGIN, ApplyLogin, RECURSION_LIMIT);
  }

  lemma NestedLength(r: ResultCodeValue, rest: seq<Record>)
    requires forall i :: 0 <= i < |rest| ==> !rest[i].Skipped?
    ensures |EncodeRecords([Data(1, EncodeRecords(ResultFields(r)))] + rest)|
         == 1 + VarintSize(ResultSize(r)) + ResultSize(r) + |EncodeRecords(rest)|
  {
    var d := EncodeRecords(ResultFields(r));
    ResultLength(r);
    VarintLength(|d|);
    EncodedFront(1, d, rest);
  }

  lemma FoldLogin(m: LoginResponseValue, acc: LoginResponseValue)
    requires LoginFits(m)
    ensures Fold(LoginFields(m), acc, ApplyLogin) == Some(MergeLogin(acc, m))
  {
    var f1 := match m.result case None => [] case Some(r) => [Data(1, EncodeRecords(ResultFields(r)))];
    var f2 := NumberField(2, if m.success then 1 else 0);
    FoldAppend(f1, f2, acc, ApplyLogin);
    var a1 := acc;
    match m.result {
      case None =>
      case Some(r) =>
        var nested := if acc.result.Some? then acc.result.value else NO_RESULT;
        ResultMerges(r, nested, RECURSION_LIMIT - 1);
        FoldField(f1[0], acc, ApplyLogin);
        a1 := acc.(result := Some(MergeResult(nested, r)));
    }
    if m.success { FoldField(Number(2, 1), a1, ApplyLogin); }
  }

  lemma LoginWritable(m: LoginResponseValue)
    requires LoginFits(m)
    ensures AllWritable(LoginFields(m))
  {
    if m.result.Some? { ResultLength(m.result.value); }
  }

  /** Parsing a serialized response into any message merges it, nested message included. */
  lemma LoginMerges(m: LoginResponseValue, acc: LoginResponseValue)
    requires LoginFits(m)
    ensures ParseFields(EncodeRecords(LoginFields(m)), acc, ApplyLogin, RECURSION_LIMIT) == Some(MergeLogin(acc, m))
    ensures MergeLogin(NO_LOGIN, m) == m
  {
    LoginWritable(m);
    ParseEncoded(LoginFields(m), acc, ApplyLogin, RECURSION_LIMIT);
    FoldLogin(m, acc);
  }

  /** "Last One Wins": the bytes of two messages end to end parse to their merge. */
  lemma LoginConcatenation(m1: LoginResponseValue, m2: LoginResponseValue)
    requires LoginFits(m1) && LoginFits(m2)
    ensures ParseFields(EncodeRecords(LoginFields(m1)) + EncodeRecords(LoginFields(m2)), NO_LOGIN, ApplyLogin,
                        RECURSION_LIMIT)
         == Some(MergeLogin(m1, m2))
  {
    LoginMerges(m1, NO_LOGIN);
    ParseAppend(EncodeRecords(LoginFields(m1)), EncodeRecords(LoginFields(m2)), NO_LOGIN, ApplyLogin, RECURSION_LIMIT);
    LoginMerges(m2, m1);
  }

  // ---------------------------------------------------------------- RegisterRequest

  function RegisterFields(m: RegisterRequestValue): (rs: seq<Record>)
    ensures forall i :: 0 <= i < |rs| ==> !rs[i].Skipped?
  {
    NumberField(1, m.id) + (DataField(2, m.name) + DataField(3, m.pwd))
  }

  function RegisterSize(m: RegisterRequestValue): (n: nat)
  {
    DataFieldSize(|m.name|) + DataFieldSize(|m.pwd|) + NumberFieldSize(m.id)
  }

  function ApplyRegister(m: RegisterRequestValue, r: Record): (m': Option<RegisterRequestValue>)
  {
    match r
    case Number(f, v) => Some(if f == 1 then m.(id := v % U32) else m)
    case Data(f, d) => Some(if f == 2 then m.(name := d) else if f == 3 then m.(pwd := d) else m)
    case Skipped(_) => Some(m)
  }

  function MergeRegister(to: RegisterRequestValue, from: RegisterRequestValue): (m: RegisterRequestValue)
  {
    RegisterRequestValue(if from.id != 0 then from.id else to.id,
                         if from.name != [] then from.name else to.name,
                         if from.pwd != [] then from.pwd else to.pwd)
  }

  predicate RegisterFits(m: RegisterRequestValue)
  {
    |m.name| <= MAX_FIELD_LENGTH && |m.pwd| <= MAX_FIELD_LENGTH
  }

  lemma RegisterLength(m: RegisterRequestValue)
    ensures |EncodeRecords(RegisterFields(m))| == RegisterSize(m)
  {
    FieldSizes(1, m.id, []);
    FieldSizes(2, 0, m.name);
    FieldSizes(3, 0, m.pwd);
    EncodedSize(DataField(2, m.name), DataField(3, m.pwd));
    EncodedSize(NumberField(1, m.id), DataField(2, m.name) + DataField(3, m.pwd));
  }

  /** The bytes of a registration: fields 1 to 3 behind the tags 0x08, 0x12 and 0x1a. */
  lemma RegisterLayout(m: RegisterRequestValue)
    ensures EncodeRecords(RegisterFields(m))
         == ScalarBytes(0x08, m.id) + (TextBytes(0x12, m.name) + TextBytes(0x1a, m.pwd))
  {
    EncodeRecordsAppend(DataField(2, m.name), DataField(3, m.pwd));
    EncodeRecordsAppend(NumberField(1, m.id), DataField(2, m.name) + DataField(3, m.pwd));
    NumberBytes(1, m.id);
    DataBytes(2, m.name);
    DataBytes(3, m.pwd);
  }

  lemma FoldRegister(m: RegisterRequestValue, acc: RegisterRequestValue)
    ensures Fold(RegisterFields(m), acc, ApplyRegister) == Some(MergeRegister(acc, m))
  {
    var f1, f2, f3 := NumberField(1, m.id), DataField(2, m.name), DataField(3, m.pwd);
    var a1 := if m.id != 0 then acc.(id := m.id) else acc;
    var a2 := if m.name != [] then a1.(name := m.name) else a1;
    FoldAppend(f1, f2 + f3, acc, ApplyRegister);
    FoldAppend(f2, f3, a1, ApplyRegister);
    if m.id != 0 { FoldField(Number(1, m.id), acc, ApplyRegister); }
    if m.name != [] { FoldField(Data(2, m.name), a1, ApplyRegister); }
    if m.pwd != [] { FoldField(Data(3, m.pwd), a2, ApplyRegister); }
  }

  lemma RegisterMerges(m: RegisterRequestValue, acc: RegisterRequestValue)
    requires RegisterFits(m)
    ensures ParseFields(EncodeRecords(RegisterFields(m)), acc, ApplyRegister, RECURSION_LIMIT)
         == Some(MergeRegister(acc, m))
    ensures MergeRegister(NO_REGISTER, m) == m
  {
    ParseEncoded(RegisterFields(m), acc, ApplyRegister, RECURSION_LIMIT);
    FoldRegister(m, acc);
  }

  lemma RegisterConcatenation(m1: RegisterRequestValue, m2: RegisterRequestValue)
    requires RegisterFits(m1) && RegisterFits(m2)
    ensures ParseFields(EncodeRecords(RegisterFields(m1)) + EncodeRecords(RegisterFields(m2)), NO_REGISTER,
                        ApplyRegister, RECURSION_LIMIT)
         == Some(MergeRegister(m1, m2))
  {
    hide ParseFields, EncodeRecords;
    RegisterMerges(m1, NO_REGISTER);
    ParseAppend(EncodeRecords(RegisterFields(m1)), EncodeRecords(RegisterFields(m2)), NO_REGISTER, ApplyRegister,
                RECURSION_LIMIT);
    RegisterMerges(m2, m1);
  }

  // ---------------------------------------------------------------- message objects

  class ResultCode {
    var errcode: Int32
    var errmsg: seq<Byte>

    function Value(): (v: ResultCodeValue)
      reads this
    {
      ResultCodeValue(errcode, errmsg)
    }

    constructor ()
      ensures Value() == NO_RESULT
    {
      errcode, errmsg := 0, [];
    }

    method Clear()
      modifies this
      ensures Value() == NO_RESULT
    {
      errmsg := [];
      errcode := 0;
    }

    method MergeFrom(from: ResultCode)
      modifies this
      ensures Value() == MergeResult(old(Value()), old(from.Value()))
    {
      if from.errmsg != [] { errmsg := from.errmsg; }
      if from.errcode != 0 { errcode := from.errcode; }
    }

    method ByteSizeLong() returns (total: nat)
      ensures total == |EncodeRecords(ResultFields(Value()))|
    {
      total := 0;
      if errmsg != [] { total := total + 1 + VarintSize(|errmsg|) + |errmsg|; }
      if errcode != 0 { total := total + 1 + VarintSize(SignExtend(errcode)); }
      ResultLength(Value());
    }

    /** The parse loop: fields are overwritten record by record, so a failure leaves the records
        read so far in the message. */
    method InternalParse(b: seq<Byte>, depth: nat) returns (ok: bool)
      modifies this
      ensures ok <==> ParseFields(b, old(Value()), ApplyResult, depth).Some?
      ensures ok ==> Some(Value()) == ParseFields(b, old(Value()), ApplyResult, depth)
    {
      var rest := b;
      while rest != []
        invariant ParseFields(rest, Value(), ApplyResult, depth) == ParseFields(b, old(Value()), ApplyResult, depth)
        decreases |rest|
      {
        var record := ReadRecord(rest, depth);
        if record == None { return false; }
        var (r, tail) := record.value;
        if r.Number? && r.field == 1 {
          errcode := ToInt32(r.value);
        } else if r.Data? && r.field == 2 {
          errmsg := r.bytes;
        }
        rest := tail;
      }
      return true;
    }
  }

  class LoginResponse {
    var result: ResultCode?
    var success: bool

    function Value(): (v: LoginResponseValue)
      reads this, result
    {
      LoginResponseValue(if result == null then None else Some(result.Value()), success)
    }

    constructor ()
      ensures Value() == NO_LOGIN
    {
      result, success := null, false;
    }

    method Clear()
      modifies this
      ensures Value() == NO_LOGIN
    {
      result := null;
      success := false;
    }

    /** Merging reads the source's nested message and writes this one's own, creating it if absent. */
    method MergeFrom(from: LoginResponse)
      requires from != this && (result != null ==> result != from.result)
      modifies this, result
      ensures Value() == MergeLogin(old(Value()), old(from.Value()))
      ensures from.Value() == old(from.Value())
      ensures result == old(result) || fresh(result)
    {
      if from.result != null {
        if result == null { result := new ResultCode(); }
        result.MergeFrom(from.result);
      }
      if from.success { success := from.success; }
    }

    method ByteSizeLong() returns (total: nat)
      ensures total == |EncodeRecords(LoginFields(Value()))|
    {
      total := 0;
      LoginLength(Value());
      if result != null {
        var nested := result.ByteSizeLong();
        ResultLength(result.Value());
        total := total + 1 + (VarintSize(nested) + nested);
      }
      if success { total := total + 1 + 1; }
    }

    method InternalParse(b: seq<Byte>) returns (ok: bool)
      modifies this, result
      ensures ok <==> ParseFields(b, old(Value()), ApplyLogin, RECURSION_LIMIT).Some?
      ensures ok ==> Some(Value()) == ParseFields(b, old(Value()), ApplyLogin, RECURSION_LIMIT)
      ensures result == old(result) || fresh(result)
    {
      var rest := b;
      while rest != []
        invariant result == old(result) || fresh(result)
        invariant ParseFields(rest, Value(), ApplyLogin, RECURSION_LIMIT)
               == ParseFields(b, old(Value()), ApplyLogin, RECURSION_LIMIT)
        decreases |rest|
      {
        var record := ReadRecord(rest, RECURSION_LIMIT);
        if record == None { return false; }
        var (r, tail) := record.value;
        ghost var before := Value();
        if r.Data? && r.field == 1 {
          if result == null { result := new ResultCode(); }
          var nestedOk := result.InternalParse(r.bytes, RECURSION_LIMIT - 1);
          if !nestedOk { return false; }
        } else if r.Number? && r.field == 2 {
          success := r.value != 0;
        }
        assert ApplyLogin(before, r) == Some(Value());
        rest := tail;
      }
      return true;
    }
  }
}

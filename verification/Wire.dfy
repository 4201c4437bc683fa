/** The proto3 wire format: base-128 varints, tagged records, and the record loop that every
    generated parser runs. */
module Wire {
  import opened Bytes

  // Longest length-delimited field that the parser accepts (the limit keeps 16 bytes of slack).
  const MAX_FIELD_LENGTH: int := INT_MAX - 16
  // Nesting allowed for groups and sub-messages.
  const RECURSION_LIMIT: nat := 100

  // ---------------------------------------------------------------- varints

  function Varint(n: nat): (b: seq<Byte>)
    ensures |b| >= 1
  {
    if n < 128 then [n] else [128 + n % 128] + Varint(n / 128)
  }

  /** What bytes of seven bits each are worth, least significant first. */
  function Base128(b: seq<Byte>): (n: nat)
  {
    if b == [] then 0 else b[0] % 128 + 128 * Base128(b[1..])
  }

  /** "Base 128 Varints": seven bits a byte, least significant first; all bytes but the last have the top bit set, and
      the last is not a superfluous zero. */
  lemma VarintMeans(n: nat)
    ensures Base128(Varint(n)) == n
    ensures forall i :: 0 <= i < |Varint(n)| - 1 ==> Varint(n)[i] >= 128
    ensures Varint(n)[|Varint(n)| - 1] < 128 && (|Varint(n)| > 1 ==> Varint(n)[|Varint(n)| - 1] != 0)
  {
    hide Varint, Base128;
    VarintWorth(n);
    VarintShape(n);
  }

  lemma {:induction false} VarintWorth(n: nat)
    ensures Base128(Varint(n)) == n
  {
    if n < 128 {
      assert Varint(n)[1..] == [] && Base128([]) == 0;
    } else {
      VarintWorth(n / 128);
      assert Varint(n)[1..] == Varint(n / 128);
      assert (128 + n % 128) % 128 == n % 128;
    }
  }

  lemma {:induction false} VarintShape(n: nat)
    ensures forall i :: 0 <= i < |Varint(n)| - 1 ==> Varint(n)[i] >= 128
    ensures Varint(n)[|Varint(n)| - 1] < 128 && (|Varint(n)| > 1 ==> Varint(n)[|Varint(n)| - 1] != 0)
  {
    if n >= 128 {
      VarintShape(n / 128);
      var rest := Varint(n / 128);
      assert Varint(n) == [128 + n % 128] + rest;
      if |rest| == 1 { assert rest[0] == n / 128; }
      hide Varint;
    }
  }

  /** Reads a varint of at most `limit` bytes; the caller truncates the value to its width. */
  function ReadVarint(b: seq<Byte>, limit: nat): (r: Option<(nat, seq<Byte>)>)
    ensures r.Some? ==> |r.value.1| < |b|
  {
    if limit == 0 || b == [] then None
    else if b[0] < 128 then Some((b[0], b[1..]))
    else
      match ReadVarint(b[1..], limit - 1)
      case None => None
      case Some((v, rest)) =>
        var low: int := b[0];
        Some((low - 128 + 128 * v, rest))
  }

  function Log2(n: nat): (k: nat)
  {
    if n < 2 then 0 else 1 + Log2(n / 2)
  }

  function Pow2(k: nat): (p: nat)
    ensures p >= 1
  {
    if k == 0 then 1 else 2 * Pow2(k - 1)
  }

  /** The size that `ByteSizeLong` adds for a varint: one byte per started group of seven bits. */
  function VarintSize(n: nat): (k: nat)
  {
    1 + Log2(n) / 7
  }

  lemma Log2Seven(n: nat)
    requires n >= 128
    ensures Log2(n) == 7 + Log2(n / 128)
  {
    assert n / 2 / 2 == n / 4;
    assert n / 4 / 2 == n / 8;
    assert n / 8 / 2 == n / 16;
    assert n / 16 / 2 == n / 32;
    assert n / 32 / 2 == n / 64;
    assert n / 64 / 2 == n / 128;
    assert Log2(n) == 1 + Log2(n / 2);
    assert Log2(n / 2) == 1 + Log2(n / 4);
    assert Log2(n / 4) == 1 + Log2(n / 8);
    assert Log2(n / 8) == 1 + Log2(n / 16);
    assert Log2(n / 16) == 1 + Log2(n / 32);
    assert Log2(n / 32) == 1 + Log2(n / 64);
    assert Log2(n / 64) == 1 + Log2(n / 128);
  }

  lemma {:induction false} Log2Below(n: nat, k: nat)
    requires k >= 1 && n < Pow2(k)
    ensures Log2(n) < k
  {
    if n >= 2 {
      assert Pow2(k) == 2 * Pow2(k - 1);
      if k >= 2 { Log2Below(n / 2, k - 1); }
    }
  }

  /** The arithmetic size is the length of the encoding. */
  lemma {:induction false} VarintLength(n: nat)
    ensures |Varint(n)| == VarintSize(n)
  {
    if n < 128 {
      assert Pow2(7) == 128;
      Log2Below(n, 7);
    } else {
      Log2Seven(n);
      VarintLength(n / 128);
    }
  }

  function Pow128(k: nat): (p: nat)
    ensures p >= 1
  {
    if k == 0 then 1 else 128 * Pow128(k - 1)
  }

  lemma {:induction false} VarintAtMost(n: nat, k: nat)
    requires n < Pow128(k)
    ensures k >= 1 ==> |Varint(n)| <= k
  {
    if n >= 128 {
      assert Pow128(k) == 128 * Pow128(k - 1);
      VarintAtMost(n / 128, k - 1);
    }
  }

  lemma VarintWidths(n: nat)
    ensures n < U32 ==> |Varint(n)| <= 5
    ensures n < U64 ==> |Varint(n)| <= 10
  {
    if n < U32 {
      assert Pow128(5) == 0x8_0000_0000;
      VarintAtMost(n, 5);
    }
    if n < U64 {
      assert Pow128(10) == 0x8_0000_0000 * 0x8_0000_0000 by {
        assert Pow128(5) == 0x8_0000_0000;
        assert Pow128(6) == 128 * Pow128(5);
        assert Pow128(7) == 128 * Pow128(6);
        assert Pow128(8) == 128 * Pow128(7);
        assert Pow128(9) == 128 * Pow128(8);
        assert Pow128(10) == 128 * Pow128(9);
      }
      VarintAtMost(n, 10);
    }
  }

  /** A varint is read back exactly, whatever follows it, if the reader accepts its length. */
  lemma {:induction false} VarintRoundTrip(n: nat, rest: seq<Byte>, limit: nat)
    requires |Varint(n)| <= limit
    ensures ReadVarint(Varint(n) + rest, limit) == Some((n, rest))
  {
    var b := Varint(n) + rest;
    if n < 128 {
      assert b[1..] == rest;
    } else {
      assert b[1..] == Varint(n / 128) + rest;
      VarintRoundTrip(n / 128, rest, limit - 1);
    }
  }

  lemma {:induction false} ReadVarintAppend(b: seq<Byte>, more: seq<Byte>, limit: nat)
    requires ReadVarint(b, limit).Some?
    ensures var (v, rest) := ReadVarint(b, limit).value;
            ReadVarint(b + more, limit) == Some((v, rest + more))
  {
    assert (b + more)[1..] == b[1..] + more;
    if b[0] >= 128 {
      ReadVarintAppend(b[1..], more, limit - 1);
    }
  }

  // ---------------------------------------------------------------- records

  /** One record of a message: the two wire types that the messages here use, with their value, and
      everything else that a parser steps over. */
  datatype Record =
    | Number(field: nat, value: nat)
    | Data(field: nat, bytes: seq<Byte>)
    | Skipped(field: nat)

  /** A 32-bit tag of at most five bytes. */
  function ReadTag(b: seq<Byte>): (r: Option<(nat, seq<Byte>)>)
    ensures r.Some? ==> |r.value.1| < |b|
  {
    match ReadVarint(b, 5)
    case None => None
    case Some((v, rest)) => Some((v % U32, rest))
  }

  /** The bytes of a length-delimited field. */
  function ReadDelimited(b: seq<Byte>): (r: Option<(seq<Byte>, seq<Byte>)>)
    ensures r.Some? ==> |r.value.1| < |b|
  {
    match ReadVarint(b, 5)
    case None => None
    case Some((n, rest)) =>
      if n > MAX_FIELD_LENGTH || n > |rest| then None else Some((rest[..n], rest[n..]))
  }

  function Drop(b: seq<Byte>, n: nat): (r: Option<seq<Byte>>)
    ensures r.Some? ==> |r.value| <= |b|
  {
    if |b| < n then None else Some(b[n..])
  }

  /** Steps over the value of a field whose tag was just read. */
  function SkipValue(tag: nat, b: seq<Byte>, depth: nat): (r: Option<seq<Byte>>)
    ensures r.Some? ==> |r.value| <= |b|
    decreases |b|, 1
  {
    match tag % 8
    case 0 => (match ReadVarint(b, 10) case None => None case Some((_, rest)) => Some(rest))
    case 1 => Drop(b, 8)
    case 2 => (match ReadDelimited(b) case None => None case Some((_, rest)) => Some(rest))
    case 3 => if depth == 0 then None else SkipGroup(tag, b, depth - 1)
    case 5 => Drop(b, 4)
    case _ => None
  }

  /** Steps over the fields of a group up to the end tag that matches `start`. */
  function SkipGroup(start: nat, b: seq<Byte>, depth: nat): (r: Option<seq<Byte>>)
    ensures r.Some? ==> |r.value| <= |b|
    decreases |b|, 0
  {
    match ReadTag(b)
    case None => None
    case Some((tag, rest)) =>
      if tag == start + 1 then Some(rest)
      else if tag / 8 == 0 || tag % 8 == 4 then None
      else
        match SkipValue(tag, rest, depth)
        case None => None
        case Some(rest') => SkipGroup(start, rest', depth)
  }

  /** Reads one record. A zero tag, a stray end-group tag and field number zero are errors. */
  function ReadRecord(b: seq<Byte>, depth: nat): (r: Option<(Record, seq<Byte>)>)
    ensures r.Some? ==> |r.value.1| < |b|
  {
    match ReadTag(b)
    case None => None
    case Some((tag, rest)) =>
      if tag / 8 == 0 || tag % 8 == 4 then None
      else if tag % 8 == 0 then
        (match ReadVarint(rest, 10)
         case None => None
         case Some((v, rest')) => Some((Number(tag / 8, v % U64), rest')))
      else if tag % 8 == 2 then
        (match ReadDelimited(rest)
         case None => None
         case Some((d, rest')) => Some((Data(tag / 8, d), rest')))
      else
        (match SkipValue(tag, rest, depth)
         case None => None
         case Some(rest') => Some((Skipped(tag / 8), rest')))
  }

  /** A record that a serializer may write. */
  predicate Writable(r: Record)
  {
    match r
    case Number(f, v) => 1 <= f < 0x2000_0000 && v < U64
    case Data(f, d) => 1 <= f < 0x2000_0000 && |d| <= MAX_FIELD_LENGTH
    case Skipped(_) => false
  }

  predicate AllWritable(rs: seq<Record>)
  {
    forall i :: 0 <= i < |rs| ==> Writable(rs[i])
  }

  function EncodeRecord(r: Record): (b: seq<Byte>)
    requires !r.Skipped?
    ensures |b| >= 1
  {
    match r
    case Number(f, v) => Varint(8 * f) + Varint(v)
    case Data(f, d) => Varint(8 * f + 2) + (Varint(|d|) + d)
  }

  function EncodeRecords(rs: seq<Record>): (b: seq<Byte>)
    requires forall i :: 0 <= i < |rs| ==> !rs[i].Skipped?
  {
    if rs == [] then [] else EncodeRecord(rs[0]) + EncodeRecords(rs[1..])
  }

  lemma {:induction false} EncodeRecordsAppend(a: seq<Record>, b: seq<Record>)
    requires forall i :: 0 <= i < |a| ==> !a[i].Skipped?
    requires forall i :: 0 <= i < |b| ==> !b[i].Skipped?
    ensures EncodeRecords(a + b) == EncodeRecords(a) + EncodeRecords(b)
  {
    hide EncodeRecord;
    if a == [] {
      assert a + b == b;
      assert [] + EncodeRecords(b) == EncodeRecords(b);
    } else {
      var whole, front, tail := a + b, EncodeRecord(a[0]), EncodeRecords(a[1..]);
      assert whole[0] == a[0] && whole[1..] == a[1..] + b;
      EncodeRecordsAppend(a[1..], b);
      assert EncodeRecords(whole) == front + (tail + EncodeRecords(b));
      assert front + (tail + EncodeRecords(b)) == (front + tail) + EncodeRecords(b);
    }
  }

  lemma TagRoundTrip(field: nat, kind: nat, rest: seq<Byte>)
    requires 1 <= field < 0x2000_0000 && kind < 8
    ensures ReadTag(Varint(8 * field + kind) + rest) == Some((8 * field + kind, rest))
    ensures (8 * field + kind) / 8 == field && (8 * field + kind) % 8 == kind
  {
    VarintWidths(8 * field + kind);
    VarintRoundTrip(8 * field + kind, rest, 5);
  }

  lemma NumberRoundTrip(field: nat, value: nat, rest: seq<Byte>, depth: nat)
    requires Writable(Number(field, value))
    ensures ReadRecord(EncodeRecord(Number(field, value)) + rest, depth) == Some((Number(field, value), rest))
  {
    hide Varint, ReadVarint, SkipValue;
    VarintWidths(value);
    assert EncodeRecord(Number(field, value)) + rest == Varint(8 * field + 0) + (Varint(value) + rest);
    TagRoundTrip(field, 0, Varint(value) + rest);
    VarintRoundTrip(value, rest, 10);
  }

  lemma DelimitedRoundTrip(d: seq<Byte>, rest: seq<Byte>)
    requires |d| <= MAX_FIELD_LENGTH
    ensures ReadDelimited(Varint(|d|) + (d + rest)) == Some((d, rest))
  {
    VarintWidths(|d|);
    VarintRoundTrip(|d|, d + rest, 5);
    assert (d + rest)[..|d|] == d;
    assert (d + rest)[|d|..] == rest;
  }

  lemma DataRoundTrip(field: nat, d: seq<Byte>, rest: seq<Byte>, depth: nat)
    requires Writable(Data(field, d))
    ensures ReadRecord(EncodeRecord(Data(field, d)) + rest, depth) == Some((Data(field, d), rest))
  {
    var tail := Varint(|d|) + (d + rest);
    assert EncodeRecord(Data(field, d)) + rest == Varint(8 * field + 2) + tail;
    TagRoundTrip(field, 2, tail);
    DelimitedRoundTrip(d, rest);
  }

  /** Every written record is read back exactly and nothing after it is touched. */
  lemma RecordRoundTrip(r: Record, rest: seq<Byte>, depth: nat)
    requires Writable(r)
    ensures ReadRecord(EncodeRecord(r) + rest, depth) == Some((r, rest))
  {
    match r
    case Number(f, v) => NumberRoundTrip(f, v, rest, depth);
    case Data(f, d) => DataRoundTrip(f, d, rest, depth);
  }

  // ------------------------------------------------- reading ignores what comes later

  lemma ReadDelimitedAppend(b: seq<Byte>, more: seq<Byte>)
    requires ReadDelimited(b).Some?
    ensures var (d, rest) := ReadDelimited(b).value;
            ReadDelimited(b + more) == Some((d, rest + more))
  {
    ReadVarintAppend(b, more, 5);
    var (n, rest) := ReadVarint(b, 5).value;
    assert (rest + more)[..n] == rest[..n];
    assert (rest + more)[n..] == rest[n..] + more;
  }

  lemma DropAppend(b: seq<Byte>, more: seq<Byte>, n: nat)
    requires |b| >= n
    ensures Drop(b + more, n) == Some(b[n..] + more)
  {
    assert (b + more)[n..] == b[n..] + more;
  }

  lemma {:induction false} SkipValueAppend(tag: nat, b: seq<Byte>, more: seq<Byte>, depth: nat)
    requires SkipValue(tag, b, depth).Some?
    ensures SkipValue(tag, b + more, depth) == Some(SkipValue(tag, b, depth).value + more)
    decreases |b|, 1
  {
    match tag % 8 {
      case 0 => ReadVarintAppend(b, more, 10);
      case 1 => DropAppend(b, more, 8);
      case 2 => ReadDelimitedAppend(b, more);
      case 3 => SkipGroupAppend(tag, b, more, depth - 1);
      case 5 => DropAppend(b, more, 4);
      case _ =>
    }
  }

  lemma {:induction false} SkipGroupAppend(start: nat, b: seq<Byte>, more: seq<Byte>, depth: nat)
    requires SkipGroup(start, b, depth).Some?
    ensures SkipGroup(start, b + more, depth) == Some(SkipGroup(start, b, depth).value + more)
    decreases |b|, 0
  {
    ReadVarintAppend(b, more, 5);
    var (tag, rest) := ReadTag(b).value;
    if tag != start + 1 {
      SkipValueAppend(tag, rest, more, depth);
      SkipGroupAppend(start, SkipValue(tag, rest, depth).value, more, depth);
    }
  }

  lemma ReadRecordAppend(b: seq<Byte>, more: seq<Byte>, depth: nat)
    requires ReadRecord(b, depth).Some?
    ensures var (r, rest) := ReadRecord(b, depth).value;
            ReadRecord(b + more, depth) == Some((r, rest + more))
  {
    ReadVarintAppend(b, more, 5);
    var (tag, rest) := ReadTag(b).value;
    if tag % 8 == 0 {
      ReadVarintAppend(rest, more, 10);
    } else if tag % 8 == 2 {
      ReadDelimitedAppend(rest, more);
    } else {
      SkipValueAppend(tag, rest, more, depth);
    }
  }

  // ---------------------------------------------------------------- unknown fields

  lemma SkipsTag(tag: nat, rest: seq<Byte>)
    requires tag < U32
    ensures ReadTag(Varint(tag) + rest) == Some((tag, rest))
  {
    hide Varint, ReadVarint;
    VarintWidths(tag);
    VarintRoundTrip(tag, rest, 5);
    assert tag % U32 == tag;
  }

  /** Fields of the wire types that no message here uses are stepped over by their fixed sizes. */
  lemma FixedSkipped(field: nat, value: seq<Byte>, rest: seq<Byte>, depth: nat)
    requires 1 <= field < 0x2000_0000
    ensures |value| == 8 ==> ReadRecord(Varint(8 * field + 1) + (value + rest), depth) == Some((Skipped(field), rest))
    ensures |value| == 4 ==> ReadRecord(Varint(8 * field + 5) + (value + rest), depth) == Some((Skipped(field), rest))
  {
    hide ReadTag, Varint;
    SkipsTag(8 * field + 1, value + rest);
    SkipsTag(8 * field + 5, value + rest);
    assert (value + rest)[|value|..] == rest;
  }

  /** Field number zero, stray end tags and undefined wire types make a message unreadable; so does a group nested too
      deep. */
  lemma BadTagRefused(tag: nat, rest: seq<Byte>, depth: nat)
    requires tag < U32
    requires tag / 8 == 0 || tag % 8 == 4 || tag % 8 == 6 || tag % 8 == 7 || (tag % 8 == 3 && depth == 0)
    ensures ReadRecord(Varint(tag) + rest, depth) == None
  {
    hide ReadTag, Varint;
    SkipsTag(tag, rest);
  }

  lemma {:induction false} VarintRefused(b: seq<Byte>, limit: nat)
    requires |b| >= limit && forall i :: 0 <= i < limit ==> b[i] >= 128
    ensures ReadVarint(b, limit) == None
  {
    if limit != 0 { VarintRefused(b[1..], limit - 1); }
  }

  /** A tag of more than five bytes and a value of more than ten are refused. */
  lemma OverlongRefused(field: nat, b: seq<Byte>, depth: nat)
    requires 1 <= field < 0x2000_0000
    ensures |b| >= 5 && (forall i :: 0 <= i < 5 ==> b[i] >= 128) ==> ReadRecord(b, depth) == None
    ensures |b| >= 10 && (forall i :: 0 <= i < 10 ==> b[i] >= 128) ==> ReadRecord(Varint(8 * field) + b, depth) == None
  {
    if |b| >= 5 && forall i :: 0 <= i < 5 ==> b[i] >= 128 { VarintRefused(b, 5); }
    if |b| >= 10 && forall i :: 0 <= i < 10 ==> b[i] >= 128 { VarintRefused(b, 10); }
    SkipsTag(8 * field, b);
    hide ReadVarint, Varint;
  }

  lemma GroupValue(start: nat, b: seq<Byte>, depth: nat)
    requires start % 8 == 3 && depth >= 1
    ensures SkipValue(start, b, depth) == SkipGroup(start, b, depth - 1)
  {
  }

  /** A group is stepped over to its own end tag, with everything in it. */
  lemma GroupSkipped(field: nat, inner: seq<Record>, rest: seq<Byte>, depth: nat)
    requires 1 <= field < 0x2000_0000 && AllWritable(inner) && depth >= 1
    ensures ReadRecord(Varint(8 * field + 3) + (EncodeRecords(inner) + (Varint(8 * field + 4) + rest)), depth)
         == Some((Skipped(field), rest))
  {
    hide ReadTag, Varint, SkipGroup, EncodeRecords, SkipValue;
    var start, body := 8 * field + 3, EncodeRecords(inner) + (Varint(8 * field + 4) + rest);
    SkipsTag(start, body);
    InsideSkipped(start, inner, rest, depth - 1);
    GroupValue(start, body, depth);
    assert start / 8 == field && start % 8 == 3;
  }

  /** One turn of the group loop. */
  lemma GroupTurn(start: nat, b: seq<Byte>, depth: nat)
    requires ReadTag(b).Some? && ReadTag(b).value.0 != start + 1
    requires ReadTag(b).value.0 / 8 != 0 && ReadTag(b).value.0 % 8 != 4
    requires SkipValue(ReadTag(b).value.0, ReadTag(b).value.1, depth).Some?
    ensures SkipGroup(start, b, depth)
         == SkipGroup(start, SkipValue(ReadTag(b).value.0, ReadTag(b).value.1, depth).value, depth)
  {
  }

  lemma GroupEnd(start: nat, b: seq<Byte>, rest: seq<Byte>, depth: nat)
    requires ReadTag(b) == Some((start + 1, rest))
    ensures SkipGroup(start, b, depth) == Some(rest)
  {
  }

  lemma {:induction false} InsideSkipped(start: nat, inner: seq<Record>, rest: seq<Byte>, depth: nat)
    requires start % 8 == 3 && start + 1 < U32 && AllWritable(inner)
    ensures SkipGroup(start, EncodeRecords(inner) + (Varint(start + 1) + rest), depth) == Some(rest)
  {
    hide ReadTag, SkipValue, SkipGroup, EncodeRecord, Varint;
    if inner == [] {
      assert EncodeRecords(inner) + (Varint(start + 1) + rest) == Varint(start + 1) + rest;
      SkipsTag(start + 1, rest);
      GroupEnd(start, Varint(start + 1) + rest, rest, depth);
    } else {
      var more := EncodeRecords(inner[1..]) + (Varint(start + 1) + rest);
      assert EncodeRecords(inner) + (Varint(start + 1) + rest) == EncodeRecord(inner[0]) + more;
      ValueSkipped(inner[0], more, depth);
      GroupTurn(start, EncodeRecord(inner[0]) + more, depth);
      InsideSkipped(start, inner[1..], rest, depth);
    }
  }

  lemma NumberSkipped(field: nat, value: nat, more: seq<Byte>, depth: nat)
    requires value < U64
    ensures SkipValue(8 * field, Varint(value) + more, depth) == Some(more)
  {
    hide Varint, ReadVarint;
    VarintWidths(value);
    VarintRoundTrip(value, more, 10);
    assert 8 * field % 8 == 0;
  }

  lemma DataSkipped(field: nat, d: seq<Byte>, more: seq<Byte>, depth: nat)
    requires |d| <= MAX_FIELD_LENGTH
    ensures SkipValue(8 * field + 2, Varint(|d|) + (d + more), depth) == Some(more)
  {
    hide Varint, ReadDelimited;
    DelimitedRoundTrip(d, more);
    assert (8 * field + 2) % 8 == 2;
  }

  /** Stepping over a written record. */
  lemma ValueSkipped(r: Record, more: seq<Byte>, depth: nat)
    requires Writable(r)
    ensures var tag := if r.Number? then 8 * r.field else 8 * r.field + 2;
            && ReadTag(EncodeRecord(r) + more).Some? && ReadTag(EncodeRecord(r) + more).value.0 == tag
            && SkipValue(tag, ReadTag(EncodeRecord(r) + more).value.1, depth) == Some(more)
  {
    hide ReadTag, Varint, SkipValue;
    match r
    case Number(field, value) =>
      assert EncodeRecord(r) + more == Varint(8 * field) + (Varint(value) + more);
      SkipsTag(8 * field, Varint(value) + more);
      NumberSkipped(field, value, more, depth);
    case Data(field, d) =>
      assert EncodeRecord(r) + more == Varint(8 * field + 2) + (Varint(|d|) + (d + more));
      SkipsTag(8 * field + 2, Varint(|d|) + (d + more));
      DataSkipped(field, d, more, depth);
  }

  /** A field that a parser is handed from outside, however large its number is. */
  lemma ParseOne<M>(r: Record, acc: M, apply: Apply<M>, depth: nat)
    requires Writable(r)
    ensures ParseFields(EncodeRecord(r), acc, apply, depth) == apply(acc, r)
  {
    hide EncodeRecord, ParseFields;
    assert EncodeRecords([r]) == EncodeRecord(r) + EncodeRecords([]) == EncodeRecord(r);
    ParseEncoded([r], acc, apply, depth);
    FoldField(r, acc, apply);
  }

  // ---------------------------------------------------------------- messages

  /** What one record does to a message under construction; None rejects the whole message. */
  type Apply<!M> = (M, Record) -> Option<M>

  /** The record loop of a generated parser, merging into `acc`. */
  function ParseFields<M>(b: seq<Byte>, acc: M, apply: Apply<M>, depth: nat): (r: Option<M>)
    decreases |b|
  {
    if b == [] then Some(acc)
    else
      match ReadRecord(b, depth)
      case None => None
      case Some((rec, rest)) =>
        match apply(acc, rec)
        case None => None
        case Some(acc') => ParseFields(rest, acc', apply, depth)
  }

  function Fold<M>(rs: seq<Record>, acc: M, apply: Apply<M>): (r: Option<M>)
  {
    if rs == [] then Some(acc)
    else
      match apply(acc, rs[0])
      case None => None
      case Some(acc') => Fold(rs[1..], acc', apply)
  }

  /** Parsing written records applies exactly those records, in order. */
  lemma {:induction false} ParseEncoded<M>(rs: seq<Record>, acc: M, apply: Apply<M>, depth: nat)
    requires AllWritable(rs)
    ensures ParseFields(EncodeRecords(rs), acc, apply, depth) == Fold(rs, acc, apply)
  {
    if rs != [] {
      RecordRoundTrip(rs[0], EncodeRecords(rs[1..]), depth);
      match apply(acc, rs[0])
      case None =>
      case Some(acc') => ParseEncoded(rs[1..], acc', apply, depth);
    }
  }

  /** Parsing two inputs end to end is parsing the second into what the first produced. */
  lemma {:induction false} ParseAppend<M>(a: seq<Byte>, b: seq<Byte>, acc: M, apply: Apply<M>, depth: nat)
    requires ParseFields(a, acc, apply, depth).Some?
    ensures ParseFields(a + b, acc, apply, depth)
         == ParseFields(b, ParseFields(a, acc, apply, depth).value, apply, depth)
    decreases |a|
  {
    if a == [] {
      assert a + b == b;
    } else {
      ReadRecordAppend(a, b, depth);
      var (rec, rest) := ReadRecord(a, depth).value;
      ParseAppend(rest, b, apply(acc, rec).value, apply, depth);
    }
  }

  lemma {:induction false} FoldAppend<M>(a: seq<Record>, b: seq<Record>, acc: M, apply: Apply<M>)
    ensures Fold(a + b, acc, apply)
         == (match Fold(a, acc, apply) case None => None case Some(m) => Fold(b, m, apply))
  {
    if a == [] {
      assert a + b == b;
    } else {
      assert (a + b)[1..] == a[1..] + b;
      match apply(acc, a[0])
      case None =>
      case Some(m) => FoldAppend(a[1..], b, m, apply);
    }
  }

  lemma EncodedSize(a: seq<Record>, b: seq<Record>)
    requires forall i :: 0 <= i < |a| ==> !a[i].Skipped?
    requires forall i :: 0 <= i < |b| ==> !b[i].Skipped?
    ensures |EncodeRecords(a + b)| == |EncodeRecords(a)| + |EncodeRecords(b)|
  {
    EncodeRecordsAppend(a, b);
  }

  lemma OversizedRead(field: nat, length: nat, tail: seq<Byte>, depth: nat)
    requires 1 <= field < 0x2000_0000 && MAX_FIELD_LENGTH < length <= INT_MAX
    ensures ReadRecord(Varint(8 * field + 2) + (Varint(length) + tail), depth) == None
  {
    TagRoundTrip(field, 2, Varint(length) + tail);
    VarintWidths(length);
    VarintRoundTrip(length, tail, 5);
  }

  /** A bytes field longer than the field limit makes the message unreadable, wherever it stands. */
  lemma OversizedRejected<M>(before: seq<Record>, field: nat, d: seq<Byte>, after: seq<Record>,
                             acc: M, apply: Apply<M>, depth: nat)
    requires AllWritable(before) && Fold(before, acc, apply).Some?
    requires 1 <= field < 0x2000_0000 && MAX_FIELD_LENGTH < |d| <= INT_MAX
    requires forall i :: 0 <= i < |after| ==> !after[i].Skipped?
    ensures ParseFields(EncodeRecords(before + ([Data(field, d)] + after)), acc, apply, depth) == None
  {
    var rest := [Data(field, d)] + after;
    EncodeRecordsAppend(before, rest);
    ParseEncoded(before, acc, apply, depth);
    ParseAppend(EncodeRecords(before), EncodeRecords(rest), acc, apply, depth);
    OversizedFront(field, d, after, depth);
  }

  lemma OversizedFront(field: nat, d: seq<Byte>, after: seq<Record>, depth: nat)
    requires 1 <= field < 0x2000_0000 && MAX_FIELD_LENGTH < |d| <= INT_MAX
    requires forall i :: 0 <= i < |after| ==> !after[i].Skipped?
    ensures EncodeRecords([Data(field, d)] + after) != []
    ensures ReadRecord(EncodeRecords([Data(field, d)] + after), depth) == None
  {
    EncodedFront(field, d, after);
    OversizedRead(field, |d|, d + EncodeRecords(after), depth);
  }

  lemma EncodedFront(field: nat, d: seq<Byte>, after: seq<Record>)
    requires forall i :: 0 <= i < |after| ==> !after[i].Skipped?
    ensures EncodeRecords([Data(field, d)] + after)
         == Varint(8 * field + 2) + (Varint(|d|) + (d + EncodeRecords(after)))
  {
    assert ([Data(field, d)] + after)[1..] == after;
    SeqAssoc(Varint(8 * field + 2), Varint(|d|), d, EncodeRecords(after));
  }

  lemma SeqAssoc(a: seq<Byte>, b: seq<Byte>, c: seq<Byte>, d: seq<Byte>)
    ensures (a + (b + c)) + d == a + (b + (c + d))
  {
  }

  // ------------------------------------------------- fields with implicit presence

  /** A proto3 scalar is written only when it is not zero. */
  function NumberField(field: nat, value: nat): (rs: seq<Record>)
  {
    if value == 0 then [] else [Number(field, value)]
  }

  /** A proto3 bytes field is written only when it is not empty. */
  function DataField(field: nat, d: seq<Byte>): (rs: seq<Record>)
  {
    if d == [] then [] else [Data(field, d)]
  }

  function NumberFieldSize(value: nat): (n: nat)
  {
    if value == 0 then 0 else 1 + VarintSize(value)
  }

  function DataFieldSize(length: nat): (n: nat)
  {
    if length == 0 then 0 else 1 + VarintSize(length) + length
  }

  /** The declared sizes are the written sizes; field numbers below 16 take one tag byte. */
  lemma FieldSizes(field: nat, value: nat, d: seq<Byte>)
    requires 1 <= field < 16
    ensures |EncodeRecords(NumberField(field, value))| == NumberFieldSize(value)
    ensures |EncodeRecords(DataField(field, d))| == DataFieldSize(|d|)
  {
    VarintLength(value);
    VarintLength(|d|);
    if value != 0 {
      assert EncodeRecords(NumberField(field, value)) == EncodeRecord(Number(field, value)) + EncodeRecords([]);
    }
    if d != [] {
      assert EncodeRecords(DataField(field, d)) == EncodeRecord(Data(field, d)) + EncodeRecords([]);
    }
  }

  /** The bytes of a scalar field: a tag byte and a varint. */
  lemma NumberBytes(field: nat, value: nat)
    requires 1 <= field < 16
    ensures EncodeRecords(NumberField(field, value)) == (if value == 0 then [] else [8 * field] + Varint(value))
  {
    if value != 0 {
      assert EncodeRecords(NumberField(field, value)) == EncodeRecord(Number(field, value)) + EncodeRecords([]);
      assert (Varint(8 * field) + Varint(value)) + [] == Varint(8 * field) + Varint(value);
    }
  }

  lemma NumberRecordBytes(field: nat, value: nat)
    requires 1 <= field < 16
    ensures EncodeRecord(Number(field, value)) == [8 * field] + Varint(value)
  {
  }

  /** The bytes of a length-delimited field: a tag byte, the length, the bytes. */
  lemma DataBytes(field: nat, d: seq<Byte>)
    requires 1 <= field < 16
    ensures EncodeRecords(DataField(field, d)) == (if d == [] then [] else [8 * field + 2] + (Varint(|d|) + d))
  {
    if d != [] {
      assert EncodeRecords(DataField(field, d)) == EncodeRecord(Data(field, d)) + EncodeRecords([]);
      var b := Varint(8 * field + 2) + (Varint(|d|) + d);
      assert b + [] == b;
    }
  }

  /** A scalar field that is written only when it is not zero, behind this tag byte. */
  function ScalarBytes(tag: Byte, value: nat): (b: seq<Byte>)
  {
    if value == 0 then [] else [tag] + Varint(value)
  }

  function TextBytes(tag: Byte, d: seq<Byte>): (b: seq<Byte>)
  {
    if d == [] then [] else [tag] + (Varint(|d|) + d)
  }

  lemma FoldField<M>(r: Record, acc: M, apply: Apply<M>)
    ensures Fold([r], acc, apply) == apply(acc, r)
  {
    match apply(acc, r)
    case None =>
    case Some(m) => assert Fold([r][1..], m, apply) == Some(m);
  }

  /** An `int32` is sign-extended to 64 bits before it is written. */
  function SignExtend(v: Int32): (n: Uint64)
  {
    if v < 0 then v + U64 else v
  }

  /** Truncation of a 64-bit varint to `int32`. */
  function ToInt32(n: nat): (v: Int32)
  {
    var w := n % U32;
    if w > INT_MAX then w - U32 else w
  }

  /** Truncation keeps a number modulo 2^32. */
  lemma Int32Congruent(n: nat)
    ensures (n - ToInt32(n)) % U32 == 0
  {
    var w := n % U32;
    assert n == U32 * (n / U32) + w;
    if w > INT_MAX {
      assert n - (w - U32) == U32 * (n / U32 + 1);
    } else {
      assert n - w == U32 * (n / U32);
    }
  }

  lemma Int32RoundTrip(v: Int32)
    ensures ToInt32(SignExtend(v)) == v
    ensures v < 0 ==> |Varint(SignExtend(v))| == 10
  {
    if v < 0 {
      var n: int := v;
      assert (n + U64) % U32 == n + U32 by {
        assert n + U64 == (n + U32) + U32 * (U32 - 1);
      }
      VarintWidths(n + U64);
      VarintAtLeast(n + U64, 9);
    }
  }

  lemma {:induction false} VarintAtLeast(n: nat, k: nat)
    requires n >= Pow128(k)
    ensures |Varint(n)| > k
  {
    if k > 0 {
      assert Pow128(k) == 128 * Pow128(k - 1);
      VarintAtLeast(n / 128, k - 1);
    }
  }
}

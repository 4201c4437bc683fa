/** Byte strings, fixed-width integers and the big-endian length fields of the wire format. */
module Bytes {

  type Byte = x: int | 0 <= x < 256

  datatype Option<+T> = None | Some(value: T)

  const U16: int := 0x1_0000
  const U32: int := 0x1_0000_0000
  const U64: int := 0x1_0000_0000_0000_0000
  const INT_MAX: int := 0x7FFF_FFFF

  type Uint16 = x: int | 0 <= x < U16
  type Uint32 = x: int | 0 <= x < U32
  type Uint64 = x: int | 0 <= x < U64
  type Int32 = x: int | -0x8000_0000 <= x <= INT_MAX

  /** `htonl` followed by a four-byte copy. */
  function PutU32(n: int): (b: seq<Byte>)
    requires 0 <= n < U32
    ensures |b| == 4 && GetU32(b) == n
  {
    var high, low := n / 0x1_0000, n % 0x1_0000;
    [high / 256, high % 256, low / 256, low % 256]
  }

  /** A four-byte copy followed by `ntohl`; only the first four bytes are read. */
  function GetU32(b: seq<Byte>): (n: int)
    requires |b| >= 4
    ensures 0 <= n < U32
  {
    var b0, b1, b2, b3: int := b[0], b[1], b[2], b[3];
    0x1_0000 * (256 * b0 + b1) + (256 * b2 + b3)
  }

  /** Big-endian: the first byte weighs most. */
  lemma BigEndian(b: seq<Byte>)
    requires |b| >= 4
    ensures var b0, b1, b2, b3: int := b[0], b[1], b[2], b[3];
            GetU32(b) == 16777216 * b0 + 65536 * b1 + 256 * b2 + b3
  {
  }

  /** The bytes of a source text constant. */
  function Ascii(s: string): (b: seq<Byte>)
    ensures |b| == |s|
  {
    seq(|s|, i requires 0 <= i < |s| => s[i] as int % 256)
  }

  /** Concatenation of a list of byte strings. */
  function Concat(parts: seq<seq<Byte>>): (b: seq<Byte>)
  {
    if parts == [] then [] else parts[0] + Concat(parts[1..])
  }

  lemma {:induction false} ConcatAppend(a: seq<seq<Byte>>, b: seq<seq<Byte>>)
    ensures Concat(a + b) == Concat(a) + Concat(b)
  {
    if a == [] {
      assert a + b == b;
    } else {
      assert (a + b)[1..] == a[1..] + b;
      ConcatAppend(a[1..], b);
    }
  }

  lemma ConcatSnoc(a: seq<seq<Byte>>, x: seq<Byte>)
    ensures Concat(a + [x]) == Concat(a) + x
  {
    ConcatAppend(a, [x]);
    assert Concat([x]) == x + Concat([]);
  }
}

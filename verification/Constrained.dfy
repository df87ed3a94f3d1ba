/**
  Range-limited numbers (muxado/src/constrained.rs). A bit mask by 2^k - 1 is
  written as a remainder by 2^k: the two agree on every unsigned value.
*/
module Constrained {
  const U32_LIMIT: nat := 0x1_0000_0000
  const STREAMID_MAX: nat := 0x7FFF_FFFF
  const WNDINC_MAX: nat := 0x7FFF_FFFF
  const LENGTH_MAX: nat := 0x00FF_FFFF

  type byte = b: int | 0 <= b < 256
  type U32 = n: int | 0 <= n < U32_LIMIT
  type StreamID = n: int | 0 <= n <= STREAMID_MAX
  type WndIncrement = n: int | 0 <= n <= WNDINC_MAX
  type Length = n: int | 0 <= n <= LENGTH_MAX

  function Min(a: int, b: int): int {
    if a <= b then a else b
  }

  /** `clamp`: values above the range become its upper end. */
  function Clamp(value: nat, max: nat): (r: nat)
    ensures r <= max
    ensures r == value <==> value <= max
    ensures value > max ==> r == max
  {
    Min(value, max)
  }

  /** `mask` for the two 31-bit types. */
  function Mask31(value: U32): (r: nat)
    ensures r <= STREAMID_MAX
    ensures r == value <==> value <= STREAMID_MAX
    ensures r == value % 0x8000_0000
  {
    if value > STREAMID_MAX then value - 0x8000_0000 else value
  }

  /** The `as u32` conversion applied to buffer lengths. */
  function AsU32(n: nat): (r: U32)
    ensures n < U32_LIMIT ==> r == n
  {
    n % U32_LIMIT
  }

  // ---- big-endian 32-bit integers ----

  function PutU32(n: U32): (bs: seq<byte>)
    ensures |bs| == 4
  {
    [n / 0x100_0000, n / 0x1_0000 % 0x100, n / 0x100 % 0x100, n % 0x100]
  }

  function GetU32(bs: seq<byte>): (n: U32)
    requires |bs| >= 4
  {
    (((bs[0] as int) * 0x100 + bs[1]) * 0x100 + bs[2]) * 0x100 + bs[3]
  }

  /** The number that four bytes spell, the first byte the most significant one. */
  ghost function Number(bs: seq<byte>): int
    requires |bs| >= 4
  {
    var a: int, b: int, c: int, d: int := bs[0], bs[1], bs[2], bs[3];
    0x100_0000 * a + 0x1_0000 * b + 0x100 * c + d
  }

  /** Both directions are big-endian. */
  lemma BigEndian(n: U32, bs: seq<byte>)
    ensures Number(PutU32(n)) == n
    ensures |bs| >= 4 ==> GetU32(bs) == Number(bs)
  {
    var a, b, c := n / 0x100, n / 0x1_0000, n / 0x100_0000;
    assert n == a * 0x100 + n % 0x100;
    assert a == b * 0x100 + a % 0x100;
    assert b == c * 0x100 + b % 0x100;
  }

  lemma PutThenGet(n: U32, tail: seq<byte>)
    ensures GetU32(PutU32(n) + tail) == n
  {
    var a, b, c := n / 0x100, n / 0x1_0000, n / 0x100_0000;
    assert n == a * 0x100 + n % 0x100;
    assert a == b * 0x100 + a % 0x100;
    assert b == c * 0x100 + b % 0x100;
    var bs := PutU32(n) + tail;
    assert bs[0] == c && bs[1] == b % 0x100 && bs[2] == a % 0x100 && bs[3] == n % 0x100;
  }

  lemma GetThenPut(bs: seq<byte>)
    requires |bs| == 4
    ensures PutU32(GetU32(bs)) == bs
  {
    var n := GetU32(bs);
    var a := ((bs[0] as int) * 0x100 + bs[1]) * 0x100 + bs[2];
    var b := (bs[0] as int) * 0x100 + bs[1];
    assert n == a * 0x100 + bs[3] && n / 0x100 == a;
    assert a == b * 0x100 + bs[2] && n / 0x1_0000 == b;
    assert n / 0x100_0000 == bs[0];
    assert PutU32(n)[1] == bs[1];
    assert PutU32(n)[2] == bs[2];
    assert PutU32(n)[3] == bs[3];
  }
}

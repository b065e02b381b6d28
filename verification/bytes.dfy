/** Little-endian bytes. */
module Bytes {

  type Byte = x: int | 0 <= x < 256

  const LIMIT: nat := 0x1_0000_0000

  function U16(n: nat): (r: seq<Byte>)
    requires n < 0x1_0000
    ensures |r| == 2
  {
    [n % 256, n / 256]
  }

  function U32(n: nat): (r: seq<Byte>)
    requires n < LIMIT
    ensures |r| == 4
  {
    U16(n % 0x1_0000) + U16(n / 0x1_0000)
  }

  function Le16(b: seq<Byte>, at: nat): (r: nat)
    requires at + 2 <= |b|
    ensures r < 0x1_0000
  {
    var low: int, high: int := b[at], b[at + 1];
    low + 256 * high
  }

  function Le32(b: seq<Byte>, at: nat): (r: nat)
    requires at + 4 <= |b|
    ensures r < LIMIT
  {
    Le16(b, at) + 0x1_0000 * Le16(b, at + 2)
  }

  /** Least significant byte first. */
  lemma ByteOrder(n: nat)
    ensures n < 0x1_0000 ==> var r := U16(n); r[0] as int + 0x100 * r[1] as int == n
    ensures n < LIMIT ==>
      var r := U32(n); r[0] as int + 0x100 * r[1] as int + 0x1_0000 * r[2] as int + 0x100_0000 * r[3] as int == n
  {
  }

  lemma U16Read(n: nat, b: seq<Byte>, at: nat)
    requires n < 0x1_0000 && at + 2 <= |b| && b[at..at + 2] == U16(n)
    ensures Le16(b, at) == n
  {
    assert b[at] == b[at..at + 2][0] && b[at + 1] == b[at..at + 2][1];
  }

  lemma U32Read(n: nat, b: seq<Byte>, at: nat)
    requires n < LIMIT && at + 4 <= |b| && b[at..at + 4] == U32(n)
    ensures Le32(b, at) == n
  {
    assert b[at..at + 2] == b[at..at + 4][..2] == U16(n % 0x1_0000);
    assert b[at + 2..at + 4] == b[at..at + 4][2..] == U16(n / 0x1_0000);
    U16Read(n % 0x1_0000, b, at);
    U16Read(n / 0x1_0000, b, at + 2);
  }
}

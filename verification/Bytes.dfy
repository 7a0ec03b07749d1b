/** Network byte order, as htonl and ntohl with a 4-byte copy give it. */
module Bytes {
  newtype byte = x: int | 0 <= x < 0x100

  const U32_LIMIT: nat := 0x1_0000_0000

  datatype Option<+T> = None | Some(value: T)

  function BigEndian32(n: nat): (b: seq<byte>)
    requires n < U32_LIMIT
    ensures |b| == 4
  {
    [(n / 0x100_0000) as byte, (n / 0x1_0000 % 0x100) as byte, (n / 0x100 % 0x100) as byte, (n % 0x100) as byte]
  }

  function FromBigEndian32(b: seq<byte>): (n: nat)
    requires |b| == 4
    ensures n < U32_LIMIT
  {
    b[0] as nat * 0x100_0000 + b[1] as nat * 0x1_0000 + b[2] as nat * 0x100 + b[3] as nat
  }

  lemma BigEndianRoundTrip(n: nat)
    requires n < U32_LIMIT
    ensures FromBigEndian32(BigEndian32(n)) == n
  {
    var b1 := n / 0x100;
    var b2 := n / 0x1_0000;
    var b3 := n / 0x100_0000;
    assert b1 == 0x100 * b2 + b1 % 0x100;
    assert b2 == 0x100 * b3 + b2 % 0x100;
    assert n == 0x100 * b1 + n % 0x100;
  }

  lemma BigEndianIsOnto(b: seq<byte>)
    requires |b| == 4
    ensures BigEndian32(FromBigEndian32(b)) == b
  {
    var n := FromBigEndian32(b);
    var n2 := b[0] as nat * 0x100 + b[1] as nat;
    var n1 := n2 * 0x100 + b[2] as nat;
    assert n == n1 * 0x100 + b[3] as nat;
    assert n / 0x100 == n1 && n % 0x100 == b[3] as nat;
    assert n / 0x1_0000 == n2 && n1 % 0x100 == b[2] as nat;
    assert n / 0x100_0000 == b[0] as nat && n2 % 0x100 == b[1] as nat;
  }
}

/**
 SHA-1 the way FIPS 180-1 defines it: a padded message, an 80-word schedule per
 block, five registers and one loop of 80 identical steps.  This is the simple
 form that the streaming engine in Sha1Engine is proved to refine.
 */
module Sha1Spec {
  type octet = bv8
  type word = bv32

  const TWO32: nat := 0x1_0000_0000
  const TWO64: nat := 0x1_0000_0000_0000_0000

  datatype Regs = Regs(a: word, b: word, c: word, d: word, e: word)

  const INITIAL := Regs(0x67452301, 0xEFCDAB89, 0x98BADCFE, 0x10325476, 0xC3D2E1F0)

  /** S^n(X), the circular left shift of section 3 of FIPS 180-1. */
  function Rol(x: word, n: nat): word
    requires 0 < n < 32
  {
    (x << n) | (x >> (32 - n))
  }

  /** The four words of section 3, read most significant octet first. */
  function BigEndian(b0: octet, b1: octet, b2: octet, b3: octet): word {
    ((b0 as word) << 24) | ((b1 as word) << 16) | ((b2 as word) << 8) | (b3 as word)
  }

  /** f(t; B, C, D) of section 5. */
  function F(t: nat, b: word, c: word, d: word): word {
    if t < 20 then (b & c) | (!b & d)
    else if 40 <= t < 60 then (b & c) | (b & d) | (c & d)
    else b ^ c ^ d
  }

  /** K(t) of section 6. */
  function K(t: nat): word {
    if t < 20 then 0x5A827999
    else if t < 40 then 0x6ED9EBA1
    else if t < 60 then 0x8F1BBCDC
    else 0xCA62C1D6
  }

  function Word(block: seq<octet>, t: nat): word
    requires |block| == 64 && t < 16
  {
    BigEndian(block[4 * t], block[4 * t + 1], block[4 * t + 2], block[4 * t + 3])
  }

  /** S^1 of the four earlier words that a later word is made of. */
  function Blend(w3: word, w8: word, w14: word, w16: word): word {
    Rol(w3 ^ w8 ^ w14 ^ w16, 1)
  }

  /** W(t), steps a and b of section 7, from the words W(0) .. W(t-1) before it. */
  function Entry(ws: seq<word>, block: seq<octet>): word
    requires |block| == 64
  {
    var t := |ws|;
    if t < 16 then Word(block, t)
    else Blend(ws[t - 3], ws[t - 8], ws[t - 14], ws[t - 16])
  }

  /** The first n words of the schedule of a block. */
  function Schedule(block: seq<octet>, n: nat): (ws: seq<word>)
    requires |block| == 64
    ensures |ws| == n
    ensures forall t :: 0 <= t < n ==> ws[t] == Entry(ws[..t], block)
  {
    if n == 0 then []
    else
      var ws := Schedule(block, n - 1);
      var r := ws + [Entry(ws, block)];
      assert forall t :: 0 <= t < n ==> r[..t] == ws[..t];
      r
  }

  /** TEMP = S^5(A) + f(t; B, C, D) + E + W(t) + K(t) */
  function Temp(a5: word, f: word, e: word, w: word, k: word): word {
    a5 + f + e + w + k
  }

  /** One turn of step d of section 7. */
  function Step(r: Regs, t: nat, w: word): Regs {
    Regs(Temp(Rol(r.a, 5), F(t, r.b, r.c, r.d), r.e, w, K(t)), r.a, Rol(r.b, 30), r.c, r.d)
  }

  function Rounds(h: Regs, ws: seq<word>, t: nat): Regs
    requires t <= |ws|
  {
    if t == 0 then h else Step(Rounds(h, ws, t - 1), t - 1, ws[t - 1])
  }

  function Sum(x: word, y: word): word {
    x + y
  }

  /** H(i) = H(i) + A .. E, step e of section 7. */
  function Plus(h: Regs, r: Regs): Regs {
    Regs(Sum(h.a, r.a), Sum(h.b, r.b), Sum(h.c, r.c), Sum(h.d, r.d), Sum(h.e, r.e))
  }

  /** Steps a to e of section 7 on one 64-octet block. */
  function Compress(h: Regs, block: seq<octet>): Regs
    requires |block| == 64
  {
    Plus(h, Rounds(h, Schedule(block, 80), 80))
  }

  /** The chaining value after the first k blocks of a message. */
  function Absorb(m: seq<octet>, k: nat): Regs
    requires 64 * k <= |m|
  {
    if k == 0 then INITIAL
    else Compress(Absorb(m, k - 1), m[64 * (k - 1)..64 * k])
  }

  function OctetOf(n: nat): octet {
    (n % 256) as octet
  }

  function CountWord(n: nat): (o: seq<octet>)
    ensures |o| == 4
  {
    [OctetOf(n / 0x100_0000), OctetOf(n / 0x1_0000), OctetOf(n / 0x100), OctetOf(n)]
  }

  /** The 2-word representation of a length in bits, as section 4 asks for it. */
  function LengthOctets(n: nat): (o: seq<octet>)
    ensures |o| == 8
  {
    CountWord(n / TWO32) + CountWord(n % TWO32)
  }

  /** How many zero octets section 4 puts between the marker and the length. */
  function ZeroCount(n: nat): nat {
    (55 - n) % 64
  }

  function Zeros(k: nat): seq<octet> {
    seq(k, _ => 0 as octet)
  }

  /** Section 4: a one bit, zeros, and the length in bits as a 64-bit number. */
  function Pad(m: seq<octet>): (p: seq<octet>)
    ensures m <= p && |p| == |m| + 9 + ZeroCount(|m|)
  {
    m + [0x80] + Zeros(ZeroCount(|m|)) + LengthOctets(8 * |m| % TWO64)
  }

  /** The padded message is a whole number of blocks, so the digest covers all of it. */
  lemma PadFillsBlocks(m: seq<octet>)
    ensures |Pad(m)| % 64 == 0
  {
    assert (|m| + 9 + ZeroCount(|m|)) % 64 == 0;
  }

  function WordOctets(w: word): (o: seq<octet>)
    ensures |o| == 4
  {
    [ ((w >> 24) & 0xFF) as octet, ((w >> 16) & 0xFF) as octet,
      ((w >> 8) & 0xFF) as octet, (w & 0xFF) as octet ]
  }

  function Register(h: Regs, i: nat): word
    requires i < 5
  {
    if i == 0 then h.a else if i == 1 then h.b else if i == 2 then h.c else if i == 3 then h.d else h.e
  }

  /** The five chaining words, one after the other. */
  function RegisterOctets(h: Regs): (d: seq<octet>)
    ensures |d| == 20
  {
    seq(20, k requires 0 <= k < 20 => WordOctets(Register(h, k / 4))[k % 4])
  }

  /** The message digest of a message. */
  function Sha1(m: seq<octet>): (d: seq<octet>)
    ensures |d| == 20
  {
    RegisterOctets(Absorb(Pad(m), |Pad(m)| / 64))
  }
}

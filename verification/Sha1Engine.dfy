/**
 The streaming engine of whip/SHA1.cpp: a 16-word circular schedule that is
 overwritten in place, rounds that rotate the names of their registers instead of
 their values, a 64-byte buffer, and a bit count split over two 32-bit words.
 */
module Sha1Engine {
  import opened Sha1Spec

  // ----- word-level forms -----

  /** A word as memcpy leaves it in the workspace on a little-endian machine. */
  function LittleEndian(b0: octet, b1: octet, b2: octet, b3: octet): word {
    (b0 as word) | ((b1 as word) << 8) | ((b2 as word) << 16) | ((b3 as word) << 24)
  }

  /** SHABLK0: the byte swap, by two rotations and two masks. */
  function Swap(x: word): word {
    (((x << 24) | (x >> 8)) & 0xFF00FF00) | (((x << 8) | (x >> 24)) & 0x00FF00FF)
  }

  lemma SwapWords(b0: word, b1: word, b2: word, b3: word)
    requires b0 <= 0xFF && b1 <= 0xFF && b2 <= 0xFF && b3 <= 0xFF
    ensures Swap(b0 | (b1 << 8) | (b2 << 16) | (b3 << 24)) == (b0 << 24) | (b1 << 16) | (b2 << 8) | b3
  {
  }

  lemma SwapReadsBigEndian(b0: octet, b1: octet, b2: octet, b3: octet)
    ensures Swap(LittleEndian(b0, b1, b2, b3)) == BigEndian(b0, b1, b2, b3)
  {
    SwapWords(b0 as word, b1 as word, b2 as word, b3 as word);
  }

  /** (w&(x^y))^y is the choice function of section 5 of FIPS 180-1. */
  lemma ChoiceForms(b: word, c: word, d: word)
    ensures (b & (c ^ d)) ^ d == (b & c) | (!b & d)
  {
  }

  /** ((w|x)&y)|(w&x) is the majority function of section 5 of FIPS 180-1. */
  lemma MajorityForms(b: word, c: word, d: word)
    ensures ((b | c) & d) | (b & c) == (b & c) | (b & d) | (c & d)
  {
  }

  /** The mixing function as the _R0 to _R4 macros write it, by round number. */
  function Mix(t: nat, b: word, c: word, d: word): word {
    if t < 20 then (b & (c ^ d)) ^ d
    else if 40 <= t < 60 then ((b | c) & d) | (b & c)
    else b ^ c ^ d
  }

  lemma EarlyMix(t: nat, b: word, c: word, d: word)
    requires t < 20
    ensures Mix(t, b, c, d) == F(t, b, c, d)
  {
    ChoiceForms(b, c, d);
  }

  lemma LateMix(t: nat, b: word, c: word, d: word)
    requires 20 <= t
    ensures Mix(t, b, c, d) == F(t, b, c, d)
  {
    MajorityForms(b, c, d);
  }

  /** z += f + w + K + ROL32(v, 5) */
  function Accumulate(z: word, f: word, s: word, k: word, v5: word): word {
    z + (f + s + k + v5)
  }

  lemma AccumulateIsTemp(z: word, f: word, s: word, k: word, v5: word)
    ensures Accumulate(z, f, s, k, v5) == Temp(v5, f, z, s, k)
  {
  }

  /** A macro call on (v,w,x,y,z) is one step, read with the names rotated by one. */
  lemma RoundIsStep(r: Regs, i: nat, s: word)
    ensures Regs(Accumulate(r.e, Mix(i, r.b, r.c, r.d), s, K(i), Rol(r.a, 5)), r.a, Rol(r.b, 30), r.c, r.d)
         == Step(r, i, s)
  {
    hide Mix, F, K, Rol, Accumulate, Temp;
    if i < 20 { EarlyMix(i, r.b, r.c, r.d); } else { LateMix(i, r.b, r.c, r.d); }
    AccumulateIsTemp(r.e, F(i, r.b, r.c, r.d), s, K(i), Rol(r.a, 5));
  }

  lemma RoundsStart(h: Regs, data: seq<octet>)
    requires |data| == 64
    ensures Window(RawWords(data), Schedule(data, 80), RawWords(data), 0)
    ensures Rounds(h, Schedule(data, 80), 0) == h
  {
  }

  lemma RoundsNext(h: Regs, ws: seq<word>, t: nat)
    requires t < |ws|
    ensures Rounds(h, ws, t + 1) == Step(Rounds(h, ws, t), t, ws[t])
  {
  }

  // ----- the circular schedule -----

  /**
   What the workspace holds before round i: the last (at most 16) schedule words,
   each at its index modulo 16, and the untouched raw words of the block after them.
   */
  ghost predicate Window(l: seq<word>, ws: seq<word>, raw: seq<word>, i: nat) {
    && |l| == |raw| == 16 && i <= |ws|
    && (forall t :: 0 <= t < i && i - 16 <= t ==> l[t % 16] == ws[t])
    && (forall t :: i <= t < 16 ==> l[t] == raw[t])
  }

  /** SHABLK0 and SHABLK: the word that round i stores and uses. */
  function ScheduleWord(l: seq<word>, i: nat): word
    requires |l| == 16
  {
    if i < 16 then Swap(l[i])
    else Blend(l[(i + 13) % 16], l[(i + 8) % 16], l[(i + 2) % 16], l[i % 16])
  }

  function RawWords(block: seq<octet>): seq<word>
    requires |block| == 64
  {
    seq(16, t requires 0 <= t < 16 =>
      LittleEndian(block[4 * t], block[4 * t + 1], block[4 * t + 2], block[4 * t + 3]))
  }

  lemma FirstWords(block: seq<octet>, i: nat)
    requires |block| == 64 && i < 16
    ensures Swap(RawWords(block)[i]) == Word(block, i)
  {
    SwapReadsBigEndian(block[4 * i], block[4 * i + 1], block[4 * i + 2], block[4 * i + 3]);
  }

  lemma WindowReaches(l: seq<word>, ws: seq<word>, raw: seq<word>, i: nat)
    requires Window(l, ws, raw, i) && 16 <= i
    ensures l[(i + 13) % 16] == ws[i - 3] && l[(i + 8) % 16] == ws[i - 8]
    ensures l[(i + 2) % 16] == ws[i - 14] && l[i % 16] == ws[i - 16]
  {
    assert (i + 13) % 16 == (i - 3) % 16 && (i + 8) % 16 == (i - 8) % 16;
    assert (i + 2) % 16 == (i - 14) % 16 && i % 16 == (i - 16) % 16;
  }

  lemma WindowSlides(l: seq<word>, ws: seq<word>, raw: seq<word>, i: nat)
    requires Window(l, ws, raw, i) && i < |ws|
    ensures Window(l[i % 16 := ws[i]], ws, raw, i + 1)
  {
    var l' := l[i % 16 := ws[i]];
    forall t | 0 <= t < i + 1 && i + 1 - 16 <= t
      ensures l'[t % 16] == ws[t]
    {
      if t < i {
        assert t % 16 != i % 16;
      }
    }
  }

  /** Section 8 of FIPS 180-1: sixteen words, overwritten in a circle, are enough. */
  lemma ScheduleStep(l: seq<word>, block: seq<octet>, i: nat)
    requires |block| == 64 && i < 80
    requires Window(l, Schedule(block, 80), RawWords(block), i)
    ensures ScheduleWord(l, i) == Schedule(block, 80)[i]
    ensures Window(l[i % 16 := ScheduleWord(l, i)], Schedule(block, 80), RawWords(block), i + 1)
  {
    hide Blend, Swap, Word, RawWords, Schedule;
    var ws := Schedule(block, 80);
    assert ws[i] == Entry(ws[..i], block);
    if i < 16 {
      FirstWords(block, i);
    } else {
      WindowReaches(l, ws, RawWords(block), i);
    }
    WindowSlides(l, ws, RawWords(block), i);
  }

  // ----- the split bit count -----

  /** The pair of 32-bit words stands for 8 times the bytes fed, modulo 2^64. */
  ghost predicate Counts(lo: nat, hi: nat, n: nat) {
    && lo < TWO32 && hi < TWO32
    && hi * TWO32 + lo == 8 * n % TWO64
  }

  /** m_count after Update has added len bytes: low word, carry, high word. */
  function AddLow(lo: nat, len: nat): nat {
    (lo + 8 * len % TWO32) % TWO32
  }

  function AddHigh(lo: nat, hi: nat, len: nat): nat {
    var carry := if AddLow(lo, len) < 8 * len % TWO32 then 1 else 0;
    ((hi + carry) % TWO32 + len / 0x2000_0000) % TWO32
  }

  lemma CountsFit(lo: nat, hi: nat, n: nat)
    requires Counts(lo, hi, n)
    ensures lo % TWO32 == lo && hi % TWO32 == hi
  {
  }

  lemma LowCarries(lo: nat, len: nat)
    requires lo < TWO32
    ensures lo + 8 * len % TWO32
         == (if AddLow(lo, len) < 8 * len % TWO32 then TWO32 else 0) + AddLow(lo, len)
  {
  }

  lemma HighWraps(lo: nat, hi: nat, len: nat)
    ensures exists q: nat :: hi + (if AddLow(lo, len) < 8 * len % TWO32 then 1 else 0) + len / 0x2000_0000
                          == q * TWO32 + AddHigh(lo, hi, len)
  {
    var carry := if AddLow(lo, len) < 8 * len % TWO32 then 1 else 0;
    var q := (hi + carry + len / 0x2000_0000) / TWO32;
    assert hi + carry + len / 0x2000_0000 == q * TWO32 + AddHigh(lo, hi, len);
  }

  lemma CountAdvances(lo: nat, hi: nat, n: nat, len: nat)
    requires Counts(lo, hi, n)
    ensures Counts(AddLow(lo, len), AddHigh(lo, hi, len), n + len)
  {
    LowCarries(lo, len);
    HighWraps(lo, hi, len);
    var carry := if AddLow(lo, len) < 8 * len % TWO32 then 1 else 0;
    var q: nat :| hi + carry + len / 0x2000_0000 == q * TWO32 + AddHigh(lo, hi, len);
    CountsFrom(lo, hi, n, len, carry, AddLow(lo, len), AddHigh(lo, hi, len), q);
  }

  lemma CountsFrom(lo: nat, hi: nat, n: nat, len: nat, carry: nat, lo': nat, hi': nat, q: nat)
    requires Counts(lo, hi, n) && lo' < TWO32 && hi' < TWO32
    requires lo + 8 * len % TWO32 == carry * TWO32 + lo'
    requires hi + carry + len / 0x2000_0000 == q * TWO32 + hi'
    ensures Counts(lo', hi', n + len)
  {
    var p, k, r := 8 * n / TWO64, len / 0x2000_0000, 8 * len % TWO32;
    assert 8 * n == p * TWO64 + hi * TWO32 + lo;
    BitsOf(len);
    CarriesAdd(8 * n, 8 * len, p, hi, lo, k, r, carry, lo', hi', q);
    RemainderIs(8 * n + 8 * len, p + q, hi' * TWO32 + lo');
  }

  lemma BitsOf(len: nat)
    ensures 8 * len == len / 0x2000_0000 * TWO32 + 8 * len % TWO32
  {
  }

  lemma CarriesAdd(x: nat, y: nat, p: nat, hi: nat, lo: nat, k: nat, r: nat, carry: nat, lo': nat, hi': nat, q: nat)
    requires x == p * TWO64 + hi * TWO32 + lo && y == k * TWO32 + r
    requires lo + r == carry * TWO32 + lo' && hi + carry + k == q * TWO32 + hi'
    ensures x + y == (p + q) * TWO64 + hi' * TWO32 + lo'
  {
  }

  lemma RemainderIs(x: nat, k: nat, r: nat)
    requires x == k * TWO64 + r && r < TWO64
    ensures x % TWO64 == r
  {
  }

  /** So (m_count[0] >> 3) & 0x3F is the fill of the buffer. */
  lemma CountGivesFill(lo: nat, hi: nat, n: nat, blocks: nat)
    requires Counts(lo, hi, n) && 64 * blocks <= n < 64 * blocks + 64
    ensures lo / 8 % 64 == n - 64 * blocks
  {
    var p := 8 * n / TWO64;
    assert 8 * n == p * TWO64 + hi * TWO32 + lo;
    assert lo == 8 * (n - p * 0x2000_0000_0000_0000 - hi * 0x2000_0000);
  }

  lemma NoWrap(start: nat, len: nat, k: nat)
    requires start <= 64 && 64 - start + len < TWO32 && start + 64 * k <= len
    ensures start + 64 * k + 63 < TWO32
  {
    assert 64 * k + 64 < TWO32 ==> k + 1 < 0x400_0000;
  }

  /**
   Every copy and block of Update, for a buffer that holds j bytes: the first copy, each turn
   of the loop with its 32-bit guard, and the tail; or the one copy when no block is filled.
   */
  ghost predicate CopiesFit(j: nat, len: nat)
    requires j < 64
  {
    if (j + len) % TWO32 > 63 then 64 - j <= len && forall k: nat :: TurnFits(64 - j + 64 * k, len)
    else j + len <= 64
  }

  /** At offset i of the data: the guard lets a block through that is all there, or the tail fits the buffer. */
  predicate TurnFits(i: nat, len: nat) {
    i <= len ==> if (i + 63) % TWO32 < len then i + 64 <= len else len - i <= 64
  }

  /** Update stays inside its buffer and its data if and only if buffered bytes plus length do not wrap. */
  lemma UpdateStaysInBuffer(j: nat, len: nat)
    requires j < 64 && len < TWO32
    ensures CopiesFit(j, len) <==> j + len < TWO32
  {
    if j + len < TWO32 && j + len > 63 {
      forall k: nat
        ensures TurnFits(64 - j + 64 * k, len)
      {
        if 64 - j + 64 * k <= len {
          NoWrap(64 - j, len, k);
        }
      }
    }
  }

  lemma SliceOfRight(s: seq<octet>, t: seq<octet>, i: nat)
    requires i + 64 <= |t|
    ensures (s + t)[|s| + i..|s| + i + 64] == t[i..i + 64]
  {
  }

  /** The padding loop stops at the smallest number of zeros that leaves 56 bytes buffered. */
  lemma PaddingProgress(n: nat, zeros: nat, blocks: nat)
    requires zeros <= ZeroCount(n) && 64 * blocks <= n + 1 + zeros < 64 * blocks + 64
    ensures n + 1 + zeros == 64 * blocks + 56 <==> zeros == ZeroCount(n)
  {
    assert (55 - n) % 64 == ZeroCount(n);
  }

  // ----- the octets of the count and of the digest -----

  /** (c >> ((3 - k) * 8)) & 255 for a 32-bit count c. */
  function CountOctet(c: nat, k: nat): octet
    requires k < 4
  {
    OctetOf(c / (if k == 0 then 0x100_0000 else if k == 1 then 0x1_0000 else if k == 2 then 0x100 else 1))
  }

  lemma CountOctets(lo: nat, hi: nat, n: nat, k: nat)
    requires Counts(lo, hi, n) && k < 8
    ensures LengthOctets(8 * n % TWO64)[k] == CountOctet(if k >= 4 then lo else hi, k % 4)
  {
    hide OctetOf;
    var l := 8 * n % TWO64;
    assert l / TWO32 == hi && l % TWO32 == lo;
    assert k < 4 ==> LengthOctets(l)[k] == CountWord(hi)[k % 4];
    assert k >= 4 ==> LengthOctets(l)[k] == CountWord(lo)[k % 4];
  }

  /** (w >> ((3 - k) * 8)) & 0xFF for a state word w. */
  function WordOctet(w: word, k: nat): octet
    requires k < 4
  {
    var s := if k == 0 then w >> 24 else if k == 1 then w >> 16 else if k == 2 then w >> 8 else w;
    (s & 0xFF) as octet
  }

  lemma WordOctetAt(w: word, k: nat)
    requires k < 4
    ensures WordOctet(w, k) == WordOctets(w)[k]
  {
  }

  lemma {:induction false} AbsorbPrefix(m: seq<octet>, x: seq<octet>, k: nat)
    requires 64 * k <= |m|
    ensures Absorb(m + x, k) == Absorb(m, k)
  {
    hide Compress;
    if k > 0 {
      AbsorbPrefix(m, x, k - 1);
      assert (m + x)[64 * (k - 1)..64 * k] == m[64 * (k - 1)..64 * k];
    }
  }

  // ----- the object -----

  class CSHA1 {
    const state: array<word>     // m_state
    const buffer: array<octet>   // m_buffer
    const block: array<word>     // m_block->l
    const digest: array<octet>   // m_digest
    var count0: nat              // m_count[0]
    var count1: nat              // m_count[1]
    ghost var fed: seq<octet>    // every byte given to Update since Reset
    ghost var blocks: nat        // how many complete blocks of it are hashed

    ghost predicate Shape()
    {
      && state.Length == 5 && buffer.Length == 64 && block.Length == 16 && digest.Length == 20
      && state != block && buffer != digest
    }

    ghost function Registers(): Regs
      requires Shape()
      reads state
    {
      Regs(state[0], state[1], state[2], state[3], state[4])
    }

    /** The state is the fold over the complete blocks, the buffer holds the tail. */
    ghost predicate Valid()
      reads this, state, buffer
    {
      && Shape()
      && Counts(count0, count1, |fed|)
      && 64 * blocks <= |fed| < 64 * blocks + 64
      && Registers() == Absorb(fed, blocks)
      && buffer[..|fed| - 64 * blocks] == fed[64 * blocks..]
    }

    constructor ()
      ensures Valid() && fed == []
      ensures fresh(state) && fresh(buffer) && fresh(block) && fresh(digest)
    {
      state := new word[5];
      buffer := new octet[64];
      block := new word[16];
      digest := new octet[20];
      count0, count1, fed, blocks := 0, 0, [], 0;
      new;
      Reset();
    }

    method Reset()
      requires Shape()
      modifies this, state
      ensures Valid() && fed == []
    {
      state[0] := 0x67452301;
      state[1] := 0xEFCDAB89;
      state[2] := 0x98BADCFE;
      state[3] := 0x10325476;
      state[4] := 0xC3D2E1F0;
      count0, count1 := 0, 0;
      fed, blocks := [], 0;
    }

    /** One macro call _Rn(v,w,x,y,z,i): w and z change, v, x and y do not. */
    method Round(v: word, w: word, x: word, y: word, z: word, i: nat, ghost data: seq<octet>)
      returns (w': word, z': word)
      requires Shape() && |data| == 64 && i < 80
      requires Window(block[..], Schedule(data, 80), RawWords(data), i)
      modifies block
      ensures Window(block[..], Schedule(data, 80), RawWords(data), i + 1)
      ensures Regs(z', v, w', x, y) == Step(Regs(v, w, x, y, z), i, Schedule(data, 80)[i])
    {
      hide Rol, Swap, Blend, Mix, K, Accumulate, Schedule, RawWords, Window, Step;
      ghost var l := block[..];
      ScheduleStep(l, data, i);
      var s := if i < 16 then Swap(block[i])
               else Blend(block[(i + 13) % 16], block[(i + 8) % 16], block[(i + 2) % 16], block[i % 16]);
      block[i % 16] := s;
      assert block[..] == l[i % 16 := s];
      z' := Accumulate(z, Mix(i, w, x, y), s, K(i), Rol(v, 5));
      w' := Rol(w, 30);
      RoundIsStep(Regs(v, w, x, y, z), i, s);
    }

    /** A line of five macro calls, after which every name is back in its place. */
    method FiveRounds(a: word, b: word, c: word, d: word, e: word, i: nat, ghost data: seq<octet>, ghost h: Regs)
      returns (a': word, b': word, c': word, d': word, e': word)
      requires Shape() && |data| == 64 && i + 5 <= 80
      requires Window(block[..], Schedule(data, 80), RawWords(data), i)
      requires Regs(a, b, c, d, e) == Rounds(h, Schedule(data, 80), i)
      modifies block
      ensures Window(block[..], Schedule(data, 80), RawWords(data), i + 5)
      ensures Regs(a', b', c', d', e') == Rounds(h, Schedule(data, 80), i + 5)
    {
      hide Step, Schedule, RawWords, Window, Rounds;
      ghost var ws := Schedule(data, 80);
      forall k | i <= k < i + 5 { RoundsNext(h, ws, k); }
      a', b', c', d', e' := a, b, c, d, e;
      b', e' := Round(a', b', c', d', e', i, data);
      a', d' := Round(e', a', b', c', d', i + 1, data);
      e', c' := Round(d', e', a', b', c', i + 2, data);
      d', b' := Round(c', d', e', a', b', i + 3, data);
      c', a' := Round(b', c', d', e', a', i + 4, data);
    }

    method TwentyRounds(a: word, b: word, c: word, d: word, e: word, i: nat, ghost data: seq<octet>, ghost h: Regs)
      returns (a': word, b': word, c': word, d': word, e': word)
      requires Shape() && |data| == 64 && i + 20 <= 80
      requires Window(block[..], Schedule(data, 80), RawWords(data), i)
      requires Regs(a, b, c, d, e) == Rounds(h, Schedule(data, 80), i)
      modifies block
      ensures Window(block[..], Schedule(data, 80), RawWords(data), i + 20)
      ensures Regs(a', b', c', d', e') == Rounds(h, Schedule(data, 80), i + 20)
    {
      hide Schedule, RawWords, Rounds, Window;
      a', b', c', d', e' := FiveRounds(a, b, c, d, e, i, data, h);
      a', b', c', d', e' := FiveRounds(a', b', c', d', e', i + 5, data, h);
      a', b', c', d', e' := FiveRounds(a', b', c', d', e', i + 10, data, h);
      a', b', c', d', e' := FiveRounds(a', b', c', d', e', i + 15, data, h);
    }

    /** Transform(m_state, pBuffer): 80 unrolled rounds, then the working variables added back. */
    method Transform(data: seq<octet>)
      requires Shape() && |data| == 64
      modifies state, block
      ensures Registers() == Compress(old(Registers()), data)
    {
      hide Schedule, RawWords, Rounds, Window, Plus;
      ghost var h := Registers();
      var a, b, c, d, e := state[0], state[1], state[2], state[3], state[4];
      LoadBlock(data);
      RoundsStart(h, data);
      a, b, c, d, e := TwentyRounds(a, b, c, d, e, 0, data, h);
      a, b, c, d, e := TwentyRounds(a, b, c, d, e, 20, data, h);
      a, b, c, d, e := TwentyRounds(a, b, c, d, e, 40, data, h);
      a, b, c, d, e := TwentyRounds(a, b, c, d, e, 60, data, h);
      AddBack(a, b, c, d, e);
    }

    method AddBack(a: word, b: word, c: word, d: word, e: word)
      requires Shape()
      modifies state
      ensures Registers() == Plus(old(Registers()), Regs(a, b, c, d, e))
    {
      hide Sum;
      state[0] := Sum(state[0], a);
      state[1] := Sum(state[1], b);
      state[2] := Sum(state[2], c);
      state[3] := Sum(state[3], d);
      state[4] := Sum(state[4], e);
    }

    /** memcpy(m_block, pBuffer, 64) */
    method LoadBlock(data: seq<octet>)
      requires Shape() && |data| == 64
      modifies block
      ensures block[..] == RawWords(data)
    {
      hide LittleEndian;
      forall t | 0 <= t < 16 {
        block[t] := LittleEndian(data[4 * t], data[4 * t + 1], data[4 * t + 2], data[4 * t + 3]);
      }
    }

    /** memcpy(&m_buffer[j], bytes, |bytes|) */
    method CopyIn(j: nat, bytes: seq<octet>)
      requires Shape() && j + |bytes| <= 64
      modifies buffer
      ensures buffer[..j + |bytes|] == old(buffer[..j]) + bytes
    {
      forall k | 0 <= k < |bytes| {
        buffer[j + k] := bytes[k];
      }
    }

    /** m_count[0] += uLen << 3 with its carry, then m_count[1] += uLen >> 29. */
    method AddCount(uLen: nat)
      requires Counts(count0, count1, |fed|)
      modifies this`count0, this`count1
      ensures Counts(count0, count1, |fed| + uLen)
    {
      hide Counts;
      CountAdvances(count0, count1, |fed|, uLen);
      assert count1 % TWO32 == count1 by { CountsFit(count0, count1, |fed|); }
      var add := 8 * uLen % TWO32;
      count0 := (count0 + add) % TWO32;
      if count0 < add {
        count1 := (count1 + 1) % TWO32;
      }
      count1 := (count1 + uLen / 0x2000_0000) % TWO32;
      assert count0 == AddLow(old(count0), uLen) && count1 == AddHigh(old(count0), old(count1), uLen);
      hide AddLow, AddHigh;
    }

    /**
     Update(pbData, uLen).  The length sum is a 32-bit one in the source, so the call is
     in bounds exactly when it does not wrap; see UpdateStaysInBuffer.
     */
    method Update(data: seq<octet>)
      requires Valid() && |fed| - 64 * blocks + |data| < TWO32
      modifies this, state, buffer, block
      ensures Valid() && fed == old(fed) + data
    {
      hide Counts, Absorb;
      CountGivesFill(count0, count1, |fed|, blocks);
      var uLen := |data|;
      var j := count0 / 8 % 64;
      AddCount(uLen);
      ghost var all := fed + data;
      var i;
      i, j := Consume(data, j);
      KeepTail(data, i, j);
      fed := all;
    }

    /** What is left of the data goes to the buffer. */
    method KeepTail(data: seq<octet>, i: nat, j: nat)
      requires Shape() && i <= |data| && |fed| + i == 64 * blocks + j && j + |data| - i < 64
      requires buffer[..j] == (fed + data)[64 * blocks..|fed| + i]
      modifies buffer
      ensures buffer[..j + |data| - i] == (fed + data)[64 * blocks..]
    {
      ghost var all := fed + data;
      if |data| - i != 0 {
        CopyIn(j, data[i..]);
      }
      assert all[64 * blocks..] == all[64 * blocks..|fed| + i] + data[i..];
    }

    /** The branch of Update that hashes every block the new data completes. */
    method Consume(data: seq<octet>, j: nat) returns (i: nat, j': nat)
      requires Shape() && |fed| == 64 * blocks + j && j < 64 && j + |data| < TWO32
      requires Registers() == Absorb(fed, blocks) && buffer[..j] == fed[64 * blocks..]
      modifies this`blocks, state, buffer, block
      ensures i <= |data| && |fed| + i == 64 * blocks + j' && j' + |data| - i < 64
      ensures Registers() == Absorb(fed + data, blocks)
      ensures buffer[..j'] == (fed + data)[64 * blocks..|fed| + i]
    {
      hide Absorb;
      ghost var all := fed + data;
      AbsorbPrefix(fed, data, blocks);
      if (j + |data|) % TWO32 > 63 {
        i := 64 - j;
        assert buffer[..j] + data[..i] == all[64 * blocks..64 * blocks + 64];
        FillAndTransform(j, data[..i], all, blocks);
        blocks := blocks + 1;
        i := TransformBlocks(data, i);
        j' := 0;
      } else {
        i, j' := 0, j;
        assert buffer[..j] == all[64 * blocks..|fed|];
      }
    }

    /** The first block: the buffered tail and the head of the new data. */
    method FillAndTransform(j: nat, head: seq<octet>, ghost all: seq<octet>, ghost k: nat)
      requires Shape() && j + |head| == 64 && 64 * k + 64 <= |all|
      requires Registers() == Absorb(all, k) && buffer[..j] + head == all[64 * k..64 * k + 64]
      modifies buffer, state, block
      ensures Registers() == Absorb(all, k + 1)
    {
      hide Compress;
      CopyIn(j, head);
      assert buffer[..] == buffer[..64];
      Transform(buffer[..]);
    }

    /** for( ; (i + 63) < uLen; i += 64) Transform(m_state, &pbData[i]) */
    method TransformBlocks(data: seq<octet>, start: nat) returns (i: nat)
      requires Shape() && start <= |data| && |fed| + start == 64 * blocks && start <= 64
      requires 64 - start + |data| < TWO32 && Registers() == Absorb(fed + data, blocks)
      modifies this`blocks, state, block
      ensures i <= |data| < i + 64 && |fed| + i == 64 * blocks
      ensures Registers() == Absorb(fed + data, blocks)
    {
      hide Compress;
      i := start;
      ghost var k := 0;
      while (i + 63) % TWO32 < |data|
        invariant i <= |data| && i == start + 64 * k && |fed| + i == 64 * blocks
        invariant Registers() == Absorb(fed + data, blocks)
        decreases |data| - i
      {
        NoWrap(start, |data|, k);
        SliceOfRight(fed, data, i);
        Transform(data[i..i + 64]);
        i := i + 64;
        k := k + 1;
        blocks := blocks + 1;
      }
      NoWrap(start, |data|, k);
    }

    /**
     Final(): a marker byte, one zero byte at a time until 56 bytes are buffered, and the
     count taken before the padding.  Afterwards the object is wiped, not reusable.
     */
    method Final()
      requires Valid()
      modifies this, state, buffer, block, digest
      ensures digest[..] == Sha1(old(fed))
      ensures Shape() && count0 == 0 && count1 == 0
    {
      hide Absorb, Counts, RegisterOctets, LengthOctets;
      ghost var m := fed;
      var finalcount := FinalCount();
      PadTo56();
      Update(finalcount);
      assert fed == Pad(m);
      assert blocks == |fed| / 64;
      WriteDigest();
      Wipe();
    }

    /** The marker byte, and one zero byte at a time until (m_count[0] & 504) == 448. */
    method PadTo56()
      requires Valid()
      modifies this, state, buffer, block
      ensures Valid() && fed == old(fed) + [0x80] + Zeros(ZeroCount(|old(fed)|))
      ensures |fed| == 64 * blocks + 56
    {
      hide Absorb, Counts, ZeroCount;
      ghost var m, zeros := fed, 0;
      Update([0x80]);
      assert fed == m + [0x80] + Zeros(0);
      CountGivesFill(count0, count1, |fed|, blocks);
      PaddingProgress(|m|, 0, blocks);
      while count0 / 8 % 64 != 56
        invariant Valid() && count0 / 8 % 64 == |fed| - 64 * blocks
        invariant fed == m + [0x80] + Zeros(zeros)
        invariant zeros <= ZeroCount(|m|) && (|fed| == 64 * blocks + 56 <==> zeros == ZeroCount(|m|))
        decreases ZeroCount(|m|) - zeros
      {
        PadZero(m, zeros);
        zeros := zeros + 1;
      }
    }

    method PadZero(ghost m: seq<octet>, ghost zeros: nat)
      requires Valid() && fed == m + [0x80] + Zeros(zeros) && zeros < ZeroCount(|m|)
      modifies this, state, buffer, block
      ensures Valid() && fed == m + [0x80] + Zeros(zeros + 1)
      ensures count0 / 8 % 64 == |fed| - 64 * blocks
      ensures |fed| == 64 * blocks + 56 <==> zeros + 1 == ZeroCount(|m|)
    {
      hide Absorb, Counts, ZeroCount;
      Update([0]);
      assert fed == m + [0x80] + Zeros(zeros + 1);
      CountGivesFill(count0, count1, |fed|, blocks);
      PaddingProgress(|m|, zeros + 1, blocks);
    }

    method FinalCount() returns (octets: seq<octet>)
      requires Counts(count0, count1, |fed|)
      ensures octets == LengthOctets(8 * |fed| % TWO64)
    {
      hide CountOctet, Counts, LengthOctets;
      octets := [];
      for i := 0 to 8
        invariant |octets| == i && forall k :: 0 <= k < i ==> octets[k] == LengthOctets(8 * |fed| % TWO64)[k]
      {
        CountOctets(count0, count1, |fed|, i);
        octets := octets + [CountOctet(if i >= 4 then count0 else count1, i % 4)];
      }
    }

    method WriteDigest()
      requires Shape()
      modifies digest
      ensures digest[..] == RegisterOctets(Registers())
    {
      hide WordOctet, WordOctets;
      for i := 0 to 20
        invariant forall k :: 0 <= k < i ==> digest[k] == RegisterOctets(Registers())[k]
      {
        digest[i] := WordOctet(state[i / 4], i % 4);
        WordOctetAt(state[i / 4], i % 4);
        assert state[i / 4] == Register(Registers(), i / 4);
      }
    }

    method Wipe()
      requires Shape()
      modifies this, state, buffer, block
      ensures count0 == 0 && count1 == 0
    {
      forall k | 0 <= k < 64 { buffer[k] := 0; }
      forall k | 0 <= k < 5 { state[k] := 0; }
      count0, count1 := 0, 0;
      Transform(buffer[..]);
    }
  }

  function Flatten(chunks: seq<seq<octet>>): seq<octet> {
    if chunks == [] then []
    else Flatten(chunks[..|chunks| - 1]) + chunks[|chunks| - 1]
  }

  /** Construct, Update any number of times, Final: every way of splitting a message gives its SHA-1. */
  method DigestOf(chunks: seq<seq<octet>>) returns (d: seq<octet>)
    requires forall c :: c in chunks ==> |c| <= TWO32 - 64
    ensures d == Sha1(Flatten(chunks))
  {
    hide Sha1;
    var sha := new CSHA1();
    for i := 0 to |chunks|
      invariant sha.Valid() && sha.fed == Flatten(chunks[..i])
      invariant fresh(sha) && fresh(sha.state) && fresh(sha.buffer) && fresh(sha.block)
    {
      assert chunks[..i + 1][..i] == chunks[..i];
      sha.Update(chunks[i]);
    }
    assert chunks[..|chunks|] == chunks;
    sha.Final();
    d := sha.digest[..];
  }
}

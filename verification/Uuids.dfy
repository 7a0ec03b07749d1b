/**
 Ids as text and as 16 bytes: whip/Validator.cpp decides which texts are ids, the kashmir
 uuid_t class (ooid/kashmir/uuid.h, array.h) parses, prints and orders them, and the
 existence index (whip/ExistenceIndex.cpp) keeps a set of the parsed form.
 */
module Uuids {
  import opened Bytes

  type Uuid = u: seq<byte> | |u| == 16 witness seq(16, _ => 0 as byte)

  /** Validator::IsValidUUID */
  predicate IsValid(text: string) {
    |text| == 32 && forall i :: 0 <= i < |text| ==> IsHex(text[i])
  }

  predicate IsHex(c: char) {
    '0' <= c <= '9' || 'a' <= c <= 'f'
  }

  function Digit(n: nat): (c: char)
    requires n < 16
    ensures IsHex(c) && Value(c) == n
  {
    if n < 10 then '0' + n as char else 'a' + (n - 10) as char
  }

  /** The place of a character in the digits. */
  function Value(c: char): (n: nat)
    requires IsHex(c)
    ensures n < 16
  {
    if c <= '9' then (c - '0') as nat else (c - 'a') as nat + 10
  }

  lemma DigitOfValue(c: char)
    requires IsHex(c)
    ensures Digit(Value(c)) == c
  {
  }

  /** Characters compare as their digits do. */
  lemma DigitsAreOrdered(a: nat, b: nat)
    requires a < 16 && b < 16
    ensures Digit(a) < Digit(b) <==> a < b
  {
  }

  // ----- printing -----

  function ByteText(b: byte): (t: string)
    ensures |t| == 2
  {
    [Digit(b as nat / 16), Digit(b as nat % 16)]
  }

  /** uuid_t::put on a plain stream: two lower-case digits for every byte. */
  function Text(bytes: seq<byte>): (t: string)
    ensures |t| == 2 * |bytes|
  {
    if bytes == [] then "" else ByteText(bytes[0]) + Text(bytes[1..])
  }

  lemma {:induction false} TextAt(bytes: seq<byte>, i: nat)
    requires i < |bytes|
    ensures Text(bytes)[2 * i] == Digit(bytes[i] as nat / 16)
    ensures Text(bytes)[2 * i + 1] == Digit(bytes[i] as nat % 16)
  {
    if i == 0 {
    } else {
      TextAt(bytes[1..], i - 1);
    }
  }

  lemma PrintedIsValid(u: Uuid)
    ensures IsValid(Text(u))
  {
    forall k | 0 <= k < 32
      ensures IsHex(Text(u)[k])
    {
      TextAt(u, k / 2);
    }
  }

  // ----- parsing -----

  /** What the constructor from text does: fill the bytes, throw, or leave them as they were in memory. */
  datatype Outcome = Parsed(uuid: Uuid) | Threw | Untouched

  predicate IsSpace(c: char) {
    c == ' ' || '\t' <= c <= '\r'
  }

  /** Formatted extraction skips white space before every character. */
  function Visible(text: string): string {
    if text == "" then ""
    else (if IsSpace(text[0]) then "" else [text[0]]) + Visible(text[1..])
  }

  function Lower(c: char): char {
    if 'A' <= c <= 'Z' then c - 'A' + 'a' else c
  }

  /** The first digit of a byte may be upper-case, the second may not. */
  predicate PairOk(t: string, i: nat) {
    2 * i + 1 < |t| && IsHex(Lower(t[2 * i])) && IsHex(t[2 * i + 1])
  }

  function PairByte(t: string, i: nat): byte
    requires PairOk(t, i)
  {
    (Value(Lower(t[2 * i])) * 16 + Value(t[2 * i + 1])) as byte
  }

  predicate Readable(t: string) {
    forall i: nat :: i < 16 ==> PairOk(t, i)
  }

  function Parse(text: string): Outcome {
    var t := Visible(text);
    if t == "" then Untouched
    else if Readable(t) then Parsed(seq(16, i requires 0 <= i < 16 => PairByte(t, i)))
    else Threw
  }

  /** Only blank text leaves the bytes as they were in memory. */
  lemma {:induction false} UntouchedIff(text: string)
    ensures Parse(text) == Untouched <==> forall i :: 0 <= i < |text| ==> IsSpace(text[i])
  {
    if text == "" {
    } else {
      UntouchedIff(text[1..]);
      assert text == [text[0]] + text[1..];
    }
  }

  lemma {:induction false} ValidIsVisible(text: string)
    requires forall i :: 0 <= i < |text| ==> IsHex(text[i])
    ensures Visible(text) == text
  {
    if text == "" {
    } else {
      ValidIsVisible(text[1..]);
    }
  }

  lemma ValidParses(text: string)
    requires IsValid(text)
    ensures Parse(text).Parsed?
    ensures forall i: nat :: i < 16 ==> PairOk(text, i) && Parse(text).uuid[i] == PairByte(text, i)
  {
    ValidIsVisible(text);
    hide IsHex, Value;
    forall i: nat | i < 16
      ensures PairOk(text, i)
    {
      LowerKeepsHex(text[2 * i]);
    }
  }

  lemma LowerKeepsHex(c: char)
    requires IsHex(c)
    ensures Lower(c) == c
  {
  }

  lemma PairRoundTrip(b: byte, high: char, low: char)
    requires IsHex(high) && IsHex(low) && b as nat == Value(high) * 16 + Value(low)
    ensures ByteText(b) == [high, low]
  {
    DigitOfValue(high);
    DigitOfValue(low);
    hide IsHex, Value, Digit;
    assert b as nat / 16 == Value(high) && b as nat % 16 == Value(low);
  }

  /** Every valid id parses, and printing it gives the id back. */
  lemma ValidRoundTrip(text: string)
    requires IsValid(text)
    ensures Parse(text).Parsed? && Text(Parse(text).uuid) == text
  {
    hide Value, IsHex, Digit, Text, Parse;
    ValidParses(text);
    var u := Parse(text).uuid;
    forall k | 0 <= k < 32
      ensures Text(u)[k] == text[k]
    {
      var i := k / 2;
      TextAt(u, i);
      LowerKeepsHex(text[2 * i]);
      assert u[i] == PairByte(text, i);
      PairRoundTrip(u[i], text[2 * i], text[2 * i + 1]);
    }
  }

  /** Every uuid prints as text that parses to it. */
  lemma PrintRoundTrip(u: Uuid)
    ensures Parse(Text(u)) == Parsed(u)
  {
    PrintedIsValid(u);
    ValidRoundTrip(Text(u));
    TextIsInjective(Parse(Text(u)).uuid, u);
  }

  lemma {:induction false} TextIsInjective(a: seq<byte>, b: seq<byte>)
    requires |a| == |b| && Text(a) == Text(b)
    ensures a == b
  {
    forall i: nat | i < |a|
      ensures a[i] == b[i]
    {
      TextAt(a, i);
      TextAt(b, i);
    }
  }

  // ----- order -----

  /** std::lexicographical_compare on bytes of equal length. */
  predicate Less(a: seq<byte>, b: seq<byte>)
    requires |a| == |b|
  {
    a != [] && (a[0] < b[0] || (a[0] == b[0] && Less(a[1..], b[1..])))
  }

  /** std::string comparison. */
  predicate TextLess(s: string, t: string) {
    t != "" && (s == "" || s[0] < t[0] || (s[0] == t[0] && TextLess(s[1..], t[1..])))
  }

  /** The byte order is the text order. */
  lemma {:induction false} OrdersAgree(a: seq<byte>, b: seq<byte>)
    requires |a| == |b|
    ensures Less(a, b) <==> TextLess(Text(a), Text(b))
  {
    if a == [] {
    } else {
      var x, y := a[0] as nat, b[0] as nat;
      var s, t := Text(a), Text(b);
      OrdersAgree(a[1..], b[1..]);
      DigitsAreOrdered(x / 16, y / 16);
      DigitsAreOrdered(y / 16, x / 16);
      DigitsAreOrdered(x % 16, y % 16);
      DigitsAreOrdered(y % 16, x % 16);
      assert x == 16 * (x / 16) + x % 16 && y == 16 * (y / 16) + y % 16;
      assert s[1..][1..] == Text(a[1..]) && t[1..][1..] == Text(b[1..]);
      assert TextLess(s[1..], t[1..]) <==> s[1] < t[1] || (s[1] == t[1] && TextLess(s[1..][1..], t[1..][1..]));
    }
  }

  lemma ValidOrdersAgree(s: string, t: string)
    requires IsValid(s) && IsValid(t)
    ensures Parse(s).Parsed? && Parse(t).Parsed?
    ensures Less(Parse(s).uuid, Parse(t).uuid) <==> TextLess(s, t)
  {
    ValidRoundTrip(s);
    ValidRoundTrip(t);
    OrdersAgree(Parse(s).uuid, Parse(t).uuid);
  }

  /** A strict total order: of two different uuids one is less, never both, and never a uuid than itself. */
  lemma {:induction false} LessIsTotal(a: seq<byte>, b: seq<byte>)
    requires |a| == |b|
    ensures !(Less(a, b) && Less(b, a))
    ensures Less(a, b) || Less(b, a) <==> a != b
    decreases |a|
  {
    if a == [] {
    } else {
      LessIsTotal(a[1..], b[1..]);
      if a[0] == b[0] && a[1..] == b[1..] {
        assert a == [a[0]] + a[1..] && b == [b[0]] + b[1..];
      }
    }
  }

  lemma {:induction false} LessIsTransitive(a: seq<byte>, b: seq<byte>, c: seq<byte>)
    requires |a| == |b| == |c| && Less(a, b) && Less(b, c)
    ensures Less(a, c)
    decreases |a|
  {
    if a[0] == b[0] && b[0] == c[0] {
      LessIsTransitive(a[1..], b[1..], c[1..]);
    }
  }

  // ----- sets of ids -----

  ghost function ParsedSet(ids: set<string>): set<Uuid> {
    set id | id in ids && Parse(id).Parsed? :: Parse(id).uuid
  }

  /** A set of uuids decides membership of valid ids exactly as a set of texts would. */
  lemma MembershipAgrees(ids: set<string>, id: string)
    requires IsValid(id) && forall x :: x in ids ==> IsValid(x)
    ensures Parse(id).Parsed? && (Parse(id).uuid in ParsedSet(ids) <==> id in ids)
  {
    ValidRoundTrip(id);
    hide IsValid, Parse, Text;
    forall x | x in ids && Parse(x).Parsed? && Parse(x).uuid == Parse(id).uuid
      ensures x == id
    {
      ValidRoundTrip(x);
    }
  }

  // ----- prefixes -----

  /** A prefix number on a stream with width 3, fill 0 and hex. */
  function PrefixText(p: nat): (t: string)
    requires p <= 0xfff
    ensures |t| == 3
  {
    [Digit(p / 256), Digit(p / 16 % 16), Digit(p % 16)]
  }

  /** Every valid id lies under exactly one of the prefixes 000 to fff. */
  lemma OnePrefixEach(id: string) returns (p: nat)
    requires IsValid(id)
    ensures p <= 0xfff && PrefixText(p) == id[..3]
    ensures forall q: nat :: q <= 0xfff && PrefixText(q) == id[..3] ==> q == p
  {
    var a, b, c := Value(id[0]), Value(id[1]), Value(id[2]);
    p := a * 256 + b * 16 + c;
    ThreeDigits(a, b, c);
    DigitOfValue(id[0]);
    DigitOfValue(id[1]);
    DigitOfValue(id[2]);
    forall q: nat | q <= 0xfff && PrefixText(q) == id[..3]
      ensures q == p
    {
      assert PrefixText(q)[0] == id[0] && PrefixText(q)[1] == id[1] && PrefixText(q)[2] == id[2];
      assert q == q / 256 * 256 + q / 16 % 16 * 16 + q % 16 by { DigitsOf(q); }
    }
  }

  lemma ThreeDigits(a: nat, b: nat, c: nat)
    requires a < 16 && b < 16 && c < 16
    ensures
      var p := a * 256 + b * 16 + c;
      p <= 0xfff && p / 256 == a && p / 16 % 16 == b && p % 16 == c
  {
    var p := a * 256 + b * 16 + c;
    assert p / 16 == a * 16 + b;
  }

  lemma DigitsOf(q: nat)
    requires q <= 0xfff
    ensures q == q / 256 * 256 + q / 16 % 16 * 16 + q % 16
  {
    assert q / 256 == q / 16 / 16;
  }

  // ----- the loops -----

  /** The scan of IsValidUUID. */
  method CheckUuid(text: string) returns (ok: bool)
    ensures ok == IsValid(text)
  {
    if |text| != 32 {
      return false;
    }
    for i := 0 to |text|
      invariant forall j :: 0 <= j < i ==> IsHex(text[j])
    {
      if (text[i] < '0' || text[i] > '9') && (text[i] < 'a' || text[i] > 'f') {
        return false;
      }
    }
    return true;
  }

  /** uuid_t::put */
  method Put(data: array<byte>) returns (text: string)
    requires data.Length == 16
    ensures text == Text(data[..])
  {
    text := "";
    for i := 0 to 16
      invariant text + Text(data[i..]) == Text(data[..])
    {
      assert data[i..][1..] == data[i + 1..];
      assert text + (ByteText(data[i]) + Text(data[i + 1..])) == text + ByteText(data[i]) + Text(data[i + 1..]);
      text := text + ByteText(data[i]);
    }
    assert Text(data[16..]) == "";
  }

  /** std::lexicographical_compare over two arrays of the same length. */
  method Compare(a: array<byte>, b: array<byte>) returns (less: bool)
    requires a.Length == b.Length
    ensures less == Less(a[..], b[..])
  {
    for i := 0 to a.Length
      invariant Less(a[i..], b[i..]) == Less(a[..], b[..])
    {
      assert a[i..][1..] == a[i + 1..] && b[i..][1..] == b[i + 1..];
      if a[i] < b[i] {
        return true;
      }
      if b[i] < a[i] {
        return false;
      }
    }
    return false;
  }

  /** Extraction of one character: a stream that has failed or runs out leaves it as it was. */
  method Extract(text: string, at: nat, good: bool, c: char) returns (at': nat, good': bool, c': char)
    requires at <= |text|
    ensures at' <= |text|
    ensures good' ==> good && Visible(text[at..]) == [c'] + Visible(text[at'..])
    ensures !good' ==> c' == c && (good ==> Visible(text[at..]) == "")
  {
    at', good', c' := at, good, c;
    if !good {
      return;
    }
    while at' < |text| && IsSpace(text[at'])
      invariant at <= at' <= |text| && Visible(text[at'..]) == Visible(text[at..])
    {
      assert text[at'..][1..] == text[at' + 1..];
      at' := at' + 1;
    }
    if at' == |text| {
      good' := false;
    } else {
      assert text[at'..][1..] == text[at' + 1..];
      c' := text[at'];
      at' := at' + 1;
    }
  }

  /** uuid_t::get on a stream over the text. */
  method Get(text: string) returns (r: Outcome)
    ensures r == Parse(text)
  {
    hide Value, Lower, IsHex, Visible;
    ghost var t := Visible(text);
    assert text[0..] == text;
    // The stream's sentry wants one character that is not white space.
    var at: nat, good, c := Extract(text, 0, true, ' ');
    if !good {
      return Untouched;
    }
    at, c := 0, ' ';
    var data := new byte[16];
    for i := 0 to 16
      invariant at <= |text|
      invariant good ==> 2 * i <= |t| && Visible(text[at..]) == t[2 * i..]
      invariant good ==> forall j: nat :: j < i ==> PairOk(t, j) && data[j] == PairByte(t, j)
      invariant !good ==> |t| < 2 * i
    {
      at, good, c := Extract(text, at, good, c);
      c := Lower(c);
      if !IsHex(c) {
        assert !PairOk(t, i);
        return Threw;
      }
      var high := Value(c);
      data[i] := high as byte;
      at, good, c := Extract(text, at, good, c);
      if !IsHex(c) {
        assert !PairOk(t, i);
        return Threw;
      }
      data[i] := data[i] * 16 + Value(c) as byte;
    }
    if !good {
      assert !PairOk(t, 15);
      return Threw;
    }
    assert data[..] == seq(16, i requires 0 <= i < 16 => PairByte(t, i));
    return Parsed(data[..]);
  }
}

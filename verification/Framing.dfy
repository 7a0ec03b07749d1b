/**
 The frames of the asset protocol: a 37-byte header holding a code, 32 bytes of id text and a
 length in network byte order, then that many bytes of body. Responses
 (whip/ServerResponseMsg.cpp) and requests (whip/ClientRequestMsg.cpp) share the layout; they
 differ in which codes are valid and in which ones the reader expects a body for.
 */
module Framing {
  import opened Bytes

  const HEADER_SIZE: nat := 37
  const LENGTH_AT: nat := 33

  datatype Format = Format(low: byte, high: byte, bodies: set<byte>)

  /** RC_FOUND to RC_OK, read with their body whatever the code. */
  const RESPONSES := Format(10, 13, {10, 11, 12, 13})

  /** RT_GET to RT_GET_DONTCACHE; only RT_PUT has its body read. */
  const REQUESTS := Format(10, 17, {11})

  datatype Outgoing = Outgoing(code: byte, uuid: seq<byte>, data: Option<seq<byte>>)

  datatype Incoming = Incoming(code: byte, uuid: seq<byte>, body: seq<byte>)

  /** What a reader makes of the front of a stream. */
  datatype Next = Got(message: Incoming, rest: seq<byte>) | Short | Corrupt

  /** How a stream ends: on a boundary, inside a message, or with an invalid code. */
  datatype End = Boundary | CutOff | Disconnected

  // ----- writing -----

  function Body(o: Outgoing): seq<byte> {
    match o.data
    case None => []
    case Some(data) => data
  }

  /** Messages that can be built: 32 bytes of id, and a size that fits the header. */
  predicate Sendable(f: Format, o: Outgoing) {
    && f.low <= o.code <= f.high && |o.uuid| == 32 && |Body(o)| < U32_LIMIT
    && (o.code !in f.bodies ==> Body(o) == [])
  }

  predicate AllSendable(f: Format, os: seq<Outgoing>) {
    forall i :: 0 <= i < |os| ==> Sendable(f, os[i])
  }

  function Header(code: byte, uuid: seq<byte>, size: nat): (h: seq<byte>)
    requires |uuid| == 32 && size < U32_LIMIT
    ensures |h| == HEADER_SIZE
  {
    [code] + uuid + BigEndian32(size)
  }

  function Frame(o: Outgoing): seq<byte>
    requires |o.uuid| == 32 && |Body(o)| < U32_LIMIT
  {
    Header(o.code, o.uuid, |Body(o)|) + Body(o)
  }

  function Stream(f: Format, os: seq<Outgoing>): seq<byte>
    requires AllSendable(f, os)
  {
    if os == [] then [] else Frame(os[0]) + Stream(f, os[1..])
  }

  // ----- reading -----

  function SizeOf(header: seq<byte>): nat
    requires |header| == HEADER_SIZE
  {
    FromBigEndian32(header[LENGTH_AT..])
  }

  /** How much body follows a header. */
  function BodySize(f: Format, header: seq<byte>): nat
    requires |header| == HEADER_SIZE
  {
    if header[0] in f.bodies then SizeOf(header) else 0
  }

  /** One header, checked, and its body. */
  function ReadOne(f: Format, s: seq<byte>): Next {
    if |s| < HEADER_SIZE then Short
    else if s[0] < f.low || s[0] > f.high then Corrupt
    else
      var end := HEADER_SIZE + BodySize(f, s[..HEADER_SIZE]);
      if |s| < end then Short
      else Got(Incoming(s[0], s[1..LENGTH_AT], s[HEADER_SIZE..end]), s[end..])
  }

  /** Header after header until the stream runs out or a code is invalid. */
  function ReadAll(f: Format, s: seq<byte>): (seq<Incoming>, End)
    decreases |s|
  {
    if s == [] then ([], Boundary)
    else
      match ReadOne(f, s)
      case Short => ([], CutOff)
      case Corrupt => ([], Disconnected)
      case Got(m, rest) =>
        var (ms, end) := ReadAll(f, rest);
        ([m] + ms, end)
  }

  /** The reader cannot tell no body from an empty one. */
  function AsRead(o: Outgoing): Incoming {
    Incoming(o.code, o.uuid, Body(o))
  }

  function AllAsRead(os: seq<Outgoing>): seq<Incoming> {
    seq(|os|, i requires 0 <= i < |os| => AsRead(os[i]))
  }

  // ----- reading undoes writing -----

  lemma HeaderParts(code: byte, uuid: seq<byte>, size: nat)
    requires |uuid| == 32 && size < U32_LIMIT
    ensures
      var h := Header(code, uuid, size);
      h[0] == code && h[1..LENGTH_AT] == uuid && SizeOf(h) == size
  {
    var h := Header(code, uuid, size);
    assert h[LENGTH_AT..] == BigEndian32(size);
    BigEndianRoundTrip(size);
  }

  /** A frame is read back whole, and the next header is looked for right after it. */
  lemma FrameIsRead(f: Format, o: Outgoing, tail: seq<byte>)
    requires Sendable(f, o)
    ensures ReadOne(f, Frame(o) + tail) == Got(AsRead(o), tail)
  {
    var h := Header(o.code, o.uuid, |Body(o)|);
    var s := Frame(o) + tail;
    HeaderParts(o.code, o.uuid, |Body(o)|);
    assert s[..HEADER_SIZE] == h;
    assert s[1..LENGTH_AT] == h[1..LENGTH_AT];
    var end := HEADER_SIZE + |Body(o)|;
    assert s[HEADER_SIZE..end] == Body(o);
    assert s[end..] == tail;
  }

  lemma ReadAllStep(f: Format, s: seq<byte>)
    requires ReadOne(f, s).Got?
    ensures
      var next := ReadOne(f, s);
      ReadAll(f, s) == ([next.message] + ReadAll(f, next.rest).0, ReadAll(f, next.rest).1)
  {
  }

  /** Any messages, written one after the other, are read back as they were, whatever comes next. */
  lemma {:induction false} StreamRoundTrip(f: Format, os: seq<Outgoing>, tail: seq<byte>)
    requires AllSendable(f, os)
    ensures ReadAll(f, Stream(f, os) + tail) == (AllAsRead(os) + ReadAll(f, tail).0, ReadAll(f, tail).1)
    decreases |os|
  {
    hide ReadOne, ReadAll, Frame;
    if os == [] {
      assert [] + tail == tail;
      assert AllAsRead(os) + ReadAll(f, tail).0 == ReadAll(f, tail).0;
      assert ReadAll(f, tail) == (ReadAll(f, tail).0, ReadAll(f, tail).1);
    } else {
      var s := Stream(f, os) + tail;
      var rest := Stream(f, os[1..]) + tail;
      assert s == Frame(os[0]) + rest;
      FrameIsRead(f, os[0], rest);
      ReadAllStep(f, s);
      StreamRoundTrip(f, os[1..], tail);
      assert AllAsRead(os) == [AsRead(os[0])] + AllAsRead(os[1..]);
      assert AllAsRead(os) + ReadAll(f, tail).0 == [AsRead(os[0])] + (AllAsRead(os[1..]) + ReadAll(f, tail).0);
    }
  }

  /** A message cut short is not mistaken for another one. */
  lemma CutFrameIsShort(f: Format, o: Outgoing, n: nat)
    requires Sendable(f, o) && n < |Frame(o)|
    ensures ReadOne(f, Frame(o)[..n]) == Short
  {
    if n >= HEADER_SIZE {
      HeaderParts(o.code, o.uuid, |Body(o)|);
      assert Frame(o)[..n][..HEADER_SIZE] == Header(o.code, o.uuid, |Body(o)|);
    }
  }

  /**
   Wherever the stream breaks off, the reader has exactly the messages that were complete by
   then, never a corrupt header, and it is between messages only if the break was.
   */
  lemma {:induction false} CutStream(f: Format, os: seq<Outgoing>, n: nat) returns (k: nat)
    requires AllSendable(f, os) && n <= |Stream(f, os)|
    ensures k <= |os| && |Stream(f, os[..k])| <= n
    ensures k < |os| ==> n < |Stream(f, os[..k + 1])|
    ensures ReadAll(f, Stream(f, os)[..n]) ==
            (AllAsRead(os[..k]), if n == |Stream(f, os[..k])| then Boundary else CutOff)
    decreases |os|
  {
    hide ReadOne, Frame;
    if os == [] {
      k := 0;
      assert Stream(f, os)[..n] == [];
      assert AllAsRead(os[..k]) == [];
    } else if n < |Frame(os[0])| {
      k := 0;
      CutFirst(f, os, n);
    } else {
      var first := Frame(os[0]);
      var m := n - |first|;
      var j := CutStream(f, os[1..], m);
      k := j + 1;
      var rest := Stream(f, os[1..])[..m];
      assert Stream(f, os)[..n] == first + rest;
      hide ReadAll, Stream;
      FrameIsRead(f, os[0], rest);
      ReadAllStep(f, first + rest);
      StreamOfPrefix(f, os, j);
      if k < |os| {
        StreamOfPrefix(f, os, k);
      }
      assert AllAsRead(os[..k]) == [AsRead(os[0])] + AllAsRead(os[1..][..j]);
    }
  }

  lemma CutFirst(f: Format, os: seq<Outgoing>, n: nat)
    requires AllSendable(f, os) && os != [] && n < |Frame(os[0])|
    ensures n < |Stream(f, os[..1])| && n <= |Stream(f, os)|
    ensures Stream(f, os[..0]) == [] && AllAsRead(os[..0]) == []
    ensures ReadAll(f, Stream(f, os)[..n]) == ([], if n == 0 then Boundary else CutOff)
  {
    assert os[..1][1..] == [];
    assert Stream(f, os)[..n] == Frame(os[0])[..n];
    CutFrameIsShort(f, os[0], n);
    hide Frame, ReadOne;
  }

  lemma StreamOfPrefix(f: Format, os: seq<Outgoing>, j: nat)
    requires AllSendable(f, os) && os != [] && j < |os|
    ensures Stream(f, os[..j + 1]) == Frame(os[0]) + Stream(f, os[1..][..j])
  {
    assert os[..j + 1][1..] == os[1..][..j];
  }

  // ----- and writing undoes reading -----

  function AsSent(m: Incoming): Outgoing {
    Outgoing(m.code, m.uuid, Some(m.body))
  }

  function AllAsSent(ms: seq<Incoming>): seq<Outgoing> {
    seq(|ms|, i requires 0 <= i < |ms| => AsSent(ms[i]))
  }

  lemma ReadIsFrame(s: seq<byte>)
    requires ReadOne(RESPONSES, s).Got?
    ensures
      var next := ReadOne(RESPONSES, s);
      Sendable(RESPONSES, AsSent(next.message)) && s == Frame(AsSent(next.message)) + next.rest
  {
    var h := s[..HEADER_SIZE];
    var size := SizeOf(h);
    assert s[0] in RESPONSES.bodies;
    BigEndianIsOnto(h[LENGTH_AT..]);
    assert h == [h[0]] + h[1..LENGTH_AT] + h[LENGTH_AT..];
    assert s == s[..HEADER_SIZE] + s[HEADER_SIZE..HEADER_SIZE + size] + s[HEADER_SIZE + size..];
  }

  /** A response stream that ends on a boundary is the one its messages are written as. */
  lemma {:induction false} WholeStreamIsWritten(s: seq<byte>)
    requires ReadAll(RESPONSES, s).1 == Boundary
    ensures
      var ms := ReadAll(RESPONSES, s).0;
      AllSendable(RESPONSES, AllAsSent(ms)) && s == Stream(RESPONSES, AllAsSent(ms))
    decreases |s|
  {
    if s == [] {
    } else {
      ReadIsFrame(s);
      var next := ReadOne(RESPONSES, s);
      WholeStreamIsWritten(next.rest);
      var ms := ReadAll(RESPONSES, s).0;
      assert ms[0] == next.message && ms[1..] == ReadAll(RESPONSES, next.rest).0;
      assert AllAsSent(ms)[1..] == AllAsSent(ms[1..]);
    }
  }

  /**
   Requests are not determined by what is read: the size of one without a body is ignored, so
   streams that differ there are read alike.
   */
  lemma RequestSizeIsIgnored(code: byte, uuid: seq<byte>, size: nat, tail: seq<byte>)
    requires 10 <= code <= 17 && code != 11 && |uuid| == 32 && size < U32_LIMIT
    ensures ReadOne(REQUESTS, Header(code, uuid, size) + tail) == Got(Incoming(code, uuid, []), tail)
  {
    var h, s := Header(code, uuid, size), Header(code, uuid, size) + tail;
    HeaderParts(code, uuid, size);
    assert s[..HEADER_SIZE] == h && s[1..LENGTH_AT] == h[1..LENGTH_AT];
    assert s[HEADER_SIZE..HEADER_SIZE] == [] && s[HEADER_SIZE..] == tail;
  }

  // ----- the buffers and loops -----

  /** setupHeader: the code, the id after it, four zeros, and the size over the zeros. */
  method SetupHeader(code: byte, uuid: seq<byte>, size: nat) returns (header: array<byte>)
    requires |uuid| == 32 && size < U32_LIMIT
    ensures fresh(header) && header[..] == Header(code, uuid, size)
  {
    header := new byte[HEADER_SIZE](_ => 0);
    header[0] := code;
    for i := 0 to |uuid|
      invariant header[0] == code && header[1..i + 1] == uuid[..i]
    {
      header[i + 1] := uuid[i];
    }
    var marker := BigEndian32(size);
    for i := 0 to 4
      invariant header[0] == code && header[1..LENGTH_AT] == uuid && header[LENGTH_AT..LENGTH_AT + i] == marker[..i]
    {
      header[LENGTH_AT + i] := marker[i];
    }
    assert header[..] == [header[0]] + header[1..LENGTH_AT] + header[LENGTH_AT..HEADER_SIZE];
  }

  /** sendResponse: the header, then the data if there is any. */
  method Send(o: Outgoing) returns (written: seq<byte>)
    requires |o.uuid| == 32 && |Body(o)| < U32_LIMIT
    ensures written == Frame(o)
  {
    var header := SetupHeader(o.code, o.uuid, |Body(o)|);
    written := header[..];
    if o.data.Some? {
      written := written + o.data.value;
    }
  }

  lemma StreamStep(f: Format, os: seq<Outgoing>)
    requires AllSendable(f, os) && os != []
    ensures Sendable(f, os[0]) && AllSendable(f, os[1..]) && Stream(f, os) == Frame(os[0]) + Stream(f, os[1..])
  {
  }

  lemma EmptyStream(f: Format, os: seq<Outgoing>)
    requires os == []
    ensures AllSendable(f, os) && Stream(f, os) == []
  {
  }

  /** One message after the other. */
  method SendAll(f: Format, os: seq<Outgoing>) returns (written: seq<byte>)
    requires AllSendable(f, os)
    ensures written == Stream(f, os)
  {
    hide Frame, AllSendable, Stream;
    written := [];
    assert os[0..] == os;
    for i := 0 to |os|
      invariant AllSendable(f, os[i..]) && written + Stream(f, os[i..]) == Stream(f, os)
    {
      StreamStep(f, os[i..]);
      assert os[i..][1..] == os[i + 1..];
      var frame := Send(os[i]);
      assert written + (frame + Stream(f, os[i + 1..])) == written + frame + Stream(f, os[i + 1..]);
      written := written + frame;
    }
    EmptyStream(f, os[|os|..]);
  }

  /** The header is read and checked, then the body its size calls for. */
  method ReceiveOne(f: Format, s: seq<byte>) returns (next: Next)
    ensures next == ReadOne(f, s)
  {
    if |s| < HEADER_SIZE {
      return Short;
    }
    var header := s[..HEADER_SIZE];
    if header[0] < f.low || header[0] > f.high {
      return Corrupt;
    }
    var end := HEADER_SIZE + BodySize(f, header);
    if |s| < end {
      return Short;
    }
    next := Got(Incoming(header[0], header[1..LENGTH_AT], s[HEADER_SIZE..end]), s[end..]);
  }

  /** Listening again after every message, until the stream ends or a header is invalid. */
  method ReceiveAll(f: Format, s: seq<byte>) returns (got: seq<Incoming>, end: End)
    ensures got == ReadAll(f, s).0 && end == ReadAll(f, s).1
  {
    hide ReadOne;
    got := [];
    var rest := s;
    while rest != []
      invariant ReadAll(f, s).0 == got + ReadAll(f, rest).0 && ReadAll(f, s).1 == ReadAll(f, rest).1
      decreases |rest|
    {
      var next := ReceiveOne(f, rest);
      match next
      case Short => return got, CutOff;
      case Corrupt => return got, Disconnected;
      case Got(m, tail) =>
        RestIsShorter(f, rest);
        assert got + ([m] + ReadAll(f, tail).0) == got + [m] + ReadAll(f, tail).0;
        got := got + [m];
        rest := tail;
    }
    end := Boundary;
  }

  lemma RestIsShorter(f: Format, s: seq<byte>)
    requires ReadOne(f, s).Got?
    ensures |ReadOne(f, s).rest| < |s|
  {
  }
}

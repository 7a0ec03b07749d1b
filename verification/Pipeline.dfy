/**
 The pipelined client of whip/RemoteAssetService.cpp: one write in progress at a time with
 the rest waiting, responses matched to requests only by their order, and a close that
 cancels whatever is left.  A callback that a response causes may itself close the connection.
 */
module Pipeline {
  import opened Bytes

  datatype Kind = GetCached | GetUncached | PutAsset | ListIds

  /** A PendingTransferRequest; the ticket stands for its callback. */
  datatype Req = Req(key: string, kind: Kind, ticket: nat)

  datatype Code = FOUND | NOTFOUND | ERROR | OK

  /** A response header: corrupt, or a code and a body length. */
  datatype Header = Corrupt | Head(code: Code, size: nat)

  datatype Result =
    | Got(body: seq<byte>)      // an asset, or listing text
    | Confirmed
    | Refused                   // RASError(true, false)
    | Cancelled                 // RASError(true, true)

  datatype Callback = Callback(req: Req, result: Result)

  /** Which read is in progress, if any. */
  datatype Reading = NotReading | ReadingHeader | ReadingBody(positive: bool)

  datatype Pipe = Pipe(
    established: bool,
    sendActive: bool,
    reading: Reading,
    waiting: seq<Req>,          // _transferRequestQueue
    sent: seq<Req>,             // _assetCallbackQueue
    submitted: seq<Req>,        // history: in the order of the calls
    written: seq<Req>,          // history: in the order given to the socket
    callbacks: seq<Callback>,   // history: in the order made
    answered: nat,              // how many of them a response caused
    late: seq<Req>,             // history: submitted to a closed connection
    closers: seq<Req>,          // history: answered, and the callback closed the connection
    aborted: bool)              // an assertion has failed, or an empty queue was popped

  datatype Event =
    | Submit(key: string, kind: Kind)
    | WriteDone(ok: bool)
    | HeaderRead(ok: bool, header: Header, closes: bool)
    | BodyRead(ok: bool, body: seq<byte>, closes: bool)    // closes: the callback made, if any, calls close
    | CloseNow

  // ----- the steps -----

  /** sendGetRequest, sendPutRequest, sendAssetIdsRequest */
  function Send(p: Pipe, r: Req): Pipe {
    p.(sendActive := true, sent := p.sent + [r], written := p.written + [r])
  }

  /** getAsset, putAsset, getStoredAssetIDsWithPrefix: a closed connection is an error, but the request goes on. */
  function ApplySubmit(p: Pipe, key: string, kind: Kind): Pipe {
    var r := Req(key, kind, |p.submitted|);
    var q := p.(
      submitted := p.submitted + [r],
      late := if p.established then p.late else p.late + [r],
      callbacks := if p.established then p.callbacks else p.callbacks + [Callback(r, Refused)]);
    if !q.sendActive then Send(q, r) else q.(waiting := q.waiting + [r])
  }

  function Cancel(rs: seq<Req>): seq<Callback> {
    seq(|rs|, i requires 0 <= i < |rs| => Callback(rs[i], Cancelled))
  }

  /** close: the waiting requests are cancelled first, then the sent ones. */
  function ApplyClose(p: Pipe): Pipe {
    p.(established := false, waiting := [], sent := [],
       callbacks := p.callbacks + Cancel(p.waiting) + Cancel(p.sent))
  }

  /** onAfterWriteAssetRequest */
  function ApplyWriteDone(p: Pipe, ok: bool): Pipe {
    var q := p.(sendActive := false);
    if !ok then ApplyClose(q)
    else if q.established && q.waiting != [] then Send(q, q.waiting[0]).(waiting := q.waiting[1..])
    else q
  }

  /**
   Assert that there is a front requestor, tell it, drop it, and listen again. The request is
   still queued while its callback runs, so a callback that closes has it cancelled as well, and
   what is dropped then is not there: only the positive responses look before they pop.
   */
  function Answer(p: Pipe, result: Result, closes: bool, looks: bool): Pipe {
    if p.sent == [] then p.(aborted := true)
    else
      var told := p.(callbacks := p.callbacks + [Callback(p.sent[0], result)],
                     answered := p.answered + 1, reading := ReadingHeader);
      if closes then ApplyClose(told).(closers := p.closers + [p.sent[0]], aborted := p.aborted || !looks)
      else told.(sent := p.sent[1..])
  }

  /** onReadResponseHeader */
  function ApplyHeaderRead(p: Pipe, ok: bool, h: Header, closes: bool): Pipe {
    var q := p.(reading := NotReading);
    if !ok || h.Corrupt? then ApplyClose(q)
    else if h.code == FOUND || h.code == OK then p.(reading := ReadingBody(true))
    else if h.size > 0 then p.(reading := ReadingBody(false))
    else Answer(q, Refused, closes, false)
  }

  /** The first 32 bytes of a body, as text. */
  function BodyUuid(body: seq<byte>): string {
    seq(if |body| < 32 then |body| else 32, i requires 0 <= i < |body| => body[i] as char)
  }

  /** handleAssetReturned, handleConfirmation, handleDataReturned; or nothing, on a mismatch. */
  function Outcome(r: Req, body: seq<byte>): Option<Result> {
    match r.kind
    case GetCached => if BodyUuid(body) == r.key then Some(Got(body)) else None
    case GetUncached => if BodyUuid(body) == r.key then Some(Got(body)) else None
    case PutAsset => Some(Confirmed)
    case ListIds => Some(Got(body))
  }

  /** onReadResponseData and onHandleRequestErrorData */
  function ApplyBodyRead(p: Pipe, ok: bool, body: seq<byte>, closes: bool): Pipe
    requires p.reading.ReadingBody?
  {
    var q := p.(reading := NotReading);
    if p.reading.positive then
      if !ok || !p.established then ApplyClose(q)
      else if p.sent == [] then q.(aborted := true)
      else match Outcome(p.sent[0], body)
        case Some(result) => Answer(q, result, closes, true)
        case None => ApplyClose(q)
    else if !ok || body == [] then ApplyClose(q)
    else Answer(q, Refused, closes, false)
  }

  /**
   Completions follow what is in progress; a read succeeds only while the socket is open; and
   nothing happens after a failed assertion.
   */
  predicate Enabled(p: Pipe, e: Event) {
    && !p.aborted
    && match e
       case Submit(_, _) => true
       case WriteDone(_) => p.sendActive
       case HeaderRead(ok, _, _) => p.reading.ReadingHeader? && (ok ==> p.established)
       case BodyRead(ok, _, _) => p.reading.ReadingBody? && (ok ==> p.established)
       case CloseNow => true
  }

  function Apply(p: Pipe, e: Event): Pipe
    requires Enabled(p, e)
  {
    match e
    case Submit(key, kind) => ApplySubmit(p, key, kind)
    case WriteDone(ok) => ApplyWriteDone(p, ok)
    case HeaderRead(ok, h, closes) => ApplyHeaderRead(p, ok, h, closes)
    case BodyRead(ok, body, closes) => ApplyBodyRead(p, ok, body, closes)
    case CloseNow => ApplyClose(p)
  }

  /** Right after authentication: nothing sent, and the first header read is posted. */
  const CONNECTED := Pipe(true, false, ReadingHeader, [], [], [], [], [], 0, [], [], false)

  // ----- the invariant -----

  function Reqs(cs: seq<Callback>): seq<Req> {
    seq(|cs|, i requires 0 <= i < |cs| => cs[i].req)
  }

  /** A response's callback gets a result that fits its request. */
  predicate Fits(c: Callback) {
    match c.result
    case Got(body) => c.req.kind == ListIds || (c.req.kind != PutAsset && BodyUuid(body) == c.req.key)
    case Confirmed => c.req.kind == PutAsset
    case Refused => true
    case Cancelled => false
  }

  ghost predicate PipeInv(p: Pipe) {
    Numbered(p) && AnsweredOk(p) && Conserved(p) && if p.established then OpenOk(p) else ClosedOk(p)
  }

  ghost predicate Numbered(p: Pipe) {
    forall k :: 0 <= k < |p.submitted| ==> p.submitted[k].ticket == k
  }

  /** The responses went to the first requests, which were written in the order of the calls. */
  ghost predicate AnsweredOk(p: Pipe) {
    var a := p.answered;
    && a <= |p.callbacks| && a <= |p.written| && a <= |p.submitted|
    && Reqs(p.callbacks)[..a] == p.written[..a] == p.submitted[..a]
    && (forall k :: 0 <= k < a ==> Fits(p.callbacks[k]))
  }

  /** Every request is queued or called back once, and once more if it was late or closed the connection. */
  ghost predicate Conserved(p: Pipe) {
    forall r :: Calls(p, r) + Queued(p, r) == Times(p.submitted, r) + Times(p.late, r) + Times(p.closers, r)
  }

  function Times(rs: seq<Req>, r: Req): nat {
    multiset(rs)[r]
  }

  /** How often a request has been called back. */
  function Calls(p: Pipe, r: Req): nat {
    Times(Reqs(p.callbacks), r)
  }

  /** How often it is still queued, to be called back later. */
  function Queued(p: Pipe, r: Req): nat {
    Times(p.waiting, r) + Times(p.sent, r)
  }

  lemma TimesConcat(rs: seq<Req>, ss: seq<Req>)
    ensures forall r :: Times(rs + ss, r) == Times(rs, r) + Times(ss, r)
  {
  }

  lemma TimesOne(x: Req)
    ensures forall r :: Times([x], r) == if r == x then 1 else 0
    ensures forall r :: Times([], r) == 0
  {
  }

  lemma TimesPop(rs: seq<Req>)
    requires rs != []
    ensures forall r :: Times(rs, r) == Times(rs[1..], r) + if r == rs[0] then 1 else 0
  {
    TimesConcat([rs[0]], rs[1..]);
    TimesOne(rs[0]);
    assert rs == [rs[0]] + rs[1..];
  }

  lemma TimesPush(rs: seq<Req>, x: Req)
    ensures forall r :: Times(rs + [x], r) == Times(rs, r) + if r == x then 1 else 0
  {
    TimesConcat(rs, [x]);
    TimesOne(x);
  }

  /**
   With a requests answered and n written: the first a have had their callbacks, the next up
   to n are sent and the rest wait.
   */
  ghost predicate OpenOk(p: Pipe) {
    var a, n := p.answered, |p.written|;
    && |p.callbacks| == a <= n <= |p.submitted| && p.written == p.submitted[..n]
    && p.sent == p.submitted[a..n] && p.waiting == p.submitted[n..]
    && (p.waiting != [] ==> p.sendActive)
    && p.late == [] && p.closers == []
  }

  /** Only late requests are still queued, and no request is late twice or both late and a closer. */
  ghost predicate ClosedOk(p: Pipe) {
    && (forall r :: r in p.waiting || r in p.sent ==> r in p.late)
    && (forall i, j :: 0 <= i < j < |p.late| ==> p.late[i] != p.late[j])
    && |p.closers| <= 1 && (forall r :: r in p.late ==> r !in p.closers)
    && (forall r :: r in p.late || r in p.closers ==> r.ticket < |p.submitted|)
    && (forall k :: p.answered <= k < |p.callbacks| ==>
          p.callbacks[k].result.Cancelled? || (p.callbacks[k].result.Refused? && p.callbacks[k].req in p.late))
  }

  lemma Slices(s: seq<Req>, r: Req, i: nat, j: nat)
    requires i <= j <= |s|
    ensures (s + [r])[i..j] == s[i..j] && (s + [r])[j..] == s[j..] + [r] && (s + [r])[..i] == s[..i]
  {
  }

  lemma ReqsConcat(cs: seq<Callback>, ds: seq<Callback>)
    ensures Reqs(cs + ds) == Reqs(cs) + Reqs(ds)
  {
  }

  lemma ReqsOfCancel(rs: seq<Req>)
    ensures Reqs(Cancel(rs)) == rs
  {
  }

  lemma SubmitKeepsOpen(p: Pipe, key: string, kind: Kind)
    requires OpenOk(p) && p.established
    ensures OpenOk(ApplySubmit(p, key, kind))
  {
    var a, n, r := p.answered, |p.written|, Req(key, kind, |p.submitted|);
    Slices(p.submitted, r, a, n);
    if !p.sendActive {
      assert p.submitted[n..] == [] && n == |p.submitted|;
      Slices(p.submitted, r, a, n);
      WholeSlices(p.submitted, r, a);
    }
  }

  lemma WholeSlices(s: seq<Req>, r: Req, i: nat)
    requires i <= |s|
    ensures (s + [r])[i..|s| + 1] == s[i..] + [r] && (s + [r])[|s| + 1..] == [] && (s + [r])[..|s| + 1] == s + [r]
    ensures s[..|s|] == s && s[i..|s|] == s[i..]
  {
  }

  lemma SubmitKeepsClosed(p: Pipe, key: string, kind: Kind)
    requires ClosedOk(p) && !p.established
    ensures ClosedOk(ApplySubmit(p, key, kind))
  {
  }

  lemma SubmitKeepsAnswered(p: Pipe, key: string, kind: Kind)
    requires AnsweredOk(p)
    ensures AnsweredOk(ApplySubmit(p, key, kind))
  {
    var q, r := ApplySubmit(p, key, kind), Req(key, kind, |p.submitted|);
    ReqsConcat(p.callbacks, [Callback(r, Refused)]);
    assert forall k :: 0 <= k < p.answered ==> q.callbacks[k] == p.callbacks[k];
    hide Reqs, Fits;
    assert (p.submitted + [r])[..p.answered] == p.submitted[..p.answered];
    assert (p.written + [r])[..p.answered] == p.written[..p.answered];
  }

  lemma SubmitConserves(p: Pipe, key: string, kind: Kind)
    requires Conserved(p)
    ensures Conserved(ApplySubmit(p, key, kind))
  {
    var r := Req(key, kind, |p.submitted|);
    ReqsConcat(p.callbacks, [Callback(r, Refused)]);
    assert Reqs([Callback(r, Refused)]) == [r];
    TimesPush(Reqs(p.callbacks), r);
    TimesPush(p.submitted, r);
    TimesPush(p.late, r);
    TimesPush(p.waiting, r);
    TimesPush(p.sent, r);
    hide Reqs, Times;
  }

  lemma SubmitKeepsInv(p: Pipe, key: string, kind: Kind)
    requires PipeInv(p)
    ensures PipeInv(ApplySubmit(p, key, kind))
  {
    if p.established { SubmitKeepsOpen(p, key, kind); } else { SubmitKeepsClosed(p, key, kind); }
    SubmitKeepsAnswered(p, key, kind);
    SubmitConserves(p, key, kind);
    hide OpenOk, ClosedOk, AnsweredOk, Conserved;
  }

  /** A close only adds cancellations. */
  lemma CloseAdds(p: Pipe)
    ensures var q := ApplyClose(p);
      && p.callbacks <= q.callbacks && Reqs(q.callbacks)[..|p.callbacks|] == Reqs(p.callbacks)
      && (forall k :: |p.callbacks| <= k < |q.callbacks| ==> q.callbacks[k].result.Cancelled?)
  {
  }

  /** Closing only needs the history to be in order; the activity flags may be anything. */
  lemma CloseKeepsInv(p: Pipe)
    requires Numbered(p) && AnsweredOk(p) && Conserved(p)
    requires if p.established then |p.callbacks| == p.answered && p.late == [] && p.closers == [] else ClosedOk(p)
    ensures PipeInv(ApplyClose(p))
  {
    CloseConserves(p);
    CloseKeepsAnswered(p);
    CloseAdds(p);
    hide Reqs, Fits, Cancel, Conserved, AnsweredOk;
  }

  lemma CloseKeepsAnswered(p: Pipe)
    requires AnsweredOk(p)
    ensures AnsweredOk(ApplyClose(p))
  {
    CloseAdds(p);
    var q := ApplyClose(p);
    assert forall k :: 0 <= k < |p.callbacks| ==> q.callbacks[k] == p.callbacks[k];
    hide Reqs, Fits, Cancel;
    assert Reqs(q.callbacks)[..p.answered] == Reqs(q.callbacks)[..|p.callbacks|][..p.answered];
  }

  lemma CloseConserves(p: Pipe)
    requires Conserved(p)
    ensures Conserved(ApplyClose(p))
  {
    ReqsConcat(p.callbacks, Cancel(p.waiting));
    ReqsConcat(p.callbacks + Cancel(p.waiting), Cancel(p.sent));
    ReqsOfCancel(p.waiting);
    ReqsOfCancel(p.sent);
    hide Reqs, Cancel;
    TimesConcat(Reqs(p.callbacks), p.waiting);
    TimesConcat(Reqs(p.callbacks) + p.waiting, p.sent);
    assert forall r :: Times([], r) == 0;
    hide Times;
  }

  lemma WriteDoneKeepsInv(p: Pipe, ok: bool)
    requires PipeInv(p) && p.sendActive
    ensures PipeInv(ApplyWriteDone(p, ok))
  {
    hide Reqs, Fits, Cancel;
    CloseKeepsInv(p.(sendActive := false));
    if ok && p.established && p.waiting != [] {
      SendNextKeepsInv(p);
    }
  }

  lemma SendNextKeepsInv(p: Pipe)
    requires PipeInv(p) && p.established && p.waiting != []
    ensures PipeInv(Send(p, p.waiting[0]).(waiting := p.waiting[1..]))
  {
    SendNextKeepsOpen(p);
    SendNextConserves(p);
    assert (p.written + [p.waiting[0]])[..p.answered] == p.written[..p.answered];
    hide Reqs, Fits, OpenOk, Conserved;
  }

  lemma SendNextKeepsOpen(p: Pipe)
    requires OpenOk(p) && p.waiting != []
    ensures OpenOk(Send(p, p.waiting[0]).(waiting := p.waiting[1..]))
  {
    var n := |p.written|;
    assert p.submitted[p.answered..n + 1] == p.submitted[p.answered..n] + [p.submitted[n]];
    assert p.submitted[..n + 1] == p.submitted[..n] + [p.submitted[n]];
  }

  lemma SendNextConserves(p: Pipe)
    requires Conserved(p) && p.waiting != []
    ensures Conserved(Send(p, p.waiting[0]).(waiting := p.waiting[1..]))
  {
    TimesPop(p.waiting);
    TimesPush(p.sent, p.waiting[0]);
    hide Reqs, Times;
  }

  /** The front requestor is told, and still queued. */
  lemma TellKeepsAnswered(p: Pipe, result: Result)
    requires AnsweredOk(p) && OpenOk(p) && p.sent != [] && Fits(Callback(p.sent[0], result))
    ensures AnsweredOk(p.(callbacks := p.callbacks + [Callback(p.sent[0], result)], answered := p.answered + 1))
  {
    var a, c := p.answered, Callback(p.sent[0], result);
    ReqsConcat(p.callbacks, [c]);
    assert Reqs([c]) == [p.sent[0]] && p.sent[0] == p.submitted[a];
    assert |Reqs(p.callbacks)| == a;
    hide Reqs, Fits;
    assert p.submitted[..a + 1] == p.submitted[..a] + [p.submitted[a]];
    assert p.written[..a + 1] == p.written[..a] + [p.written[a]];
    assert (Reqs(p.callbacks) + [p.sent[0]])[..a + 1] == Reqs(p.callbacks)[..a] + [p.sent[0]];
  }

  lemma TellCounts(p: Pipe, result: Result)
    requires p.sent != []
    ensures forall r :: Times(Reqs(p.callbacks + [Callback(p.sent[0], result)]), r) ==
                        Calls(p, r) + if r == p.sent[0] then 1 else 0
  {
    ReqsConcat(p.callbacks, [Callback(p.sent[0], result)]);
    assert Reqs([Callback(p.sent[0], result)]) == [p.sent[0]];
    TimesPush(Reqs(p.callbacks), p.sent[0]);
    hide Reqs, Times;
  }

  /** The request is dropped once it is told. */
  lemma DropKeepsInv(p: Pipe, told: Pipe)
    requires PipeInv(p) && p.established && p.sent != [] && AnsweredOk(told) && |told.callbacks| == |p.callbacks| + 1
    requires told == p.(callbacks := told.callbacks, answered := p.answered + 1, reading := told.reading)
    requires forall r :: Calls(told, r) == Calls(p, r) + if r == p.sent[0] then 1 else 0
    ensures PipeInv(told.(sent := p.sent[1..]))
  {
    TimesPop(p.sent);
    hide Times, Reqs, Fits;
  }

  lemma AnswerKeepsInv(p: Pipe, result: Result, closes: bool, looks: bool)
    requires PipeInv(p) && p.established && p.sent != [] && Fits(Callback(p.sent[0], result))
    ensures PipeInv(Answer(p, result, closes, looks))
  {
    TellKeepsAnswered(p, result);
    TellCounts(p, result);
    var told := p.(callbacks := p.callbacks + [Callback(p.sent[0], result)], answered := p.answered + 1,
                   reading := ReadingHeader);
    assert AnsweredOk(told);
    hide Times, Fits, AnsweredOk, PipeInv, Reqs;
    if closes {
      CloserKeepsInv(p, told, looks);
    } else {
      DropKeepsInv(p, told);
    }
  }

  lemma CloserKeepsInv(p: Pipe, told: Pipe, looks: bool)
    requires PipeInv(p) && p.established && p.sent != [] && AnsweredOk(told) && |told.callbacks| == |p.callbacks| + 1
    requires told == p.(callbacks := told.callbacks, answered := p.answered + 1, reading := told.reading)
    requires forall r :: Calls(told, r) == Calls(p, r) + if r == p.sent[0] then 1 else 0
    ensures PipeInv(ApplyClose(told).(closers := p.closers + [p.sent[0]], aborted := p.aborted || !looks))
  {
    var early := told.(closers := p.closers + [p.sent[0]], aborted := p.aborted || !looks);
    assert p.sent[0] == p.submitted[p.answered] && p.sent[0].ticket == p.answered;
    CloserConserves(p, early);
    assert AnsweredOk(early) by { hide Conserved, OpenOk, ClosedOk, Fits, Reqs; }
    hide Conserved, AnsweredOk, Reqs, Fits;
    CloseConserves(early);
    CloseKeepsAnswered(early);
    CloseAdds(early);
    hide Cancel;
  }

  lemma CloserConserves(p: Pipe, early: Pipe)
    requires Conserved(p) && p.sent != []
    requires early == p.(callbacks := early.callbacks, answered := early.answered, reading := early.reading,
                         aborted := early.aborted, closers := p.closers + [p.sent[0]])
    requires forall r :: Calls(early, r) == Calls(p, r) + if r == p.sent[0] then 1 else 0
    ensures Conserved(early)
  {
    TimesPush(p.closers, p.sent[0]);
    hide Times, Reqs;
  }

  /** The invariant does not look at which read is in progress, or at a failed assertion. */
  lemma FlagsDoNotMatter(p: Pipe, q: Pipe)
    requires PipeInv(p) && q == p.(reading := q.reading, aborted := q.aborted)
    ensures PipeInv(q)
  {
    hide Reqs, Fits;
  }

  lemma InvCloses(p: Pipe, q: Pipe)
    requires PipeInv(p) && q == p.(reading := q.reading)
    ensures PipeInv(ApplyClose(q))
  {
    FlagsDoNotMatter(p, q);
    CloseKeepsInv(q);
  }

  lemma FrontKeepsInv(p: Pipe, result: Result, closes: bool, looks: bool)
    requires PipeInv(p) && p.established && (p.sent != [] ==> Fits(Callback(p.sent[0], result)))
    ensures PipeInv(Answer(p, result, closes, looks))
  {
    hide PipeInv, Fits;
    if p.sent == [] {
      FlagsDoNotMatter(p, p.(aborted := true));
    } else {
      AnswerKeepsInv(p, result, closes, looks);
    }
  }

  lemma HeaderKeepsInv(p: Pipe, ok: bool, h: Header, closes: bool)
    requires PipeInv(p) && Enabled(p, HeaderRead(ok, h, closes))
    ensures PipeInv(ApplyHeaderRead(p, ok, h, closes))
  {
    hide PipeInv, Fits, ApplyClose, Answer;
    var q := p.(reading := NotReading);
    InvCloses(p, q);
    if ok {
      FlagsDoNotMatter(p, q);
      FlagsDoNotMatter(p, p.(reading := ReadingBody(true)));
      FlagsDoNotMatter(p, p.(reading := ReadingBody(false)));
      RefusalFits(q);
      FrontKeepsInv(q, Refused, closes, false);
    }
  }

  lemma RefusalFits(p: Pipe)
    ensures p.sent != [] ==> Fits(Callback(p.sent[0], Refused))
  {
  }

  lemma BodyKeepsInv(p: Pipe, ok: bool, body: seq<byte>, closes: bool)
    requires PipeInv(p) && Enabled(p, BodyRead(ok, body, closes))
    ensures PipeInv(ApplyBodyRead(p, ok, body, closes))
  {
    hide PipeInv, Fits, ApplyClose, Answer, Outcome;
    var q := p.(reading := NotReading);
    InvCloses(p, q);
    if ok {
      FlagsDoNotMatter(p, q);
      FlagsDoNotMatter(p, q.(aborted := true));
      RefusalFits(q);
      FrontKeepsInv(q, Refused, closes, false);
      if p.sent != [] && Outcome(p.sent[0], body).Some? {
        OutcomeFits(p.sent[0], body);
        FrontKeepsInv(q, Outcome(p.sent[0], body).value, closes, true);
      }
    }
  }

  lemma OutcomeFits(r: Req, body: seq<byte>)
    requires Outcome(r, body).Some?
    ensures Fits(Callback(r, Outcome(r, body).value))
  {
    hide BodyUuid;
  }

  /** The event completes a response, which belongs to the front requestor. */
  predicate Completes(p: Pipe, e: Event) {
    match e
    case HeaderRead(ok, h, _) => ok && h.Head? && (h.code == NOTFOUND || h.code == ERROR) && h.size == 0
    case BodyRead(ok, body, _) => ok && (p.reading == ReadingBody(true) || body != [])
    case _ => false
  }

  /** The response is a refusal, and the callback it causes closes the connection. */
  predicate RefusedAndCloses(p: Pipe, e: Event) {
    match e
    case HeaderRead(_, _, closes) => closes
    case BodyRead(_, _, closes) => closes && p.reading == ReadingBody(false)
    case _ => false
  }

  /**
   An assertion that a request is waiting fails, or an empty queue is popped, if and only if a
   response is completed after every request written has had its own, or a refusal is
   completed whose callback closes the connection.
   */
  lemma BreaksIff(p: Pipe, e: Event)
    requires PipeInv(p) && Enabled(p, e)
    ensures Apply(p, e).aborted <==> Completes(p, e) && (p.answered == |p.written| || RefusedAndCloses(p, e))
  {
    hide Reqs, Fits, Outcome, Cancel, Numbered, AnsweredOk, Conserved, ClosedOk;
    assert p.established ==> (p.sent == [] <==> p.answered == |p.written|);
  }

  lemma StepKeepsInv(p: Pipe, e: Event)
    requires PipeInv(p) && Enabled(p, e)
    ensures PipeInv(Apply(p, e))
  {
    match e
    case Submit(key, kind) => SubmitKeepsInv(p, key, kind);
    case WriteDone(ok) => WriteDoneKeepsInv(p, ok);
    case HeaderRead(ok, h, closes) => HeaderKeepsInv(p, ok, h, closes);
    case BodyRead(ok, body, closes) => BodyKeepsInv(p, ok, body, closes);
    case CloseNow => InvCloses(p, p);
  }

  // ----- over every run -----

  predicate Possible(p: Pipe, es: seq<Event>)
    decreases |es|
  {
    es == [] || (Enabled(p, es[0]) && Possible(Apply(p, es[0]), es[1..]))
  }

  function Run(p: Pipe, es: seq<Event>): Pipe
    requires Possible(p, es)
    decreases |es|
  {
    if es == [] then p else Run(Apply(p, es[0]), es[1..])
  }

  lemma {:induction false} RunKeepsInv(p: Pipe, es: seq<Event>)
    requires PipeInv(p) && Possible(p, es)
    ensures PipeInv(Run(p, es))
    decreases |es|
  {
    hide PipeInv, Apply, Enabled;
    if es != [] {
      StepKeepsInv(p, es[0]);
      RunKeepsInv(Apply(p, es[0]), es[1..]);
    }
  }

  lemma ConnectedIsInv()
    ensures PipeInv(CONNECTED)
  {
  }

  /** It was submitted to a closed connection, or its own callback closed it. */
  predicate Unlucky(p: Pipe, r: Req) {
    r in p.late || r in p.closers
  }

  lemma DistinctOnce(rs: seq<Req>, r: Req)
    requires forall i, j :: 0 <= i < j < |rs| ==> rs[i] != rs[j]
    ensures Times(rs, r) == if r in rs then 1 else 0
  {
    if r in rs {
      var i :| 0 <= i < |rs| && rs[i] == r;
      assert rs == rs[..i] + [r] + rs[i + 1..];
    }
  }

  lemma UnluckyOnce(p: Pipe, r: Req)
    requires PipeInv(p)
    ensures Times(p.late, r) + Times(p.closers, r) == if Unlucky(p, r) then 1 else 0
  {
    hide Reqs, Fits, AnsweredOk, Conserved;
    DistinctOnce(p.late, r);
    DistinctOnce(p.closers, r);
  }

  /**
   Exactly once.  In every run from a fresh connection a request is called back, or still
   queued for it, exactly once if it was submitted to an open connection and its own callback
   does not close it, and exactly twice otherwise.  Once the connection is closed, only late
   requests are queued; the next close settles those.
   */
  lemma ExactlyOnce(es: seq<Event>, t: nat)
    requires Possible(CONNECTED, es) && t < |Run(CONNECTED, es).submitted|
    ensures var p := Run(CONNECTED, es);
      var r := p.submitted[t];
      && Calls(p, r) + Queued(p, r) == (if Unlucky(p, r) then 2 else 1)
      && (!p.established && r !in p.late ==> Queued(p, r) == 0)
      && Calls(ApplyClose(p), r) == if Unlucky(p, r) then 2 else 1
  {
    hide Possible, Run;
    ConnectedIsInv();
    RunKeepsInv(CONNECTED, es);
    var p := Run(CONNECTED, es);
    var r := p.submitted[t];
    CallsSettle(p, r);
    assert !p.established && r !in p.late ==> r !in p.waiting && r !in p.sent;
    UnluckyOnce(p, r);
    UnluckyOnce(ApplyClose(p), r);
    assert Unlucky(ApplyClose(p), r) == Unlucky(p, r);
  }

  lemma CallsSettle(p: Pipe, r: Req)
    requires PipeInv(p) && r in p.submitted
    ensures PipeInv(ApplyClose(p)) && Queued(ApplyClose(p), r) == 0
    ensures Calls(p, r) + Queued(p, r) == 1 + Times(p.late, r) + Times(p.closers, r)
    ensures Calls(ApplyClose(p), r) == 1 + Times(p.late, r) + Times(p.closers, r)
  {
    InvCloses(p, p);
    DistinctOnce(p.submitted, r);
    CloseConserves(p);
    var q := ApplyClose(p);
    assert q.waiting == [] && q.sent == [] && q.late == p.late && q.closers == p.closers && q.submitted == p.submitted;
    assert Times([], r) == 0;
    hide Reqs, Fits, AnsweredOk, Cancel, OpenOk, ClosedOk, ApplyClose, Times;
  }

  /** A callback that closes the connection has its own request cancelled: it is called a second time. */
  lemma ClosingCallbackIsCalledTwice(p: Pipe)
    requires PipeInv(p) && Enabled(p, HeaderRead(true, Head(NOTFOUND, 0), true)) && p.sent != []
    ensures var q := Apply(p, HeaderRead(true, Head(NOTFOUND, 0), true));
      && q.callbacks == p.callbacks + [Callback(p.sent[0], Refused)] + Cancel(p.waiting) + Cancel(p.sent)
      && Calls(q, p.sent[0]) == 2 && q.aborted
  {
    var e := HeaderRead(true, Head(NOTFOUND, 0), true);
    var q, r := Apply(p, e), p.sent[0];
    StepKeepsInv(p, e);
    ClosingShape(p);
    hide Apply, Enabled, Cancel, PipeInv;
    assert r in p.submitted && p.late == [] && p.closers == [] by { FrontIsSubmitted(p); }
    CallsSettle(q, r);
    TimesOne(r);
    hide Times, Reqs;
  }

  lemma FrontIsSubmitted(p: Pipe)
    requires PipeInv(p) && p.established && p.sent != []
    ensures p.sent[0] in p.submitted && p.late == [] && p.closers == []
  {
    hide Numbered, AnsweredOk, Conserved;
    assert p.sent[0] == p.submitted[p.answered];
  }

  lemma ClosingShape(p: Pipe)
    requires Enabled(p, HeaderRead(true, Head(NOTFOUND, 0), true)) && p.sent != []
    ensures var q := Apply(p, HeaderRead(true, Head(NOTFOUND, 0), true));
      && q.callbacks == p.callbacks + [Callback(p.sent[0], Refused)] + Cancel(p.waiting) + Cancel(p.sent)
      && q.aborted && q.submitted == p.submitted && q.late == p.late && q.closers == p.closers + [p.sent[0]]
      && q.waiting == [] && q.sent == []
  {
    hide Cancel;
  }

  /** The k-th response goes to the k-th request written, and requests are written in submission order. */
  lemma InOrder(es: seq<Event>, k: nat)
    requires Possible(CONNECTED, es) && k < Run(CONNECTED, es).answered
    ensures var p := Run(CONNECTED, es);
      && k < |p.callbacks| && k < |p.written| && k < |p.submitted|
      && p.callbacks[k].req == p.written[k] == p.submitted[k] && p.written[k].ticket == k && Fits(p.callbacks[k])
  {
    ConnectedIsInv();
    RunKeepsInv(CONNECTED, es);
    hide Fits, Conserved, OpenOk, ClosedOk;
    var p := Run(CONNECTED, es);
    assert Reqs(p.callbacks)[..p.answered][k] == p.callbacks[k].req;
    assert p.written[..p.answered][k] == p.written[k] && p.submitted[..p.answered][k] == p.submitted[k];
  }

  /**
   While open, requests wait only behind a write in progress; the close of an open connection
   cancels exactly the unanswered ones: the ones never written first, then the written ones.
   */
  lemma CloseCancelsTheRest(es: seq<Event>)
    requires Possible(CONNECTED, es)
    ensures var p := Run(CONNECTED, es);
      p.established ==>
        var a, n := p.answered, |p.written|;
        && (p.waiting != [] ==> p.sendActive)
        && a <= n <= |p.submitted| && p.written == p.submitted[..n]
        && Reqs(p.callbacks) == p.submitted[..a]
        && ApplyClose(p).callbacks == p.callbacks + Cancel(p.submitted[n..]) + Cancel(p.submitted[a..n])
  {
    ConnectedIsInv();
    RunKeepsInv(CONNECTED, es);
    hide Fits, Conserved, ClosedOk, Cancel;
    var p := Run(CONNECTED, es);
    if p.established {
      assert |Reqs(p.callbacks)| == p.answered && Reqs(p.callbacks)[..p.answered] == Reqs(p.callbacks);
    }
  }

  // ----- the object -----

  class RemoteAssetService {
    var established: bool                // _assetConnectionEstablished
    var sendActive: bool                 // _sendActive
    var reading: Reading                 // _recvActive, and which read it is
    var transferRequestQueue: seq<Req>
    var assetCallbackQueue: seq<Req>
    var callbacks: seq<Callback>         // the callbacks made so far
    ghost var submitted: seq<Req>
    ghost var written: seq<Req>
    ghost var answered: nat
    ghost var late: seq<Req>
    ghost var closers: seq<Req>
    var aborted: bool                    // an assertion has failed, or an empty queue was popped
    var nextTicket: nat

    ghost predicate Valid()
      reads this
    {
      nextTicket == |submitted|
    }

    ghost function View(): Pipe
      reads this
    {
      Pipe(established, sendActive, reading, transferRequestQueue, assetCallbackQueue,
           submitted, written, callbacks, answered, late, closers, aborted)
    }

    constructor ()
      ensures Valid() && View() == CONNECTED
    {
      established, sendActive, reading := true, false, ReadingHeader;
      transferRequestQueue, assetCallbackQueue, callbacks := [], [], [];
      submitted, written, answered, late, closers := [], [], 0, [], [];
      aborted, nextTicket := false, 0;
    }

    method SendRequest(r: Req)
      modifies this
      ensures View() == Send(old(View()), r) && nextTicket == old(nextTicket)
    {
      sendActive := true;
      written := written + [r];
      assetCallbackQueue := assetCallbackQueue + [r];
    }

    method SubmitRequest(key: string, kind: Kind)
      requires Valid()
      modifies this
      ensures Valid() && View() == ApplySubmit(old(View()), key, kind)
    {
      var r := Req(key, kind, nextTicket);
      if !established {
        callbacks := callbacks + [Callback(r, Refused)];
        late := late + [r];
      }
      submitted := submitted + [r];
      nextTicket := nextTicket + 1;
      if !sendActive {
        SendRequest(r);
      } else {
        transferRequestQueue := transferRequestQueue + [r];
      }
    }

    method OnAfterWriteAssetRequest(ok: bool)
      requires Valid()
      modifies this
      ensures Valid() && View() == ApplyWriteDone(old(View()), ok)
    {
      sendActive := false;
      if ok {
        if established && transferRequestQueue != [] {
          SendRequest(transferRequestQueue[0]);
          transferRequestQueue := transferRequestQueue[1..];
        }
      } else {
        Close();
      }
    }

    method CancelWaiting()
      requires Valid()
      modifies `transferRequestQueue, `callbacks
      ensures transferRequestQueue == [] && callbacks == old(callbacks) + Cancel(old(transferRequestQueue))
    {
      ghost var w, i := transferRequestQueue, 0;
      while transferRequestQueue != []
        invariant 0 <= i <= |w| && transferRequestQueue == w[i..] && callbacks == old(callbacks) + Cancel(w[..i])
        decreases |transferRequestQueue|
      {
        callbacks := callbacks + [Callback(transferRequestQueue[0], Cancelled)];
        transferRequestQueue := transferRequestQueue[1..];
        assert Cancel(w[..i + 1]) == Cancel(w[..i]) + [Callback(w[i], Cancelled)];
        i := i + 1;
      }
      assert w[..i] == w;
    }

    method CancelSent()
      requires Valid()
      modifies `assetCallbackQueue, `callbacks
      ensures assetCallbackQueue == [] && callbacks == old(callbacks) + Cancel(old(assetCallbackQueue))
    {
      ghost var s, i := assetCallbackQueue, 0;
      while assetCallbackQueue != []
        invariant 0 <= i <= |s| && assetCallbackQueue == s[i..] && callbacks == old(callbacks) + Cancel(s[..i])
        decreases |assetCallbackQueue|
      {
        callbacks := callbacks + [Callback(assetCallbackQueue[0], Cancelled)];
        assetCallbackQueue := assetCallbackQueue[1..];
        assert Cancel(s[..i + 1]) == Cancel(s[..i]) + [Callback(s[i], Cancelled)];
        i := i + 1;
      }
      assert s[..i] == s;
    }

    /** close: two draining loops. */
    method Close()
      requires Valid()
      modifies this
      ensures Valid() && View() == ApplyClose(old(View()))
    {
      established := false;
      CancelWaiting();
      CancelSent();
    }

    /** pop, after a look at the queue or not. */
    method PopFront(looks: bool)
      requires Valid()
      modifies `assetCallbackQueue, `aborted
      ensures old(assetCallbackQueue) == [] ==> assetCallbackQueue == [] && aborted == (old(aborted) || !looks)
      ensures old(assetCallbackQueue) != [] ==>
        assetCallbackQueue == old(assetCallbackQueue)[1..] && aborted == old(aborted)
    {
      if assetCallbackQueue != [] {
        assetCallbackQueue := assetCallbackQueue[1..];
      } else if !looks {
        aborted := true;
      }
    }

    /** The front requestor's callback, which may close the connection. */
    method CallFront(result: Result, closes: bool)
      requires Valid() && assetCallbackQueue != []
      modifies this
      ensures Valid()
      ensures var p := old(View());
        var told := p.(callbacks := p.callbacks + [Callback(p.sent[0], result)], answered := p.answered + 1);
        View() == if closes then ApplyClose(told).(closers := p.closers + [p.sent[0]]) else told
    {
      hide Cancel;
      var req := assetCallbackQueue[0];
      callbacks := callbacks + [Callback(req, result)];
      answered := answered + 1;
      if closes {
        Close();
        closers := closers + [req];
      }
    }

    /** The assertion, the callback, the pop, and listenForServerResponses. */
    method AnswerFront(result: Result, closes: bool, looks: bool)
      requires Valid()
      modifies this
      ensures Valid() && View() == Answer(old(View()), result, closes, looks)
    {
      hide Cancel;
      if assetCallbackQueue == [] {
        aborted := true;
        return;
      }
      CallFront(result, closes);
      PopFront(looks);
      reading := ReadingHeader;
    }

    method OnReadResponseHeader(ok: bool, h: Header, closes: bool)
      requires Valid()
      modifies this
      ensures Valid() && View() == ApplyHeaderRead(old(View()), ok, h, closes)
    {
      reading := NotReading;
      if !ok || h.Corrupt? {
        Close();
      } else if h.code == FOUND || h.code == OK {
        reading := ReadingBody(true);
      } else if h.size > 0 {
        reading := ReadingBody(false);
      } else {
        AnswerFront(Refused, closes, false);
      }
    }

    method OnReadResponseData(ok: bool, body: seq<byte>, closes: bool)
      requires Valid() && reading == ReadingBody(true)
      modifies this
      ensures Valid() && View() == ApplyBodyRead(old(View()), ok, body, closes)
    {
      reading := NotReading;
      if !ok || !established {
        Close();
        return;
      }
      if assetCallbackQueue == [] {
        aborted := true;
        return;
      }
      match Outcome(assetCallbackQueue[0], body)
      case Some(result) => AnswerFront(result, closes, true);
      case None => Close();
    }

    method OnHandleRequestErrorData(ok: bool, body: seq<byte>, closes: bool)
      requires Valid() && reading == ReadingBody(false)
      modifies this
      ensures Valid() && View() == ApplyBodyRead(old(View()), ok, body, closes)
    {
      reading := NotReading;
      if ok && body != [] {
        AnswerFront(Refused, closes, false);
      } else {
        Close();
      }
    }
  }
}

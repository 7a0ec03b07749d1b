/**
 What clients of the storage protocol can count on, over every run of it: an honest
 not-found answer, globals that no purge can harm, reads that see accepted writes, and
 one reply per request.
 */
module VfsGuarantees {
  import opened Assets
  import opened VfsProtocol

  // ----- what the index promises -----

  /** What the index files and data files hold at start-up, rows at the invalid position included. */
  datatype Files = Files(globals: map<Id, Asset>, locals: map<Id, Asset>, lostGlobals: set<Id>, lostLocals: set<Id>)

  /** Every id has one row, of its own kind. */
  ghost predicate Sound(d: Files) {
    && (forall x :: x in d.globals ==> Uuid(d.globals[x]) == x && !IsLocal(d.globals[x]))
    && (forall x :: x in d.locals ==> Uuid(d.locals[x]) == x && IsLocal(d.locals[x]))
    && (forall x :: x in d.lostLocals ==> IsId(x))
    && d.globals.Keys !! d.locals.Keys !! d.lostGlobals !! d.lostLocals
  }

  /** The state after start-up: every row is loaded into the index. */
  function Loaded(d: Files): State {
    State(d.globals.Keys + d.locals.Keys + d.lostGlobals + d.lostLocals, [], [],
          d.globals, d.locals, d.lostGlobals, d.lostLocals, [], 0)
  }

  lemma LoadedIsInv(d: Files)
    requires Sound(d)
    ensures Inv(Loaded(d)) && Ledger(Loaded(d))
  {
    hide Uuid, Prefix, IsLocal, IsId;
  }

  /**
   In every reachable state each id that has a row or waits in a queued put is in the index,
   except a local whose deletion is queued ahead of every purge of its prefix.
   */
  lemma IndexIsSound(d: Files, es: seq<Event>)
    requires Sound(d) && OrderlyRun(Loaded(d), es)
    ensures var s := Run(Loaded(d), es);
      && (forall id :: id in GlobalRows(s) ==> id in s.index)
      && (forall id :: id in LocalRows(s) ==> id in s.index || Doomed(s.work, Prefix(id)))
      && (forall i: nat :: i < |s.work| && s.work[i].Put? ==> Uuid(s.work[i].asset) in s.index)
  {
    LoadedIsInv(d);
    RunKeepsInv(Loaded(d), es);
    hide Run, OrderlyRun, Uuid, Prefix, IsLocal, Doomed;
    var s := Run(Loaded(d), es);
    assert forall i: nat :: i < |s.work| && s.work[i].Put? ==> PutOk(s, i);
    assert forall id :: id in LocalRows(s) ==> Live(s, id) || Doomed(s.work, Prefix(id));
  }

  /** The worker's turns, with the outcomes they have. */
  function Turns(outcomes: seq<Outcome>): seq<Event> {
    seq(|outcomes|, i requires 0 <= i < |outcomes| => Work(outcomes[i]))
  }

  /** The worker takes one request a turn, and never touches the index. */
  lemma {:induction false} TurnsDrain(s: State, outcomes: seq<Outcome>)
    requires OrderlyRun(s, Turns(outcomes))
    ensures var t := Run(s, Turns(outcomes)); |t.work| == |s.work| - |outcomes| && t.index == s.index
    decreases |outcomes|
  {
    hide Uuid, Prefix, IsLocal, Lookup, HarmfulFailure;
    if outcomes != [] {
      var s' := Apply(s, Work(outcomes[0]));
      assert Turns(outcomes)[0] == Work(outcomes[0]) && Turns(outcomes)[1..] == Turns(outcomes[1..]);
      assert |s'.work| == |s.work| - 1 && s'.index == s.index;
      hide Apply;
      TurnsDrain(s', outcomes[1..]);
    }
  }

  /** The not-found shortcut never hides an asset that the drained queue would serve. */
  lemma NotFoundIsHonest(s: State, outcomes: seq<Outcome>, id: Id)
    requires Inv(s) && |outcomes| == |s.work| && OrderlyRun(s, Turns(outcomes)) && id !in s.index
    ensures Lookup(Run(s, Turns(outcomes)), id) == []
  {
    hide Inv, OrderlyRun, Run, Prefix;
    var t := Run(s, Turns(outcomes));
    TurnsDrain(s, outcomes);
    RunKeepsInv(s, Turns(outcomes));
    NotIndexedMeansFree(t, id);
    assert t.work == [] && !Live(t, id);
  }

  /** Whatever else happens, purges included, a stored global keeps its bytes and its index entry. */
  lemma {:induction false} GlobalsAreForever(s: State, es: seq<Event>, id: Id)
    requires Inv(s) && OrderlyRun(s, es) && id in s.globals
    ensures var t := Run(s, es); Lookup(t, id) == [s.globals[id]] && id in t.globals && id in t.index
    decreases |es|
  {
    hide Uuid, Prefix, IsLocal, PutsOk, PurgesOk, FailuresOk, Doomed, Harmful, HarmfulFailure;
    if es != [] {
      StepKeepsInv(s, es[0]);
      var s' := Apply(s, es[0]);
      assert id in s'.globals && s'.globals[id] == s.globals[id];
      GlobalsAreForever(s', es[1..], id);
    }
  }

  // ----- the duplicate error -----

  /** A queued put of an id that has a row has the deletion of that row ahead of it. */
  ghost predicate RowsMakeWay(s: State) {
    forall i: nat :: i < |s.work| && s.work[i].Put? && Uuid(s.work[i].asset) in LocalRows(s) ==>
      DeletedBetween(s.work, Prefix(Uuid(s.work[i].asset)), 0, i)
  }

  predicate DeletionSucceeds(s: State, e: Event) {
    e.Work? && s.work != [] && s.work[0].DeleteLocals? ==> e.outcome == Fine
  }

  predicate DeletionsSucceed(s: State, es: seq<Event>)
    requires Possible(s, es)
    decreases |es|
  {
    es == [] || (DeletionSucceeds(s, es[0]) && DeletionsSucceed(Apply(s, es[0]), es[1..]))
  }

  lemma QueueingMakesWay(s: State, s': State)
    requires RowsMakeWay(s) && LocalRows(s') == LocalRows(s) && s.work <= s'.work && |s'.work| <= |s.work| + 1
    requires |s'.work| > |s.work| && s'.work[|s.work|].Put? ==> !Live(s, Uuid(s'.work[|s.work|].asset))
    ensures RowsMakeWay(s')
  {
    if |s'.work| > |s.work| {
      assert s'.work == s.work + [s'.work[|s.work|]];
      PushDeletes(s.work, s'.work[|s.work|]);
    }
    assert forall p :: Doomed(s.work, p) ==> DeletedBetween(s.work, p, 0, |s.work|);
    hide Uuid, Prefix, DeletedBetween, Doomed, LocalRows;
  }

  lemma WorkMakesWay(s: State, outcome: Outcome)
    requires Inv(s) && RowsMakeWay(s) && s.work != [] && DeletionSucceeds(s, Work(outcome))
    ensures RowsMakeWay(ApplyWork(s, outcome))
  {
    PopDeletes(s.work);
    hide Uuid, Prefix, IsLocal, DeletedBetween, Doomed, DisksOk, RowsOk, PurgesOk, SnapshotsOk, FailuresOk, PutOk;
    var s' := ApplyWork(s, outcome);
    forall i: nat | i < |s'.work| && s'.work[i].Put? && Uuid(s'.work[i].asset) in LocalRows(s')
      ensures DeletedBetween(s'.work, Prefix(Uuid(s'.work[i].asset)), 0, i)
    {
      assert s'.work[i] == s.work[i + 1];
      assert s.work[0].Put? ==> Uuid(s.work[0].asset) != Uuid(s.work[i + 1].asset);
    }
  }

  lemma StepMakesWay(s: State, e: Event)
    requires Inv(s) && RowsMakeWay(s) && Orderly(s, e) && DeletionSucceeds(s, e)
    ensures RowsMakeWay(Apply(s, e))
  {
    hide Inv, RowsMakeWay, Uuid, Prefix, IsLocal, Live, Harmful, HarmfulFailure;
    match e
    case Work(outcome) => WorkMakesWay(s, outcome);
    case AskPut(a) =>
      if Uuid(a) !in s.index { NotIndexedMeansFree(s, Uuid(a)); }
      QueueingMakesWay(s, Apply(s, e));
    case _ => QueueingMakesWay(s, Apply(s, e));
  }

  /** In every run in which deletions succeed, no put finds its id stored: the duplicate error is dead code. */
  lemma {:induction false} NoDuplicates(s: State, es: seq<Event>)
    requires Inv(s) && RowsMakeWay(s) && OrderlyRun(s, es) && DeletionsSucceed(s, es)
    ensures var t := Run(s, es); t.work != [] && t.work[0].Put? ==>
      var a := t.work[0].asset;
      && Uuid(a) !in LocalRows(t) && Uuid(a) !in GlobalRows(t)
      && ApplyWork(t, Fine).replies == t.replies + [Stored(Uuid(a), t.work[0].tag)]
    decreases |es|
  {
    if es != [] {
      hide Inv, RowsMakeWay, Apply, Harmful, HarmfulFailure;
      StepKeepsInv(s, es[0]);
      StepMakesWay(s, es[0]);
      NoDuplicates(Apply(s, es[0]), es[1..]);
    } else if s.work != [] && s.work[0].Put? {
      assert PutOk(s, 0) && !DeletedBetween(s.work, Prefix(Uuid(s.work[0].asset)), 0, 0);
      hide Inv, Uuid, Prefix, IsLocal, DeletedBetween;
    }
  }

  // ----- one reply per request -----

  function TagOf(r: Request): seq<nat> {
    match r
    case Put(_, tag) => [tag]
    case Get(_, tag) => [tag]
    case _ => []
  }

  function WorkTags(work: seq<Request>): seq<nat> {
    if work == [] then [] else WorkTags(work[..|work| - 1]) + TagOf(work[|work| - 1])
  }

  function ReplyTags(replies: seq<Reply>): seq<nat> {
    seq(|replies|, i requires 0 <= i < |replies| => replies[i].tag)
  }

  /** The tags 0 .. n-1, each once. */
  function Issued(n: nat): multiset<nat> {
    if n == 0 then multiset{} else Issued(n - 1) + multiset{n - 1}
  }

  lemma {:induction false} IssuedOnce(n: nat, tag: nat)
    ensures Issued(n)[tag] == if tag < n then 1 else 0
  {
    if n > 0 { IssuedOnce(n - 1, tag); }
  }

  /** Every tag given out is on exactly one queued request or exactly one reply. */
  ghost predicate Ledger(s: State) {
    multiset(ReplyTags(s.replies)) + multiset(WorkTags(s.work)) == Issued(s.nextTag)
  }

  lemma {:induction false} PopTags(work: seq<Request>)
    requires work != []
    ensures WorkTags(work) == TagOf(work[0]) + WorkTags(work[1..])
  {
    if |work| > 1 {
      PopTags(work[..|work| - 1]);
      assert work[1..][..|work| - 2] == work[..|work| - 1][1..];
    }
  }

  lemma PushTags(work: seq<Request>, r: Request)
    ensures WorkTags(work + [r]) == WorkTags(work) + TagOf(r)
  {
    assert (work + [r])[..|work|] == work;
  }

  lemma ReplyTagsNext(replies: seq<Reply>, r: Reply)
    ensures ReplyTags(replies + [r]) == ReplyTags(replies) + [r.tag]
  {
  }

  /** The worker takes the front request; a tagged one gets its reply. */
  ghost predicate Serves(s: State, s': State) {
    && s.work != [] && s'.work == s.work[1..] && s'.nextTag == s.nextTag
    && (if TagOf(s.work[0]) == [] then s'.replies == s.replies
        else exists r: Reply :: s'.replies == s.replies + [r] && TagOf(s.work[0]) == [r.tag])
  }

  /** A request is queued, with the next tag if it has one. */
  ghost predicate Queues(s: State, s': State) {
    exists r: Request :: s'.work == s.work + [r] && s'.replies == s.replies
      && (if TagOf(r) == [] then s'.nextTag == s.nextTag else s'.nextTag == s.nextTag + 1 && TagOf(r) == [s.nextTag])
  }

  /** A request is answered at once, with the next tag. */
  ghost predicate Answers(s: State, s': State) {
    s'.work == s.work && s'.nextTag == s.nextTag + 1
    && exists r: Reply :: s'.replies == s.replies + [r] && r.tag == s.nextTag
  }

  lemma StepShape(s: State, e: Event)
    requires Enabled(s, e)
    ensures var s' := Apply(s, e);
      Serves(s, s') || Queues(s, s') || Answers(s, s')
      || (s'.work == s.work && s'.replies == s.replies && s'.nextTag == s.nextTag)
  {
    hide Uuid, Prefix, IsLocal, Lookup;
    var s' := Apply(s, e);
    if |s'.replies| > |s.replies| {
      assert s'.replies == s.replies + [s'.replies[|s.replies|]];
    }
    if |s'.work| > |s.work| {
      assert s'.work == s.work + [s'.work[|s.work|]];
    }
  }

  lemma ServesKeepsLedger(s: State, s': State)
    requires Ledger(s) && Serves(s, s')
    ensures Ledger(s')
  {
    hide ReplyTags, WorkTags, TagOf;
    PopTags(s.work);
    if TagOf(s.work[0]) != [] {
      var r: Reply :| s'.replies == s.replies + [r] && TagOf(s.work[0]) == [r.tag];
      ReplyTagsNext(s.replies, r);
    }
  }

  lemma QueuesKeepsLedger(s: State, s': State)
    requires Ledger(s) && Queues(s, s')
    ensures Ledger(s')
  {
    hide ReplyTags, WorkTags, TagOf;
    var r: Request :| s'.work == s.work + [r]
      && (if TagOf(r) == [] then s'.nextTag == s.nextTag else s'.nextTag == s.nextTag + 1 && TagOf(r) == [s.nextTag]);
    PushTags(s.work, r);
  }

  lemma AnswersKeepsLedger(s: State, s': State)
    requires Ledger(s) && Answers(s, s')
    ensures Ledger(s')
  {
    hide ReplyTags, WorkTags, TagOf;
    var r: Reply :| s'.replies == s.replies + [r] && r.tag == s.nextTag;
    ReplyTagsNext(s.replies, r);
  }

  lemma StepKeepsLedger(s: State, e: Event)
    requires Enabled(s, e) && Ledger(s)
    ensures Ledger(Apply(s, e))
  {
    hide Apply, Serves, Queues, Answers, ReplyTags, WorkTags;
    StepShape(s, e);
    var s' := Apply(s, e);
    if Serves(s, s') {
      ServesKeepsLedger(s, s');
    } else if Queues(s, s') {
      QueuesKeepsLedger(s, s');
    } else if Answers(s, s') {
      AnswersKeepsLedger(s, s');
    }
  }

  lemma LedgerMeansOnce(s: State, tag: nat)
    requires Ledger(s)
    ensures multiset(ReplyTags(s.replies))[tag] <= 1
    ensures multiset(ReplyTags(s.replies))[tag] + multiset(WorkTags(s.work))[tag] == if tag < s.nextTag then 1 else 0
  {
    IssuedOnce(s.nextTag, tag);
  }

  lemma EmptyQueueLedger(s: State)
    requires Ledger(s)
    ensures s.work == [] ==> multiset(ReplyTags(s.replies)) == Issued(s.nextTag)
  {
  }

  /** In every run, a request is answered at most once, and exactly once when the queue is empty. */
  lemma {:induction false} OneReplyEach(s: State, es: seq<Event>)
    requires Possible(s, es) && Ledger(s)
    ensures Ledger(Run(s, es))
    ensures forall tag: nat :: multiset(ReplyTags(Run(s, es).replies))[tag] <= 1
    ensures Run(s, es).work == [] ==>
      multiset(ReplyTags(Run(s, es).replies)) == Issued(Run(s, es).nextTag)
    decreases |es|
  {
    hide Apply, Harmful, Ledger, ReplyTags, Issued;
    if es != [] {
      StepKeepsLedger(s, es[0]);
      OneReplyEach(Apply(s, es[0]), es[1..]);
    } else {
      forall tag: nat
        ensures multiset(ReplyTags(s.replies))[tag] <= 1
      {
        LedgerMeansOnce(s, tag);
      }
      EmptyQueueLedger(s);
    }
  }

  lemma {:induction false} QueuedTagsAreOld(s: State, j: nat)
    requires Ledger(s) && j < |s.work| && s.work[j].Get?
    ensures s.work[j].tag < s.nextTag
  {
    TagIsCounted(s.work, j);
    assert s.work[j].tag in multiset(WorkTags(s.work));
    IssuedOnce(s.nextTag, s.work[j].tag);
  }

  lemma {:induction false} TagIsCounted(work: seq<Request>, j: nat)
    requires j < |work| && work[j].Get?
    ensures work[j].tag in WorkTags(work)
  {
    if j < |work| - 1 {
      TagIsCounted(work[..|work| - 1], j);
    }
  }

  // ----- read your writes -----

  /** The put of an asset is at place i of the queue, ahead of every get tagged t0 or later. */
  ghost predicate PendingAt(s: State, a: Asset, t0: nat, i: nat) {
    && i < |s.work| && s.work[i].Put? && s.work[i].asset == a
    && (forall j :: 0 <= j < i && s.work[j].Get? && s.work[j].id == Uuid(a) ==> s.work[j].tag < t0)
    && (IsLocal(a) ==> DeleteLocals(Prefix(Uuid(a))) !in s.work[i..])
  }

  ghost predicate OnDisk(s: State, a: Asset) {
    && Lookup(s, Uuid(a)) == [a]
    && (IsLocal(a) ==> DeleteLocals(Prefix(Uuid(a))) !in s.work)
  }

  /** The asset was accepted before tag t0 was given out, and is on its way to disk or there. */
  ghost predicate Accepted(s: State, a: Asset, t0: nat) {
    && Uuid(a) in s.index && WriteFailed(Uuid(a)) !in s.posted
    && t0 <= s.nextTag
    && (IsLocal(a) ==> !PurgeStarting(s, Prefix(Uuid(a))))
    && (OnDisk(s, a) || exists i: nat :: PendingAt(s, a, t0, i))
  }

  /** The step is neither the failing write of this very asset nor a purge of its prefix that concerns it. */
  predicate Spares(s: State, e: Event, a: Asset) {
    && (e.Work? && s.work != [] && s.work[0].Put? && Uuid(s.work[0].asset) == Uuid(a) ==> e.outcome == Fine)
    && (IsLocal(a) ==> e != AskPurge(Prefix(Uuid(a))))
  }

  predicate SparesAll(s: State, es: seq<Event>, a: Asset)
    requires Possible(s, es)
    decreases |es|
  {
    es == [] || (Spares(s, es[0], a) && SparesAll(Apply(s, es[0]), es[1..], a))
  }

  /** A reply to a get of the asset's id tagged t0 or later carries exactly the asset, or a read error. */
  predicate Faithful(r: Reply, a: Asset, t0: nat) {
    r.id == Uuid(a) && t0 <= r.tag ==> !r.Missing? && (r.Found? ==> r.asset == a)
  }

  lemma QueuedGetsAreOld(s: State)
    requires Ledger(s)
    ensures forall j :: 0 <= j < |s.work| && s.work[j].Get? ==> s.work[j].tag < s.nextTag
  {
    hide Ledger;
    forall j: nat | j < |s.work| && s.work[j].Get?
      ensures s.work[j].tag < s.nextTag
    {
      QueuedTagsAreOld(s, j);
    }
  }

  lemma PutIsAccepted(s: State, a: Asset)
    requires Inv(s) && Ledger(s) && Uuid(a) !in s.index
    requires IsLocal(a) ==> !PurgeStarting(s, Prefix(Uuid(a)))
    ensures Accepted(ApplyAskPut(s, a), a, s.nextTag + 1)
  {
    hide Uuid, Prefix, IsLocal, Inv, Ledger, NoPut, Detached, LocalRows, GlobalRows, PendingAt, OnDisk;
    NotIndexedMeansFree(s, Uuid(a));
    PutIsPending(s, a);
    var s1 := ApplyAskPut(s, a);
    assert s1.posted == s.posted && s1.work == s.work + [Put(a, s.nextTag)];
  }

  lemma PutIsPending(s: State, a: Asset)
    requires Ledger(s) && Uuid(a) !in s.index
    ensures PendingAt(ApplyAskPut(s, a), a, s.nextTag + 1, |s.work|)
  {
    hide Uuid, Prefix, IsLocal, Ledger;
    QueuedGetsAreOld(s);
    var s1 := ApplyAskPut(s, a);
    assert s1.work[|s.work|..] == [Put(a, s.nextTag)];
  }

  /** Growing the index and appending a request that is no deletion and no purge of its prefix. */
  lemma PushKeepsAccepted(s: State, s': State, a: Asset, t0: nat)
    requires Accepted(s, a, t0) && s.index <= s'.index && s.nextTag <= s'.nextTag
    requires s'.posted == s.posted && s'.globals == s.globals && s'.locals == s.locals
    requires s.work <= s'.work && |s'.work| <= |s.work| + 1
    requires |s'.work| > |s.work| ==> var r := s'.work[|s.work|];
      !r.DeleteLocals? && (IsLocal(a) ==> r != PurgeLocals(Prefix(Uuid(a))))
    ensures Accepted(s', a, t0)
  {
    hide Uuid, Prefix, IsLocal;
    if |s'.work| > |s.work| {
      assert s'.work == s.work + [s'.work[|s.work|]];
    }
    if OnDisk(s, a) {
      assert OnDisk(s', a);
    } else {
      var i: nat :| PendingAt(s, a, t0, i);
      assert s'.work[i..] == s.work[i..] + s'.work[|s.work|..];
      assert PendingAt(s', a, t0, i);
    }
  }

  lemma AskKeepsAccepted(s: State, e: Event, a: Asset, t0: nat)
    requires Accepted(s, a, t0) && Spares(s, e, a) && (e.AskPut? || e.AskGet? || e.AskPurge?)
    ensures Accepted(Apply(s, e), a, t0)
    ensures forall r :: r in Apply(s, e).replies ==> r in s.replies || Faithful(r, a, t0)
  {
    assert Uuid(a) in s.index;
    hide Uuid, Prefix, IsLocal, Accepted;
    PushKeepsAccepted(s, Apply(s, e), a, t0);
  }

  lemma HandleKeepsAccepted(s: State, which: nat, a: Asset, t0: nat)
    requires Inv(s) && Accepted(s, a, t0) && which < |s.posted|
    ensures Accepted(ApplyHandle(s, which), a, t0)
  {
    hide Uuid, Prefix, IsLocal;
    var s' := ApplyHandle(s, which);
    var id := Uuid(a);
    var h := s.posted[which];
    assert forall k :: 0 <= k < |s'.posted| ==> s'.posted[k] in s.posted;
    assert h.Unindex? ==> SnapshotAtOk(s, which);
    if OnDisk(s, a) {
      assert id in s'.index;
    } else {
      var i: nat :| PendingAt(s, a, t0, i);
      assert PutOk(s, i);
      assert s'.work == s.work || s'.work[i..] == s.work[i..] + [s'.work[|s.work|]];
      assert PendingAt(s', a, t0, i);
    }
  }

  lemma OnDiskIsSettled(s: State, a: Asset)
    requires Inv(s) && OnDisk(s, a)
    ensures NoPut(s, Uuid(a)) && (!IsLocal(a) ==> Uuid(a) in s.globals)
  {
    hide Uuid, Prefix, IsLocal, PurgesOk, SnapshotsOk, FailuresOk;
    assert !Doomed(s.work, Prefix(Uuid(a))) || !IsLocal(a);
    hide Doomed;
    assert IsLocal(a) ==> Live(s, Uuid(a));
    assert forall k: nat :: k < |s.work| && s.work[k].Put? ==> PutOk(s, k);
  }

  /** A settled asset stays on disk, and is what every read of it finds. */
  lemma WorkLeavesOnDisk(s: State, outcome: Outcome, a: Asset)
    requires OnDisk(s, a) && s.work != [] && NoPut(s, Uuid(a)) && (!IsLocal(a) ==> Uuid(a) in s.globals)
    ensures OnDisk(ApplyWork(s, outcome), a)
  {
    hide Uuid, Prefix, IsLocal;
    var s' := ApplyWork(s, outcome);
    assert s.work == [s.work[0]] + s'.work;
  }

  lemma WorkAnswers(s: State, outcome: Outcome, a: Asset, t0: nat)
    requires OnDisk(s, a) && s.work != []
    ensures forall r :: r in ApplyWork(s, outcome).replies ==> r in s.replies || Faithful(r, a, t0)
  {
    hide Uuid, Prefix, IsLocal;
  }

  lemma WorkKeepsOnDisk(s: State, outcome: Outcome, a: Asset, t0: nat)
    requires Inv(s) && Accepted(s, a, t0) && OnDisk(s, a) && s.work != []
    ensures Accepted(ApplyWork(s, outcome), a, t0)
    ensures forall r :: r in ApplyWork(s, outcome).replies ==> r in s.replies || Faithful(r, a, t0)
  {
    hide Uuid, Prefix, IsLocal, Inv, Faithful, OnDisk, ApplyWork, PendingAt;
    OnDiskIsSettled(s, a);
    WorkLeavesOnDisk(s, outcome, a);
    WorkAnswers(s, outcome, a, t0);
    WorkKeepsWaiting(s, outcome, a, t0);
  }

  /** A worker step on something else leaves the index entry alone and starts no purge of the prefix. */
  lemma WorkKeepsWaiting(s: State, outcome: Outcome, a: Asset, t0: nat)
    requires Accepted(s, a, t0) && s.work != []
    requires s.work[0].Put? ==> Uuid(s.work[0].asset) != Uuid(a)
    ensures var s' := ApplyWork(s, outcome);
      && Uuid(a) in s'.index && WriteFailed(Uuid(a)) !in s'.posted && t0 <= s'.nextTag
      && (IsLocal(a) ==> !PurgeStarting(s', Prefix(Uuid(a))))
  {
    hide Uuid, Prefix, IsLocal, PendingAt, OnDisk, Lookup;
    var s' := ApplyWork(s, outcome);
    assert s.work == [s.work[0]] + s'.work;
    assert s'.posted == s.posted || s'.posted == s.posted + [s'.posted[|s.posted|]];
  }

  lemma WorkMovesPending(s: State, outcome: Outcome, a: Asset, t0: nat, i: nat)
    requires Inv(s) && Accepted(s, a, t0) && 0 < i && PendingAt(s, a, t0, i)
    ensures Accepted(ApplyWork(s, outcome), a, t0)
    ensures forall r :: r in ApplyWork(s, outcome).replies ==> r in s.replies || Faithful(r, a, t0)
  {
    hide Uuid, Prefix, IsLocal, PurgesOk, FailuresOk, DisksOk, PurgeStarting, PutOk, Lookup;
    var s' := ApplyWork(s, outcome);
    assert s'.work == s.work[1..] && s'.work[i - 1..] == s.work[i..];
    assert s.work[0].Put? ==> Uuid(s.work[0].asset) != Uuid(s.work[i].asset);
    WorkKeepsWaiting(s, outcome, a, t0);
    assert PendingAt(s', a, t0, i - 1);
  }

  lemma WorkStores(s: State, a: Asset, t0: nat)
    requires Inv(s) && Accepted(s, a, t0) && PendingAt(s, a, t0, 0)
    ensures Accepted(ApplyWork(s, Fine), a, t0)
    ensures forall r :: r in ApplyWork(s, Fine).replies ==> r in s.replies || Faithful(r, a, t0)
  {
    hide Uuid, Prefix, IsLocal, PutsOk, PurgesOk, FailuresOk, DisksOk;
    FrontPutFits(s);
    assert IsLocal(a) ==> !Live(s.(work := s.work[1..]), Uuid(a));
    assert OnDisk(ApplyWork(s, Fine), a);
  }

  lemma StepKeepsAccepted(s: State, e: Event, a: Asset, t0: nat)
    requires Inv(s) && Orderly(s, e) && Accepted(s, a, t0) && Spares(s, e, a)
    ensures Accepted(Apply(s, e), a, t0)
    ensures forall r :: r in Apply(s, e).replies ==> r in s.replies || Faithful(r, a, t0)
  {
    match e
    case Handle(which) => HandleKeepsAccepted(s, which, a, t0);
    case Work(outcome) =>
      hide Inv, ApplyWork, Faithful, Uuid;
      if OnDisk(s, a) {
        WorkKeepsOnDisk(s, outcome, a, t0);
      } else {
        var i: nat :| PendingAt(s, a, t0, i);
        if i == 0 { WorkStores(s, a, t0); } else { WorkMovesPending(s, outcome, a, t0, i); }
      }
    case _ => AskKeepsAccepted(s, e, a, t0);
  }

  lemma {:induction false} RunKeepsAccepted(s: State, es: seq<Event>, a: Asset, t0: nat)
    requires Inv(s) && OrderlyRun(s, es) && SparesAll(s, es, a) && Accepted(s, a, t0)
    ensures Accepted(Run(s, es), a, t0)
    ensures forall r :: r in Run(s, es).replies ==> r in s.replies || Faithful(r, a, t0)
    decreases |es|
  {
    hide Inv, Apply, Accepted, Spares, Faithful;
    if es != [] {
      StepKeepsInv(s, es[0]);
      StepKeepsAccepted(s, es[0], a, t0);
      RunKeepsAccepted(Apply(s, es[0]), es[1..], a, t0);
    }
  }

  /**
   Read your writes.  A put of an id the index does not know is accepted.  In every run
   from there in which its own disk write does not fail and, if it is a local, no purge of
   its prefix intervenes, every get accepted after it is answered with exactly its bytes,
   or with a read error: never with "not found" and never with other bytes.
   */
  lemma ReadYourWrites(s: State, a: Asset, es: seq<Event>)
    requires Inv(s) && Ledger(s) && Uuid(a) !in s.index
    requires IsLocal(a) ==> !PurgeStarting(s, Prefix(Uuid(a)))
    requires OrderlyRun(ApplyAskPut(s, a), es) && SparesAll(ApplyAskPut(s, a), es, a)
    ensures forall r :: r in Run(ApplyAskPut(s, a), es).replies ==> r in s.replies || Faithful(r, a, s.nextTag + 1)
    ensures var t := Run(ApplyAskPut(s, a), es); Uuid(a) in t.index && (t.work == [] ==> Lookup(t, Uuid(a)) == [a])
  {
    var s1 := ApplyAskPut(s, a);
    AskPutKeepsInv(s, a);
    PutIsAccepted(s, a);
    hide Inv, Uuid, Prefix, IsLocal, Faithful;
    RunKeepsAccepted(s1, es, a, s1.nextTag);
  }
}

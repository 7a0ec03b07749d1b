/**
 Pull replication (whip/PullReplicationService.cpp) over a steady connection: a slave walks
 the id prefixes of its master, lists the ids under each, fetches the ones it lacks in
 batches and stores them. Every callback is an event; `listings`, `fetches`, `stores` and
 `timers` count the callbacks that are still to come.
 */
module PullReplication {
  import opened IdLists

  type Id = string

  const LAST_PREFIX := 0xfff

  datatype Step = None | IdList | Retrieve | Wait

  datatype Repl = Repl(
    startAt: int,               // pull_replication_start_at
    batchSize: nat,             // _batchSize
    step: Step,                 // _currentStep
    prefix: int,                // _currentAssetPrefix
    pending: seq<Id>,           // _pendingAssets
    inProgress: set<Id>,        // _inProgressAssets
    index: set<Id>,             // the local existence index
    listings: nat,              // id lists asked for and not yet answered
    fetches: multiset<Id>,      // getAsset calls not yet answered
    stores: multiset<Id>,       // storeAsset calls not yet answered
    timers: nat,                // armed restart timers
    lists: map<int, set<Id>>,   // history: the ids listed this round, by prefix
    failed: set<Id>)            // history: this round, not fetched, or dropped by a failed write

  datatype Event =
    | Listed(reply: string)                       // onGetStoredAssetIds without an error
    | ListFailed                                  // onGetStoredAssetIds with a non-fatal error
    | Retrieved(id: Id, ok: bool)                 // onAssetRetrieved, without or with a non-fatal error
    | Stored(id: Id, ok: bool, dropped: bool)     // onAfterAssetStored; a failed write may unindex its id
    | Timer(due: bool)                            // the restart timer fires
    | Indexed(id: Id)                             // a client stores an asset

  // ----- the steps -----

  /** The listed ids that are not empty and not indexed. */
  function Missing(parts: seq<Id>, index: set<Id>): seq<Id> {
    if parts == [] then []
    else
      var id := parts[|parts| - 1];
      Missing(parts[..|parts| - 1], index) + (if id != "" && id !in index then [id] else [])
  }

  function ListedIds(parts: seq<Id>): set<Id> {
    set id | id in parts && id != ""
  }

  /** The batch loop: the ids asked for, and what stays queued. */
  function Batch(pending: seq<Id>, index: set<Id>, room: nat): (seq<Id>, seq<Id>) {
    if pending == [] || room == 0 then ([], pending)
    else if pending[0] in index then Batch(pending[1..], index, room)
    else
      var (sent, rest) := Batch(pending[1..], index, room - 1);
      ([pending[0]] + sent, rest)
  }

  /** The count of requests never equals a batch size of zero, so nothing stops the loop then. */
  function Room(batchSize: nat, pending: seq<Id>): nat {
    if batchSize == 0 then |pending| else batchSize
  }

  predicate SameSettings(r: Repl, r': Repl) {
    r'.startAt == r.startAt && r'.batchSize == r.batchSize
  }

  predicate SameHistory(r: Repl, r': Repl) {
    r'.lists == r.lists && r'.failed == r.failed
  }

  /** retrieveIdListForPrefix */
  function AskList(r: Repl): (r': Repl)
    ensures SameSettings(r, r') && SameHistory(r, r')
  {
    r.(listings := r.listings + 1)
  }

  /** retrieveNextIdList */
  function NextIdList(r: Repl): (r': Repl)
    ensures SameSettings(r, r') && SameHistory(r, r')
  {
    if r.prefix + 1 <= LAST_PREFIX then AskList(r.(step := IdList, prefix := r.prefix + 1))
    else r.(step := Wait, prefix := 0, timers := r.timers + 1)
  }

  function SetOf(ids: seq<Id>): set<Id> {
    set id | id in ids
  }

  function Bag(ids: seq<Id>): multiset<Id> {
    multiset(ids)
  }

  /** The ids the batch loop asks for. */
  function Asked(r: Repl): seq<Id> {
    Batch(r.pending, r.index, Room(r.batchSize, r.pending)).0
  }

  /** The state after the batch loop. */
  function Sent(r: Repl): (r': Repl)
    ensures SameSettings(r, r') && SameHistory(r, r')
  {
    r.(pending := Batch(r.pending, r.index, Room(r.batchSize, r.pending)).1,
       inProgress := r.inProgress + SetOf(Asked(r)),
       fetches := r.fetches + Bag(Asked(r)))
  }

  /** retrieveNextMissingAssetBatch */
  function NextBatch(r: Repl): (r': Repl)
    ensures SameSettings(r, r') && SameHistory(r, r')
  {
    if r.pending == [] then NextIdList(r)
    else if Asked(r) == [] then NextIdList(Sent(r))
    else Sent(r)
  }

  /** A new round starts from the configured prefix. */
  function StartRound(r: Repl): (r': Repl)
    ensures SameSettings(r, r')
  {
    AskList(r.(step := None, prefix := r.startAt, lists := map[], failed := {}))
  }

  /** runStep; `due` is whether the next round's start time has come. */
  function RunStep(r: Repl, due: bool): (r': Repl)
    ensures SameSettings(r, r')
  {
    match r.step
    case None => StartRound(r)
    case IdList => AskList(r)
    case Retrieve => NextBatch(r)
    case Wait => if due then StartRound(r) else r.(timers := r.timers + 1)
  }

  function ApplyListed(r: Repl, reply: string): (r': Repl)
    requires r.listings > 0
    ensures SameSettings(r, r')
  {
    var parts := Split(reply);
    var r1 := r.(listings := r.listings - 1, lists := r.lists[r.prefix := ListedIds(parts)]);
    if reply == "" then NextIdList(r1)
    else
      var r2 := r1.(pending := Missing(parts, r.index));
      if r2.pending == [] then NextIdList(r2) else RunStep(r2.(step := Retrieve), false)
  }

  /** An id leaves the set in progress, and the last one to leave moves things on. */
  function Done(r: Repl, id: Id): (r': Repl)
    ensures SameSettings(r, r')
  {
    var r1 := r.(inProgress := r.inProgress - {id});
    if r1.inProgress == {} then RunStep(r1, false) else r1
  }

  /** storeAsset indexes the id at once and answers later. */
  function Storing(r: Repl, id: Id): (r': Repl)
    ensures SameSettings(r, r') && SameHistory(r, r')
  {
    r.(fetches := r.fetches - multiset{id}, stores := r.stores + multiset{id}, index := r.index + {id})
  }

  function GivenUp(r: Repl, id: Id): (r': Repl)
    ensures SameSettings(r, r')
  {
    r.(fetches := r.fetches - multiset{id}, failed := r.failed + {id})
  }

  function ApplyRetrieved(r: Repl, id: Id, ok: bool): (r': Repl)
    requires id in r.fetches
    ensures SameSettings(r, r')
  {
    if ok then Storing(r, id) else Done(GivenUp(r, id), id)
  }

  function ApplyStored(r: Repl, id: Id, ok: bool, dropped: bool): (r': Repl)
    requires id in r.stores
    ensures SameSettings(r, r')
  {
    var r1 := r.(stores := r.stores - multiset{id});
    Done(if dropped then r1.(failed := r.failed + {id}, index := r.index - {id}) else r1, id)
  }

  predicate Enabled(r: Repl, e: Event) {
    match e
    case Listed(reply) => r.listings > 0 && DistinctIds(Split(reply))
    case ListFailed => r.listings > 0
    case Retrieved(id, _) => id in r.fetches
    case Stored(id, ok, dropped) => id in r.stores && (ok ==> !dropped)
    case Timer(_) => r.timers > 0
    case Indexed(_) => true
  }

  predicate DistinctIds(parts: seq<Id>) {
    forall i, j :: 0 <= i < j < |parts| && parts[i] != "" ==> parts[i] != parts[j]
  }

  function Apply(r: Repl, e: Event): (r': Repl)
    requires Enabled(r, e)
    ensures SameSettings(r, r')
  {
    match e
    case Listed(reply) => ApplyListed(r, reply)
    case ListFailed => RunStep(r.(listings := r.listings - 1), false)
    case Retrieved(id, ok) => ApplyRetrieved(r, id, ok)
    case Stored(id, ok, dropped) => ApplyStored(r, id, ok, dropped)
    case Timer(due) => RunStep(r.(timers := r.timers - 1), due)
    case Indexed(id) => r.(index := r.index + {id})
  }

  // ----- the invariant -----

  predicate Distinct(ids: seq<Id>) {
    forall i, j :: 0 <= i < j < |ids| ==> ids[i] != ids[j]
  }

  /** Exactly one thing will move the service on: a listing, the batch in progress, or the timer. */
  predicate OneContinuation(r: Repl) {
    match r.step
    case None => r.listings == 1 && r.timers == 0 && r.inProgress == {}
    case IdList => r.listings == 1 && r.timers == 0 && r.inProgress == {}
    case Retrieve => r.listings == 0 && r.timers == 0 && r.inProgress != {}
    case Wait => r.listings == 0 && r.timers == 1 && r.inProgress == {}
  }

  /** Each id in progress has one fetch or one store under way, and no other id has any. */
  ghost predicate OneEach(r: Repl) {
    && (forall id :: r.fetches[id] + r.stores[id] == if id in r.inProgress then 1 else 0)
    && (forall id :: id in r.stores ==> id in r.index)
  }

  /** Only the current prefix has ids queued, none of them twice and none in progress. */
  predicate PendingOk(r: Repl) {
    && Distinct(r.pending)
    && (forall i :: 0 <= i < |r.pending| ==> r.pending[i] !in r.inProgress)
    && (r.step != Retrieve ==> r.pending == [])
    && (r.batchSize > 0 ==> |r.inProgress| <= r.batchSize)
  }

  /** The prefixes of this round that have been listed are those from the start up to the current one. */
  ghost predicate PrefixesOk(r: Repl) {
    && (r.step == None ==> r.prefix == r.startAt)
    && (r.step != Wait ==> r.startAt <= r.prefix && (r.prefix == r.startAt || r.prefix <= LAST_PREFIX))
    && (forall p :: p in r.lists <==> r.startAt <= p && p < PrefixEnd(r))
  }

  function PrefixEnd(r: Repl): int {
    match r.step
    case Retrieve => r.prefix + 1
    case Wait => if r.startAt <= LAST_PREFIX then LAST_PREFIX + 1 else r.startAt + 1
    case _ => r.prefix
  }

  /** Every listed id is held, given up on, or still to come. */
  ghost predicate Accounted(r: Repl) {
    forall p, id :: p in r.lists && id in r.lists[p] ==>
      id in r.index || id in r.failed || id in r.pending || id in r.inProgress
  }

  ghost predicate Inv(r: Repl) {
    OneContinuation(r) && OneEach(r) && PendingOk(r) && PrefixesOk(r) && Accounted(r)
  }

  // ----- every step keeps it -----

  /** The batch loop takes ids off the front, loses none, and stops early only when full. */
  lemma {:induction false} BatchTakes(pending: seq<Id>, index: set<Id>, room: nat)
    ensures
      var (sent, rest) := Batch(pending, index, room);
      && |rest| <= |pending| && rest == pending[|pending| - |rest|..]
      && (forall id :: id in pending ==> id in index || id in sent || id in rest)
      && (forall id :: id in sent ==> id in pending && id !in index)
      && |sent| <= room
      && (room > 0 && pending != [] ==> |rest| < |pending|)
      && (room > 0 && sent == [] ==> rest == [])
  {
    if pending == [] || room == 0 {
    } else {
      BatchTakes(pending[1..], index, if pending[0] in index then room else room - 1);
      assert pending == [pending[0]] + pending[1..];
    }
  }

  lemma DistinctTail(ids: seq<Id>)
    requires Distinct(ids) && ids != []
    ensures Distinct(ids[1..]) && ids[0] !in ids[1..]
  {
  }

  lemma DistinctCons(id: Id, ids: seq<Id>)
    requires Distinct(ids) && id !in ids
    ensures Distinct([id] + ids)
  {
  }

  /** No id is asked for twice, or asked for and left queued. */
  lemma {:induction false} BatchIsDistinct(pending: seq<Id>, index: set<Id>, room: nat)
    requires Distinct(pending)
    ensures
      var (sent, rest) := Batch(pending, index, room);
      Distinct(sent) && Distinct(rest) && forall id :: id in sent ==> id !in rest
  {
    if pending == [] || room == 0 {
      assert Distinct([]);
    } else {
      var left := if pending[0] in index then room else room - 1;
      DistinctTail(pending);
      hide Distinct;
      BatchIsDistinct(pending[1..], index, left);
      BatchTakes(pending[1..], index, left);
      var (sent, rest) := Batch(pending[1..], index, left);
      if pending[0] !in index {
        assert pending[0] !in sent && pending[0] !in rest;
        DistinctCons(pending[0], sent);
      }
    }
  }

  /** A batch takes absent ids off the front, skips held ones, and stops early only when full. */
  lemma BatchParts(pending: seq<Id>, index: set<Id>, room: nat)
    requires Distinct(pending)
    ensures
      var (sent, rest) := Batch(pending, index, room);
      && |rest| <= |pending| && rest == pending[|pending| - |rest|..]
      && (forall id :: id in pending ==> id in index || id in sent || id in rest)
      && (forall id :: id in sent ==> id in pending && id !in index && id !in rest)
      && Distinct(sent) && Distinct(rest) && |sent| <= room
      && (room > 0 && pending != [] ==> |rest| < |pending|)
      && (room > 0 && sent == [] ==> rest == [])
  {
    hide Batch, Distinct;
    BatchTakes(pending, index, room);
    BatchIsDistinct(pending, index, room);
  }

  /** No callback is outstanding, and the current prefix has been listed. */
  ghost predicate Idle(r: Repl) {
    && r.listings == 0 && r.timers == 0 && r.inProgress == {} && OneEach(r) && Distinct(r.pending)
    && r.startAt <= r.prefix && (r.prefix == r.startAt || r.prefix <= LAST_PREFIX)
    && (forall p :: p in r.lists <==> r.startAt <= p <= r.prefix)
    && Accounted(r)
  }

  lemma NextIdListKeepsInv(r: Repl)
    requires Idle(r) && r.pending == []
    ensures Inv(NextIdList(r))
  {
    var r' := NextIdList(r);
    assert OneEach(r');
    assert forall p :: p in r'.lists <==> r'.startAt <= p && p < PrefixEnd(r');
  }

  lemma {:induction false} SetCount(ids: seq<Id>)
    requires Distinct(ids)
    ensures |SetOf(ids)| == |ids|
  {
    if ids == [] {
    } else {
      var rest, last := ids[..|ids| - 1], ids[|ids| - 1];
      SetCount(rest);
      assert last !in SetOf(rest) && SetOf(ids) == SetOf(rest) + {last};
    }
  }

  lemma {:induction false} BagCount(ids: seq<Id>, id: Id)
    requires Distinct(ids)
    ensures Bag(ids)[id] == if id in ids then 1 else 0
  {
    if ids == [] {
    } else {
      var rest, last := ids[..|ids| - 1], ids[|ids| - 1];
      BagCount(rest, id);
      BagGrows(rest, last);
      assert ids == rest + [last] && last !in rest;
      hide Bag, Distinct;
    }
  }

  lemma BagGrows(ids: seq<Id>, id: Id)
    ensures Bag(ids + [id]) == Bag(ids) + multiset{id}
  {
  }

  lemma DistinctCount(ids: seq<Id>)
    requires Distinct(ids)
    ensures |SetOf(ids)| == |ids|
    ensures forall id :: Bag(ids)[id] == if id in ids then 1 else 0
  {
    hide Distinct, Bag;
    SetCount(ids);
    forall id
      ensures Bag(ids)[id] == if id in ids then 1 else 0
    {
      BagCount(ids, id);
    }
  }

  lemma SentAccounts(r: Repl)
    requires Idle(r)
    ensures Accounted(Sent(r))
  {
    BatchParts(r.pending, r.index, Room(r.batchSize, r.pending));
    hide Batch, OneEach, Distinct;
  }

  lemma SentIsOneEach(r: Repl)
    requires Idle(r)
    ensures OneEach(Sent(r))
  {
    BatchParts(r.pending, r.index, Room(r.batchSize, r.pending));
    DistinctCount(Asked(r));
    hide Batch, Accounted, Distinct, Bag, Room, Asked, SetOf;
    SetOfHas(Asked(r));
    forall id
      ensures Sent(r).fetches[id] + Sent(r).stores[id] == if id in Sent(r).inProgress then 1 else 0
    {
      assert r.fetches[id] + r.stores[id] == 0;
    }
  }

  lemma SetOfHas(ids: seq<Id>)
    ensures forall id :: id in SetOf(ids) <==> id in ids
  {
  }

  lemma SentIsPendingOk(r: Repl)
    requires Idle(r) && r.step == Retrieve
    ensures PendingOk(Sent(r))
  {
    var (sent, rest) := Batch(r.pending, r.index, Room(r.batchSize, r.pending));
    BatchParts(r.pending, r.index, Room(r.batchSize, r.pending));
    DistinctCount(sent);
    hide Batch, Accounted, OneEach, Distinct;
    assert Sent(r).inProgress == SetOf(sent);
  }

  lemma SentProgress(r: Repl)
    requires Idle(r) && r.pending != []
    ensures Sent(r).inProgress == {} <==> Asked(r) == []
    ensures Sent(r) == r.(pending := Sent(r).pending, inProgress := Sent(r).inProgress, fetches := Sent(r).fetches)
    ensures Sent(r).inProgress == {} ==> Sent(r).pending == []
    ensures |Sent(r).pending| < |r.pending|
  {
    var (sent, rest) := Batch(r.pending, r.index, Room(r.batchSize, r.pending));
    BatchParts(r.pending, r.index, Room(r.batchSize, r.pending));
    hide Batch, Accounted, OneEach, Distinct;
    if sent != [] {
      assert sent[0] in Sent(r).inProgress;
    }
  }

  lemma NextBatchKeepsInv(r: Repl)
    requires Idle(r) && r.step == Retrieve
    ensures Inv(NextBatch(r))
  {
    if r.pending == [] {
      NextIdListKeepsInv(r);
    } else {
      SentAccounts(r);
      SentIsOneEach(r);
      SentIsPendingOk(r);
      SentProgress(r);
      hide Batch, Accounted, OneEach, Distinct, Sent, Asked;
      if Asked(r) == [] {
        NextIdListKeepsInv(Sent(r));
      }
    }
  }

  lemma MissingIs(parts: seq<Id>, index: set<Id>)
    requires DistinctIds(parts)
    ensures Distinct(Missing(parts, index))
    ensures forall id :: id in Missing(parts, index) <==> id in ListedIds(parts) && id !in index
  {
    if parts == [] {
    } else {
      var rest := parts[..|parts| - 1];
      MissingIs(rest, index);
      assert parts == rest + [parts[|parts| - 1]];
    }
  }

  /** The listed ids that are not held are queued. */
  lemma ListedIsIdle(r: Repl, reply: string)
    requires Inv(r) && Enabled(r, Listed(reply))
    ensures Idle(Queued(r, reply))
    ensures reply == "" ==> Queued(r, reply).pending == []
  {
    hide Split, Missing, DistinctIds, ListedIds, OneEach, Accounted, Distinct;
    MissingIs(Split(reply), r.index);
    QueuedIsOneEach(r, reply);
    QueuedIsAccounted(r, reply);
    EmptyReply(r, reply);
  }

  lemma QueuedIsOneEach(r: Repl, reply: string)
    requires OneEach(r) && r.listings > 0
    ensures OneEach(Queued(r, reply))
  {
    hide Split, Missing, ListedIds;
  }

  lemma QueuedIsAccounted(r: Repl, reply: string)
    requires Accounted(r) && r.pending == [] && r.listings > 0 && DistinctIds(Split(reply))
    ensures Accounted(Queued(r, reply))
  {
    hide Split, Missing, DistinctIds, ListedIds;
    MissingIs(Split(reply), r.index);
  }

  lemma EmptyReply(r: Repl, reply: string)
    requires r.listings > 0
    ensures reply == "" ==> Queued(r, reply).pending == []
  {
    if reply == "" {
      EmptySplit();
      hide Split;
      assert [""][..0] == [];
      assert Missing([""], r.index) == [];
    }
  }

  lemma EmptySplit()
    ensures Split("") == [""]
  {
  }

  function Queued(r: Repl, reply: string): Repl
    requires r.listings > 0
  {
    r.(listings := r.listings - 1,
       lists := r.lists[r.prefix := ListedIds(Split(reply))],
       pending := Missing(Split(reply), r.index))
  }

  lemma ListedKeepsInv(r: Repl, reply: string)
    requires Inv(r) && Enabled(r, Listed(reply))
    ensures Inv(ApplyListed(r, reply))
  {
    ListedIsIdle(r, reply);
    var r' := Queued(r, reply);
    if r'.pending == [] {
      NextIdListKeepsInv(r');
    } else {
      NextBatchKeepsInv(r'.(step := Retrieve));
    }
    hide Inv, Idle, NextIdList, NextBatch, Missing, Split, ListedIds;
  }

  /** An id whose one callback came back leaves the set in progress. */
  lemma DoneKeepsInv(r: Repl, id: Id)
    requires r.step == Retrieve && OneContinuation(r) && PendingOk(r) && PrefixesOk(r) && id in r.inProgress
    requires OneEach(r.(inProgress := r.inProgress - {id}))
    requires Accounted(r.(inProgress := r.inProgress - {id}))
    ensures Inv(Done(r, id))
  {
    var r1 := r.(inProgress := r.inProgress - {id});
    if r1.inProgress == {} {
      NextBatchKeepsInv(r1);
    } else {
      assert |r.inProgress| == |r1.inProgress| + 1;
    }
  }

  lemma RetrievedKeepsInv(r: Repl, id: Id, ok: bool)
    requires Inv(r) && Enabled(r, Retrieved(id, ok))
    ensures Inv(ApplyRetrieved(r, id, ok))
  {
    assert id in r.inProgress;
    if !ok {
      DoneKeepsInv(GivenUp(r, id), id);
    }
  }

  lemma StoredKeepsInv(r: Repl, id: Id, ok: bool, dropped: bool)
    requires Inv(r) && Enabled(r, Stored(id, ok, dropped))
    ensures Inv(ApplyStored(r, id, ok, dropped))
  {
    assert id in r.inProgress && id in r.index;
    var r1 := r.(stores := r.stores - multiset{id});
    var r2 := if dropped then r1.(failed := r.failed + {id}, index := r.index - {id}) else r1;
    DoneKeepsInv(r2, id);
  }

  lemma ListFailedKeepsInv(r: Repl)
    requires Inv(r) && Enabled(r, ListFailed)
    ensures Inv(Apply(r, ListFailed))
  {
  }

  lemma TimerKeepsInv(r: Repl, due: bool)
    requires Inv(r) && Enabled(r, Timer(due))
    ensures Inv(Apply(r, Timer(due)))
  {
  }

  lemma IndexedKeepsInv(r: Repl, id: Id)
    requires Inv(r)
    ensures Inv(Apply(r, Indexed(id)))
  {
  }

  lemma StepKeepsInv(r: Repl, e: Event)
    requires Inv(r) && Enabled(r, e)
    ensures Inv(Apply(r, e))
  {
    hide Inv;
    match e
    case Listed(reply) => ListedKeepsInv(r, reply);
    case ListFailed => ListFailedKeepsInv(r);
    case Retrieved(id, ok) => RetrievedKeepsInv(r, id, ok);
    case Stored(id, ok, dropped) => StoredKeepsInv(r, id, ok, dropped);
    case Timer(due) => TimerKeepsInv(r, due);
    case Indexed(id) => IndexedKeepsInv(r, id);
  }

  // ----- whole runs -----

  predicate Possible(r: Repl, events: seq<Event>)
    decreases |events|
  {
    events == [] || (Enabled(r, events[0]) && Possible(Apply(r, events[0]), events[1..]))
  }

  function Run(r: Repl, events: seq<Event>): Repl
    requires Possible(r, events)
    decreases |events|
  {
    if events == [] then r else Run(Apply(r, events[0]), events[1..])
  }

  lemma {:induction false} RunKeepsInv(r: Repl, events: seq<Event>)
    requires Inv(r) && Possible(r, events)
    ensures Inv(Run(r, events))
    decreases |events|
  {
    hide Inv, Apply, Enabled;
    if events == [] {
    } else {
      StepKeepsInv(r, events[0]);
      RunKeepsInv(Apply(r, events[0]), events[1..]);
    }
  }

  /** The service as it is when the first connection comes up. */
  function Fresh(startAt: int, batchSize: nat, index: set<Id>): Repl {
    StartRound(Repl(startAt, batchSize, None, startAt, [], {}, index, 0, multiset{}, multiset{}, 0, map[], {}))
  }

  lemma FreshIsInv(startAt: int, batchSize: nat, index: set<Id>)
    ensures Inv(Fresh(startAt, batchSize, index))
  {
  }

  /**
   After every run exactly one continuation is outstanding: one listing, or one restart timer,
   or one fetch or store for each id of a non-empty batch no larger than the batch size.
   */
  lemma SingleContinuation(startAt: int, batchSize: nat, index: set<Id>, events: seq<Event>)
    requires Possible(Fresh(startAt, batchSize, index), events)
    ensures
      var r := Run(Fresh(startAt, batchSize, index), events);
      && r.listings + r.timers + (if r.inProgress == {} then 0 else 1) == 1
      && (forall id :: r.fetches[id] + r.stores[id] == if id in r.inProgress then 1 else 0)
      && (batchSize > 0 ==> |r.inProgress| <= batchSize)
  {
    FreshIsInv(startAt, batchSize, index);
    RunKeepsInv(Fresh(startAt, batchSize, index), events);
    SettingsStay(Fresh(startAt, batchSize, index), events);
  }

  lemma {:induction false} SettingsStay(r: Repl, events: seq<Event>)
    requires Possible(r, events)
    ensures SameSettings(r, Run(r, events))
    decreases |events|
  {
    hide Apply, Enabled;
    if events == [] {
    } else {
      SettingsStay(Apply(r, events[0]), events[1..]);
    }
  }

  /**
   Whenever a round has reached RS_WAIT, every prefix from the start to 0xfff has been listed,
   and every id listed is in the local index unless it could not be fetched, or the write of
   it failed and took it out of the index again; whatever clients store in between.
   */
  lemma RoundConverges(startAt: int, batchSize: nat, index: set<Id>, events: seq<Event>)
    requires Possible(Fresh(startAt, batchSize, index), events)
    ensures
      var r := Run(Fresh(startAt, batchSize, index), events);
      r.step == Wait ==>
        && (forall p :: startAt <= p <= LAST_PREFIX ==> p in r.lists)
        && (forall p, id :: p in r.lists && id in r.lists[p] ==> id in r.index || id in r.failed)
  {
    FreshIsInv(startAt, batchSize, index);
    RunKeepsInv(Fresh(startAt, batchSize, index), events);
    SettingsStay(Fresh(startAt, batchSize, index), events);
  }

  // ----- progress -----

  /** Prefixes left in the round; phase; ids queued; work in progress, a fetch counting twice. */
  datatype Measure = Measure(prefixes: nat, phase: nat, queued: nat, work: nat)

  function Left(r: Repl): Measure {
    Measure(
      if r.step == Wait then 0 else if r.prefix <= LAST_PREFIX then LAST_PREFIX + 1 - r.prefix else 1,
      if r.step == Retrieve then 0 else 1,
      |r.pending|,
      2 * |r.fetches| + |r.stores|)
  }

  predicate Below(a: Measure, b: Measure) {
    || a.prefixes < b.prefixes
    || (a.prefixes == b.prefixes && a.phase < b.phase)
    || (a.prefixes == b.prefixes && a.phase == b.phase && a.queued < b.queued)
    || (a.prefixes == b.prefixes && a.phase == b.phase && a.queued == b.queued && a.work < b.work)
  }

  lemma NextIdListIsBelow(r: Repl)
    requires r.step != Wait
    ensures Left(NextIdList(r)).prefixes < Left(r).prefixes
  {
  }

  lemma NextBatchIsBelow(r: Repl)
    requires Idle(r) && r.step == Retrieve
    ensures
      || Left(NextBatch(r)).prefixes < Left(r).prefixes
      || (Left(NextBatch(r)).prefixes == Left(r).prefixes && Left(NextBatch(r)).phase == 0
          && Left(NextBatch(r)).queued < Left(r).queued)
  {
    if r.pending == [] {
      NextIdListIsBelow(r);
    } else {
      SentProgress(r);
      hide Sent, Asked, Idle;
      if Asked(r) == [] {
        NextIdListIsBelow(Sent(r));
      }
    }
  }

  lemma DoneIsBelow(r: Repl, id: Id, before: Measure)
    requires r.step == Retrieve && OneContinuation(r) && PendingOk(r) && PrefixesOk(r) && id in r.inProgress
    requires OneEach(r.(inProgress := r.inProgress - {id}))
    requires Accounted(r.(inProgress := r.inProgress - {id}))
    requires Below(Left(r), before) && Left(r).prefixes == before.prefixes && Left(r).phase == before.phase
    requires Left(r).queued == before.queued
    ensures Below(Left(Done(r, id)), before)
  {
    var r1 := r.(inProgress := r.inProgress - {id});
    if r1.inProgress == {} {
      NextBatchIsBelow(r1);
    }
  }

  /** Every answered listing, fetch or store brings the round closer to its end. */
  lemma StepIsBelow(r: Repl, e: Event)
    requires Inv(r) && Enabled(r, e) && (e.Listed? || e.Retrieved? || e.Stored?)
    ensures Below(Left(Apply(r, e)), Left(r))
  {
    hide Inv, Below, Left;
    match e
    case Listed(reply) => ListedIsBelow(r, reply);
    case Retrieved(id, ok) => RetrievedIsBelow(r, id, ok);
    case Stored(id, ok, dropped) => StoredIsBelow(r, id, ok, dropped);
  }

  lemma RetrievedIsBelow(r: Repl, id: Id, ok: bool)
    requires Inv(r) && Enabled(r, Retrieved(id, ok))
    ensures Below(Left(ApplyRetrieved(r, id, ok)), Left(r))
  {
    assert id in r.inProgress;
    if !ok {
      DoneIsBelow(GivenUp(r, id), id, Left(r));
    }
  }

  lemma StoredIsBelow(r: Repl, id: Id, ok: bool, dropped: bool)
    requires Inv(r) && Enabled(r, Stored(id, ok, dropped))
    ensures Below(Left(ApplyStored(r, id, ok, dropped)), Left(r))
  {
    assert id in r.inProgress && id in r.index;
    var r1 := r.(stores := r.stores - multiset{id});
    var r2 := if dropped then r1.(failed := r.failed + {id}, index := r.index - {id}) else r1;
    DoneIsBelow(r2, id, Left(r));
  }

  lemma ListingMeansStarting(r: Repl)
    requires Inv(r) && r.listings > 0
    ensures r.pending == [] && (r.step == None || r.step == IdList)
  {
  }

  lemma IdleInAnyStep(r: Repl, step: Step)
    requires Idle(r)
    ensures Idle(r.(step := step))
  {
  }

  lemma ListedIsBelow(r: Repl, reply: string)
    requires Inv(r) && Enabled(r, Listed(reply))
    ensures Below(Left(ApplyListed(r, reply)), Left(r))
  {
    hide Inv, Idle, NextIdList, NextBatch, Missing, Split, ListedIds;
    ListingMeansStarting(r);
    ListedIsIdle(r, reply);
    var r' := Queued(r, reply);
    if r'.pending == [] {
      NextIdListIsBelow(r');
      assert ApplyListed(r, reply) == NextIdList(r');
    } else {
      IdleInAnyStep(r', Retrieve);
      NextBatchIsBelow(r'.(step := Retrieve));
      assert ApplyListed(r, reply) == NextBatch(r'.(step := Retrieve));
    }
  }

  /**
   An event of a round in which the master answers `master`, the fetches that succeed are those
   of the ids it `holds`, and no write is dropped; clients of the slave store what they like.
   */
  predicate Good(r: Repl, e: Event, master: int -> string, holds: set<Id>) {
    match e
    case Listed(reply) => reply == master(r.prefix)
    case Retrieved(id, ok) => ok <==> id in holds
    case Stored(_, _, dropped) => !dropped
    case Indexed(_) => true
    case _ => false
  }

  /** The lists of this round are the master's, and only ids it does not hold have failed. */
  ghost predicate Agrees(r: Repl, master: int -> string, holds: set<Id>) {
    r.failed !! holds && forall p :: p in r.lists ==> r.lists[p] == ListedIds(Split(master(p)))
  }

  lemma GoodKeepsAgreement(r: Repl, e: Event, master: int -> string, holds: set<Id>)
    requires Inv(r) && Enabled(r, e) && Good(r, e, master, holds) && Agrees(r, master, holds)
    ensures Agrees(Apply(r, e), master, holds)
  {
    hide Split, ListedIds, Missing, NextIdList, NextBatch, OneEach, Accounted, PrefixesOk, PendingOk;
  }

  /** While a round is on, some event of it can happen. */
  lemma SomethingIsDue(r: Repl, master: int -> string, holds: set<Id>) returns (e: Event)
    requires Inv(r) && r.step != Wait && forall p :: DistinctIds(Split(master(p)))
    ensures Enabled(r, e) && Good(r, e, master, holds) && (e.Listed? || e.Retrieved? || e.Stored?)
  {
    hide Split;
    if r.step == Retrieve {
      var id :| id in r.inProgress;
      assert r.fetches[id] + r.stores[id] == 1;
      e := if id in r.fetches then Retrieved(id, id in holds) else Stored(id, true, false);
    } else {
      assert DistinctIds(Split(master(r.prefix)));
      e := Listed(master(r.prefix));
    }
  }

  /** A run of such events. */
  predicate GoodRun(r: Repl, events: seq<Event>, master: int -> string, holds: set<Id>)
    decreases |events|
  {
    || events == []
    || (Enabled(r, events[0]) && Good(r, events[0], master, holds)
        && GoodRun(Apply(r, events[0]), events[1..], master, holds))
  }

  /** Nothing more can happen in the round, but that clients store something. */
  ghost predicate Settled(r: Repl, master: int -> string, holds: set<Id>) {
    forall e :: Enabled(r, e) && Good(r, e, master, holds) ==> e.Indexed?
  }

  lemma WaitIsSettled(r: Repl, master: int -> string, holds: set<Id>)
    requires Inv(r) && r.step == Wait
    ensures Settled(r, master, holds)
  {
    hide Accounted, PrefixesOk, PendingOk, Split;
    forall e | Enabled(r, e) && Good(r, e, master, holds)
      ensures e.Indexed?
    {
      assert forall id :: r.fetches[id] + r.stores[id] == 0;
    }
  }

  /** Wherever a round has got to, some run of it goes on to the end. */
  lemma {:induction false} RoundEnds(r: Repl, master: int -> string, holds: set<Id>) returns (events: seq<Event>)
    requires Inv(r) && Agrees(r, master, holds) && forall p :: DistinctIds(Split(master(p)))
    ensures GoodRun(r, events, master, holds) && Possible(r, events)
    ensures Run(r, events).step == Wait && Agrees(Run(r, events), master, holds)
    ensures Settled(Run(r, events), master, holds)
    decreases Left(r).prefixes, Left(r).phase, Left(r).queued, Left(r).work
  {
    hide Inv, Apply, Enabled, Left, Agrees, DistinctIds, Split, Good, Settled;
    if r.step == Wait {
      events := [];
      WaitIsSettled(r, master, holds);
    } else {
      var e := SomethingIsDue(r, master, holds);
      StepKeepsInv(r, e);
      StepIsBelow(r, e);
      GoodKeepsAgreement(r, e, master, holds);
      var rest := RoundEnds(Apply(r, e), master, holds);
      events := [e] + rest;
      assert events[1..] == rest;
    }
  }

  lemma {:induction false} GoodRunAgrees(r: Repl, events: seq<Event>, master: int -> string, holds: set<Id>)
    requires Inv(r) && Agrees(r, master, holds) && GoodRun(r, events, master, holds)
    ensures Possible(r, events) && Inv(Run(r, events)) && Agrees(Run(r, events), master, holds)
    decreases |events|
  {
    hide Inv, Apply, Enabled, Agrees, Good;
    if events == [] {
    } else {
      StepKeepsInv(r, events[0]);
      GoodKeepsAgreement(r, events[0], master, holds);
      GoodRunAgrees(Apply(r, events[0]), events[1..], master, holds);
    }
  }

  /** Every step of such a run brings the round closer to its end, but for the clients', which leave it where it is. */
  lemma GoodStepIsBelow(r: Repl, e: Event, master: int -> string, holds: set<Id>)
    requires Inv(r) && Enabled(r, e) && Good(r, e, master, holds)
    ensures if e.Indexed? then Left(Apply(r, e)) == Left(r) else Below(Left(Apply(r, e)), Left(r))
  {
    if !e.Indexed? { StepIsBelow(r, e); }
  }

  /**
   However a round goes, clients' stores included, once nothing more can happen in it it waits
   for the next one; the slave has every id that the master listed and holds, and every other
   id listed that it does not have could not be fetched.
   */
  lemma SettledRoundConverges(
    startAt: int, batchSize: nat, index: set<Id>, master: int -> string, holds: set<Id>, events: seq<Event>)
    requires forall p :: DistinctIds(Split(master(p)))
    requires GoodRun(Fresh(startAt, batchSize, index), events, master, holds)
    requires Possible(Fresh(startAt, batchSize, index), events)
    requires Settled(Run(Fresh(startAt, batchSize, index), events), master, holds)
    ensures Run(Fresh(startAt, batchSize, index), events).step == Wait
    ensures var r := Run(Fresh(startAt, batchSize, index), events);
      forall p, id :: startAt <= p <= LAST_PREFIX && id in ListedIds(Split(master(p))) ==>
        id in r.index || (id in r.failed && id !in holds)
  {
    hide Run, Possible, ListedIds, Split, Inv, GoodRun, Enabled, Good, DistinctIds;
    var r := Fresh(startAt, batchSize, index);
    FreshIsInv(startAt, batchSize, index);
    GoodRunAgrees(r, events, master, holds);
    if Run(r, events).step != Wait {
      var e := SomethingIsDue(Run(r, events), master, holds);
      assert false;
    }
    RoundConverges(startAt, batchSize, index, events);
  }

  /** A slave can catch up with its master, and then has every id the master listed and holds. */
  lemma SlaveCatchesUp(startAt: int, batchSize: nat, index: set<Id>, master: int -> string, holds: set<Id>)
    returns (events: seq<Event>)
    requires forall p :: DistinctIds(Split(master(p)))
    ensures Possible(Fresh(startAt, batchSize, index), events)
    ensures forall p, id :: startAt <= p <= LAST_PREFIX && id in ListedIds(Split(master(p))) && id in holds ==>
      id in Run(Fresh(startAt, batchSize, index), events).index
  {
    hide Run, Possible, ListedIds, Split, Inv;
    FreshIsInv(startAt, batchSize, index);
    events := RoundEnds(Fresh(startAt, batchSize, index), master, holds);
    RoundConverges(startAt, batchSize, index, events);
  }

  // ----- the service -----

  /** Part of the way through the batch loop: `sent` has been asked for, the rest is as if the loop began here. */
  ghost predicate PartlySent(
    all: (seq<Id>, seq<Id>), sent: seq<Id>, pending: seq<Id>, index: set<Id>, room: nat)
  {
    all == (sent + Batch(pending, index, room).0, Batch(pending, index, room).1)
  }

  lemma StartSending(pending: seq<Id>, index: set<Id>, room: nat)
    ensures PartlySent(Batch(pending, index, room), [], pending, index, room)
    ensures SetOf([]) == {} && Bag([]) == multiset{}
  {
    var b := Batch(pending, index, room);
    assert [] + b.0 == b.0;
    assert b == (b.0, b.1);
  }

  lemma SendOne(all: (seq<Id>, seq<Id>), sent: seq<Id>, pending: seq<Id>, index: set<Id>, room: nat)
    requires pending != [] && room > 0 && PartlySent(all, sent, pending, index, room)
    ensures pending[0] in index ==> PartlySent(all, sent, pending[1..], index, room)
    ensures pending[0] !in index ==> PartlySent(all, sent + [pending[0]], pending[1..], index, room - 1)
    ensures SetOf(sent + [pending[0]]) == SetOf(sent) + {pending[0]}
    ensures Bag(sent + [pending[0]]) == Bag(sent) + multiset{pending[0]}
  {
    if pending[0] !in index {
      var c := Batch(pending[1..], index, room - 1).0;
      assert sent + ([pending[0]] + c) == sent + [pending[0]] + c;
    }
  }

  lemma AllSent(all: (seq<Id>, seq<Id>), sent: seq<Id>, pending: seq<Id>, index: set<Id>, room: nat)
    requires (pending == [] || room == 0) && PartlySent(all, sent, pending, index, room)
    ensures all == (sent, pending)
  {
    assert sent + [] == sent;
  }

  class PullReplicationService {
    const startAt: int
    const batchSize: nat
    var step: Step
    var prefix: int
    var pending: seq<Id>
    var inProgress: set<Id>
    var index: set<Id>
    var listings: nat
    var fetches: multiset<Id>
    var stores: multiset<Id>
    var timers: nat
    var lists: map<int, set<Id>>
    var failed: set<Id>

    ghost function View(): Repl
      reads this
    {
      Repl(startAt, batchSize, step, prefix, pending, inProgress, index,
           listings, fetches, stores, timers, lists, failed)
    }

    /** The service starts its first round once connected. */
    constructor (startAt: int, batchSize: nat, index: set<Id>)
      ensures View() == Fresh(startAt, batchSize, index)
    {
      this.startAt, this.batchSize, this.index := startAt, batchSize, index;
      step, prefix, pending, inProgress := None, startAt, [], {};
      listings, fetches, stores, timers := 0, multiset{}, multiset{}, 0;
      lists, failed := map[], {};
      new;
      RunNext(false);
    }

    /** RS_NONE: from the configured prefix. */
    method BeginRound()
      modifies this
      ensures View() == StartRound(old(View()))
    {
      step := None;
      prefix := startAt;
      lists, failed := map[], {};
      listings := listings + 1;
    }

    /** runStep and replicateStep; `due` is whether the next round's start time has come. */
    method RunNext(due: bool)
      modifies this
      ensures View() == RunStep(old(View()), due)
      decreases if step == Retrieve then 3 else 0
    {
      hide NextBatch, StartRound;
      match step
      case None => BeginRound();
      case IdList => listings := listings + 1;
      case Retrieve => RetrieveNextMissingAssetBatch();
      case Wait =>
        if due {
          BeginRound();
        } else {
          timers := timers + 1;
        }
    }

    method RetrieveNextIdList()
      modifies this
      ensures View() == NextIdList(old(View()))
      decreases 1
    {
      step := IdList;
      prefix := prefix + 1;
      if prefix <= LAST_PREFIX {
        RunNext(false);
      } else {
        prefix := 0;
        step := Wait;
        timers := timers + 1;
      }
    }

    method RetrieveNextMissingAssetBatch()
      modifies this
      ensures View() == NextBatch(old(View()))
      decreases 2
    {
      if pending == [] {
        RetrieveNextIdList();
      } else {
        var requestsSent := SendBatch();
        if requestsSent == 0 {
          RetrieveNextIdList();
        }
      }
    }

    /** The loop that pops the queue until it is empty or the batch is full. */
    method SendBatch() returns (requestsSent: nat)
      requires pending != []
      modifies `pending, `inProgress, `fetches
      ensures
        var b := Batch(old(pending), index, Room(batchSize, old(pending)));
        && requestsSent == |b.0| && pending == b.1
        && inProgress == old(inProgress) + SetOf(b.0)
        && fetches == old(fetches) + Bag(b.0)
    {
      hide Batch, SetOf, Bag, PartlySent;
      requestsSent := 0;
      ghost var sent: seq<Id> := [];
      ghost var room := Room(batchSize, pending);
      ghost var all := Batch(pending, index, room);
      StartSending(pending, index, room);
      while pending != []
        invariant |sent| == requestsSent <= room && (batchSize > 0 ==> requestsSent < batchSize)
        invariant requestsSent + |pending| <= |old(pending)|
        invariant PartlySent(all, sent, pending, index, room - requestsSent)
        invariant inProgress == old(inProgress) + SetOf(sent)
        invariant fetches == old(fetches) + Bag(sent)
        decreases |pending|
      {
        var nextAsset := pending[0];
        SendOne(all, sent, pending, index, room - requestsSent);
        pending := pending[1..];
        if nextAsset !in index {
          inProgress := inProgress + {nextAsset};
          requestsSent := requestsSent + 1;
          fetches := fetches + multiset{nextAsset};
          sent := sent + [nextAsset];
          if requestsSent == batchSize {
            break;
          }
        }
      }
      AllSent(all, sent, pending, index, room - requestsSent);
    }

    /** The loop that queues the listed ids that are not held. */
    method QueueMissing(idList: seq<Id>)
      modifies `pending
      ensures pending == Missing(idList, index)
    {
      pending := [];
      for i := 0 to |idList|
        invariant pending == Missing(idList[..i], index)
      {
        assert idList[..i + 1][..i] == idList[..i];
        if idList[i] != "" && idList[i] !in index {
          pending := pending + [idList[i]];
        }
      }
      assert idList[..|idList|] == idList;
    }

    method OnGetStoredAssetIds(ids: string)
      requires listings > 0
      modifies this
      ensures View() == ApplyListed(old(View()), ids)
    {
      hide NextIdList, NextBatch, Missing, Split;
      listings := listings - 1;
      var idList := Split(ids);
      lists := lists[prefix := ListedIds(idList)];
      if ids == "" {
        RetrieveNextIdList();
        return;
      }
      QueueMissing(idList);
      if pending == [] {
        RetrieveNextIdList();
      } else {
        step := Retrieve;
        RunNext(false);
      }
    }

    method OnListFailed()
      requires listings > 0
      modifies this
      ensures View() == Apply(old(View()), ListFailed)
    {
      hide RunStep;
      listings := listings - 1;
      assert View() == old(View()).(listings := old(listings) - 1);
      RunNext(false);
    }

    /** Both completion handlers end with this. */
    method Finish(assetId: Id)
      modifies this
      ensures View() == Done(old(View()), assetId)
    {
      hide RunStep;
      inProgress := inProgress - {assetId};
      assert View() == old(View()).(inProgress := old(inProgress) - {assetId});
      if inProgress == {} {
        RunNext(false);
      }
    }

    method OnAssetRetrieved(assetId: Id, ok: bool)
      requires assetId in fetches
      modifies this
      ensures View() == ApplyRetrieved(old(View()), assetId, ok)
    {
      hide Done, Storing, GivenUp;
      if ok {
        StoreRetrieved(assetId);
      } else {
        GiveUp(assetId);
        Finish(assetId);
      }
    }

    method StoreRetrieved(assetId: Id)
      modifies this
      ensures View() == Storing(old(View()), assetId)
    {
      fetches := fetches - multiset{assetId};
      stores := stores + multiset{assetId};
      index := index + {assetId};
    }

    method GiveUp(assetId: Id)
      modifies this
      ensures View() == GivenUp(old(View()), assetId)
    {
      fetches := fetches - multiset{assetId};
      failed := failed + {assetId};
    }

    /** `dropped` is whether the failed write took its id out of the index. */
    method OnAfterAssetStored(assetId: Id, ok: bool, dropped: bool)
      requires assetId in stores
      modifies this
      ensures View() == ApplyStored(old(View()), assetId, ok, dropped)
    {
      hide Done;
      stores := stores - multiset{assetId};
      if dropped {
        failed := failed + {assetId};
        index := index - {assetId};
      }
      Finish(assetId);
    }

    method OnTimer(due: bool)
      requires timers > 0
      modifies this
      ensures View() == Apply(old(View()), Timer(due))
    {
      hide RunStep;
      timers := timers - 1;
      assert View() == old(View()).(timers := old(timers) - 1);
      RunNext(due);
    }
  }
}

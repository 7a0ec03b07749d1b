/**
 The storage protocol of whip/VFSBackend.cpp as a state machine over atomic steps.

 The ASIO thread answers requests from the existence index, which it updates ahead of
 the disk, and appends to one FIFO work queue.  One worker thread takes requests from
 the front, touches the disk and posts handlers back.  A locals purge is three such
 steps: a snapshot of the stored local ids, their removal from the index, and the
 deletion of the files, with puts and gets in between.
 */
module VfsProtocol {
  import opened Assets

  datatype Request =
    | Put(asset: Asset, tag: nat)
    | Get(id: Id, tag: nat)
    | PurgeLocals(prefix: string)
    | DeleteLocals(prefix: string)

  /** What the worker posts for the ASIO thread to run, besides client callbacks. */
  datatype Handler =
    | Unindex(ids: set<Id>, prefix: string)
    | WriteFailed(id: Id)

  /** A client callback. */
  datatype Reply =
    | Stored(id: Id, tag: nat)
    | AlreadyExists(id: Id, tag: nat)
    | StoreFailed(id: Id, tag: nat)
    | Found(id: Id, tag: nat, asset: Asset)
    | Missing(id: Id, tag: nat)
    | ReadFailed(id: Id, tag: nat)

  /**
   How a disk operation goes: well, with an AssetStorageError, or with another exception. A
   write to a data file that is there and empty is lost: it succeeds, but at the invalid position.
   */
  datatype Outcome = Fine | StorageError | OtherError | Lost

  datatype Event =
    | AskPut(asset: Asset)
    | AskGet(id: Id)
    | AskPurge(prefix: string)
    | Work(outcome: Outcome)
    | Handle(which: nat)

  datatype State = State(
    index: set<Id>,
    work: seq<Request>,
    posted: seq<Handler>,
    globals: map<Id, Asset>,
    locals: map<Id, Asset>,
    lostGlobals: set<Id>,     // rows of the globals index files at the invalid position
    lostLocals: set<Id>,      // rows of the locals index files at the invalid position
    replies: seq<Reply>,
    nextTag: nat)

  /** The rows of the locals index files, which a purge snapshots and a deletion removes. */
  function LocalRows(s: State): set<Id> {
    s.locals.Keys + s.lostLocals
  }

  function GlobalRows(s: State): set<Id> {
    s.globals.Keys + s.lostGlobals
  }

  // ----- the steps -----

  /** storeAsset on the ASIO thread: refuse what the index knows, else index first and queue. */
  function ApplyAskPut(s: State, a: Asset): State {
    if Uuid(a) in s.index then
      s.(replies := s.replies + [AlreadyExists(Uuid(a), s.nextTag)], nextTag := s.nextTag + 1)
    else
      s.(index := s.index + {Uuid(a)}, work := s.work + [Put(a, s.nextTag)], nextTag := s.nextTag + 1)
  }

  /** getAsset on the ASIO thread: the not-found shortcut, else queue. */
  function ApplyAskGet(s: State, id: Id): State {
    if id !in s.index then
      s.(replies := s.replies + [Missing(id, s.nextTag)], nextTag := s.nextTag + 1)
    else
      s.(work := s.work + [Get(id, s.nextTag)], nextTag := s.nextTag + 1)
  }

  /**
   performDiskWrite through DatabaseSet::storeAsset and VFSDatabase::storeAsset: an id that can
   be found is a storage error, and one whose row is at the invalid position fails its INSERT.
   */
  function ApplyWrite(s: State, a: Asset, tag: nat, outcome: Outcome): State {
    var id := Uuid(a);
    if outcome.StorageError? || (!outcome.OtherError? && id in (if IsLocal(a) then s.locals else s.globals)) then
      s.(replies := s.replies + [StoreFailed(id, tag)])
    else if outcome.OtherError? || id in (if IsLocal(a) then s.lostLocals else s.lostGlobals) then
      s.(posted := s.posted + [WriteFailed(id)], replies := s.replies + [StoreFailed(id, tag)])
    else if outcome.Lost? then
      s.(lostLocals := if IsLocal(a) then s.lostLocals + {id} else s.lostLocals,
         lostGlobals := if IsLocal(a) then s.lostGlobals else s.lostGlobals + {id},
         replies := s.replies + [Stored(id, tag)])
    else if IsLocal(a) then
      s.(locals := s.locals[id := a], replies := s.replies + [Stored(id, tag)])
    else
      s.(globals := s.globals[id := a], replies := s.replies + [Stored(id, tag)])
  }

  /** DatabaseSet::getAsset: globals first, then locals. */
  function Lookup(s: State, id: Id): seq<Asset> {
    if id in s.globals then [s.globals[id]] else if id in s.locals then [s.locals[id]] else []
  }

  function ApplyRead(s: State, id: Id, tag: nat, outcome: Outcome): State {
    var r :=
      if outcome != Fine then ReadFailed(id, tag)
      else if Lookup(s, id) == [] then Missing(id, tag)
      else Found(id, tag, Lookup(s, id)[0]);
    s.(replies := s.replies + [r])
  }

  function LocalsUnder(s: State, prefix: string): set<Id> {
    set x | x in LocalRows(s) && Prefix(x) == prefix
  }

  /** performLocalsPhysicalDeletion */
  function Deleted(s: State, prefix: string): State {
    s.(locals := s.locals - LocalsUnder(s, prefix), lostLocals := s.lostLocals - LocalsUnder(s, prefix))
  }

  /** One turn of workLoop. */
  function ApplyWork(s: State, outcome: Outcome): State
    requires s.work != []
  {
    var rest := s.(work := s.work[1..]);
    match s.work[0]
    case Put(a, tag) => ApplyWrite(rest, a, tag, outcome)
    case Get(id, tag) => ApplyRead(rest, id, tag, outcome)
    case PurgeLocals(p) =>
      if outcome == Fine then rest.(posted := rest.posted + [Unindex(LocalsUnder(rest, p), p)]) else rest
    case DeleteLocals(p) =>
      if outcome == Fine then Deleted(rest, p) else rest
  }

  /** unindexLocals or assetWriteFailed, on the ASIO thread. */
  function ApplyHandle(s: State, which: nat): State
    requires which < |s.posted|
  {
    var rest := s.(posted := s.posted[..which] + s.posted[which + 1..]);
    match s.posted[which]
    case Unindex(ids, p) => rest.(index := rest.index - ids, work := rest.work + [DeleteLocals(p)])
    case WriteFailed(id) => rest.(index := rest.index - {id})
  }

  function Apply(s: State, e: Event): State
    requires Enabled(s, e)
  {
    match e
    case AskPut(a) => ApplyAskPut(s, a)
    case AskGet(id) => ApplyAskGet(s, id)
    case AskPurge(p) => s.(work := s.work + [PurgeLocals(p)])
    case Work(outcome) => ApplyWork(s, outcome)
    case Handle(which) => ApplyHandle(s, which)
  }

  /** When a step exists at all. */
  predicate Enabled(s: State, e: Event) {
    match e
    case Work(_) => s.work != []
    case Handle(which) => which < |s.posted|
    case _ => true
  }

  // ----- the environment the protocol counts on -----

  /** A purge of the prefix is queued, or its snapshot is posted and not yet unindexed. */
  predicate PurgeStarting(s: State, p: string) {
    PurgeLocals(p) in s.work || exists i :: 0 <= i < |s.posted| && s.posted[i].Unindex? && s.posted[i].prefix == p
  }

  /** The locals of the prefix are deleted between two places of the queue. */
  predicate DeletedBetween(work: seq<Request>, p: string, i: nat, j: nat) {
    exists k :: i <= k < j && k < |work| && work[k] == DeleteLocals(p)
  }

  /** The purge at place i of the queue will find no row: none is there or on its way there. */
  predicate Dead(s: State, i: nat, p: string)
    requires i < |s.work|
  {
    && (DeletedBetween(s.work, p, 0, i) || forall x :: x in LocalRows(s) ==> Prefix(x) != p)
    && (forall k: nat :: k < i && PutsLocal(s.work[k], p) ==> DeletedBetween(s.work, p, k, i))
  }

  predicate PutsLocal(r: Request, p: string) {
    r.Put? && IsLocal(r.asset) && Prefix(Uuid(r.asset)) == p
  }

  predicate InSnapshot(s: State, x: Id) {
    exists k: nat :: k < |s.posted| && s.posted[k].Unindex? && x in s.posted[k].ids
  }

  /**
   Beginning a purge of the prefix now is harmful: a row that an earlier purge has caught, or
   will catch, stays on disk until this one comes to it.
   */
  predicate Harmful(s: State, p: string) {
    || (!DeletedBetween(s.work, p, 0, |s.work|) && exists x :: x in LocalsUnder(s, p) && InSnapshot(s, x))
    || (exists i: nat :: i < |s.work| && s.work[i] == PurgeLocals(p)
          && !DeletedBetween(s.work, p, i, |s.work|) && !Dead(s, i, p))
  }

  /** No purge of the prefix comes before place d of the queue. */
  predicate PurgeFree(work: seq<Request>, p: string, d: nat) {
    forall i: nat :: i < d && i < |work| ==> work[i] != PurgeLocals(p)
  }

  /** The rows of the prefix are deleted before any purge comes to them. */
  predicate Doomed(work: seq<Request>, p: string) {
    exists d: nat :: d < |work| && work[d] == DeleteLocals(p) && PurgeFree(work, p, d)
  }

  predicate NoPut(s: State, x: Id) {
    forall k: nat :: k < |s.work| && s.work[k].Put? ==> Uuid(s.work[k].asset) != x
  }

  /** A row that may be unindexed: known to the index, and nothing is on its way that would make a global of it. */
  predicate Untroubled(s: State, x: Id) {
    x in s.index && x !in GlobalRows(s) && NoPut(s, x) && WriteFailed(x) !in s.posted
  }

  /**
   Failing to delete the locals of the prefix now is harmful: a row of it that a purge comes to
   before the next deletion is troubled, or already waits to be unindexed, or will be found by
   two purges; or there is neither purge nor deletion ahead of it, and it is troubled.
   */
  predicate HarmfulFailure(s: State, p: string)
    requires s.work != []
  {
    exists x :: x in LocalsUnder(s, p) && Endangered(s, s.work[1..], p, x)
  }

  predicate Endangered(s: State, work: seq<Request>, p: string, x: Id) {
    || (!Doomed(work, p) && !Untroubled(s, x))
    || (InSnapshot(s, x) && exists i: nat :: i < |work| && Comes(work, p, i))
    || (exists i: nat, j: nat :: i < j < |work| && ComesTwice(work, p, i, j))
  }

  /** A purge of the prefix comes before any deletion of it. */
  predicate Comes(work: seq<Request>, p: string, i: nat) {
    i < |work| && work[i] == PurgeLocals(p) && !DeletedBetween(work, p, 0, i)
  }

  /** So do two, with no deletion in between. */
  predicate ComesTwice(work: seq<Request>, p: string, i: nat, j: nat) {
    Comes(work, p, i) && i < j < |work| && work[j] == work[i] && !DeletedBetween(work, p, i, j)
  }

  /** No harmful purge is begun, and no deletion fails where that is harmful. */
  predicate Orderly(s: State, e: Event) {
    && Enabled(s, e)
    && (e.AskPurge? ==> !Harmful(s, e.prefix))
    && (e.Work? && s.work[0].DeleteLocals? && e.outcome != Fine ==> !HarmfulFailure(s, s.work[0].prefix))
  }

  /** A run: every step exists in the state it finds. */
  predicate Possible(s: State, es: seq<Event>)
    decreases |es|
  {
    es == [] || (Enabled(s, es[0]) && Possible(Apply(s, es[0]), es[1..]))
  }

  function Run(s: State, es: seq<Event>): State
    requires Possible(s, es)
    decreases |es|
  {
    if es == [] then s else Run(Apply(s, es[0]), es[1..])
  }

  /** A run whose every step is orderly. */
  predicate OrderlyRun(s: State, es: seq<Event>): (r: bool)
    ensures r ==> Possible(s, es)
    decreases |es|
  {
    es == [] || (Orderly(s, es[0]) && OrderlyRun(Apply(s, es[0]), es[1..]))
  }

  // ----- the invariant -----

  /** Both databases are keyed by id and kind, and every row of the globals is indexed. */
  ghost predicate DisksOk(s: State) {
    && (forall x :: x in s.globals ==> Uuid(s.globals[x]) == x && !IsLocal(s.globals[x]))
    && (forall x :: x in s.locals ==> Uuid(s.locals[x]) == x && IsLocal(s.locals[x]))
    && (forall x :: x in s.lostLocals ==> IsId(x))
    && s.globals.Keys !! s.lostGlobals && s.locals.Keys !! s.lostLocals
    && GlobalRows(s) <= s.index
  }

  /** A row of the locals that a purge may come to. */
  ghost predicate Live(s: State, x: Id) {
    x in LocalRows(s) && !Doomed(s.work, Prefix(x))
  }

  ghost predicate RowsOk(s: State) {
    forall x :: Live(s, x) ==> Untroubled(s, x)
  }

  /** Queued puts are indexed, one per id, and of no global's id. */
  ghost predicate PutsOk(s: State) {
    && (forall i: nat :: i < |s.work| && s.work[i].Put? ==> PutOk(s, i))
    && (forall i, j :: 0 <= i < j < |s.work| && s.work[i].Put? && s.work[j].Put? ==>
          Uuid(s.work[i].asset) != Uuid(s.work[j].asset))
  }

  ghost predicate PutOk(s: State, i: nat)
    requires i < |s.work| && s.work[i].Put?
  {
    Uuid(s.work[i].asset) in s.index && Uuid(s.work[i].asset) !in GlobalRows(s)
  }

  /** The purge at place i of the queue will find the row x. */
  ghost predicate Reaches(s: State, i: nat, x: Id) {
    && i < |s.work| && s.work[i].PurgeLocals?
    && Comes(s.work, s.work[i].prefix, i) && x in LocalsUnder(s, s.work[i].prefix)
  }

  /** Another purge follows the one at place i with no deletion in between. */
  ghost predicate Followed(s: State, i: nat, j: nat) {
    && i < j < |s.work| && s.work[i].PurgeLocals? && s.work[j] == s.work[i]
    && !DeletedBetween(s.work, s.work[i].prefix, i, j)
  }

  /** What a queued purge will find does not wait to be unindexed, and if another one follows, it will find nothing. */
  ghost predicate PurgesOk(s: State) {
    && (forall i: nat, x :: Reaches(s, i, x) ==> !InSnapshot(s, x))
    && (forall i: nat, j: nat :: Followed(s, i, j) ==> Dead(s, i, s.work[i].prefix))
  }

  /** Nothing is going on with an id that waits to be unindexed. */
  ghost predicate SnapshotOk(s: State, ids: set<Id>, p: string) {
    forall x :: x in ids ==> Prefix(x) == p && Untroubled(s, x)
  }

  ghost predicate SnapshotAtOk(s: State, i: nat) {
    i < |s.posted| && s.posted[i].Unindex? ==> SnapshotOk(s, s.posted[i].ids, s.posted[i].prefix)
  }

  /** A posted snapshot with the row y still on disk. */
  ghost predicate Holds(s: State, i: nat, y: Id) {
    i < |s.posted| && s.posted[i].Unindex? && y in s.posted[i].ids && y in LocalRows(s)
  }

  /** No two snapshots share an id, or have rows of one prefix; and beside a row in a snapshot none is troubled. */
  ghost predicate SnapshotsOk(s: State) {
    && (forall i: nat :: SnapshotAtOk(s, i))
    && (forall i, j :: 0 <= i < j < |s.posted| && s.posted[i].Unindex? && s.posted[j].Unindex? ==>
          s.posted[i].ids !! s.posted[j].ids)
    && (forall i: nat, j: nat, x, y :: Holds(s, i, x) && Holds(s, j, y) && Prefix(x) == Prefix(y) ==> i == j)
    && (forall i: nat, x, y :: Holds(s, i, y) && x in LocalsUnder(s, Prefix(y)) ==> Untroubled(s, x))
  }

  /** A failed write that is still to be unindexed made no global and is not being retried. */
  ghost predicate FailuresOk(s: State) {
    && (forall i :: 0 <= i < |s.posted| && s.posted[i].WriteFailed? ==> FailureOk(s, s.posted[i].id))
    && (forall i, j :: 0 <= i < j < |s.posted| && s.posted[i].WriteFailed? ==> s.posted[i] != s.posted[j])
  }

  ghost predicate FailureOk(s: State, id: Id) {
    id in s.index && id !in GlobalRows(s) && NoPut(s, id)
  }

  ghost predicate Inv(s: State) {
    DisksOk(s) && RowsOk(s) && PutsOk(s) && PurgesOk(s) && SnapshotsOk(s) && FailuresOk(s)
  }

  // ----- queues -----

  lemma PopDeletes(work: seq<Request>)
    requires work != []
    ensures forall p, i: nat, j: nat :: DeletedBetween(work[1..], p, i, j) <==> DeletedBetween(work, p, i + 1, j + 1)
    ensures forall p, j: nat :: j > 0 ==>
      (DeletedBetween(work, p, 0, j) <==> work[0] == DeleteLocals(p) || DeletedBetween(work, p, 1, j))
  {
    forall p, i: nat, j: nat
      ensures DeletedBetween(work[1..], p, i, j) <==> DeletedBetween(work, p, i + 1, j + 1)
    {
      if DeletedBetween(work, p, i + 1, j + 1) {
        var k :| i + 1 <= k < j + 1 && k < |work| && work[k] == DeleteLocals(p);
        assert work[1..][k - 1] == DeleteLocals(p);
      }
    }
  }

  lemma PushDeletes(work: seq<Request>, r: Request)
    ensures forall p, i: nat, j: nat :: j <= |work| ==>
      (DeletedBetween(work + [r], p, i, j) <==> DeletedBetween(work, p, i, j))
    ensures forall p, i: nat :: i <= |work| ==>
      (DeletedBetween(work + [r], p, i, |work| + 1) <==> DeletedBetween(work, p, i, |work|) || r == DeleteLocals(p))
  {
    if r.DeleteLocals? {
      var n: nat, more := |work| + 1, work + [r];
      forall i: nat | i <= |work|
        ensures DeletedBetween(more, r.prefix, i, n)
      {
        assert more[|work|] == r;
      }
    }
    forall p, i: nat, j: nat | j <= |work| && DeletedBetween(work, p, i, j)
      ensures DeletedBetween(work + [r], p, i, j)
    {
      var k :| i <= k < j && k < |work| && work[k] == DeleteLocals(p);
      assert (work + [r])[k] == DeleteLocals(p);
    }
    forall p, i: nat | i <= |work| && DeletedBetween(work, p, i, |work|)
      ensures DeletedBetween(work + [r], p, i, |work| + 1)
    {
      var k :| i <= k < |work| && work[k] == DeleteLocals(p);
      assert (work + [r])[k] == DeleteLocals(p);
    }
  }

  lemma PopDoomed(work: seq<Request>)
    requires work != []
    ensures forall p :: Doomed(work, p) && work[0] != DeleteLocals(p) ==> Doomed(work[1..], p)
    ensures forall p :: Doomed(work[1..], p) && work[0] != PurgeLocals(p) ==> Doomed(work, p)
  {
    var rest := work[1..];
    forall p | Doomed(work, p) && work[0] != DeleteLocals(p)
      ensures Doomed(rest, p)
    {
      var d: nat :| d < |work| && work[d] == DeleteLocals(p) && PurgeFree(work, p, d);
      assert forall i: nat :: i < |rest| ==> rest[i] == work[i + 1];
      assert rest[d - 1] == DeleteLocals(p) && PurgeFree(rest, p, d - 1);
    }
    forall p | Doomed(rest, p) && work[0] != PurgeLocals(p)
      ensures Doomed(work, p)
    {
      var d: nat :| d < |rest| && rest[d] == DeleteLocals(p) && PurgeFree(rest, p, d);
      assert forall i: nat :: 0 < i < |work| ==> work[i] == rest[i - 1];
      assert work[d + 1] == DeleteLocals(p) && PurgeFree(work, p, d + 1);
    }
  }

  lemma PushDoomed(work: seq<Request>, r: Request)
    ensures forall p :: Doomed(work, p) ==> Doomed(work + [r], p)
    ensures r.DeleteLocals? && PurgeFree(work, r.prefix, |work|) ==> Doomed(work + [r], r.prefix)
  {
    var more := work + [r];
    assert more[|work|] == r && forall i: nat :: i < |work| ==> more[i] == work[i];
    forall p | Doomed(work, p)
      ensures Doomed(more, p)
    {
      var d: nat :| d < |work| && work[d] == DeleteLocals(p) && PurgeFree(work, p, d);
      assert more[d] == DeleteLocals(p) && PurgeFree(more, p, d);
    }
    if r.DeleteLocals? && PurgeFree(work, r.prefix, |work|) {
      assert PurgeFree(more, r.prefix, |work|);
    }
  }

  /** A purge that comes first keeps its prefix from being doomed, and nothing else but a lack of deletions does. */
  lemma ComingIsNotDoomed(work: seq<Request>, p: string, i: nat)
    requires Comes(work, p, i)
    ensures !Doomed(work, p)
  {
  }

  lemma NotDoomedMeans(work: seq<Request>, p: string)
    requires !Doomed(work, p)
    ensures (exists i: nat :: Comes(work, p, i)) || (PurgeFree(work, p, |work|) && !DeletedBetween(work, p, 0, |work|))
  {
    if work != [] {
      PopDoomed(work);
      if work[0] == PurgeLocals(p) {
        assert Comes(work, p, 0);
      } else {
        NotDoomedMeans(work[1..], p);
        LaterComes(work, p);
      }
    }
  }

  lemma LaterComes(work: seq<Request>, p: string)
    requires work != [] && work[0] != PurgeLocals(p) && work[0] != DeleteLocals(p)
    ensures forall i: nat :: Comes(work[1..], p, i) ==> Comes(work, p, i + 1)
    ensures PurgeFree(work[1..], p, |work| - 1) ==> PurgeFree(work, p, |work|)
    ensures DeletedBetween(work, p, 0, |work|) ==> DeletedBetween(work[1..], p, 0, |work| - 1)
  {
    PopDeletes(work);
    var rest := work[1..];
    assert forall i: nat :: 0 < i < |work| ==> work[i] == rest[i - 1];
  }

  // ----- every step keeps the invariant -----

  /** No row depends on the id staying as it is. */
  ghost predicate Detached(s: State, x: Id) {
    && !Live(s, x) && !InSnapshot(s, x)
    && (forall i: nat, y :: Holds(s, i, y) && Prefix(y) == Prefix(x) ==> x !in LocalRows(s))
  }

  /** The same snapshots are posted, and perhaps failed writes after them. */
  ghost predicate SamePosted(s: State, s': State) {
    && |s.posted| <= |s'.posted|
    && (forall i: nat :: i < |s.posted| ==> s'.posted[i] == s.posted[i])
    && (forall i: nat :: |s.posted| <= i < |s'.posted| ==> s'.posted[i].WriteFailed?)
  }

  /** Troubling detached ids does not matter to the rows and the snapshots. */
  lemma TroubleIsContained(s: State, s': State, ids: set<Id>)
    requires RowsOk(s) && SnapshotsOk(s) && LocalRows(s') == LocalRows(s) && SamePosted(s, s')
    requires forall p :: Doomed(s.work, p) ==> Doomed(s'.work, p)
    requires forall y :: y !in ids && Untroubled(s, y) ==> Untroubled(s', y)
    requires forall x :: x in ids ==> Detached(s, x)
    ensures RowsOk(s') && SnapshotsOk(s')
    ensures forall x :: InSnapshot(s', x) ==> InSnapshot(s, x)
  {
    hide Untroubled, Doomed, Prefix, LocalRows;
    assert forall i: nat, y :: Holds(s', i, y) ==> Holds(s, i, y);
    assert forall x :: Live(s', x) ==> Live(s, x);
    forall i: nat
      ensures SnapshotAtOk(s', i)
    {
      assert SnapshotAtOk(s, i);
    }
  }

  /** The invariant does not look at the replies. */
  lemma RepliesDoNotMatter(s: State, replies: seq<Reply>, nextTag: nat)
    requires Inv(s)
    ensures Inv(s.(replies := replies, nextTag := nextTag))
  {
    hide Uuid, Prefix, IsLocal, DeletedBetween, Doomed, IsId;
    var s' := s.(replies := replies, nextTag := nextTag);
    TroubleIsContained(s, s', {});
    hide RowsOk, SnapshotsOk;
    assert forall i: nat, x :: Reaches(s', i, x) ==> Reaches(s, i, x);
    assert forall i: nat, j: nat :: Followed(s', i, j) ==> Followed(s, i, j);
  }

  /** Indexing a new id. */
  lemma IndexingKeepsInv(s: State, id: Id)
    requires Inv(s)
    ensures Inv(s.(index := s.index + {id}))
  {
    hide Uuid, Prefix, IsLocal, DeletedBetween, Doomed, IsId;
    var s' := s.(index := s.index + {id});
    TroubleIsContained(s, s', {});
    hide RowsOk, SnapshotsOk;
    assert forall i: nat, x :: Reaches(s', i, x) ==> Reaches(s, i, x);
    assert forall i: nat, j: nat :: Followed(s', i, j) ==> Followed(s, i, j);
  }

  /** What a put must find to be queued. */
  ghost predicate PutFits(s: State, a: Asset) {
    Untroubled(s, Uuid(a)) && Detached(s, Uuid(a))
  }

  /** Appending a request that fits the rest of the state. */
  lemma PushKeepsInv(s: State, r: Request)
    requires Inv(s)
    requires r.Put? ==> PutFits(s, r.asset)
    requires r.PurgeLocals? ==> !Harmful(s, r.prefix)
    ensures Inv(s.(work := s.work + [r]))
  {
    var s' := s.(work := s.work + [r]);
    PushDoomed(s.work, r);
    PushKeepsPuts(s, r);
    PushKeepsPurges(s, r);
    assert FailuresOk(s') by { PushKeepsFailures(s, r); }
    hide PutsOk, PurgesOk, FailuresOk, RowsOk, SnapshotsOk;
    hide Harmful, DeletedBetween, Doomed, Uuid, Prefix, IsLocal, IsId;
    assert DisksOk(s');
    TroubleIsContained(s, s', if r.Put? then {Uuid(r.asset)} else {});
  }

  lemma PushKeepsPuts(s: State, r: Request)
    requires PutsOk(s) && (r.Put? ==> Untroubled(s, Uuid(r.asset)))
    ensures PutsOk(s.(work := s.work + [r]))
  {
    hide Uuid;
    var s' := s.(work := s.work + [r]);
    forall i: nat | i < |s'.work| && s'.work[i].Put?
      ensures PutOk(s', i)
    {
      if i < |s.work| {
        assert PutOk(s, i);
      }
    }
  }

  lemma PushKeepsFailures(s: State, r: Request)
    requires FailuresOk(s) && (r.Put? ==> Untroubled(s, Uuid(r.asset)))
    ensures FailuresOk(s.(work := s.work + [r]))
  {
    hide Uuid;
    var s' := s.(work := s.work + [r]);
    forall i | 0 <= i < |s.posted| && s.posted[i].WriteFailed?
      ensures FailureOk(s', s.posted[i].id)
    {
      assert FailureOk(s, s.posted[i].id);
    }
  }

  lemma PushKeepsPurges(s: State, r: Request)
    requires PurgesOk(s) && (r.PurgeLocals? ==> !Harmful(s, r.prefix))
    ensures PurgesOk(s.(work := s.work + [r]))
  {
    PushDeletes(s.work, r);
    hide Uuid, Prefix, IsLocal, DeletedBetween;
    var s' := s.(work := s.work + [r]);
    forall i: nat, x | Reaches(s', i, x)
      ensures !InSnapshot(s', x)
    {
      if i < |s.work| {
        assert Reaches(s, i, x);
      } else {
        assert x in LocalsUnder(s, r.prefix) && !InSnapshot(s, x);
      }
    }
    forall i: nat, j: nat | Followed(s', i, j)
      ensures Dead(s', i, s'.work[i].prefix)
    {
      if j < |s.work| {
        assert Followed(s, i, j);
      }
      assert Dead(s, i, s.work[i].prefix);
    }
  }

  /** Taking the front request away, when it is not a deletion that something waits for. */
  lemma PopKeepsInv(s: State)
    requires Inv(s) && s.work != [] && !s.work[0].DeleteLocals?
    ensures Inv(s.(work := s.work[1..]))
  {
    var s' := s.(work := s.work[1..]);
    PopDoomed(s.work);
    PopKeepsPurges(s);
    hide Uuid, Prefix, IsLocal, DeletedBetween, Doomed, IsId, PurgesOk;
    assert forall x :: NoPut(s, x) ==> NoPut(s', x);
    PopKeepsPuts(s);
    TroubleIsContained(s, s', {});
    hide RowsOk, SnapshotsOk, PutsOk;
  }

  lemma PopKeepsPuts(s: State)
    requires PutsOk(s) && s.work != []
    ensures PutsOk(s.(work := s.work[1..]))
  {
    hide Uuid;
    var s' := s.(work := s.work[1..]);
    forall i: nat | i < |s'.work| && s'.work[i].Put?
      ensures PutOk(s', i)
    {
      assert PutOk(s, i + 1);
    }
  }

  lemma PopKeepsPurges(s: State)
    requires PurgesOk(s) && s.work != [] && !s.work[0].DeleteLocals?
    ensures PurgesOk(s.(work := s.work[1..]))
  {
    PopDeletes(s.work);
    hide Uuid, Prefix, IsLocal, DeletedBetween;
    var s' := s.(work := s.work[1..]);
    forall i: nat, x | Reaches(s', i, x)
      ensures !InSnapshot(s', x)
    {
      assert Reaches(s, i + 1, x);
    }
    forall i: nat, j: nat | Followed(s', i, j)
      ensures Dead(s', i, s'.work[i].prefix)
    {
      assert Followed(s, i + 1, j + 1);
      forall k: nat | k < i && PutsLocal(s'.work[k], s'.work[i].prefix)
        ensures DeletedBetween(s'.work, s'.work[i].prefix, k, i)
      {
        assert PutsLocal(s.work[k + 1], s.work[i + 1].prefix);
      }
    }
  }

  /** An id the index does not know is nowhere: not stored, not queued, not failing, and no row depends on it. */
  lemma NotIndexedMeansFree(s: State, id: Id)
    requires Inv(s) && id !in s.index
    ensures id !in GlobalRows(s) && NoPut(s, id) && WriteFailed(id) !in s.posted && Detached(s, id)
  {
    hide Uuid, Prefix, IsLocal, DeletedBetween, Doomed, IsId, PurgesOk;
    assert forall k: nat :: k < |s.work| && s.work[k].Put? ==> PutOk(s, k);
    TroubledIsDetached(s, id);
  }

  /** No row depends on a troubled id. */
  lemma TroubledIsDetached(s: State, id: Id)
    requires RowsOk(s) && SnapshotsOk(s) && !Untroubled(s, id)
    ensures Detached(s, id)
  {
    hide Untroubled, Doomed, Prefix, LocalRows;
    forall i: nat | i < |s.posted| && s.posted[i].Unindex?
      ensures id !in s.posted[i].ids
    {
      assert SnapshotAtOk(s, i);
    }
  }

  lemma AskPutKeepsInv(s: State, a: Asset)
    requires Inv(s)
    ensures Inv(ApplyAskPut(s, a))
  {
    hide Uuid, Prefix, IsLocal, Inv, Doomed;
    var s' := ApplyAskPut(s, a);
    if Uuid(a) !in s.index {
      var s1 := s.(index := s.index + {Uuid(a)});
      IndexingKeepsInv(s, Uuid(a));
      NotIndexedMeansFree(s, Uuid(a));
      assert forall i: nat, y :: Holds(s1, i, y) ==> Holds(s, i, y);
      PushKeepsInv(s1, Put(a, s.nextTag));
      RepliesDoNotMatter(s1.(work := s.work + [Put(a, s.nextTag)]), s'.replies, s'.nextTag);
    } else {
      RepliesDoNotMatter(s, s'.replies, s'.nextTag);
    }
  }

  /** By the time a put reaches the worker, nothing is going on with its id, and no row depends on it. */
  lemma FrontPutFits(s: State)
    requires Inv(s) && s.work != [] && s.work[0].Put?
    ensures PutFits(s.(work := s.work[1..]), s.work[0].asset)
  {
    PopDoomed(s.work);
    hide Uuid, Prefix, IsLocal, IsId, PurgesOk, Doomed;
    var id, s' := Uuid(s.work[0].asset), s.(work := s.work[1..]);
    assert PutOk(s, 0) && !NoPut(s, id);
    TroubledIsDetached(s, id);
    hide RowsOk, SnapshotsOk;
    assert WriteFailed(id) !in s.posted;
    forall k: nat | k < |s'.work| && s'.work[k].Put?
      ensures Uuid(s'.work[k].asset) != id
    {
      assert s'.work[k] == s.work[k + 1];
    }
    assert forall i: nat, y :: Holds(s', i, y) ==> Holds(s, i, y);
  }

  /** A purge that others follow does not mind a new row of the prefix: its deletion comes first. */
  ghost predicate Expected(s: State, p: string) {
    forall i: nat, j: nat :: Followed(s, i, j) && s.work[i].prefix == p ==> DeletedBetween(s.work, p, 0, i)
  }

  lemma FrontPutIsExpected(s: State)
    requires PurgesOk(s) && s.work != [] && s.work[0].Put? && IsLocal(s.work[0].asset)
    ensures Expected(s.(work := s.work[1..]), Prefix(Uuid(s.work[0].asset)))
  {
    PopDeletes(s.work);
    hide Uuid, Prefix, IsLocal, DeletedBetween;
    var s', p := s.(work := s.work[1..]), Prefix(Uuid(s.work[0].asset));
    forall i: nat, j: nat | Followed(s', i, j) && s'.work[i].prefix == p
      ensures DeletedBetween(s'.work, p, 0, i)
    {
      assert Followed(s, i + 1, j + 1);
      assert PutsLocal(s.work[0], p);
    }
  }

  /** The state with a new row, findable or lost. */
  function WithRow(s: State, a: Asset, lost: bool): State {
    var id := Uuid(a);
    if IsLocal(a) then if lost then s.(lostLocals := s.lostLocals + {id}) else s.(locals := s.locals[id := a])
    else if lost then s.(lostGlobals := s.lostGlobals + {id}) else s.(globals := s.globals[id := a])
  }

  lemma StoringKeepsInv(s: State, a: Asset, lost: bool)
    requires Inv(s) && PutFits(s, a)
    requires IsLocal(a) ==> Uuid(a) !in LocalRows(s) && Expected(s, Prefix(Uuid(a)))
    ensures Inv(WithRow(s, a, lost))
  {
    var s', id := WithRow(s, a, lost), Uuid(a);
    StoringKeepsDisks(s, a, lost);
    StoringKeepsPurges(s, a, lost);
    hide Uuid, Prefix, IsLocal, DeletedBetween, Doomed, IsId, DisksOk, PurgesOk;
    assert GlobalRows(s') <= GlobalRows(s) + {id};
    assert PutsOk(s') by {
      assert forall i: nat :: i < |s.work| && s.work[i].Put? && PutOk(s, i) ==> PutOk(s', i);
    }
    assert FailuresOk(s');
    hide PutsOk, FailuresOk;
    StoringKeepsSnapshots(s, a, lost);
  }

  lemma StoringKeepsSnapshots(s: State, a: Asset, lost: bool)
    requires RowsOk(s) && SnapshotsOk(s) && PutFits(s, a)
    ensures var s' := WithRow(s, a, lost); RowsOk(s') && SnapshotsOk(s')
  {
    hide Uuid, Prefix, IsLocal, Doomed;
    var s', id := WithRow(s, a, lost), Uuid(a);
    assert LocalRows(s') == if IsLocal(a) then LocalRows(s) + {id} else LocalRows(s);
    assert GlobalRows(s') == if IsLocal(a) then GlobalRows(s) else GlobalRows(s) + {id};
    hide LocalRows, GlobalRows;
    assert forall x :: NoPut(s', x) <==> NoPut(s, x);
    if IsLocal(a) {
      assert forall x :: Untroubled(s, x) ==> Untroubled(s', x);
      hide Untroubled;
      assert forall i: nat, y :: Holds(s', i, y) ==> Holds(s, i, y);
      assert forall i: nat :: SnapshotAtOk(s, i) ==> SnapshotAtOk(s', i);
      assert forall x :: Live(s', x) ==> x == id || Live(s, x);
      forall i: nat, x, y | Holds(s', i, y) && x in LocalsUnder(s', Prefix(y))
        ensures Untroubled(s', x)
      {
        assert x == id || x in LocalsUnder(s, Prefix(y));
      }
    } else {
      TroubleIsContained(s, s', {id});
    }
  }

  lemma StoringKeepsDisks(s: State, a: Asset, lost: bool)
    requires DisksOk(s) && Untroubled(s, Uuid(a)) && (IsLocal(a) ==> Uuid(a) !in LocalRows(s))
    ensures DisksOk(WithRow(s, a, lost))
  {
    UuidIsId(a);
    hide Uuid, Prefix, IsLocal, IsId;
  }

  lemma StoringKeepsPurges(s: State, a: Asset, lost: bool)
    requires PurgesOk(s) && !InSnapshot(s, Uuid(a)) && (IsLocal(a) ==> Expected(s, Prefix(Uuid(a))))
    ensures PurgesOk(WithRow(s, a, lost))
  {
    hide Uuid, Prefix, IsLocal, DeletedBetween;
    var s', id := WithRow(s, a, lost), Uuid(a);
    assert LocalRows(s') == if IsLocal(a) then LocalRows(s) + {id} else LocalRows(s);
    hide LocalRows;
    forall i: nat, x | Reaches(s', i, x)
      ensures !InSnapshot(s', x)
    {
      assert x == id || Reaches(s, i, x);
    }
    forall i: nat, j: nat | Followed(s', i, j)
      ensures Dead(s', i, s'.work[i].prefix)
    {
      assert Followed(s, i, j);
    }
  }

  lemma PostingFailureKeepsInv(s: State, a: Asset)
    requires Inv(s) && PutFits(s, a)
    ensures Inv(s.(posted := s.posted + [WriteFailed(Uuid(a))]))
  {
    hide Uuid, Prefix, IsLocal, DeletedBetween, Doomed, IsId;
    var s' := s.(posted := s.posted + [WriteFailed(Uuid(a))]);
    TroubleIsContained(s, s', {Uuid(a)});
    hide RowsOk, SnapshotsOk;
    assert forall i: nat, x :: Reaches(s', i, x) ==> Reaches(s, i, x);
    assert forall i: nat, j: nat :: Followed(s', i, j) ==> Followed(s, i, j);
  }

  lemma WriteKeepsInv(s: State, outcome: Outcome)
    requires Inv(s) && s.work != [] && s.work[0].Put?
    ensures Inv(ApplyWork(s, outcome))
  {
    hide Uuid, Prefix, IsLocal, Expected, PutFits, Doomed, DisksOk, RowsOk, PutsOk, SnapshotsOk, FailuresOk;
    var a := s.work[0].asset;
    var rest, s' := s.(work := s.work[1..]), ApplyWork(s, outcome);
    FrontPutFits(s);
    PopKeepsInv(s);
    PostingFailureKeepsInv(rest, a);
    if IsLocal(a) { FrontPutIsExpected(s); }
    hide Inv;
    if !IsLocal(a) || Uuid(a) !in LocalRows(s) {
      StoringKeepsInv(rest, a, outcome.Lost?);
    }
    RepliesDoNotMatter(s'.(replies := s.replies), s'.replies, s'.nextTag);
  }

  lemma PostingSnapshotKeepsInv(s: State, p: string)
    requires Inv(s) && (forall x :: x in LocalsUnder(s, p) ==> Untroubled(s, x) && !InSnapshot(s, x))
    requires forall i: nat, x :: Reaches(s, i, x) ==> s.work[i].prefix != p
    ensures Inv(s.(posted := s.posted + [Unindex(LocalsUnder(s, p), p)]))
  {
    hide Uuid, Prefix, IsLocal, DeletedBetween, Doomed, IsId;
    var ids := LocalsUnder(s, p);
    var s' := s.(posted := s.posted + [Unindex(ids, p)]);
    assert forall x :: InSnapshot(s', x) ==> InSnapshot(s, x) || x in ids;
    forall i: nat, x | Reaches(s', i, x)
      ensures !InSnapshot(s', x)
    {
      assert Reaches(s, i, x);
    }
    assert forall i: nat, j: nat :: Followed(s', i, j) ==> Followed(s, i, j);
    assert PurgesOk(s');
    hide PurgesOk;
    assert forall x :: Untroubled(s, x) ==> Untroubled(s', x);
    assert FailuresOk(s') && PutsOk(s') && DisksOk(s');
    hide FailuresOk, PutsOk, DisksOk, Untroubled;
    assert forall x :: Live(s', x) ==> Live(s, x);
    PostingKeepsSnapshots(s, p);
  }

  lemma PostingKeepsSnapshots(s: State, p: string)
    requires SnapshotsOk(s) && (forall x :: x in LocalsUnder(s, p) ==> Untroubled(s, x) && !InSnapshot(s, x))
    ensures SnapshotsOk(s.(posted := s.posted + [Unindex(LocalsUnder(s, p), p)]))
  {
    hide Uuid, Prefix, IsLocal;
    var ids := LocalsUnder(s, p);
    var s' := s.(posted := s.posted + [Unindex(ids, p)]);
    assert forall x :: Untroubled(s, x) ==> Untroubled(s', x);
    hide Untroubled, LocalRows;
    assert forall i: nat :: i < |s.posted| && SnapshotAtOk(s, i) ==> SnapshotAtOk(s', i);
    assert SnapshotOk(s', ids, p);
    forall i: nat, y | Holds(s', i, y)
      ensures if i < |s.posted| then Holds(s, i, y) && InSnapshot(s, y) && Prefix(y) != p
        else i == |s.posted| && Prefix(y) == p
    {
    }
    forall i: nat, x, y | Holds(s', i, y) && x in LocalsUnder(s', Prefix(y))
      ensures Untroubled(s', x)
    {
      assert x in LocalsUnder(s, Prefix(y));
    }
  }

  /** Rows may go and the queue may move on without a snapshot noticing. */
  lemma SnapshotsStay(s: State, s': State)
    requires SnapshotsOk(s) && LocalRows(s') <= LocalRows(s) && s'.posted == s.posted
    requires forall x :: Untroubled(s, x) ==> Untroubled(s', x)
    ensures SnapshotsOk(s')
  {
    hide Untroubled, Prefix, LocalRows;
    assert forall i: nat, y :: Holds(s', i, y) ==> Holds(s, i, y);
    assert forall i: nat :: SnapshotAtOk(s, i) ==> SnapshotAtOk(s', i);
    assert forall x, y :: x in LocalsUnder(s', Prefix(y)) ==> x in LocalsUnder(s, Prefix(y));
  }

  /** A deletion that fails where that is not harmful, or one that goes well. */
  lemma DeletingKeepsInv(s: State, outcome: Outcome)
    requires Inv(s) && s.work != [] && s.work[0].DeleteLocals?
    requires outcome != Fine ==> !HarmfulFailure(s, s.work[0].prefix)
    ensures Inv(ApplyWork(s, outcome))
  {
    var p, s' := s.work[0].prefix, ApplyWork(s, outcome);
    PopDoomed(s.work);
    DeletingKeepsPurges(s, outcome);
    hide Uuid, Prefix, IsLocal, DeletedBetween, Doomed, IsId, PurgesOk;
    assert LocalRows(s') == (if outcome == Fine then LocalRows(s) - LocalsUnder(s, p) else LocalRows(s));
    assert GlobalRows(s') == GlobalRows(s);
    assert DisksOk(s');
    assert forall x :: NoPut(s, x) ==> NoPut(s', x);
    assert PutsOk(s') by { PopKeepsPuts(s); }
    assert FailuresOk(s');
    hide LocalRows, GlobalRows, DisksOk, PutsOk, FailuresOk;
    SnapshotsStay(s, s');
    forall x | Live(s', x)
      ensures Untroubled(s', x)
    {
      assert Prefix(x) != p ==> Live(s, x);
      assert Prefix(x) == p ==> !Endangered(s, s.work[1..], p, x);
    }
  }

  lemma DeletingKeepsPurges(s: State, outcome: Outcome)
    requires PurgesOk(s) && s.work != [] && s.work[0].DeleteLocals?
    requires outcome != Fine ==> !HarmfulFailure(s, s.work[0].prefix)
    ensures PurgesOk(ApplyWork(s, outcome))
  {
    var p, s' := s.work[0].prefix, ApplyWork(s, outcome);
    PopDeletes(s.work);
    hide Uuid, Prefix, IsLocal, DeletedBetween, Doomed, Untroubled;
    assert LocalRows(s') == (if outcome == Fine then LocalRows(s) - LocalsUnder(s, p) else LocalRows(s));
    hide LocalRows;
    forall i: nat, x | Reaches(s', i, x)
      ensures !InSnapshot(s', x)
    {
      if Prefix(x) == p {
        assert !Endangered(s, s.work[1..], p, x);
      } else {
        assert Reaches(s, i + 1, x);
      }
    }
    forall i: nat, j: nat | Followed(s', i, j)
      ensures Dead(s', i, s'.work[i].prefix)
    {
      assert Followed(s, i + 1, j + 1);
      FollowedStaysDead(s, outcome, i, j);
    }
  }

  lemma FollowedStaysDead(s: State, outcome: Outcome, i: nat, j: nat)
    requires s.work != [] && s.work[0].DeleteLocals?
    requires outcome != Fine ==> !HarmfulFailure(s, s.work[0].prefix)
    requires Followed(ApplyWork(s, outcome), i, j) && Dead(s, i + 1, s.work[i + 1].prefix)
    ensures var s' := ApplyWork(s, outcome); Dead(s', i, s'.work[i].prefix)
  {
    var p, s' := s.work[0].prefix, ApplyWork(s, outcome);
    var q := s'.work[i].prefix;
    PopDeletes(s.work);
    hide Uuid, Prefix, IsLocal, DeletedBetween, Doomed, Untroubled;
    assert LocalRows(s') == (if outcome == Fine then LocalRows(s) - LocalsUnder(s, p) else LocalRows(s));
    hide LocalRows;
    forall k: nat | k < i && PutsLocal(s'.work[k], q)
      ensures DeletedBetween(s'.work, q, k, i)
    {
      assert PutsLocal(s.work[k + 1], q);
    }
    forall x | x in LocalRows(s') && Prefix(x) == q
      ensures DeletedBetween(s'.work, q, 0, i)
    {
      assert q == p && !DeletedBetween(s'.work, q, 0, i) ==> ComesTwice(s.work[1..], p, i, j);
      assert q == p ==> !Endangered(s, s.work[1..], p, x);
    }
  }

  lemma RunningKeepsFailures(s: State, which: nat)
    requires FailuresOk(s) && which < |s.posted|
    ensures FailuresOk(s.(posted := s.posted[..which] + s.posted[which + 1..]))
  {
    hide Uuid;
    var s' := s.(posted := s.posted[..which] + s.posted[which + 1..]);
    assert forall i: nat :: i < |s'.posted| ==> s'.posted[i] == s.posted[if i < which then i else i + 1];
    forall i: nat
      ensures i < |s'.posted| && s'.posted[i].WriteFailed? ==> FailureOk(s', s'.posted[i].id)
    {
      var k := if i < which then i else i + 1;
      assert k < |s.posted| && s.posted[k].WriteFailed? ==> FailureOk(s, s.posted[k].id);
    }
  }

  lemma RunningKeepsSnapshots(s: State, which: nat)
    requires SnapshotsOk(s) && which < |s.posted|
    ensures var s' := s.(posted := s.posted[..which] + s.posted[which + 1..]);
      SnapshotsOk(s') && forall x :: InSnapshot(s', x) ==> InSnapshot(s, x)
  {
    hide Uuid, Prefix;
    var s' := s.(posted := s.posted[..which] + s.posted[which + 1..]);
    assert forall i: nat :: i < |s'.posted| ==> s'.posted[i] == s.posted[if i < which then i else i + 1];
    assert forall x :: Untroubled(s, x) ==> Untroubled(s', x);
    hide Untroubled;
    assert LocalRows(s') == LocalRows(s);
    hide LocalRows;
    forall i: nat
      ensures SnapshotAtOk(s', i)
    {
      assert SnapshotAtOk(s, if i < which then i else i + 1);
    }
    assert forall i: nat, y :: Holds(s', i, y) ==> Holds(s, if i < which then i else i + 1, y);
    assert forall x, y :: x in LocalsUnder(s', Prefix(y)) ==> x in LocalsUnder(s, Prefix(y));
  }

  lemma RunningKeepsInv(s: State, which: nat)
    requires Inv(s) && which < |s.posted|
    ensures Inv(s.(posted := s.posted[..which] + s.posted[which + 1..]))
  {
    RunningKeepsFailures(s, which);
    RunningKeepsSnapshots(s, which);
    hide Uuid, Prefix, IsLocal, DeletedBetween, Doomed, IsId, SnapshotsOk, FailuresOk, InSnapshot;
    var s' := s.(posted := s.posted[..which] + s.posted[which + 1..]);
    assert forall i: nat, x :: Reaches(s', i, x) ==> Reaches(s, i, x);
    assert forall i: nat, j: nat :: Followed(s', i, j) ==> Followed(s, i, j);
    assert forall x :: Live(s', x) ==> Live(s, x);
  }

  /** Ids may leave the index when nothing needs them there. */
  lemma UnindexingKeepsInv(s: State, ids: set<Id>)
    requires Inv(s)
    requires forall x :: x in ids ==>
      x !in GlobalRows(s) && NoPut(s, x) && WriteFailed(x) !in s.posted && Detached(s, x)
    ensures Inv(s.(index := s.index - ids))
  {
    hide Uuid, Prefix, IsLocal, DeletedBetween, Doomed, IsId;
    var s' := s.(index := s.index - ids);
    TroubleIsContained(s, s', ids);
    hide RowsOk, SnapshotsOk, Detached;
    assert forall i: nat, x :: Reaches(s', i, x) ==> Reaches(s, i, x);
    assert forall i: nat, j: nat :: Followed(s', i, j) ==> Followed(s, i, j);
    assert PutsOk(s') by {
      assert forall i: nat :: i < |s.work| && s.work[i].Put? && PutOk(s, i) ==> PutOk(s', i);
    }
  }

  /** What the front purge finds is free, and no purge that comes to the same rows is queued behind it. */
  lemma FrontPurgeIsAlone(s: State)
    requires Inv(s) && s.work != [] && s.work[0].PurgeLocals?
    ensures var rest := s.(work := s.work[1..]);
      && (forall x :: x in LocalsUnder(rest, s.work[0].prefix) ==> Untroubled(rest, x) && !InSnapshot(rest, x))
      && (forall i: nat, x :: Reaches(rest, i, x) ==> rest.work[i].prefix != s.work[0].prefix)
  {
    PopDeletes(s.work);
    var rest, p := s.(work := s.work[1..]), s.work[0].prefix;
    assert Comes(s.work, p, 0);
    ComingIsNotDoomed(s.work, p, 0);
    hide Uuid, Prefix, IsLocal, DeletedBetween, Doomed, IsId;
    forall x | x in LocalsUnder(rest, p)
      ensures Untroubled(rest, x) && !InSnapshot(rest, x)
    {
      assert Reaches(s, 0, x) && Live(s, x);
    }
    forall i: nat, x | Reaches(rest, i, x)
      ensures rest.work[i].prefix != p
    {
      assert rest.work[i].prefix == p ==> Followed(s, 0, i + 1);
    }
  }

  lemma WorkKeepsInv(s: State, outcome: Outcome)
    requires Inv(s) && Orderly(s, Work(outcome))
    ensures Inv(ApplyWork(s, outcome))
  {
    hide Uuid, Prefix, IsLocal, Inv, Untroubled, Reaches, HarmfulFailure;
    var rest, s' := s.(work := s.work[1..]), ApplyWork(s, outcome);
    match s.work[0]
    case Put(_, _) =>
      WriteKeepsInv(s, outcome);
    case Get(_, _) =>
      PopKeepsInv(s);
      RepliesDoNotMatter(rest, s'.replies, s'.nextTag);
    case PurgeLocals(p) =>
      PopKeepsInv(s);
      FrontPurgeIsAlone(s);
      PostingSnapshotKeepsInv(rest, p);
    case DeleteLocals(_) =>
      DeletingKeepsInv(s, outcome);
  }

  lemma UnindexFailed(s: State, which: nat, id: Id)
    requires Inv(s) && which < |s.posted| && s.posted[which] == WriteFailed(id)
    ensures Inv(ApplyHandle(s, which))
  {
    var rest := s.(posted := s.posted[..which] + s.posted[which + 1..]);
    RunningKeepsInv(s, which);
    hide Uuid, Prefix, IsLocal, DeletedBetween, Doomed, IsId, PutsOk, PurgesOk, DisksOk;
    assert FailureOk(s, id);
    assert forall i: nat :: i < |rest.posted| ==> rest.posted[i] == s.posted[if i < which then i else i + 1];
    TroubledIsDetached(s, id);
    assert forall i: nat, y :: Holds(rest, i, y) ==> Holds(s, if i < which then i else i + 1, y);
    hide Inv, SnapshotsOk, FailuresOk, RowsOk;
    UnindexingKeepsInv(rest, {id});
  }

  /** Once the deletion of a snapshot is queued, nothing depends on its ids. */
  lemma SnapshotIsFree(s: State, which: nat, ids: set<Id>, p: string, x: Id)
    requires Inv(s) && which < |s.posted| && s.posted[which] == Unindex(ids, p) && x in ids
    ensures Prefix(x) == p && Untroubled(s, x) && (x in LocalRows(s) ==> Doomed(s.work + [DeleteLocals(p)], p))
  {
    PushDoomed(s.work, DeleteLocals(p));
    if !Doomed(s.work, p) { NotDoomedMeans(s.work, p); }
    hide Uuid, IsLocal, DeletedBetween, Doomed, PurgeFree, IsId, Untroubled, Prefix;
    assert SnapshotAtOk(s, which) && InSnapshot(s, x);
    assert forall i: nat :: Comes(s.work, p, i) && x in LocalRows(s) ==> Reaches(s, i, x);
  }

  lemma UnindexSnapshot(s: State, which: nat, ids: set<Id>, p: string)
    requires Inv(s) && which < |s.posted| && s.posted[which] == Unindex(ids, p)
    ensures Inv(ApplyHandle(s, which))
  {
    var rest := s.(posted := s.posted[..which] + s.posted[which + 1..]);
    var queued := rest.(work := rest.work + [DeleteLocals(p)]);
    RunningKeepsInv(s, which);
    PushKeepsInv(rest, DeleteLocals(p));
    forall x | x in ids
      ensures x !in GlobalRows(queued) && NoPut(queued, x) && WriteFailed(x) !in queued.posted && Detached(queued, x)
    {
      SnapshotIsFree(s, which, ids, p, x);
      SnapshotIsAlone(s, which, ids, p, x);
    }
    hide Uuid, Prefix, IsLocal, DeletedBetween, Inv, Detached;
    UnindexingKeepsInv(queued, ids);
    assert ApplyHandle(s, which) == queued.(index := queued.index - ids);
  }

  lemma SnapshotIsAlone(s: State, which: nat, ids: set<Id>, p: string, x: Id)
    requires SnapshotsOk(s) && which < |s.posted| && s.posted[which] == Unindex(ids, p) && x in ids && Prefix(x) == p
    requires x in LocalRows(s) ==> Doomed(s.work + [DeleteLocals(p)], p)
    ensures Detached(s.(posted := s.posted[..which] + s.posted[which + 1..], work := s.work + [DeleteLocals(p)]), x)
  {
    hide Doomed, Prefix, Untroubled;
    var s' := s.(posted := s.posted[..which] + s.posted[which + 1..], work := s.work + [DeleteLocals(p)]);
    assert LocalRows(s') == LocalRows(s);
    hide LocalRows;
    assert forall i: nat :: i < |s'.posted| ==> s'.posted[i] == s.posted[if i < which then i else i + 1];
    forall i: nat | i < |s'.posted| && s'.posted[i].Unindex?
      ensures x !in s'.posted[i].ids
    {
      var k := if i < which then i else i + 1;
      assert s.posted[k].ids !! s.posted[which].ids;
    }
    forall i: nat, y | Holds(s', i, y) && Prefix(y) == Prefix(x)
      ensures x !in LocalRows(s')
    {
      assert Holds(s, if i < which then i else i + 1, y);
      assert x in LocalRows(s') ==> Holds(s, which, x);
    }
  }

  /** Every orderly step keeps the invariant. */
  lemma StepKeepsInv(s: State, e: Event)
    requires Inv(s) && Orderly(s, e)
    ensures Inv(Apply(s, e))
  {
    hide Uuid, Prefix, IsLocal, Inv, ApplyAskPut, ApplyWork, ApplyHandle, Harmful, HarmfulFailure;
    match e
    case AskPut(a) => AskPutKeepsInv(s, a);
    case AskGet(id) =>
      var s' := ApplyAskGet(s, id);
      PushKeepsInv(s, Get(id, s.nextTag));
      RepliesDoNotMatter(s'.(replies := s.replies, nextTag := s.nextTag), s'.replies, s'.nextTag);
    case AskPurge(p) => PushKeepsInv(s, PurgeLocals(p));
    case Work(outcome) => WorkKeepsInv(s, outcome);
    case Handle(which) =>
      match s.posted[which]
      case WriteFailed(id) => UnindexFailed(s, which, id);
      case Unindex(ids, p) => UnindexSnapshot(s, which, ids, p);
  }

  lemma {:induction false} RunKeepsInv(s: State, es: seq<Event>)
    requires Inv(s) && OrderlyRun(s, es)
    ensures Inv(Run(s, es))
    decreases |es|
  {
    hide Inv, Apply, Harmful, HarmfulFailure;
    if es != [] {
      StepKeepsInv(s, es[0]);
      RunKeepsInv(Apply(s, es[0]), es[1..]);
    }
  }
}

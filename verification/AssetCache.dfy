/**
 AssetCache of whip/AssetCache.cpp in front of the storage protocol: gets are answered from
 an LRU cache when they can be, and both completed gets and completed puts fill it.
 Runs have no locals purge and no mesh inform; the one other way a cached asset and the disk
 can come to differ is a write that is lost.
 */
module AssetCaches {
  import opened Assets
  import opened Bytes
  import opened LruSpec
  import opened LruCaches
  import opened VfsProtocol
  import opened VfsGuarantees
  import opened VfsBackends

  /** AssetSizeCalculator: the size of the asset and 40 bytes of overhead. */
  function AssetWeight(a: Asset): nat {
    |a| + 40
  }

  datatype Answer = FromCache(id: Id, asset: Asset) | FromBackend(reply: Reply)

  datatype Front = Front(
    vfs: State,
    list: seq<Entry<Id, Asset>>,
    delivered: nat,               // how many of the backend's callbacks have run
    puts: map<nat, Asset>,        // the asset bound into the callback of each put
    uncached: set<nat>,           // gets made with SF_DONTCACHE
    answers: seq<Answer>,         // history: the callbacks made to clients
    asks: nat)                    // history: the gets and puts clients made

  datatype FrontEvent =
    | AskFor(id: Id, dontCache: bool)
    | Offer(asset: Asset)
    | Deliver
    | Backend(event: Event)

  // ----- the steps -----

  function ApplyAskFor(f: Front, id: Id, dontCache: bool): Front {
    match Find(f.list, id)
    case Some(a) =>
      f.(list := Touch(f.list, id), answers := f.answers + [FromCache(id, a)], asks := f.asks + 1)
    case None =>
      f.(vfs := ApplyAskGet(f.vfs, id),
         uncached := if dontCache then f.uncached + {f.vfs.nextTag} else f.uncached,
         asks := f.asks + 1)
  }

  function ApplyOffer(f: Front, a: Asset): Front {
    f.(vfs := ApplyAskPut(f.vfs, a), puts := f.puts[f.vfs.nextTag := a], asks := f.asks + 1)
  }

  /** asyncGetCompleted and asyncPutCompleted: what a callback adds to the cache. */
  function Cached(f: Front, r: Reply, max: nat): seq<Entry<Id, Asset>> {
    if r.Found? && r.tag !in f.uncached then Insert(f.list, Uuid(r.asset), r.asset, AssetWeight, max)
    else if r.Stored? && r.tag in f.puts then Insert(f.list, Uuid(f.puts[r.tag]), f.puts[r.tag], AssetWeight, max)
    else f.list
  }

  function ApplyDeliver(f: Front, max: nat): Front
    requires f.delivered < |f.vfs.replies|
  {
    var r := f.vfs.replies[f.delivered];
    f.(list := Cached(f, r, max), delivered := f.delivered + 1, answers := f.answers + [FromBackend(r)])
  }

  /** The worker and the posted handlers run on; nobody asks for a purge. */
  predicate Allowed(f: Front, e: FrontEvent) {
    match e
    case Deliver => f.delivered < |f.vfs.replies|
    case Backend(ev) => (ev.Handle? || ev.Work?) && Enabled(f.vfs, ev)
    case _ => true
  }

  function FrontAfter(f: Front, e: FrontEvent, max: nat): Front
    requires Allowed(f, e)
  {
    match e
    case AskFor(id, dontCache) => ApplyAskFor(f, id, dontCache)
    case Offer(a) => ApplyOffer(f, a)
    case Deliver => ApplyDeliver(f, max)
    case Backend(ev) => f.(vfs := Apply(f.vfs, ev))
  }

  predicate PossibleRun(f: Front, es: seq<FrontEvent>, max: nat)
    decreases |es|
  {
    es == [] || (Allowed(f, es[0]) && PossibleRun(FrontAfter(f, es[0], max), es[1..], max))
  }

  function FrontRun(f: Front, es: seq<FrontEvent>, max: nat): Front
    requires PossibleRun(f, es, max)
    decreases |es|
  {
    if es == [] then f else FrontRun(FrontAfter(f, es[0], max), es[1..], max)
  }

  // ----- the invariant -----

  ghost predicate NoPurge(s: State) {
    && (forall i :: 0 <= i < |s.work| ==> !s.work[i].PurgeLocals? && !s.work[i].DeleteLocals?)
    && (forall i :: 0 <= i < |s.posted| ==> !s.posted[i].Unindex?)
  }

  /** The ids with a row at the invalid position. */
  function LostRows(s: State): set<Id> {
    s.lostGlobals + s.lostLocals
  }

  /** The asset is what the disk holds under the id, unless its write was lost; then the disk holds nothing. */
  ghost predicate Held(s: State, id: Id, a: Asset) {
    Uuid(a) == id && Lookup(s, id) == if id in LostRows(s) then [] else [a]
  }

  /** Every cached value carries its key, and is held. */
  ghost predicate CacheOk(s: State, list: seq<Entry<Id, Asset>>) {
    forall i :: 0 <= i < |list| ==> Held(s, list[i].key, list[i].data)
  }

  ghost predicate ReplyOk(s: State, puts: map<nat, Asset>, r: Reply) {
    && (r.Found? ==> Uuid(r.asset) == r.id && Lookup(s, r.id) == [r.asset] && Held(s, r.id, r.asset))
    && (r.Stored? ==> r.tag in puts && Held(s, r.id, puts[r.tag]))
  }

  ghost predicate AnswerOk(s: State, answer: Answer) {
    match answer
    case FromCache(id, a) => Held(s, id, a)
    case FromBackend(r) => r.Found? ==> Uuid(r.asset) == r.id && Lookup(s, r.id) == [r.asset]
  }

  ghost predicate FrontInv(f: Front) {
    && Inv(f.vfs) && NoPurge(f.vfs)
    && CacheOk(f.vfs, f.list)
    && (forall i :: 0 <= i < |f.vfs.replies| ==> ReplyOk(f.vfs, f.puts, f.vfs.replies[i]))
    && (forall i :: 0 <= i < |f.vfs.work| && f.vfs.work[i].Put? ==>
          f.vfs.work[i].tag in f.puts && f.puts[f.vfs.work[i].tag] == f.vfs.work[i].asset)
    && (forall t :: t in f.puts ==> t < f.vfs.nextTag)
    && (forall i :: 0 <= i < |f.answers| ==> AnswerOk(f.vfs, f.answers[i]))
  }

  // ----- the disk is write-once -----

  /** What the disk held it holds, and what was lost stays lost. */
  ghost predicate Later(s: State, s': State) {
    && (forall id :: Lookup(s, id) != [] ==> Lookup(s', id) == Lookup(s, id) && id !in LostRows(s'))
    && (forall id :: id in LostRows(s) ==> id in LostRows(s') && Lookup(s', id) == [])
  }

  /** Where nothing is purged, every row of the locals counts. */
  lemma RowIsLive(s: State, id: Id)
    requires RowsOk(s) && NoPurge(s) && id in LocalRows(s)
    ensures Untroubled(s, id)
  {
    assert !Doomed(s.work, Prefix(id));
    hide Doomed, Untroubled;
    assert Live(s, id);
  }

  lemma LostIsNotFindable(s: State, id: Id)
    requires Inv(s) && NoPurge(s)
    ensures id in LostRows(s) ==> Lookup(s, id) == []
  {
    if id in LocalRows(s) { RowIsLive(s, id); }
    hide Uuid, Prefix, IsLocal, IsId, RowsOk, PutsOk, PurgesOk, SnapshotsOk, FailuresOk;
  }

  /** The id of the put at the front of the queue is not on disk. */
  lemma FrontPutIsNew(s: State)
    requires Inv(s) && NoPurge(s) && s.work != [] && s.work[0].Put?
    ensures Uuid(s.work[0].asset) !in LocalRows(s) && Uuid(s.work[0].asset) !in GlobalRows(s)
  {
    assert PutOk(s, 0) && !NoPut(s, Uuid(s.work[0].asset));
    if Uuid(s.work[0].asset) in LocalRows(s) { RowIsLive(s, Uuid(s.work[0].asset)); }
  }

  lemma WriteOnce(s: State, e: Event, id: Id)
    requires Inv(s) && NoPurge(s) && Enabled(s, e)
    ensures Lookup(s, id) != [] ==> Lookup(Apply(s, e), id) == Lookup(s, id)
    ensures id in LostRows(s) ==> id in LostRows(Apply(s, e))
  {
    if e.Work? {
      assert !s.work[0].DeleteLocals?;
      if s.work[0].Put? { FrontPutIsNew(s); }
    }
    hide Uuid, Prefix, IsLocal, Inv, NoPurge;
  }

  lemma StepKeepsNoPurge(s: State, e: Event)
    requires Inv(s) && NoPurge(s) && Enabled(s, e) && !e.AskPurge?
    ensures Inv(Apply(s, e)) && NoPurge(Apply(s, e))
  {
    assert e.Work? ==> !s.work[0].DeleteLocals?;
    StepBeginsNoPurge(s, e);
    hide Inv, Apply, HarmfulFailure, Harmful, NoPurge;
    StepKeepsInv(s, e);
  }

  lemma StepBeginsNoPurge(s: State, e: Event)
    requires NoPurge(s) && Enabled(s, e) && !e.AskPurge?
    ensures NoPurge(Apply(s, e))
  {
    hide Uuid, Prefix, IsLocal, Lookup;
  }

  lemma StepIsLater(s: State, e: Event)
    requires Inv(s) && NoPurge(s) && Enabled(s, e) && !e.AskPurge?
    ensures Later(s, Apply(s, e))
  {
    StepKeepsNoPurge(s, e);
    hide Inv, NoPurge, Apply, Lookup, LostRows;
    forall id
      ensures Lookup(s, id) != [] ==> Lookup(Apply(s, e), id) == Lookup(s, id) && id !in LostRows(Apply(s, e))
      ensures id in LostRows(s) ==> id in LostRows(Apply(s, e)) && Lookup(Apply(s, e), id) == []
    {
      WriteOnce(s, e, id);
      LostIsNotFindable(s, id);
      LostIsNotFindable(Apply(s, e), id);
    }
  }

  /** What was true of the disk stays true of it later. */
  lemma HeldLater(s: State, s': State, puts: map<nat, Asset>, puts': map<nat, Asset>)
    requires Later(s, s') && forall t :: t in puts ==> t in puts' && puts'[t] == puts[t]
    ensures forall r :: ReplyOk(s, puts, r) ==> ReplyOk(s', puts', r)
    ensures forall list :: CacheOk(s, list) ==> CacheOk(s', list)
    ensures forall answer :: AnswerOk(s, answer) ==> AnswerOk(s', answer)
  {
    hide Uuid, Lookup, LostRows;
    assert forall id, a :: Held(s, id, a) ==> Held(s', id, a);
  }

  // ----- every step keeps the invariant -----

  lemma NewReply(s: State, outcome: Outcome, puts: map<nat, Asset>)
    requires Inv(s) && NoPurge(s) && s.work != []
    requires s.work[0].Put? ==> s.work[0].tag in puts && puts[s.work[0].tag] == s.work[0].asset
    ensures var s' := ApplyWork(s, outcome);
      s'.replies == s.replies || (|s'.replies| == |s.replies| + 1 && s'.replies[..|s.replies|] == s.replies
        && ReplyOk(s', puts, s'.replies[|s.replies|]))
  {
    if s.work[0].Put? { FrontPutIsNew(s); }
    if s.work[0].Get? { LookupIsKeyed(s, s.work[0].id); LostIsNotFindable(s, s.work[0].id); }
    hide Uuid, Prefix, IsLocal, Inv;
  }

  lemma LookupIsKeyed(s: State, id: Id)
    requires Inv(s)
    ensures Lookup(s, id) != [] ==> Uuid(Lookup(s, id)[0]) == id
  {
  }

  lemma BackendKeepsReplies(f: Front, ev: Event)
    requires FrontInv(f) && Allowed(f, Backend(ev))
    ensures var s' := Apply(f.vfs, ev); forall i :: 0 <= i < |s'.replies| ==> ReplyOk(s', f.puts, s'.replies[i])
  {
    var s, s' := f.vfs, Apply(f.vfs, ev);
    StepIsLater(s, ev);
    HeldLater(s, s', f.puts, f.puts);
    if ev.Work? { NewReply(s, ev.outcome, f.puts); }
    hide Uuid, Prefix, IsLocal, Inv, NoPurge, CacheOk, ReplyOk, AnswerOk, Lookup, LocalsUnder;
    assert !ev.Work? ==> s'.replies == s.replies;
    assert forall i :: 0 <= i < |s.replies| ==> s'.replies[i] == s.replies[i];
  }

  lemma BackendKeepsPuts(f: Front, ev: Event)
    requires FrontInv(f) && Allowed(f, Backend(ev))
    ensures var s' := Apply(f.vfs, ev);
      && s'.nextTag == f.vfs.nextTag
      && (forall i :: 0 <= i < |s'.work| && s'.work[i].Put? ==>
            s'.work[i].tag in f.puts && f.puts[s'.work[i].tag] == s'.work[i].asset)
  {
    hide Uuid, Prefix, IsLocal, Inv, NoPurge, CacheOk, ReplyOk, AnswerOk, Lookup, LocalsUnder;
    var s, s' := f.vfs, Apply(f.vfs, ev);
    if ev.Work? {
      assert s'.work == s.work[1..];
    } else {
      assert forall i :: 0 <= i < |s'.work| && s'.work[i].Put? ==> i < |s.work| && s'.work[i] == s.work[i];
    }
  }

  lemma BackendKeepsInv(f: Front, ev: Event)
    requires FrontInv(f) && Allowed(f, Backend(ev))
    ensures FrontInv(f.(vfs := Apply(f.vfs, ev)))
  {
    StepKeepsNoPurge(f.vfs, ev);
    StepIsLater(f.vfs, ev);
    HeldLater(f.vfs, Apply(f.vfs, ev), f.puts, f.puts);
    BackendKeepsReplies(f, ev);
    BackendKeepsPuts(f, ev);
    hide Inv, NoPurge, CacheOk, ReplyOk, AnswerOk, Apply;
  }

  lemma OfferKeepsInv(f: Front, a: Asset)
    requires FrontInv(f)
    ensures FrontInv(ApplyOffer(f, a))
  {
    var s, s' := f.vfs, Apply(f.vfs, AskPut(a));
    StepKeepsNoPurge(s, AskPut(a));
    StepIsLater(s, AskPut(a));
    HeldLater(s, s', f.puts, f.puts[s.nextTag := a]);
    hide Uuid, Prefix, IsLocal, Inv, NoPurge, CacheOk, Lookup, Held, AnswerOk;
  }

  lemma TouchKeepsCacheOk(s: State, list: seq<Entry<Id, Asset>>, id: Id)
    requires CacheOk(s, list)
    ensures CacheOk(s, Touch(list, id))
    ensures Find(list, id).Some? ==> Held(s, id, Find(list, id).value)
  {
    hide Held, Without;
    if Find(list, id).Some? {
      FindIsThere(list, id);
      assert forall i :: 0 < i < |Touch(list, id)| ==>
        Touch(list, id)[i] == Without(list, id)[i - 1] && Touch(list, id)[i] in list;
    }
  }

  lemma HitKeepsInv(f: Front, id: Id)
    requires FrontInv(f) && Find(f.list, id).Some?
    ensures FrontInv(f.(list := Touch(f.list, id), answers := f.answers + [FromCache(id, Find(f.list, id).value)]))
  {
    TouchKeepsCacheOk(f.vfs, f.list, id);
    hide Inv, NoPurge, ReplyOk, CacheOk, Touch, Find, Held;
  }

  lemma MissKeepsInv(f: Front, id: Id)
    requires FrontInv(f)
    ensures FrontInv(f.(vfs := ApplyAskGet(f.vfs, id)))
  {
    var s, s' := f.vfs, Apply(f.vfs, AskGet(id));
    StepKeepsNoPurge(s, AskGet(id));
    StepIsLater(s, AskGet(id));
    HeldLater(s, s', f.puts, f.puts);
    MissingIsOk(s', f.puts, id, s.nextTag);
    hide Inv, NoPurge, ReplyOk, CacheOk, AnswerOk;
  }

  lemma AskForKeepsInv(f: Front, id: Id, dontCache: bool)
    requires FrontInv(f)
    ensures FrontInv(ApplyAskFor(f, id, dontCache))
  {
    if Find(f.list, id).Some? { HitKeepsInv(f, id); } else { MissKeepsInv(f, id); }
    hide Inv, NoPurge, ReplyOk, CacheOk, AnswerOk, Touch, Find, ApplyAskGet;
  }

  lemma MissingIsOk(s: State, puts: map<nat, Asset>, id: Id, tag: nat)
    ensures ReplyOk(s, puts, Missing(id, tag))
  {
  }

  lemma DeliverKeepsInv(f: Front, max: nat)
    requires FrontInv(f) && f.delivered < |f.vfs.replies|
    ensures FrontInv(ApplyDeliver(f, max))
  {
    var r := f.vfs.replies[f.delivered];
    assert ReplyOk(f.vfs, f.puts, r);
    if r.Found? { InsertKeepsCacheOk(f.vfs, f.list, r.id, r.asset, max); }
    if r.Stored? { InsertKeepsCacheOk(f.vfs, f.list, r.id, f.puts[r.tag], max); }
    hide Uuid, Prefix, IsLocal, Inv, NoPurge, Lookup, CacheOk, Insert, LostRows;
  }

  lemma InsertKeepsCacheOk(s: State, list: seq<Entry<Id, Asset>>, id: Id, a: Asset, max: nat)
    requires CacheOk(s, list) && Held(s, id, a)
    ensures Uuid(a) == id && CacheOk(s, Insert(list, id, a, AssetWeight, max))
  {
    assert Uuid(a) == id;
    hide Held;
    var t := [Entry(id, a)] + Without(list, id);
    FitIsLongest(t, AssetWeight, max);
    hide Fit, Total;
    assert forall i :: 0 < i < |t| ==> t[i] == Without(list, id)[i - 1] && t[i] in list;
  }

  lemma FrontStepKeepsInv(f: Front, e: FrontEvent, max: nat)
    requires FrontInv(f) && Allowed(f, e)
    ensures FrontInv(FrontAfter(f, e, max))
  {
    hide FrontInv, ApplyAskFor, ApplyOffer, ApplyDeliver, Apply, Enabled;
    match e
    case AskFor(id, dontCache) => AskForKeepsInv(f, id, dontCache);
    case Offer(a) => OfferKeepsInv(f, a);
    case Deliver => DeliverKeepsInv(f, max);
    case Backend(ev) => BackendKeepsInv(f, ev);
  }

  lemma {:induction false} FrontRunKeepsInv(f: Front, es: seq<FrontEvent>, max: nat)
    requires FrontInv(f) && PossibleRun(f, es, max)
    ensures FrontInv(FrontRun(f, es, max))
    decreases |es|
  {
    hide FrontInv, FrontAfter, Allowed;
    if es != [] {
      FrontStepKeepsInv(f, es[0], max);
      FrontRunKeepsInv(FrontAfter(f, es[0], max), es[1..], max);
    }
  }

  // ----- transparency -----

  /** The id whose write a step loses, if any. */
  function LostBy(s: State, e: Event): set<Id>
    requires Enabled(s, e)
  {
    if e == Work(Lost) && s.work[0].Put? then {Uuid(s.work[0].asset)} else {}
  }

  /** The ids whose own writes a run loses. */
  function LostIn(f: Front, es: seq<FrontEvent>, max: nat): set<Id>
    requires PossibleRun(f, es, max)
    decreases |es|
  {
    if es == [] then {}
    else (if es[0].Backend? then LostBy(f.vfs, es[0].event) else {}) + LostIn(FrontAfter(f, es[0], max), es[1..], max)
  }

  lemma StepLoses(s: State, e: Event)
    requires Inv(s) && NoPurge(s) && Enabled(s, e) && !e.AskPurge?
    ensures LostRows(Apply(s, e)) == LostRows(s) + LostBy(s, e)
  {
    if e.Work? {
      assert !s.work[0].DeleteLocals?;
      if s.work[0].Put? { FrontPutIsNew(s); }
    }
    hide Uuid, Prefix, IsLocal, Inv, NoPurge;
  }

  lemma FrontStepLoses(f: Front, e: FrontEvent, max: nat)
    requires FrontInv(f) && Allowed(f, e)
    ensures LostRows(FrontAfter(f, e, max).vfs) ==
            LostRows(f.vfs) + if e.Backend? then LostBy(f.vfs, e.event) else {}
  {
    if e.Backend? { StepLoses(f.vfs, e.event); }
    hide FrontInv, Apply, Cached, Find, Touch, Uuid, LostBy;
  }

  lemma {:induction false} RunLoses(f: Front, es: seq<FrontEvent>, max: nat)
    requires FrontInv(f) && PossibleRun(f, es, max)
    ensures LostRows(FrontRun(f, es, max).vfs) == LostRows(f.vfs) + LostIn(f, es, max)
    decreases |es|
  {
    hide FrontInv, FrontAfter, LostRows, LostBy, Enabled;
    if es != [] {
      FrontStepKeepsInv(f, es[0], max);
      FrontStepLoses(f, es[0], max);
      RunLoses(FrontAfter(f, es[0], max), es[1..], max);
    }
  }

  /** What a drained backend answers to a get of an id. */
  ghost predicate AnswersGet(r: Reply, id: Id, tag: nat, held: seq<Asset>) {
    || r == ReadFailed(id, tag)
    || (if held == [] then r == Missing(id, tag) else r == Found(id, tag, held[0]))
  }

  /** What the worker makes of the queue when nothing else happens. */
  function Drain(s: State, outcomes: seq<Outcome>): State
    requires |outcomes| == |s.work|
    decreases |s.work|
  {
    if s.work == [] then s else Drain(ApplyWork(s, outcomes[0]), outcomes[1..])
  }

  /** Draining the queue answers the get at its end with what the disk held all along, or that it was lost. */
  lemma {:induction false} DrainAnswers(s: State, outcomes: seq<Outcome>, id: Id, tag: nat)
    requires Inv(s) && NoPurge(s) && |outcomes| == |s.work| && (Lookup(s, id) != [] || id in LostRows(s))
    requires s.work != [] && s.work[|s.work| - 1] == Get(id, tag)
    ensures var rs := Drain(s, outcomes).replies; rs != [] && AnswersGet(rs[|rs| - 1], id, tag, Lookup(s, id))
    decreases |s.work|
  {
    hide Inv, NoPurge, Lookup, LostRows, ApplyWork;
    var s' := ApplyWork(s, outcomes[0]);
    if |s.work| == 1 {
      LastAnswers(s, outcomes, id, tag);
    } else {
      StepKeepsNoPurge(s, Work(outcomes[0]));
      StepIsLater(s, Work(outcomes[0]));
      LostIsNotFindable(s, id);
      WorkPops(s, outcomes[0]);
      assert s'.work[|s'.work| - 1] == Get(id, tag);
      DrainAnswers(s', outcomes[1..], id, tag);
    }
  }

  lemma WorkPops(s: State, outcome: Outcome)
    requires s.work != []
    ensures ApplyWork(s, outcome).work == s.work[1..]
  {
    hide Uuid, Prefix, IsLocal, Lookup;
  }

  lemma LastAnswers(s: State, outcomes: seq<Outcome>, id: Id, tag: nat)
    requires s.work == [Get(id, tag)] && |outcomes| == 1
    ensures var rs := Drain(s, outcomes).replies; rs != [] && AnswersGet(rs[|rs| - 1], id, tag, Lookup(s, id))
  {
    var s' := ApplyWork(s, outcomes[0]);
    assert s'.work == [] && Drain(s', outcomes[1..]) == s';
  }

  lemma HeldIsIndexed(s: State, id: Id)
    requires Inv(s) && NoPurge(s) && (Lookup(s, id) != [] || id in LostRows(s))
    ensures id in s.index
  {
    if id in LocalRows(s) { RowIsLive(s, id); }
    hide RowsOk, PutsOk, PurgesOk, SnapshotsOk, FailuresOk, Uuid, Prefix, IsLocal, IsId;
  }

  lemma GetIsAnswered(s: State, id: Id, outcomes: seq<Outcome>)
    requires Inv(s) && NoPurge(s) && id in s.index && (Lookup(s, id) != [] || id in LostRows(s))
    requires |outcomes| == |s.work| + 1
    ensures |ApplyAskGet(s, id).work| == |outcomes|
    ensures var rs := Drain(ApplyAskGet(s, id), outcomes).replies;
      rs != [] && AnswersGet(rs[|rs| - 1], id, s.nextTag, Lookup(s, id))
  {
    StepKeepsNoPurge(s, AskGet(id));
    hide Inv, NoPurge, Drain;
    var s1 := ApplyAskGet(s, id);
    assert Lookup(s1, id) == Lookup(s, id) && LostRows(s1) == LostRows(s);
    DrainAnswers(s1, outcomes, id, s.nextTag);
  }

  /**
   In every run, for every cache size and eviction history: what the cache would answer to a
   get carries the id asked for; it differs from what the disk holds if and only if the
   asset's own write was lost; and the backend alone, however its queue goes on, would answer
   what the disk holds, or not found where the write was lost, short of a read error.
   */
  lemma CacheIsTransparent(f: Front, es: seq<FrontEvent>, max: nat, id: Id, a: Asset, outcomes: seq<Outcome>)
    requires FrontInv(f) && PossibleRun(f, es, max)
    requires Find(FrontRun(f, es, max).list, id) == Some(a)
    requires |outcomes| == |FrontRun(f, es, max).vfs.work| + 1
    ensures var s := FrontRun(f, es, max).vfs;
      && Uuid(a) == id
      && (Lookup(s, id) != [a] <==> id in LostRows(f.vfs) + LostIn(f, es, max))
      && (Lookup(s, id) != [a] ==> Lookup(s, id) == [])
      && |ApplyAskGet(s, id).work| == |outcomes|
      && var rs := Drain(ApplyAskGet(s, id), outcomes).replies;
         rs != [] && AnswersGet(rs[|rs| - 1], id, s.nextTag, Lookup(s, id))
  {
    hide Inv, NoPurge, FrontRun, Uuid, Prefix, IsLocal, LostIn;
    FrontRunKeepsInv(f, es, max);
    RunLoses(f, es, max);
    var g := FrontRun(f, es, max);
    TouchKeepsCacheOk(g.vfs, g.list, id);
    assert Held(g.vfs, id, a);
    HeldIsIndexed(g.vfs, id);
    hide FrontInv, Lookup;
    GetIsAnswered(g.vfs, id, outcomes);
  }

  /** An empty cache over a freshly loaded store is where runs begin. */
  function Empty(d: Files): Front {
    Front(Loaded(d), [], 0, map[], {}, [], 0)
  }

  lemma EmptyIsInv(d: Files)
    requires Sound(d)
    ensures FrontInv(Empty(d)) && Accounts(Empty(d))
  {
    LoadedIsInv(d);
    hide Inv, Ledger;
  }

  /** The cache answers with an asset that is nowhere on disk when its write was lost. */
  lemma LostWriteIsCached(d: Files, a: Asset, max: nat)
    requires Sound(d) && Uuid(a) !in Loaded(d).index && AssetWeight(a) <= max
    ensures var es := [Offer(a), Backend(Work(Lost)), Deliver];
      && PossibleRun(Empty(d), es, max)
      && var f := FrontRun(Empty(d), es, max); Find(f.list, Uuid(a)) == Some(a) && Lookup(f.vfs, Uuid(a)) == []
  {
    var f1 := ApplyOffer(Empty(d), a);
    var f2 := f1.(vfs := ApplyWork(f1.vfs, Lost));
    LostPut(d, a);
    OneFits(Uuid(a), a, max);
    hide Uuid, Lookup, Loaded, ApplyAskPut, ApplyWork, Insert, Find;
    var f3 := ApplyDeliver(f2, max);
    assert f3.list == [Entry(Uuid(a), a)] && f3.vfs == f2.vfs;
    ThreeSteps(Empty(d), a, max);
  }

  lemma LostPut(d: Files, a: Asset)
    requires Sound(d) && Uuid(a) !in Loaded(d).index
    ensures var s := ApplyAskPut(Loaded(d), a);
      && s.work == [Put(a, 0)]
      && ApplyWork(s, Lost).replies == [Stored(Uuid(a), 0)] && Lookup(ApplyWork(s, Lost), Uuid(a)) == []
  {
    hide Uuid, IsLocal;
  }

  lemma ThreeSteps(f: Front, a: Asset, max: nat)
    requires var s := ApplyAskPut(f.vfs, a); s.work != [] && f.delivered < |ApplyWork(s, Lost).replies|
    ensures var es := [Offer(a), Backend(Work(Lost)), Deliver];
      && PossibleRun(f, es, max)
      && var f1 := ApplyOffer(f, a); FrontRun(f, es, max) == ApplyDeliver(f1.(vfs := ApplyWork(f1.vfs, Lost)), max)
  {
    hide Uuid, ApplyAskPut, ApplyWork, Cached;
    var es := [Offer(a), Backend(Work(Lost)), Deliver];
    var f1 := ApplyOffer(f, a);
    var f2 := f1.(vfs := ApplyWork(f1.vfs, Lost));
    assert es[1..] == [Backend(Work(Lost)), Deliver] && es[1..][1..] == [Deliver] && es[1..][1..][1..] == [];
    assert PossibleRun(f2, [Deliver], max) && FrontRun(f2, [Deliver], max) == ApplyDeliver(f2, max);
    assert PossibleRun(f1, es[1..], max) && FrontRun(f1, es[1..], max) == ApplyDeliver(f2, max);
  }

  lemma OneFits(id: Id, a: Asset, max: nat)
    requires AssetWeight(a) <= max
    ensures Insert([], id, a, AssetWeight, max) == [Entry(id, a)]
    ensures Find([Entry(id, a)], id) == Some(a)
  {
    TotalSingle(Entry(id, a), AssetWeight);
  }

  // ----- one answer per ask -----

  /** The callbacks passed on from the backend, in order. */
  function PassedOn(answers: seq<Answer>): seq<Reply> {
    if answers == [] then []
    else
      var last := answers[|answers| - 1];
      PassedOn(answers[..|answers| - 1]) + (if last.FromBackend? then [last.reply] else [])
  }

  /**
   The backend's callbacks are passed on in order, each once, and every ask is answered,
   waits in the backend's queue, or waits for its callback to be passed on.
   */
  ghost predicate Accounts(f: Front) {
    && Ledger(f.vfs) && f.delivered <= |f.vfs.replies|
    && PassedOn(f.answers) == f.vfs.replies[..f.delivered]
    && f.asks == |f.answers| - f.delivered + f.vfs.nextTag
  }

  lemma PassedOnNext(answers: seq<Answer>, last: Answer)
    ensures PassedOn(answers + [last]) == PassedOn(answers) + if last.FromBackend? then [last.reply] else []
  {
    assert (answers + [last])[..|answers|] == answers;
  }

  lemma RepliesOnlyGrow(s: State, e: Event)
    requires Enabled(s, e)
    ensures s.replies <= Apply(s, e).replies
  {
    hide Uuid, Prefix, IsLocal, Lookup;
  }

  lemma StepKeepsAccounts(f: Front, e: FrontEvent, max: nat)
    requires Accounts(f) && Allowed(f, e)
    ensures Accounts(FrontAfter(f, e, max))
  {
    hide Ledger, PassedOn, Cached, Find, Touch, Uuid;
    match e
    case AskFor(id, _) =>
      RepliesOnlyGrow(f.vfs, AskGet(id));
      StepKeepsLedger(f.vfs, AskGet(id));
      if Find(f.list, id).Some? { PassedOnNext(f.answers, FromCache(id, Find(f.list, id).value)); }
    case Offer(a) =>
      RepliesOnlyGrow(f.vfs, AskPut(a));
      StepKeepsLedger(f.vfs, AskPut(a));
    case Deliver =>
      var r := f.vfs.replies[f.delivered];
      PassedOnNext(f.answers, FromBackend(r));
      assert f.vfs.replies[..f.delivered + 1] == f.vfs.replies[..f.delivered] + [r];
    case Backend(ev) =>
      RepliesOnlyGrow(f.vfs, ev);
      StepKeepsLedger(f.vfs, ev);
      WorkGivesNoTag(f.vfs, ev);
      hide Apply;
  }

  lemma WorkGivesNoTag(s: State, e: Event)
    requires Enabled(s, e) && (e.Work? || e.Handle?)
    ensures Apply(s, e).nextTag == s.nextTag
  {
    hide Uuid, Prefix, IsLocal, Lookup;
  }

  lemma {:induction false} RunKeepsAccounts(f: Front, es: seq<FrontEvent>, max: nat)
    requires Accounts(f) && PossibleRun(f, es, max)
    ensures Accounts(FrontRun(f, es, max))
    decreases |es|
  {
    hide Accounts, FrontAfter, Allowed;
    if es != [] {
      StepKeepsAccounts(f, es[0], max);
      RunKeepsAccounts(FrontAfter(f, es[0], max), es[1..], max);
    }
  }

  lemma {:induction false} IssuedCount(n: nat)
    ensures |Issued(n)| == n
  {
    if n > 0 { IssuedCount(n - 1); }
  }

  /**
   In every run from an empty cache: each asset ever handed to a client is what the disk holds
   under the id asked for, or the disk holds nothing because that asset's write was lost; and
   each ask has one answer, or one request queued, or one callback still to be passed on.
   */
  lemma EveryAnswerIsTrue(d: Files, es: seq<FrontEvent>, max: nat)
    requires Sound(d) && PossibleRun(Empty(d), es, max)
    ensures var f := FrontRun(Empty(d), es, max);
      && (forall i :: 0 <= i < |f.answers| ==> AnswerOk(f.vfs, f.answers[i]))
      && f.asks == |f.answers| + |WorkTags(f.vfs.work)| + (|f.vfs.replies| - f.delivered)
      && f.delivered <= |f.vfs.replies| && PassedOn(f.answers) == f.vfs.replies[..f.delivered]
      && (forall tag: nat :: multiset(ReplyTags(f.vfs.replies))[tag] <= 1)
  {
    EmptyIsInv(d);
    FrontRunKeepsInv(Empty(d), es, max);
    RunKeepsAccounts(Empty(d), es, max);
    var s := FrontRun(Empty(d), es, max).vfs;
    IssuedCount(s.nextTag);
    hide Issued, WorkTags, PassedOn, AnswerOk, FrontRun, PossibleRun, Inv, NoPurge, CacheOk, ReplyOk;
    assert |ReplyTags(s.replies)| == |s.replies|;
    forall tag: nat
      ensures multiset(ReplyTags(s.replies))[tag] <= 1
    {
      LedgerMeansOnce(s, tag);
    }
  }

  // ----- the object -----

  class AssetCache {
    const cache: LruCache<Id, Asset>       // _cache
    const backend: VfsBackend              // _persistentStorage
    var delivered: nat
    var puts: map<nat, Asset>
    var uncached: set<nat>
    var answers: seq<Answer>
    var asks: nat

    ghost predicate Valid()
      reads this, cache, backend
    {
      cache.Valid() && cache.weight == AssetWeight
    }

    ghost function View(): Front
      reads this, cache, backend
    {
      Front(backend.View(), cache.Contents(), delivered, puts, uncached, answers, asks)
    }

    constructor (maxCacheSize: nat, persistentStorage: VfsBackend)
      ensures Valid() && View() == Front(persistentStorage.View(), [], 0, map[], {}, [], 0)
      ensures fresh(cache) && backend == persistentStorage && cache.maxSize == maxCacheSize
    {
      cache := new LruCache(maxCacheSize, AssetWeight);
      backend := persistentStorage;
      delivered, puts, uncached, answers, asks := 0, map[], {}, [], 0;
    }

    method GetAsset(id: Id, dontCache: bool)
      requires Valid()
      modifies this, cache, backend
      ensures Valid() && View() == ApplyAskFor(old(View()), id, dontCache)
    {
      hide Inv, ApplyAskGet, Find, Without, Linked, Entries, Total;
      asks := asks + 1;
      var asset := cache.Fetch(id);
      match asset
      case Some(a) =>
        answers := answers + [FromCache(id, a)];
      case None =>
        if dontCache {
          uncached := uncached + {backend.nextTag};
        }
        backend.GetAsset(id);
    }

    method StoreAsset(asset: Asset)
      requires Valid()
      modifies this, backend
      ensures Valid() && View() == ApplyOffer(old(View()), asset)
    {
      hide Inv, ApplyAskPut;
      asks := asks + 1;
      puts := puts[backend.nextTag := asset];
      backend.StoreAsset(asset);
    }

    /** asyncGetCompleted or asyncPutCompleted, whichever callback is next. */
    method CallbackNext()
      requires Valid() && delivered < |backend.replies|
      modifies this, cache
      ensures Valid() && View() == ApplyDeliver(old(View()), cache.maxSize)
    {
      var r := backend.replies[delivered];
      if r.Found? && r.tag !in uncached {
        cache.Insert(Uuid(r.asset), r.asset);
      } else if r.Stored? && r.tag in puts {
        cache.Insert(Uuid(puts[r.tag]), puts[r.tag]);
      }
      delivered := delivered + 1;
      answers := answers + [FromBackend(r)];
    }
  }
}

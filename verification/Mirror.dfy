/**
 Replication from end to end: the globals that a master keeps under each prefix
 (whip/VFSBackend.cpp), listed, split and fetched by a slave that starts at prefix 000
 (whip/PullReplicationService.cpp), are all there when the round is over.
 */
module Mirror {
  import opened IdLists
  import opened PullReplication
  import Uuids
  import VfsProtocol
  import VfsGuarantees

  /** The rows of the globals index files, by prefix number: exactly those of the store, each once. */
  ghost predicate Keeps(stored: int -> seq<Id>, store: set<Id>) {
    && (forall id :: id in store ==> Uuids.IsValid(id))
    && (forall p :: Distinct(stored(p)))
    && (forall p, id :: id in stored(p) <==> id in store && 0 <= p <= 0xfff && Uuids.PrefixText(p) == id[..3])
  }

  function Master(stored: int -> seq<Id>): int -> string {
    p => Listing(stored(p))
  }

  lemma {:induction false} NonEmptyHas(parts: seq<Id>, id: Id)
    ensures id in NonEmpty(parts) <==> id in parts && id != ""
  {
    if parts == [] {
    } else {
      NonEmptyHas(parts[1..], id);
      assert parts == [parts[0]] + parts[1..];
    }
  }

  lemma {:induction false} NonEmptyDistinct(parts: seq<Id>)
    requires Distinct(NonEmpty(parts))
    ensures DistinctIds(parts)
  {
    if parts == [] {
    } else {
      var rest := NonEmpty(parts[1..]);
      if parts[0] != "" {
        assert NonEmpty(parts) == [parts[0]] + rest;
        DistinctTail([parts[0]] + rest);
        assert ([parts[0]] + rest)[1..] == rest;
        NonEmptyHas(parts[1..], parts[0]);
      } else {
        assert NonEmpty(parts) == rest;
      }
      NonEmptyDistinct(parts[1..]);
      FirstDiffers(parts);
    }
  }

  lemma FirstDiffers(parts: seq<Id>)
    requires parts != [] && DistinctIds(parts[1..]) && (parts[0] != "" ==> parts[0] !in parts[1..])
    ensures DistinctIds(parts)
  {
    var rest := parts[1..];
    forall i, j | 0 <= i < j < |parts| && parts[i] != ""
      ensures parts[i] != parts[j]
    {
      assert parts[j] == rest[j - 1];
      if i > 0 {
        assert parts[i] == rest[i - 1];
      }
    }
  }

  lemma ValidIdsAreWellformed(stored: int -> seq<Id>, store: set<Id>, p: int)
    requires Keeps(stored, store)
    ensures Wellformed(stored(p))
  {
    forall i | 0 <= i < |stored(p)|
      ensures stored(p)[i] != "" && ',' !in stored(p)[i]
    {
      var id := stored(p)[i];
      assert id in stored(p) && Uuids.IsValid(id);
      assert forall k :: 0 <= k < |id| ==> Uuids.IsHex(id[k]);
    }
  }

  /** What a slave reads out of the master's listing of a prefix. */
  lemma ListingIsStore(stored: int -> seq<Id>, store: set<Id>, p: int)
    requires Keeps(stored, store)
    ensures DistinctIds(Split(Master(stored)(p)))
    ensures forall id :: id in ListedIds(Split(Master(stored)(p))) <==> id in stored(p)
  {
    ValidIdsAreWellformed(stored, store, p);
    ListingRoundTrip(stored(p));
    var parts := Split(Listing(stored(p)));
    hide Split, Listing, Keeps;
    assert NonEmpty(parts) == stored(p);
    assert Distinct(stored(p)) by { KeptDistinct(stored, store, p); }
    NonEmptyDistinct(parts);
    forall id
      ensures id in ListedIds(parts) <==> id in stored(p)
    {
      NonEmptyHas(parts, id);
    }
  }

  lemma KeptDistinct(stored: int -> seq<Id>, store: set<Id>, p: int)
    requires Keeps(stored, store)
    ensures Distinct(stored(p))
  {
  }

  /** The ids that the master's storage answers a get of with an asset. */
  function Serves(s: VfsProtocol.State): set<Id> {
    set id | id in s.globals.Keys + s.locals.Keys && id in s.index && VfsProtocol.Lookup(s, id) != []
  }

  lemma GlobalsAreServed(d: VfsGuarantees.Files, past: seq<VfsProtocol.Event>)
    requires VfsGuarantees.Sound(d) && VfsProtocol.OrderlyRun(VfsGuarantees.Loaded(d), past)
    ensures var s := VfsProtocol.Run(VfsGuarantees.Loaded(d), past);
      s.globals.Keys <= Serves(s)
  {
    hide VfsProtocol.Run, VfsProtocol.OrderlyRun;
    VfsGuarantees.IndexIsSound(d, past);
  }

  /**
   Whatever the master's storage has been through, and however a round from prefix 000 goes,
   clients' stores included: once nothing more can happen in the round, the slave has every
   global that the master stores; a row at the invalid position is listed as well, and if the
   slave does not have that id, it could not be fetched.
   */
  lemma MirrorIsComplete(
    d: VfsGuarantees.Files, past: seq<VfsProtocol.Event>, stored: int -> seq<Id>,
    batchSize: nat, index: set<Id>, events: seq<Event>)
    requires VfsGuarantees.Sound(d) && VfsProtocol.OrderlyRun(VfsGuarantees.Loaded(d), past)
    requires Keeps(stored, VfsProtocol.GlobalRows(VfsProtocol.Run(VfsGuarantees.Loaded(d), past)))
    requires GoodRun(Fresh(0, batchSize, index), events, Master(stored),
                     Serves(VfsProtocol.Run(VfsGuarantees.Loaded(d), past)))
    requires Possible(Fresh(0, batchSize, index), events)
    requires Settled(Run(Fresh(0, batchSize, index), events), Master(stored),
                     Serves(VfsProtocol.Run(VfsGuarantees.Loaded(d), past)))
    ensures var s, r := VfsProtocol.Run(VfsGuarantees.Loaded(d), past), Run(Fresh(0, batchSize, index), events);
      && s.globals.Keys <= r.index
      && (forall id :: id in s.lostGlobals ==> id in r.index || id in r.failed)
  {
    hide VfsProtocol.Run, VfsProtocol.OrderlyRun, GoodRun, Possible, Settled, Run, Fresh, DistinctIds, ListedIds, Split;
    var s := VfsProtocol.Run(VfsGuarantees.Loaded(d), past);
    GlobalsAreServed(d, past);
    hide Serves;
    var master, store := Master(stored), VfsProtocol.GlobalRows(s);
    forall p
      ensures DistinctIds(Split(master(p)))
    {
      ListingIsStore(stored, store, p);
    }
    SettledRoundConverges(0, batchSize, index, master, Serves(s), events);
    var r := Run(Fresh(0, batchSize, index), events);
    forall id | id in store
      ensures id in r.index || (id in r.failed && id !in Serves(s))
    {
      var p := Uuids.OnePrefixEach(id);
      assert id in stored(p);
      ListingIsStore(stored, store, p);
      assert id in ListedIds(Split(master(p)));
    }
  }
}

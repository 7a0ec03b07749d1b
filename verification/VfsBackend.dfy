/**
 The object of whip/VFSBackend.cpp and whip/ExistenceIndex.cpp whose fields the protocol
 steps change.  Every method is proved to be one step of VfsProtocol.
 */
module VfsBackends {
  import opened Assets
  import opened VfsProtocol
  import opened VfsGuarantees

  class VfsBackend {
    var existingAssets: set<Id>     // _existenceIndex->_existingAssets
    var workQueue: seq<Request>     // _workQueue
    var posted: seq<Handler>        // handlers waiting in _ioService
    var globals: map<Id, Asset>     // the globals files of all prefixes
    var locals: map<Id, Asset>      // the locals files of all prefixes
    var lostGlobals: set<Id>        // rows of the globals index files at INVALID_POSITION
    var lostLocals: set<Id>         // rows of the locals index files at INVALID_POSITION
    var replies: seq<Reply>         // client callbacks, in the order they are posted
    var nextTag: nat

    ghost function View(): State
      reads this
    {
      State(existingAssets, workQueue, posted, globals, locals, lostGlobals, lostLocals, replies, nextTag)
    }

    /** ExistenceIndex::ExistenceIndex: one pass over the rows of every index file. */
    constructor (rows: seq<Id>, d: Files)
      requires Sound(d)
      requires forall id :: id in rows <==> id in Loaded(d).index
      ensures View() == Loaded(d) && Inv(View()) && Ledger(View())
    {
      existingAssets, workQueue, posted, replies, nextTag := {}, [], [], [], 0;
      globals, locals, lostGlobals, lostLocals := d.globals, d.locals, d.lostGlobals, d.lostLocals;
      new;
      for i := 0 to |rows|
        invariant existingAssets == set id | id in rows[..i]
        invariant workQueue == [] && posted == [] && replies == [] && nextTag == 0
        invariant globals == d.globals && locals == d.locals
        invariant lostGlobals == d.lostGlobals && lostLocals == d.lostLocals
      {
        existingAssets := existingAssets + {rows[i]};
      }
      assert rows[..|rows|] == rows;
      LoadedIsInv(d);
      hide Inv, Ledger, Sound;
    }

    method Reply(r: Reply)
      modifies this`replies
      ensures replies == old(replies) + [r]
    {
      replies := replies + [r];
    }

    method StoreAsset(asset: Asset)
      modifies this
      ensures View() == ApplyAskPut(old(View()), asset)
      ensures old(Inv(View())) ==> Inv(View())
    {
      if Inv(View()) { AskPutKeepsInv(View(), asset); }
      hide Inv;
      var id := Uuid(asset);
      if id in existingAssets {
        Reply(AlreadyExists(id, nextTag));
      } else {
        existingAssets := existingAssets + {id};
        workQueue := workQueue + [Put(asset, nextTag)];
      }
      nextTag := nextTag + 1;
    }

    method GetAsset(id: Id)
      modifies this
      ensures View() == ApplyAskGet(old(View()), id)
      ensures old(Inv(View())) ==> Inv(View())
    {
      if Inv(View()) { StepKeepsInv(View(), AskGet(id)); }
      hide Inv;
      if id !in existingAssets {
        Reply(Missing(id, nextTag));
      } else {
        workQueue := workQueue + [Get(id, nextTag)];
      }
      nextTag := nextTag + 1;
    }

    method WorkTurn(outcome: Outcome)
      requires workQueue != []
      modifies this
      ensures View() == ApplyWork(old(View()), outcome)
      ensures old(Inv(View())) && Orderly(old(View()), Work(outcome)) ==> Inv(View())
    {
      if Inv(View()) && Orderly(View(), Work(outcome)) { WorkKeepsInv(View(), outcome); }
      hide Inv, Orderly;
      var req := workQueue[0];
      workQueue := workQueue[1..];
      match req
      case Put(asset, tag) => PerformDiskWrite(asset, tag, outcome);
      case Get(id, tag) => PerformDiskRead(id, tag, outcome);
      case PurgeLocals(prefix) => PerformDiskPurgeLocals(prefix, outcome);
      case DeleteLocals(prefix) => PerformLocalsPhysicalDeletion(prefix, outcome);
    }

    method PerformDiskWrite(asset: Asset, tag: nat, outcome: Outcome)
      modifies this
      ensures View() == ApplyWrite(old(View()), asset, tag, outcome)
    {
      var id := Uuid(asset);
      if outcome.StorageError? {
        Reply(StoreFailed(id, tag));
      } else if outcome.OtherError? {
        posted := posted + [WriteFailed(id)];
        Reply(StoreFailed(id, tag));
      } else if id in (if IsLocal(asset) then locals else globals) {
        Reply(StoreFailed(id, tag));                 // the id can be found: AssetStorageError
      } else if id in (if IsLocal(asset) then lostLocals else lostGlobals) {
        posted := posted + [WriteFailed(id)];        // the id is the primary key: the INSERT throws
        Reply(StoreFailed(id, tag));
      } else {
        if IsLocal(asset) {
          if outcome.Lost? { lostLocals := lostLocals + {id}; } else { locals := locals[id := asset]; }
        } else {
          if outcome.Lost? { lostGlobals := lostGlobals + {id}; } else { globals := globals[id := asset]; }
        }
        Reply(Stored(id, tag));
      }
    }

    method PerformDiskRead(id: Id, tag: nat, outcome: Outcome)
      modifies this
      ensures View() == ApplyRead(old(View()), id, tag, outcome)
    {
      if outcome != Fine {
        Reply(ReadFailed(id, tag));
      } else if id in globals {
        Reply(Found(id, tag, globals[id]));
      } else if id in locals {
        Reply(Found(id, tag, locals[id]));
      } else {
        Reply(Missing(id, tag));
      }
    }

    method PerformDiskPurgeLocals(prefix: string, outcome: Outcome)
      modifies this
      ensures View() == if outcome == Fine
        then old(View()).(posted := old(posted) + [Unindex(LocalsUnder(old(View()), prefix), prefix)])
        else old(View())
    {
      if outcome == Fine {
        var containedIds := set x | x in locals.Keys + lostLocals && Prefix(x) == prefix;
        assert containedIds == LocalsUnder(View(), prefix);
        posted := posted + [Unindex(containedIds, prefix)];
      }
    }

    method PerformLocalsPhysicalDeletion(prefix: string, outcome: Outcome)
      modifies this
      ensures View() == if outcome == Fine
        then Deleted(old(View()), prefix)
        else old(View())
    {
      if outcome == Fine {
        locals := map x | x in locals && Prefix(x) != prefix :: locals[x];
        lostLocals := set x | x in lostLocals && Prefix(x) != prefix;
      }
    }

    /** unindexLocals: the ids of the snapshot one by one, then the deletion is queued. */
    method UnindexLocals(which: nat, uuidList: seq<Id>)
      requires which < |posted| && posted[which].Unindex?
      requires forall id :: id in uuidList <==> id in posted[which].ids
      modifies this
      ensures View() == ApplyHandle(old(View()), which)
      ensures old(Inv(View())) ==> Inv(View())
    {
      if Inv(View()) { StepKeepsInv(View(), Handle(which)); }
      hide Inv;
      ghost var ids := posted[which].ids;
      var prefix := posted[which].prefix;
      posted := posted[..which] + posted[which + 1..];
      for i := 0 to |uuidList|
        invariant existingAssets == old(existingAssets) - set id | id in uuidList[..i]
        invariant View() == old(View()).(index := existingAssets, posted := old(posted[..which] + posted[which + 1..]))
      {
        existingAssets := existingAssets - {uuidList[i]};
      }
      assert uuidList[..|uuidList|] == uuidList && ids == set id | id in uuidList;
      workQueue := workQueue + [DeleteLocals(prefix)];
    }

    method AssetWriteFailed(which: nat)
      requires which < |posted| && posted[which].WriteFailed?
      modifies this
      ensures View() == ApplyHandle(old(View()), which)
      ensures old(Inv(View())) ==> Inv(View())
    {
      if Inv(View()) { StepKeepsInv(View(), Handle(which)); }
      hide Inv;
      existingAssets := existingAssets - {posted[which].id};
      posted := posted[..which] + posted[which + 1..];
    }
  }
}

/**
 The existence index (whip/ExistenceIndex.cpp): a set of parsed ids. Where an id is blank the
 parsed value is whatever was in memory, which is a parameter here.
 */
module ExistenceIndexes {
  import opened Bytes
  import opened Uuids

  datatype Row = Row(assetId: string, deleted: int)

  /** The uuid a text stands for, if its constructor does not throw. */
  function UuidOf(id: string, memory: Uuid): Option<Uuid> {
    match Parse(id)
    case Parsed(u) => Some(u)
    case Threw => None
    case Untouched => Some(memory)
  }

  function LiveIds(rows: seq<Row>): set<string> {
    set r | r in rows && r.deleted == 0 :: r.assetId
  }

  /** Every row not marked deleted has a valid id. */
  predicate AllValid(rows: seq<Row>) {
    forall i :: 0 <= i < |rows| && rows[i].deleted == 0 ==> IsValid(rows[i].assetId)
  }

  lemma LiveIdsNext(rows: seq<Row>, i: nat)
    requires i < |rows|
    ensures LiveIds(rows[..i + 1]) == LiveIds(rows[..i]) + if rows[i].deleted == 0 then {rows[i].assetId} else {}
  {
    assert rows[..i + 1] == rows[..i] + [rows[i]];
  }

  ghost function Texts(existing: set<Uuid>): set<string> {
    set u | u in existing :: Text(u)
  }

  lemma TextsHas(existing: set<Uuid>, id: string)
    requires IsValid(id)
    ensures Parse(id).Parsed? && (Parse(id).uuid in existing <==> id in Texts(existing))
  {
    ValidRoundTrip(id);
    hide Parse, Text, IsValid;
    forall u: Uuid | u in existing && Text(u) == id
      ensures u == Parse(id).uuid
    {
      TextIsInjective(u, Parse(id).uuid);
    }
  }

  lemma TextsPlus(existing: set<Uuid>, id: string)
    requires IsValid(id)
    ensures Parse(id).Parsed? && Texts(existing + {Parse(id).uuid}) == Texts(existing) + {id}
  {
    ValidRoundTrip(id);
    hide Parse, Text, IsValid;
    var u := Parse(id).uuid;
    assert u in existing + {u};
  }

  lemma TextsMinus(existing: set<Uuid>, u: Uuid)
    ensures Texts(existing - {u}) == Texts(existing) - {Text(u)}
  {
    hide Text;
    forall x: Uuid | x in existing && x != u
      ensures Text(x) != Text(u)
    {
      if Text(x) == Text(u) {
        TextIsInjective(x, u);
      }
    }
  }

  class ExistenceIndex {
    var existing: set<Uuid>

    /** The index as the set of id texts the rest of the server works with. */
    ghost function Ids(): set<string>
      reads this
    {
      Texts(existing)
    }

    constructor ()
      ensures Ids() == {}
    {
      existing := {};
    }

    /** None is the exception from the id's constructor. */
    method AssetExists(assetId: string, memory: Uuid) returns (r: Option<bool>)
      ensures r.None? <==> Parse(assetId) == Threw
      ensures IsValid(assetId) ==> r == Some(assetId in Ids())
    {
      var u := UuidOf(assetId, memory);
      if IsValid(assetId) {
        TextsHas(existing, assetId);
      }
      r := if u.None? then None else Some(u.value in existing);
    }

    method AddNewId(assetId: string, memory: Uuid) returns (ok: bool)
      modifies this
      ensures ok <==> Parse(assetId) != Threw
      ensures !ok ==> existing == old(existing)
      ensures IsValid(assetId) ==> ok && Ids() == old(Ids()) + {assetId}
    {
      var u := UuidOf(assetId, memory);
      if IsValid(assetId) {
        TextsPlus(existing, assetId);
      }
      ok := u.Some?;
      if ok {
        existing := existing + {u.value};
      }
    }

    method RemoveId(id: Uuid)
      modifies this
      ensures Ids() == old(Ids()) - {Text(id)}
    {
      TextsMinus(existing, id);
      existing := existing - {id};
    }

    /** loadIndexFile: rowCallback on every row, until one throws. */
    method LoadIndexFile(rows: seq<Row>, memory: Uuid) returns (ok: bool)
      modifies this
      ensures ok <==> forall i :: 0 <= i < |rows| && rows[i].deleted == 0 ==> Parse(rows[i].assetId) != Threw
      ensures AllValid(rows) ==> ok && Ids() == old(Ids()) + LiveIds(rows)
    {
      hide IsValid, Parse;
      ok := true;
      for i := 0 to |rows|
        invariant ok && forall j :: 0 <= j < i && rows[j].deleted == 0 ==> Parse(rows[j].assetId) != Threw
        invariant AllValid(rows) ==> Ids() == old(Ids()) + LiveIds(rows[..i])
      {
        LiveIdsNext(rows, i);
        if rows[i].deleted == 0 {
          ok := AddNewId(rows[i].assetId, memory);
          if !ok {
            return;
          }
        }
      }
      assert rows[..|rows|] == rows;
    }
  }
}

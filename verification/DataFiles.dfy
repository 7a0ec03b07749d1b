/**
 A VFS database on disk: an append-only data file (whip/DataFile.cpp) and an index table
 from ids to positions in it (whip/VFSDatabase.cpp), with writes that can stop part-way.
 */
module DataFiles {
  import opened Bytes
  import opened Assets

  /** The file magic "IWZDDB01". */
  const MAGIC: seq<byte> := [73, 87, 90, 68, 68, 66, 48, 49]

  const INVALID_POSITION: nat := 0

  datatype File = Absent | Present(bytes: seq<byte>)

  /** What the disk does with one call: whether the file opens, and how many bytes it takes. */
  datatype Disk = Disk(opens: bool, room: nat)

  function Record(data: seq<byte>): seq<byte>
    requires |data| < U32_LIMIT
  {
    BigEndian32(|data|) + data
  }

  /** What is readable at a position: a length word and that many bytes, all inside the file. */
  function RecordAt(bytes: seq<byte>, pos: nat): Option<seq<byte>> {
    if pos + 4 > |bytes| then None
    else
      var n := FromBigEndian32(bytes[pos..pos + 4]);
      if pos + 4 + n > |bytes| then None else Some(bytes[pos + 4..pos + 4 + n])
  }

  function Content(f: File): seq<byte> {
    if f.Present? then f.bytes else []
  }

  /** The bytes writeNewAsset tries to append to a file. */
  function Appendix(f: File, data: seq<byte>): seq<byte> {
    (if f.Absent? then MAGIC else []) + (if |data| < U32_LIMIT then Record(data) else [])
  }

  /** What a disk with some room takes of the bytes written. */
  function Taken(more: seq<byte>, room: nat): seq<byte> {
    if room < |more| then more[..room] else more
  }

  /** The file after writeNewAsset: everything that fitted, in order. */
  function FileAfter(f: File, data: seq<byte>, disk: Disk): File {
    if !disk.opens then f
    else
      var more := Appendix(f, data);
      Present(Content(f) + Taken(more, disk.room))
  }

  /** The position writeNewAsset returns, if it returns. */
  function PositionAfter(f: File, data: seq<byte>, disk: Disk): Option<nat> {
    if disk.opens && |data| < U32_LIMIT && |Appendix(f, data)| <= disk.room
    then Some(if f.Absent? then 8 else |f.bytes|)
    else None
  }

  lemma HeaderStops(data: seq<byte>, room: nat)
    requires room < |MAGIC|
    ensures Taken(Appendix(Absent, data), room) == MAGIC[..room] && room < |Appendix(Absent, data)|
  {
  }

  lemma HeaderThenRecord(data: seq<byte>, room: nat)
    requires |data| < U32_LIMIT && |MAGIC| <= room
    ensures Taken(Appendix(Absent, data), room) == MAGIC + Taken(Record(data), room - 8)
    ensures |Appendix(Absent, data)| == 8 + |Record(data)|
  {
    assert Appendix(Absent, data) == MAGIC + Record(data);
  }

  class DataFile {
    var file: File

    constructor (f: File)
      ensures file == f
    {
      file := f;
    }

    /** IDataFile::write at the end of the file: a short write is an error. */
    method Write(data: seq<byte>, room: nat) returns (ok: bool, left: nat)
      requires file.Present?
      modifies this
      ensures ok == (|data| <= room)
      ensures file == Present(old(file.bytes) + Taken(data, room))
      ensures left == if ok then room - |data| else 0
    {
      ok := |data| <= room;
      var taken := if ok then data else data[..room];
      file := Present(file.bytes + taken);
      left := room - |taken|;
    }

    /** The size in network byte order, then the contents. */
    method WriteRecord(data: seq<byte>, room: nat) returns (ok: bool)
      requires file.Present? && |data| < U32_LIMIT
      modifies this
      ensures ok == (|Record(data)| <= room)
      ensures file == Present(old(file.bytes) + Taken(Record(data), room))
    {
      hide BigEndian32;
      var size := BigEndian32(|data|);
      var left;
      ok, left := Write(size, room);
      if ok {
        ok, left := Write(data, left);
        assert Taken(Record(data), room) == size + Taken(data, room - 4);
      } else {
        assert Taken(Record(data), room) == size[..room];
      }
    }

    method WriteNewAsset(data: seq<byte>, disk: Disk) returns (pos: Option<nat>)
      modifies this
      ensures file == FileAfter(old(file), data, disk)
      ensures pos == PositionAfter(old(file), data, disk)
    {
      hide Record;
      if !disk.opens {
        return None;
      }
      var room, at := disk.room, 8;
      if file.Absent? {
        file := Present([]);
        var ok;
        ok, room := Write(MAGIC, room);
        if !ok {
          HeaderStops(data, disk.room);
          return None;
        }
      } else {
        at := |file.bytes|;
      }
      if |data| >= U32_LIMIT {
        return None;
      }
      var ok := WriteRecord(data, room);
      if old(file).Absent? {
        HeaderThenRecord(data, disk.room);
      }
      return if ok then Some(at) else None;
    }

    method GetAssetAtPosition(pos: nat) returns (r: Option<seq<byte>>)
      requires file.Present?
      ensures r == RecordAt(file.bytes, pos)
    {
      if pos + 4 > |file.bytes| {
        return None;
      }
      var size := FromBigEndian32(file.bytes[pos..pos + 4]);
      if pos + 4 + size > |file.bytes| {
        return None;
      }
      return Some(file.bytes[pos + 4..pos + 4 + size]);
    }
  }

  // ----- positions stay readable -----

  lemma RecordSurvives(bytes: seq<byte>, more: seq<byte>, pos: nat)
    requires RecordAt(bytes, pos).Some?
    ensures RecordAt(bytes + more, pos) == RecordAt(bytes, pos)
  {
    assert (bytes + more)[pos..pos + 4] == bytes[pos..pos + 4];
    var n := FromBigEndian32(bytes[pos..pos + 4]);
    assert (bytes + more)[pos + 4..pos + 4 + n] == bytes[pos + 4..pos + 4 + n];
  }

  lemma RecordReadsBack(before: seq<byte>, data: seq<byte>)
    requires |data| < U32_LIMIT
    ensures RecordAt(before + Record(data), |before|) == Some(data)
  {
    var b := before + Record(data);
    assert b[|before|..|before| + 4] == BigEndian32(|data|);
    BigEndianRoundTrip(|data|);
    assert b[|before| + 4..|before| + 4 + |data|] == data;
  }

  lemma WriteIsReadable(f: File, data: seq<byte>, disk: Disk)
    requires PositionAfter(f, data, disk).Some?
    ensures RecordAt(Content(FileAfter(f, data, disk)), PositionAfter(f, data, disk).value) == Some(data)
  {
    var before := Content(f) + (if f.Absent? then MAGIC else []);
    assert Content(FileAfter(f, data, disk)) == before + Record(data);
    RecordReadsBack(before, data);
  }

  datatype Attempt = Attempt(data: seq<byte>, disk: Disk)

  /** The file and the returned positions after a series of calls, failed ones included. */
  function Files(f: File, attempts: seq<Attempt>): File
    decreases |attempts|
  {
    if attempts == [] then f
    else Files(FileAfter(f, attempts[0].data, attempts[0].disk), attempts[1..])
  }

  function Positions(f: File, attempts: seq<Attempt>): (ps: seq<Option<nat>>)
    ensures |ps| == |attempts|
    decreases |attempts|
  {
    if attempts == [] then []
    else [PositionAfter(f, attempts[0].data, attempts[0].disk)]
         + Positions(FileAfter(f, attempts[0].data, attempts[0].disk), attempts[1..])
  }

  lemma {:induction false} FilesGrow(f: File, attempts: seq<Attempt>)
    ensures Content(f) <= Content(Files(f, attempts))
    decreases |attempts|
  {
    if attempts != [] {
      FilesGrow(FileAfter(f, attempts[0].data, attempts[0].disk), attempts[1..]);
    }
  }

  /** Every position ever returned reads back its own bytes after any later calls. */
  lemma {:induction false} AppendStability(f: File, attempts: seq<Attempt>, i: nat)
    requires i < |attempts| && Positions(f, attempts)[i].Some?
    ensures RecordAt(Content(Files(f, attempts)), Positions(f, attempts)[i].value) == Some(attempts[i].data)
    decreases |attempts|
  {
    hide RecordAt, FileAfter, PositionAfter;
    var f' := FileAfter(f, attempts[0].data, attempts[0].disk);
    if i == 0 {
      WriteIsReadable(f, attempts[0].data, attempts[0].disk);
      FilesGrow(f', attempts[1..]);
      var c := Content(Files(f, attempts));
      assert c == Content(f') + c[|Content(f')|..];
      RecordSurvives(Content(f'), c[|Content(f')|..], Positions(f, attempts)[0].value);
    } else {
      AppendStability(f', attempts[1..], i - 1);
    }
  }

  lemma {:induction false} PositionsPastEnd(f: File, attempts: seq<Attempt>, i: nat)
    requires i < |attempts| && Positions(f, attempts)[i].Some?
    ensures Positions(f, attempts)[i].value >= |Content(f)|
    decreases |attempts|
  {
    if i > 0 {
      PositionsPastEnd(FileAfter(f, attempts[0].data, attempts[0].disk), attempts[1..], i - 1);
    }
  }

  /** Positions only go up, so they are distinct. */
  lemma {:induction false} PositionsIncrease(f: File, attempts: seq<Attempt>, i: nat, j: nat)
    requires i < j < |attempts| && Positions(f, attempts)[i].Some? && Positions(f, attempts)[j].Some?
    ensures Positions(f, attempts)[i].value < Positions(f, attempts)[j].value
    decreases |attempts|
  {
    var f' := FileAfter(f, attempts[0].data, attempts[0].disk);
    if i > 0 {
      PositionsIncrease(f', attempts[1..], i - 1, j - 1);
    } else {
      PositionsPastEnd(f', attempts[1..], j - 1);
    }
  }

  /**
   A returned position is INVALID_POSITION exactly when the file was there but empty,
   which is what a header write that takes no byte leaves behind.
   */
  lemma InvalidPositionIff(f: File, data: seq<byte>, disk: Disk)
    requires PositionAfter(f, data, disk).Some?
    ensures PositionAfter(f, data, disk).value == INVALID_POSITION <==> f == Present([])
    ensures FileAfter(f, data, disk) != Present([])
  {
    assert |Content(FileAfter(f, data, disk))| >= 4;
  }

  lemma EmptyFileIff(f: File, data: seq<byte>, disk: Disk)
    ensures FileAfter(f, data, disk) == Present([]) <==>
      if disk.opens then Content(f) == [] && (disk.room == 0 || Appendix(f, data) == []) else f == Present([])
  {
    var more := Appendix(f, data);
    assert |Taken(more, disk.room)| == 0 <==> disk.room == 0 || more == [];
  }

  /** Once a file has a byte, no later position is invalid. */
  lemma {:induction false} NonEmptyStaysValid(f: File, attempts: seq<Attempt>, i: nat)
    requires Content(f) != [] && i < |attempts| && Positions(f, attempts)[i].Some?
    ensures Positions(f, attempts)[i].value != INVALID_POSITION
  {
    PositionsPastEnd(f, attempts, i);
  }

  /** Some call before i opened the file, so it is there. */
  predicate ThereBefore(f: File, attempts: seq<Attempt>, i: nat)
    requires i <= |attempts|
  {
    f.Present? || exists j :: 0 <= j < i && attempts[j].disk.opens
  }

  /**
   No byte reached the file before call i: every call that opened it either found no room, or
   found the file there and an asset whose size does not fit its length word.
   */
  predicate NoByteBefore(f: File, attempts: seq<Attempt>, i: nat)
    requires i <= |attempts|
  {
    && Content(f) == []
    && forall j: nat :: j < i && attempts[j].disk.opens ==>
         attempts[j].disk.room == 0 || (|attempts[j].data| >= U32_LIMIT && ThereBefore(f, attempts, j))
  }

  lemma {:induction false} FileBefore(f: File, attempts: seq<Attempt>, i: nat)
    requires i < |attempts|
    ensures Files(f, attempts[..i + 1]) == FileAfter(Files(f, attempts[..i]), attempts[i].data, attempts[i].disk)
    ensures Positions(f, attempts)[i] == PositionAfter(Files(f, attempts[..i]), attempts[i].data, attempts[i].disk)
    decreases i
  {
    hide FileAfter, PositionAfter;
    if i == 0 {
      assert attempts[..1][1..] == [];
    } else {
      assert attempts[..i + 1][1..] == attempts[1..][..i] && attempts[..i][1..] == attempts[1..][..i - 1];
      FileBefore(FileAfter(f, attempts[0].data, attempts[0].disk), attempts[1..], i - 1);
    }
  }

  /** What one call does to whether the file is there and whether it is empty. */
  lemma OneCallIff(f: File, data: seq<byte>, disk: Disk)
    ensures FileAfter(f, data, disk).Present? <==> f.Present? || disk.opens
    ensures Content(FileAfter(f, data, disk)) == [] <==>
      Content(f) == [] && (disk.opens ==> disk.room == 0 || (|data| >= U32_LIMIT && f.Present?))
  {
    EmptyFileIff(f, data, disk);
    hide Record;
    assert Appendix(f, data) == [] <==> f.Present? && |data| >= U32_LIMIT by { AppendixIsEmptyIff(f, data); }
    hide Appendix;
  }

  lemma AppendixIsEmptyIff(f: File, data: seq<byte>)
    ensures Appendix(f, data) == [] <==> f.Present? && |data| >= U32_LIMIT
  {
    if |data| < U32_LIMIT {
      assert |Record(data)| == 4 + |data|;
    }
  }

  lemma BeforeNext(f: File, attempts: seq<Attempt>, i: nat)
    requires i < |attempts|
    ensures ThereBefore(f, attempts, i + 1) <==> ThereBefore(f, attempts, i) || attempts[i].disk.opens
    ensures var a := attempts[i];
      NoByteBefore(f, attempts, i + 1) <==>
      && NoByteBefore(f, attempts, i)
      && (a.disk.opens ==> a.disk.room == 0 || (|a.data| >= U32_LIMIT && ThereBefore(f, attempts, i)))
  {
  }

  lemma {:induction false} EmptyBeforeIff(f: File, attempts: seq<Attempt>, i: nat)
    requires i <= |attempts|
    ensures Files(f, attempts[..i]).Present? <==> ThereBefore(f, attempts, i)
    ensures Content(Files(f, attempts[..i])) == [] <==> NoByteBefore(f, attempts, i)
  {
    if i > 0 {
      hide Files, FileAfter, Content, ThereBefore, NoByteBefore;
      EmptyBeforeIff(f, attempts, i - 1);
      FileBefore(f, attempts, i - 1);
      OneCallIff(Files(f, attempts[..i - 1]), attempts[i - 1].data, attempts[i - 1].disk);
      BeforeNext(f, attempts, i - 1);
    }
  }

  /** Over any series of calls, whatever the file was: exactly which positions are INVALID_POSITION. */
  lemma InvalidPositionsIff(f: File, attempts: seq<Attempt>, i: nat)
    requires i < |attempts| && Positions(f, attempts)[i].Some?
    ensures Positions(f, attempts)[i].value == INVALID_POSITION <==>
            ThereBefore(f, attempts, i) && NoByteBefore(f, attempts, i)
  {
    FileBefore(f, attempts, i);
    EmptyBeforeIff(f, attempts, i);
    InvalidPositionIff(Files(f, attempts[..i]), attempts[i].data, attempts[i].disk);
  }

  /** An absent file gets there in two calls: one that finds no room for the header, and one that does. */
  lemma AbsentFileGetsInvalid(data: seq<byte>, room: nat)
    requires |data| < U32_LIMIT && 4 + |data| <= room
    ensures var attempts := [Attempt(data, Disk(true, 0)), Attempt(data, Disk(true, room))];
      Positions(Absent, attempts) == [None, Some(INVALID_POSITION)]
  {
    var attempts := [Attempt(data, Disk(true, 0)), Attempt(data, Disk(true, room))];
    assert FileAfter(Absent, data, Disk(true, 0)) == Present([]);
    assert attempts[1..] == [Attempt(data, Disk(true, room))] && attempts[1..][1..] == [];
  }

  // ----- the database -----

  datatype StoreResult = StoredOk | Exists | WriteError | RowError

  class VfsDatabase {
    var table: map<Id, nat>   // the VFSDataIndex rows
    const data: DataFile

    constructor (f: File)
      ensures Valid() && View() == map[] && data.file == f && fresh(data)
    {
      table := map[];
      data := new DataFile(f);
    }

    /** Every row with a usable position points at a readable record. */
    ghost predicate Valid()
      reads this, data
    {
      forall id :: id in table && table[id] != INVALID_POSITION ==>
        RecordAt(Content(data.file), table[id]).Some?
    }

    /** What the database holds, as its readers see it. */
    ghost function View(): map<Id, seq<byte>>
      requires Valid()
      reads this, data
    {
      map id | id in table && table[id] != INVALID_POSITION :: RecordAt(Content(data.file), table[id]).value
    }

    /** SQLiteIndexFile::findAssetPosition */
    function FindAssetPosition(id: Id): nat
      reads this
    {
      if id in table then table[id] else INVALID_POSITION
    }

    method AssetExists(id: Id) returns (found: bool)
      requires Valid()
      ensures found == (id in View())
    {
      found := FindAssetPosition(id) != INVALID_POSITION;
    }

    method GetAsset(id: Id) returns (r: Option<seq<byte>>)
      requires Valid()
      ensures r == if id in View() then Some(View()[id]) else None
    {
      var pos := FindAssetPosition(id);
      if pos == INVALID_POSITION {
        return None;
      }
      r := data.GetAssetAtPosition(pos);
    }

    /**
     storeAsset.  A successful store adds exactly the asset, unless the data file was there
     but empty: then the position is the invalid one and the asset cannot be found again.
     */
    method StoreAsset(asset: Asset, disk: Disk, rowWritten: bool) returns (r: StoreResult)
      requires Valid()
      modifies this, data
      ensures Valid()
      ensures r == Exists <==> Uuid(asset) in old(View())
      ensures r != StoredOk ==> View() == old(View())
      ensures r == StoredOk && old(data.file) != Present([]) ==> View() == old(View())[Uuid(asset) := asset]
      ensures r == StoredOk && old(data.file) == Present([]) ==> View() == old(View()) && Uuid(asset) !in View()
      ensures r in {Exists, WriteError} ==> table == old(table)
    {
      hide Uuid, RecordAt, FileAfter, PositionAfter, Content;
      var found := AssetExists(Uuid(asset));
      if found {
        return Exists;
      }
      ghost var before := Content(data.file);
      var pos := data.WriteNewAsset(asset, disk);
      FileGrows(old(data.file), asset, disk);
      RecordsSurvive(table, before, Content(data.file));
      assert Valid() && View() == old(View());
      if pos == None {
        return WriteError;
      }
      if !rowWritten || Uuid(asset) in table {
        return RowError;
      }
      WriteIsReadable(old(data.file), asset, disk);
      InvalidPositionIff(old(data.file), asset, disk);
      table := table[Uuid(asset) := pos.value];
      return StoredOk;
    }
  }

  lemma FileGrows(f: File, data: seq<byte>, disk: Disk)
    ensures Content(f) <= Content(FileAfter(f, data, disk))
  {
  }

  lemma RecordsSurvive(table: map<Id, nat>, before: seq<byte>, after: seq<byte>)
    requires before <= after
    ensures forall id :: id in table && RecordAt(before, table[id]).Some? ==>
      RecordAt(after, table[id]) == RecordAt(before, table[id])
  {
    hide RecordAt;
    forall id | id in table && RecordAt(before, table[id]).Some?
      ensures RecordAt(after, table[id]) == RecordAt(before, table[id])
    {
      assert after == before + after[|before|..];
      RecordSurvives(before, after[|before|..], table[id]);
    }
  }

  /** The two databases of one directory: globals are asked first, stores go by the asset's kind. */
  class DatabaseSet {
    const globalDb: VfsDatabase
    const localDb: VfsDatabase

    constructor ()
      ensures Valid() && globalDb.View() == map[] && localDb.View() == map[]
    {
      globalDb := new VfsDatabase(Absent);
      localDb := new VfsDatabase(Absent);
    }

    ghost predicate Valid()
      reads globalDb, localDb, globalDb.data, localDb.data
    {
      globalDb != localDb && globalDb.data != localDb.data && globalDb.Valid() && localDb.Valid()
    }

    method GetAsset(id: Id) returns (r: Option<seq<byte>>)
      requires Valid()
      ensures r == if id in globalDb.View() then Some(globalDb.View()[id])
                   else if id in localDb.View() then Some(localDb.View()[id]) else None
    {
      r := globalDb.GetAsset(id);
      if r == None {
        r := localDb.GetAsset(id);
      }
    }

    method StoreAsset(asset: Asset, disk: Disk, rowWritten: bool) returns (r: StoreResult)
      requires Valid()
      modifies globalDb, localDb, globalDb.data, localDb.data
      ensures Valid()
      ensures !IsLocal(asset) ==> localDb.View() == old(localDb.View())
      ensures IsLocal(asset) ==> globalDb.View() == old(globalDb.View())
      ensures r == Exists <==> Uuid(asset) in old((if IsLocal(asset) then localDb else globalDb).View())
      ensures r != StoredOk ==> globalDb.View() == old(globalDb.View()) && localDb.View() == old(localDb.View())
      ensures r == StoredOk && !IsLocal(asset) && old(globalDb.data.file) != Present([]) ==>
        globalDb.View() == old(globalDb.View())[Uuid(asset) := asset]
      ensures r == StoredOk && IsLocal(asset) && old(localDb.data.file) != Present([]) ==>
        localDb.View() == old(localDb.View())[Uuid(asset) := asset]
    {
      if IsLocal(asset) {
        r := localDb.StoreAsset(asset, disk, rowWritten);
      } else {
        r := globalDb.StoreAsset(asset, disk, rowWritten);
      }
    }
  }
}

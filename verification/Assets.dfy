/**
 An asset is the byte array of whip/Asset.cpp: 32 bytes of id text, a type byte, a
 locality byte and the rest.  The accessors read fixed offsets, so an asset has at
 least 34 bytes.
 */
module Assets {
  import opened Bytes

  type Id = string

  type Asset = d: seq<byte> | |d| >= 34 witness seq(34, _ => 0 as byte)

  /** getUUID: the first 32 bytes as text. */
  function Uuid(a: Asset): (id: Id)
    ensures |id| == 32
  {
    seq(32, i requires 0 <= i < 32 => a[i] as char)
  }

  predicate IsLocal(a: Asset) {
    a[33] == 1
  }

  /** uuid.substr(0, UUID_PATH_CHARS): the directory an id is stored under. */
  function Prefix(id: Id): string {
    if |id| < 3 then id else id[..3]
  }

  /** Texts that are the id of some asset. */
  predicate IsId(id: Id) {
    |id| == 32 && forall i :: 0 <= i < |id| ==> id[i] as int < 0x100
  }

  /** A global asset with a given id. */
  function GlobalWith(id: Id): (a: Asset)
    requires IsId(id)
    ensures Uuid(a) == id && !IsLocal(a)
  {
    seq(32, i requires 0 <= i < 32 => id[i] as int as byte) + [0, 0]
  }

  lemma UuidIsId(a: Asset)
    ensures IsId(Uuid(a))
  {
  }
}

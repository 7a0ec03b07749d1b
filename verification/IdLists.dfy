/**
 The listing of stored ids that travels from a replication master to its slaves: every id
 followed by a comma (whip/VFSBackend.cpp), split at the commas on arrival with the empty
 parts skipped (whip/PullReplicationService.cpp).
 */
module IdLists {
  /** The journal the master writes. */
  function Listing(ids: seq<string>): string {
    if ids == [] then "" else ids[0] + "," + Listing(ids[1..])
  }

  /** The parts between commas; there is always at least one. */
  function Split(text: string): (parts: seq<string>)
    ensures |parts| > 0
  {
    if text == "" then [""]
    else
      var rest := Split(text[1..]);
      if text[0] == ',' then [""] + rest else [[text[0]] + rest[0]] + rest[1..]
  }

  function NonEmpty(parts: seq<string>): seq<string> {
    if parts == [] then []
    else (if parts[0] == "" then [] else [parts[0]]) + NonEmpty(parts[1..])
  }

  predicate Wellformed(ids: seq<string>) {
    forall i :: 0 <= i < |ids| ==> ids[i] != "" && ',' !in ids[i]
  }

  lemma {:induction false} SplitFirst(id: string, text: string)
    requires ',' !in id
    ensures Split(id + "," + text) == [id] + Split(text)
  {
    if id == "" {
      assert (id + "," + text)[1..] == text;
    } else {
      assert (id + "," + text)[1..] == id[1..] + "," + text;
      SplitFirst(id[1..], text);
      assert [id[0]] + id[1..] == id;
    }
  }

  /** What the slave reads is what the master holds, in order. */
  lemma {:induction false} ListingRoundTrip(ids: seq<string>)
    requires Wellformed(ids)
    ensures NonEmpty(Split(Listing(ids))) == ids
    ensures Listing(ids) == "" <==> ids == []
  {
    if ids == [] {
      assert NonEmpty([""]) == [];
    } else {
      SplitFirst(ids[0], Listing(ids[1..]));
      ListingRoundTrip(ids[1..]);
      assert Split(Listing(ids))[1..] == Split(Listing(ids[1..]));
    }
  }
}

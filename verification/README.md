# Whip asset server: a Dafny verification

Whip stores immutable binary assets under 32-digit ids, on disk, behind a memory cache, with
a peer mesh and a replication slave. This project models its core in Dafny and proves what
the design relies on. `dafny verify dfyconfig.toml` checks all of it.

Code that changes state in place is modelled twice: as functions on values, about which the
properties are proved over every run, and as classes whose methods, with the source's loops
and branches, are proved to do what those functions say.

| file | models |
|---|---|
| `Sha1Spec.dfy`, `Sha1Engine.dfy` | FIPS 180-1 (RFC 3174) as functions; the buffered, unrolled CSHA1 class proved against it |
| `Bytes.dfy`, `Assets.dfy` | network byte order; the asset layout |
| `DataFiles.dfy` | the append-only data file, the database of one prefix and its global/local pair |
| `VfsProtocol.dfy`, `VfsGuarantees.dfy`, `VfsBackend.dfy` | the existence index, the disk queue, the three-step locals purge; what clients may rely on; the backend class |
| `VfsHazards.dfy`, `PurgeTimer.dfy` | exactly what the protocol needs from its surroundings; where purges come from |
| `LruSpec.dfy`, `LruCache.dfy`, `LruInclusion.dfy` | the weighted LRU cache against a list; the inclusion property |
| `AssetCache.dfy` | the cache over the backend, and its transparency |
| `Pipeline.dfy` | the pipelined connection to a remote server |
| `MeshSearch.dfy` | searches fanned out over mesh peers |
| `IdLists.dfy`, `PullReplication.dfy`, `Mirror.dfy` | the id listing, the replication slave, and the two from end to end |
| `Framing.dfy` | the 37-byte headers and bodies on the wire |
| `Uuids.dfy`, `ExistenceIndex.dfy` | ids as text and as bytes; the index that keeps them parsed |

## What the code does not meet

Some properties hold only under a condition. Each is stated where it is proved.

- `CSHA1::Update` copies within its buffer if and only if the bytes buffered plus the length
  are below 2^32 (`Sha1Engine.UpdateStaysInBuffer`). The total length is not bounded: the
  length suffix is taken modulo 2^64, as the counters do.
- A data file position is `INVALID_POSITION` if and only if the file is there and no byte has
  reached it (`DataFiles.InvalidPositionsIff`, over any series of calls). An absent file gets
  there when the disk has no room for its header (`DataFiles.AbsentFileGetsInvalid`). Storing
  then reports success for an asset that cannot be found (`VfsHazards.LostWriteIsNotFound`),
  and the cache may go on answering with it (`AssetCaches.LostWriteIsCached`).
  Read-your-writes holds for the other writes, and the cache differs from the disk for exactly
  the lost ones (`AssetCaches.CacheIsTransparent`).
- A locals purge hides no row of the globals as long as no harmful purge is begun and no
  deletion fails where that is harmful. Both conditions are exact, in every sound state and
  with anything in flight. `VfsHazards.HarmIff`: a row that an earlier purge of the prefix has
  in its posted snapshot, or will find when it comes up in the queue, stays on disk until the
  new purge comes to it. A stalled worker gets there (`VfsHazards.StalledWorkerIsHarmed`). The
  purge timer queues all other prefixes before it comes back to one
  (`PurgeTimer.PrefixesComeRound`). `VfsHazards.FailureHarmIff`: a row left on disk that is
  unindexed, or shares its id with a global, a queued put or a posted failed write, is not
  deleted before the next purge of its prefix; or it waits to be unindexed and a purge comes
  to it; or two purges come to it. The deletion that ends the purge of a stored local is such a case
  (`VfsHazards.FailedDeletionIsHarmful`).
- A put finds its id stored only after a deletion has failed (`VfsGuarantees.NoDuplicates`).
- The LRU inclusion property needs both caches to load the same data for a key
  (`LruInclusion.LoadKeepsPrefixIff` is exact for one load).
- A request is called back exactly once if it is submitted while the connection is
  established and its own callback does not close the connection; otherwise it is called back
  twice (`Pipeline.ExactlyOnce`). The request is still queued while its callback runs, so a
  close from inside cancels it again (`Pipeline.ClosingCallbackIsCalledTwice`); replication
  does that when the first listing is refused and the configured master has changed
  (`whip/PullReplicationService.cpp:202` to line 71).
- The assertions that a request is waiting for a response hold, and no empty queue is popped,
  unless the server sends more responses than it was sent requests, or the callback of a
  refused request closes the connection (`Pipeline.BreaksIff`).

## What the models take for granted

- Handlers on one ASIO thread are steps; so is one turn of the worker, from pop to answer.
  Any interleaving of steps is a run, with posted handlers in any order. Queueing an asset for
  push replication does not throw.
- Storing an asset is one step. Pull replication calls `storeAsset` from a thread of its own
  (`whip/PullReplicationService.cpp:29-43`), so the look-up and the insertion at
  `whip/VFSBackend.cpp:304-315` could come between those of the ASIO thread; this is excluded.
- The id is the primary key of an index file, so a second row for an id at the invalid
  position fails with an exception.
- Ids in the protocol and in replication are texts that `Uuids.IsValid` accepts, so that
  sets of them and the index's sets of parsed ids decide alike (`Uuids.MembershipAgrees`).
- At start-up each id has one row, as a global or as a local, findable or at the invalid
  position, and no row is marked deleted where the protocol's loader is concerned
  (`ExistenceIndex.dfy` models the mark).
- Disk operations succeed, fail with a storage error, fail with another exception, or, for a
  write to an empty data file, are lost, in any order. Appends may stop after any number of
  bytes. A deletion that fails leaves all files of the prefix.
- The cache is proved transparent in runs without locals purges and without assets pushed in
  by the mesh, as it is never told of a purge.
- A pipeline callback caused by a response may close the connection or submit more; one made
  by a close or for a submit to a closed connection does not call the service again. A read
  that completes after a close counts as aborted. An asset body shorter than an id counts as
  an id mismatch.
- Mesh peers stay connected, and cancelling a timer works. A peer that is not connected is
  timed out, so a search never reaches the branch of `MeshServer::search` for it.
- Replication runs over a steady connection to one master, whose storage does not change
  during the round; listings name each id once; between a listing and the end of the round
  the slave's index loses only ids whose own write failed.
- Ids on the wire have 32 bytes and bodies fewer than 2^32, beyond which the constructors
  throw. A C string ends at its first zero byte.

## Model

| member | source | states |
|---|---|---|
| Sha1Engine.DigestOf | whip/SHA1.cpp:47-207 | constructing, updating with any chunks and finalising gives the FIPS 180-1 digest of their concatenation, so how a message is split does not matter |
| Sha1Engine.CSHA1.constructor | whip/SHA1.cpp:47-52 | a new object has taken in nothing |
| Sha1Engine.CSHA1.Reset | whip/SHA1.cpp:59-70 | the object is as if it had taken in nothing |
| Sha1Engine.CSHA1.Round | whip/SHA1.cpp:37-45 | one macro call is one FIPS step with the schedule word of its index, and leaves the 16-word window right for the next |
| Sha1Engine.CSHA1.FiveRounds | whip/SHA1.cpp:79-80 | five calls with rotating names are five steps |
| Sha1Engine.CSHA1.TwentyRounds | whip/SHA1.cpp:79-83 | twenty calls are twenty steps |
| Sha1Engine.CSHA1.Transform | whip/SHA1.cpp:72-111 | the unrolled transform is the FIPS compression of the block into the state |
| Sha1Engine.CSHA1.AddCount | whip/SHA1.cpp:118-121 | the two 32-bit counters with their carry hold the bit length modulo 2^64 |
| Sha1Engine.CSHA1.Update | whip/SHA1.cpp:114-139 | the bytes taken in grow by exactly the data, for every split over buffer and blocks |
| Sha1Engine.CSHA1.Consume | whip/SHA1.cpp:124-134 | the branch for completed blocks absorbs each of them once and keeps the tail buffered |
| Sha1Engine.CSHA1.TransformBlocks | whip/SHA1.cpp:130-131 | the block loop absorbs every whole block of the data and stops with fewer than 64 bytes left |
| Sha1Engine.CSHA1.KeepTail | whip/SHA1.cpp:137-138 | the rest of the data is buffered behind what is there |
| Sha1Engine.CSHA1.PadTo56 | whip/SHA1.cpp:189-192 | the padding loop appends the marker and the FIPS number of zeros and ends with 56 bytes buffered |
| Sha1Engine.CSHA1.FinalCount | whip/SHA1.cpp:184-187 | the eight length bytes are the bit length modulo 2^64, big-endian |
| Sha1Engine.CSHA1.Final | whip/SHA1.cpp:180-207 | the digest is the FIPS 180-1 digest of everything taken in; the counters are wiped |
| Sha1Engine.ScheduleStep | whip/SHA1.cpp:30-38 | the circular 16-word block yields every word of the 80-word schedule |
| Sha1Engine.SwapReadsBigEndian | whip/SHA1.cpp:30-35 | the rotate-and-mask of a little-endian load reads the word big-endian |
| Sha1Engine.ChoiceForms | whip/SHA1.cpp:41-42 | the xor form is the choice function of the standard |
| Sha1Engine.MajorityForms | whip/SHA1.cpp:44 | the or form is the majority function of the standard |
| Sha1Engine.RoundIsStep | whip/SHA1.cpp:41-45 | a macro call with its names rotated is the step of the standard |
| Sha1Engine.CountAdvances | whip/SHA1.cpp:118-121 | the carry test and the shifted high part add eight times the length modulo 2^64 |
| Sha1Engine.CountGivesFill | whip/SHA1.cpp:116 | the bits read as buffer position are the number of bytes buffered |
| Sha1Engine.UpdateStaysInBuffer | whip/SHA1.cpp:114-139 | the first copy, every turn of the block loop with its 32-bit guard, and the tail copy stay inside buffer and data if and only if buffered bytes plus length are below 2^32 |
| Sha1Engine.PaddingProgress | whip/SHA1.cpp:191-192 | the padding loop stops exactly at the smallest number of zeros that leaves 56 bytes |
| Sha1Spec.PadFillsBlocks | whip/SHA1.cpp:189-194 | the padded message is a whole number of 64-byte blocks |
| DataFiles.DataFile.WriteNewAsset | whip/DataFile.cpp:64-93 | the file and the position after an append whose writes may stop part-way |
| DataFiles.DataFile.GetAssetAtPosition | whip/DataFile.cpp:41-62 | the length-prefixed record at a position, or an error when the file is too short for it |
| DataFiles.WriteIsReadable | whip/DataFile.cpp:41-93 | a returned position decodes to the bytes written |
| DataFiles.AppendStability | whip/DataFile.cpp:41-93 | every position ever returned decodes to its own bytes after any later appends, including ones that fail part-way |
| DataFiles.PositionsIncrease | whip/DataFile.cpp:71-79 | positions of successful appends strictly increase |
| DataFiles.InvalidPositionIff | whip/DataFile.cpp:64-93 | for one call, a returned position is the invalid position if and only if the file was there and empty |
| DataFiles.InvalidPositionsIff | whip/DataFile.cpp:64-93 | over any series of calls from any file, absent included, a returned position is the invalid position if and only if an earlier call made the file, or it was there, and no byte has reached it |
| DataFiles.AbsentFileGetsInvalid | whip/DataFile.cpp:64-93 | an absent file yields the invalid position after one call that finds no room for the header |
| DataFiles.EmptyFileIff | whip/DataFile.cpp:64-93 | exactly when an append leaves an empty file behind |
| DataFiles.NonEmptyStaysValid | whip/DataFile.cpp:64-93 | once the file has a byte no later position is invalid |
| DataFiles.VfsDatabase.GetAsset | whip/VFSDatabase.cpp:31-41 | the bytes last stored under the id, or nothing |
| DataFiles.VfsDatabase.AssetExists | whip/VFSDatabase.cpp:54-62 | whether the id is findable |
| DataFiles.VfsDatabase.StoreAsset | whip/VFSDatabase.cpp:43-52 | a duplicate is refused; a failure leaves every asset as it was; a success adds exactly this asset, unless the data file was there and empty, when the asset is not findable |
| DataFiles.DatabaseSet.GetAsset | whip/DatabaseSet.cpp:19-32 | the global asset if there is one, else the local one |
| DataFiles.DatabaseSet.StoreAsset | whip/DatabaseSet.cpp:34-43 | the store goes to the database of the asset's locality and leaves the other alone |
| VfsProtocol.AskPutKeepsInv | whip/VFSBackend.cpp:301-323 | accepting or refusing a put keeps the invariant |
| VfsProtocol.FrontPutFits | whip/VFSBackend.cpp:102-119 | when a put reaches the worker its id is indexed, no row of the globals, not queued again, not failing and in no snapshot; a row of the locals that it has is deleted before any purge comes to it |
| VfsProtocol.WriteKeepsInv | whip/VFSBackend.cpp:102-125 | a disk write with any outcome keeps the invariant |
| VfsProtocol.WorkKeepsInv | whip/VFSBackend.cpp:67-100 | a worker turn keeps the invariant |
| VfsProtocol.FrontPurgeIsAlone | whip/VFSBackend.cpp:161-179 | what the front purge finds is indexed and not being put again or unindexed, and no purge behind it comes to the same rows |
| VfsProtocol.SnapshotIsFree | whip/VFSBackend.cpp:161-197 | the ids of a posted snapshot are neither a global's, nor queued, nor failing, and once the deletion is queued their rows are deleted before any purge comes to them |
| VfsProtocol.UnindexSnapshot | whip/VFSBackend.cpp:181-197 | unindexing a snapshot and queueing its deletion keeps the invariant |
| VfsProtocol.UnindexFailed | whip/VFSBackend.cpp:121-125 | unindexing a failed write keeps the invariant |
| VfsProtocol.DeletingKeepsInv | whip/VFSBackend.cpp:199-210 | deleting a prefix's local files, or failing to where that is not harmful, keeps the invariant |
| VfsProtocol.StepKeepsInv | whip/VFSBackend.cpp:67-323 | every step of client, worker or handler keeps the invariant, unless it begins a harmful purge or is a harmful failure to delete |
| VfsProtocol.RunKeepsInv | whip/VFSBackend.cpp:67-323 | the invariant holds after every orderly interleaving |
| VfsGuarantees.IndexIsSound | whip/VFSBackend.cpp:285-323 | in every reachable state each id with a row and each id of a queued put is indexed, except a local whose deletion is queued ahead of every purge of its prefix |
| VfsGuarantees.NotFoundIsHonest | whip/VFSBackend.cpp:285-292 | an id the index does not know is not served after the queue drains, whatever the outcomes, harmless failures to delete included |
| VfsGuarantees.GlobalsAreForever | whip/VFSBackend.cpp:161-210 | over every run, purges included, a stored global stays indexed and keeps its bytes |
| VfsGuarantees.NoDuplicates | whip/VFSBackend.cpp:102-119 | in every run in which deletions succeed, the put at the front of the queue finds no row of its id, so the duplicate error is dead code |
| VfsGuarantees.OneReplyEach | whip/VFSBackend.cpp:102-154 | in every run, harmful ones included, each request is answered at most once, and exactly once when the queue is empty |
| VfsGuarantees.PutIsAccepted | whip/VFSBackend.cpp:301-323 | a put of an unknown id is accepted |
| VfsGuarantees.StepKeepsAccepted | whip/VFSBackend.cpp:67-323 | an accepted put stays accepted and every new answer about its id is faithful |
| VfsGuarantees.ReadYourWrites | whip/VFSBackend.cpp:262-323 | over every interleaving in which its own write succeeds and is not lost, each get accepted after a put is answered with its bytes or a read error, and the drained disk holds the asset |
| VfsGuarantees.LoadedIsInv | whip/ExistenceIndex.cpp:13-67 | the state after start-up satisfies the invariant, and no reply is owed |
| VfsHazards.HarmIff | whip/VFSBackend.cpp:161-197 | in every sound state, beginning a purge of a prefix lets some run hide a row of the globals if and only if a row that an earlier purge has caught, or will catch, stays on disk until the new one comes to it; a run whose handlers are in order does it too |
| VfsHazards.StalledWorkerIsHarmed | whip/VFSBackend.cpp:161-210 | from start-up with a local on disk and the worker stalled, a second purge of its prefix is harmful, and a run that hides a global follows |
| VfsHazards.FailureHarmIff | whip/VFSBackend.cpp:199-210 | in every sound state, whatever is in flight, failing to delete the locals of a prefix lets some run hide a row of the globals if and only if a row left on disk is troubled and not deleted before the next purge, or waits to be unindexed and a purge comes to it, or is found by two purges |
| VfsHazards.FailedDeletionIsHarmful | whip/VFSBackend.cpp:181-210 | from start-up with a local on disk, a purge of its prefix ends in a deletion that must not fail: if it does, a run that hides a global follows |
| VfsHazards.LostWriteIsNotFound | whip/VFSDatabase.cpp:43-52 | a put whose write lands at the invalid position is answered as stored, and over every later run, until its prefix is purged if it is a local, no answer about its id finds it; a global may be answered with the local that had its id until that is deleted |
| VfsHazards.RunKeepsLostRow | whip/SQLiteIndexFile.cpp:72-96 | a row at the invalid position stays so, for a global for ever |
| PurgeTimer.PrefixesComeRound | whip/VFSBackend.cpp:334-371 | between two purges of a prefix the timer has queued the purge of every other prefix |
| PurgeTimer.PurgeLocalsTimer.BeginPurgeLocals | whip/VFSBackend.cpp:334-344 | starts the timer once, from prefix 000 |
| PurgeTimer.PurgeLocalsTimer.OnPurgeTimer | whip/VFSBackend.cpp:346-371 | queues the next prefix and keeps one wait on the timer until fff |
| VfsBackends.VfsBackend.constructor | whip/ExistenceIndex.cpp:13-83 | start-up indexes every row and establishes the invariant |
| VfsBackends.VfsBackend.StoreAsset | whip/VFSBackend.cpp:301-323 | refuses a known id, else indexes it and queues the put; keeps the invariant |
| VfsBackends.VfsBackend.GetAsset | whip/VFSBackend.cpp:285-299 | answers an unknown id at once, else queues the get; keeps the invariant |
| VfsBackends.VfsBackend.WorkTurn | whip/VFSBackend.cpp:67-154 | takes one request off the front and performs it; keeps the invariant unless it is a harmful failure to delete |
| VfsBackends.VfsBackend.UnindexLocals | whip/VFSBackend.cpp:181-197 | removes exactly the snapshot from the index and queues the deletion; keeps the invariant |
| VfsBackends.VfsBackend.AssetWriteFailed | whip/VFSBackend.cpp:121-125 | removes the failed id from the index; keeps the invariant |
| LruCaches.LruCache.constructor | whip/lru_cache.h:124-129 | an empty cache |
| LruCaches.LruCache.Clear | whip/lru_cache.h:124-129 | nothing is left in list, index or size |
| LruCaches.LruCache.Exists | whip/lru_cache.h:135-138 | whether the list has the key |
| LruCaches.LruCache.Remove | whip/lru_cache.h:143-148 | the list without the key, other entries in order |
| LruCaches.LruCache.Fetch | whip/lru_cache.h:176-185 | the data of the key, which moves to the front |
| LruCaches.LruCache.Promote | whip/lru_cache.h:234-240 | the key moves to the front, the rest keeps its order |
| LruCaches.LruCache.Erase | whip/lru_cache.h:246-263 | list, index and size lose exactly one entry |
| LruCaches.LruCache.Insert | whip/lru_cache.h:192-216 | the longest prefix of the new entry and the old ones without its key that fits the maximum |
| LruCaches.LruCache.Evict | whip/lru_cache.h:209-215 | the eviction loop leaves the longest fitting prefix and never takes the last entry of an empty list |
| LruSpec.FitIsLongest | whip/lru_cache.h:209-215 | the kept prefix fits and no longer prefix does |
| LruInclusion.StepInclusion | whip/lru_cache.h:143-216 | one insert, remove or load on two caches keeps the smaller list a prefix of the larger |
| LruInclusion.Inclusion | whip/lru_cache.h:143-216 | after any trace the list of the smaller cache is a prefix of the larger one's, for any weights |
| LruInclusion.BiggerHitsMore | whip/lru_cache.h:176-216 | a key the smaller cache finds the larger one finds, with the same data |
| LruInclusion.LoadKeepsPrefixIff | whip/lru_cache.h:176-216 | a load that misses in the smaller cache and hits in the larger keeps the prefix if and only if the data agree or the entry does not fit |
| AssetCaches.WriteOnce | whip/AssetCache.cpp:26-79 | without purges no step changes the bytes of a stored id, and what is lost stays lost |
| AssetCaches.FrontStepKeepsInv | whip/AssetCache.cpp:26-79 | every step keeps each cached value, and each answer given, under its own id and equal to the stored bytes unless its write was lost |
| AssetCaches.FrontRunKeepsInv | whip/AssetCache.cpp:26-79 | so does every run |
| AssetCaches.CacheIsTransparent | whip/AssetCache.cpp:26-79 | after every run, for every size, a cached value carries the id asked for and differs from the disk if and only if its own write was lost; the backend alone would answer what the disk holds, read errors aside |
| AssetCaches.RunLoses | whip/AssetCache.cpp:67-79 | the ids with a lost row after a run are those before it and those whose own write the run lost |
| AssetCaches.LostWriteIsCached | whip/AssetCache.cpp:72-79 | after a lost write the cache answers with an asset that is nowhere on disk |
| AssetCaches.EveryAnswerIsTrue | whip/AssetCache.cpp:26-79 | every asset handed to a client is what the disk holds, or the disk holds nothing because its write was lost; each ask has one answer, or one request queued, or one callback still to be passed on |
| AssetCaches.DrainAnswers | whip/AssetCache.cpp:37 | draining the backend answers a queued get with what the disk held, or not found where the write was lost |
| AssetCaches.AssetCache.GetAsset | whip/AssetCache.cpp:42-56 | a hit is answered from the cache, a miss goes to the backend |
| AssetCaches.AssetCache.StoreAsset | whip/AssetCache.cpp:67-70 | the put goes to the backend |
| AssetCaches.AssetCache.CallbackNext | whip/AssetCache.cpp:58-79 | a successful answer is cached unless told not to, then passed on |
| Pipeline.ExactlyOnce | whip/RemoteAssetService.cpp:175-306 | in every run, each request is called back or still queued for it exactly once if it was submitted to an open connection and its own callback does not close it, and exactly twice otherwise; every close settles all of them, and only late requests are queued on a closed connection |
| Pipeline.InOrder | whip/RemoteAssetService.cpp:221-512 | in every run, the k-th response goes to the k-th request written, which is the k-th submitted, and the result fits the request |
| Pipeline.CloseCancelsTheRest | whip/RemoteAssetService.cpp:270-306 | while open, requests wait only behind a write, and a close cancels exactly the unanswered ones, those never written first |
| Pipeline.BreaksIff | whip/RemoteAssetService.cpp:331-541 | an assertion that a request is waiting fails, or an empty queue is popped, if and only if a response is completed after every request written has had its own, or a refusal is completed whose callback closes the connection |
| Pipeline.ClosingCallbackIsCalledTwice | whip/RemoteAssetService.cpp:396-402 | a callback that closes the connection has its own request cancelled by the drain, so it is called a second time, and the pop that follows finds the queue empty |
| Pipeline.StepKeepsInv | whip/RemoteAssetService.cpp:175-541 | every step keeps the queues and the history in agreement |
| Pipeline.RunKeepsInv | whip/RemoteAssetService.cpp:175-541 | so does every run |
| Pipeline.RemoteAssetService.SubmitRequest | whip/RemoteAssetService.cpp:175-244 | a request is sent, or queued behind the write in progress; on a closed connection it is refused as well |
| Pipeline.RemoteAssetService.OnAfterWriteAssetRequest | whip/RemoteAssetService.cpp:246-268 | the next queued request is sent, or the connection closes |
| Pipeline.RemoteAssetService.Close | whip/RemoteAssetService.cpp:270-306 | both queues are drained into cancelled callbacks |
| Pipeline.RemoteAssetService.OnReadResponseHeader | whip/RemoteAssetService.cpp:331-422 | a valid header starts a body read or answers the front request, whose callback may close; a corrupt one closes; none to answer fails the assertion |
| Pipeline.RemoteAssetService.OnReadResponseData | whip/RemoteAssetService.cpp:424-512 | the front request is answered by its kind, and dropped if it is still there; an id mismatch closes |
| Pipeline.RemoteAssetService.OnHandleRequestErrorData | whip/RemoteAssetService.cpp:514-541 | the front request is answered with the error text, and dropped without looking |
| MeshSearch.SearchesAreAnswered | whip/AssetSearch.cpp:34-177 | in every run a search is in a server's table under its id if and only if the server is in its queried set; neither warning is logged; a finished search has called back once, truthfully, and an active one not at all |
| MeshSearch.NoSearchIsStuck | whip/AssetSearch.cpp:104-177 | every active search has its timer or its fetch outstanding, and either ends it |
| MeshSearch.BeginKeepsInv | whip/AssetSearch.cpp:96-119 | starting a search keeps the invariant, also with no server to ask |
| MeshSearch.ResultKeepsInv | whip/AssetSearch.cpp:34-94 | one answer to one waiting search keeps the invariant and takes it out of the server's set |
| MeshSearch.RespondKeepsInv | whip/MeshServer.cpp:371-387 | an answer to everyone waiting keeps the invariant and empties the set |
| MeshSearch.TimeoutKeepsInv | whip/AssetSearch.cpp:137-157 | a timeout keeps the invariant |
| MeshSearch.FetchedKeepsInv | whip/AssetSearch.cpp:169-177 | an arrived asset keeps the invariant |
| MeshSearch.RunKeepsInv | whip/AssetSearch.cpp:34-177 | the invariant holds after every run |
| MeshSearch.MeshStorageBackend.PerformSearch | whip/AssetSearch.cpp:96-119 | asks every eligible server; with none, answers no at once |
| MeshSearch.MeshStorageBackend.InitiateSearches | whip/MeshServer.cpp:328-359 | joins or starts the set for the id at every eligible server |
| MeshSearch.MeshStorageBackend.CancelRemainingServers | whip/AssetSearch.cpp:76-84 | leaves the set at every queried server and drops sets that become empty |
| MeshSearch.MeshStorageBackend.OnSearchResult | whip/AssetSearch.cpp:34-74 | the two warnings, then the positive or the negative branch |
| MeshSearch.MeshStorageBackend.PostResponse | whip/MeshServer.cpp:371-387 | everyone waiting hears once, in some order; the entry goes at the end |
| MeshSearch.MeshStorageBackend.OnTimeout | whip/AssetSearch.cpp:137-157 | cancels, answers no and completes |
| MeshSearch.MeshStorageBackend.OnFullAssetRcvd | whip/AssetSearch.cpp:169-177 | delivers and completes |
| PullReplication.SingleContinuation | whip/PullReplicationService.cpp:45-308 | after every run exactly one of a listing, a batch and the restart timer is outstanding, with one fetch or store for each id in progress and at most the batch size of them |
| PullReplication.RoundConverges | whip/PullReplicationService.cpp:116-308 | whenever a round waits, whatever clients stored meanwhile, all prefixes from the start to 0xfff have been listed and every listed id is indexed, or its fetch failed, or its write failed and dropped it |
| PullReplication.StepIsBelow | whip/PullReplicationService.cpp:164-308 | every answered listing, fetch or store lowers prefixes left, phase, ids queued and work in progress lexicographically |
| PullReplication.RoundEnds | whip/PullReplicationService.cpp:116-308 | wherever a round has got to, some run of it goes on to the wait, with the lists the master gave |
| PullReplication.SettledRoundConverges | whip/PullReplicationService.cpp:116-308 | however a round goes, clients' stores included, once nothing more can happen it waits; the slave has every id the master listed and holds, and any other listed id it lacks could not be fetched |
| PullReplication.GoodStepIsBelow | whip/PullReplicationService.cpp:164-308 | every step of such a round lowers the measure, a client store leaves it, so none is endless |
| PullReplication.SlaveCatchesUp | whip/PullReplicationService.cpp:116-308 | a fresh slave can run a round after which it has every id the master lists and holds |
| PullReplication.StepKeepsInv | whip/PullReplicationService.cpp:116-308 | every event keeps the invariant |
| PullReplication.RunKeepsInv | whip/PullReplicationService.cpp:116-308 | so does every run |
| PullReplication.BatchParts | whip/PullReplicationService.cpp:232-265 | the batch loop asks only for absent ids, loses none, fits the batch and stops early only when full |
| PullReplication.MissingIs | whip/PullReplicationService.cpp:182-190 | the queue is exactly the listed, non-empty, absent ids, each once |
| PullReplication.NextBatchKeepsInv | whip/PullReplicationService.cpp:232-265 | a batch, or moving on when there is nothing to ask for, keeps the invariant |
| PullReplication.ListedKeepsInv | whip/PullReplicationService.cpp:164-205 | a listing keeps the invariant |
| PullReplication.DoneKeepsInv | whip/PullReplicationService.cpp:267-308 | the last id to finish moves the service on, the others do not |
| PullReplication.PullReplicationService.constructor | whip/PullReplicationService.cpp:15-23 | the first round starts from the configured prefix |
| PullReplication.PullReplicationService.RunNext | whip/PullReplicationService.cpp:116-149 | one step of the current phase |
| PullReplication.PullReplicationService.RetrieveNextIdList | whip/PullReplicationService.cpp:207-224 | the next prefix, or the end of the round |
| PullReplication.PullReplicationService.RetrieveNextMissingAssetBatch | whip/PullReplicationService.cpp:232-265 | the next batch, or the next prefix when nothing was sent |
| PullReplication.PullReplicationService.SendBatch | whip/PullReplicationService.cpp:238-257 | the loop over the queue sends exactly the batch |
| PullReplication.PullReplicationService.QueueMissing | whip/PullReplicationService.cpp:178-190 | the filter loop queues exactly the missing ids |
| PullReplication.PullReplicationService.OnGetStoredAssetIds | whip/PullReplicationService.cpp:164-205 | a listing is split, filtered and acted on |
| PullReplication.PullReplicationService.OnListFailed | whip/PullReplicationService.cpp:200-203 | a non-fatal listing error asks again |
| PullReplication.PullReplicationService.OnAssetRetrieved | whip/PullReplicationService.cpp:267-288 | a fetched asset is stored, a failed one is given up |
| PullReplication.PullReplicationService.OnAfterAssetStored | whip/PullReplicationService.cpp:295-308 | a stored or refused asset is no longer in progress; a write that failed may have dropped it |
| PullReplication.PullReplicationService.OnTimer | whip/PullReplicationService.cpp:141-149 | the next round, or the timer again |
| IdLists.ListingRoundTrip | whip/VFSBackend.cpp:412-429 | what the slave splits out of a listing is what the master listed, in order |
| Mirror.ListingIsStore | whip/VFSBackend.cpp:412-429 | what the slave reads out of a prefix's listing is the rows of the master's globals under it, each id once |
| Mirror.MirrorIsComplete | whip/PullReplicationService.cpp:116-308 | whatever run the master's storage has been through, and however a round from prefix 000 goes, clients' stores included, once it is over the slave has every global the master stores; a row at the invalid position is listed, and is there or could not be fetched |
| Framing.StreamRoundTrip | whip/ServerResponseMsg.cpp:11-85 | any sequence of messages, written back to back, is read as the same sequence whatever follows, with every header looked for on a boundary |
| Framing.CutStream | whip/RemoteAssetService.cpp:331-422 | wherever a stream breaks off, exactly the complete messages are read and no header is mistaken for corrupt |
| Framing.WholeStreamIsWritten | whip/ServerResponseMsg.cpp:52-85 | a response stream that ends on a boundary is the one its messages are written as |
| Framing.RequestSizeIsIgnored | whip/CSAuthenticated.cpp:50-112 | the size in the header of a request without a body is ignored, so for requests that converse fails |
| Framing.FrameIsRead | whip/ClientRequestMsg.cpp:11-76 | a frame is read back whole and leaves what follows it |
| Framing.CutFrameIsShort | whip/RemoteAssetService.cpp:331-355 | a message cut anywhere is incomplete, never another message |
| Framing.SetupHeader | whip/ServerResponseMsg.cpp:28-36 | the header built in place is code, id and big-endian size |
| Framing.Send | whip/CSAuthenticated.cpp:253-301 | the header, then the data if any |
| Framing.SendAll | whip/CSAuthenticated.cpp:253-315 | message after message |
| Framing.ReceiveAll | whip/RemoteAssetService.cpp:331-541 | listening again after every message |
| Bytes.BigEndianRoundTrip | whip/ServerResponseMsg.cpp:35 | a size survives network byte order |
| Bytes.BigEndianIsOnto | whip/ServerResponseMsg.cpp:67 | every four bytes are the network order of the size they read as |
| Uuids.ValidRoundTrip | ooid/kashmir/uuid.h:125-231 | every valid id parses, and printing gives it back |
| Uuids.PrintRoundTrip | ooid/kashmir/uuid.h:125-231 | every uuid prints as text that parses to it |
| Uuids.OrdersAgree | ooid/kashmir/array.h:75-79 | byte order is text order |
| Uuids.ValidOrdersAgree | ooid/kashmir/uuid.h:110-119 | valid ids compare as their texts do |
| Uuids.LessIsTotal | ooid/kashmir/array.h:69-79 | of two uuids exactly one is less unless they are equal |
| Uuids.LessIsTransitive | ooid/kashmir/array.h:75-79 | the order is transitive |
| Uuids.MembershipAgrees | whip/ExistenceIndex.cpp:69-83 | a set of uuids decides membership of valid ids as a set of texts does |
| Uuids.UntouchedIff | ooid/kashmir/uuid.h:165-173 | a blank text, and no other, leaves the bytes uninitialised |
| Uuids.OnePrefixEach | whip/PullReplicationService.cpp:156-162 | every valid id lies under exactly one prefix from 000 to fff |
| Uuids.Get | ooid/kashmir/uuid.h:165-231 | the stream loop gives the closed-form parse: white space skipped, only the first digit of a byte folded to lower case, extra text ignored |
| Uuids.Put | ooid/kashmir/uuid.h:125-163 | two lower-case digits for every byte |
| Uuids.Compare | ooid/kashmir/array.h:75-79 | the comparison loop is the lexicographic order |
| Uuids.CheckUuid | whip/Validator.cpp:14-29 | the scan accepts exactly 32 lower-case hex digits |
| ExistenceIndexes.ExistenceIndex.AssetExists | whip/ExistenceIndex.cpp:69-75 | a valid id is found exactly when its text was added; an unparsable one throws |
| ExistenceIndexes.ExistenceIndex.AddNewId | whip/ExistenceIndex.cpp:77-83 | a valid id's text is added; an unparsable one throws and changes nothing |
| ExistenceIndexes.ExistenceIndex.RemoveId | whip/ExistenceIndex.cpp:85-89 | the id's text is removed and no other |
| ExistenceIndexes.ExistenceIndex.LoadIndexFile | whip/ExistenceIndex.cpp:56-67 | throws exactly when the id of a row not marked deleted does not parse; otherwise, if those ids are valid, adds exactly them |

## Left out

- Sockets, buffers in flight, timers in real time, threads, mutexes and object lifetimes: they appear as the order of events.
- SQLite: the index file is a table from id to position.
- File system calls: a file is absent or a sequence of bytes; directories and Windows files are not modelled.
- Authentication beyond the digest: few branches and no hard property.
- Reconnecting, a change of master, and fatal errors in replication: the model stops at the first fatal error.
- PushReplicationService, IntraMeshQueryClient and the mesh heartbeat: small queues that add easy members.
- MeshServer's own transfer queue: it repeats the pipeline of RemoteAssetService.
- MeshServer::close: it does not empty the search table, and is excluded by peers staying connected.
- Single-asset purge: the source does not implement it.
- Status text, statistics, logging, settings, object pools and command-line tools.
- LRUCache::fetch_ptr, touch and get_all_keys, and fetch without touching: no caller in the server depends on them.
- DataFiles.DataFile.GetAssetAtPosition: says that a short read is an error, not which one.
- VfsProtocol.StepKeepsInv: a write that fails with a storage error, and a local stored between a purge's snapshot and its deletion, leave their ids in the index; the model keeps this and proves only that the index misses nothing.
- LruCaches.LruCache.Insert: the size counter is an unbounded number, where the source has 64 bits.
- MeshSearch.MeshStorageBackend.PostResponse: searches and servers are numbers in one object rather than objects of their own, and callbacks that start another search from within an answer are not modelled.
- Uuids.Put: the stream's width and fill are at their defaults.

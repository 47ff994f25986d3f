# A verified model of the LMCache core

This project models the stateful core of the LMCache copy in this repository and proves
properties of it in Dafny: how KV-cache layers travel between host memory objects and paged
GPU memory, how the cache engine decides what it returns and who releases what, the
key-value wire server, and the parsers, codecs, counters and configuration around them.
`dafny verify dfyconfig.toml` checks all of it.

## How it is organised

- `DeviceStreams` is the GPU: tensors as arrays of key/value rows, two streams of waiting
  operations, and a device that may run any amount of waiting work between two host steps.
  An operation may be launched only if it commutes with everything that waits on the other
  stream; proving that for each launch is the hazard freedom of the connectors. RoPE is an arbitrary
  row function `rope(old, new, key)`. The *settled* memory is the memory once both streams
  have drained; it does not depend on what the device runs when. A *lazy* device runs nothing
  until the host waits, which shows that a hazard can occur.
- `LoadJob`, `BufferedLoader` model `VLLMBufferLayerwiseGPUConnector.batched_to_gpu` as a
  step machine, one method per resume of the generator; `FirstDelivery` says exactly when its
  first resume with a layer is safe. `LayerStore` and `LayerLoad` model the store generators
  and the paged load, `BufferLayout` the two buffer layouts, `MoveCache` a store followed by a
  load elsewhere. `ChunkedTransfer` ties the paged transfers to chunk lists and slot mappings.
- `LayerwiseEngine`, `PagedEngine` drive these generators as `store_layer` and
  `retrieve_layer` do. `EventManager`, `Retrieval` and `SyncRetrieval` model `retrieve` with
  its two ways of processing tokens, on real objects with reference counts.
- `WireServer` models the server's socket loop over its message codec; `Bytes`, `Utf8` and
  `KeyField` are the packing of integers and of the 150-byte key.
- `SlotMapping`, `SlotParser`, `CacheKeys`, `RemoteProtocol` with `Numerals`, `Splitting` and
  `Whitespace` model the text and binary formats; `SlotGrammar`, `KeyParsing` and `RemoteParsing`
  say which texts and bytes are accepted, and as what.
- `StatsMonitor`, `LazyAllocator`, `LayerGroups` and `RemoteConfig` model the statistics
  monitor, the background pinning of host memory, the grouping of layers and the remote
  configuration; `StatsReports` reads what the monitor's reports say off the events alone.

Loops and objects of the source are loops and classes here; each method is proved against a
function of its inputs or its old state, and the laws are lemmas about those functions.

## Where code and documentation disagree

The model follows the code.

- `_process_tokens_internal` filters with `end <`, so a fetched chunk that ends where the last
  failure starts is dropped while its mask bits stay true (`FetchedMarkedNotReturned`); the
  exact condition is `MaskIsUnionIff`. Nobody releases what is dropped (`AllReleasedIff`).
- `parse_cache_key` tests the field that holds the dtype, so it never recognises a layer key
  (`ParsingIsPlain`, `LayerKeysAreRejected`).
- The buffered store zips in a list that is empty unless positions are cached, and then copies
  nothing (`StoredObjects`).
- The buffered load clears the position table on the current stream and fills it on the load
  stream without ordering the two. The first delivery is free of that race exactly when the
  clear has run (`FirstDeliveryRaceFreeIff`), and table and layers are right exactly then or when
  all cached positions are zero (`FirstPositionsRightIff`, `LayersRightIff`); nothing forces the
  clear to have run (`Loader.Start`, `LayerwiseEngine.RetrieveAll` on a lazy device).
- `retrieve_layer` releases all objects right after the last delivery. Over the buffered
  connector the copies are done by then (`Deliver`); over the paged one the load stream may
  still hold some (`ReleasedUnreadIff`), and what is then written into a released object reaches the loaded
  layers unless at most the final scatter still waits (`ReuseHarmlessIff`).
- A load in the `start - offset` layout works for contiguous chunks only: with a gap its last
  copy runs past the buffer (`CopiesFitIffContiguous`).
- Adding an event id that is still ongoing, or updating one onto a status under which it is
  filed already, drops a future for good, and nothing else does (`ConservedIffNeverOverwritten`).
- The assertion on a key's length counts characters, the field holds 150 bytes: a longer UTF-8
  form is cut off without notice, so that the key does not come back (`KeyFieldRoundTripIff`) or
  a layer key comes back as a plain one (`CutLayerKeyTurnsPlain`).
- An item of a remote response that names `_user_set_keys` replaces that set, override or not
  (`UsersKeptIff`), after which a user-set key may be changed (`UserSetKeyProtectedIff`) and a
  second application may differ from the first (`ApplyIsIdempotentIff`). An item whose key is no
  string ends the loop with an exception.
- The docstring of `SGLangLayerwiseGPUConnector.batched_to_gpu` counts one yield too many; that
  connector's generators are not part of this model.

## Model

| member | source | states |
|---|---|---|
| DeviceStreams.Commute | tkdgjs/experiment/notuse_backup/lmcache_backup/v1/gpu_connector.py:849-861 | device operations that touch nothing the other writes, or write the same positions, give the same memory in either order: what makes a non-blocking copy on another stream harmless |
| DeviceStreams.AnyInterleavingSameMemory | tkdgjs/experiment/notuse_backup/lmcache_backup/v1/gpu_connector.py:848-866 | if each operation of one stream commutes in this sense with each of the other, every interleaving of the two streams ends in the same memory |
| DeviceStreams.Device.Launch | tkdgjs/experiment/notuse_backup/lmcache_backup/v1/gpu_connector.py:849-866 | issuing an operation that races with nothing waiting leaves the settled memory equal to executing it last, although the device may run any amount of work meanwhile |
| DeviceStreams.Device.Progress | tkdgjs/experiment/notuse_backup/lmcache_backup/v1/gpu_connector.py:820 | whatever the device chooses to execute between two host steps, the settled memory is unchanged and each queue keeps its newest work; a lazy device executes nothing until it is waited for |
| DeviceStreams.Device.Synchronize | tkdgjs/experiment/notuse_backup/lmcache_backup/v1/gpu_connector.py:818-820 | both streams are empty afterwards and the memory is exactly the settled memory from before |
| LoadJob.ScatterInjective | tkdgjs/experiment/notuse_backup/lmcache_backup/v1/gpu_connector.py:806-813 | a scatter through an injective slot mapping puts row i in slot w[i] and leaves every other slot alone |
| LoadJob.LayerLoadedByToken | tkdgjs/experiment/notuse_backup/lmcache_backup/v1/gpu_connector.py:761-880 | loading a layer means, token by token in the request's own fields: row i of chunk j, its key rotated from its cached position to `starts[j] + i`, is in slot `slots[starts[j] + i]`, every token between the chunks has zeros in its slot, and no slot outside `slots[starts[0]..ends[last]]` has changed; the reference says exactly this |
| LoadJob.LayerLoadedUnique | tkdgjs/experiment/notuse_backup/lmcache_backup/v1/gpu_connector.py:761-880 | the sequential meaning of a layer load determines the paged layer completely: two results that satisfy it are equal |
| BufferedLoader.EncodeLayer | tkdgjs/experiment/notuse_backup/lmcache_backup/v1/gpu_connector.py:831-839 | re-encoding the compute buffer turns exactly the covered rows into rope(old, new, key) with their values, and the gap rows into zeros |
| BufferedLoader.FlushLayer | tkdgjs/experiment/notuse_backup/lmcache_backup/v1/gpu_connector.py:805-813 | flushing an encoded buffer through the slot mapping is the sequential load of that layer |
| BufferedLoader.GapPositions | tkdgjs/experiment/notuse_backup/lmcache_backup/v1/gpu_connector.py:764-773 | the gap mask marks exactly the window tokens no chunk covers |
| BufferedLoader.Flight.FlushStep | tkdgjs/experiment/notuse_backup/lmcache_backup/v1/gpu_connector.py:805-816 | iteration L's flush takes one more layer from its buffer to paged memory and keeps every other stage of the pipeline |
| BufferedLoader.Flight.ReencodeStep | tkdgjs/experiment/notuse_backup/lmcache_backup/v1/gpu_connector.py:818-841 | after the swap and the re-encoding the new compute buffer holds the last delivered layer, encoded |
| BufferedLoader.Flight.CopyStep | tkdgjs/experiment/notuse_backup/lmcache_backup/v1/gpu_connector.py:848-866 | copying chunk j writes the load buffer only: the encoded layer in the compute buffer and all paged layers stay |
| BufferedLoader.Loader.Start | tkdgjs/experiment/notuse_backup/lmcache_backup/v1/gpu_connector.py:757-846 | the first resume establishes the pipeline invariant with the first yield counted; nothing but the zero fill of the position table may wait then, and on a lazy device it does |
| BufferedLoader.Loader.Send | tkdgjs/experiment/notuse_backup/lmcache_backup/v1/gpu_connector.py:804-866 | a resume with a layer (the first one once the zero fill has run, or with cached positions that are all zero) keeps the invariant: no waiting operations of the two streams conflict, buffer_mapping is exactly {L-1} after iteration L, every earlier layer is in paged memory, and nothing but the buffers and the paged caches is written |
| BufferedLoader.Loader.Next | tkdgjs/experiment/notuse_backup/lmcache_backup/v1/gpu_connector.py:868-880 | the last resume flushes the last layer: all layers are loaded, buffer_mapping is empty (the assertion holds) and there were num_layers + 2 yields |
| FirstDelivery.FirstDeliveryRaceFreeIff | tkdgjs/experiment/notuse_backup/lmcache_backup/v1/gpu_connector.py:800-866 | at the first delivery, in any state of the generator, the position writes race with nothing waiting if and only if the current stream, and with it the zero fill, has run |
| FirstDelivery.FirstDeliveryHarmlessIff | tkdgjs/experiment/notuse_backup/lmcache_backup/v1/gpu_connector.py:800-866 | that race is harmless, because both sides write the same, if and only if the zero fill has run or every cached position is zero |
| FirstDelivery.FirstPositionsRightIff | tkdgjs/experiment/notuse_backup/lmcache_backup/v1/gpu_connector.py:800-866 | every order the device may pick for the zero fill and the first position writes leaves the cached positions in the table if and only if the zero fill has run or all of them are zero |
| FirstDelivery.EncodeLayerIff | tkdgjs/experiment/notuse_backup/lmcache_backup/v1/gpu_connector.py:831-839 | re-encoding raw rows is right for every rope function if and only if the position table holds the cached positions |
| FirstDelivery.LayersRightIff | tkdgjs/experiment/notuse_backup/lmcache_backup/v1/gpu_connector.py:800-866 | every layer, raw in its buffer, is re-encoded right in every order and for every rope function if and only if the zero fill has run at the first delivery or every cached position is zero |
| BufferLayout.RunningLayoutMatches | tkdgjs/experiment/notuse_backup/lmcache_backup/v1/gpu_connector.py:930-946 | for every chunk list the slots at a chunk's running buffer range are that chunk's slots |
| BufferLayout.LayoutsAgreeIffContiguous | tkdgjs/experiment/notuse_backup/lmcache_backup/v1/gpu_connector.py:1192-1221 | the start - offset layout is the running layout if and only if each chunk starts where the previous one ends |
| BufferLayout.LayOut | tkdgjs/experiment/notuse_backup/lmcache_backup/v1/gpu_connector.py:930-946 | the layout loop makes ranges that begin at 0 and follow one another, joined slots in which each range holds its chunk's slots, and with position caching one list per chunk whose entry i is `starts[j] + i` |
| BufferLayout.StoredObjects | tkdgjs/experiment/notuse_backup/lmcache_backup/v1/gpu_connector.py:934-990 | the zip of a buffered store fills all of a layer's objects when positions are cached and none of them otherwise |
| LayerStore.Generator.Start | tkdgjs/experiment/notuse_backup/lmcache_backup/v1/gpu_connector.py:1302-1365 | the first resume, whatever waits on the current stream, issues layer 0's gather and copies without a race |
| LayerStore.Generator.Resume | tkdgjs/experiment/notuse_backup/lmcache_backup/v1/gpu_connector.py:1327-1374 | each resume keeps: once settled, every layer issued so far is in its objects chunk by chunk, paged memory is intact, and with sync nothing waiting still writes an earlier layer's objects |
| LayerStore.Generator.OtherWork | tkdgjs/experiment/notuse_backup/lmcache_backup/v1/gpu_connector.py:1327-1374 | between two resumes any other work that races with no waiting copy and writes neither the paged caches nor the objects leaves what has been stored as it is |
| LayerStore.Generator.SyncedObject | tkdgjs/experiment/notuse_backup/lmcache_backup/v1/gpu_connector.py:1366-1368 | with sync, an earlier layer's object can be read on the host at any moment: its row i is what the paged cache held in the slot of the chunk's row i |
| LayerLoad.Loader.Send | tkdgjs/experiment/notuse_backup/lmcache_backup/v1/gpu_connector.py:1195-1242 | staging the chunks of a layer and scattering them makes that paged layer the scatter of exactly the delivered rows, while unrelated work may wait on the current stream; earlier and later layers stay |
| LayerLoad.Loader.RaceFreeIff | tkdgjs/experiment/notuse_backup/lmcache_backup/v1/gpu_connector.py:1218-1242 | the copies and the scatter of a delivery race with nothing on the current stream if and only if nothing there touches the staging buffer, the paged layer or the objects in a conflicting way |
| LayerLoad.Loader.Next | tkdgjs/experiment/notuse_backup/lmcache_backup/v1/gpu_connector.py:1243-1254 | after the last resume every layer is loaded, with num_layers + 2 yields |
| MoveCache.LayerMoved | tkdgjs/experiment/notuse_backup/lmcache_backup/v1/gpu_connector.py:1171-1374 | gather, cut into chunks, join and scatter moves each token's row from its old slot to its new one and nothing else |
| MoveCache.Mover.Move | tkdgjs/experiment/notuse_backup/lmcache_backup/v1/gpu_connector.py:1171-1374 | store then load, for any number of layers: every token's rows of every layer end in its new slot, all other slots keep theirs |
| ChunkedTransfer.TilesIffContiguous | tkdgjs/experiment/notuse_backup/lmcache_backup/v1/gpu_connector.py:1195-1221 | the start - offset ranges tile the staging buffer if and only if the chunks are contiguous |
| ChunkedTransfer.CopiesFitIffContiguous | tkdgjs/experiment/notuse_backup/lmcache_backup/v1/gpu_connector.py:1195-1221 | for chunks in order every copy of the paged load fits its buffer if and only if they are contiguous: with a gap the last one runs past the end |
| ChunkedTransfer.StoredChunk | tkdgjs/experiment/notuse_backup/lmcache_backup/v1/gpu_connector.py:1302-1365 | what a store keeps for a chunk is the paged rows at that chunk's slots, for any chunk list in the running layout and for contiguous chunks in the other |
| ChunkedTransfer.MoveTokens | tkdgjs/experiment/notuse_backup/lmcache_backup/v1/gpu_connector.py:1171-1374 | store under one slot mapping, load under another: for contiguous chunks and any number of layers each token's rows go from its old slot to its new one, every other slot keeps its rows |
| LayerwiseEngine.StoreLayer.Resume | tkdgjs/experiment/notuse_backup/lmcache_backup/v1/cache_engine.py:668-671 | one resume never meets an exhausted connector generator, puts exactly the next layer, and keeps the earlier puts |
| LayerwiseEngine.StoreLayer.Put | tkdgjs/experiment/notuse_backup/lmcache_backup/v1/cache_engine.py:671 | what is put is, with sync and row by row, what the paged cache held in the slots of that layer's chunks |
| LayerwiseEngine.StoreAll | tkdgjs/experiment/notuse_backup/lmcache_backup/v1/cache_engine.py:661-690 | for any number of layers each layer is put once, in order, and engine and connector yield num_layers + 1 times |
| LayerwiseEngine.RetrieveLayer.Deliver | tkdgjs/experiment/notuse_backup/lmcache_backup/v1/cache_engine.py:944-961 | a delivery, the first one under the condition of `Send`, keeps engine and connector in step; when the objects are released no waiting device operation reads one of them |
| LayerwiseEngine.RetrieveLayer.Finish | tkdgjs/experiment/notuse_backup/lmcache_backup/v1/cache_engine.py:968-982 | the synchronising resume meets a live generator; every layer is then loaded and the engine has yielded num_layers + 2 times |
| LayerwiseEngine.RetrieveAll | tkdgjs/experiment/notuse_backup/lmcache_backup/v1/cache_engine.py:940-982 | a whole layerwise retrieval over the buffered connector on any device: either the zero fill, and nothing else, still waits at a first delivery with a cached position other than zero, which on a lazy device is always so for such a delivery, or in every layer's tensor slot `slots[starts[j] + i]` holds the re-encoded row i of the object fetched for chunk j, tokens between the chunks are zero, and all other slots and all memory outside the request are as before |
| PagedEngine.RetrieveLayer.Deliver | tkdgjs/experiment/notuse_backup/lmcache_backup/v1/cache_engine.py:944-961 | the same lock-step over the paged connector |
| PagedEngine.RetrieveAll | tkdgjs/experiment/notuse_backup/lmcache_backup/v1/cache_engine.py:940-982 | a whole layerwise retrieval over the paged connector, with unrelated work waiting: each paged layer is the scatter of its fetched rows, released once and in order, num_layers + 2 yields |
| ChunkedTransfer.RetrieveTokens | tkdgjs/experiment/notuse_backup/lmcache_backup/v1/cache_engine.py:940-982 | the same per token: after the run the slot of each token of each chunk holds that token's fetched row in every layer, and all other slots keep theirs |
| PagedEngine.RetrieveLayer.ReleasedUnreadIff | tkdgjs/experiment/notuse_backup/lmcache_backup/v1/cache_engine.py:956-961 | after the last delivery, if its last chunk is not empty, no waiting operation of the load stream reads a released object if and only if at most the final scatter still waits there; on a lazy device more does |
| PagedEngine.RetrieveLayer.ReuseHarmlessIff | tkdgjs/experiment/notuse_backup/lmcache_backup/v1/cache_engine.py:956-961 | if the last chunk is not empty and no earlier work on the load stream writes a released object, the loaded layers do not depend on what is written into the released objects if and only if at most the final scatter still waits |
| EventManager.FuturesConserved | tkdgjs/experiment/notuse_backup/lmcache_backup/v1/event_manager.py:33-93 | over any run in which the loop adds each id only while it is absent, every future added is still filed or was popped exactly once |
| EventManager.ConservedIffNeverOverwritten | tkdgjs/experiment/notuse_backup/lmcache_backup/v1/event_manager.py:33-93 | over any run whatever, all futures are conserved if and only if no add and no update lands on an id already filed where it goes |
| EventManager.FuturesAccounted | tkdgjs/experiment/notuse_backup/lmcache_backup/v1/event_manager.py:33-93 | over any run every future added or filed at first is filed, popped or overwritten, each time once |
| EventManager.UpdateMoves | tkdgjs/experiment/notuse_backup/lmcache_backup/v1/event_manager.py:68-93 | an update of any state is this move and nothing else: the first of ongoing, done, not found that holds the id gives up its future to the new status, a duplicate filed elsewhere and every other id stay |
| EventManager.AddAndPop | tkdgjs/experiment/notuse_backup/lmcache_backup/v1/event_manager.py:33-66 | an add files the future as ongoing and changes no other entry; a pop takes a done event out and changes no other entry, or fails and changes nothing |
| EventManager.PopReturnsAdded | tkdgjs/experiment/notuse_backup/lmcache_backup/v1/event_manager.py:33-93 | an added future stays the one filed under its id through any operations on other ids and any updates of its own; after an update to done a pop returns it |
| EventManager.Manager.UpdateEventStatus | tkdgjs/experiment/notuse_backup/lmcache_backup/v1/event_manager.py:68-93 | leaves the future that is found first under the new status, takes it from where it was, and changes no other dictionary entry; a KeyError for an unknown id changes nothing |
| EventManager.Manager.PopEvent | tkdgjs/experiment/notuse_backup/lmcache_backup/v1/event_manager.py:49-66 | hands out a done event's future and removes that entry only, or fails the assertion and changes nothing |
| Retrieval.HitsAreLongestPrefix | tkdgjs/experiment/notuse_backup/lmcache_backup/v1/cache_engine.py:1497-1511 | the returned chunks are exactly the longest prefix of blocks whose keys were fetched |
| Retrieval.FetchedAsReturned | tkdgjs/experiment/notuse_backup/lmcache_backup/v1/cache_engine.py:1491-1493 | a pair is collected exactly as often as it occurs in the lists of all backends |
| Retrieval.DictHoldsLast | tkdgjs/experiment/notuse_backup/lmcache_backup/v1/cache_engine.py:1491-1493 | the dictionary holds under a key the object of the last pair with that key, over backends and their lists in order |
| Retrieval.HitsReturn | tkdgjs/experiment/notuse_backup/lmcache_backup/v1/cache_engine.py:1497-1511 | chunk h is block h with the last object returned under its key, and the chunks stop exactly at the first block whose key no backend returned |
| Retrieval.ReleasedExactlyOnceIff | tkdgjs/experiment/notuse_backup/lmcache_backup/v1/cache_engine.py:1491-1516 | every fetched object is released exactly once over token processing and retrieve if and only if no two objects share a key and no returned block repeats one |
| Retrieval.SharedKeyLeaks | tkdgjs/experiment/notuse_backup/lmcache_backup/v1/cache_engine.py:1491-1493 | of two objects under one key the earlier one is nowhere in the release log |
| Retrieval.RepeatedHitReleasesTwice | tkdgjs/experiment/notuse_backup/lmcache_backup/v1/cache_engine.py:797-801 | a key returned by two blocks puts its object into the release log at least twice |
| Retrieval.AsyncProcessTokens | tkdgjs/experiment/notuse_backup/lmcache_backup/v1/cache_engine.py:1456-1518 | pops the future once; the returned chunks are the longest run of blocks whose keys occur in the future's own results, each with the last object there, the mask marks exactly them, one reference is dropped of exactly the unused objects, and a failed future returns nothing |
| Retrieval.Retrieve | tkdgjs/experiment/notuse_backup/lmcache_backup/v1/cache_engine.py:747-834 | the returned chunks are read off the future's own results, the mask is true exactly on them and the reference counts drop by the whole release log: when no two results share a key or an object and no block repeats a chunk, by one for each object `results[b][i]` |
| Retrieval.TotalSizeAdds | tkdgjs/experiment/notuse_backup/lmcache_backup/v1/cache_engine.py:1508 | the reported size is the sum of the sizes of the chunks' objects |
| Retrieval.ResultsReleasedOnceIff | tkdgjs/experiment/notuse_backup/lmcache_backup/v1/cache_engine.py:747-801 | for results without a repeated object, each `results[b][i].1` is in the release log exactly once if and only if no two results share a key and no returned block repeats one |
| SyncRetrieval.ReturnedIsMarked | tkdgjs/experiment/notuse_backup/lmcache_backup/v1/cache_engine.py:1565-1596 | for any disjoint mapping and any pattern of failures every token of a returned chunk is marked |
| SyncRetrieval.MarkedIsReturnedOrLast | tkdgjs/experiment/notuse_backup/lmcache_backup/v1/cache_engine.py:1588-1596 | a marked token is in a returned chunk or in the fetched chunk that ends where the last failure starts |
| SyncRetrieval.MaskIsUnionIff | tkdgjs/experiment/notuse_backup/lmcache_backup/v1/cache_engine.py:1588-1596 | the mask is exactly the union of the returned chunks if and only if no fetched chunk ends at the last failure |
| SyncRetrieval.AtMostOneUnreturned | tkdgjs/experiment/notuse_backup/lmcache_backup/v1/cache_engine.py:1591-1595 | at most one block ends at the last failure |
| SyncRetrieval.FetchedMarkedNotReturned | tkdgjs/experiment/notuse_backup/lmcache_backup/v1/cache_engine.py:1594 | the strict comparison drops a fetched chunk whose mask bits stay true |
| SyncRetrieval.AllReleasedIff | tkdgjs/experiment/notuse_backup/lmcache_backup/v1/cache_engine.py:1565-1596 | the release of the returned chunks releases every fetched object, as often as it was fetched, if and only if no location returned one after its first failure and all chunks taken end before the last failure |
| SyncRetrieval.TakenIs | tkdgjs/experiment/notuse_backup/lmcache_backup/v1/cache_engine.py:1572-1586 | one location takes its blocks up to the first that was not fetched and fails at that block's start, or does not fail |
| SyncRetrieval.LastFailureIsLatest | tkdgjs/experiment/notuse_backup/lmcache_backup/v1/cache_engine.py:1577-1579 | the last failure is at least the failure of every location |
| SyncRetrieval.MarkedIff | tkdgjs/experiment/notuse_backup/lmcache_backup/v1/cache_engine.py:1565-1592 | a token is marked exactly when its block and all before it at its location were fetched and some location fails at a later token, or none fails |
| SyncRetrieval.ReturnedIs | tkdgjs/experiment/notuse_backup/lmcache_backup/v1/cache_engine.py:1565-1596 | the returned chunks are, in order, those of exactly the blocks that were fetched with all before them at their location and end before some location's failure, or of all such blocks when none fails |
| SyncRetrieval.ProcessTokens | tkdgjs/experiment/notuse_backup/lmcache_backup/v1/cache_engine.py:1565-1596 | the loops over locations and blocks return exactly those chunks, mark exactly those tokens and add up the size of everything taken |
| KeyField.KeyFieldRoundTripIff | tkdgjs/experiment/notuse_backup/lmcache_backup/protocol.py:31-48 | any key comes back from its 150-byte field exactly when it carries no outer whitespace and its UTF-8 form fits |
| WireServer.ClientRoundTripIff | tkdgjs/experiment/notuse_backup/lmcache_backup/protocol.py:24-53 | a client message that passes the length assertion comes back from its fixed-length bytes exactly when its key carries no outer whitespace and fits in UTF-8 |
| WireServer.ServerRoundTrip | tkdgjs/experiment/notuse_backup/lmcache_backup/protocol.py:56-75 | reply headers come back from their eight bytes |
| WireServer.HeaderReadIff | tkdgjs/experiment/notuse_backup/lmcache_backup/protocol.py:45-48 | a client header is read exactly from 158 bytes that hold one of the four command numbers, a little-endian length and the UTF-8 bytes of a text, whose outer whitespace the key loses |
| WireServer.ReplyReadIff | tkdgjs/experiment/notuse_backup/lmcache_backup/protocol.py:68-75 | a reply header is read exactly from eight bytes that hold one of the two codes and a little-endian length |
| WireServer.BrokenInput | tkdgjs/experiment/notuse_backup/lmcache_backup/server/__main__.py:40-50 | input without a readable header ends the connection and changes nothing; a PUT whose value breaks off stores None and ends it; one of no or negative length stores the empty value and reads on |
| WireServer.ServeStaysTidy | tkdgjs/experiment/notuse_backup/lmcache_backup/server/__main__.py:37-105 | whatever bytes arrive, the dictionary goes on listing every stored key exactly once |
| WireServer.ListingSplitsIff | tkdgjs/experiment/notuse_backup/lmcache_backup/server/__main__.py:94-102 | splitting a listing at its line ends gives the stored keys exactly when there are some and none contains a line end |
| WireServer.ServeOne | tkdgjs/experiment/notuse_backup/lmcache_backup/server/__main__.py:39-102 | one request's bytes produce one reply and the sequential map's next state, and leave the rest of the stream |
| WireServer.ReadOne | tkdgjs/experiment/notuse_backup/lmcache_backup/server/__main__.py:60-102 | the client side reads back from a reply stream exactly that answer and the remaining bytes |
| WireServer.ServerRefinesMapIff | tkdgjs/experiment/notuse_backup/lmcache_backup/server/__main__.py:37-105 | for every list of well-formed requests and any store, the reply stream decodes to what a sequential key-value map returns if and only if every reply can be packed, and then the store ends as that map |
| WireServer.ServerRemembers | tkdgjs/experiment/notuse_backup/lmcache_backup/server/server_storage_backend/local_backend.py:95-127 | over every list of well-formed requests: a GET answers with the value of the last PUT of its key before it, else with what was stored at first, else that there is none; EXIST answers present exactly for keys stored at first or put before; at the end every key has its last value, and for a store that lists each key once LIST gives the first keys followed by the new ones in the order of their first PUT |
| WireServer.BoundedRunsAreAnnounceable | tkdgjs/experiment/notuse_backup/lmcache_backup/server/__main__.py:60-102 | every reply can be packed while 151 times the number of stored keys and requests stays below 2^31 |
| WireServer.ReceiveAll | tkdgjs/experiment/notuse_backup/lmcache_backup/server/__main__.py:28-35 | collects exactly n bytes however they are cut into packets, or None when the stream ends first |
| WireServer.Server.HandleClient | tkdgjs/experiment/notuse_backup/lmcache_backup/server/__main__.py:37-105 | the loop's replies and final store are the reference function of the incoming bytes alone, malformed and truncated input included, and the socket is closed |
| WireServer.ServeClient | tkdgjs/experiment/notuse_backup/lmcache_backup/server/__main__.py:28-102 | end to end under any packetisation: while every reply can be packed, the answers are those of a sequential map, a GET gives the value of the last PUT of its key, EXIST and LIST tell the keys put so far, and the store ends with each key's last value |
| SlotMapping.Compress | tkdgjs/experiment/notuse_backup/lmcache_backup/utils.py:55-91 | the compressed list expands to the input and is canonical: ranges span at least three, none is followed by its successor, no three adjacent singles are consecutive |
| SlotMapping.Decompress | tkdgjs/experiment/notuse_backup/lmcache_backup/utils.py:110-131 | the expansion loop computes the concatenation of the items' slots |
| SlotMapping.CanonicalUnique | tkdgjs/experiment/notuse_backup/lmcache_backup/utils.py:55-107 | two canonical lists with the same slots are equal: the compressed form is the only canonical one |
| SlotMapping.AppendRangeOrElements | tkdgjs/experiment/notuse_backup/lmcache_backup/utils.py:93-107 | closing a run appends a range of at least three or its one or two elements |
| SlotParser.WhitespaceIrrelevant | tkdgjs/experiment/notuse_backup/lmcache_backup/utils.py:152-153 | whitespace inserted anywhere in the string changes neither result nor error |
| SlotParser.ItemParsesIff | tkdgjs/experiment/notuse_backup/lmcache_backup/utils.py:190-209 | a printed item parses back exactly when it is a single slot or a non-negative range in order |
| SlotParser.ParsePrintIff | tkdgjs/experiment/notuse_backup/lmcache_backup/utils.py:134-213 | printing any item list and parsing it gives its slots, or an error exactly when some range is negative or reversed |
| SlotParser.RoundTrip | tkdgjs/experiment/notuse_backup/lmcache_backup/utils.py:134-213 | for every list of naturals: compress, print and parse gives the list back without error |
| SlotParser.ParseMixedSlotMapping | tkdgjs/experiment/notuse_backup/lmcache_backup/utils.py:134-213 | the loops compute the grammar's parse, None on every error path |
| SlotGrammar.ParseReads | tkdgjs/experiment/notuse_backup/lmcache_backup/utils.py:152-213 | a text is accepted exactly when, whitespace taken out, it reads from left to right as integers up to the next comma, bracketed pairs of digit runs in order and any number of commas, and it stands for those slots; anything else is an error |
| SlotGrammar.CleanKeeps | tkdgjs/experiment/notuse_backup/lmcache_backup/utils.py:152-153 | taking the whitespace out keeps every other character, in order |
| Numerals.ParseIntIff | tkdgjs/experiment/notuse_backup/lmcache_backup/utils.py:207 | `int` gives n exactly for the texts of n: outer whitespace, a sign or none, digits with single underscores between them, in base 16 perhaps behind 0x; everything else is refused |
| Numerals.PositionalValue | tkdgjs/experiment/notuse_backup/lmcache_backup/utils.py:195-207 | the value of digits is positional, and an underscore counts for nothing |
| Numerals.NoLeadingZero | tkdgjs/experiment/notuse_backup/lmcache_backup/utils.py:382-386 | integers are printed without leading zeros, zero as one digit; with the digits' values this leaves one printed form |
| Whitespace.WhiteIs | tkdgjs/experiment/notuse_backup/lmcache_backup/utils.py:152-153 | which 29 characters split and strip take for whitespace |
| CacheKeys.DTypeRoundTripIff | tkdgjs/experiment/notuse_backup/lmcache_backup/utils.py:287-313 | a dtype comes back from its name exactly when no later table entry shares the name |
| CacheKeys.KeyRoundTripIff | tkdgjs/experiment/notuse_backup/lmcache_backup/utils.py:382-441 | from_string inverts to_string exactly on keys whose model and tags avoid the separators, whose tag names are distinct and whose dtype is named back, negative hashes and layer keys included |
| CacheKeys.ParsedIsStringable | tkdgjs/experiment/notuse_backup/lmcache_backup/utils.py:422-442 | everything from_string accepts is such a key |
| CacheKeys.ParsingIsPlain | tkdgjs/experiment/notuse_backup/lmcache_backup/utils.py:316-329 | on every string parse_cache_key is CacheEngineKey.from_string: its layer branch accepts nothing, because it wants a number where the dtype name is |
| CacheKeys.ParseInvertsPlainIff | tkdgjs/experiment/notuse_backup/lmcache_backup/utils.py:316-329 | parse_cache_key inverts the string of any plain key exactly when the key is stringable |
| CacheKeys.LayerKeysAreRejected | tkdgjs/experiment/notuse_backup/lmcache_backup/utils.py:316-329 | the string of any layer key is rejected, never turned into a plain key |
| CacheKeys.StrippedParsesBackIff | tkdgjs/experiment/notuse_backup/lmcache_backup/utils.py:316-441 | a beginning of a plain key's string, stripped, gives the key back exactly when it is the whole string, the key is stringable and the strip takes nothing away |
| CacheKeys.StringsDistinguish | tkdgjs/experiment/notuse_backup/lmcache_backup/utils.py:522-530 | stringable keys with equal strings are equal: layers collide neither with each other nor with a plain key |
| KeyParsing.StringForm | tkdgjs/experiment/notuse_backup/lmcache_backup/utils.py:382-390 | the string is the model, world size, worker id, hexadecimal hash and dtype name, in a layer key the layer number, and name%value for each tag, joined by at signs |
| KeyParsing.StringRead | tkdgjs/experiment/notuse_backup/lmcache_backup/utils.py:423-442 | from_string accepts a string exactly when the parts between its at signs are enough, the numbers and the dtype can be read and every further part has a percent sign, and returns the key whose fields those parts stand for |
| KeyParsing.TagsRead | tkdgjs/experiment/notuse_backup/lmcache_backup/utils.py:428-434 | there is one tag for each name, in the place of the first part with that name and with the value of the last |
| CacheKeys.SplitLayers | tkdgjs/experiment/notuse_backup/lmcache_backup/utils.py:392-407 | one key per layer, in order, differing in the layer alone |
| RemoteProtocol.MetadataRoundTrip | tkdgjs/experiment/notuse_backup/lmcache_backup/v1/protocol.py:100-150 | whatever serialises comes back unchanged, for any number of groups and whatever follows it in the buffer, in exactly the initialised number of bytes |
| RemoteProtocol.SerializesIff | tkdgjs/experiment/notuse_backup/lmcache_backup/v1/protocol.py:106-127 | metadata serialises exactly when shapes and dtypes match the number of groups, shapes are four-dimensional and all numbers fit 32 bits |
| RemoteParsing.MetadataReadIff | tkdgjs/experiment/notuse_backup/lmcache_backup/v1/protocol.py:128-150 | a buffer is read as metadata exactly when it holds from its beginning on, in four little-endian bytes each, the length, a known memory format and per group the dtype number and four dimensions |
| RemoteParsing.MetadataWritten | tkdgjs/experiment/notuse_backup/lmcache_backup/v1/protocol.py:106-127 | every serialisation holds the length, the format and each group in exactly those places |
| RemoteParsing.CodesAreNumbers | tkdgjs/experiment/notuse_backup/lmcache_backup/v1/protocol.py:37-61 | dtypes are read from eight numbers and none, 1 and 2 both being half, and written under the same numbers, half under 2, the other dtypes not at all |
| RemoteProtocol.MetadataFormat.MetadataBytes | tkdgjs/experiment/notuse_backup/lmcache_backup/v1/protocol.py:93-98 | the announced size is the length of every serialisation under the initialised format |
| RemoteProtocol.MetadataFormat.SerializeMetadata | tkdgjs/experiment/notuse_backup/lmcache_backup/v1/protocol.py:106-127 | the parameter loop computes the serialisation, or fails where packing raises |
| RemoteProtocol.MetadataFormat.DeserializeMetadata | tkdgjs/experiment/notuse_backup/lmcache_backup/v1/protocol.py:128-150 | the group loop computes the deserialisation, or fails on an unknown dtype or format |
| RemoteProtocol.ClientMessageRoundTripIff | tkdgjs/experiment/notuse_backup/lmcache_backup/v1/protocol.py:153-209 | a client message with any plain key that passes the length assertion takes packlength bytes and comes back exactly when its key is stringable and its string has no outer whitespace and fits in UTF-8 |
| RemoteProtocol.LayerMessagesAreRejected | tkdgjs/experiment/notuse_backup/lmcache_backup/v1/protocol.py:192-205 | a message with any layer key never comes back as itself, and is rejected if its string fits in UTF-8 |
| RemoteProtocol.CutLayerKeyTurnsPlain | tkdgjs/experiment/notuse_backup/lmcache_backup/v1/protocol.py:165-205 | a string cut off right before its layer number makes the message come back with the plain key |
| RemoteProtocol.ServerMessageRoundTrip | tkdgjs/experiment/notuse_backup/lmcache_backup/v1/protocol.py:213-257 | server messages come back from their fixed-length bytes |
| RemoteParsing.ClientReadIff | tkdgjs/experiment/notuse_backup/lmcache_backup/v1/protocol.py:192-205 | a client message is read exactly from 186 bytes with a known command, format, dtype and location in their places, the four dimensions, and a key field whose text `parse_cache_key` accepts |
| RemoteParsing.ServerReadIff | tkdgjs/experiment/notuse_backup/lmcache_backup/v1/protocol.py:243-257 | a server message is read exactly from 36 bytes with a known code, format, dtype and location in their places and the four dimensions |
| StatsMonitor.CountersConserved | tkdgjs/experiment/notuse_backup/lmcache_backup/observability.py:580-813 | over any interleaving of events and reports, all reports plus the live interval equal, for all 25 counters, the sum of what each event is worth on its own: requests, tokens, bytes, ping results, evictions, and for a finish the amounts of the request its kind's ledger still holds |
| StatsMonitor.ListsConserved | tkdgjs/experiment/notuse_backup/lmcache_backup/observability.py:526-536 | the reports' series and the live one, in order, are exactly the measurements appended: none lost, none twice |
| StatsMonitor.CoveredExactlyOnce | tkdgjs/experiment/notuse_backup/lmcache_backup/observability.py:624-646 | a request stays in its dictionary until one report covers it and no other report ever does; unfinished requests survive every clear; the report sees the final record |
| StatsMonitor.ReportCoversAllFinished | tkdgjs/experiment/notuse_backup/lmcache_backup/observability.py:651-813 | after a report no finished request is left in a dictionary |
| StatsMonitor.ListedIffCovered | tkdgjs/experiment/notuse_backup/lmcache_backup/observability.py:689-742 | with a strictly increasing clock the time_to_* list of a report names exactly the requests it covers, each once, with the recorded duration; `StatsReports.TimesAreReported` says which duration that is |
| StatsMonitor.TimesUnaffectedByReports | tkdgjs/experiment/notuse_backup/lmcache_backup/observability.py:338-474 | the recorded start and first finish of a retrieve, store or lookup are the same whenever reports fall, or if none is made |
| StatsMonitor.LedgerTracksRun | tkdgjs/experiment/notuse_backup/lmcache_backup/observability.py:580-649 | one kind's dictionary in a run depends on that kind's events and the reports alone |
| StatsReports.LedgerRight | tkdgjs/experiment/notuse_backup/lmcache_backup/observability.py:338-494 | after any events an entry is in its dictionary from its request until the report that follows its first finish, with the clock readings of its `Request` event and of its first finish, for a transfer its last |
| StatsReports.TimesAreReported | tkdgjs/experiment/notuse_backup/lmcache_backup/observability.py:140-143 | under a strictly increasing clock a report lists, in the order of the requests, exactly those first finished since the report before, each with the reading of its first finish, for a transfer its last, minus that of its request |
| StatsReports.GainsConserved | tkdgjs/experiment/notuse_backup/lmcache_backup/observability.py:384-403 | all reports and the live interval together count as slow exactly the finishes of unreported retrieves whose first finish came later than the threshold after the request, or whose tokens over that time fall below the speed threshold, and the hit and transferred tokens of the events themselves |
| StatsMonitor.Monitor.OnRetrieveFinished | tkdgjs/experiment/notuse_backup/lmcache_backup/observability.py:384-403 | counts hits and slow retrievals, records the first end, and refuses a request no longer in the dictionary without any change |
| StatsMonitor.Monitor.OnTransferFinished | tkdgjs/experiment/notuse_backup/lmcache_backup/observability.py:488-494 | a transfer's end is always overwritten and its tokens are counted at each finish |
| StatsMonitor.Monitor.Clear | tkdgjs/experiment/notuse_backup/lmcache_backup/observability.py:580-649 | resets every counter and list and keeps exactly the unfinished requests |
| StatsMonitor.Monitor.GetStatsAndClear | tkdgjs/experiment/notuse_backup/lmcache_backup/observability.py:651-813 | the report shows the state before the clear, in lists that are new objects |
| StatsReports.Drive | tkdgjs/experiment/notuse_backup/lmcache_backup/observability.py:236-813 | a whole run of the object is the run of the model, and at its end every report tells, read off the events alone, the time each request took, the counters since the report before and, series by series, the measurements appended since then: no returned list is a live one |
| LazyAllocator.AlignToPower | tkdgjs/experiment/notuse_backup/lmcache_backup/v1/lazy_memory_allocator.py:49-60 | for a power of two align_to is the least multiple at or above the size |
| LazyAllocator.AlignsIffPowerOfTwo | tkdgjs/experiment/notuse_backup/lmcache_backup/v1/lazy_memory_allocator.py:49-60 | align_to is right for every size if and only if the alignment is a power of two |
| LazyAllocator.KeepLow | tkdgjs/experiment/notuse_backup/lmcache_backup/v1/lazy_memory_allocator.py:225-230 | masking with 2^k - 1 is the remainder: what the alignment assertions test |
| LazyAllocator.PinnedExactlyOnceIff | tkdgjs/experiment/notuse_backup/lmcache_backup/v1/lazy_memory_allocator.py:217-236 | an address is pinned by a record exactly when it lies in the prefix, and then by one record only |
| LazyAllocator.Allocator.Create | tkdgjs/experiment/notuse_backup/lmcache_backup/v1/lazy_memory_allocator.py:90-124 | construction fails exactly when the rounded initial size exceeds the rounded final one; otherwise the initial prefix is pinned and exposed |
| LazyAllocator.Allocator.PinMemoryChunk | tkdgjs/experiment/notuse_backup/lmcache_backup/v1/lazy_memory_allocator.py:217-236 | records the chunk or fails one of the three assertions |
| LazyAllocator.Allocator.ExpandChunk | tkdgjs/experiment/notuse_backup/lmcache_backup/v1/lazy_memory_allocator.py:256-260 | the pinning assertions never fail, and between pinning and advancing the exposed space stays inside the pinned prefix |
| LazyAllocator.Allocator.ExpandWorker | tkdgjs/experiment/notuse_backup/lmcache_backup/v1/lazy_memory_allocator.py:249-264 | initial space plus all sbrk sizes equals the current size at each commit; the run ends at min(final, start + commits * 1 GB) and stops early only if the event was seen set |
| LazyAllocator.ExpandFully | tkdgjs/experiment/notuse_backup/lmcache_backup/v1/lazy_memory_allocator.py:249-264 | an unstopped run pins and exposes the whole buffer, each byte under one record, and every moment in between was safe |
| LazyAllocator.Allocator.Close | tkdgjs/experiment/notuse_backup/lmcache_backup/v1/lazy_memory_allocator.py:193-201 | every recorded pointer is unregistered; they are pairwise different exactly when the first record is not empty or is the only one |
| LayerGroups.GroupsPartition | tkdgjs/experiment/notuse_backup/lmcache_backup/v1/kv_layer_groups.py:149-205 | every layer is in a group; groups are homogeneous, pairwise different in shape or dtype, ascending inside and ordered by first layer |
| LayerGroups.PartitionIsUnique | tkdgjs/experiment/notuse_backup/lmcache_backup/v1/kv_layer_groups.py:149-205 | these laws leave no choice: two groupings that satisfy them are equal |
| LayerGroups.SameGroupIffSameStructure | tkdgjs/experiment/notuse_backup/lmcache_backup/v1/kv_layer_groups.py:166-174 | layers share a group exactly when they share shape and dtype, and no layer is in two groups |
| LayerGroups.SortedIsUnique | tkdgjs/experiment/notuse_backup/lmcache_backup/v1/kv_layer_groups.py:183-192 | keys already in order of first layer are their own only sorted permutation |
| LayerGroups.Manager.Build | tkdgjs/experiment/notuse_backup/lmcache_backup/v1/kv_layer_groups.py:149-205 | builds that partition, once: existing groups are kept |
| LayerGroups.Manager.GetGroupByLayerIdx | tkdgjs/experiment/notuse_backup/lmcache_backup/v1/kv_layer_groups.py:97-109 | finds a group holding the index, and none exactly beyond the layers |
| LayerGroups.Manager.GetGroupByLayerName | tkdgjs/experiment/notuse_backup/lmcache_backup/v1/kv_layer_groups.py:111-123 | finds the group of the one layer with that name |
| LayerGroups.Manager.GetLayerStructure | tkdgjs/experiment/notuse_backup/lmcache_backup/v1/kv_layer_groups.py:125-147 | each layer's own shape and dtype, None beyond the layers |
| LayerGroups.InitPointers | tkdgjs/experiment/notuse_backup/lmcache_backup/v1/gpu_connector.py:468-482 | each group's pointer list has one entry per layer of the group, in the group's order, and every layer's pointer is at exactly one place of one list |
| LayerGroups.Metadata.GetShapes | tkdgjs/experiment/notuse_backup/lmcache_backup/v1/metadata.py:80-109 | one shape per group with its number of layers and its hidden size, the product of the last two of five dimensions or the last of three; an error exactly when some shape has another number of dimensions; the configured shape without groups |
| LayerGroups.Metadata.GetDtypes | tkdgjs/experiment/notuse_backup/lmcache_backup/v1/metadata.py:73-78 | one dtype per group in the same order |
| LayerGroups.ShapesConserveElements | tkdgjs/experiment/notuse_backup/lmcache_backup/v1/metadata.py:80-109 | the elements of all group shapes add up to what each layer needs by its own shape |
| RemoteConfig.LastEffectiveWins | tkdgjs/experiment/notuse_backup/lmcache_backup/v1/config_base.py:761-792 | every key but extra_config ends with the value of its last effective item, for any item list |
| RemoteConfig.UserSetKeyProtectedIff | tkdgjs/experiment/notuse_backup/lmcache_backup/v1/config_base.py:660-673 | a key other than extra_config changes only if an overriding item names it, whatever its value, exactly when one does or no item names it while the user-set keys are known not to hold it; so a user-set key is protected while no item names that attribute |
| RemoteConfig.UsersKeptIff | tkdgjs/experiment/notuse_backup/lmcache_backup/v1/config_base.py:662-673 | the set of user-set keys survives exactly when no handled item names that attribute |
| RemoteConfig.ReplacedSetProtectsNothing | tkdgjs/experiment/notuse_backup/lmcache_backup/v1/config_base.py:660-673 | two items without override that replace the set and then change a protected key: the condition of `UserSetKeyProtectedIff` can fail |
| RemoteConfig.ExtraIsMerged | tkdgjs/experiment/notuse_backup/lmcache_backup/v1/config_base.py:640-658 | extra_config ends as the left-to-right merge or replacement of the parsed values naming it |
| RemoteConfig.ReplacementForgets | tkdgjs/experiment/notuse_backup/lmcache_backup/v1/config_base.py:645-673 | a replacing value makes the values before it irrelevant |
| RemoteConfig.MergesAccumulate | tkdgjs/experiment/notuse_backup/lmcache_backup/v1/config_base.py:645-658 | merges alone accumulate the dictionaries on the current one, or from the first one on |
| RemoteConfig.LastEntryWins | tkdgjs/experiment/notuse_backup/lmcache_backup/v1/config_base.py:650-653 | each entry of the accumulated dictionary is that of the last value holding it |
| RemoteConfig.ApplyIsIdempotentIff | tkdgjs/experiment/notuse_backup/lmcache_backup/v1/config_base.py:742-792 | applying the same response again changes nothing, whatever the attributes hold, exactly when a second pass would leave the user-set keys as the first left them and would set no key to anything but what the first set it to; so it does while no item names that attribute |
| RemoteConfig.Config.ValidateAndSet | tkdgjs/experiment/notuse_backup/lmcache_backup/v1/config_base.py:620-681 | the branches compute the modelled setting, failures included |
| RemoteConfig.Config.Apply | tkdgjs/experiment/notuse_backup/lmcache_backup/v1/config_base.py:761-792 | the loop is the fold over the items before the first whose key is no string, where it raises; it counts the successes |
| RemoteConfig.ItemApplied | tkdgjs/experiment/notuse_backup/lmcache_backup/v1/config_base.py:660-792 | an item with a string key sets that attribute to its value, or None, and nothing else, unless its "override" entry is there and falsy and the name is, or cannot be told not to be, among the user-set keys; an unknown name changes nothing |
| RemoteConfig.OverridesByDefault | tkdgjs/experiment/notuse_backup/lmcache_backup/v1/config_base.py:775 | an item without an "override" entry sets a user-set key |
| RemoteConfig.ExtraApplied | tkdgjs/experiment/notuse_backup/lmcache_backup/v1/config_base.py:640-658 | extra_config is parsed from a string, the empty one standing for None; it is replaced by an overriding item or where no dictionary was, gets the entries of a dictionary added, new ones winning, and is kept otherwise |
| RemoteConfig.ItemCounted | tkdgjs/experiment/notuse_backup/lmcache_backup/v1/config_base.py:776-786 | an item counts as applied unless its name is unknown, its extra_config does not parse or the user-set keys cannot be searched |
| RemoteConfig.UserSetIff | tkdgjs/experiment/notuse_backup/lmcache_backup/v1/config_base.py:662-663 | membership in the user-set keys, also after an item replaced them by a string, list or dictionary, and the values for which it raises |
| RemoteConfig.ItemIgnoredOrAborts | tkdgjs/experiment/notuse_backup/lmcache_backup/v1/config_base.py:762-772 | items that are no dictionary or have no usable key change nothing; a truthy key that is no string, and nothing else, ends the loop |

## Left out

- Waiting for a stream is modelled as draining it on the host. `wait_stream` only orders later work of the waiting stream; where the source uses it, the host could run ahead further than here.
- The paged load's `sync` orders only later current-stream work after the load stream, so it is not part of `LayerLoad`.
- BufferedLoader.Loader.Start: nothing but the loader's own work waits on the two streams when it starts; the source would also accept a busy current stream.
- BufferedLoader.Loader.Send: a first delivery with a cached position other than zero needs the zero fill to have run, because the source itself does not order the two; by `LayersRightIff` some order spoils the layers otherwise.
- LayerwiseEngine.RetrieveLayer.Deliver: the same condition on the first delivery; `RetrieveAll` stops where it fails.
- LayerLoad.Loader.Send: the chunks are contiguous, without which the source's last copy runs past its buffer (`CopiesFitIffContiguous`).
- PagedEngine.RetrieveAll: likewise, and what waits on the current stream at the start touches nothing the load uses; `RaceFreeIff` is the exact condition for each delivery.
- LayerStore.Generator.Start: the buffered store without position caching, which copies nothing (`StoredObjects`), and so has no transfer to model.
- BufferedLoader.Loader.Next: the last flush may still wait on the current stream when the two GPU buffers are handed back, as in the source; what the allocator does with them is not modelled.
- Between two resumes of one request nothing else puts work on the device, and the rows of the fetched memory objects are not written by others.
- `zip(..., strict=False)` truncation in the loads: one memory object per chunk is required.
- Connector branches without the GPU buffer, without position caching on load, the MLA layouts, the SGLang connectors and the non-layerwise transfers.
- The passive rank and broadcast path of `retrieve`, and `remove_after_retrieve`.
- `store_layer`'s allocation loop and `retrieve_layer` without hits; the latter resumes a name that was never bound.
- `cleanup_memory_objs`, which treats (key, object) pairs as objects.
- Storage manager, token database and backends: the blocks and what a fetch returns for each are parameters. The server's store is an insertion-ordered dictionary that keeps None for a value cut short by the end of the stream.
- WireServer.Server.HandleClient: exceptions such as an unknown command or a reply too long for its length field end the loop and close the socket; their propagation to the thread is not modelled.
- Digits outside ASCII, strings with lone surrogates, Python's limit on the length of converted integers, bytes as chunk hashes and tag values that are not strings.
- The numbers of `MemoryFormat` members are a parameter of the binary codecs.
- StatsMonitor.Monitor.OnRetrieveFinished: the statistics objects the source hands out are records in the dictionary here, reached by their id; their profiling timers and detailed metrics, which can appear in several reports, are not modelled, nor are the rate-limited warnings.
- Speeds, hit rates, gauges and the last ping values of a report, and the Prometheus half of that file.
- LazyAllocator.Allocator.ExpandWorker: the allocation and freeing that go on meanwhile in the address manager are not modelled; every intermediate moment another thread can see is recorded and proved safe instead. NUMA, `cudaHostRegister` and its errors are foreign calls.
- RemoteConfig.Config.ValidateAndSet: attributes whose assignment raises, such as `__class__`, are not modelled; `json.loads` is a parameter.
- Fetching the remote response, reading YAML, JSON and environment variables, and all static tables and asserts of the configuration.
- The experiment scripts, the manager, usage context, network connections, RPC helpers, periodic threads and the pin monitor: plotting, lifecycle and plumbing.

# Verification of edfs

A Dafny model of edfs, an in-memory distributed file system: files are split into
content-addressed chunks, every chunk is to be held by two peers, and the directory tree is
replicated by exchanging stamped operations. `dafny verify dfyconfig.toml` checks it all.

## What is modelled

| layer | files | what they hold |
|---|---|---|
| values | `Domain` | bytes, digests, peers, references, metadata |
| placement | `Rendezvous` | the ranking of peers and who the holders are |
| chunk store | `StorageModel`, `Storage` | pinned and cached chunks, byte accounting, the LRU deque |
| tree | `Clock`, `Tree`, `NodeTree` | the hybrid logical clock, the log and its replay, stamping |
| file system | `Content`, `Namespace`, `FileSystem`, `FileSystemRuns` | reading and truncating, names, reachability, whole runs |
| open files | `OpenFiles`, `Fuse` | buffers of handles, the caching loop, the commit on release |
| metadata exchange | `AntiEntropy`, `Sync` | gossip and pull as a protocol, and the handler |
| chunk fetch | `FetchModel`, `FetchSafety`, `FetchRuns`, `Fetcher` | the state machine, its runs, and the handler |
| replication | `ReplicationModel`, `Replication`, `Cluster`, `ClusterFixed`, `ClusterProgress` | one node's steps, the handler, and clusters of nodes and messages |

Code that changes things in place (the chunk store, the clock, the node tree, the file system,
the open-file table, the fetcher, the two handlers) is a class whose methods and loops are
proved against a function on values. The theorems about whole runs are lemmas about these
functions, so they speak of what the classes do.

The main results:

- **Replication under churn.** Views may change at every step and differ between nodes, nodes
  may crash, and messages may be late, repeated or lost. A node evicts only after two nodes
  ranked above it have reported the chunk as pinned, so the two highest-ranked nodes that ever
  pinned a chunk never evict it (`CopiesSurviveChurn`), and a chunk that two nodes have pinned
  survives any one crash (`OneCrashLosesNothing`). The repository's README.md promises exactly
  two holders for every chunk; the code gives that at rest (`AtRestMeansPlaced`), and before
  that there may be more copies, or fewer than two.
- **Replication with fixed members** is safe in the exact sense (`EvictionsAreSafe`), converges
  with a bound on the number of moves (`ReplicationConverges`), and given room can make them
  (`ProbeRoundEvicts`, `DutyGetsPinned`).
- **Chunk fetch.** Every caller waits in one place or has been answered once, no session asks a
  peer twice, each session ends within one outcome per peer, and `None` means everybody connected was tried.
- **Content.** Reads are slices of the written bytes in every reachable state; truncation and
  reading compose; the cache is exactly a least recently used one.
- **Metadata.** Ids are unique, a pull transfers the whole log of the reply, replicas that have
  all pulled from each other have equal trees, and names need no coordination without renames.

## Assumptions

- SHA-256 is an arbitrary function of the bytes. Only `WriteThenRead`, what follows from it
  and `ReleaseCommitsOverlay` assume that no two of the byte strings at hand share a digest.
- The peer score is an arbitrary function; a peer is its byte encoding.
- UUIDv5 (section 5.5 of RFC 9562) is an arbitrary function of parent and name. That it does
  not collide is not assumed.
- FastCDC gives consecutive non-empty pieces that make up the input.
- `crdt_tree` is not part of this model but for its contract: a log of operations keyed by
  (counter, actor), where a known key is ignored, and the tree is the replay in key order that
  skips moves closing a cycle. Actors are taken to be ordered by their bytes.
- Connected peers are distinct and exclude the node itself; request ids are never reused,
  also after a crash.
- Each event of the dispatcher is one atomic step, and each call on the file system is one.
- The system clock, random choices, room in the command channel, and the views of members and
  reachable chunks that a cluster step uses are parameters of the methods and steps.

## Where the code needs a guard

- A stamp is 48 bits of time and 16 of a counter. `NextStampGrowsIff` gives the exact condition
  under which the next stamp is greater, `LogicalPartWrapsAround` a clock where it is not.
  `WriteThenRead` and the runs require that stamps fit (`CanStamp`).
- `rename` into a directory that is not in the tree does not see the names there:
  `UniqueNamesKeptIff` is the exact condition, `RenameIntoMissingDirectoryCollides` the example.
- `ReadAllIsPrefix` gives the exact condition for a full read to be as long as the size in the
  metadata; a file grown by truncation does not meet it.
- A fetch pass that fetched everything may still have lost some of it (`FetchPassMayOverflow`).
  `FetchPassSucceedsIff` is the exact condition; it assumes that within the pass one digest
  brings the same bytes each time.
- `rename` into the trash hides the file from reads, and a `create` or `rename` that would close a
  cycle reports success without effect: `RenameThenRead`, `CreateThenFind` and
  `CycleHasNoEffect` name the guard.
- A candidate whose confirmations were complete while it was out of reach is not asked about
  again (`MissedEvictionIsNotRetried`): it keeps its extra copy until a reply about another
  chunk arrives. `ProbeRoundEvicts` gives the exact condition for a round to evict.

## Model

| member | source | states |
|---|---|---|
| Rendezvous.RankIsStrictTotalOrder | src/network/hrw.rs:21-24 | the comparator of the ranking is a strict total order on peers, for any score: irreflexive, asymmetric, transitive and total, so ties cannot occur |
| Rendezvous.ChosenOutscoreTheRest | src/network/hrw.rs:16-27 | a chosen peer has a higher score than any member left out, or an equal one and the greater bytes |
| Rendezvous.BestFirst | src/network/hrw.rs:21-24 | and so has each earlier peer of the list against each later one |
| Domain.LexLessMeaning | src/network/hrw.rs:22 | bytes compare as a proper prefix or by the first place where they differ |
| Rendezvous.RankedIsUnique | src/network/hrw.rs:16-27 | two ranked lists of the same members are the same list: there is one ranking |
| Rendezvous.PlacementIgnoresListOrder | src/network/hrw.rs:16-27 | `top_peers` gives the same list for every order in which the members are listed |
| Rendezvous.TopPeersAreTheHolders | src/network/hrw.rs:16-27 | a peer is chosen exactly when fewer than `n` members outrank it, and min(n, members) peers are chosen, on the order that `ChosenOutscoreTheRest` spells out |
| Rendezvous.MembershipChangeMovesAtMostOneHolder | src/network/hrw.rs:16-27 | a joining peer displaces at most one holder and only itself becomes one; read backwards, a leaving peer brings in at most one and no other holder changes |
| StorageModel.TryPinIsExact | src/filesystem/storage.rs:51-94 | `try_pin` fails exactly when the pinned bytes and the distinct not yet pinned bytes of the batch exceed the limit; on success the pinned digests are the old ones and those of the batch, nothing readable is lost or changed |
| StorageModel.TryPinKeepsWellFormed | src/filesystem/storage.rs:51-94 | a successful pin respects both limits and takes promoted chunks out of the deque |
| StorageModel.CacheDropsShortestOldestPrefix | src/filesystem/storage.rs:96-123 | `cache` never touches a pinned chunk; it drops a prefix of the deque after which the new bytes fit the limit, while after any shorter prefix they would not, and keeps the bytes of all others |
| StorageModel.PromoteIsExact | src/filesystem/storage.rs:157-173 | a cached chunk becomes pinned, with the bytes it has, exactly when they fit what is left of the pin limit; no other chunk changes |
| StorageModel.EvictIsExact | src/filesystem/storage.rs:175-186 | the chunk is gone, however it was stored, and no other chunk changes |
| StorageModel.GetIsExact | src/filesystem/storage.rs:125-135 | no chunk changes, and a cached one is then the most recently used |
| StorageModel.ApplyKeepsInvariant | src/filesystem/storage.rs:51-186 | every operation keeps the limits, the disjointness of pinned and cached chunks, the deque and the content addressing, and only `evict` drops a pinned chunk |
| StorageModel.RecencyIsLastUseOrder | src/filesystem/storage.rs:96-186 | after any sequence of operations the deque lists the unpinned chunks once each in the exact order of their last use, sizes respect the limits and every key is the digest of its data |
| Storage.ChunkStorage.constructor | src/filesystem/storage.rs:32-41 | the empty store with the given limit and the fixed cache limit |
| Storage.ChunkStorage.FreeBytes | src/filesystem/storage.rs:47-49 | what is left of the pin limit after the summed sizes of the pinned chunks |
| Storage.ChunkStorage.TryPin | src/filesystem/storage.rs:51-94 | the loops over map, deque and counters compute the all-or-nothing pin of the model and keep the counters equal to the summed sizes |
| Storage.ChunkStorage.Cache | src/filesystem/storage.rs:96-123 | the eviction loop and the insertion compute the model's `cache` |
| Storage.ChunkStorage.MakeRoom | src/filesystem/storage.rs:106-115 | the loop stops at exactly the least number of dropped chunks that makes room |
| Storage.ChunkStorage.Get | src/filesystem/storage.rs:125-135 | returns the stored bytes, pinned or cached, and moves a cached chunk to the most recent end |
| Storage.ChunkStorage.IsPinned | src/filesystem/storage.rs:141-143 | true exactly for pinned chunks |
| Storage.ChunkStorage.IsCached | src/filesystem/storage.rs:145-147 | true exactly for unpinned stored chunks |
| Storage.ChunkStorage.PinnedHashes | src/filesystem/storage.rs:149-155 | exactly the pinned digests |
| Storage.ChunkStorage.PromoteToPinned | src/filesystem/storage.rs:157-173 | succeeds for pinned chunks and for cached ones that fit, and then moves the chunk, its bytes and its size |
| Storage.ChunkStorage.EvictChunk | src/filesystem/storage.rs:175-186 | removes the chunk from everything and reports whether it was there |
| Content.TruncateRefs | src/filesystem/chunk.rs:21-43 | the loop computes the recursive truncation |
| Content.TruncateKeepsPrefix | src/filesystem/chunk.rs:21-43 | the sizes sum to min(n, old sum) and the content is that prefix of the old content, although the last reference keeps the whole chunk's digest |
| Content.TruncateComposes | src/filesystem/chunk.rs:21-43 | truncating to `a` and then to `b` is truncating to min(a, b) |
| Content.TruncateKeepsFirstReferences | src/filesystem/chunk.rs:21-43 | the digests kept are those of the first references, and non-empty references are cut to non-empty ones, so no reference of size 0 appears at the cut |
| Content.ReadIsSlice | src/filesystem/mod.rs:218-254 | `read_file` is the slice from `offset` to min(offset + length, size, content length) of the concatenated chunk contents |
| Content.AdjacentReadsCompose | src/filesystem/mod.rs:205-254 | reading `a` and then the next `b` bytes is reading `a + b` bytes |
| Content.ReadAllIsPrefix | src/filesystem/mod.rs:256-262 | a full read is as long as the file's size exactly when the references cover that size; growing a file does not pad it |
| Content.ReadAfterTruncate | src/filesystem/mod.rs:181-262 | after a truncation a full read is the old content cut at the new size |
| Content.MissingIsAbsentConsulted | src/filesystem/mod.rs:375-409 | for every non-empty range the missing chunks are exactly the absent ones among those `read_file` looks up, in order |
| Content.ConsultedIsOverlap | src/filesystem/mod.rs:223-236 | the chunks a read looks up are exactly those whose bytes overlap its range |
| Content.ReadDependsOnConsulted | src/filesystem/mod.rs:218-254 | two stores that agree on those chunks give the same read |
| Clock.HybridLogicalClock.Next | src/filesystem/tree/hlc.rs:17-26 | the fields advance as the model says and the packed value is returned |
| Clock.HybridLogicalClock.Observe | src/filesystem/tree/hlc.rs:28-43 | the fields merge the remote stamp as the model says |
| Clock.NextIsLeast | src/filesystem/tree/hlc.rs:17-26 | `next` gives the least pair that is after the clock and not before the system clock |
| Clock.ObservedIsLeast | src/filesystem/tree/hlc.rs:28-43 | `observe` gives the least pair not before the clock, the remote stamp and the system clock |
| Clock.UnpackPack | src/filesystem/tree/hlc.rs:28-31 | unpacking and packing is the identity on 64-bit stamps |
| Clock.PackPreservesOrder | src/filesystem/tree/hlc.rs:52-54 | packing preserves and reflects the order of (physical, logical) while both fit 48 and 16 bits |
| Clock.NextStampGrowsIff | src/filesystem/tree/hlc.rs:17-26 | the exact condition for a new stamp to exceed the last one: the system clock moved on or the logical part does not wrap |
| Clock.LogicalPartWrapsAround | src/filesystem/tree/hlc.rs:17-54 | a clock that has seen one stamp of a peer and whose next stamp is smaller than that one |
| Clock.ClockNeverGoesBack | src/filesystem/tree/hlc.rs:17-43 | over any sequence of `next` and `observe` with any system clock, also one that jumps back, the pair never decreases and dominates every observed stamp |
| Clock.LaterStampsAreGreater | src/filesystem/tree/hlc.rs:17-54 | a `next` after any such sequence gives a pair strictly above every earlier one, always, and a greater packed stamp while both pairs fit their bits |
| Tree.ClimbsDecidesAncestry | src/filesystem/tree/mod.rs:41-78 | the terminating walk up the parents decides ancestry, also in trees with dangling parents |
| Tree.ReplayIsAcyclic | src/filesystem/tree/mod.rs:118-123 | replaying any log gives a tree without cycles |
| Tree.InsertMeaning | src/filesystem/tree/mod.rs:118-123 | by the contract of the library, applying an operation adds it once at its place in (counter, actor) order, and a duplicate id changes nothing |
| Tree.SameIdsSameTree | src/filesystem/tree/mod.rs:118-152 | logs with equal id sets over operations with unique ids are the same log and give the same tree |
| Tree.ArrivalOrderDoesNotMatter | src/filesystem/tree/mod.rs:118-123 | two batches applied in either order, with any repetition, give one log and one tree |
| Tree.MissingFromMeaning | src/filesystem/tree/mod.rs:139-152 | exactly the operations whose ids are not known are sent |
| Tree.MissingFromIsSorted | src/filesystem/tree/mod.rs:139-152 | and they are sent in the order of the log |
| NodeTrees.NodeTree.CreateNode | src/filesystem/tree/mod.rs:41-64 | the operation gets the next stamp of the clock and the own peer id and is applied |
| NodeTrees.NodeTree.MoveNode | src/filesystem/tree/mod.rs:66-78 | fails exactly for a node that is not in the tree, else stamps and applies the move |
| NodeTrees.NodeTree.ApplyOperations | src/filesystem/tree/mod.rs:118-123 | observes every stamp and then applies every operation |
| NodeTrees.ObserveAllIsLeast | src/filesystem/tree/mod.rs:118-123 | after a batch the clock is not after any pair that bounds the old clock, the stamps and the system clock |
| NodeTrees.NodeTree.OperationIds | src/filesystem/tree/mod.rs:125-137 | exactly the ids in the log |
| NodeTrees.NodeTree.OperationsMissingFrom | src/filesystem/tree/mod.rs:139-152 | the filter loop returns exactly the operations of the log whose ids are not known, in stamp order |
| NodeTrees.LocalTakesEffect | src/filesystem/tree/mod.rs:41-78 | while stamps fit, a local operation is later than the whole log, so it is applied to the current tree |
| NodeTrees.RemoteKeepsHealthy | src/filesystem/tree/mod.rs:118-123 | applying remote operations keeps the clock ahead of the log, adds exactly their ids and loses nothing |
| Namespace.MutationsStampNamedOps | src/filesystem/mod.rs:112-203 | on a tree without renames every mutation but `rename` stamps an operation that puts a node at the id of its parent and name, or in the trash |
| Namespace.NamedOpsGiveNamedTree | src/filesystem/mod.rs:423-438 | replaying such operations in any order puts every node outside the trash at the id of its parent and name |
| Namespace.NamedTreeHasUniqueNames | src/filesystem/mod.rs:423-438 | in such a tree no two siblings outside the trash share a name |
| Namespace.MutationKeepsUniqueNames | src/filesystem/mod.rs:112-316 | with renames, a mutation into an existing directory keeps sibling names unique |
| Namespace.UniqueNamesKeptIff | src/filesystem/mod.rs:280-316 | a mutation that passed its checks keeps sibling names unique exactly when it puts the node under itself or into the trash, goes to an existing directory, or meets no namesake |
| Namespace.RenameIntoMissingDirectoryCollides | src/filesystem/mod.rs:280-316 | a log of two creations after which a `rename` into a directory that is not in the tree gives two siblings one name |
| Namespace.ExploredIsExact | src/filesystem/mod.rs:347-373 | when the search has nothing left to expand it has found exactly the reachable chunks |
| Namespace.ReachableMeaning | src/filesystem/mod.rs:347-373 | a chunk is reachable exactly if it is the digest of some reference, of any index, of a regular file from which parents lead to the root through directories other than the trash |
| FileSystems.FileSystem.ChildId | src/filesystem/mod.rs:69-79 | finds a child with the name, or `NotFound` exactly when there is none |
| FileSystems.FileSystem.CreateNode | src/filesystem/mod.rs:423-438 | succeeds exactly when the name is free and then stamps a node whose id depends on parent and name only |
| FileSystems.DeleteFileRefused | src/filesystem/mod.rs:149-153 | exactly when `delete_file` refuses the child it found, for each error: trashed, a directory, or reserved |
| FileSystems.FileSystem.DeleteFile | src/filesystem/mod.rs:144-154 | `NotFound` if there is no such child, else exactly the refusal or the deletion of a child with the name, which is decided by the arguments when the name is unique; an error changes nothing |
| FileSystems.DeleteDirectoryRefused | src/filesystem/mod.rs:118-125 | exactly when `delete_directory` refuses the child it found, for each error: trashed, not a directory, not empty, or reserved |
| FileSystems.FileSystem.DeleteDirectory | src/filesystem/mod.rs:112-126 | as for files: `NotFound` if there is no such child, else exactly the refusal or the deletion, which happens only if no node of the tree has it as its parent; an error changes nothing |
| FileSystems.FileSystem.DeleteNode | src/filesystem/tree/mod.rs:80-91 | `ReservedNode` exactly for the root and the trash, `NotFound` exactly for other nodes not in the tree, else the node moves to the trash with its metadata |
| FileSystems.FileSystem.Rename | src/filesystem/mod.rs:280-316 | `NotFound`, `AlreadyExists`, no change and success each under its exact condition; on success only place and name change, and nobody else has the new name |
| FileSystems.RewritesKeepPlaceAndName | src/filesystem/mod.rs:156-203 | what `write_file` and `truncate_file` stamp are rewrites in place, so the results on names cover them |
| FileSystems.FileSystem.WriteFile | src/filesystem/mod.rs:156-179 | pins all pieces or fails without a trace; on success the new references and size are stamped |
| FileSystems.FileSystem.TruncateFile | src/filesystem/mod.rs:181-203 | stamps the truncated references and the new size |
| FileSystems.FileSystem.ReadFile | src/filesystem/mod.rs:205-254 | the loop returns the model's read and touches exactly the chunks it looks up, in order |
| FileSystems.FileSystem.MissingChunkHashesFor | src/filesystem/mod.rs:375-409 | the loop returns the model's missing chunks |
| FileSystems.RewriteRefused | src/filesystem/mod.rs:159-163 | `NotFound` exactly for a node other than the root that is missing or in the trash, `IsADirectory` exactly for the root and for any other node that is no regular file, a link included |
| FileSystems.FileSystem.ReachableChunkHashes | src/filesystem/mod.rs:347-373 | terminates on every finite parent map and returns exactly the digests of all the references of the regular files joined to the root by directories outside the trash |
| FileSystemRuns.WriteThenRead | src/filesystem/mod.rs:156-262 | after a successful write the full read returns exactly the data and all its chunks are pinned, whatever the log and the store held before |
| FileSystemRuns.WriteThenReadInEveryReachableState | src/filesystem/mod.rs:156-262 | the same in every state reached by interleaving local mutations, remote operations and store changes |
| FileSystemRuns.TruncateThenRead | src/filesystem/mod.rs:181-254 | after truncating a file the full read is the old content cut at the new size |
| FileSystemRuns.RenameThenRead | src/filesystem/mod.rs:280-316 | after a rename that closes no cycle the node is under its new parent and name, keeps its kind, size, references or link target, every read of it gives what it gave before unless it went to the trash, and no other node changes |
| FileSystemRuns.CreateThenFind | src/filesystem/mod.rs:423-438 | a created node is then the one found under its name, with the metadata asked for, and no other node changes |
| FileSystemRuns.DeleteThenGone | src/filesystem/tree/mod.rs:80-91 | a deleted node is then hidden, found under no name outside the trash, and no other node changes |
| FileSystemRuns.CycleHasNoEffect | src/filesystem/tree/mod.rs:66-78 | a move that would put a node below itself is stamped and logged but leaves the tree as it is |
| FileSystemRuns.WrittenChunksAreReachable | src/filesystem/mod.rs:156-179 | after a successful write to a file below the root every piece written is reachable |
| FileSystemRuns.ConsultedAreReachable | src/filesystem/mod.rs:205-373 | every chunk that some read of a file below the root looks up is reachable |
| FileSystemRuns.LocalRunKeepsUniqueNames | src/filesystem/mod.rs:112-316 | in every run of one replica, renames included, siblings under existing directories never share a name |
| OpenFiles.OpenFileManager.Read | src/fuse/open_file.rs:59-71 | the buffered bytes of the range, cut at the end of the buffer |
| OpenFiles.OpenFileManager.WriteBytes | src/fuse/open_file.rs:73-92 | grows the buffer with zeros if needed, overwrites the range, marks the handle, or reports the error without effect |
| OpenFiles.OpenFileManager.ReleaseFile | src/fuse/open_file.rs:47-53 | closes the handle and hands back the buffer exactly when it was written to |
| OpenFiles.OverlayMeaning | src/fuse/open_file.rs:73-92 | a buffer is its base overlaid by the writes in order: each byte is the latest written there and gaps are zero |
| OpenFiles.ReleasedIsOverlay | src/fuse/open_file.rs:35-104 | whatever happens to other handles, a released buffer is the base overlaid by the writes of that handle |
| OpenFiles.LoadedHandleLife | src/fuse/open_file.rs:35-104 | a handle that is opened, then loaded and written to, with operations on others in between, hands back the loaded bytes overlaid by its writes, or nothing if there were none, and is closed by its release |
| OpenFiles.CreatedHandleLife | src/fuse/open_file.rs:35-53 | a created handle does so from no bytes, without being loaded |
| OpenFiles.UnloadedHandleLife | src/fuse/open_file.rs:73-104 | an opened handle that is not loaded takes no writes, keeps its metadata and hands nothing back |
| OpenFiles.ReportedSizeGrows | src/fuse/open_file.rs:73-92 | the size a handle reports is the largest of its old size and the ends of its writes, and the rest of its metadata stays |
| Fuse.CacheFetched | src/fuse/gateway.rs:28-43 | the loop caches every fetched chunk and reports whether all were found |
| Fuse.FetchPassSucceedsIff | src/fuse/gateway.rs:20-44 | a pass that fetched everything leaves nothing missing exactly when the cached chunks from the first consulted one of the deque on and the distinct fetched chunks fit the cache together |
| Fuse.FetchPassLeavesNothingMissing | src/fuse/gateway.rs:20-44 | so it does when what it fetched fits beside all that is cached, and the read that follows has no zero filler; this holds also if one digest brings different bytes |
| Fuse.FetchPassMayOverflow | src/fuse/gateway.rs:28-43 | two chunks that fit the cache one by one but not together: the pass returns true and the first is gone |
| Fuse.ReleaseCommitsOverlay | src/fuse/mod.rs:364-382 | whatever has become of the file and the store since the handle was loaded, its release commits exactly the loaded buffer overlaid by the writes, and a full read returns it |
| Fuse.LoadWriteRelease | src/fuse/mod.rs:336-382 | over a run, from the opened and not yet loaded handle: loaded with the full read of one state and released in a later one, the full read is then the content at loading overlaid by the writes |
| AntiEntropy.StepKeepsInv | src/network/handlers/tree_sync.rs:38-104 | logs only grow, hold issued operations only, and every message tells the truth, in every step of mutation, gossip, pull, answer, delivery and loss |
| AntiEntropy.LogsOnlyGrow | src/filesystem/tree/mod.rs:118-123 | in every run no replica ever loses an operation |
| AntiEntropy.IdsAreUniqueClusterWide | src/filesystem/tree/mod.rs:41-53 | in every run, over all logs and messages, an id stands for one operation |
| AntiEntropy.PullIsComplete | src/network/handlers/tree_sync.rs:38-104 | when a reply arrives, the requester then has the whole log the responder had when it replied, although the ids it was computed from are stale |
| AntiEntropy.EqualIdsEqualTrees | src/network/handlers/tree_sync.rs:38-104 | in every run replicas with equal id sets have equal logs and trees |
| AntiEntropy.QuiescenceConverges | src/network/handlers/tree_sync.rs:38-104 | in every run, when nobody mutates any more and every replica has since completed a pull from every other, all logs and trees are equal |
| AntiEntropy.NamesNeedNoCoordination | src/filesystem/mod.rs:423-438 | in every run without renames, on every replica, every node outside the trash is at the id of its parent and name and sibling names are unique |
| Sync.SyncHandler.Tick | src/network/handlers/tree_sync.rs:59-68 | at most one peer is asked, only when the interval is over, with exactly the ids of the own log |
| Sync.SyncHandler.OnConnectionEstablished | src/network/handlers/tree_sync.rs:72-78 | the first connection to a peer, and only the first, starts an exchange |
| Sync.SyncHandler.OnPullMissingOperations | src/network/handlers/tree_sync.rs:79-94 | answers with the operations whose ids were not sent |
| Sync.SyncHandler.OnMissingOperations | src/network/handlers/tree_sync.rs:95-100 | has the effect of applying the operations, an empty answer included |
| FetchSafety.TargetsMeaning | src/network/handlers/chunk.rs:25-36 | the targets are distinct connected peers not tried before, the given number of them or all if there are fewer, so there is none exactly when every connected peer has been tried |
| FetchSafety.EventKeepsInv | src/network/handlers/chunk.rs:53-182 | every event keeps sessions and requests inverse to each other, one to three attempts a session, one fate for every caller and a well-formed store |
| FetchRuns.RequestsAreAttempts | src/network/handlers/chunk.rs:38-50 | in every run a request is on record for a chunk exactly when it is an attempt of that chunk's session, and each session has one to three attempts |
| FetchRuns.EveryCallerHasOneFate | src/network/handlers/chunk.rs:53-182 | in every run each caller waits in exactly one place or has been answered exactly once, with bytes only if they have the digest asked for |
| FetchRuns.SessionProgress | src/network/handlers/chunk.rs:91-182 | seen from a live session an event ends at most one attempt, and whoever is asked next are the next best connected peers not tried before |
| FetchRuns.SuccessServesEveryCaller | src/network/handlers/chunk.rs:123-159 | bytes with the right digest end the session: every caller gets them, exactly the requests of that chunk are forgotten, the chunk is readable if it fits the cache, and a chunk to pin is pinned or backs off |
| FetchRuns.PinResponseIsExact | src/network/handlers/chunk.rs:146-155 | good bytes for a session that pins are pinned, with no back-off, exactly when what they add fits the pin limit, and otherwise cached with a back-off of 5 s; for a plain read they are cached, and pins and back-offs stay |
| FetchRuns.SessionCollectsFetches | src/network/handlers/chunk.rs:53-83 | after any event a live session pins exactly if the fetch that opened it or one that joined it pins, and its waiters are theirs in order |
| FetchRuns.FetchOpensUnlessBlocked | src/network/handlers/chunk.rs:53-121 | a fetch without a session asks the three best-ranked connected peers at once, unless it is a plain read of a chunk that backs off; that read and a fetch with nobody connected are answered `None` at once |
| FetchRuns.BackoffIsExact | src/network/handlers/chunk.rs:91-182 | but for good responses a back-off of 5 s starts exactly when a session that pins ends, no other back-off changes, and neither does the store |
| FetchRuns.SessionNeverAsksTwice | src/network/handlers/chunk.rs:91-121 | as long as it lives a session asks no peer twice, and what it has tried is what it has asked |
| FetchRuns.OutcomesDrainMeasure | src/network/handlers/chunk.rs:161-182 | each outcome takes exactly one off the number of untried peers and open attempts, and nothing else changes it |
| FetchRuns.SessionEndsWithinOneOutcomePerPeer | src/network/handlers/chunk.rs:91-182 | over a finite set of peers a session ends at the latest with one outcome per peer |
| FetchRuns.FailureEndsSessionIffExhausted | src/network/handlers/chunk.rs:161-182 | a failed attempt ends a session exactly when it was the last one open and every connected peer has been tried |
| FetchRuns.NoneMeansEveryPeerWasTried | src/network/handlers/chunk.rs:53-121 | nobody is told `None` while a connected peer is untried, but for a plain read that meets the back-off of a failed pin |
| FetchRuns.TriedIsAPrefixOfTheRanking | src/network/handlers/chunk.rs:25-36 | while the connected peers stay the same, the peers a session has tried are a prefix of the ranking |
| Fetcher.ChunkFetcher.FetchChunk | src/network/handlers/chunk.rs:53-83 | joins a session, refuses, or opens a session and asks, as the model says |
| Fetcher.ChunkFetcher.WalkDown | src/network/handlers/chunk.rs:91-121 | the sending loop and the reply loop compute the model's next round or the end of the session |
| Fetcher.ChunkFetcher.HandleResponse | src/network/handlers/chunk.rs:123-159 | checks the digest, closes the session and its requests, keeps the chunk and answers every caller, as the model says |
| Fetcher.ChunkFetcher.HandleFailure | src/network/handlers/chunk.rs:161-166 | forgets the request and counts the attempt as failed |
| Fetcher.ChunkFetcher.OnAttemptFailed | src/network/handlers/chunk.rs:168-182 | removes the attempt and, after the last one, starts the next round |
| ReplicationModel.SweepTakesOnlyDuties | src/network/handlers/replication.rs:59-106 | a rebalance loses and changes no bytes, pins only cached chunks the node is designated for, and asks at most 64 times, only for such chunks it lacks |
| ReplicationModel.SweepLeavesNothingUndone | src/network/handlers/replication.rs:59-106 | a rebalance below that limit leaves each reachable chunk among whose top two peers the node is pinned, backing off, asked for, or met by a full channel |
| ReplicationModel.SweepRespectsBackoffs | src/network/handlers/replication.rs:78-103 | a chunk that backs off is neither pinned nor asked for, none is asked for through a full channel, and a back-off of 5 s starts only for a cached chunk the node has to hold whose bytes do not fit the pin limit |
| ReplicationModel.ProbesGoToHolders | src/network/handlers/replication.rs:134-155 | a probe goes to a designated holder of each chunk it asks about and never to the node itself |
| ReplicationModel.RoundMeaning | src/network/handlers/replication.rs:108-156 | a round asks a peer about a chunk exactly if the chunk is pinned and reachable, the node need not hold it, and the peer has to and has not confirmed; the confirmations of such chunks are kept and all others dropped, and each probe is on record under its peer |
| ReplicationModel.HeldAppend | src/network/handlers/replication.rs:192-199 | the answer to a probe keeps the order and repetitions of the question |
| ReplicationModel.Confirm | src/network/handlers/replication.rs:215-220 | a reply adds the peer to the confirmations of exactly the hashes it lists |
| ReplicationModel.EvictsExactlyWhenAllConfirm | src/network/handlers/replication.rs:158-179 | a reply makes a node drop a pinned chunk exactly when the chunk is reachable and every holder designated in the current view has then confirmed it |
| ReplicationModel.ReplyIsExact | src/network/handlers/replication.rs:158-221 | for every chunk, what is confirmed and what is pinned after a reply, spelled out: completed chunks lose their pin and their confirmations, nothing else changes, and a reply to an unknown probe has no effect |
| ReplicationModel.DesignatedOutrankOthers | src/network/handlers/replication.rs:28-36 | a node that is not designated in its own view sees exactly two that are, both ranked above it |
| Replication.ReplicationHandler.Rebalance | src/network/handlers/replication.rs:59-106 | the loop over the reachable chunks computes the model's sweep, and nothing happens in a cluster of one |
| Replication.ReplicationHandler.ProbeEvictionCandidates | src/network/handlers/replication.rs:108-156 | keeps the confirmations of candidates only and asks every holder that has not confirmed a candidate about it, once, in batches of at most 256 |
| Replication.ReplicationHandler.EvictConfirmed | src/network/handlers/replication.rs:158-179 | evicts exactly the completed chunks and forgets their confirmations |
| Replication.ReplicationHandler.OnCheckChunks | src/network/handlers/replication.rs:185-206 | answers with exactly the asked chunks that are pinned |
| Replication.ReplicationHandler.OnHeldChunks | src/network/handlers/replication.rs:207-222 | a reply to an unknown id is ignored, any other confirms and evicts as the model says |
| Replication.ReplicationHandler.OnOutboundFailure | src/network/handlers/replication.rs:223-227 | forgets the probe and nothing else |
| Clusters.StepKeepsInv | src/network/handlers/replication.rs:108-227 | every step with any views, crashes included, keeps: books and replies rest on reports that were given, ids stand for their probes, and of all nodes that ever pinned a chunk the two ranked highest pin it unless they crashed |
| Clusters.CopiesSurviveChurn | src/network/handlers/replication.rs:108-227 | whatever the views, delays, repetitions and losses, of all nodes that ever pinned a chunk the two ranked highest pin it unless they crashed, so min(2, n) copies less the crashed nodes remain |
| Clusters.OneCrashLosesNothing | src/network/handlers/replication.rs:158-179 | a chunk that two nodes have pinned survives the crash of any one node, whenever it comes and for ever after |
| Clusters.NoNodeIsIndispensable | src/network/handlers/replication.rs:158-179 | while no node has crashed, a chunk that two nodes have pinned is pinned by a node other than any given one |
| Clusters.PinnedStaysPinned | src/network/handlers/replication.rs:158-179 | in every run a chunk pinned somewhere stays pinned somewhere and two copies stay at least two, less one for each crashed node |
| Clusters.EvictionsRestOnReports | src/network/handlers/replication.rs:153-221 | in every run a node that has not just crashed drops only a chunk it is not designated for in its current view, for which exactly two other nodes are designated and have each reported earlier in the run that they pin it |
| FixedMembers.StepKeepsFixedInv | src/network/handlers/replication.rs:108-227 | with fixed members every confirmation, in a book or under way, names a designated holder that still pins the chunk |
| FixedMembers.EvictionsAreSafe | src/network/handlers/replication.rs:158-221 | with fixed members a node evicts only while both designated holders, neither of them itself, pin the chunk, and they go on pinning it |
| FixedMembers.StepRepairs | src/network/handlers/replication.rs:59-179 | without new writes every pin and every eviction repairs one misplaced chunk and no step misplaces any |
| FixedMembers.NothingBecomesMisplaced | src/network/handlers/replication.rs:59-179 | in every fixed run without new writes the misplaced chunks only become fewer |
| FixedMembers.ReplicationConverges | src/network/handlers/replication.rs:59-179 | in every such run the moves made and the chunks still misplaced add up to the chunks misplaced at the start, which bounds the moves |
| FixedMembers.AtRestMeansPlaced | src/network/handlers/replication.rs:59-143 | with two or more nodes and equal trees, when no node has anything to take up or a candidate to evict, each reachable chunk is pinned exactly at its two designated holders |
| Progress.ProbeRoundEvicts | src/network/handlers/replication.rs:108-221 | from any state in which both homes pin a candidate, a probe round can be sent, answered and delivered, and then the chunk is evicted exactly if there was a probe to send and the chunk was reachable when the replies came |
| Progress.ConfirmedCandidateIsNotAskedAbout | src/network/handlers/replication.rs:134-143 | a round asks nobody about a candidate that all its designated holders have confirmed |
| Progress.MissedEvictionIsNotRetried | src/network/handlers/replication.rs:134-179 | replies that come while the chunk is out of reach leave it pinned, and the next round asks nobody about it, even if it is reachable again |
| Progress.FetcherStores | src/network/handlers/chunk.rs:146-155 | on good bytes the fetch state machine does to the store what the step of a cluster does, so the results on clusters cover it |
| Progress.DutyGetsPinned | src/network/handlers/replication.rs:59-106 | a chunk that a node has to hold gets pinned there by one sweep, or by that sweep and the fetch it asks for, if there is room |

## Left out

- libp2p transport, encodings, gossipsub, mDNS and the swarm: only sends, deliveries, repetitions, losses and failures are modelled, as steps.
- The internals of FastCDC, SHA-256 and UUIDv5, which stand as parameters.
- Mounting, attributes, error numbers, directory paging, statfs, the inode map, the operation batcher and the command line: input and output, or easy members only.
- Real time: `Instant` is a number that is passed in, nothing bounds a delay, and the timers that trigger a rebalance or an eviction round are left out, so these may happen at any time.
- Locking: two racing first writes on one handle, and interleavings inside one call.
- Sums of sizes beyond 2^64 and a logical clock part beyond 2^64 do not wrap in the model.
- Storage.ChunkStorage.Get: the source changes the deque behind a lock during a read; here the read is a method that changes the store.
- FileSystems.FileSystem.ChildId: the source takes the first match in the library's child order; here it is any match, so where several children share a name the results say which child only up to that choice.
- Fuse.FetchPassLeavesNothingMissing: a sufficient condition only; the exact one is `FetchPassSucceedsIff`.
- Progress.DutyGetsPinned: only for a node that could pin all it stores and for a sweep below 64 fetches; without room, what gets pinned depends on the order in which the sweep meets the chunks.
- Clusters.OneCrashLosesNothing: more than one crash; two crashes can take both copies.
- FetchModel: the log of requests and replies and the table of issued reply channels are kept for the proofs only.
- Clusters: the order in which a rebalance meets the reachable chunks is arbitrary, and so are the reachable chunks of a step, as trees are not part of the cluster model.
